/** Trimming as strings.TrimSpace does it, and strings.ToLower on ASCII letters. */
module Text {
  predicate IsSpace(c: char) {
    || c == ' ' || '\t' <= c <= '\r' || c == '\U{85}' || c == '\U{A0}' || c == '\U{1680}'
    || '\U{2000}' <= c <= '\U{200A}' || c == '\U{2028}' || c == '\U{2029}' || c == '\U{202F}'
    || c == '\U{205F}' || c == '\U{3000}'
  }

  function TrimLeft(s: string): (r: string)
    ensures r == [] || !IsSpace(r[0])
    ensures s == [] || IsSpace(s[0]) || r == s
    ensures s != [] && !IsSpace(s[|s| - 1]) ==> r != [] && r[|r| - 1] == s[|s| - 1]
  {
    if s != [] && IsSpace(s[0]) then TrimLeft(s[1..]) else s
  }

  function TrimRight(s: string): (r: string)
    ensures r == [] || !IsSpace(r[|r| - 1])
    ensures s == [] || IsSpace(s[|s| - 1]) || r == s
    ensures r <= s
  {
    if s != [] && IsSpace(s[|s| - 1]) then TrimRight(s[..|s| - 1]) else s
  }

  function Trim(s: string): string {
    TrimLeft(TrimRight(s))
  }

  predicate Trimmed(s: string) {
    s == [] || (!IsSpace(s[0]) && !IsSpace(s[|s| - 1]))
  }

  predicate Blank(s: string) {
    forall c :: c in s ==> IsSpace(c)
  }

  /** Trimming takes spaces off both ends and nothing else, until neither end has one. */
  lemma TrimExact(s: string)
    ensures Trimmed(Trim(s)) && (Trim(s) == s <==> Trimmed(s)) && Trim(Trim(s)) == Trim(s)
    ensures exists a, b :: s == a + Trim(s) + b && Blank(a) && Blank(b)
  {
    TrimTrimmed(s);
    TrimTrimmed(Trim(s));
    var b := RightSpaces(s);
    var a := LeftSpaces(TrimRight(s));
    assert s == a + Trim(s) + b;
  }

  lemma {:induction false} RightSpaces(s: string) returns (b: string)
    ensures s == TrimRight(s) + b && Blank(b)
  {
    b := "";
    if s != [] && IsSpace(s[|s| - 1]) {
      b := RightSpaces(s[..|s| - 1]);
      b := b + [s[|s| - 1]];
    }
  }

  lemma {:induction false} LeftSpaces(s: string) returns (a: string)
    ensures s == a + TrimLeft(s) && Blank(a)
  {
    a := "";
    if s != [] && IsSpace(s[0]) {
      a := LeftSpaces(s[1..]);
      a := [s[0]] + a;
    }
  }

  lemma TrimTrimmed(s: string)
    ensures Trimmed(Trim(s)) && (Trimmed(s) ==> Trim(s) == s)
  {
    var t := TrimRight(s);
    assert t != [] ==> !IsSpace(t[|t| - 1]);
  }

  function LowerChar(c: char): char {
    if 'A' <= c <= 'Z' then c - 'A' + 'a' else c
  }

  function Lower(s: string): (r: string)
    ensures |r| == |s|
  {
    seq(|s|, i requires 0 <= i < |s| => LowerChar(s[i]))
  }

  /** The same letter, once small and once capital. */
  predicate SameLetter(a: char, b: char) {
    ('A' <= a <= 'Z' && b as int == a as int + 32) || ('A' <= b <= 'Z' && a as int == b as int + 32)
  }

  /** Two texts become one exactly if they differ in the case of letters only; and no capital is left. */
  lemma LowerFolds(s: string, t: string)
    ensures Lower(s) == Lower(t) <==> |s| == |t| && forall i :: 0 <= i < |s| ==> s[i] == t[i] || SameLetter(s[i], t[i])
    ensures forall c :: c in Lower(s) ==> !('A' <= c <= 'Z')
  {
    if Lower(s) == Lower(t) {
      forall i | 0 <= i < |s| ensures s[i] == t[i] || SameLetter(s[i], t[i]) {
        assert Lower(s)[i] == Lower(t)[i];
      }
    }
  }

  /** Trim, then lower: what all the normalisers of the configuration start with. */
  function Plain(s: string): string {
    Lower(Trim(s))
  }
}
