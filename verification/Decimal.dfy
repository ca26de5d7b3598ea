/** stun2/svr.go: decimal digits written by itoa and read back by the loop of buildChangedAddress. */
module Decimal {
  function Digit(d: nat): char
    requires d < 10
  {
    '0' + d as char
  }

  function Digits(n: nat): (s: string)
    ensures n > 0 ==> s != ""
  {
    if n == 0 then "" else Digits(n / 10) + [Digit(n % 10)]
  }

  /** itoa: digits are put in front of the result from the last one on. */
  method Itoa(n: int) returns (s: string)
    ensures s == Text(n)
  {
    if n == 0 {
      return "0";
    }
    s := "";
    var negative := n < 0;
    var m := if negative then -n else n;
    ghost var all := m;
    while m > 0
      invariant m >= 0 && Digits(m) + s == Digits(all)
    {
      s := [Digit(m % 10)] + s;
      m := m / 10;
    }
    assert s == Digits(all);
    if negative {
      s := "-" + s;
    }
  }

  function Text(n: int): string {
    if n == 0 then "0" else if n < 0 then "-" + Digits(-n) else Digits(n)
  }

  /** What the loop makes of any text: a character counts by its distance from '0', whatever it is. */
  function Value(s: string): int {
    if s == "" then 0 else 10 * Value(s[..|s| - 1]) + (s[|s| - 1] as int - '0' as int)
  }

  method ReadPort(s: string) returns (port: int)
    ensures port == Value(s)
  {
    port := 0;
    for i := 0 to |s|
      invariant port == Value(s[..i])
    {
      assert s[..i + 1][..i] == s[..i];
      port := port * 10 + (s[i] as int - '0' as int);
    }
    assert s[..|s|] == s;
  }

  function Pow10(k: nat): nat {
    if k == 0 then 1 else 10 * Pow10(k - 1)
  }

  lemma {:induction false} DigitsValue(n: nat)
    ensures Value(Digits(n)) == n && n < Pow10(|Digits(n)|)
  {
    if n > 0 {
      DigitsValue(n / 10);
      assert Digits(n)[..|Digits(n)| - 1] == Digits(n / 10);
    }
  }

  lemma {:induction false} SignValue(s: string)
    ensures Value("-" + s) == Value(s) - 3 * Pow10(|s|)
  {
    if s == "" {
      assert "-"[..0] == "";
    } else {
      var t := "-" + s;
      assert t[..|t| - 1] == "-" + s[..|s| - 1];
      SignValue(s[..|s| - 1]);
    }
  }

  /** The loop reads itoa's text back exactly when the number is not negative: a sign is not understood. */
  lemma ReadsBack(n: int)
    ensures Value(Text(n)) == n <==> n >= 0
  {
    if n == 0 {
      assert "0"[..0] == "";
    } else if n > 0 {
      DigitsValue(n);
    } else {
      DigitsValue(-n);
      SignValue(Digits(-n));
    }
  }
}
