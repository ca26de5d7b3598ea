/**
  udpbatch/udpbatch.go: which datagrams may be glued into one segmented send,
  and what a (possibly partial) segmented send puts on the wire.
*/
module UdpBatch {
  import opened Base

  /** The three kinds of netip.Addr the writers tell apart. */
  datatype Family = Is4 | Is4In6 | Is6

  datatype AddrPort = AddrPort(family: Family, bits: nat, zone: string, port: nat)

  datatype Message = Message(buf: Bytes, addr: AddrPort)

  const MAX_COALESCED_PAYLOAD: nat := 65000

  function TotalLen(msgs: seq<Message>): nat {
    if msgs == [] then 0 else TotalLen(msgs[..|msgs| - 1]) + |msgs[|msgs| - 1].buf|
  }

  function Concat(msgs: seq<Message>): (r: Bytes)
    ensures |r| == TotalLen(msgs)
  {
    if msgs == [] then [] else Concat(msgs[..|msgs| - 1]) + msgs[|msgs| - 1].buf
  }

  function Payloads(msgs: seq<Message>): (r: seq<Bytes>)
    ensures |r| == |msgs|
  {
    seq(|msgs|, i requires 0 <= i < |msgs| => msgs[i].buf)
  }

  /** The shape the kernel can cut back: equal lengths, the last one may be shorter but not empty. */
  ghost predicate GroupOK(msgs: seq<Message>) {
    && |msgs| >= 2
    && 0 < |msgs[|msgs| - 1].buf| <= |msgs[0].buf|
    && forall i :: 0 <= i < |msgs| - 1 ==> |msgs[i].buf| == |msgs[0].buf|
  }

  ghost predicate OneAddress(msgs: seq<Message>) {
    forall i :: 0 <= i < |msgs| ==> msgs[i].addr == msgs[0].addr
  }

  /** All that one segmented send of `msgs` needs. */
  ghost predicate Coalescable(msgs: seq<Message>, cap: int) {
    GroupOK(msgs) && OneAddress(msgs) && TotalLen(msgs) <= cap
  }

  lemma {:induction false} TotalLenMonotone(msgs: seq<Message>, i: nat, j: nat)
    requires i <= j <= |msgs|
    ensures TotalLen(msgs[..i]) <= TotalLen(msgs[..j])
    decreases j
  {
    if i < j {
      assert msgs[..j][..j - 1] == msgs[..j - 1];
      TotalLenMonotone(msgs, i, j - 1);
    }
  }

  /**
    How many leading datagrams fit one segmented send. The result is the longest prefix that
    can be coalesced, or a single datagram when none of two or more can.
  */
  method GroupRun(msgs: seq<Message>, maxPayload: int) returns (count: nat, total: nat)
    ensures msgs == [] ==> count == 0
    ensures msgs != [] ==> 1 <= count <= |msgs|
    ensures count <= |msgs| && total == TotalLen(msgs[..count])
    ensures count >= 2 ==> Coalescable(msgs[..count], maxPayload)
    ensures forall c :: count < c <= |msgs| && c >= 2 ==> !Coalescable(msgs[..c], maxPayload)
  {
    if |msgs| == 0 {
      return 0, 0;
    }
    var seg := |msgs[0].buf|;
    var addr := msgs[0].addr;
    assert msgs[..1] == [msgs[0]];
    if seg == 0 || seg > maxPayload {
      forall c | 1 < c <= |msgs| ensures !Coalescable(msgs[..c], maxPayload) {
        TotalLenMonotone(msgs, 1, c);
      }
      return 1, seg;
    }
    total := seg;
    count := 1;
    var i := 1;
    while i < |msgs|
      invariant 1 <= i == count <= |msgs|
      invariant total == TotalLen(msgs[..count]) <= maxPayload
      invariant forall k :: 0 <= k < count ==> |msgs[k].buf| == seg && msgs[k].addr == addr
    {
      var m := msgs[i];
      var n := |m.buf|;
      assert msgs[..i + 1][..i] == msgs[..i];
      if m.addr != addr || n == 0 || n > seg || total + n > maxPayload {
        forall c | i < c <= |msgs| ensures !Coalescable(msgs[..c], maxPayload) {
          NoLongerRun(msgs, i, c, maxPayload);
        }
        break;
      }
      count := count + 1;
      total := total + n;
      if n < seg {
        forall c | count < c <= |msgs| ensures !Coalescable(msgs[..c], maxPayload) {
          assert |msgs[..c][i].buf| != |msgs[..c][0].buf|;
        }
        break;
      }
      i := i + 1;
    }
  }

  /** A datagram the loop refuses keeps every longer prefix from being one segmented send. */
  lemma NoLongerRun(msgs: seq<Message>, i: nat, c: nat, cap: int)
    requires 1 <= i < c <= |msgs|
    requires |msgs[0].buf| > 0
    requires msgs[i].addr != msgs[0].addr || |msgs[i].buf| == 0 || |msgs[i].buf| > |msgs[0].buf|
             || TotalLen(msgs[..i]) + |msgs[i].buf| > cap
    ensures !Coalescable(msgs[..c], cap)
  {
    var p := msgs[..c];
    assert p[i] == msgs[i] && p[0] == msgs[0];
    assert msgs[..i + 1][..i] == msgs[..i];
    TotalLenMonotone(msgs, i + 1, c);
  }

  /** Checks the group shape by walking the group once. */
  method UsoGroupOK(msgs: seq<Message>) returns (ok: bool)
    ensures ok == GroupOK(msgs)
  {
    if |msgs| < 2 {
      return false;
    }
    var seg := |msgs[0].buf|;
    if seg <= 0 {
      return false;
    }
    for i := 0 to |msgs|
      invariant i < |msgs|
      invariant forall k :: 0 <= k < i ==> |msgs[k].buf| == seg
    {
      var n := |msgs[i].buf|;
      if i == |msgs| - 1 {
        return 0 < n <= seg;
      }
      if n != seg {
        return false;
      }
    }
    assert false;
  }

  /** How many of `count` datagrams must not be sent again once n bytes are out. */
  function CoveredCount(n: int, seg: int, count: nat): nat {
    if seg <= 0 || n <= 0 then 0
    else
      var done := n / seg + (if n % seg != 0 then 1 else 0);
      if done > count then count else done
  }

  /** What the kernel makes of `data` with segment size `seg`: full segments and one residual. */
  function Cut(data: Bytes, seg: nat): seq<Bytes>
    requires seg > 0
    decreases |data|
  {
    if data == [] then []
    else if |data| <= seg then [data]
    else [data[..seg]] + Cut(data[seg..], seg)
  }

  /** `sent` is one datagram each for `msgs`, in order, some of them possibly cut short. */
  ghost predicate HandedOver(msgs: seq<Message>, sent: seq<Message>) {
    && |sent| == |msgs|
    && forall i :: 0 <= i < |msgs| ==> Carries(msgs[i], sent[i])
  }

  /** Same destination; the payload is the whole datagram or a non-empty prefix of it. */
  ghost predicate Carries(m: Message, s: Message) {
    s.addr == m.addr && s.buf <= m.buf && (s.buf == m.buf || s.buf != [])
  }

  // ---- What a segmented send of a group puts on the wire ----

  /** A group, or what is left of one after its first datagrams: equal lengths, the last in 1..seg. */
  ghost predicate Run(msgs: seq<Message>, seg: nat) {
    && msgs != []
    && 0 < |msgs[|msgs| - 1].buf| <= seg
    && forall i :: 0 <= i < |msgs| - 1 ==> |msgs[i].buf| == seg
  }

  lemma {:induction false} ConcatHead(msgs: seq<Message>)
    requires msgs != []
    ensures Concat(msgs) == msgs[0].buf + Concat(msgs[1..])
  {
    if |msgs| > 1 {
      ConcatHead(msgs[..|msgs| - 1]);
      assert msgs[..|msgs| - 1][1..] == msgs[1..][..|msgs| - 2];
    }
  }

  lemma {:induction false} RunPrefixLen(msgs: seq<Message>, seg: nat, i: nat)
    requires Run(msgs, seg) && i < |msgs|
    ensures TotalLen(msgs[..i]) == i * seg
  {
    if i > 0 {
      assert msgs[..i][..i - 1] == msgs[..i - 1];
      RunPrefixLen(msgs, seg, i - 1);
    }
  }

  lemma DivStep(n: nat, seg: nat)
    requires 0 < seg <= n
    ensures (n - seg) / seg == n / seg - 1 && (n - seg) % seg == n % seg
  {
    var q, r := n / seg, n % seg;
    assert n - seg == (q - 1) * seg + r;
    QuotientUnique(n - seg, seg, q - 1, r);
  }

  lemma QuotientUnique(n: int, seg: nat, q: int, r: nat)
    requires 0 <= r < seg && n == q * seg + r
    ensures n / seg == q && n % seg == r
  {
    MultipleBeyond(n / seg - q, seg);
    assert (n / seg - q) * seg == r - n % seg;
  }

  lemma MultipleBeyond(d: int, seg: nat)
    ensures d >= 1 ==> d * seg >= seg
    ensures d <= -1 ==> d * seg <= -(seg as int)
  {
  }

  lemma CoveredSmall(n: nat, seg: nat, count: nat)
    requires 0 < n <= seg && count >= 1
    ensures CoveredCount(n, seg, count) == 1
  {
    if n < seg {
      QuotientUnique(n, seg, 0, n);
    } else {
      QuotientUnique(n, seg, 1, 0);
    }
  }

  lemma CoveredStep(n: nat, seg: nat, count: nat)
    requires 0 < seg < n && count >= 2
    ensures CoveredCount(n, seg, count) == 1 + CoveredCount(n - seg, seg, count - 1)
  {
    DivStep(n, seg);
  }

  /**
    CoveredCount(n) is the one d for which the first n bytes end inside (or at the end of) datagram
    d - 1: all n bytes belong to the first d datagrams, every later datagram starts at or after n,
    and only datagram d - 1 can be cut short.
  */
  lemma {:induction false} CoveredExactly(msgs: seq<Message>, seg: nat, n: nat, d: nat)
    requires Run(msgs, seg) && 0 < n <= TotalLen(msgs)
    requires 1 <= d <= |msgs|
    ensures d == CoveredCount(n, seg, |msgs|) <==> TotalLen(msgs[..d - 1]) < n <= TotalLen(msgs[..d])
  {
    CoveredBounds(msgs, seg, n);
    var c := CoveredCount(n, seg, |msgs|);
    if d < c {
      TotalLenMonotone(msgs, d, c - 1);
    } else if d > c {
      TotalLenMonotone(msgs, c, d - 1);
    }
  }

  lemma {:induction false} CoveredBounds(msgs: seq<Message>, seg: nat, n: nat)
    requires Run(msgs, seg) && 0 < n <= TotalLen(msgs)
    ensures var c := CoveredCount(n, seg, |msgs|);
            1 <= c <= |msgs| && TotalLen(msgs[..c - 1]) < n <= TotalLen(msgs[..c])
    decreases |msgs|
  {
    assert msgs[..|msgs|] == msgs;
    if n <= seg {
      CoveredSmall(n, seg, |msgs|);
      assert msgs[..1] == [msgs[0]];
    } else {
      var rest := msgs[1..];
      ConcatHead(msgs);
      CoveredStep(n, seg, |msgs|);
      CoveredBounds(rest, seg, n - seg);
      var c := CoveredCount(n, seg, |msgs|);
      PrefixShift(msgs, c);
      PrefixShift(msgs, c - 1);
    }
  }

  lemma PrefixShift(msgs: seq<Message>, c: nat)
    requires 1 <= c <= |msgs|
    ensures TotalLen(msgs[..c]) == |msgs[0].buf| + TotalLen(msgs[1..][..c - 1])
  {
    ConcatHead(msgs[..c]);
    assert msgs[..c][1..] == msgs[1..][..c - 1];
  }

  /** The datagrams that the first n bytes of a group become. */
  function Clipped(msgs: seq<Message>, seg: nat, n: nat): (r: seq<Message>)
    ensures |r| == CoveredCount(n, seg, |msgs|)
  {
    seq(CoveredCount(n, seg, |msgs|), i requires 0 <= i < CoveredCount(n, seg, |msgs|) =>
      Message(if 0 <= n - i * seg < |msgs[i].buf| then msgs[i].buf[..n - i * seg] else msgs[i].buf, msgs[i].addr))
  }

  /** Cutting the first n bytes of the concatenation every seg bytes gives exactly `Clipped`. */
  lemma {:induction false} CutPrefix(msgs: seq<Message>, seg: nat, n: nat)
    requires Run(msgs, seg) && 0 < n <= TotalLen(msgs)
    ensures Cut(Concat(msgs)[..n], seg) == Payloads(Clipped(msgs, seg, n))
    decreases |msgs|
  {
    ConcatHead(msgs);
    var data := Concat(msgs)[..n];
    if n <= seg {
      CoveredSmall(n, seg, |msgs|);
      if n < |msgs[0].buf| {
        assert data == msgs[0].buf[..n];
      } else {
        assert |msgs[0].buf| == n;
        assert data == msgs[0].buf;
      }
    } else {
      var rest := msgs[1..];
      CoveredStep(n, seg, |msgs|);
      CutPrefix(rest, seg, n - seg);
      ClippedStep(msgs, seg, n);
      hide CoveredCount, Clipped;
      assert data[..seg] == msgs[0].buf;
      assert data[seg..] == Concat(rest)[..n - seg];
    }
  }

  lemma ClippedStep(msgs: seq<Message>, seg: nat, n: nat)
    requires |msgs| >= 2 && 0 < seg < n && |msgs[0].buf| == seg
    ensures Payloads(Clipped(msgs, seg, n)) == [msgs[0].buf] + Payloads(Clipped(msgs[1..], seg, n - seg))
  {
    CoveredStep(n, seg, |msgs|);
    var c, r := Clipped(msgs, seg, n), Clipped(msgs[1..], seg, n - seg);
    forall i | 1 <= i < |c| ensures c[i].buf == r[i - 1].buf {
      assert n - i * seg == (n - seg) - (i - 1) * seg;
    }
    assert n - 0 * seg >= seg;
  }

  /** A complete segmented send is the same as sending the group's datagrams one by one. */
  lemma CutWhole(msgs: seq<Message>)
    requires GroupOK(msgs)
    ensures Cut(Concat(msgs), |msgs[0].buf|) == Payloads(msgs)
  {
    var seg, n := |msgs[0].buf|, TotalLen(msgs);
    assert Concat(msgs)[..n] == Concat(msgs);
    CutPrefix(msgs, seg, n);
    CoveredBounds(msgs, seg, n);
    ClippedCarries(msgs, seg, n);
    var c := CoveredCount(n, seg, |msgs|);
    assert msgs[..|msgs|] == msgs;
    if c < |msgs| {
      TotalLenMonotone(msgs, c, |msgs| - 1);
    }
    assert msgs[..c] == msgs;
    assert msgs[..c - 1] == msgs[..|msgs| - 1];
    forall i | 0 <= i < |msgs| ensures Clipped(msgs, seg, n)[i].buf == msgs[i].buf {
      ClippedLast(msgs, seg, n, i);
    }
  }

  lemma ClippedAt(msgs: seq<Message>, seg: nat, n: nat, i: nat, start: nat)
    requires i < CoveredCount(n, seg, |msgs|) && start == i * seg && start < n
    ensures Clipped(msgs, seg, n)[i].buf == if n - start < |msgs[i].buf| then msgs[i].buf[..n - start] else msgs[i].buf
  {
  }

  lemma TotalLenStep(msgs: seq<Message>, i: nat)
    requires i < |msgs|
    ensures TotalLen(msgs[..i + 1]) == TotalLen(msgs[..i]) + |msgs[i].buf|
  {
    assert msgs[..i + 1][..i] == msgs[..i];
  }

  /** Only the last covered datagram can be cut short, and then by exactly the bytes past n. */
  lemma ClippedLast(msgs: seq<Message>, seg: nat, n: nat, i: nat)
    requires Run(msgs, seg) && 0 < n <= TotalLen(msgs)
    requires i < CoveredCount(n, seg, |msgs|)
    ensures TotalLen(msgs[..i]) < n && TotalLen(msgs[..i + 1]) == TotalLen(msgs[..i]) + |msgs[i].buf|
    ensures Clipped(msgs, seg, n)[i].buf ==
            if n < TotalLen(msgs[..i + 1]) then msgs[i].buf[..n - TotalLen(msgs[..i])] else msgs[i].buf
    ensures n < TotalLen(msgs[..i + 1]) ==> i == CoveredCount(n, seg, |msgs|) - 1
  {
    hide CoveredCount, Clipped, TotalLen;
    CoveredBounds(msgs, seg, n);
    var c := CoveredCount(n, seg, |msgs|);
    TotalLenStep(msgs, i);
    RunPrefixLen(msgs, seg, i);
    hide Run;
    TotalLenMonotone(msgs, i, c - 1);
    if i + 1 <= c - 1 {
      TotalLenMonotone(msgs, i + 1, c - 1);
    }
    ClippedAt(msgs, seg, n, i, TotalLen(msgs[..i]));
  }

  lemma ClippedCarries(msgs: seq<Message>, seg: nat, n: nat)
    requires Run(msgs, seg) && 0 < n <= TotalLen(msgs)
    ensures HandedOver(msgs[..CoveredCount(n, seg, |msgs|)], Clipped(msgs, seg, n))
    ensures forall i :: 0 <= i < CoveredCount(n, seg, |msgs|) - 1 ==> Clipped(msgs, seg, n)[i] == msgs[i]
  {
    CoveredBounds(msgs, seg, n);
    var c := CoveredCount(n, seg, |msgs|);
    forall i | 0 <= i < c
      ensures Carries(msgs[i], Clipped(msgs, seg, n)[i]) && (i < c - 1 ==> Clipped(msgs, seg, n)[i] == msgs[i])
    {
      ClippedLast(msgs, seg, n, i);
      RunPrefixLen(msgs, seg, i);
      TotalLenMonotone(msgs, i, c - 1);
    }
  }
}
