/**
  udpbatch/batch_windows.go: the writer that glues datagrams into segmented sends.
*/
module WindowsWriter {
  import opened Base
  import opened UdpBatch
  import opened Socket

  /** How many of the datagrams were cut short. */
  ghost function CutShort(msgs: seq<Message>, sent: seq<Message>): nat
    requires |sent| == |msgs|
  {
    if msgs == [] then 0
    else CutShort(msgs[..|msgs| - 1], sent[..|msgs| - 1]) + if sent[|msgs| - 1] == msgs[|msgs| - 1] then 0 else 1
  }

  lemma {:induction false} CutShortNone(msgs: seq<Message>, sent: seq<Message>)
    requires |sent| == |msgs|
    ensures CutShort(msgs, sent) == 0 <==> sent == msgs
  {
    if msgs != [] {
      var k := |msgs| - 1;
      CutShortNone(msgs[..k], sent[..k]);
      assert msgs == msgs[..k] + [msgs[k]] && sent == sent[..k] + [sent[k]];
    }
  }

  lemma {:induction false} CutShortAppend(a: seq<Message>, a': seq<Message>, b: seq<Message>, b': seq<Message>)
    requires |a| == |a'| && |b| == |b'|
    ensures CutShort(a + b, a' + b') == CutShort(a, a') + CutShort(b, b')
    decreases |b|
  {
    if b == [] {
      assert a + b == a && a' + b' == a';
    } else {
      var k := |b| - 1;
      CutShortAppend(a, a', b[..k], b'[..k]);
      assert (a + b)[..|a| + k] == a + b[..k] && (a' + b')[..|a| + k] == a' + b'[..k];
    }
  }

  /**
    What a batch write leaves behind: exactly one datagram on the wire for each of the first n
    messages, in order, nothing for the others, and at most `torn` of them cut short.
  */
  ghost predicate Wrote(msgs: seq<Message>, n: nat, delta: seq<Message>, torn: int) {
    && n <= |msgs|
    && HandedOver(msgs[..n], delta)
    && CutShort(msgs[..n], delta) <= torn
  }

  lemma WroteAppend(msgs: seq<Message>, k: nat, d1: seq<Message>, t1: int, upto: nat, n: nat, d2: seq<Message>, t2: int)
    requires k <= upto <= |msgs|
    requires Wrote(msgs, k, d1, t1) && Wrote(msgs[k..upto], n, d2, t2)
    ensures Wrote(msgs, k + n, d1 + d2, t1 + t2) && k + n <= upto
  {
    assert msgs[..k + n] == msgs[..k] + msgs[k..upto][..n];
    CutShortAppend(msgs[..k], d1, msgs[k..upto][..n], d2);
    forall i | 0 <= i < k + n ensures Carries(msgs[..k + n][i], (d1 + d2)[i]) {
      if i >= k {
        assert Carries(msgs[k..upto][..n][i - k], d2[i - k]);
      } else {
        assert Carries(msgs[..k][i], d1[i]);
      }
    }
  }

  lemma WroteExactly(msgs: seq<Message>, n: nat, delta: seq<Message>)
    ensures Wrote(msgs, n, delta, 0) ==> delta == msgs[..n]
  {
    if Wrote(msgs, n, delta, 0) {
      CutShortNone(msgs[..n], delta);
    }
  }

  /** Whole datagrams count as a write with nothing cut short. */
  lemma WroteWhole(msgs: seq<Message>, n: nat)
    requires n <= |msgs|
    ensures Wrote(msgs, n, msgs[..n], 0)
  {
    CutShortNone(msgs[..n], msgs[..n]);
  }

  /** A partial segmented write counts as a write of the covered datagrams, at most one cut short. */
  lemma WrotePartial(msgs: seq<Message>, n: nat)
    requires GroupOK(msgs) && OneAddress(msgs) && 0 < n < TotalLen(msgs)
    ensures var seg := |msgs[0].buf|;
            Wrote(msgs, CoveredCount(n, seg, |msgs|), Emitted(msgs, n), if n % seg != 0 then 1 else 0)
  {
    var seg := |msgs[0].buf|;
    var c, sent := CoveredCount(n, seg, |msgs|), Clipped(msgs, seg, n);
    CutPrefix(msgs, seg, n);
    assert Emitted(msgs, n) == sent;
    ClippedCarries(msgs, seg, n);
    CoveredBounds(msgs, seg, n);
    assert msgs[..c - 1] == msgs[..c][..c - 1] && sent[..c - 1] == msgs[..c - 1];
    CutShortNone(msgs[..c - 1], sent[..c - 1]);
    if n % seg == 0 {
      ClippedLast(msgs, seg, n, c - 1);
      EvenCover(msgs, seg, n);
    }
  }

  /** A write that stops on a segment boundary covers its datagrams exactly. */
  lemma {:induction false} EvenCover(msgs: seq<Message>, seg: nat, n: nat)
    requires Run(msgs, seg) && 0 < n < TotalLen(msgs) && n % seg == 0
    ensures var c := CoveredCount(n, seg, |msgs|); c < |msgs| && TotalLen(msgs[..c]) == n
    decreases |msgs|
  {
    ConcatHead(msgs);
    if n <= seg {
      CoveredSmall(n, seg, |msgs|);
      if n < seg {
        QuotientUnique(n, seg, 0, n);
      }
      assert msgs[..1] == [msgs[0]];
    } else {
      DivStep(n, seg);
      CoveredStep(n, seg, |msgs|);
      EvenCover(msgs[1..], seg, n - seg);
      PrefixShift(msgs, CoveredCount(n, seg, |msgs|));
    }
  }

  /** The datagrams a segmented send of a group emits when it takes n bytes. */
  ghost function Emitted(msgs: seq<Message>, n: int): seq<Message>
    requires GroupOK(msgs)
  {
    Addressed(Cut(Concat(msgs)[..Clamp(n, TotalLen(msgs))], |msgs[0].buf|), msgs[0].addr)
  }

  /** Taking nothing emits nothing; taking everything emits the group, datagram by datagram. */
  lemma EmittedAll(msgs: seq<Message>, n: int)
    requires GroupOK(msgs) && OneAddress(msgs)
    ensures n <= 0 ==> Emitted(msgs, n) == []
    ensures n >= TotalLen(msgs) ==> Emitted(msgs, n) == msgs
  {
    if n >= TotalLen(msgs) {
      CutWhole(msgs);
      assert Concat(msgs)[..TotalLen(msgs)] == Concat(msgs);
      ConcatHead(msgs);
    }
  }

  /** An error that a writer returns is that of the send that failed, and there is no other. */
  function Reported(err: Option<WriteErr>): seq<WriteErr> {
    if err.Some? then [err.value] else []
  }

  class Writer {
    const conn: UdpSocket
    var uso: bool
    var scratch: array<byte>

    constructor (conn: UdpSocket, uso: bool)
      ensures this.conn == conn && this.uso == uso && fresh(scratch)
    {
      this.conn := conn;
      this.uso := uso;
      scratch := new byte[0];
    }

    method WriteOne(m: Message) returns (n: nat, err: Option<WriteErr>)
      modifies conn
      ensures n == if err.None? then 1 else 0
      ensures conn.wire == old(conn.wire) + [m][..n]
      ensures conn.torn == old(conn.torn) && conn.refusals == old(conn.refusals)
      ensures conn.failed == old(conn.failed) + Reported(err)
      ensures conn.segmented == old(conn.segmented)
    {
      err := conn.WriteTo(m);
      n := if err.Some? then 0 else 1;
    }

    method WriteEach(msgs: seq<Message>) returns (n: nat, err: Option<WriteErr>)
      modifies conn
      ensures n <= |msgs| && (err.None? <==> n == |msgs|)
      ensures conn.wire == old(conn.wire) + msgs[..n]
      ensures conn.torn == old(conn.torn) && conn.refusals == old(conn.refusals)
      ensures conn.failed == old(conn.failed) + Reported(err)
      ensures conn.segmented == old(conn.segmented)
    {
      for i := 0 to |msgs|
        invariant conn.wire == old(conn.wire) + msgs[..i]
        invariant conn.torn == old(conn.torn) && conn.refusals == old(conn.refusals)
        invariant conn.failed == old(conn.failed) && conn.segmented == old(conn.segmented)
      {
        var e := conn.WriteTo(msgs[i]);
        if e.Some? {
          return i, e;
        }
        assert msgs[..i + 1] == msgs[..i] + [msgs[i]];
      }
      return |msgs|, None;
    }

    /** Copies the group's payloads one after the other into the reused scratch buffer. */
    method Gather(msgs: seq<Message>, total: nat)
      requires total == TotalLen(msgs)
      modifies this`scratch, scratch
      ensures scratch == old(scratch) || fresh(scratch)
      ensures total <= scratch.Length && scratch[..total] == Concat(msgs)
    {
      if scratch.Length < total {
        scratch := new byte[total];
      }
      var off := 0;
      assert msgs[..|msgs|] == msgs;
      for i := 0 to |msgs|
        invariant off == TotalLen(msgs[..i]) <= total
        invariant scratch.Length >= total
        invariant scratch == old(scratch) || fresh(scratch)
        invariant scratch[..off] == Concat(msgs[..i])
      {
        var b := msgs[i].buf;
        assert msgs[..i + 1][..i] == msgs[..i];
        TotalLenMonotone(msgs, i + 1, |msgs|);
        ghost var before := scratch[..off];
        forall k | 0 <= k < |b| {
          scratch[off + k] := b[k];
        }
        assert scratch[..off + |b|] == before + b;
        off := off + |b|;
      }
    }

    /** The system call of a segmented send; USO is given up for good only when it is refused. */
    method SendGroup(msgs: seq<Message>, total: nat) returns (took: int)
      requires total == TotalLen(msgs) && GroupOK(msgs)
      modifies this, scratch, conn
      ensures scratch == old(scratch) || fresh(scratch)
      ensures conn.wire == old(conn.wire) + Emitted(msgs, took)
      ensures conn.torn == old(conn.torn) + if 0 < took < total && took % |msgs[0].buf| != 0 then 1 else 0
      ensures uso == (old(uso) && conn.refusals == old(conn.refusals)) && conn.refusals >= old(conn.refusals)
      ensures conn.segmented == old(conn.segmented) + 1 && conn.failed == old(conn.failed)
    {
      Gather(msgs, total);
      var e;
      took, e := conn.WriteSegmented(scratch[..total], |msgs[0].buf|, msgs[0].addr);
      if e.Some? && e.value.RefusesSegments() {
        uso := false;
      }
    }

    /** After a partial segmented send: the covered datagrams are never sent again, the others singly. */
    method WriteUncovered(msgs: seq<Message>, took: nat)
      returns (n: nat, err: Option<WriteErr>, ghost rest: seq<Message>)
      requires GroupOK(msgs) && OneAddress(msgs) && 0 < took < TotalLen(msgs)
      modifies conn
      ensures err.None? <==> n == |msgs|
      ensures conn.wire == old(conn.wire) + rest
      ensures conn.torn == old(conn.torn) && conn.refusals == old(conn.refusals)
      ensures Wrote(msgs, n, Emitted(msgs, took) + rest, if took % |msgs[0].buf| != 0 then 1 else 0)
      ensures forall m :: m in rest ==> m in msgs[CoveredCount(took, |msgs[0].buf|, |msgs|)..]
      ensures conn.failed == old(conn.failed) + Reported(err)
      ensures conn.segmented == old(conn.segmented)
    {
      WrotePartial(msgs, took);
      var done := CoveredCount(took, |msgs[0].buf|, |msgs|);
      rest := [];
      if done >= |msgs| {
        assert Emitted(msgs, took) + rest == Emitted(msgs, took);
        n, err := |msgs|, None;
        return;
      }
      var tail;
      tail, err := WriteEach(msgs[done..]);
      rest := msgs[done..][..tail];
      WroteWhole(msgs[done..], tail);
      assert msgs[done..|msgs|] == msgs[done..];
      WroteAppend(msgs, done, Emitted(msgs, took), if took % |msgs[0].buf| != 0 then 1 else 0, |msgs|, tail, rest, 0);
      n := done + tail;
    }

    /** One segmented send for a group, falling back to single sends for what it did not take. */
    method WriteUSO(msgs: seq<Message>, total: nat) returns (n: nat, err: Option<WriteErr>, ghost delta: seq<Message>)
      requires total == TotalLen(msgs) && |msgs| >= 2 && OneAddress(msgs)
      modifies this, scratch, conn
      ensures scratch == old(scratch) || fresh(scratch)
      ensures err.None? <==> n == |msgs|
      ensures conn.wire == old(conn.wire) + delta
      ensures Wrote(msgs, n, delta, conn.torn - old(conn.torn))
      ensures conn.torn >= old(conn.torn)
      ensures uso == (old(uso) && conn.refusals == old(conn.refusals)) && conn.refusals >= old(conn.refusals)
      ensures conn.failed == old(conn.failed) + Reported(err)
      ensures conn.segmented == old(conn.segmented) + if GroupOK(msgs) then 1 else 0
    {
      hide Wrote, Emitted;
      var ok := UsoGroupOK(msgs);
      if !ok {
        n, err := WriteEach(msgs);
        delta := msgs[..n];
        WroteWhole(msgs, n);
        return;
      }
      var took := SendGroup(msgs, total);
      EmittedAll(msgs, took);
      if took <= 0 {
        n, err := WriteEach(msgs);
        delta := msgs[..n];
        WroteWhole(msgs, n);
        return;
      }
      if took >= total {
        n, err, delta := |msgs|, None, msgs;
        WroteWhole(msgs, |msgs|);
        assert msgs[..|msgs|] == msgs;
        return;
      }
      ghost var rest;
      n, err, rest := WriteUncovered(msgs, took);
      delta := Emitted(msgs, took) + rest;
    }

    /** Sends the longest group at the front of what is left, or one datagram. */
    method WriteFront(msgs: seq<Message>)
      returns (count: nat, n: nat, err: Option<WriteErr>, ghost delta: seq<Message>)
      requires msgs != []
      modifies this, scratch, conn
      ensures scratch == old(scratch) || fresh(scratch)
      ensures 1 <= count <= |msgs| && (err.None? <==> n == count)
      ensures conn.wire == old(conn.wire) + delta
      ensures Wrote(msgs[..count], n, delta, conn.torn - old(conn.torn)) && conn.torn >= old(conn.torn)
      ensures uso == (old(uso) && conn.refusals == old(conn.refusals)) && conn.refusals >= old(conn.refusals)
      ensures conn.failed == old(conn.failed) + Reported(err)
      ensures old(uso) && count >= 2 ==> Coalescable(msgs[..count], MAX_COALESCED_PAYLOAD)
      ensures old(uso) ==> forall c :: count < c <= |msgs| ==> !Coalescable(msgs[..c], MAX_COALESCED_PAYLOAD)
      ensures conn.segmented == old(conn.segmented) + if old(uso) && count >= 2 then 1 else 0
    {
      var total;
      count, total := GroupRun(msgs, MAX_COALESCED_PAYLOAD);
      if count < 2 || !uso {
        count := 1;
        n, err := WriteOne(msgs[0]);
        delta := [msgs[0]][..n];
        assert msgs[..1] == [msgs[0]];
        WroteWhole(msgs[..1], n);
      } else {
        n, err, delta := WriteUSO(msgs[..count], total);
      }
    }

    /** The whole batch: the longest group first, then on with the rest. */
    method WriteBatch(msgs: seq<Message>) returns (sent: nat, err: Option<WriteErr>, ghost delta: seq<Message>)
      modifies this, scratch, conn
      ensures scratch == old(scratch) || fresh(scratch)
      ensures err.None? <==> sent == |msgs|
      ensures conn.wire == old(conn.wire) + delta
      ensures Wrote(msgs, sent, delta, conn.torn - old(conn.torn))
      ensures conn.torn == old(conn.torn) ==> delta == msgs[..sent]
      ensures uso == (old(uso) && conn.refusals == old(conn.refusals)) && conn.refusals >= old(conn.refusals)
      ensures conn.failed == old(conn.failed) + Reported(err)
    {
      hide Wrote, HandedOver;
      sent, delta := 0, [];
      WroteWhole(msgs, 0);
      while sent < |msgs|
        invariant sent <= |msgs|
        invariant scratch == old(scratch) || fresh(scratch)
        invariant conn.wire == old(conn.wire) + delta
        invariant conn.torn >= old(conn.torn)
        invariant Wrote(msgs, sent, delta, conn.torn - old(conn.torn))
        invariant uso == (old(uso) && conn.refusals == old(conn.refusals)) && conn.refusals >= old(conn.refusals)
        invariant conn.failed == old(conn.failed)
      {
        ghost var torn := conn.torn;
        ghost var d;
        var count, n: nat;
        count, n, err, d := WriteFront(msgs[sent..]);
        assert msgs[sent..][..count] == msgs[sent..sent + count];
        WroteAppend(msgs, sent, delta, torn - old(conn.torn), sent + count, n, d, conn.torn - torn);
        sent, delta := sent + n, delta + d;
        if err.Some? {
          WroteExactly(msgs, sent, delta);
          return;
        }
        // n == 0 without an error (io.ErrShortWrite) cannot happen: WriteOne and WriteUSO
        // report an error whenever they leave a datagram behind.
        if n == 0 {
          assert false;
        }
      }
      err := None;
      WroteExactly(msgs, sent, delta);
    }
  }
}
