/**
  udpbatch/batch_windows.go: the connection that queues datagrams and lets one sender goroutine,
  started on demand, write them in batches. Each function below is one region under the
  connection's lock; the class runs those regions on its fields.
*/
module Coalesce {
  import opened Base
  import opened UdpBatch
  import opened Socket
  import WindowsWriter

  const QUEUE_CAP: nat := 256
  const MAX_BATCH: nat := 64
  const POOL_BUF_CAP: nat := 2048
  const WRITE_ATTEMPTS: nat := 3

  type BufId = nat

  /** A queued datagram: the buffer that holds its bytes, and where it goes. */
  datatype Slot = Slot(buf: BufId, addr: AddrPort)

  datatype Buffer = Buffer(cap: nat, data: Bytes)

  type Memory = map<BufId, Buffer>

  /** The fields guarded by the lock, and the wake-up token. */
  datatype Conn = Conn(queue: seq<Slot>, closed: bool, fatal: Option<WriteErr>, sender: bool, kick: bool)

  const FRESH: Conn := Conn([], false, None, false, false)

  /** What WriteTo finds once it holds the lock. */
  datatype Admission =
    | Wait
    | Refuse(err: WriteErr)
    | Accept(conn: Conn, spawn: bool)

  function Offer(c: Conn, slot: Slot): Admission {
    if |c.queue| >= QUEUE_CAP && !c.closed && c.fatal.None? then Wait
    else if c.fatal.Some? then Refuse(c.fatal.value)
    else if c.closed then Refuse(Closed)
    else Accept(c.(queue := c.queue + [slot], sender := true, kick := true), !c.sender)
  }

  /** tryIdleExit: whether the sender ends, and the connection then. */
  function IdleExit(c: Conn): (r: (Conn, bool)) {
    if c.closed || |c.queue| > 0 then (c, false) else (c.(sender := false), true)
  }

  datatype Popped = Popped(conn: Conn, batch: seq<Slot>, fatal: Option<WriteErr>, exit: bool, broadcast: bool)

  function Pop(c: Conn): Popped {
    if |c.queue| == 0 then
      if c.closed then Popped(c.(sender := false), [], None, true, true)
      else Popped(c, [], None, false, false)
    else
      var n := Min(|c.queue|, MAX_BATCH);
      Popped(c.(queue := c.queue[n..]), c.queue[..n], c.fatal, false, true)
  }

  function NoteFatal(c: Conn, err: WriteErr): Conn {
    if c.fatal.None? then c.(fatal := Some(err)) else c
  }

  function MarkClosed(c: Conn): Conn {
    if c.closed then c else c.(closed := true, kick := true)
  }

  /** What writeAll does after one WriteBatch that left `left` datagrams. */
  datatype Verdict = Finish | Drain(err: WriteErr) | Again | GiveUp

  function Judge(left: nat, attempt: nat, err: Option<WriteErr>): Verdict {
    if err.None? || left == 0 then Finish
    else if err.value.Fatal() then Drain(err.value)
    else if attempt + 1 < WRITE_ATTEMPTS then Again
    else GiveUp
  }

  function Bufs(slots: seq<Slot>): (r: seq<BufId>)
    ensures |r| == |slots|
  {
    seq(|slots|, i requires 0 <= i < |slots| => slots[i].buf)
  }

  lemma BufsAppend(a: seq<Slot>, b: seq<Slot>)
    ensures Bufs(a + b) == Bufs(a) + Bufs(b)
  {
  }

  ghost predicate Loaded(mem: Memory, slots: seq<Slot>) {
    forall i :: 0 <= i < |slots| ==> slots[i].buf in mem
  }

  /** The datagrams that the slots stand for. */
  function Load(mem: Memory, slots: seq<Slot>): (r: seq<Message>)
    requires Loaded(mem, slots)
    ensures |r| == |slots|
  {
    seq(|slots|, i requires 0 <= i < |slots| => Message(mem[slots[i].buf].data, slots[i].addr))
  }

  lemma LoadSuffix(mem: Memory, slots: seq<Slot>, k: nat)
    requires Loaded(mem, slots) && k <= |slots|
    ensures Load(mem, slots[k..]) == Load(mem, slots)[k..|slots|]
  {
  }

  lemma PrefixGrows(batch: seq<Slot>, was: nat, n: nat)
    requires was + n <= |batch|
    ensures batch[..was + n] == batch[..was] + batch[was..][..n] && batch[was..][n..] == batch[was + n..]
  {
  }

  class CoalesceConn {
    const writer: WindowsWriter.Writer
    var queue: seq<Slot>
    var closed: bool
    var fatal: Option<WriteErr>
    var sender: bool
    var kick: bool
    /** Contents of the buffers in use. */
    var mem: Memory
    /** The calls of putBuf so far, in order. */
    ghost var released: seq<BufId>
    /** cond.Broadcast calls so far. */
    ghost var broadcasts: nat
    /** sendLoop goroutines started so far. */
    ghost var spawned: nat

    ghost function Abs(): Conn
      reads this
    {
      Conn(queue, closed, fatal, sender, kick)
    }

    constructor (writer: WindowsWriter.Writer)
      ensures this.writer == writer && Abs() == FRESH && released == [] && mem == map[]
      ensures broadcasts == 0 && spawned == 0
    {
      this.writer := writer;
      queue, closed, fatal, sender, kick := [], false, None, false, false;
      mem, released, broadcasts, spawned := map[], [], 0, 0;
    }

    /** The wake-up channel holds one token; a second one is dropped. */
    method Wake()
      modifies this`kick
      ensures kick
    {
      if !kick {
        kick := true;
      }
    }

    /** The locked part of WriteTo, up to the moment it would wait or has an answer. */
    method TryWrite(slot: Slot) returns (waits: bool, err: Option<WriteErr>)
      modifies this`queue, this`sender, this`kick, this`spawned, this`released
      ensures match Offer(old(Abs()), slot)
              case Wait => waits && Abs() == old(Abs()) && spawned == old(spawned) && released == old(released)
              case Refuse(e) =>
                !waits && err == Some(e) && Abs() == old(Abs())
                && spawned == old(spawned) && released == old(released) + [slot.buf]
              case Accept(c, spawn) =>
                !waits && err.None? && Abs() == c && released == old(released)
                && spawned == old(spawned) + if spawn then 1 else 0
      ensures waits <==> |old(queue)| >= 256 && !old(closed) && fatal.None?
      ensures err == if fatal.Some? then fatal else if old(closed) then Some(Closed) else None
      ensures queue == if waits || err.Some? then old(queue) else old(queue) + [slot]
      ensures !waits && err.None? ==> sender && kick && spawned == old(spawned) + if old(sender) then 0 else 1
      ensures released == old(released) + if err.Some? then [slot.buf] else []
    {
      waits, err := false, None;
      if |queue| >= QUEUE_CAP && !closed && fatal.None? {
        waits := true;
        return;
      }
      if fatal.Some? {
        err := fatal;
        released := released + [slot.buf];
        return;
      }
      if closed {
        err := Some(Closed);
        released := released + [slot.buf];
        return;
      }
      queue := queue + [slot];
      if !sender {
        sender := true;
        spawned := spawned + 1;
      }
      Wake();
    }

    method TryIdleExit() returns (exit: bool)
      modifies this`sender, this`broadcasts
      ensures (Abs(), exit) == IdleExit(old(Abs()))
      ensures broadcasts == old(broadcasts) + if exit then 1 else 0
      ensures exit <==> !closed && queue == []
      ensures sender == (old(sender) && !exit)
    {
      if closed || |queue| > 0 {
        return false;
      }
      sender := false;
      broadcasts := broadcasts + 1;
      return true;
    }

    /** Takes up to MAX_BATCH datagrams off the front of the queue. */
    method PopBatch() returns (batch: seq<Slot>, f: Option<WriteErr>, exit: bool)
      modifies this`queue, this`sender, this`broadcasts
      ensures var p := Pop(old(Abs()));
              Abs() == p.conn && batch == p.batch && f == p.fatal && exit == p.exit
              && broadcasts == old(broadcasts) + if p.broadcast then 1 else 0
      ensures batch + queue == old(queue) && |batch| == Min(64, |old(queue)|)
      ensures exit <==> old(queue) == [] && closed
      ensures sender == (old(sender) && !exit) && (batch != [] ==> f == fatal)
    {
      if |queue| == 0 {
        if closed {
          sender := false;
          broadcasts := broadcasts + 1;
          return [], None, true;
        }
        return [], None, false;
      }
      var n := if |queue| < MAX_BATCH then |queue| else MAX_BATCH;
      batch := queue[..n];
      queue := queue[n..];
      broadcasts := broadcasts + 1;
      return batch, fatal, false;
    }

    method Note(err: WriteErr)
      modifies this`fatal, this`broadcasts
      ensures Abs() == NoteFatal(old(Abs()), err) && broadcasts == old(broadcasts) + 1
      ensures fatal == if old(fatal).Some? then old(fatal) else Some(err)
    {
      if fatal.None? {
        fatal := Some(err);
      }
      broadcasts := broadcasts + 1;
    }

    /** The first region of Close. */
    method CloseMark()
      modifies this`closed, this`kick, this`broadcasts
      ensures Abs() == MarkClosed(old(Abs()))
      ensures closed && (!old(closed) ==> kick)
      ensures broadcasts == old(broadcasts) + if old(closed) then 0 else 1
    {
      if !closed {
        closed := true;
        Wake();
        broadcasts := broadcasts + 1;
      }
    }

    method ReleaseBatch(batch: seq<Slot>)
      modifies this`released
      ensures released == old(released) + Bufs(batch)
    {
      for i := 0 to |batch|
        invariant released == old(released) + Bufs(batch)[..i]
      {
        released := released + [batch[i].buf];
      }
      assert Bufs(batch)[..|batch|] == Bufs(batch);
    }

    /** One WriteBatch call: the buffers of what it handed over are put back, a fatal error is noted. */
    method WriteRound(rest: seq<Slot>, attempt: nat)
      returns (n: nat, verdict: Verdict, err: Option<WriteErr>, ghost delta: seq<Message>)
      requires Loaded(mem, rest)
      modifies this`released, this`fatal, this`broadcasts, writer, writer.scratch, writer.conn
      ensures writer.scratch == old(writer.scratch) || fresh(writer.scratch)
      ensures n <= |rest| && (err.None? <==> n == |rest|)
      ensures released == old(released) + Bufs(rest[..n])
      ensures writer.conn.wire == old(writer.conn.wire) + delta
      ensures WindowsWriter.Wrote(Load(mem, rest), n, delta, writer.conn.torn - old(writer.conn.torn))
      ensures verdict == Judge(|rest| - n, attempt, err)
      ensures writer.conn.failed == old(writer.conn.failed) + WindowsWriter.Reported(err)
      ensures fatal == if verdict.Drain? && old(fatal).None? then err else old(fatal)
    {
      n, err, delta := writer.WriteBatch(Load(mem, rest));
      ReleaseBatch(rest[..n]);
      verdict := Judge(|rest| - n, attempt, err);
      if verdict.Drain? {
        Note(verdict.err);
      }
    }

    /**
      Writes a batch, retrying what is left after a failure that is not fatal. Every buffer is put
      back exactly once, and a datagram is given up only if the last call failed fatally or all three failed.
    */
    method WriteAll(batch: seq<Slot>)
      returns (ghost handed: nat, ghost failures: nat, lastErr: Option<WriteErr>, ghost delta: seq<Message>)
      requires Loaded(mem, batch)
      modifies this`fatal, this`broadcasts, this`released, writer, writer.scratch, writer.conn
      ensures writer.scratch == old(writer.scratch) || fresh(writer.scratch)
      ensures released == old(released) + Bufs(batch)
      ensures writer.conn.wire == old(writer.conn.wire) + delta
      ensures WindowsWriter.Wrote(Load(mem, batch), handed, delta, writer.conn.torn - old(writer.conn.torn))
      ensures failures <= WRITE_ATTEMPTS
      ensures handed < |batch| ==> lastErr.Some? && (lastErr.value.Fatal() || failures == WRITE_ATTEMPTS)
      ensures lastErr.None? ==> handed == |batch|
      ensures |writer.conn.failed| == |old(writer.conn.failed)| + failures && (failures == 0 ==> lastErr.None?)
      ensures lastErr.Some? ==> failures > 0 && writer.conn.failed[|writer.conn.failed| - 1] == lastErr.value
      ensures failures == 0 ==> handed == |batch|
      ensures fatal == if lastErr.Some? && lastErr.value.Fatal() && old(fatal).None? then lastErr else old(fatal)
    {
      hide WindowsWriter.Wrote, Bufs, Load;
      var rest := batch;
      handed, failures, lastErr, delta := 0, 0, None, [];
      ghost var msgs := Load(mem, batch);
      WindowsWriter.WroteWhole(msgs, 0);
      var attempt, verdict := 0, Again;
      while attempt < WRITE_ATTEMPTS && |rest| > 0 && verdict.Again?
        invariant verdict.Again? ==> attempt == failures
        invariant failures <= attempt <= WRITE_ATTEMPTS
        invariant verdict.Finish? ==> rest == []
        invariant |writer.conn.failed| == |old(writer.conn.failed)| + failures && (failures == 0 ==> lastErr.None?)
        invariant lastErr.Some? ==> failures > 0 && writer.conn.failed[|writer.conn.failed| - 1] == lastErr.value
        invariant verdict.Again? && lastErr.None? ==> handed == 0 && attempt == 0
        invariant handed < |batch| && attempt > 0 ==> lastErr.Some?
        invariant verdict.Drain? <==> lastErr.Some? && lastErr.value.Fatal()
        invariant verdict.GiveUp? ==> failures == WRITE_ATTEMPTS
        invariant failures == 0 ==> rest == [] || (verdict.Again? && handed == 0)
        invariant handed <= |batch| && rest == batch[handed..]
        invariant released == old(released) + Bufs(batch[..handed])
        invariant writer.scratch == old(writer.scratch) || fresh(writer.scratch)
        invariant writer.conn.wire == old(writer.conn.wire) + delta
        invariant WindowsWriter.Wrote(msgs, handed, delta, writer.conn.torn - old(writer.conn.torn))
        invariant fatal == if lastErr.Some? && lastErr.value.Fatal() && old(fatal).None? then lastErr else old(fatal)
        decreases WRITE_ATTEMPTS - attempt
      {
        ghost var torn, was := writer.conn.torn, handed;
        ghost var d;
        var n;
        LoadSuffix(mem, batch, handed);
        n, verdict, lastErr, d := WriteRound(rest, attempt);
        WindowsWriter.WroteAppend(msgs, handed, delta, torn - old(writer.conn.torn), |batch|, n, d, writer.conn.torn - torn);
        handed, delta := handed + n, delta + d;
        PrefixGrows(batch, was, n);
        BufsAppend(batch[..was], rest[..n]);
        rest := rest[n..];
        if lastErr.Some? {
          failures := failures + 1;
        }
        attempt := attempt + 1;
      }
      ReleaseBatch(rest);
      assert batch == batch[..handed] + rest;
      BufsAppend(batch[..handed], rest);
    }
  }
}
