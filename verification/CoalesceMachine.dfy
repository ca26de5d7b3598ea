/**
  Every interleaving of WriteTo calls, the sender goroutine and Close calls on one coalescing
  connection. A step is one region under the lock, one WriteBatch call, one putBuf, or one wake-up;
  a run is any sequence of enabled steps.
*/
module CoalesceMachine {
  import opened Base
  import opened UdpBatch
  import opened Socket
  import opened Coalesce
  import WindowsWriter

  /** A WriteTo in progress: it holds a buffer, and may be asleep in cond.Wait. */
  datatype Call =
    | Pending(buf: BufId, msg: Message, asleep: bool)
    | Refused(buf: BufId, err: WriteErr)

  /** What a sender still has to do with a popped batch, once the buffers in `out` are put back. */
  datatype Job =
    | Done
    | ToWrite(rest: seq<Slot>, attempt: nat, failures: nat)
    | ToNote(rest: seq<Slot>, err: WriteErr)

  /** Where a sendLoop goroutine is. */
  datatype Pc =
    | AtSelect
    | TryExit
    | AtPop
    | AtReset
    | Busy(out: seq<BufId>, job: Job)

  datatype Sender = Sender(pc: Pc, armed: bool)

  datatype Closer = ClosingSocket | AwaitingSender(asleep: bool)

  /** What became of an accepted datagram. */
  datatype Why = FatalWrite | AfterFatal | Retries(failures: nat)
  datatype Fate = Sent(datagram: Message) | Lost(why: Why)

  datatype State = State(
    conn: Conn,
    mem: Memory,
    pool: multiset<BufId>,
    dropped: multiset<BufId>,      // left to the garbage collector
    calls: seq<Call>,
    senders: seq<Sender>,
    closers: seq<Closer>,
    accepted: seq<Message>,        // history: WriteTo calls that returned success
    settled: seq<Fate>,            // history: their fates, in order
    wire: seq<Message>,            // history: datagrams handed to the network
    closeReturned: bool)           // history: some Close has returned

  const INIT := State(FRESH, map[], multiset{}, multiset{}, [], [], [], [], [], [], false)

  datatype Event =
    | Begin(b: BufId, msg: Message)          // getBuf and copy
    | Admit(i: nat)                          // the locked region of WriteTo
    | PutRefused(i: nat)
    | Forget(b: BufId)                       // sync.Pool may drop what it holds
    | TimerFires(k: nat)
    | Kicked(k: nat)
    | ExitIfIdle(k: nat)
    | Take(k: nat)                           // pop
    | Write(k: nat, n: nat, err: Option<WriteErr>, delta: seq<Message>, torn: nat)
    | NoteIt(k: nat)
    | ReleaseOne(k: nat)
    | BatchDone(k: nat)
    | Reset(k: nat)
    | BeginClose
    | SocketClosed(j: nat)
    | FinishClose(j: nat)

  // ---- Buffers and datagrams held by each party ----

  /** The popped datagrams whose fate is open. */
  function Rest(pc: Pc): seq<Slot> {
    if pc.Busy? && !pc.job.Done? then pc.job.rest else []
  }

  function Held(pc: Pc): seq<BufId> {
    if pc.Busy? then pc.out + Bufs(Rest(pc)) else []
  }

  ghost function CallBufs(calls: seq<Call>): multiset<BufId> {
    if calls == [] then multiset{} else CallBufs(calls[..|calls| - 1]) + multiset{calls[|calls| - 1].buf}
  }

  ghost function SenderBufs(senders: seq<Sender>): multiset<BufId> {
    if senders == [] then multiset{}
    else SenderBufs(senders[..|senders| - 1]) + multiset(Held(senders[|senders| - 1].pc))
  }

  /** In flight, then queued: the accepted datagrams without a fate, oldest first. */
  function Line(senders: seq<Sender>, queue: seq<Slot>): seq<Slot> {
    (if |senders| == 1 then Rest(senders[0].pc) else []) + queue
  }

  function SentOnly(fates: seq<Fate>): seq<Message> {
    if fates == [] then []
    else SentOnly(fates[..|fates| - 1])
         + if fates[|fates| - 1].Sent? then [fates[|fates| - 1].datagram] else []
  }

  // ---- Steps ----

  predicate Live(s: State, k: nat) {
    k < |s.senders|
  }

  /** cond.Broadcast. */
  function WakeCalls(calls: seq<Call>): seq<Call> {
    seq(|calls|, i requires 0 <= i < |calls| => if calls[i].Pending? then calls[i].(asleep := false) else calls[i])
  }

  function WakeClosers(closers: seq<Closer>): seq<Closer> {
    seq(|closers|, i requires 0 <= i < |closers| =>
      if closers[i].AwaitingSender? then AwaitingSender(false) else closers[i])
  }

  function Broadcast(s: State): State {
    s.(calls := WakeCalls(s.calls), closers := WakeClosers(s.closers))
  }

  function At(s: State, k: nat, pc: Pc): State
    requires Live(s, k)
  {
    s.(senders := s.senders[k := s.senders[k].(pc := pc)])
  }

  function Lose(count: nat, why: Why): seq<Fate> {
    seq(count, _ => Lost(why))
  }

  function Delivered(delta: seq<Message>): seq<Fate> {
    seq(|delta|, i requires 0 <= i < |delta| => Sent(delta[i]))
  }

  /** putBuf: only buffers of the pool's size go back to it. */
  function PutBuf(s: State, b: BufId): State {
    if b in s.mem && s.mem[b].cap == POOL_BUF_CAP then s.(pool := s.pool + multiset{b})
    else s.(dropped := s.dropped + multiset{b})
  }

  predicate BeginGuard(s: State, b: BufId, msg: Message) {
    b !in s.mem || (|msg.buf| <= POOL_BUF_CAP && b in s.pool)
  }

  predicate AdmitGuard(s: State, i: nat) {
    i < |s.calls| && s.calls[i].Pending? && !s.calls[i].asleep
  }

  predicate WriteReady(s: State, k: nat) {
    Live(s, k) && s.senders[k].pc.Busy? && s.senders[k].pc.out == [] && s.senders[k].pc.job.ToWrite?
  }

  /** The outcomes of WriteBatch that its contract allows. */
  ghost predicate WriteGuard(s: State, k: nat, n: nat, err: Option<WriteErr>, delta: seq<Message>, torn: nat) {
    WriteReady(s, k)
    && var rest := s.senders[k].pc.job.rest;
    Loaded(s.mem, rest) && n <= |rest| && (err.None? <==> n == |rest|)
    && WindowsWriter.Wrote(Load(s.mem, rest), n, delta, torn)
  }

  predicate NoteGuard(s: State, k: nat) {
    Live(s, k) && s.senders[k].pc.Busy? && s.senders[k].pc.out == [] && s.senders[k].pc.job.ToNote?
  }

  predicate ReleaseGuard(s: State, k: nat) {
    Live(s, k) && s.senders[k].pc.Busy? && s.senders[k].pc.out != []
  }

  ghost predicate Enabled(s: State, e: Event) {
    match e
    case Begin(b, msg) => BeginGuard(s, b, msg)
    case Admit(i) => AdmitGuard(s, i)
    case PutRefused(i) => i < |s.calls| && s.calls[i].Refused?
    case Forget(b) => b in s.pool
    case TimerFires(k) => Live(s, k) && s.senders[k] == Sender(AtSelect, true)
    case Kicked(k) => Live(s, k) && s.senders[k].pc == AtSelect && s.conn.kick
    case ExitIfIdle(k) => Live(s, k) && s.senders[k].pc == TryExit
    case Take(k) => Live(s, k) && s.senders[k].pc == AtPop
    case Write(k, n, err, delta, torn) => WriteGuard(s, k, n, err, delta, torn)
    case NoteIt(k) => NoteGuard(s, k)
    case ReleaseOne(k) => ReleaseGuard(s, k)
    case BatchDone(k) => Live(s, k) && s.senders[k].pc == Busy([], Done)
    case Reset(k) => Live(s, k) && s.senders[k].pc == AtReset
    case BeginClose => true
    case SocketClosed(j) => j < |s.closers| && s.closers[j].ClosingSocket?
    case FinishClose(j) => j < |s.closers| && s.closers[j] == AwaitingSender(false)
  }

  function BeginCall(s: State, b: BufId, msg: Message): State {
    if b in s.mem then
      s.(mem := s.mem[b := s.mem[b].(data := msg.buf)], pool := s.pool - multiset{b},
         calls := s.calls + [Pending(b, msg, false)])
    else
      s.(mem := s.mem[b := Buffer(if |msg.buf| > POOL_BUF_CAP then |msg.buf| else POOL_BUF_CAP, msg.buf)],
         calls := s.calls + [Pending(b, msg, false)])
  }

  function AdmitCall(s: State, i: nat): State
    requires i < |s.calls| && s.calls[i].Pending?
  {
    var c := s.calls[i];
    match Offer(s.conn, Slot(c.buf, c.msg.addr))
    case Wait => s.(calls := s.calls[i := c.(asleep := true)])
    case Refuse(e) => s.(calls := s.calls[i := Refused(c.buf, e)])
    case Accept(conn, spawn) =>
      s.(conn := conn, calls := Remove(s.calls, i), accepted := s.accepted + [c.msg],
         senders := s.senders + if spawn then [Sender(AtSelect, true)] else [])
  }

  function ExitStep(s: State, k: nat): State
    requires Live(s, k)
  {
    var r := IdleExit(s.conn);
    if r.1 then Broadcast(s.(conn := r.0, senders := Remove(s.senders, k))) else At(s, k, AtPop)
  }

  function TakeStep(s: State, k: nat): State
    requires Live(s, k)
  {
    var p := Pop(s.conn);
    var t := if p.broadcast then Broadcast(s.(conn := p.conn)) else s.(conn := p.conn);
    if p.exit then t.(senders := Remove(t.senders, k))
    else if p.batch == [] then At(t, k, AtReset)
    else if p.fatal.Some? then
      At(t.(settled := t.settled + Lose(|p.batch|, AfterFatal)), k, Busy(Bufs(p.batch), Done))
    else At(t, k, Busy([], ToWrite(p.batch, 0, 0)))
  }

  /** Where one WriteBatch call leads: the buffers to put back, what is next, and datagrams given up. */
  function AfterWrite(w: Job, n: nat, err: Option<WriteErr>): (Pc, seq<Fate>)
    requires w.ToWrite? && n <= |w.rest|
  {
    var left := w.rest[n..];
    var failures := w.failures + if err.Some? then 1 else 0;
    match Judge(|left|, w.attempt, err)
    case Finish => (Busy(Bufs(w.rest), Done), [])
    case Drain(e) => (Busy(Bufs(w.rest[..n]), ToNote(left, e)), [])
    case Again => (Busy(Bufs(w.rest[..n]), ToWrite(left, w.attempt + 1, failures)), [])
    case GiveUp => (Busy(Bufs(w.rest), Done), Lose(|left|, Retries(failures)))
  }

  function WriteStep(s: State, k: nat, n: nat, err: Option<WriteErr>, delta: seq<Message>): State
    requires WriteReady(s, k) && n <= |s.senders[k].pc.job.rest|
  {
    var r := AfterWrite(s.senders[k].pc.job, n, err);
    At(s.(wire := s.wire + delta, settled := s.settled + Delivered(delta) + r.1), k, r.0)
  }

  function NoteStep(s: State, k: nat): State
    requires NoteGuard(s, k)
  {
    var w := s.senders[k].pc.job;
    At(Broadcast(s.(conn := NoteFatal(s.conn, w.err), settled := s.settled + Lose(|w.rest|, FatalWrite))),
       k, Busy(Bufs(w.rest), Done))
  }

  function ReleaseStep(s: State, k: nat): State
    requires ReleaseGuard(s, k)
  {
    var pc := s.senders[k].pc;
    At(PutBuf(s, pc.out[0]), k, Busy(pc.out[1..], pc.job))
  }

  function PutRefusedStep(s: State, i: nat): State
    requires i < |s.calls|
  {
    PutBuf(s.(calls := Remove(s.calls, i)), s.calls[i].buf)
  }

  function ForgetStep(s: State, b: BufId): State {
    s.(pool := s.pool - multiset{b}, dropped := s.dropped + multiset{b})
  }

  function FireStep(s: State, k: nat): State
    requires Live(s, k)
  {
    s.(senders := s.senders[k := Sender(TryExit, false)])
  }

  function KickStep(s: State, k: nat): State
    requires Live(s, k)
  {
    At(s.(conn := s.conn.(kick := false)), k, AtPop)
  }

  function ResetStep(s: State, k: nat): State
    requires Live(s, k)
  {
    s.(senders := s.senders[k := Sender(AtSelect, true)])
  }

  function BeginCloseStep(s: State): State {
    var t := s.(conn := MarkClosed(s.conn), closers := s.closers + [ClosingSocket]);
    if s.conn.closed then t else Broadcast(t)
  }

  function FinishCloseStep(s: State, j: nat): State
    requires j < |s.closers|
  {
    if s.conn.sender then s.(closers := s.closers[j := AwaitingSender(true)])
    else s.(closers := Remove(s.closers, j), closeReturned := true)
  }

  function Next(s: State, e: Event): State
    requires Enabled(s, e)
  {
    match e
    case Begin(b, msg) => BeginCall(s, b, msg)
    case Admit(i) => AdmitCall(s, i)
    case PutRefused(i) => PutRefusedStep(s, i)
    case Forget(b) => ForgetStep(s, b)
    case TimerFires(k) => FireStep(s, k)
    case Kicked(k) => KickStep(s, k)
    case ExitIfIdle(k) => ExitStep(s, k)
    case Take(k) => TakeStep(s, k)
    case Write(k, n, err, delta, _) => WriteStep(s, k, n, err, delta)
    case NoteIt(k) => NoteStep(s, k)
    case ReleaseOne(k) => ReleaseStep(s, k)
    case BatchDone(k) => At(s, k, AtReset)
    case Reset(k) => ResetStep(s, k)
    case BeginClose => BeginCloseStep(s)
    case SocketClosed(j) => s.(closers := s.closers[j := AwaitingSender(false)])
    case FinishClose(j) => FinishCloseStep(s, j)
  }

  /** The state a run ends in, if all its steps were enabled. */
  ghost function Exec(run: seq<Event>): Option<State> {
    if run == [] then Some(INIT)
    else
      var s := Exec(run[..|run| - 1]);
      if s.Some? && Enabled(s.value, run[|run| - 1]) then Some(Next(s.value, run[|run| - 1])) else None
  }

  // ---- What every reachable state satisfies, part by part ----

  ghost predicate JobOK(job: Job) {
    match job
    case Done => true
    case ToWrite(rest, attempt, failures) => 0 < |rest| <= MAX_BATCH && attempt == failures < WRITE_ATTEMPTS
    case ToNote(rest, err) => 0 < |rest| <= MAX_BATCH && err.Fatal()
  }

  ghost predicate PcOK(x: Sender) {
    (x.pc.Busy? ==> JobOK(x.pc.job)) && (x.pc == AtSelect ==> x.armed)
  }

  /** One sendLoop at most, alive exactly when the flag says so, and always with a running timer. */
  ghost predicate OneSendLoop(conn: Conn, senders: seq<Sender>) {
    && |senders| == (if conn.sender then 1 else 0)
    && (conn.queue != [] ==> conn.sender)
    && |conn.queue| <= QUEUE_CAP
    && (forall k :: 0 <= k < |senders| ==> PcOK(senders[k]))
    && (conn.fatal.Some? ==> conn.fatal.value.Fatal())
  }

  /** Somebody closes only a closed connection; a returned Close means no sender, hence no queue. */
  ghost predicate CloseInv(conn: Conn, closers: seq<Closer>, closeReturned: bool) {
    && (closers != [] ==> conn.closed)
    && (closeReturned ==> conn.closed && !conn.sender)
  }

  /** Every buffer ever allocated is in exactly one pair of hands, exactly once. */
  ghost predicate OnceEach(calls: multiset<BufId>, senders: multiset<BufId>, queue: multiset<BufId>,
                           pool: multiset<BufId>, dropped: multiset<BufId>, all: set<BufId>) {
    forall b :: calls[b] + senders[b] + queue[b] + pool[b] + dropped[b] == if b in all then 1 else 0
  }

  ghost predicate OwnInv(s: State) {
    OnceEach(CallBufs(s.calls), SenderBufs(s.senders), multiset(Bufs(s.conn.queue)), s.pool, s.dropped, s.mem.Keys)
  }

  ghost predicate CallOK(mem: Memory, c: Call) {
    c.Pending? ==> c.buf in mem && mem[c.buf].data == c.msg.buf
  }

  ghost predicate MemInv(mem: Memory, pool: multiset<BufId>, calls: seq<Call>) {
    && (forall b :: b in pool ==> b in mem && mem[b].cap == POOL_BUF_CAP)
    && (forall b :: b in mem ==> |mem[b].data| <= mem[b].cap)
    && (forall i :: 0 <= i < |calls| ==> CallOK(mem, calls[i]))
  }

  ghost predicate FateOK(m: Message, f: Fate, fatal: Option<WriteErr>) {
    match f
    case Sent(d) => Carries(m, d)
    case Lost(Retries(k)) => k == WRITE_ATTEMPTS
    case Lost(_) => fatal.Some?
  }

  /** accepted == settled ++ line, in order, with the bytes the callers passed; `wire` is what was sent. */
  ghost predicate Ordered(mem: Memory, line: seq<Slot>, accepted: seq<Message>, settled: seq<Fate>,
                          wire: seq<Message>, fatal: Option<WriteErr>) {
    && Loaded(mem, line)
    && |settled| <= |accepted|
    && Load(mem, line) == accepted[|settled|..]
    && (forall i :: 0 <= i < |settled| ==> FateOK(accepted[i], settled[i], fatal))
    && wire == SentOnly(settled)
  }

  ghost predicate OrderInv(s: State) {
    Ordered(s.mem, Line(s.senders, s.conn.queue), s.accepted, s.settled, s.wire, s.conn.fatal)
  }

  /** Nobody sleeps through its wake-up: a sleeper's condition still holds. */
  ghost predicate SleepInv(conn: Conn, calls: seq<Call>, closers: seq<Closer>) {
    && (forall i :: 0 <= i < |calls| && calls[i].Pending? && calls[i].asleep ==>
          Offer(conn, Slot(calls[i].buf, calls[i].msg.addr)).Wait?)
    && (forall j :: 0 <= j < |closers| && closers[j] == AwaitingSender(true) ==> conn.sender)
  }

  ghost predicate Inv(s: State) {
    && OneSendLoop(s.conn, s.senders) && CloseInv(s.conn, s.closers, s.closeReturned)
    && OwnInv(s) && MemInv(s.mem, s.pool, s.calls) && OrderInv(s)
    && SleepInv(s.conn, s.calls, s.closers)
  }

  // ---- Lemmas about the history functions ----

  lemma OneSender(s: State, k: nat)
    requires OneSendLoop(s.conn, s.senders) && Live(s, k)
    ensures k == 0 && s.senders == [s.senders[0]] && s.conn.sender && PcOK(s.senders[0])
    ensures SenderBufs(s.senders) == multiset(Held(s.senders[0].pc))
    ensures forall x :: s.senders[k := x] == [x]
  {
    assert s.senders[..0] == [];
    assert SenderBufs(s.senders[..0]) == multiset{};
  }

  lemma SenderBufsOne(x: Sender)
    ensures SenderBufs([x]) == multiset(Held(x.pc))
  {
    assert [x][..0] == [];
  }

  lemma RemoveEarlier(calls: seq<Call>, i: nat)
    requires i < |calls|
    ensures var n := |calls| - 1;
            calls == calls[..n] + [calls[n]]
            && Remove(calls, i) == if i == n then calls[..n] else Remove(calls[..n], i) + [calls[n]]
  {
  }

  lemma {:induction false} CallBufsRemove(calls: seq<Call>, i: nat)
    requires i < |calls|
    ensures CallBufs(calls) == CallBufs(Remove(calls, i)) + multiset{calls[i].buf}
  {
    hide Remove, CallBufs;
    var n := |calls| - 1;
    RemoveEarlier(calls, i);
    CallBufsAdd(calls[..n], calls[n]);
    if i < n {
      CallBufsRemove(calls[..n], i);
      CallBufsAdd(Remove(calls[..n], i), calls[n]);
    }
  }

  lemma CallBufsAdd(calls: seq<Call>, c: Call)
    ensures CallBufs(calls + [c]) == CallBufs(calls) + multiset{c.buf}
  {
    assert (calls + [c])[..|calls|] == calls;
  }

  lemma {:induction false} CallBufsSame(a: seq<Call>, b: seq<Call>)
    requires |a| == |b| && forall i :: 0 <= i < |a| ==> a[i].buf == b[i].buf
    ensures CallBufs(a) == CallBufs(b)
  {
    if a != [] {
      CallBufsSame(a[..|a| - 1], b[..|b| - 1]);
    }
  }

  lemma {:induction false} SentOnlyAppend(a: seq<Fate>, b: seq<Fate>)
    ensures SentOnly(a + b) == SentOnly(a) + SentOnly(b)
    decreases |b|
  {
    if b == [] {
      assert a + b == a;
    } else {
      SentOnlyAppend(a, b[..|b| - 1]);
      assert (a + b)[..|a + b| - 1] == a + b[..|b| - 1];
    }
  }

  lemma {:induction false} SentOnlyDelivered(delta: seq<Message>)
    ensures SentOnly(Delivered(delta)) == delta
  {
    if delta != [] {
      var n := |delta| - 1;
      SentOnlyDelivered(delta[..n]);
      assert Delivered(delta)[..n] == Delivered(delta[..n]);
      assert delta == delta[..n] + [delta[n]];
    }
  }

  lemma {:induction false} SentOnlyLost(count: nat, why: Why)
    ensures SentOnly(Lose(count, why)) == []
  {
    if count > 0 {
      SentOnlyLost(count - 1, why);
      assert Lose(count, why)[..count - 1] == Lose(count - 1, why);
    }
  }

  // ---- Moving buffers between owners ----

  lemma MoveCallToQueue(a: multiset<BufId>, b: multiset<BufId>, c: multiset<BufId>, p: multiset<BufId>,
                        d: multiset<BufId>, all: set<BufId>, a': multiset<BufId>, c': multiset<BufId>, x: BufId)
    requires OnceEach(a, b, c, p, d, all) && a == a' + multiset{x} && c' == c + multiset{x}
    ensures OnceEach(a', b, c', p, d, all)
  {
    assert forall y :: a[y] == a'[y] + multiset{x}[y] && c'[y] == c[y] + multiset{x}[y];
  }

  lemma MoveQueueToSender(a: multiset<BufId>, b: multiset<BufId>, c: multiset<BufId>, p: multiset<BufId>,
                          d: multiset<BufId>, all: set<BufId>, b': multiset<BufId>, c': multiset<BufId>)
    requires OnceEach(a, b, c, p, d, all) && b == multiset{} && c == b' + c'
    ensures OnceEach(a, b', c', p, d, all)
  {
    assert forall y :: c[y] == b'[y] + c'[y];
  }

  /** putBuf takes a buffer from its owner, a sender or a refused call. */
  lemma MoveToBin(a: multiset<BufId>, b: multiset<BufId>, c: multiset<BufId>, p: multiset<BufId>, d: multiset<BufId>,
                  all: set<BufId>, a': multiset<BufId>, b': multiset<BufId>, p': multiset<BufId>,
                  d': multiset<BufId>, x: BufId)
    requires OnceEach(a, b, c, p, d, all)
    requires (a == a' + multiset{x} && b == b') || (a == a' && b == b' + multiset{x})
    requires (p' == p + multiset{x} && d' == d) || (p' == p && d' == d + multiset{x})
    ensures OnceEach(a', b', c, p', d', all)
  {
    assert forall y :: a[y] + b[y] == a'[y] + b'[y] + multiset{x}[y];
    assert forall y :: p'[y] + d'[y] == p[y] + d[y] + multiset{x}[y];
  }

  lemma MoveFromPool(a: multiset<BufId>, b: multiset<BufId>, c: multiset<BufId>, p: multiset<BufId>,
                     d: multiset<BufId>, all: set<BufId>, x: BufId)
    requires OnceEach(a, b, c, p, d, all) && x in p
    ensures OnceEach(a + multiset{x}, b, c, p - multiset{x}, d, all)
    ensures OnceEach(a, b, c, p - multiset{x}, d + multiset{x}, all)
    ensures a[x] == b[x] == c[x] == 0
  {
    assert forall y :: p[y] == (p - multiset{x})[y] + multiset{x}[y];
    assert forall y :: (a + multiset{x})[y] == a[y] + multiset{x}[y];
    assert forall y :: (d + multiset{x})[y] == d[y] + multiset{x}[y];
    assert p[x] > 0;
  }

  lemma AllocateNew(a: multiset<BufId>, b: multiset<BufId>, c: multiset<BufId>, p: multiset<BufId>,
                    d: multiset<BufId>, all: set<BufId>, x: BufId)
    requires OnceEach(a, b, c, p, d, all) && x !in all
    ensures OnceEach(a + multiset{x}, b, c, p, d, all + {x})
  {
    assert forall y :: (a + multiset{x})[y] == a[y] + multiset{x}[y];
  }

  // ---- Settling datagrams ----

  lemma FatesKept(accepted: seq<Message>, settled: seq<Fate>, fatal: Option<WriteErr>, more: seq<Message>,
                  fates: seq<Fate>, fatal': Option<WriteErr>)
    requires |settled| <= |accepted| && |fates| <= |more| && more == accepted[|settled|..]
    requires forall i :: 0 <= i < |settled| ==> FateOK(accepted[i], settled[i], fatal)
    requires forall i :: 0 <= i < |fates| ==> FateOK(more[i], fates[i], fatal')
    requires fatal.Some? ==> fatal'.Some?
    ensures |settled + fates| <= |accepted| && accepted[|settled + fates|..] == more[|fates|..]
    ensures forall i :: 0 <= i < |settled + fates| ==> FateOK(accepted[i], (settled + fates)[i], fatal')
  {
    forall i | 0 <= i < |settled + fates| ensures FateOK(accepted[i], (settled + fates)[i], fatal') {
      if i < |settled| {
        assert FateOK(accepted[i], settled[i], fatal);
      } else {
        assert FateOK(more[i - |settled|], fates[i - |settled|], fatal');
      }
    }
  }

  /** The oldest datagrams of the line get their fates. */
  lemma Settle(mem: Memory, line: seq<Slot>, accepted: seq<Message>, settled: seq<Fate>, wire: seq<Message>,
               fatal: Option<WriteErr>, fates: seq<Fate>, sent: seq<Message>, fatal': Option<WriteErr>)
    requires Ordered(mem, line, accepted, settled, wire, fatal)
    requires |fates| <= |line| && SentOnly(fates) == sent
    requires fatal.Some? ==> fatal'.Some?
    requires forall i :: 0 <= i < |fates| ==> FateOK(Load(mem, line)[i], fates[i], fatal')
    ensures Ordered(mem, line[|fates|..], accepted, settled + fates, wire + sent, fatal')
  {
    hide FateOK, SentOnly, Load, Loaded;
    SentOnlyAppend(settled, fates);
    FatesKept(accepted, settled, fatal, Load(mem, line), fates, fatal');
    LoadTail(mem, line, |fates|);
    TailTail(accepted, |settled|, |fates|);
  }

  lemma LoadTail(mem: Memory, line: seq<Slot>, n: nat)
    requires Loaded(mem, line) && n <= |line|
    ensures Loaded(mem, line[n..]) && Load(mem, line[n..]) == Load(mem, line)[n..]
  {
    LoadSuffix(mem, line, n);
  }

  lemma TailTail(msgs: seq<Message>, a: nat, b: nat)
    requires a + b <= |msgs|
    ensures msgs[a..][b..] == msgs[a + b..]
  {
  }

  lemma SettleLost(mem: Memory, line: seq<Slot>, accepted: seq<Message>, settled: seq<Fate>, wire: seq<Message>,
                   fatal: Option<WriteErr>, count: nat, why: Why, fatal': Option<WriteErr>)
    requires Ordered(mem, line, accepted, settled, wire, fatal) && count <= |line|
    requires if why.Retries? then why.failures == WRITE_ATTEMPTS else fatal'.Some?
    requires fatal.Some? ==> fatal'.Some?
    ensures Ordered(mem, line[count..], accepted, settled + Lose(count, why), wire, fatal')
  {
    SentOnlyLost(count, why);
    Settle(mem, line, accepted, settled, wire, fatal, Lose(count, why), [], fatal');
    assert wire + [] == wire;
  }

  lemma SettleSent(mem: Memory, rest: seq<Slot>, queue: seq<Slot>, accepted: seq<Message>, settled: seq<Fate>,
                   wire: seq<Message>, fatal: Option<WriteErr>, n: nat, delta: seq<Message>, torn: int)
    requires Ordered(mem, rest + queue, accepted, settled, wire, fatal)
    requires n <= |rest| && Loaded(mem, rest) && WindowsWriter.Wrote(Load(mem, rest), n, delta, torn)
    ensures Ordered(mem, rest[n..] + queue, accepted, settled + Delivered(delta), wire + delta, fatal)
  {
    SentOnlyDelivered(delta);
    var line := rest + queue;
    forall i | 0 <= i < n ensures FateOK(Load(mem, line)[i], Delivered(delta)[i], fatal) {
      assert Load(mem, line)[i] == Load(mem, rest)[..n][i];
    }
    Settle(mem, line, accepted, settled, wire, fatal, Delivered(delta), delta, fatal);
    assert line[n..] == rest[n..] + queue;
  }

  lemma Accepting(mem: Memory, line: seq<Slot>, accepted: seq<Message>, settled: seq<Fate>, wire: seq<Message>,
                  fatal: Option<WriteErr>, slot: Slot, msg: Message)
    requires Ordered(mem, line, accepted, settled, wire, fatal)
    requires slot.buf in mem && Message(mem[slot.buf].data, slot.addr) == msg
    ensures Ordered(mem, line + [slot], accepted + [msg], settled, wire, fatal)
  {
    assert Load(mem, line + [slot]) == Load(mem, line) + [msg];
  }

  lemma Rewriting(mem: Memory, mem': Memory, line: seq<Slot>, accepted: seq<Message>, settled: seq<Fate>,
                  wire: seq<Message>, fatal: Option<WriteErr>, b: BufId)
    requires Ordered(mem, line, accepted, settled, wire, fatal)
    requires forall x :: x in mem && x != b ==> x in mem' && mem'[x] == mem[x]
    requires forall i :: 0 <= i < |line| ==> line[i].buf != b
    ensures Ordered(mem', line, accepted, settled, wire, fatal)
  {
    assert Load(mem', line) == Load(mem, line);
  }

  // ---- Each step keeps each part ----

  lemma InBufs(slots: seq<Slot>, i: nat)
    requires i < |slots|
    ensures multiset(Bufs(slots))[slots[i].buf] > 0
  {
    assert Bufs(slots)[i] in Bufs(slots);
  }

  lemma InHeld(pc: Pc, i: nat)
    requires i < |Rest(pc)|
    ensures multiset(Held(pc))[Rest(pc)[i].buf] > 0
  {
    assert Held(pc)[|pc.out| + i] == Bufs(Rest(pc))[i];
    assert Held(pc)[|pc.out| + i] in Held(pc);
  }

  lemma LineHeld(s: State, i: nat)
    requires OneSendLoop(s.conn, s.senders) && i < |Line(s.senders, s.conn.queue)|
    ensures var b := Line(s.senders, s.conn.queue)[i].buf;
            SenderBufs(s.senders)[b] + multiset(Bufs(s.conn.queue))[b] > 0
  {
    hide Bufs, Held, Rest, SenderBufs;
    var r := |Line(s.senders, s.conn.queue)| - |s.conn.queue|;
    if i >= r {
      InBufs(s.conn.queue, i - r);
    } else {
      OneSender(s, 0);
      InHeld(s.senders[0].pc, i);
    }
  }

  lemma OwnBegin(s: State, b: BufId, msg: Message)
    requires OwnInv(s) && BeginGuard(s, b, msg)
    ensures OwnInv(BeginCall(s, b, msg))
  {
    hide OnceEach;
    CallBufsAdd(s.calls, Pending(b, msg, false));
    var a, sb, q := CallBufs(s.calls), SenderBufs(s.senders), multiset(Bufs(s.conn.queue));
    var t := BeginCall(s, b, msg);
    if b in s.mem {
      MoveFromPool(a, sb, q, s.pool, s.dropped, s.mem.Keys, b);
      assert t.mem.Keys == s.mem.Keys;
    } else {
      AllocateNew(a, sb, q, s.pool, s.dropped, s.mem.Keys, b);
      assert t.mem.Keys == s.mem.Keys + {b};
    }
  }

  /** A buffer about to be filled is nowhere else: nothing queued, in flight or pending is overwritten. */
  lemma Unshared(s: State, b: BufId, msg: Message)
    requires OneSendLoop(s.conn, s.senders) && OwnInv(s) && OrderInv(s) && MemInv(s.mem, s.pool, s.calls)
    requires BeginGuard(s, b, msg)
    ensures forall i :: 0 <= i < |Line(s.senders, s.conn.queue)| ==> Line(s.senders, s.conn.queue)[i].buf != b
    ensures forall i :: 0 <= i < |s.calls| && s.calls[i].Pending? ==> s.calls[i].buf != b
  {
    if b in s.mem {
      var a, sb, q := CallBufs(s.calls), SenderBufs(s.senders), multiset(Bufs(s.conn.queue));
      MoveFromPool(a, sb, q, s.pool, s.dropped, s.mem.Keys, b);
      hide OnceEach;
      forall i | 0 <= i < |Line(s.senders, s.conn.queue)| ensures Line(s.senders, s.conn.queue)[i].buf != b {
        LineHeld(s, i);
      }
      forall i | 0 <= i < |s.calls| ensures s.calls[i].buf != b {
        CallBufsRemove(s.calls, i);
      }
    } else {
      forall i | 0 <= i < |s.calls| && s.calls[i].Pending? ensures s.calls[i].buf != b {
        assert CallOK(s.mem, s.calls[i]);
      }
    }
  }

  lemma MemFill(mem: Memory, mem': Memory, pool: multiset<BufId>, calls: seq<Call>, b: BufId, msg: Message)
    requires MemInv(mem, pool, calls)
    requires forall i :: 0 <= i < |calls| && calls[i].Pending? ==> calls[i].buf != b
    requires mem'.Keys == mem.Keys + {b} && forall x :: x in mem && x != b ==> mem'[x] == mem[x]
    requires mem'[b].data == msg.buf && |msg.buf| <= mem'[b].cap && (b in mem ==> mem'[b].cap == mem[b].cap)
    ensures MemInv(mem', pool - multiset{b}, calls + [Pending(b, msg, false)])
    ensures b !in pool ==> MemInv(mem', pool, calls + [Pending(b, msg, false)])
  {
    forall i | 0 <= i < |calls| ensures CallOK(mem', calls[i]) {
      assert CallOK(mem, calls[i]);
    }
  }

  lemma MemBegin(s: State, b: BufId, msg: Message)
    requires MemInv(s.mem, s.pool, s.calls) && BeginGuard(s, b, msg)
    requires forall i :: 0 <= i < |s.calls| && s.calls[i].Pending? ==> s.calls[i].buf != b
    ensures var t := BeginCall(s, b, msg); MemInv(t.mem, t.pool, t.calls)
  {
    assert b in s.pool ==> b in s.mem && s.mem[b].cap == POOL_BUF_CAP;
    hide MemInv;
    MemFill(s.mem, BeginCall(s, b, msg).mem, s.pool, s.calls, b, msg);
  }

  lemma OrderBegin(s: State, b: BufId, msg: Message)
    requires OrderInv(s) && BeginGuard(s, b, msg)
    requires forall i :: 0 <= i < |Line(s.senders, s.conn.queue)| ==> Line(s.senders, s.conn.queue)[i].buf != b
    ensures OrderInv(BeginCall(s, b, msg))
  {
    hide Ordered;
    Rewriting(s.mem, BeginCall(s, b, msg).mem, Line(s.senders, s.conn.queue), s.accepted, s.settled, s.wire,
              s.conn.fatal, b);
  }

  lemma OwnAccept(s: State, i: nat)
    requires OwnInv(s) && AdmitGuard(s, i)
    requires Offer(s.conn, Slot(s.calls[i].buf, s.calls[i].msg.addr)).Accept?
    ensures OwnInv(AdmitCall(s, i))
  {
    hide OnceEach;
    var t, slot := AdmitCall(s, i), Slot(s.calls[i].buf, s.calls[i].msg.addr);
    CallBufsRemove(s.calls, i);
    BufsAppend(s.conn.queue, [slot]);
    assert Bufs([slot]) == [slot.buf];
    SpawnHoldsNothing(s.senders);
    hide CallBufs, SenderBufs, Bufs, Remove;
    MoveCallToQueue(CallBufs(s.calls), SenderBufs(s.senders), multiset(Bufs(s.conn.queue)), s.pool, s.dropped,
                    s.mem.Keys, CallBufs(t.calls), multiset(Bufs(t.conn.queue)), slot.buf);
  }

  lemma OwnAdmit(s: State, i: nat)
    requires OwnInv(s) && AdmitGuard(s, i)
    ensures OwnInv(AdmitCall(s, i))
  {
    if Offer(s.conn, Slot(s.calls[i].buf, s.calls[i].msg.addr)).Accept? {
      OwnAccept(s, i);
    } else {
      hide OnceEach;
      CallBufsSame(s.calls, AdmitCall(s, i).calls);
    }
  }

  lemma SpawnHoldsNothing(senders: seq<Sender>)
    ensures SenderBufs(senders + [Sender(AtSelect, true)]) == SenderBufs(senders)
    ensures SenderBufs(senders + []) == SenderBufs(senders)
  {
    assert (senders + [Sender(AtSelect, true)])[..|senders|] == senders;
    assert senders + [] == senders;
  }

  lemma OrderAdmit(s: State, i: nat)
    requires OneSendLoop(s.conn, s.senders) && OrderInv(s) && MemInv(s.mem, s.pool, s.calls) && AdmitGuard(s, i)
    ensures OrderInv(AdmitCall(s, i))
  {
    hide Ordered;
    var t, c := AdmitCall(s, i), s.calls[i];
    var slot := Slot(c.buf, c.msg.addr);
    if Offer(s.conn, slot).Accept? {
      assert CallOK(s.mem, c);
      assert Line(t.senders, t.conn.queue) == Line(s.senders, s.conn.queue) + [slot];
      Accepting(s.mem, Line(s.senders, s.conn.queue), s.accepted, s.settled, s.wire, s.conn.fatal, slot, c.msg);
    }
  }

  lemma MemAdmit(s: State, i: nat)
    requires MemInv(s.mem, s.pool, s.calls) && AdmitGuard(s, i)
    ensures var t := AdmitCall(s, i); MemInv(t.mem, t.pool, t.calls)
  {
    var calls := AdmitCall(s, i).calls;
    forall j | 0 <= j < |calls| ensures CallOK(s.mem, calls[j]) {
      assert CallOK(s.mem, s.calls[if |calls| < |s.calls| && j >= i then j + 1 else j]);
    }
  }

  lemma OwnPutRefused(s: State, i: nat)
    requires OwnInv(s) && i < |s.calls|
    ensures OwnInv(PutRefusedStep(s, i))
  {
    hide OnceEach;
    var t, b := PutRefusedStep(s, i), s.calls[i].buf;
    CallBufsRemove(s.calls, i);
    MoveToBin(CallBufs(s.calls), SenderBufs(s.senders), multiset(Bufs(s.conn.queue)), s.pool, s.dropped, s.mem.Keys,
              CallBufs(t.calls), SenderBufs(s.senders), t.pool, t.dropped, b);
  }

  lemma MemPutRefused(s: State, i: nat)
    requires MemInv(s.mem, s.pool, s.calls) && i < |s.calls|
    ensures var t := PutRefusedStep(s, i); MemInv(t.mem, t.pool, t.calls)
  {
    var t := PutRefusedStep(s, i);
    forall j | 0 <= j < |t.calls| ensures CallOK(t.mem, t.calls[j]) {
      assert CallOK(s.mem, s.calls[if j < i then j else j + 1]);
    }
  }

  lemma OrderSame(s: State, t: State)
    requires OrderInv(s) && t.mem == s.mem && Line(t.senders, t.conn.queue) == Line(s.senders, s.conn.queue)
    requires t.accepted == s.accepted && t.settled == s.settled && t.wire == s.wire && t.conn.fatal == s.conn.fatal
    ensures OrderInv(t)
  {
  }

  // ---- The sender's steps ----

  /** The one sender moves between places where it holds nothing. */
  predicate EmptyHanded(pc: Pc) {
    !pc.Busy? || pc == Busy([], Done)
  }

  lemma OwnMove(s: State, k: nat, x: Sender, t: State)
    requires OneSendLoop(s.conn, s.senders) && OwnInv(s) && Live(s, k)
    requires EmptyHanded(s.senders[k].pc) && EmptyHanded(x.pc)
    requires t == s.(senders := s.senders[k := x], conn := t.conn) && t.conn.queue == s.conn.queue
    ensures OwnInv(t)
  {
    hide OnceEach;
    OneSender(s, k);
    SenderBufsOne(x);
    assert Held(s.senders[k].pc) == [] == Held(x.pc);
  }

  lemma OrderMove(s: State, k: nat, x: Sender, t: State)
    requires OneSendLoop(s.conn, s.senders) && OrderInv(s) && Live(s, k)
    requires EmptyHanded(s.senders[k].pc) && EmptyHanded(x.pc)
    requires t == s.(senders := s.senders[k := x], conn := t.conn)
    requires t.conn.queue == s.conn.queue && t.conn.fatal == s.conn.fatal
    ensures OrderInv(t)
  {
    hide Ordered;
    OneSender(s, k);
  }

  lemma LoopMove(s: State, k: nat, x: Sender, conn: Conn)
    requires OneSendLoop(s.conn, s.senders) && Live(s, k) && PcOK(x)
    requires conn.queue == s.conn.queue && conn.sender == s.conn.sender
    requires conn.fatal == s.conn.fatal || (conn.fatal.Some? && conn.fatal.value.Fatal())
    ensures OneSendLoop(conn, s.senders[k := x])
  {
    OneSender(s, k);
  }

  lemma BroadcastFrame(s: State)
    ensures CallBufs(WakeCalls(s.calls)) == CallBufs(s.calls)
    ensures MemInv(s.mem, s.pool, s.calls) ==> MemInv(s.mem, s.pool, WakeCalls(s.calls))
    ensures forall conn :: SleepInv(conn, WakeCalls(s.calls), WakeClosers(s.closers))
    ensures |WakeClosers(s.closers)| == |s.closers|
  {
    var calls := WakeCalls(s.calls);
    CallBufsSame(s.calls, calls);
    if MemInv(s.mem, s.pool, s.calls) {
      forall i | 0 <= i < |calls| ensures CallOK(s.mem, calls[i]) {
        assert CallOK(s.mem, s.calls[i]);
      }
    }
  }

  /** An empty-handed sender ends. */
  lemma OwnEnd(s: State, k: nat, t: State)
    requires OneSendLoop(s.conn, s.senders) && OwnInv(s) && Live(s, k) && EmptyHanded(s.senders[k].pc)
    requires t == Broadcast(s.(conn := t.conn, senders := Remove(s.senders, k))) && t.conn.queue == s.conn.queue
    ensures OwnInv(t)
  {
    hide OnceEach;
    OneSender(s, k);
    BroadcastFrame(s);
    assert t.senders == [] && SenderBufs(t.senders) == multiset{};
    assert Held(s.senders[k].pc) == [];
  }

  lemma OrderEnd(s: State, k: nat, t: State)
    requires OneSendLoop(s.conn, s.senders) && OrderInv(s) && Live(s, k) && EmptyHanded(s.senders[k].pc)
    requires t == Broadcast(s.(conn := t.conn, senders := Remove(s.senders, k)))
    requires t.conn.queue == s.conn.queue && t.conn.fatal == s.conn.fatal
    ensures OrderInv(t)
  {
    hide Ordered;
    OneSender(s, k);
    assert t.senders == [];
  }

  lemma HeldTake(queue: seq<Slot>, n: nat)
    requires n <= |queue|
    ensures multiset(Bufs(queue)) == multiset(Bufs(queue[..n])) + multiset(Bufs(queue[n..]))
    ensures Held(Busy(Bufs(queue[..n]), Done)) == Bufs(queue[..n]) == Held(Busy([], ToWrite(queue[..n], 0, 0)))
  {
    assert queue == queue[..n] + queue[n..];
    BufsAppend(queue[..n], queue[n..]);
  }

  /** What taking a batch changes. */
  lemma TakeShape(s: State, k: nat)
    requires OneSendLoop(s.conn, s.senders) && Live(s, k) && s.conn.queue != []
    ensures var t, p := TakeStep(s, k), Pop(s.conn);
            |t.senders| == 1 && t.conn == p.conn && t.calls == WakeCalls(s.calls)
            && t.pool == s.pool && t.dropped == s.dropped && t.mem == s.mem
            && (t.senders[0].pc == Busy(Bufs(p.batch), Done) || t.senders[0].pc == Busy([], ToWrite(p.batch, 0, 0)))
  {
    OneSender(s, k);
  }

  lemma OwnTake(s: State, k: nat)
    requires OneSendLoop(s.conn, s.senders) && OwnInv(s) && Live(s, k)
    requires s.senders[k].pc == AtPop && s.conn.queue != []
    ensures OwnInv(TakeStep(s, k))
  {
    hide OnceEach, OneSendLoop, MemInv, SleepInv, TakeStep;
    OneSender(s, k);
    var t, p := TakeStep(s, k), Pop(s.conn);
    TakeShape(s, k);
    BroadcastFrame(s);
    HeldTake(s.conn.queue, |p.batch|);
    assert Held(s.senders[0].pc) == [] && t.senders == [t.senders[0]];
    SenderBufsOne(t.senders[0]);
    hide Held, CallBufs, SenderBufs, Bufs, WakeCalls, WakeClosers;
    MoveQueueToSender(CallBufs(s.calls), SenderBufs(s.senders), multiset(Bufs(s.conn.queue)), s.pool, s.dropped,
                      s.mem.Keys, multiset(Bufs(p.batch)), multiset(Bufs(p.conn.queue)));
  }

  lemma OrderTake(s: State, k: nat)
    requires OneSendLoop(s.conn, s.senders) && OrderInv(s) && Live(s, k)
    requires s.senders[k].pc == AtPop && s.conn.queue != []
    ensures OrderInv(TakeStep(s, k))
  {
    hide Ordered, OneSendLoop;
    OneSender(s, k);
    var t, p := TakeStep(s, k), Pop(s.conn);
    assert Line(s.senders, s.conn.queue) == s.conn.queue;
    if p.fatal.Some? {
      SettleLost(s.mem, s.conn.queue, s.accepted, s.settled, s.wire, s.conn.fatal, |p.batch|, AfterFatal, s.conn.fatal);
      assert Line(t.senders, t.conn.queue) == p.conn.queue;
    } else {
      assert Line(t.senders, t.conn.queue) == p.batch + p.conn.queue == s.conn.queue;
      hide TakeStep;
      OrderSame(s, t);
    }
  }

  lemma LoopTake(s: State, k: nat)
    requires OneSendLoop(s.conn, s.senders) && Live(s, k)
    ensures var t := TakeStep(s, k); OneSendLoop(t.conn, t.senders)
  {
    OneSender(s, k);
    var t, p := TakeStep(s, k), Pop(s.conn);
    hide Bufs, SenderBufs, Held, WakeCalls, WakeClosers;
    if p.exit {
      assert t.senders == [];
    } else {
      assert |t.senders| == 1 && PcOK(t.senders[0]);
    }
  }

  lemma HeldAfterWrite(w: Job, n: nat, err: Option<WriteErr>)
    requires JobOK(w) && w.ToWrite? && n <= |w.rest| && (err.None? ==> n == |w.rest|)
    ensures Held(AfterWrite(w, n, err).0) == Bufs(w.rest)
    ensures PcOK(Sender(AfterWrite(w, n, err).0, true))
  {
    assert w.rest == w.rest[..n] + w.rest[n..];
    BufsAppend(w.rest[..n], w.rest[n..]);
  }

  lemma OwnWrite(s: State, k: nat, n: nat, err: Option<WriteErr>, delta: seq<Message>)
    requires OneSendLoop(s.conn, s.senders) && OwnInv(s)
    requires WriteReady(s, k) && n <= |s.senders[k].pc.job.rest| && (err.None? ==> n == |s.senders[k].pc.job.rest|)
    ensures OwnInv(WriteStep(s, k, n, err, delta))
  {
    hide OnceEach;
    OneSender(s, k);
    var t := WriteStep(s, k, n, err, delta);
    HeldAfterWrite(s.senders[0].pc.job, n, err);
    SenderBufsOne(t.senders[0]);
    assert Held(s.senders[0].pc) == Held(t.senders[0].pc);
  }

  lemma OrderGiveUp(mem: Memory, left: seq<Slot>, queue: seq<Slot>, accepted: seq<Message>, settled: seq<Fate>,
                    wire: seq<Message>, fatal: Option<WriteErr>)
    requires Ordered(mem, left + queue, accepted, settled, wire, fatal)
    ensures Ordered(mem, queue, accepted, settled + Lose(|left|, Retries(WRITE_ATTEMPTS)), wire, fatal)
  {
    SettleLost(mem, left + queue, accepted, settled, wire, fatal, |left|, Retries(WRITE_ATTEMPTS), fatal);
    assert (left + queue)[|left|..] == queue;
  }

  lemma OrderWrite(s: State, k: nat, n: nat, err: Option<WriteErr>, delta: seq<Message>, torn: nat)
    requires OneSendLoop(s.conn, s.senders) && OrderInv(s) && WriteGuard(s, k, n, err, delta, torn)
    ensures OrderInv(WriteStep(s, k, n, err, delta))
  {
    hide Ordered, OneSendLoop, WindowsWriter.Wrote, Load, Bufs;
    OneSender(s, k);
    var t, w, queue := WriteStep(s, k, n, err, delta), s.senders[0].pc.job, s.conn.queue;
    var r := AfterWrite(w, n, err);
    SettleSent(s.mem, w.rest, queue, s.accepted, s.settled, s.wire, s.conn.fatal, n, delta, torn);
    assert t.senders == [Sender(r.0, s.senders[0].armed)];
    var settled := s.settled + Delivered(delta);
    if Judge(|w.rest| - n, w.attempt, err).GiveUp? {
      OrderGiveUp(s.mem, w.rest[n..], queue, s.accepted, settled, s.wire + delta, s.conn.fatal);
      assert Line(t.senders, queue) == queue;
    } else {
      assert settled + r.1 == settled;
      assert Line(t.senders, queue) == w.rest[n..] + queue;
    }
  }

  lemma OwnNote(s: State, k: nat)
    requires OneSendLoop(s.conn, s.senders) && OwnInv(s) && NoteGuard(s, k)
    ensures OwnInv(NoteStep(s, k))
  {
    hide OnceEach;
    OneSender(s, k);
    BroadcastFrame(s);
    var t := NoteStep(s, k);
    SenderBufsOne(t.senders[0]);
    assert Held(s.senders[0].pc) == Held(t.senders[0].pc);
  }

  lemma OrderNote(s: State, k: nat)
    requires OneSendLoop(s.conn, s.senders) && OrderInv(s) && NoteGuard(s, k)
    ensures OrderInv(NoteStep(s, k))
  {
    OneSender(s, k);
    hide Ordered, OneSendLoop;
    var t, w := NoteStep(s, k), s.senders[0].pc.job;
    SettleLost(s.mem, w.rest + s.conn.queue, s.accepted, s.settled, s.wire,
               s.conn.fatal, |w.rest|, FatalWrite, t.conn.fatal);
    assert Line(t.senders, t.conn.queue) == (w.rest + s.conn.queue)[|w.rest|..];
  }

  lemma HeadFirst(out: seq<BufId>, tail: seq<BufId>)
    requires out != []
    ensures multiset(out + tail) == multiset(out[1..] + tail) + multiset{out[0]}
  {
    assert out + tail == [out[0]] + (out[1..] + tail);
  }

  lemma HeldTail(out: seq<BufId>, job: Job)
    requires out != []
    ensures multiset(Held(Busy(out, job))) == multiset(Held(Busy(out[1..], job))) + multiset{out[0]}
  {
    hide Bufs;
    HeadFirst(out, Bufs(Rest(Busy(out, job))));
  }

  lemma OwnRelease(s: State, k: nat)
    requires OneSendLoop(s.conn, s.senders) && OwnInv(s) && ReleaseGuard(s, k)
    ensures OwnInv(ReleaseStep(s, k))
  {
    hide OnceEach, OneSendLoop, Held;
    OneSender(s, k);
    var t, pc := ReleaseStep(s, k), s.senders[0].pc;
    SenderBufsOne(t.senders[0]);
    HeldTail(pc.out, pc.job);
    hide CallBufs, SenderBufs, Bufs;
    MoveToBin(CallBufs(s.calls), SenderBufs(s.senders), multiset(Bufs(s.conn.queue)), s.pool, s.dropped, s.mem.Keys,
              CallBufs(s.calls), SenderBufs(t.senders), t.pool, t.dropped, pc.out[0]);
  }

  lemma OrderRelease(s: State, k: nat)
    requires OneSendLoop(s.conn, s.senders) && OrderInv(s) && ReleaseGuard(s, k)
    ensures OrderInv(ReleaseStep(s, k))
  {
    hide Ordered;
    OneSender(s, k);
  }

  lemma MemRelease(s: State, k: nat)
    requires MemInv(s.mem, s.pool, s.calls) && ReleaseGuard(s, k)
    ensures var t := ReleaseStep(s, k); MemInv(t.mem, t.pool, t.calls)
  {
  }

  // ---- All steps together, part by part ----

  lemma LoopStep(s: State, e: Event)
    requires OneSendLoop(s.conn, s.senders) && Enabled(s, e)
    ensures var t := Next(s, e); OneSendLoop(t.conn, t.senders)
  {
    hide OneSendLoop, Load, WindowsWriter.Wrote, Bufs;
    var t := Next(s, e);
    match e
    case Admit(i) => LoopAdmit(s, i);
    case TimerFires(k) => LoopMove(s, k, Sender(TryExit, false), s.conn);
    case Kicked(k) => LoopMove(s, k, s.senders[k].(pc := AtPop), t.conn);
    case ExitIfIdle(k) => LoopExit(s, k);
    case Take(k) => LoopTake(s, k);
    case Write(k, n, err, delta, torn) => LoopWrite(s, k, n, err, delta);
    case NoteIt(k) => LoopNote(s, k);
    case ReleaseOne(k) => LoopRelease(s, k);
    case BatchDone(k) => LoopMove(s, k, s.senders[k].(pc := AtReset), s.conn);
    case Reset(k) => LoopMove(s, k, Sender(AtSelect, true), s.conn);
    case BeginClose => LoopBeginClose(s);
    case _ =>
  }

  lemma LoopAdmit(s: State, i: nat)
    requires OneSendLoop(s.conn, s.senders) && AdmitGuard(s, i)
    ensures var t := AdmitCall(s, i); OneSendLoop(t.conn, t.senders)
  {
  }

  lemma LoopExit(s: State, k: nat)
    requires OneSendLoop(s.conn, s.senders) && Live(s, k)
    ensures var t := ExitStep(s, k); OneSendLoop(t.conn, t.senders)
  {
    OneSender(s, k);
  }

  lemma LoopWrite(s: State, k: nat, n: nat, err: Option<WriteErr>, delta: seq<Message>)
    requires OneSendLoop(s.conn, s.senders)
    requires WriteReady(s, k) && n <= |s.senders[k].pc.job.rest| && (err.None? ==> n == |s.senders[k].pc.job.rest|)
    ensures var t := WriteStep(s, k, n, err, delta); OneSendLoop(t.conn, t.senders)
  {
    OneSender(s, k);
    HeldAfterWrite(s.senders[0].pc.job, n, err);
    hide OneSendLoop, AfterWrite;
    LoopMove(s, k, WriteStep(s, k, n, err, delta).senders[k], s.conn);
  }

  lemma LoopNote(s: State, k: nat)
    requires OneSendLoop(s.conn, s.senders) && NoteGuard(s, k)
    ensures var t := NoteStep(s, k); OneSendLoop(t.conn, t.senders)
  {
    OneSender(s, k);
    LoopMove(s, k, NoteStep(s, k).senders[k], NoteStep(s, k).conn);
  }

  lemma LoopRelease(s: State, k: nat)
    requires OneSendLoop(s.conn, s.senders) && ReleaseGuard(s, k)
    ensures var t := ReleaseStep(s, k); OneSendLoop(t.conn, t.senders)
  {
    OneSender(s, k);
    LoopMove(s, k, ReleaseStep(s, k).senders[k], s.conn);
  }

  lemma LoopBeginClose(s: State)
    requires OneSendLoop(s.conn, s.senders)
    ensures var t := BeginCloseStep(s); OneSendLoop(t.conn, t.senders)
  {
  }

  lemma CloseStep(s: State, e: Event)
    requires OneSendLoop(s.conn, s.senders) && CloseInv(s.conn, s.closers, s.closeReturned) && Enabled(s, e)
    ensures var t := Next(s, e); CloseInv(t.conn, t.closers, t.closeReturned)
  {
    hide WriteGuard, Bufs, AfterWrite;
    match e
    case Take(k) => OneSender(s, k);
    case _ =>
  }

  lemma OwnStep(s: State, e: Event)
    requires OneSendLoop(s.conn, s.senders) && OwnInv(s) && Enabled(s, e)
    ensures OwnInv(Next(s, e))
  {
    hide OneSendLoop, OwnInv, Load, WindowsWriter.Wrote, Bufs;
    var t := Next(s, e);
    match e
    case Begin(b, msg) => OwnBegin(s, b, msg);
    case Admit(i) => OwnAdmit(s, i);
    case PutRefused(i) => OwnPutRefused(s, i);
    case Forget(b) => OwnForget(s, b);
    case ExitIfIdle(k) => OwnExit(s, k);
    case Take(k) => OwnTakeAny(s, k);
    case Write(k, n, err, delta, torn) => OwnWrite(s, k, n, err, delta);
    case NoteIt(k) => OwnNote(s, k);
    case ReleaseOne(k) => OwnRelease(s, k);
    case BatchDone(k) => OwnQuiet(s, e);
    case Reset(k) => OwnQuiet(s, e);
    case TimerFires(k) => OwnQuiet(s, e);
    case Kicked(k) => OwnQuiet(s, e);
    case BeginClose => OwnBeginClose(s);
    case SocketClosed(j) => OwnClosers(s, t);
    case FinishClose(j) => OwnClosers(s, t);
  }

  lemma OwnForget(s: State, b: BufId)
    requires OwnInv(s) && b in s.pool
    ensures OwnInv(ForgetStep(s, b))
  {
    hide OnceEach;
    MoveFromPool(CallBufs(s.calls), SenderBufs(s.senders), multiset(Bufs(s.conn.queue)), s.pool, s.dropped, s.mem.Keys, b);
  }

  lemma OwnExit(s: State, k: nat)
    requires OneSendLoop(s.conn, s.senders) && OwnInv(s) && Live(s, k) && s.senders[k].pc == TryExit
    ensures OwnInv(ExitStep(s, k))
  {
    hide OneSendLoop, OwnInv;
    var t := ExitStep(s, k);
    if IdleExit(s.conn).1 {
      OwnEnd(s, k, t);
    } else {
      OwnMove(s, k, t.senders[k], t);
    }
  }

  lemma OwnTakeAny(s: State, k: nat)
    requires OneSendLoop(s.conn, s.senders) && OwnInv(s) && Live(s, k) && s.senders[k].pc == AtPop
    ensures OwnInv(TakeStep(s, k))
  {
    hide OneSendLoop, OwnInv;
    var t := TakeStep(s, k);
    if s.conn.queue != [] {
      OwnTake(s, k);
    } else if s.conn.closed {
      OwnEnd(s, k, t);
    } else {
      OwnMove(s, k, t.senders[k], t);
    }
  }

  lemma OwnBeginClose(s: State)
    requires OwnInv(s)
    ensures OwnInv(BeginCloseStep(s))
  {
    hide OnceEach;
    BroadcastFrame(s);
  }

  lemma OwnClosers(s: State, t: State)
    requires OwnInv(s) && t == s.(closers := t.closers, closeReturned := t.closeReturned)
    ensures OwnInv(t)
  {
  }

  lemma MemStep(s: State, e: Event)
    requires OneSendLoop(s.conn, s.senders) && OwnInv(s) && OrderInv(s) && MemInv(s.mem, s.pool, s.calls)
    requires Enabled(s, e)
    ensures var t := Next(s, e); MemInv(t.mem, t.pool, t.calls)
  {
    hide OneSendLoop, OwnInv, OrderInv, MemInv, WriteGuard, Bufs, AfterWrite;
    match e
    case Begin(b, msg) =>
      Unshared(s, b, msg);
      MemBegin(s, b, msg);
    case Admit(i) => MemAdmit(s, i);
    case PutRefused(i) => MemPutRefused(s, i);
    case Forget(b) => MemForget(s, b);
    case ReleaseOne(k) => MemRelease(s, k);
    case Write(k, n, err, delta, torn) => MemWrite(s, k, n, err, delta, torn);
    case Take(_) => MemQuiet(s, e);
    case ExitIfIdle(_) => MemQuiet(s, e);
    case NoteIt(_) => MemQuiet(s, e);
    case _ => MemStill(s, e);
  }

  lemma MemQuiet(s: State, e: Event)
    requires Enabled(s, e) && MemInv(s.mem, s.pool, s.calls) && (e.Take? || e.ExitIfIdle? || e.NoteIt?)
    ensures var t := Next(s, e); MemInv(t.mem, t.pool, t.calls)
  {
    hide MemInv, WriteGuard, Bufs, Lose;
    MemSame(s, Next(s, e));
  }

  lemma MemStill(s: State, e: Event)
    requires Enabled(s, e) && MemInv(s.mem, s.pool, s.calls)
    requires e.TimerFires? || e.Kicked? || e.BatchDone? || e.Reset? || e.BeginClose? || e.SocketClosed? || e.FinishClose?
    ensures var t := Next(s, e); MemInv(t.mem, t.pool, t.calls)
  {
    hide MemInv, WriteGuard;
    MemSame(s, Next(s, e));
  }

  lemma MemWrite(s: State, k: nat, n: nat, err: Option<WriteErr>, delta: seq<Message>, torn: nat)
    requires MemInv(s.mem, s.pool, s.calls) && WriteGuard(s, k, n, err, delta, torn)
    ensures var t := WriteStep(s, k, n, err, delta); MemInv(t.mem, t.pool, t.calls)
  {
    hide MemInv;
  }

  lemma MemSame(s: State, t: State)
    requires MemInv(s.mem, s.pool, s.calls) && t.mem == s.mem && t.pool == s.pool
    requires t.calls == s.calls || t.calls == WakeCalls(s.calls)
    ensures MemInv(t.mem, t.pool, t.calls)
  {
    BroadcastFrame(s);
  }

  lemma MemForget(s: State, b: BufId)
    requires MemInv(s.mem, s.pool, s.calls) && b in s.pool
    ensures var t := ForgetStep(s, b); MemInv(t.mem, t.pool, t.calls)
  {
  }

  lemma OrderStep(s: State, e: Event)
    requires OneSendLoop(s.conn, s.senders) && OwnInv(s) && OrderInv(s) && MemInv(s.mem, s.pool, s.calls)
    requires Enabled(s, e)
    ensures OrderInv(Next(s, e))
  {
    hide OneSendLoop, OwnInv, OrderInv, MemInv, WriteGuard, Bufs;
    var t := Next(s, e);
    match e
    case Begin(b, msg) =>
      Unshared(s, b, msg);
      OrderBegin(s, b, msg);
    case Admit(i) => OrderAdmit(s, i);
    case ExitIfIdle(k) => OrderExit(s, k);
    case Take(k) => OrderTakeAny(s, k);
    case Write(k, n, err, delta, torn) => OrderWrite(s, k, n, err, delta, torn);
    case NoteIt(k) => OrderNote(s, k);
    case ReleaseOne(k) => OrderRelease(s, k);
    case BatchDone(k) => OrderQuiet(s, e);
    case Reset(k) => OrderQuiet(s, e);
    case TimerFires(k) => OrderQuiet(s, e);
    case Kicked(k) => OrderQuiet(s, e);
    case PutRefused(i) => OrderPutRefused(s, i);
    case Forget(b) => OrderSame(s, t);
    case BeginClose => OrderBeginClose(s);
    case SocketClosed(j) => OrderSame(s, t);
    case FinishClose(j) => OrderSame(s, t);
  }

  lemma OrderPutRefused(s: State, i: nat)
    requires OrderInv(s) && i < |s.calls|
    ensures OrderInv(PutRefusedStep(s, i))
  {
    hide OrderInv;
    OrderSame(s, PutRefusedStep(s, i));
  }

  lemma OrderBeginClose(s: State)
    requires OrderInv(s)
    ensures OrderInv(BeginCloseStep(s))
  {
    hide OrderInv;
    OrderSame(s, BeginCloseStep(s));
  }

  predicate Quiet(e: Event) {
    e.TimerFires? || e.Kicked? || e.BatchDone? || e.Reset?
  }

  lemma OrderQuiet(s: State, e: Event)
    requires OneSendLoop(s.conn, s.senders) && OrderInv(s) && Enabled(s, e) && Quiet(e)
    ensures OrderInv(Next(s, e))
  {
    hide OneSendLoop, OrderInv, WriteGuard;
    OrderMove(s, e.k, Next(s, e).senders[e.k], Next(s, e));
  }

  lemma OwnQuiet(s: State, e: Event)
    requires OneSendLoop(s.conn, s.senders) && OwnInv(s) && Enabled(s, e) && Quiet(e)
    ensures OwnInv(Next(s, e))
  {
    hide OneSendLoop, OwnInv, WriteGuard;
    OwnMove(s, e.k, Next(s, e).senders[e.k], Next(s, e));
  }

  lemma OrderExit(s: State, k: nat)
    requires OneSendLoop(s.conn, s.senders) && OrderInv(s) && Live(s, k) && s.senders[k].pc == TryExit
    ensures OrderInv(ExitStep(s, k))
  {
    hide OneSendLoop, OrderInv;
    var t := ExitStep(s, k);
    if IdleExit(s.conn).1 {
      OrderEnd(s, k, t);
    } else {
      OrderMove(s, k, t.senders[k], t);
    }
  }

  lemma OrderTakeAny(s: State, k: nat)
    requires OneSendLoop(s.conn, s.senders) && OrderInv(s) && Live(s, k) && s.senders[k].pc == AtPop
    ensures OrderInv(TakeStep(s, k))
  {
    hide OneSendLoop, OrderInv;
    var t := TakeStep(s, k);
    if s.conn.queue != [] {
      OrderTake(s, k);
    } else if s.conn.closed {
      OrderEnd(s, k, t);
    } else {
      OrderMove(s, k, t.senders[k], t);
    }
  }

  lemma SleepStep(s: State, e: Event)
    requires OneSendLoop(s.conn, s.senders) && SleepInv(s.conn, s.calls, s.closers) && Enabled(s, e)
    ensures var t := Next(s, e); SleepInv(t.conn, t.calls, t.closers)
  {
    hide OneSendLoop, SleepInv, WriteGuard, Bufs, AfterWrite;
    var t := Next(s, e);
    match e
    case Begin(b, msg) => SleepBegin(s, b, msg);
    case Admit(i) => SleepAdmit(s, i);
    case PutRefused(i) => SleepPutRefused(s, i);
    case Kicked(k) => SleepKick(s);
    case ExitIfIdle(k) => SleepExit(s, k);
    case Take(k) => SleepTake(s, k);
    case NoteIt(k) => SleepNote(s, k);
    case BeginClose => SleepBeginClose(s);
    case SocketClosed(j) => SleepClosers(s, t);
    case FinishClose(j) => SleepClosers(s, t);
    case _ =>
  }

  lemma SleepExit(s: State, k: nat)
    requires SleepInv(s.conn, s.calls, s.closers) && Live(s, k)
    ensures var t := ExitStep(s, k); SleepInv(t.conn, t.calls, t.closers)
  {
    hide SleepInv;
    BroadcastFrame(s);
  }

  lemma SleepTake(s: State, k: nat)
    requires SleepInv(s.conn, s.calls, s.closers) && Live(s, k)
    ensures var t := TakeStep(s, k); SleepInv(t.conn, t.calls, t.closers)
  {
    hide SleepInv;
    BroadcastFrame(s);
    assert Pop(s.conn).broadcast || Pop(s.conn).conn == s.conn;
  }

  lemma SleepNote(s: State, k: nat)
    requires NoteGuard(s, k)
    ensures var t := NoteStep(s, k); SleepInv(t.conn, t.calls, t.closers)
  {
    hide SleepInv;
    BroadcastFrame(s);
  }

  lemma SleepBegin(s: State, b: BufId, msg: Message)
    requires SleepInv(s.conn, s.calls, s.closers)
    ensures SleepInv(s.conn, s.calls + [Pending(b, msg, false)], s.closers)
  {
  }

  lemma SleepAdmit(s: State, i: nat)
    requires OneSendLoop(s.conn, s.senders) && SleepInv(s.conn, s.calls, s.closers) && AdmitGuard(s, i)
    ensures var t := AdmitCall(s, i); SleepInv(t.conn, t.calls, t.closers)
  {
  }

  lemma SleepPutRefused(s: State, i: nat)
    requires SleepInv(s.conn, s.calls, s.closers) && i < |s.calls|
    ensures SleepInv(s.conn, Remove(s.calls, i), s.closers)
  {
  }

  lemma SleepKick(s: State)
    requires SleepInv(s.conn, s.calls, s.closers)
    ensures SleepInv(s.conn.(kick := false), s.calls, s.closers)
  {
  }

  lemma SleepBeginClose(s: State)
    requires SleepInv(s.conn, s.calls, s.closers)
    ensures var t := BeginCloseStep(s); SleepInv(t.conn, t.calls, t.closers)
  {
    BroadcastFrame(s.(closers := s.closers + [ClosingSocket]));
  }

  lemma SleepClosers(s: State, t: State)
    requires SleepInv(s.conn, s.calls, s.closers) && t == s.(closers := t.closers, closeReturned := t.closeReturned)
    requires forall j :: 0 <= j < |t.closers| && t.closers[j] == AwaitingSender(true) ==>
               s.conn.sender || t.closers[j] in s.closers
    ensures SleepInv(t.conn, t.calls, t.closers)
  {
  }

  // ---- The main results ----

  lemma InvStep(s: State, e: Event)
    requires Inv(s) && Enabled(s, e)
    ensures Inv(Next(s, e))
  {
    LoopStep(s, e);
    CloseStep(s, e);
    OwnStep(s, e);
    MemStep(s, e);
    OrderStep(s, e);
    SleepStep(s, e);
    hide OneSendLoop, CloseInv, OwnInv, MemInv, OrderInv, SleepInv;
  }

  /** Every state of every interleaving satisfies the invariants. */
  lemma {:induction false} EveryRun(run: seq<Event>)
    requires Exec(run).Some?
    ensures Inv(Exec(run).value)
  {
    if run != [] {
      EveryRun(run[..|run| - 1]);
      InvStep(Exec(run[..|run| - 1]).value, run[|run| - 1]);
    }
  }

  ghost predicate Increasing(idx: seq<nat>) {
    forall i, j :: 0 <= i < j < |idx| ==> idx[i] < idx[j]
  }

  /** `sent[i]` is what became of accepted datagram `idx[i]`. */
  ghost predicate PickedFrom(accepted: seq<Message>, sent: seq<Message>, idx: seq<nat>) {
    && |idx| == |sent| && Increasing(idx)
    && forall i :: 0 <= i < |idx| ==> idx[i] < |accepted| && Carries(accepted[idx[i]], sent[i])
  }

  /** Datagrams leave in the order they were accepted, none twice, with the callers' bytes. */
  lemma DeliveredInOrder(run: seq<Event>) returns (idx: seq<nat>)
    requires Exec(run).Some?
    ensures PickedFrom(Exec(run).value.accepted, Exec(run).value.wire, idx)
  {
    EveryRun(run);
    var s := Exec(run).value;
    idx := SentIndices(s.accepted, s.settled, s.conn.fatal);
  }

  lemma {:induction false} SentIndices(accepted: seq<Message>, fates: seq<Fate>, fatal: Option<WriteErr>)
    returns (idx: seq<nat>)
    requires |fates| <= |accepted|
    requires forall i :: 0 <= i < |fates| ==> FateOK(accepted[i], fates[i], fatal)
    ensures PickedFrom(accepted, SentOnly(fates), idx)
    ensures forall i :: 0 <= i < |idx| ==> idx[i] < |fates|
  {
    hide Carries;
    idx := [];
    if fates != [] {
      var n := |fates| - 1;
      idx := SentIndices(accepted, fates[..n], fatal);
      assert FateOK(accepted[n], fates[n], fatal);
      if fates[n].Sent? {
        assert SentOnly(fates) == SentOnly(fates[..n]) + [fates[n].datagram];
        idx := idx + [n];
      }
    }
  }

  /** Once a Close has returned the queue is empty, no sender lives, and it stays that way. */
  lemma {:induction false} CloseIsFinal(run: seq<Event>, more: seq<Event>)
    requires Exec(run).Some? && Exec(run).value.closeReturned && Exec(run + more).Some?
    ensures var s, t := Exec(run).value, Exec(run + more).value;
            t.closeReturned && t.conn.queue == [] && t.senders == [] && t.accepted == s.accepted && t.wire == s.wire
    decreases |more|
  {
    hide Inv, Enabled, Next;
    if more == [] {
      assert run + more == run;
    } else {
      var m := |more| - 1;
      assert (run + more)[..|run + more| - 1] == run + more[..m];
      CloseIsFinal(run, more[..m]);
      EveryRun(run + more[..m]);
      ClosedStep(Exec(run + more[..m]).value, more[m]);
    }
    EveryRun(run + more);
    ClosedMeansEmpty(Exec(run + more).value);
  }

  lemma ClosedMeansEmpty(s: State)
    requires Inv(s) && s.closeReturned
    ensures s.conn.queue == [] && s.senders == []
  {
  }

  lemma ClosedStep(s: State, e: Event)
    requires Inv(s) && s.closeReturned && Enabled(s, e)
    ensures Next(s, e).closeReturned && Next(s, e).accepted == s.accepted && Next(s, e).wire == s.wire
  {
    hide OwnInv, OrderInv, MemInv, SleepInv, WindowsWriter.Wrote, Load;
  }

  // ---- Progress of the sender ----

  predicate IsSenderStep(e: Event) {
    e.TimerFires? || e.Kicked? || e.ExitIfIdle? || e.Take? || e.Write? || e.NoteIt? || e.ReleaseOne?
    || e.BatchDone? || e.Reset?
  }

  /** A wake-up that finds nothing to do. */
  predicate IdleTake(s: State, e: Event) {
    e.Take? && s.conn.queue == [] && !s.conn.closed
  }

  function Rank(pc: Pc): nat {
    match pc
    case AtSelect => 3
    case TryExit => 2
    case AtPop => 1
    case AtReset => 4
    case Busy(out, Done) => |out| + 5
    case Busy(out, ToNote(rest, _)) => |out| + |rest| + 6
    case Busy(out, ToWrite(rest, attempt, _)) => |out| + |rest| + 7 + if attempt < 3 then 3 - attempt else 0
  }

  /** A bound on the sender's remaining steps when nothing new is queued. */
  function Work(s: State): nat {
    if |s.senders| == 1 then Rank(s.senders[0].pc) + 12 * |s.conn.queue| else 0
  }

  lemma TakeWorks(s: State, k: nat)
    requires OneSendLoop(s.conn, s.senders) && Live(s, k)
    requires s.senders[k].pc == AtPop && !(s.conn.queue == [] && !s.conn.closed)
    ensures Work(TakeStep(s, k)) < Work(s)
  {
    OneSender(s, k);
    hide OneSendLoop;
    var t, p := TakeStep(s, k), Pop(s.conn);
    if s.conn.queue != [] {
      assert |p.batch| >= 1 && |p.conn.queue| == |s.conn.queue| - |p.batch|;
      assert |t.senders| == 1 && t.conn.queue == p.conn.queue;
      assert Rank(t.senders[0].pc) <= |p.batch| + 10;
    } else {
      assert t.senders == [];
    }
  }

  lemma WriteWorks(s: State, k: nat, n: nat, err: Option<WriteErr>, delta: seq<Message>)
    requires OneSendLoop(s.conn, s.senders)
    requires WriteReady(s, k) && n <= |s.senders[k].pc.job.rest| && (err.None? ==> n == |s.senders[k].pc.job.rest|)
    ensures Work(WriteStep(s, k, n, err, delta)) < Work(s)
  {
    OneSender(s, k);
  }

  lemma ExitWorks(s: State, k: nat)
    requires OneSendLoop(s.conn, s.senders) && Live(s, k) && s.senders[k].pc == TryExit
    ensures Work(ExitStep(s, k)) < Work(s)
  {
    OneSender(s, k);
  }

  lemma ReleaseWorks(s: State, k: nat)
    requires OneSendLoop(s.conn, s.senders) && ReleaseGuard(s, k)
    ensures Work(ReleaseStep(s, k)) < Work(s)
  {
    OneSender(s, k);
  }

  lemma MoveWorks(s: State, e: Event)
    requires OneSendLoop(s.conn, s.senders) && Enabled(s, e)
    requires Quiet(e)
    ensures Work(Next(s, e)) < Work(s)
  {
    OneSender(s, e.k);
  }

  /** Every sender step that is not an idle wake-up uses up work. */
  lemma SenderStepWorks(s: State, e: Event)
    requires Inv(s) && Enabled(s, e) && IsSenderStep(e) && !IdleTake(s, e)
    ensures Work(Next(s, e)) < Work(s)
  {
    hide WindowsWriter.Wrote, Load, OwnInv, MemInv, OrderInv, SleepInv, OneSendLoop, Bufs, Work;
    match e
    case Take(k) => TakeWorks(s, k);
    case Write(k, n, err, delta, _) => WriteWorks(s, k, n, err, delta);
    case ExitIfIdle(k) => ExitWorks(s, k);
    case NoteIt(k) => NoteWorks(s, k);
    case ReleaseOne(k) => ReleaseWorks(s, k);
    case _ => MoveWorks(s, e);
  }

  lemma NoteWorks(s: State, k: nat)
    requires OneSendLoop(s.conn, s.senders) && NoteGuard(s, k)
    ensures Work(NoteStep(s, k)) < Work(s)
  {
    OneSender(s, k);
  }

  /** A live sender is never stuck: the timer is armed at every select, and a write always ends somehow. */
  lemma SenderNeverStuck(s: State) returns (e: Event)
    requires Inv(s) && s.conn.sender
    ensures IsSenderStep(e) && Enabled(s, e)
  {
    hide OwnInv, MemInv, SleepInv;
    var x := s.senders[0];
    assert PcOK(x);
    match x.pc
    case AtSelect => e := TimerFires(0);
    case TryExit => e := ExitIfIdle(0);
    case AtPop => e := Take(0);
    case AtReset => e := Reset(0);
    case Busy(out, job) =>
      if out != [] {
        e := ReleaseOne(0);
      } else if job.Done? {
        e := BatchDone(0);
      } else if job.ToNote? {
        e := NoteIt(0);
      } else {
        e := Write(0, 0, Some(Other(0)), [], 0);
        assert Line(s.senders, s.conn.queue)[..|job.rest|] == job.rest;
        WindowsWriter.WroteWhole(Load(s.mem, job.rest), 0);
      }
  }

  ghost function ExecFrom(s: State, es: seq<Event>): Option<State>
    decreases |es|
  {
    if es == [] then Some(s)
    else if Enabled(s, es[0]) then ExecFrom(Next(s, es[0]), es[1..])
    else None
  }

  /** The sender runs alone and always finds something to do. */
  ghost predicate BusyFrom(s: State, es: seq<Event>)
    decreases |es|
  {
    es != [] ==>
      IsSenderStep(es[0]) && !IdleTake(s, es[0]) && (Enabled(s, es[0]) ==> BusyFrom(Next(s, es[0]), es[1..]))
  }

  /**
    The sender drains: left alone it takes at most Work(s) steps before it finds nothing queued.
    In particular, after Close it ends within that many steps (there are no idle wake-ups then).
  */
  lemma {:induction false} SenderDrains(s: State, es: seq<Event>)
    requires Inv(s) && ExecFrom(s, es).Some? && BusyFrom(s, es)
    ensures |es| <= Work(s)
    decreases |es|
  {
    if es != [] {
      InvStep(s, es[0]);
      SenderStepWorks(s, es[0]);
      hide Inv;
      SenderDrains(Next(s, es[0]), es[1..]);
    }
  }

  /** An idle wake-up means every accepted datagram already has its fate. */
  lemma IdleMeansSettled(s: State, e: Event)
    requires Inv(s) && Enabled(s, e) && IdleTake(s, e)
    ensures |s.settled| == |s.accepted|
  {
    hide OwnInv, MemInv, SleepInv;
    OneSender(s, e.k);
    assert Line(s.senders, s.conn.queue) == [];
  }

  // ---- After Close ----

  /** The steps of the sender among all steps. */
  function SenderSteps(es: seq<Event>): nat {
    if es == [] then 0 else (if IsSenderStep(es[0]) then 1 else 0) + SenderSteps(es[1..])
  }

  /** On a closed connection nobody else gives the sender work. */
  lemma OthersAddNoWork(s: State, e: Event)
    requires s.conn.closed && Enabled(s, e) && !IsSenderStep(e)
    ensures Work(Next(s, e)) == Work(s)
  {
  }

  lemma StaysClosed(s: State, e: Event)
    requires s.conn.closed && Enabled(s, e)
    ensures Next(s, e).conn.closed
  {
    hide WindowsWriter.Wrote, Load, WakeCalls, WakeClosers, Lose, Delivered, Bufs, Judge;
  }

  /**
    Once the connection is closed, the sender takes at most Work(s) more steps in any interleaving with
    writers, closers and further Close calls.
  */
  lemma {:induction false} ClosedBounded(s: State, es: seq<Event>)
    requires Inv(s) && s.conn.closed && ExecFrom(s, es).Some?
    ensures SenderSteps(es) + Work(ExecFrom(s, es).value) <= Work(s)
    decreases |es|
  {
    hide Inv, Enabled, Next, Work, IsSenderStep;
    if es != [] {
      InvStep(s, es[0]);
      StaysClosed(s, es[0]);
      if IsSenderStep(es[0]) {
        SenderStepWorks(s, es[0]);
      } else {
        OthersAddNoWork(s, es[0]);
      }
      ClosedBounded(Next(s, es[0]), es[1..]);
    }
  }

  /** The same Close calls, at the same places, some of them woken perhaps. */
  ghost predicate SameClosers(a: seq<Closer>, b: seq<Closer>) {
    |a| == |b| && forall j :: 0 <= j < |a| ==> (a[j].ClosingSocket? <==> b[j].ClosingSocket?)
  }

  lemma WakeKeeps(closers: seq<Closer>)
    ensures SameClosers(closers, closers) && SameClosers(closers, WakeClosers(closers))
  {
  }

  /** A sender step leaves the Close calls where they are, and wakes the sleeping ones when it ends. */
  lemma SenderKeepsClosers(s: State, e: Event)
    requires Enabled(s, e) && IsSenderStep(e)
    ensures SameClosers(s.closers, Next(s, e).closers)
  {
    WakeKeeps(s.closers);
    hide WindowsWriter.Wrote, Load, WakeCalls, WakeClosers, Lose, Delivered, Bufs, Judge, SameClosers;
  }

  /**
    And it can always run to its end by its own steps alone; then every Close that has closed the socket
    can return.
  */
  lemma {:induction false} ClosedSenderEnds(s: State) returns (es: seq<Event>, t: State)
    requires Inv(s) && s.conn.closed
    ensures ExecFrom(s, es) == Some(t) && |es| <= Work(s) && SenderSteps(es) == |es|
    ensures !t.conn.sender && t.senders == [] && t.conn.queue == [] && |t.closers| == |s.closers|
    ensures forall j :: 0 <= j < |s.closers| && s.closers[j].AwaitingSender? ==> Enabled(t, FinishClose(j))
    decreases Work(s)
  {
    if !s.conn.sender {
      es, t := [], s;
      NoneAsleep(s);
      return;
    }
    var e := SenderNeverStuck(s);
    hide Inv, Enabled, Next, Work, IsSenderStep;
    SenderStepWorks(s, e);
    InvStep(s, e);
    StaysClosed(s, e);
    SenderKeepsClosers(s, e);
    var more;
    more, t := ClosedSenderEnds(Next(s, e));
    es := [e] + more;
  }

  lemma NoneAsleep(s: State)
    requires Inv(s) && !s.conn.sender
    ensures s.senders == [] && s.conn.queue == []
    ensures forall j :: 0 <= j < |s.closers| && s.closers[j].AwaitingSender? ==> Enabled(s, FinishClose(j))
  {
    hide OwnInv, MemInv, OrderInv;
  }

  // ---- What each region answers ----

  /**
    A WriteTo that has the lock waits exactly if 256 datagrams are queued on a connection that is open and
    healthy; it is refused exactly with the fatal error or, without one, after Close; otherwise its datagram
    is the last one accepted and queued, and a sender lives that has been woken.
  */
  lemma Admission(s: State, i: nat)
    requires Inv(s) && Enabled(s, Admit(i))
    ensures var t, c := Next(s, Admit(i)), s.calls[i];
            if |s.conn.queue| >= 256 && !s.conn.closed && s.conn.fatal.None? then
              t == s.(calls := s.calls[i := c.(asleep := true)])
            else if s.conn.fatal.Some? then t == s.(calls := s.calls[i := Refused(c.buf, s.conn.fatal.value)])
            else if s.conn.closed then t == s.(calls := s.calls[i := Refused(c.buf, Closed)])
            else
              t.accepted == s.accepted + [c.msg] && |t.calls| == |s.calls| - 1
              && t.conn.queue == s.conn.queue + [Slot(c.buf, c.msg.addr)] && Load(t.mem, t.conn.queue[|s.conn.queue|..]) == [c.msg]
              && t.conn.sender && t.conn.kick && |t.senders| == 1
  {
    hide OwnInv, OrderInv, SleepInv;
    assert CallOK(s.mem, s.calls[i]);
  }

  /** The sender ends on its timer exactly if nothing is queued on an open connection. */
  lemma IdleExitExact(s: State, k: nat)
    requires Inv(s) && Enabled(s, ExitIfIdle(k))
    ensures var t := Next(s, ExitIfIdle(k));
            (t.senders == [] <==> s.conn.queue == [] && !s.conn.closed)
            && t.conn == s.conn.(sender := t.senders != [])
  {
    hide OwnInv, MemInv, OrderInv, SleepInv;
    OneSender(s, k);
  }

  /** It takes the oldest 64 or all; with nothing queued it ends if the connection is closed, and waits if not. */
  lemma TakeExact(s: State, k: nat)
    requires Inv(s) && Enabled(s, Take(k))
    ensures var t, n := Next(s, Take(k)), Min(64, |s.conn.queue|);
            t.conn.queue == s.conn.queue[n..]
            && (t.senders == [] <==> s.conn.queue == [] && s.conn.closed)
            && (n > 0 && s.conn.fatal.None? ==> Rest(t.senders[0].pc) == s.conn.queue[..n])
            && (n > 0 && s.conn.fatal.Some? ==>
                  Held(t.senders[0].pc) == Bufs(s.conn.queue[..n]) && t.settled == s.settled + Lose(n, AfterFatal))
  {
    hide OwnInv, MemInv, OrderInv, SleepInv, Lose;
    OneSender(s, k);
  }

  lemma HeldIsKnown(s: State, b: BufId)
    requires OwnInv(s) && SenderBufs(s.senders)[b] > 0
    ensures b in s.mem
  {
  }

  /** A buffer that is put back goes to the pool exactly if it has the pool's size. */
  lemma ReleaseExact(s: State, k: nat)
    requires Inv(s) && ReleaseGuard(s, k)
    ensures Enabled(s, ReleaseOne(k)) && Next(s, ReleaseOne(k)) == ReleaseStep(s, k)
    ensures s.senders[k].pc.out[0] in s.mem
    ensures var t, b := ReleaseStep(s, k), s.senders[k].pc.out[0];
            if s.mem[b].cap == 2048 then t.pool == s.pool + multiset{b} && t.dropped == s.dropped
            else t.pool == s.pool && t.dropped == s.dropped + multiset{b}
  {
    hide OwnInv, MemInv, OrderInv, SleepInv, Held, SenderBufs;
    OneSender(s, k);
    HeldFirst(s.senders[0].pc);
    HeldIsKnown(s, s.senders[k].pc.out[0]);
  }

  lemma HeldFirst(pc: Pc)
    requires pc.Busy? && pc.out != []
    ensures multiset(Held(pc))[pc.out[0]] > 0
  {
    assert Held(pc)[0] == pc.out[0];
    assert Held(pc)[0] in Held(pc);
  }

  /** The errors after which the socket cannot be used any more. */
  predicate SocketGone(err: WriteErr) {
    err in {Closed, NetDown, NotSock, Shutdown, BadDescriptor}
  }

  /**
    After a write the sender is done with the batch if all went out; it notes the error and gives the rest up
    if the socket is gone; and else it tries the rest again, three times in all.
  */
  lemma WriteAnswers(s: State, k: nat, n: nat, err: Option<WriteErr>, delta: seq<Message>, torn: nat)
    requires Inv(s) && Enabled(s, Write(k, n, err, delta, torn))
    ensures var t := WriteStep(s, k, n, err, delta);
            t == Next(s, Write(k, n, err, delta, torn)) && t.senders[k].pc.Busy?
            && Answered(s.senders[k].pc.job, n, err, t.senders[k].pc.job, t.settled, s.settled + Delivered(delta))
  {
    hide OwnInv, MemInv, OrderInv, SleepInv, Lose, Delivered, WindowsWriter.Wrote, Loaded, Load, AfterWrite, Answered;
    OneSender(s, k);
    assert JobOK(s.senders[k].pc.job);
    JobAnswered(s.senders[k].pc.job, n, err, s.settled + Delivered(delta));
  }

  ghost predicate Answered(was: Job, n: nat, err: Option<WriteErr>, job: Job, settled: seq<Fate>, sent: seq<Fate>)
    requires was.ToWrite? && n <= |was.rest|
  {
    if err.None? then n == |was.rest| && job == Done && settled == sent
    else if SocketGone(err.value) then job == ToNote(was.rest[n..], err.value) && settled == sent
    else if was.attempt < 2 then job == ToWrite(was.rest[n..], was.attempt + 1, was.failures + 1) && settled == sent
    else job == Done && settled == sent + Lose(|was.rest| - n, Retries(3))
  }

  lemma JobAnswered(was: Job, n: nat, err: Option<WriteErr>, sent: seq<Fate>)
    requires was.ToWrite? && JobOK(was) && n <= |was.rest| && (err.None? <==> n == |was.rest|)
    ensures var r := AfterWrite(was, n, err); r.0.Busy? && Answered(was, n, err, r.0.job, sent + r.1, sent)
  {
    hide Lose, Bufs;
    assert sent + [] == sent;
  }

  /** A noted error refuses all that follows, and the rest of the batch is given up; the first one noted stays. */
  lemma NoteAnswers(s: State, k: nat)
    requires Inv(s) && NoteGuard(s, k)
    ensures var t, was := NoteStep(s, k), s.senders[k].pc.job;
            t == Next(s, NoteIt(k)) && t.conn.fatal == (if s.conn.fatal.Some? then s.conn.fatal else Some(was.err))
            && t.settled == s.settled + Lose(|was.rest|, FatalWrite) && t.senders[k].pc == Busy(Bufs(was.rest), Done)
  {
    hide OwnInv, MemInv, OrderInv, SleepInv, Lose, Bufs;
  }

  /** Close marks the connection, then waits for the sender: asleep while it lives, and back as soon as it does not. */
  lemma CloseAnswers(s: State, j: nat)
    requires j < |s.closers|
    ensures var t := Next(s, BeginClose);
            t.conn.closed && (s.conn.closed || t.conn.kick) && |t.closers| == |s.closers| + 1
            && t.closers[|s.closers|] == ClosingSocket && t.conn.queue == s.conn.queue
    ensures s.closers[j].ClosingSocket? ==>
              Enabled(s, SocketClosed(j)) && Next(s, SocketClosed(j)).closers == s.closers[j := AwaitingSender(false)]
    ensures s.closers[j] == AwaitingSender(false) ==>
              Enabled(s, FinishClose(j))
              && (if s.conn.sender then Next(s, FinishClose(j)) == s.(closers := s.closers[j := AwaitingSender(true)])
                  else Next(s, FinishClose(j)).closeReturned && |Next(s, FinishClose(j)).closers| == |s.closers| - 1)
  {
  }

  // ---- Everything accepted can be delivered ----

  /** Nothing fatal has happened, noted or not. */
  predicate Healthy(s: State) {
    s.conn.fatal.None? && (|s.senders| == 1 ==> !(s.senders[0].pc.Busy? && s.senders[0].pc.job.ToNote?))
  }

  /** What is on the wire, and what would follow if all open datagrams went out. */
  ghost function Hoped(s: State): seq<Message>
    requires Loaded(s.mem, Line(s.senders, s.conn.queue))
  {
    s.wire + Load(s.mem, Line(s.senders, s.conn.queue))
  }

  /** The sender's next step, with every write a success. */
  function GoodStep(s: State): Event
    requires |s.senders| == 1 && Loaded(s.mem, Line(s.senders, s.conn.queue))
  {
    match s.senders[0].pc
    case AtSelect => TimerFires(0)
    case TryExit => ExitIfIdle(0)
    case AtPop => Take(0)
    case AtReset => Reset(0)
    case Busy(out, job) =>
      if out != [] then ReleaseOne(0)
      else match job
        case Done => BatchDone(0)
        case ToNote(_, _) => NoteIt(0)
        case ToWrite(rest, _, _) =>
          assert Line(s.senders, s.conn.queue)[..|rest|] == rest;
          Write(0, |rest|, None, Load(s.mem, rest), 0)
  }

  /** That step is possible, and takes nothing from what can be delivered. */
  ghost predicate Good(s: State)
    requires |s.senders| == 1 && Loaded(s.mem, Line(s.senders, s.conn.queue))
  {
    var e := GoodStep(s);
    Enabled(s, e) && IsSenderStep(e) && !IdleTake(s, e)
    && var t := Next(s, e);
    Healthy(t) && t.accepted == s.accepted
    && Loaded(t.mem, Line(t.senders, t.conn.queue)) && Hoped(t) == Hoped(s)
  }

  /** The line stays as it is, and so does what can be delivered. */
  lemma SameLine(s: State, t: State)
    requires |s.senders| == 1 && Loaded(s.mem, Line(s.senders, s.conn.queue)) && Enabled(s, GoodStep(s))
    requires t == Next(s, GoodStep(s)) && Healthy(t) && t.accepted == s.accepted && t.mem == s.mem && t.wire == s.wire
    requires Line(t.senders, t.conn.queue) == Line(s.senders, s.conn.queue)
    requires IsSenderStep(GoodStep(s)) && !IdleTake(s, GoodStep(s))
    ensures Good(s)
  {
    hide Loaded, Load, Line, Healthy;
  }

  lemma GoodMove(s: State)
    requires OneSendLoop(s.conn, s.senders) && |s.senders| == 1 && Loaded(s.mem, Line(s.senders, s.conn.queue)) && Healthy(s)
    requires s.senders[0].pc == AtSelect || s.senders[0].pc == AtReset || s.senders[0].pc == Busy([], Done)
    ensures Good(s)
  {
    assert PcOK(s.senders[0]);
    hide Loaded, Load;
    SameLine(s, Next(s, GoodStep(s)));
  }

  lemma GoodRelease(s: State)
    requires |s.senders| == 1 && Loaded(s.mem, Line(s.senders, s.conn.queue)) && Healthy(s) && ReleaseGuard(s, 0)
    ensures Good(s)
  {
    hide Loaded, Load;
    SameLine(s, Next(s, GoodStep(s)));
  }

  lemma GoodExit(s: State)
    requires OneSendLoop(s.conn, s.senders) && |s.senders| == 1 && Loaded(s.mem, Line(s.senders, s.conn.queue)) && Healthy(s)
    requires s.senders[0].pc == TryExit && s.conn.queue != []
    ensures Good(s)
  {
    hide Loaded, Load;
    SameLine(s, Next(s, GoodStep(s)));
  }

  lemma GoodTake(s: State)
    requires OneSendLoop(s.conn, s.senders) && |s.senders| == 1 && Loaded(s.mem, Line(s.senders, s.conn.queue)) && Healthy(s)
    requires s.senders[0].pc == AtPop && s.conn.queue != []
    ensures Good(s)
  {
    OneSender(s, 0);
    hide Loaded, Load, OneSendLoop;
    var t := TakeStep(s, 0);
    assert Line(t.senders, t.conn.queue) == s.conn.queue;
    SameLine(s, Next(s, GoodStep(s)));
  }

  lemma WritePrefix(s: State)
    requires Loaded(s.mem, Line(s.senders, s.conn.queue)) && WriteReady(s, 0) && |s.senders| == 1
    ensures var rest := s.senders[0].pc.job.rest;
            Loaded(s.mem, rest) && Loaded(s.mem, s.conn.queue)
            && Load(s.mem, Line(s.senders, s.conn.queue)) == Load(s.mem, rest) + Load(s.mem, s.conn.queue)
            && WindowsWriter.Wrote(Load(s.mem, rest), |rest|, Load(s.mem, rest), 0)
  {
    hide Loaded, Load, WindowsWriter.Wrote;
    var rest := s.senders[0].pc.job.rest;
    LoadSplit(s.mem, rest, s.conn.queue);
    WroteAll(Load(s.mem, rest));
  }

  lemma LoadSplit(mem: Memory, a: seq<Slot>, b: seq<Slot>)
    requires Loaded(mem, a + b)
    ensures Loaded(mem, a) && Loaded(mem, b) && Load(mem, a + b) == Load(mem, a) + Load(mem, b)
  {
    assert forall i :: 0 <= i < |a| ==> (a + b)[i] == a[i];
    assert forall i :: 0 <= i < |b| ==> (a + b)[|a| + i] == b[i];
  }

  lemma WroteAll(msgs: seq<Message>)
    ensures WindowsWriter.Wrote(msgs, |msgs|, msgs, 0)
  {
    assert msgs[..|msgs|] == msgs;
    WindowsWriter.WroteWhole(msgs, |msgs|);
  }

  /** After a successful write of all, only the queue is left. */
  lemma WholeWrite(s: State)
    requires |s.senders| == 1 && Healthy(s) && WriteReady(s, 0) && Loaded(s.mem, s.senders[0].pc.job.rest)
    ensures var rest := s.senders[0].pc.job.rest;
            var t := WriteStep(s, 0, |rest|, None, Load(s.mem, rest));
            Healthy(t) && t.mem == s.mem && t.accepted == s.accepted && t.wire == s.wire + Load(s.mem, rest)
            && Line(t.senders, t.conn.queue) == s.conn.queue
  {
    hide Load, Loaded;
    var rest := s.senders[0].pc.job.rest;
    var t := WriteStep(s, 0, |rest|, None, Load(s.mem, rest));
    assert [] + s.conn.queue == s.conn.queue;
    assert Rest(t.senders[0].pc) == [];
  }

  lemma GoodWrite(s: State)
    requires |s.senders| == 1 && Loaded(s.mem, Line(s.senders, s.conn.queue)) && Healthy(s) && WriteReady(s, 0)
    ensures Good(s)
  {
    hide Loaded, Load, WindowsWriter.Wrote, WriteStep, Line, Healthy;
    WritePrefix(s);
    WholeWrite(s);
    var rest := s.senders[0].pc.job.rest;
    SentFirst(s.wire, Load(s.mem, rest), Load(s.mem, s.conn.queue));
  }

  lemma SentFirst(wire: seq<Message>, sent: seq<Message>, queued: seq<Message>)
    ensures wire + (sent + queued) == (wire + sent) + queued
  {
  }

  lemma GoodStepWorks(s: State)
    requires Inv(s) && Healthy(s) && Line(s.senders, s.conn.queue) != []
    ensures |s.senders| == 1 && Loaded(s.mem, Line(s.senders, s.conn.queue)) && Good(s)
  {
    hide OwnInv, MemInv, SleepInv, Good, GoodStep, Loaded, Load;
    OpenOnes(s);
    hide OrderInv;
    var pc := s.senders[0].pc;
    match pc
    case TryExit => GoodExit(s);
    case AtPop => GoodTake(s);
    case Busy(out, job) =>
      if out != [] {
        GoodRelease(s);
      } else if job.Done? {
        GoodMove(s);
      } else {
        GoodWrite(s);
      }
    case _ => GoodMove(s);
  }

  /**
    From any state without a fatal error the sender can put every open datagram on the wire by its own steps
    alone, whole and in order: all it takes is that its writes succeed.
  */
  lemma {:induction false} CanDeliver(s: State) returns (es: seq<Event>, t: State)
    requires Inv(s) && Healthy(s)
    ensures ExecFrom(s, es) == Some(t) && SenderSteps(es) == |es| && t.accepted == s.accepted
    ensures |s.settled| <= |s.accepted| && t.wire == s.wire + s.accepted[|s.settled|..] && |t.settled| == |t.accepted|
    decreases Work(s)
  {
    hide Inv, Enabled, Next, Work, IsSenderStep, Healthy, Line;
    OpenOnes(s);
    if Line(s.senders, s.conn.queue) == [] {
      es, t := [], s;
      return;
    }
    var e, next := Advance(s);
    var more;
    more, t := CanDeliver(next);
    es := [e] + more;
  }

  /** One good step: it uses up work and keeps what can be delivered. */
  lemma Advance(s: State) returns (e: Event, t: State)
    requires Inv(s) && Healthy(s) && Line(s.senders, s.conn.queue) != []
    ensures Enabled(s, e) && t == Next(s, e) && IsSenderStep(e) && Inv(t) && Healthy(t) && Work(t) < Work(s)
    ensures t.accepted == s.accepted && |s.settled| <= |s.accepted| && |t.settled| <= |t.accepted|
    ensures t.wire + t.accepted[|t.settled|..] == s.wire + s.accepted[|s.settled|..]
  {
    hide Inv, Enabled, Next, Work, IsSenderStep, IdleTake, Healthy, Line, Loaded, Load, GoodStep, Hoped;
    OpenOnes(s);
    GoodStepWorks(s);
    e := GoodStep(s);
    t := Next(s, e);
    InvStep(s, e);
    SenderStepWorks(s, e);
    OpenOnes(t);
  }

  lemma OpenOnes(s: State)
    requires Inv(s)
    ensures Loaded(s.mem, Line(s.senders, s.conn.queue)) && |s.settled| <= |s.accepted|
    ensures Hoped(s) == s.wire + s.accepted[|s.settled|..]
    ensures Line(s.senders, s.conn.queue) == [] ==> |s.settled| == |s.accepted|
  {
    hide OwnInv, MemInv, SleepInv, OneSendLoop, CloseInv;
  }
}
