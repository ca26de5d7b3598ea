/**
  Every interleaving of one Serve goroutine, the readBack goroutines, the sweepers and any number of
  callers of SetQuicConn, ClearQuicConn and Close on one UDP listener. A step is one region under
  sessMu, one session's close or write, one goroutine start, or the passing of time.
*/
module UdpSessionMachine {
  import opened Base
  import opened UdpSessions

  /** Who is about to close sessions: Serve (its new one, or one it took out), a sweeper, or anybody else. */
  datatype Hand = New | Victim | Sweep(id: nat) | Closer(id: nat)

  type Hands = map<Hand, set<Sid>>

  datatype Serve =
    | Receiving
    | Opening(key: ClientKey)
    | Registering(key: ClientKey, sid: Sid)
    | Discarding(key: ClientKey, existing: Sid)      // somebody else registered the key first
    | Evicting(key: ClientKey, sid: Sid)
    | Spawning(key: ClientKey, sid: Sid, startSweeper: bool)
    | Writing(key: ClientKey, sid: Sid)
    | Dropping(key: ClientKey)
    | Settling
    | Stopped

  datatype Reader = Reader(key: ClientKey, sid: Sid)

  datatype State = State(
    t: Table,
    sess: map<Sid, Session>,
    now: Seconds,
    serve: Serve,
    hands: Hands,
    sweepers: seq<nat>,
    readers: seq<Reader>,
    nextId: nat)

  const INIT := State(Table(map[], false), map[], 0, Receiving, map[], [], [], 0)

  datatype Event =
    | Receive(key: ClientKey)               // getSession
    | OpenFails
    | OpenOK(sid: Sid)                      // the stream is open and its head written
    | TryRegister(victim: ClientKey)        // the first region of newSession, with its eviction
    | Discarded
    | InsertNow                             // the second one
    | GoSweep
    | GoRead
    | WriteIt(ok: bool)
    | DropIt
    | Settled
    | Stop
    | CloseOne(h: Hand, sid: Sid)
    | ReaderEnds(i: nat)
    | SweepAt(i: nat)
    | CloseAll
    | Clock(d: nat)

  function Of(hands: Hands, h: Hand): set<Sid> {
    if h in hands then hands[h] else {}
  }

  /** Serve may go on closing only what it took out, or its own session when it lost the race. */
  predicate MayClose(serve: Serve, h: Hand) {
    h != New || serve.Discarding?
  }

  ghost predicate Enabled(s: State, e: Event) {
    match e
    case Receive(_) => s.serve.Receiving?
    case OpenFails => s.serve.Opening?
    case OpenOK(sid) => s.serve.Opening? && sid !in s.sess
    case TryRegister(victim) =>
      s.serve.Registering? && Known(s.t, s.sess)
      && (Register(s.t, s.serve.key, s.serve.sid).Full? ==> Oldest(s.t, s.sess, victim))
    case Discarded => s.serve.Discarding? && Of(s.hands, New) == {}
    case InsertNow => s.serve.Evicting? && Of(s.hands, Victim) == {}
    case GoSweep => s.serve.Spawning? && s.serve.startSweeper
    case GoRead => s.serve.Spawning? && !s.serve.startSweeper
    case WriteIt(_) => s.serve.Writing? && s.serve.sid in s.sess
    case DropIt => s.serve.Dropping?
    case Settled => s.serve.Settling? && Of(s.hands, Victim) == {}
    case Stop => s.serve.Receiving?
    case CloseOne(h, sid) => sid in Of(s.hands, h) && sid in s.sess && MayClose(s.serve, h)
    case ReaderEnds(i) => i < |s.readers|
    case SweepAt(i) => i < |s.sweepers| && Of(s.hands, Sweep(s.sweepers[i])) == {} && Known(s.t, s.sess)
    case CloseAll => true
    case Clock(_) => true
  }

  function Received(s: State, key: ClientKey): State {
    s.(serve := if key in s.t.sessions then Writing(key, s.t.sessions[key]) else Opening(key))
  }

  function Opened(s: State, sid: Sid): State
    requires s.serve.Opening?
  {
    s.(sess := s.sess[sid := Session(s.now, s.now, false, 0)], hands := s.hands[New := {sid}],
       serve := Registering(s.serve.key, sid))
  }

  function Inserting(s: State, key: ClientKey, sid: Sid): State {
    var r := Insert(s.t, key, sid);
    s.(t := r.0, hands := s.hands[New := {}], serve := Spawning(key, sid, r.1))
  }

  function Registered(s: State, victim: ClientKey): State
    requires s.serve.Registering?
  {
    var key, sid := s.serve.key, s.serve.sid;
    match Register(s.t, key, sid)
    case Existing(x) => s.(serve := Discarding(key, x))
    case Full => TakenOut(s, victim, Victim).(serve := Evicting(key, sid))
    case Inserted(_, _) => Inserting(s, key, sid)
  }

  /** dropSession and the eviction: one key leaves the table, its session goes to `h`. */
  function TakenOut(s: State, key: ClientKey, h: Hand): State {
    var r := DropKey(s.t, key);
    s.(t := r.0, hands := s.hands[h := r.1])
  }

  function Swept(s: State): State
    requires s.serve.Spawning?
  {
    s.(sweepers := s.sweepers + [s.nextId], nextId := s.nextId + 1, serve := s.serve.(startSweeper := false))
  }

  function Reading(s: State): State
    requires s.serve.Spawning?
  {
    s.(readers := s.readers + [Reader(s.serve.key, s.serve.sid)], serve := Writing(s.serve.key, s.serve.sid))
  }

  function Written(s: State, ok: bool): State
    requires s.serve.Writing? && s.serve.sid in s.sess
  {
    var x := s.sess[s.serve.sid];
    s.(sess := s.sess[s.serve.sid := Touch(x, s.now)],
       serve := if ok && !x.closed then Receiving else Dropping(s.serve.key))
  }

  function ClosedOne(s: State, h: Hand, sid: Sid): State
    requires sid in s.sess
  {
    s.(sess := s.sess[sid := CloseSession(s.sess[sid])], hands := s.hands[h := Of(s.hands, h) - {sid}])
  }

  function ReaderEnded(s: State, i: nat): State
    requires i < |s.readers|
  {
    TakenOut(s, s.readers[i].key, Closer(s.nextId)).(readers := Remove(s.readers, i), nextId := s.nextId + 1)
  }

  ghost function Ticked(s: State, i: nat): State
    requires i < |s.sweepers| && Known(s.t, s.sess)
  {
    var r := Tick(s.t, s.sess, s.now);
    if r.2 then s.(t := r.0, sweepers := Remove(s.sweepers, i))
    else s.(t := r.0, hands := s.hands[Sweep(s.sweepers[i]) := r.1])
  }

  function AllTaken(s: State): State {
    var r := TakeAll(s.t);
    s.(t := r.0, hands := s.hands[Closer(s.nextId) := r.1], nextId := s.nextId + 1)
  }

  ghost function Next(s: State, e: Event): State
    requires Enabled(s, e)
  {
    match e
    case Receive(key) => Received(s, key)
    case OpenFails => s.(serve := Receiving)
    case OpenOK(sid) => Opened(s, sid)
    case TryRegister(victim) => Registered(s, victim)
    case Discarded => s.(serve := Writing(s.serve.key, s.serve.existing))
    case InsertNow => Inserting(s, s.serve.key, s.serve.sid)
    case GoSweep => Swept(s)
    case GoRead => Reading(s)
    case WriteIt(ok) => Written(s, ok)
    case DropIt => TakenOut(s, s.serve.key, Victim).(serve := Settling)
    case Settled => s.(serve := Receiving)
    case Stop => s.(serve := Stopped)
    case CloseOne(h, sid) => ClosedOne(s, h, sid)
    case ReaderEnds(i) => ReaderEnded(s, i)
    case SweepAt(i) => Ticked(s, i)
    case CloseAll => AllTaken(s)
    case Clock(d) => s.(now := s.now + d)
  }

  ghost function Exec(run: seq<Event>): Option<State> {
    if run == [] then Some(INIT)
    else
      var s := Exec(run[..|run| - 1]);
      if s.Some? && Enabled(s.value, run[|run| - 1]) then Some(Next(s.value, run[|run| - 1])) else None
  }

  // ---- What every reachable state satisfies, part by part ----

  ghost predicate HeldIn(hands: Hands, sid: Sid) {
    exists h :: h in hands && sid in hands[h]
  }

  /** The open sessions are those in the table or in somebody's hand, never in two places. */
  ghost predicate Owned(sessions: map<ClientKey, Sid>, hands: Hands, sess: map<Sid, Session>) {
    && Unshared(sessions)
    && (forall h :: h in hands ==> hands[h] !! sessions.Values)
    && (forall g, h :: g in hands && h in hands && g != h ==> hands[g] !! hands[h])
    && (forall sid :: sid in sess && !sess[sid].closed <==> sid in sessions.Values || HeldIn(hands, sid))
    && (forall sid :: sid in sess ==> sess[sid].streamCloses == if sess[sid].closed then 1 else 0)
  }

  ghost predicate ServeInv(t: Table, hands: Hands, sess: map<Sid, Session>, serve: Serve) {
    && (serve.Discarding? ==> false)
    && (serve.Opening? || serve.Registering? || serve.Evicting? ==> serve.key !in t.sessions)
    && (serve.Evicting? ==> |t.sessions| < MAX_SESSIONS)
    && (serve.Writing? || serve.Spawning? ==> serve.sid in sess)
    && Of(hands, New) == (if serve.Registering? || serve.Evicting? then {serve.sid} else {})
    && (serve.Evicting? || serve.Settling? || Of(hands, Victim) == {})
  }

  /** One sweeper runs or is about to exactly while the flag is up, and it is up while there are sessions. */
  ghost predicate OneSweeper(t: Table, serve: Serve, sweepers: seq<nat>) {
    && |sweepers| + (if serve.Spawning? && serve.startSweeper then 1 else 0) == (if t.sweeping then 1 else 0)
    && (t.sessions != map[] ==> t.sweeping)
  }

  /** Hands of ended goroutines are empty, and hands to come are unused. */
  ghost predicate HandsInv(hands: Hands, sweepers: seq<nat>, nextId: nat) {
    && (forall n :: n in sweepers ==> n < nextId)
    && (forall h :: h in hands && h.Closer? ==> h.id < nextId)
    && (forall h :: h in hands && h.Sweep? ==> h.id < nextId && (h.id in sweepers || hands[h] == {}))
  }

  /** Every session in the table has its own readBack, running or about to. */
  ghost predicate ReadBack(sessions: map<ClientKey, Sid>, serve: Serve, readers: seq<Reader>) {
    forall k :: k in sessions ==>
      Reader(k, sessions[k]) in readers || (serve.Spawning? && serve.key == k && serve.sid == sessions[k])
  }

  ghost predicate Inv(s: State) {
    && |s.t.sessions| <= MAX_SESSIONS
    && Owned(s.t.sessions, s.hands, s.sess)
    && ServeInv(s.t, s.hands, s.sess, s.serve)
    && OneSweeper(s.t, s.serve, s.sweepers)
    && HandsInv(s.hands, s.sweepers, s.nextId)
    && ReadBack(s.t.sessions, s.serve, s.readers)
  }

  // ---- How ownership moves ----

  lemma OwnedMove(sessions: map<ClientKey, Sid>, sessions': map<ClientKey, Sid>, taken: set<Sid>, h: Hand,
                  hands: Hands, sess: map<Sid, Session>)
    requires Owned(sessions, hands, sess) && Of(hands, h) == {} && Unshared(sessions')
    requires taken <= sessions.Values && sessions'.Values == sessions.Values - taken
    ensures Owned(sessions', hands[h := taken], sess)
  {
    var hands' := hands[h := taken];
    forall sid ensures HeldIn(hands', sid) <==> HeldIn(hands, sid) || sid in taken {
      if sid in taken {
        assert sid in hands'[h];
      }
      if HeldIn(hands, sid) {
        var g :| g in hands && sid in hands[g];
        assert sid in hands'[g];
      }
    }
  }

  lemma OwnedInsert(sessions: map<ClientKey, Sid>, key: ClientKey, sid: Sid, hands: Hands, sess: map<Sid, Session>)
    requires Owned(sessions, hands, sess) && Of(hands, New) == {sid} && key !in sessions
    ensures Owned(sessions[key := sid], hands[New := {}], sess)
  {
    var hands' := hands[New := {}];
    assert sid in hands[New];
    InsertOne(sessions, key, sid);
    forall x ensures HeldIn(hands', x) <==> HeldIn(hands, x) && x != sid {
      if HeldIn(hands, x) && x != sid {
        var g :| g in hands && x in hands[g];
        assert x in hands'[g];
      }
    }
    assert HeldIn(hands, sid);
  }

  lemma OwnedOpen(sessions: map<ClientKey, Sid>, sid: Sid, hands: Hands, sess: map<Sid, Session>, now: Seconds)
    requires Owned(sessions, hands, sess) && Of(hands, New) == {} && sid !in sess
    ensures Owned(sessions, hands[New := {sid}], sess[sid := Session(now, now, false, 0)])
  {
    var hands' := hands[New := {sid}];
    forall x ensures HeldIn(hands', x) <==> HeldIn(hands, x) || x == sid {
      if x == sid {
        assert x in hands'[New];
      } else if HeldIn(hands, x) {
        var g :| g in hands && x in hands[g];
        assert x in hands'[g];
      }
    }
    assert !HeldIn(hands, sid) && sid !in sessions.Values;
    forall h | h in hands' ensures hands'[h] !! sessions.Values {
    }
    forall g, h | g in hands' && h in hands' && g != h ensures hands'[g] !! hands'[h] {
      assert g != New ==> sid !in hands'[g];
      assert h != New ==> sid !in hands'[h];
    }
  }

  lemma OwnedClose(sessions: map<ClientKey, Sid>, sid: Sid, h: Hand, hands: Hands, sess: map<Sid, Session>)
    requires Owned(sessions, hands, sess) && sid in Of(hands, h) && sid in sess
    ensures Owned(sessions, hands[h := Of(hands, h) - {sid}], sess[sid := CloseSession(sess[sid])])
    ensures !sess[sid].closed
  {
    var hands' := hands[h := Of(hands, h) - {sid}];
    assert HeldIn(hands, sid);
    forall x ensures HeldIn(hands', x) <==> HeldIn(hands, x) && x != sid {
      if HeldIn(hands', x) {
        var g :| g in hands' && x in hands'[g];
        assert x in hands[g];
      }
      if HeldIn(hands, x) && x != sid {
        var g :| g in hands && x in hands[g];
        assert x in hands'[g];
      }
    }
  }

  lemma OwnedTouch(sessions: map<ClientKey, Sid>, sid: Sid, hands: Hands, sess: map<Sid, Session>, now: Seconds)
    requires Owned(sessions, hands, sess) && sid in sess
    ensures Owned(sessions, hands, sess[sid := Touch(sess[sid], now)])
  {
  }

  lemma OwnedKnown(t: Table, hands: Hands, sess: map<Sid, Session>)
    requires Owned(t.sessions, hands, sess)
    ensures Known(t, sess)
  {
    assert forall k :: k in t.sessions ==> t.sessions[k] in t.sessions.Values;
  }

  lemma OwnedTakeOut(t: Table, key: ClientKey, h: Hand, hands: Hands, sess: map<Sid, Session>)
    requires Owned(t.sessions, hands, sess) && Of(hands, h) == {}
    ensures var r := DropKey(t, key);
            Owned(r.0.sessions, hands[h := r.1], sess)
            && |r.0.sessions| == |t.sessions| - (if key in t.sessions then 1 else 0)
            && (forall k :: k in r.0.sessions ==> k in t.sessions && r.0.sessions[k] == t.sessions[k])
  {
    var r := DropKey(t, key);
    if key in t.sessions {
      RemoveOne(t.sessions, key);
    } else {
      assert r.0.sessions == t.sessions;
    }
    OwnedMove(t.sessions, r.0.sessions, r.1, h, hands, sess);
  }

  lemma InsertSize(m: map<ClientKey, Sid>, key: ClientKey, sid: Sid)
    requires key !in m
    ensures |m[key := sid]| == |m| + 1
  {
    assert m[key := sid].Keys == m.Keys + {key};
  }

  // ---- Every step keeps the invariant ----

  lemma ServeOnlySteps(s: State, e: Event)
    requires Inv(s) && Enabled(s, e)
    requires e.Receive? || e.OpenFails? || e.Discarded? || e.Settled? || e.Stop? || e.Clock?
    ensures Inv(Next(s, e))
  {
    ReceiveOK(s.t, s.hands, s.sess);
    hide Owned, HandsInv;
  }

  lemma ReceiveOK(t: Table, hands: Hands, sess: map<Sid, Session>)
    requires Owned(t.sessions, hands, sess)
    ensures forall k :: k in t.sessions ==> t.sessions[k] in sess
  {
    OwnedKnown(t, hands, sess);
  }

  lemma OpenStep(s: State, sid: Sid)
    requires Inv(s) && Enabled(s, OpenOK(sid))
    ensures Inv(Opened(s, sid))
  {
    hide Owned;
    OwnedOpen(s.t.sessions, sid, s.hands, s.sess, s.now);
  }

  lemma InsertStep(s: State, key: ClientKey, sid: Sid)
    requires Inv(s) && (s.serve.Registering? || s.serve.Evicting?) && s.serve.key == key && s.serve.sid == sid
    requires |s.t.sessions| < MAX_SESSIONS && Of(s.hands, Victim) == {}
    ensures Inv(Inserting(s, key, sid))
  {
    OwnedInsert(s.t.sessions, key, sid, s.hands, s.sess);
    InsertSize(s.t.sessions, key, sid);
    assert sid in s.hands[New] && HeldIn(s.hands, sid);
    hide Owned;
  }

  lemma ReadBackShrinks(before: map<ClientKey, Sid>, after: map<ClientKey, Sid>, serve: Serve, serve': Serve, readers: seq<Reader>)
    requires ReadBack(before, serve, readers) && (serve.Spawning? ==> serve' == serve)
    requires forall k :: k in after ==> k in before && after[k] == before[k]
    ensures ReadBack(after, serve', readers)
  {
  }

  lemma ReaderGone(sessions: map<ClientKey, Sid>, key: ClientKey, serve: Serve, readers: seq<Reader>, i: nat)
    requires ReadBack(sessions, serve, readers) && i < |readers| && readers[i].key == key
    ensures ReadBack(sessions - {key}, serve, Remove(readers, i))
  {
    forall r | r in readers && r.key != key ensures r in Remove(readers, i) {
      var j :| 0 <= j < |readers| && readers[j] == r;
      assert Remove(readers, i)[if j < i then j else j - 1] == r;
    }
  }

  /** A hand is filled: one that lives, or a new one. */
  lemma HandFilled(hands: Hands, h: Hand, held: set<Sid>, sweepers: seq<nat>, nextId: nat, nextId': nat)
    requires HandsInv(hands, sweepers, nextId) && nextId <= nextId'
    requires h.Closer? ==> h.id < nextId'
    requires h.Sweep? ==> h.id in sweepers
    ensures HandsInv(hands[h := held], sweepers, nextId')
  {
  }

  /** Serve takes a session out of the table, for eviction or after a failed write. */
  lemma ServeTakesOut(s: State, key: ClientKey, serve': Serve)
    requires Inv(s) && !s.serve.Spawning? && Of(s.hands, Victim) == {}
    requires ServeInv(DropKey(s.t, key).0, s.hands[Victim := DropKey(s.t, key).1], s.sess, serve') && !serve'.Spawning?
    ensures Inv(TakenOut(s, key, Victim).(serve := serve'))
  {
    hide Owned, HandsInv, ReadBack, ServeInv;
    OwnedTakeOut(s.t, key, Victim, s.hands, s.sess);
    var r := DropKey(s.t, key);
    HandFilled(s.hands, Victim, r.1, s.sweepers, s.nextId, s.nextId);
    ReadBackShrinks(s.t.sessions, r.0.sessions, s.serve, serve', s.readers);
  }

  lemma EvictStep(s: State, victim: ClientKey)
    requires Inv(s) && s.serve.Registering? && victim in s.t.sessions
    ensures Inv(TakenOut(s, victim, Victim).(serve := Evicting(s.serve.key, s.serve.sid)))
  {
    hide Owned, HandsInv, ReadBack;
    OwnedTakeOut(s.t, victim, Victim, s.hands, s.sess);
    ServeTakesOut(s, victim, Evicting(s.serve.key, s.serve.sid));
  }

  lemma DropStep(s: State)
    requires Inv(s) && s.serve.Dropping?
    ensures Inv(Next(s, DropIt))
  {
    hide Owned, HandsInv, ReadBack;
    ServeTakesOut(s, s.serve.key, Settling);
  }

  lemma SpawnStep(s: State, e: Event)
    requires Inv(s) && Enabled(s, e) && (e.GoSweep? || e.GoRead?)
    ensures Inv(Next(s, e))
  {
    hide Owned;
    if e.GoRead? {
      assert forall r :: r in s.readers ==> r in Next(s, e).readers;
      assert Reader(s.serve.key, s.serve.sid) in Next(s, e).readers;
    }
  }

  lemma WriteStep(s: State, ok: bool)
    requires Inv(s) && Enabled(s, WriteIt(ok))
    ensures Inv(Next(s, WriteIt(ok)))
  {
    OwnedTouch(s.t.sessions, s.serve.sid, s.hands, s.sess, s.now);
    hide Owned;
  }

  lemma CloseStep(s: State, h: Hand, sid: Sid)
    requires Inv(s) && Enabled(s, CloseOne(h, sid))
    ensures Inv(Next(s, CloseOne(h, sid)))
  {
    hide Owned, ReadBack;
    OwnedClose(s.t.sessions, sid, h, s.hands, s.sess);
  }

  /** Somebody other than Serve takes sessions out of the table into hand `h`. */
  lemma OutStep(s: State, t': Table, h: Hand, taken: set<Sid>, readers': seq<Reader>, nextId': nat)
    requires Inv(s) && h != New && h != Victim && s.nextId <= nextId'
    requires |t'.sessions| <= |s.t.sessions| && t'.sweeping == s.t.sweeping
    requires forall k :: k in t'.sessions ==> k in s.t.sessions
    requires Owned(t'.sessions, s.hands[h := taken], s.sess) && ReadBack(t'.sessions, s.serve, readers')
    requires (h.Closer? ==> h.id < nextId') && (h.Sweep? ==> h.id in s.sweepers)
    ensures Inv(s.(t := t', hands := s.hands[h := taken], readers := readers', nextId := nextId'))
  {
    hide Owned, HandsInv, ReadBack, ServeInv, OneSweeper;
    HandFilled(s.hands, h, taken, s.sweepers, s.nextId, nextId');
    Smaller(s.t, t', s.serve, s.hands, h, taken, s.sess, s.sweepers);
  }

  lemma ReaderParts(s: State, i: nat)
    requires Inv(s) && i < |s.readers|
    ensures var r, h := DropKey(s.t, s.readers[i].key), Closer(s.nextId);
            Owned(r.0.sessions, s.hands[h := r.1], s.sess)
            && ReadBack(r.0.sessions, s.serve, Remove(s.readers, i))
            && |r.0.sessions| <= |s.t.sessions| && r.0.sweeping == s.t.sweeping
            && (forall k :: k in r.0.sessions ==> k in s.t.sessions)
  {
    hide Owned, HandsInv, ReadBack, ServeInv, OneSweeper;
    NewHand(s.hands, s.sweepers, s.nextId);
    ReaderGone(s.t.sessions, s.readers[i].key, s.serve, s.readers, i);
    OwnedTakeOut(s.t, s.readers[i].key, Closer(s.nextId), s.hands, s.sess);
  }

  lemma ReaderStep(s: State, i: nat)
    requires Inv(s) && Enabled(s, ReaderEnds(i))
    ensures Inv(Next(s, ReaderEnds(i)))
  {
    hide Inv, Owned, ReadBack, DropKey;
    ReaderParts(s, i);
    var r := DropKey(s.t, s.readers[i].key);
    OutStep(s, r.0, Closer(s.nextId), r.1, Remove(s.readers, i), s.nextId + 1);
  }

  lemma NewHand(hands: Hands, sweepers: seq<nat>, nextId: nat)
    requires HandsInv(hands, sweepers, nextId)
    ensures Of(hands, Closer(nextId)) == {}
  {
  }

  /** Sessions taken out by anybody but Serve do not disturb Serve. */
  lemma Smaller(t: Table, t': Table, serve: Serve, hands: Hands, h: Hand, taken: set<Sid>, sess: map<Sid, Session>,
                sweepers: seq<nat>)
    requires ServeInv(t, hands, sess, serve) && OneSweeper(t, serve, sweepers) && h != New && h != Victim
    requires |t'.sessions| <= |t.sessions| && t'.sweeping == t.sweeping
    requires forall k :: k in t'.sessions ==> k in t.sessions
    ensures ServeInv(t', hands[h := taken], sess, serve) && OneSweeper(t', serve, sweepers)
  {
    assert t'.sessions != map[] ==> t.sessions != map[];
  }

  lemma SweepStep(s: State, i: nat)
    requires Inv(s) && Enabled(s, SweepAt(i))
    ensures Inv(Next(s, SweepAt(i)))
  {
    if s.t.sessions == map[] {
      SweeperEnds(s, i);
    } else {
      SweepOut(s, i);
    }
  }

  lemma TickOwned(t: Table, h: Hand, hands: Hands, sess: map<Sid, Session>, now: Seconds)
    requires Owned(t.sessions, hands, sess) && Of(hands, h) == {} && Known(t, sess) && t.sessions != map[]
    ensures var r := Tick(t, sess, now);
            Owned(r.0.sessions, hands[h := r.1], sess)
            && |r.0.sessions| <= |t.sessions| && r.0.sweeping == t.sweeping && !r.2
            && (forall k :: k in r.0.sessions ==> k in t.sessions && r.0.sessions[k] == t.sessions[k])
  {
    Distinct(t, hands, sess);
    TickTakesIdle(t, sess, now);
    hide Owned, Tick, Unshared;
    var r := Tick(t, sess, now);
    Taken(t.sessions.Values, r.1);
    OwnedMove(t.sessions, r.0.sessions, r.1, h, hands, sess);
  }

  lemma SweepOut(s: State, i: nat)
    requires Inv(s) && Enabled(s, SweepAt(i)) && s.t.sessions != map[]
    ensures Inv(Next(s, SweepAt(i)))
  {
    hide Owned, HandsInv, ReadBack, Tick, ServeInv, OneSweeper;
    var r, h := Tick(s.t, s.sess, s.now), Sweep(s.sweepers[i]);
    TickOwned(s.t, h, s.hands, s.sess, s.now);
    ReadBackShrinks(s.t.sessions, r.0.sessions, s.serve, s.serve, s.readers);
    OutStep(s, r.0, h, r.1, s.readers, s.nextId);
  }

  lemma Taken(all: set<Sid>, taken: set<Sid>)
    requires forall sid :: sid in taken ==> sid in all
    ensures taken <= all
  {
  }

  lemma Distinct(t: Table, hands: Hands, sess: map<Sid, Session>)
    requires Owned(t.sessions, hands, sess)
    ensures Unshared(t.sessions)
  {
  }

  lemma SweeperEnds(s: State, i: nat)
    requires Inv(s) && Enabled(s, SweepAt(i)) && s.t.sessions == map[]
    ensures Inv(Next(s, SweepAt(i)))
  {
    hide Owned;
    assert s.sweepers == [s.sweepers[i]];
  }

  lemma CloseAllStep(s: State)
    requires Inv(s)
    ensures Inv(Next(s, CloseAll))
  {
    hide Owned, HandsInv, ServeInv, OneSweeper;
    var h, r := Closer(s.nextId), TakeAll(s.t);
    NewHand(s.hands, s.sweepers, s.nextId);
    OwnedMove(s.t.sessions, map[], r.1, h, s.hands, s.sess);
    OutStep(s, r.0, h, r.1, s.readers, s.nextId + 1);
  }

  lemma InvStep(s: State, e: Event)
    requires Inv(s) && Enabled(s, e)
    ensures Inv(Next(s, e))
  {
    hide Inv, TakenOut, Inserting, Opened, ReaderEnded, ClosedOne, Ticked, AllTaken, Swept, Reading, Written;
    match e
    case OpenOK(sid) => OpenStep(s, sid);
    case TryRegister(victim) => RegisterStep(s, victim);
    case InsertNow => InsertNowStep(s);
    case GoSweep => SpawnStep(s, e);
    case GoRead => SpawnStep(s, e);
    case WriteIt(ok) => WriteStep(s, ok);
    case DropIt => DropStep(s);
    case CloseOne(h, sid) => CloseStep(s, h, sid);
    case ReaderEnds(i) => ReaderStep(s, i);
    case SweepAt(i) => SweepStep(s, i);
    case CloseAll => CloseAllStep(s);
    case _ => ServeOnlySteps(s, e);
  }

  lemma InsertNowStep(s: State)
    requires Inv(s) && Enabled(s, InsertNow)
    ensures Inv(Next(s, InsertNow))
  {
    InsertStep(s, s.serve.key, s.serve.sid);
  }

  lemma RegisterStep(s: State, victim: ClientKey)
    requires Inv(s) && Enabled(s, TryRegister(victim))
    ensures Inv(Registered(s, victim))
  {
    if |s.t.sessions| >= MAX_SESSIONS {
      EvictStep(s, victim);
    } else {
      InsertStep(s, s.serve.key, s.serve.sid);
    }
  }

  lemma {:induction false} EveryRun(run: seq<Event>)
    ensures Exec(run).Some? ==> Inv(Exec(run).value)
  {
    hide Inv, Enabled, Next;
    if run == [] {
      InvInit();
    } else {
      var last := |run| - 1;
      EveryRun(run[..last]);
      var s := Exec(run[..last]);
      if s.Some? && Enabled(s.value, run[last]) {
        InvStep(s.value, run[last]);
      }
    }
  }

  lemma InvInit()
    ensures Inv(INIT)
  {
  }

  // ---- Consequences ----

  ghost predicate Reached(run: seq<Event>, s: State) {
    Exec(run) == Some(s)
  }

  /**
    No leak: an open session is in the table under one key, or in one hand, and never both; a closed
    one is nowhere; and its stream was closed exactly once.
  */
  lemma OnePlace(run: seq<Event>, s: State, sid: Sid)
    requires Reached(run, s) && sid in s.sess
    ensures sid in s.t.sessions.Values || HeldIn(s.hands, sid) <==> !s.sess[sid].closed
    ensures !(sid in s.t.sessions.Values && HeldIn(s.hands, sid))
    ensures forall a, b :: a in s.t.sessions && b in s.t.sessions && s.t.sessions[a] == s.t.sessions[b] ==> a == b
    ensures forall g, h :: g in s.hands && h in s.hands && sid in s.hands[g] && sid in s.hands[h] ==> g == h
    ensures s.sess[sid].streamCloses == if s.sess[sid].closed then 1 else 0
  {
    EveryRun(run);
  }

  /** The table holds at most 1024 sessions, each open and with its own readBack. */
  lemma TableBounded(run: seq<Event>, s: State)
    requires Reached(run, s)
    ensures |s.t.sessions| <= MAX_SESSIONS
    ensures forall k :: k in s.t.sessions ==> s.t.sessions[k] in s.sess && !s.sess[s.t.sessions[k]].closed
    ensures ReadBack(s.t.sessions, s.serve, s.readers)
  {
    EveryRun(run);
    OwnedKnown(s.t, s.hands, s.sess);
    assert forall k :: k in s.t.sessions ==> s.t.sessions[k] in s.t.sessions.Values;
  }

  /** A table that is not empty has exactly one sweeper, running or about to start. */
  lemma SweeperAlive(run: seq<Event>, s: State)
    requires Reached(run, s)
    ensures |s.sweepers| <= 1
    ensures s.t.sessions != map[] ==>
              (|s.sweepers| == 1) != (s.serve.Spawning? && s.serve.startSweeper)
    ensures s.t.sweeping <==> s.sweepers != [] || (s.serve.Spawning? && s.serve.startSweeper)
  {
    EveryRun(run);
  }

  /** Serve is the only one to register, so it never finds its key taken and never overwrites a session. */
  lemma KeyFree(run: seq<Event>, s: State)
    requires Reached(run, s) && (s.serve.Registering? || s.serve.Evicting?)
    ensures s.serve.key !in s.t.sessions && !Register(s.t, s.serve.key, s.serve.sid).Existing?
    ensures s.serve.Evicting? ==> |s.t.sessions| < MAX_SESSIONS
  {
    EveryRun(run);
  }

  // ---- Which sessions a tick of the sweeper takes ----

  /** The step uses session `sid`: it opens it, or writes to it while it is open. */
  ghost predicate Uses(s: State, e: Event, sid: Sid) {
    e == OpenOK(sid) || (e.WriteIt? && s.serve.Writing? && s.serve.sid == sid && sid in s.sess && !s.sess[sid].closed)
  }

  /** When a run last used the session. */
  ghost function LastUse(run: seq<Event>, sid: Sid): Option<Seconds> {
    if run == [] then None
    else
      var before, e := run[..|run| - 1], run[|run| - 1];
      if Exec(before).Some? && Uses(Exec(before).value, e, sid) then Some(Exec(before).value.now)
      else LastUse(before, sid)
  }

  lemma UseStep(s: State, e: Event, sid: Sid)
    requires Enabled(s, e) && sid in Next(s, e).sess
    ensures Uses(s, e, sid) ==> Next(s, e).sess[sid].lastUsed == s.now
    ensures !Uses(s, e, sid) ==> sid in s.sess && Next(s, e).sess[sid].lastUsed == s.sess[sid].lastUsed
  {
  }

  /** The field lastUsed is the time of the last use, across all other steps. */
  lemma {:induction false} LastUseRecorded(run: seq<Event>, s: State, sid: Sid)
    requires Reached(run, s) && sid in s.sess
    ensures LastUse(run, sid) == Some(s.sess[sid].lastUsed)
  {
    hide Enabled, Next, Uses;
    if run != [] {
      var last := |run| - 1;
      var p := Exec(run[..last]).value;
      UseStep(p, run[last], sid);
      if !Uses(p, run[last], sid) {
        LastUseRecorded(run[..last], p, sid);
      }
    }
  }

  /**
    A tick leaves a session in the table exactly if the run opened it or wrote to it within the last minute;
    the others go into the sweeper's hand.
  */
  lemma SweepExact(run: seq<Event>, s: State, i: nat, key: ClientKey)
    requires Reached(run, s) && Enabled(s, SweepAt(i)) && key in s.t.sessions
    ensures var s', sid, used := Next(s, SweepAt(i)), s.t.sessions[key], LastUse(run, s.t.sessions[key]);
            used.Some?
            && (key in s'.t.sessions <==> s.now <= used.value + IDLE_TIMEOUT)
            && (key in s'.t.sessions ==> s'.t.sessions[key] == sid)
            && (sid in Of(s'.hands, Sweep(s.sweepers[i])) <==> s.now > used.value + IDLE_TIMEOUT)
  {
    var sid := s.t.sessions[key];
    assert sid in s.sess;
    LastUseRecorded(run, s, sid);
    TickOne(s.t, s.sess, s.now, key);
    hide Reached, LastUse, Tick;
  }

  lemma TickOne(t: Table, sess: map<Sid, Session>, now: Seconds, key: ClientKey)
    requires Known(t, sess) && key in t.sessions
    ensures var r, sid := Tick(t, sess, now), t.sessions[key];
            !r.2 && (key in r.0.sessions <==> now <= sess[sid].lastUsed + IDLE_TIMEOUT)
            && (key in r.0.sessions ==> r.0.sessions[key] == sid)
            && (sid in r.1 <==> now > sess[sid].lastUsed + IDLE_TIMEOUT)
  {
    assert t.sessions != map[];
  }

  lemma ClockStep(s: State, e: Event)
    requires Enabled(s, e)
    ensures s.now <= Next(s, e).now && s.sess.Keys <= Next(s, e).sess.Keys
  {
  }

  /** In every run after a use, the session's last use is no earlier than that. */
  lemma {:induction false} UsedSince(run: seq<Event>, s: State, more: seq<Event>, t: State, sid: Sid, when: Seconds)
    requires Reached(run, s) && Reached(run + more, t) && sid in s.sess && when <= s.sess[sid].lastUsed && when <= s.now
    ensures sid in t.sess && when <= t.sess[sid].lastUsed && when <= t.now
    decreases |more|
  {
    hide Enabled, Next, Uses;
    if more == [] {
      assert run + more == run;
    } else {
      var m := |more| - 1;
      assert (run + more)[..|run + more| - 1] == run + more[..m];
      var p := Exec(run + more[..m]).value;
      UsedSince(run, s, more[..m], p, sid, when);
      ClockStep(p, more[m]);
      UseStep(p, more[m], sid);
    }
  }

  /** After a write to an open session, no tick in any run of the next minute takes it. */
  lemma WriteKeepsAlive(run: seq<Event>, s: State, ok: bool, more: seq<Event>, t: State, i: nat)
    requires Reached(run, s) && Enabled(s, WriteIt(ok)) && !s.sess[s.serve.sid].closed
    requires Reached(run + [WriteIt(ok)] + more, t) && t.now <= s.now + IDLE_TIMEOUT && Enabled(t, SweepAt(i))
    ensures s.serve.sid !in Of(Next(t, SweepAt(i)).hands, Sweep(t.sweepers[i]))
    ensures s.serve.sid in t.t.sessions.Values ==> s.serve.sid in Next(t, SweepAt(i)).t.sessions.Values
  {
    var sid, after, run' := s.serve.sid, Next(s, WriteIt(ok)), run + [WriteIt(ok)];
    assert run'[..|run|] == run;
    UseStep(s, WriteIt(ok), sid);
    assert Reached(run', after);
    hide Next, Reached;
    UsedSince(run', after, more, t, sid, s.now);
    ReachedKnown(run' + more, t);
    NotTaken(t, i, sid);
  }

  lemma ReachedKnown(run: seq<Event>, s: State)
    requires Reached(run, s)
    ensures Known(s.t, s.sess) && Unshared(s.t.sessions)
  {
    EveryRun(run);
    OwnedKnown(s.t, s.hands, s.sess);
  }

  /** A session that is not idle is not taken by a tick. */
  lemma NotTaken(s: State, i: nat, sid: Sid)
    requires Known(s.t, s.sess) && Unshared(s.t.sessions) && Enabled(s, SweepAt(i)) && sid in s.sess
    requires s.now <= s.sess[sid].lastUsed + IDLE_TIMEOUT
    ensures sid !in Of(Next(s, SweepAt(i)).hands, Sweep(s.sweepers[i]))
    ensures sid in s.t.sessions.Values ==> sid in Next(s, SweepAt(i)).t.sessions.Values
  {
    TickTakesIdle(s.t, s.sess, s.now);
    hide Tick;
  }

  lemma {:induction false} OldestExists(t: Table, sess: map<Sid, Session>, keys: set<ClientKey>) returns (key: ClientKey)
    requires Known(t, sess) && keys <= t.sessions.Keys && keys != {}
    ensures key in keys
    ensures forall k :: k in keys ==> sess[t.sessions[key]].createdAt <= sess[t.sessions[k]].createdAt
    decreases |keys|
  {
    var k :| k in keys;
    var rest := keys - {k};
    if rest == {} {
      assert keys == {k};
      return k;
    }
    key := OldestExists(t, sess, rest);
    if sess[t.sessions[k]].createdAt < sess[t.sessions[key]].createdAt {
      key := k;
    }
  }

  /** Until it stops, Serve can always go on, or can close what it took out. */
  lemma ServeNeverStuck(run: seq<Event>, s: State) returns (e: Event)
    requires Reached(run, s) && !s.serve.Stopped?
    ensures Enabled(s, e) && !e.Clock? && !e.CloseAll? && !e.SweepAt? && !e.ReaderEnds?
    ensures e.CloseOne? ==> e.h == Victim && (s.serve.Evicting? || s.serve.Settling?)
    ensures e.Receive? || e.OpenOK? || e.Discarded? || e.Stop? ==> s.serve.Receiving?
    ensures e.WriteIt? ==> e.ok
  {
    EveryRun(run);
    OwnedKnown(s.t, s.hands, s.sess);
    if (s.serve.Evicting? || s.serve.Settling?) && Of(s.hands, Victim) != {} {
      var sid :| sid in Of(s.hands, Victim);
      assert HeldIn(s.hands, sid);
      return CloseOne(Victim, sid);
    }
    match s.serve
    case Receiving => e := Stop;
    case Opening(_) => e := OpenFails;
    case Registering(key, sid) =>
      var victim := key;
      if |s.t.sessions| >= MAX_SESSIONS {
        victim := OldestExists(s.t, s.sess, s.t.sessions.Keys);
      }
      e := TryRegister(victim);
    case Evicting(_, _) => e := InsertNow;
    case Spawning(_, _, start) => e := if start then GoSweep else GoRead;
    case Writing(_, _) => e := WriteIt(true);
    case Dropping(_) => e := DropIt;
    case Settling => e := Settled;
  }

  /** How far Serve is from its next datagram. */
  function Rank(s: State): nat {
    |Of(s.hands, Victim)| + match s.serve
      case Receiving => 0
      case Stopped => 0
      case Opening(_) => 1
      case Settling => 1
      case Dropping(_) => 3
      case Writing(_, _) => 4
      case Spawning(_, _, start) => if start then 6 else 5
      case Discarding(_, _) => 5
      case Evicting(_, _) => 7
      case Registering(_, _) => 9
  }

  lemma RankFalls(s: State, e: Event)
    requires Inv(s) && Enabled(s, e) && !s.serve.Receiving? && !s.serve.Stopped?
    requires e.OpenFails? || e.TryRegister? || e.InsertNow? || e.GoSweep? || e.GoRead? || e == WriteIt(true) || e.DropIt?
             || e.Settled? || (e.CloseOne? && e.h == Victim)
    ensures Rank(Next(s, e)) < Rank(s)
    ensures !Next(s, e).serve.Stopped?
  {
    hide Owned, HandsInv, ReadBack, OneSweeper, Known, Oldest, Unshared;
  }

  /** Until it stops, Serve always gets back to its next datagram, by its own steps alone. */
  lemma {:induction false} ServeReturns(run: seq<Event>, s: State) returns (run': seq<Event>, s': State)
    requires Reached(run, s) && !s.serve.Stopped?
    ensures Reached(run', s') && s'.serve.Receiving? && |run'| <= |run| + Rank(s)
    decreases Rank(s)
  {
    if s.serve.Receiving? {
      return run, s;
    }
    var e := ServeNeverStuck(run, s);
    EveryRun(run);
    RankFalls(s, e);
    hide *;
    run', s' := Snoc(run, s, e);
    run', s' := ServeReturns(run', s');
  }

  /** Whoever else holds a session can close it right away. */
  lemma HeldCanClose(run: seq<Event>, s: State, h: Hand, sid: Sid)
    requires Reached(run, s) && sid in Of(s.hands, h)
    ensures Enabled(s, CloseOne(h, sid)) || (h == New && (s.serve.Registering? || s.serve.Evicting?))
  {
    EveryRun(run);
    assert HeldIn(s.hands, sid);
  }

  /** Closing a held session closes it and its stream, and leaves it nowhere. */
  lemma CloseWorks(run: seq<Event>, s: State, h: Hand, sid: Sid)
    requires Reached(run, s) && Enabled(s, CloseOne(h, sid))
    ensures var t := Next(s, CloseOne(h, sid));
            sid in t.sess && t.sess[sid].closed && t.sess[sid].streamCloses == 1
            && sid !in t.t.sessions.Values && !HeldIn(t.hands, sid)
            && t.t == s.t && forall x :: x in s.sess && x != sid ==> x in t.sess && t.sess[x] == s.sess[x]
  {
    EveryRun(run);
    OwnedClose(s.t.sessions, sid, h, s.hands, s.sess);
    hide Inv;
  }

  lemma WriteTells(s: State, ok: bool)
    requires Inv(s) && Enabled(s, WriteIt(ok))
    ensures var a := Written(s, ok);
            a.t == s.t && a.hands == s.hands
            && if ok && !s.sess[s.serve.sid].closed then a.serve == Receiving && a.sess[s.serve.sid].lastUsed == s.now
               else a.serve == Dropping(s.serve.key)
  {
    hide Inv;
  }

  /** Serve has taken this key's session out of the table: it is next to close it, or is done. */
  ghost predicate DropsNext(s: State, key: ClientKey) {
    s.serve == Dropping(key) && Enabled(s, DropIt)
    && var t := TakenOut(s, key, Victim).(serve := Settling);
    t == Next(s, DropIt) && t.t.sessions == s.t.sessions - {key}
    && if key in s.t.sessions then Enabled(t, CloseOne(Victim, s.t.sessions[key])) else Enabled(t, Settled)
  }

  lemma DropTakes(s: State)
    requires s.serve.Dropping? && Known(s.t, s.sess)
    ensures DropsNext(s, s.serve.key)
  {
  }

  /**
    A write that fails, or finds the session closed, makes Serve take the client's session out and close it;
    one that succeeds leaves everything in place and marks the session as used.
  */
  lemma WriteAnswered(run: seq<Event>, s: State, ok: bool)
    requires Reached(run, s) && Enabled(s, WriteIt(ok))
    ensures var a := Next(s, WriteIt(ok));
            a.t == s.t && a.hands == s.hands
            && if ok && !s.sess[s.serve.sid].closed then a.serve == Receiving && a.sess[s.serve.sid].lastUsed == s.now
               else DropsNext(a, s.serve.key)
  {
    EveryRun(run);
    WriteTells(s, ok);
    var a := Written(s, ok);
    OwnedKnown(s.t, s.hands, s.sess);
    hide Inv, DropsNext;
    if a.serve.Dropping? {
      DropTakes(a);
    }
  }

  /** The table with one session in another's place. */
  function Swapped(sessions: map<ClientKey, Sid>, victim: ClientKey, key: ClientKey, sid: Sid): map<ClientKey, Sid> {
    (sessions - {victim})[key := sid]
  }

  /**
    A new client finds the table full: the session taken out is one that none is older than, it is closed, and
    then the new one is in its place.
  */
  lemma FullTableMakesRoom(run: seq<Event>, s: State, victim: ClientKey) returns (run': seq<Event>, s': State)
    requires Reached(run, s) && Enabled(s, TryRegister(victim)) && |s.t.sessions| >= MAX_SESSIONS
    ensures victim in s.t.sessions && forall k :: k in s.t.sessions ==> s.t.sessions[k] in s.sess
    ensures forall k :: k in s.t.sessions ==> s.sess[s.t.sessions[victim]].createdAt <= s.sess[s.t.sessions[k]].createdAt
    ensures run' == run + [TryRegister(victim), CloseOne(Victim, s.t.sessions[victim]), InsertNow] && Reached(run', s')
    ensures s'.t.sessions == Swapped(s.t.sessions, victim, s.serve.key, s.serve.sid)
    ensures s.t.sessions[victim] in s'.sess && s'.sess[s.t.sessions[victim]].closed
  {
    KeyFree(run, s);
    var vs := s.t.sessions[victim];
    run', s' := Snoc(run, s, TryRegister(victim));
    hide Reached, Oldest;
    CloseWorks(run', s', Victim, vs);
    run', s' := Snoc(run', s', CloseOne(Victim, vs));
    run', s' := Snoc(run', s', InsertNow);
  }

  /** A session that is used no more can be swept and closed: a minute passes, a tick comes, the sweeper closes it. */
  lemma IdleSessionsEnd(run: seq<Event>, s: State, key: ClientKey) returns (run': seq<Event>, s': State)
    requires Reached(run, s) && key in s.t.sessions && s.sweepers != [] && Of(s.hands, Sweep(s.sweepers[0])) == {}
    ensures Reached(run', s') && key !in s'.t.sessions
    ensures s.t.sessions[key] in s'.sess && s'.sess[s.t.sessions[key]].closed && s'.now == s.now + 61
  {
    var sid, h := s.t.sessions[key], Sweep(s.sweepers[0]);
    TableBounded(run, s);
    UsedBefore(run, s, sid);
    hide Reached, ReadBack;
    run', s' := Snoc(run, s, Clock(61));
    TickOne(s'.t, s'.sess, s'.now, key);
    hide Tick;
    run', s' := Snoc(run', s', SweepAt(0));
    CloseWorks(run', s', h, sid);
    run', s' := Snoc(run', s', CloseOne(h, sid));
  }

  /** No session was used in the future. */
  lemma {:induction false} UsedBefore(run: seq<Event>, s: State, sid: Sid)
    requires Reached(run, s) && sid in s.sess
    ensures s.sess[sid].lastUsed <= s.now
  {
    hide Enabled, Next, Uses;
    if run != [] {
      var last := |run| - 1;
      var p := Exec(run[..last]).value;
      UseStep(p, run[last], sid);
      ClockStep(p, run[last]);
      if !Uses(p, run[last], sid) {
        UsedBefore(run[..last], p, sid);
      }
    }
  }

  // ---- A readBack may take out a session that is not its own ----

  lemma Snoc(run: seq<Event>, s: State, e: Event) returns (run': seq<Event>, s': State)
    requires Reached(run, s) && Enabled(s, e)
    ensures run' == run + [e] && s' == Next(s, e) && Reached(run', s')
  {
    run', s' := run + [e], Next(s, e);
    assert run'[..|run|] == run;
  }

  /** A new client's first datagram, up to its session being in the table. */
  lemma FirstHalf(run: seq<Event>, s: State, key: ClientKey, sid: Sid) returns (run': seq<Event>, s': State)
    requires Reached(run, s) && s.serve.Receiving? && key !in s.t.sessions && sid !in s.sess
    requires |s.t.sessions| < MAX_SESSIONS
    ensures Reached(run', s') && s'.serve == Spawning(key, sid, !s.t.sweeping)
    ensures s'.t.sessions == s.t.sessions[key := sid] && s'.readers == s.readers
    ensures s'.sess == s.sess[sid := Session(s.now, s.now, false, 0)]
  {
    TableBounded(run, s);
    hide Reached, Unshared, Oldest, ReadBack;
    run', s' := Snoc(run, s, Receive(key));
    run', s' := Snoc(run', s', OpenOK(sid));
    run', s' := Snoc(run', s', TryRegister(key));
  }

  /** Then its readBack starts, and the datagram is written. */
  lemma SecondHalf(run: seq<Event>, s: State) returns (run': seq<Event>, s': State)
    requires Reached(run, s) && s.serve.Spawning? && s.serve.sid in s.sess && !s.sess[s.serve.sid].closed
    ensures Reached(run', s') && s'.serve.Receiving? && s'.t == s.t && s'.sess.Keys == s.sess.Keys
    ensures s'.readers == s.readers + [Reader(s.serve.key, s.serve.sid)] && !s'.sess[s.serve.sid].closed
  {
    hide Reached;
    run', s' := run, s;
    if s'.serve.startSweeper {
      run', s' := Snoc(run', s', GoSweep);
    }
    run', s' := Snoc(run', s', GoRead);
    run', s' := Snoc(run', s', WriteIt(true));
  }

  /**
    Dropping goes by key: after a new tunnel emptied the table and the client came back, the end of
    the old session's readBack takes the new session out.
  */
  lemma StaleReader(key: ClientKey) returns (run: seq<Event>, s: State)
    ensures Reached(run, s) && s.readers == [Reader(key, 0), Reader(key, 1)]
    ensures s.t.sessions == map[key := 1] && 1 in s.sess && !s.sess[1].closed
    ensures TakesOut(s, 0, 1)
  {
    hide Reached, Next;
    run, s := [], INIT;
    InitReached();
    run, s := FirstHalf(run, s, key, 0);
    run, s := SecondHalf(run, s);
    run, s := EmptyTable(run, s);
    run, s := FirstHalf(run, s, key, 1);
    run, s := SecondHalf(run, s);
  }

  /** The end of readBack `i` takes session `sid` out of the table, to be closed. */
  ghost predicate TakesOut(s: State, i: nat, sid: Sid) {
    && i < |s.readers|
    && sid in s.t.sessions.Values
    && sid !in ReaderEnded(s, i).t.sessions.Values
    && sid in Of(ReaderEnded(s, i).hands, Closer(s.nextId))
  }

  /** The end of a readBack takes nothing but its own session exactly when nobody else has its key now. */
  lemma TakesOnlyItsOwn(run: seq<Event>, s: State, i: nat)
    requires Reached(run, s) && i < |s.readers|
    ensures var r := s.readers[i];
            (forall sid :: TakesOut(s, i, sid) ==> sid == r.sid)
            <==> (r.key in s.t.sessions ==> s.t.sessions[r.key] == r.sid)
  {
    EveryRun(run);
    var key := s.readers[i].key;
    if key in s.t.sessions {
      RemoveOne(s.t.sessions, key);
      assert TakesOut(s, i, s.t.sessions[key]);
    }
  }

  lemma InitReached()
    ensures Reached([], INIT)
  {
  }

  lemma EmptyTable(run: seq<Event>, s: State) returns (run': seq<Event>, s': State)
    requires Reached(run, s)
    ensures Reached(run', s') && s'.t == s.t.(sessions := map[])
    ensures s'.sess == s.sess && s'.readers == s.readers && s'.serve == s.serve
  {
    hide Reached;
    run', s' := Snoc(run, s, CloseAll);
  }
}
