/**
  proxy/proxy_l.go, ForwardUDPClient: the table of UDP sessions. The functions are what happens
  inside one region under sessMu or under a session's own lock; the methods of the class carry
  them out step by step, and UdpSessionMachine interleaves them.
*/
module UdpSessions {
  import opened Base

  type ClientKey = s: string | s != "" witness "0"
  type Sid = nat
  type Seconds = nat

  const MAX_SESSIONS: nat := 1024
  const IDLE_TIMEOUT: Seconds := 60

  /** `streamCloses` counts the calls of stream.Close. */
  datatype Session = Session(createdAt: Seconds, lastUsed: Seconds, closed: bool, streamCloses: nat)

  datatype Table = Table(sessions: map<ClientKey, Sid>, sweeping: bool)

  // ---- One session, under its lock ----

  function CloseSession(s: Session): Session {
    if s.closed then s else s.(closed := true, streamCloses := s.streamCloses + 1)
  }

  function Touch(s: Session, now: Seconds): Session {
    if s.closed then s else s.(lastUsed := now)
  }

  predicate Idle(s: Session, now: Seconds) {
    now - s.lastUsed > IDLE_TIMEOUT
  }

  // ---- The table, under sessMu ----

  datatype Registration = Existing(sid: Sid) | Full | Inserted(table: Table, startSweeper: bool)

  function Insert(t: Table, key: ClientKey, sid: Sid): (Table, bool) {
    (Table(t.sessions[key := sid], true), !t.sweeping)
  }

  function Register(t: Table, key: ClientKey, sid: Sid): Registration {
    if key in t.sessions then Existing(t.sessions[key])
    else if |t.sessions| >= MAX_SESSIONS then Full
    else var r := Insert(t, key, sid); Inserted(r.0, r.1)
  }

  function Without(t: Table, key: ClientKey): Table {
    t.(sessions := t.sessions - {key})
  }

  /** What dropSession takes out of the table. */
  function DropKey(t: Table, key: ClientKey): (Table, set<Sid>) {
    (Without(t, key), if key in t.sessions then {t.sessions[key]} else {})
  }

  function TakeAll(t: Table): (Table, set<Sid>) {
    (t.(sessions := map[]), t.sessions.Values)
  }

  ghost predicate Known(t: Table, sess: map<Sid, Session>) {
    forall k :: k in t.sessions ==> t.sessions[k] in sess
  }

  /** Two clients never share a session. */
  ghost predicate Unshared(sessions: map<ClientKey, Sid>) {
    forall a, b :: a in sessions && b in sessions && sessions[a] == sessions[b] ==> a == b
  }

  /** `key` has a session that no other one is older than. */
  ghost predicate Oldest(t: Table, sess: map<Sid, Session>, key: ClientKey)
    requires Known(t, sess)
  {
    key in t.sessions
    && forall k :: k in t.sessions ==> sess[t.sessions[key]].createdAt <= sess[t.sessions[k]].createdAt
  }

  ghost function Fresh(t: Table, sess: map<Sid, Session>, now: Seconds): map<ClientKey, Sid>
    requires Known(t, sess)
  {
    map k | k in t.sessions && !Idle(sess[t.sessions[k]], now) :: t.sessions[k]
  }

  ghost function IdleOnes(t: Table, sess: map<Sid, Session>, now: Seconds): set<Sid>
    requires Known(t, sess)
  {
    set k | k in t.sessions && Idle(sess[t.sessions[k]], now) :: t.sessions[k]
  }

  /** One tick of sweepIdle: the table afterwards, the sessions to close, and whether the sweeper ends. */
  ghost function Tick(t: Table, sess: map<Sid, Session>, now: Seconds): (Table, set<Sid>, bool)
    requires Known(t, sess)
  {
    if t.sessions == map[] then (t.(sweeping := false), {}, true)
    else (t.(sessions := Fresh(t, sess, now)), IdleOnes(t, sess, now), false)
  }

  // ---- What the regions do to the set of sessions in the table ----

  lemma RemoveOne(m: map<ClientKey, Sid>, key: ClientKey)
    requires Unshared(m) && key in m
    ensures Unshared(m - {key}) && (m - {key}).Values == m.Values - {m[key]}
    ensures |m - {key}| == |m| - 1
  {
    var rest := m - {key};
    assert m.Keys == rest.Keys + {key};
    forall sid | sid in m.Values - {m[key]} ensures sid in rest.Values {
      var k :| k in m && m[k] == sid;
      assert k in rest && rest[k] == sid;
    }
  }

  lemma InsertOne(m: map<ClientKey, Sid>, key: ClientKey, sid: Sid)
    requires Unshared(m) && key !in m && sid !in m.Values
    ensures Unshared(m[key := sid]) && m[key := sid].Values == m.Values + {sid}
    ensures |m[key := sid]| == |m| + 1
  {
    var more := m[key := sid];
    assert more.Keys == m.Keys + {key};
    forall x | x in m.Values ensures x in more.Values {
      var k :| k in m && m[k] == x;
      assert k in more && more[k] == x;
    }
    assert key in more && more[key] == sid;
  }

  /** A tick takes exactly the idle sessions out. */
  lemma TickTakesIdle(t: Table, sess: map<Sid, Session>, now: Seconds)
    requires Known(t, sess) && Unshared(t.sessions)
    ensures var r := Tick(t, sess, now);
            Unshared(r.0.sessions)
            && r.0.sessions.Values == t.sessions.Values - r.1
            && |r.0.sessions| <= |t.sessions|
            && (forall sid :: sid in r.1 ==> sid in t.sessions.Values && Idle(sess[sid], now))
            && (forall sid :: sid in r.0.sessions.Values ==> !Idle(sess[sid], now))
            && (r.2 <==> t.sessions == map[])
            && (r.0.sweeping <==> t.sweeping && !r.2)
            && (forall k :: k in r.0.sessions ==> k in t.sessions && r.0.sessions[k] == t.sessions[k])
  {
    var r := Tick(t, sess, now);
    if t.sessions != map[] {
      var rest := r.0.sessions;
      assert rest.Keys <= t.sessions.Keys;
      SubsetSize(rest.Keys, t.sessions.Keys);
      forall sid | sid in t.sessions.Values - r.1 ensures sid in rest.Values {
        var k :| k in t.sessions && t.sessions[k] == sid;
        assert k in rest && rest[k] == sid;
      }
      forall sid | sid in rest.Values ensures sid !in r.1 && sid in t.sessions.Values {
        var k :| k in rest && rest[k] == sid;
        assert t.sessions[k] == sid;
      }
    }
  }

  lemma SubsetSize<T>(a: set<T>, b: set<T>)
    requires a <= b
    ensures |a| <= |b|
  {
    assert b == a + (b - a);
  }

  class ForwardUDPClient {
    var sessions: map<ClientKey, Sid>
    var sweeping: bool
    /** Every session opened so far. */
    var sess: map<Sid, Session>

    function Abs(): Table
      reads this`sessions, this`sweeping
    {
      Table(sessions, sweeping)
    }

    constructor ()
      ensures Abs() == Table(map[], false) && sess == map[]
    {
      sessions, sweeping, sess := map[], false, map[];
    }

    method Close(sid: Sid)
      requires sid in sess
      modifies this`sess
      ensures sess == old(sess)[sid := CloseSession(old(sess)[sid])]
    {
      if sess[sid].closed {
        assert sess == sess[sid := sess[sid]];
        return;
      }
      sess := sess[sid := sess[sid].(closed := true, streamCloses := sess[sid].streamCloses + 1)];
    }

    /** The sessions are closed one after the other, outside sessMu. */
    method CloseEach(todo: set<Sid>)
      requires todo <= sess.Keys
      modifies this`sess
      ensures sess.Keys == old(sess.Keys)
      ensures forall sid :: sid in sess ==>
                sess[sid] == if sid in todo then CloseSession(old(sess)[sid]) else old(sess)[sid]
    {
      var rest := todo;
      while rest != {}
        invariant rest <= todo && sess.Keys == old(sess.Keys)
        invariant forall sid :: sid in sess ==>
                    sess[sid] == if sid in todo - rest then CloseSession(old(sess)[sid]) else old(sess)[sid]
        decreases |rest|
      {
        var sid :| sid in rest;
        Close(sid);
        rest := rest - {sid};
      }
    }

    /** evictOldestLocked: the map is iterated in any order. */
    method EvictOldest() returns (victim: Option<Sid>)
      requires Known(Abs(), sess)
      modifies this`sessions
      ensures victim.None? ==> old(sessions) == map[] && sessions == map[]
      ensures victim.Some? ==>
                exists key :: Oldest(old(Abs()), sess, key) && victim == Some(old(sessions)[key])
                              && Abs() == Without(old(Abs()), key)
    {
      victim := None;
      var victimKey: string := "";
      var rest := sessions.Keys;
      while rest != {}
        invariant rest <= sessions.Keys && sessions == old(sessions)
        invariant victim.None? ==> rest == sessions.Keys && victimKey == ""
        invariant victim.Some? ==> victimKey in sessions && sessions[victimKey] == victim.value
        invariant victim.Some? ==> forall k :: k in sessions && k !in rest ==>
                    sess[victim.value].createdAt <= sess[sessions[k]].createdAt
        decreases |rest|
      {
        var k :| k in rest;
        var s := sessions[k];
        if victim.None? || sess[s].createdAt < sess[victim.value].createdAt {
          victimKey, victim := k, Some(s);
        }
        rest := rest - {k};
      }
      if victimKey != "" {
        assert Oldest(Abs(), sess, victimKey);
        sessions := sessions - {victimKey};
      }
    }

    /** The locked part of one tick of sweepIdle. */
    method SweepTick(now: Seconds) returns (exit: bool, victims: set<Sid>)
      requires Known(Abs(), sess)
      modifies this`sessions, this`sweeping
      ensures (Abs(), victims, exit) == Tick(old(Abs()), sess, now)
    {
      if sessions == map[] {
        sweeping := false;
        return true, {};
      }
      exit, victims := false, {};
      var rest := sessions.Keys;
      while rest != {}
        invariant rest <= old(sessions).Keys
        invariant sessions.Keys <= old(sessions).Keys
        invariant forall k :: k in sessions ==> sessions[k] == old(sessions)[k]
        invariant sweeping == old(sweeping)
        invariant forall k :: k in old(sessions) ==>
                    (k in sessions <==> k in rest || !Idle(sess[old(sessions)[k]], now))
        invariant victims == set k | k in old(sessions) && k !in rest && Idle(sess[old(sessions)[k]], now) :: old(sessions)[k]
        decreases |rest|
      {
        var k :| k in rest;
        var s := sessions[k];
        if Idle(sess[s], now) {
          sessions := sessions - {k};
          victims := victims + {s};
        }
        rest := rest - {k};
      }
      assert sessions == Fresh(old(Abs()), sess, now);
      assert victims == IdleOnes(old(Abs()), sess, now);
    }

    method DropSession(key: ClientKey)
      requires Known(Abs(), sess)
      modifies this`sessions, this`sess
      ensures Abs() == Without(old(Abs()), key) && sess.Keys == old(sess.Keys)
      ensures forall sid :: sid in sess ==>
                sess[sid] == if sid in DropKey(old(Abs()), key).1 then CloseSession(old(sess)[sid]) else old(sess)[sid]
    {
      var s := if key in sessions then Some(sessions[key]) else None;
      sessions := sessions - {key};
      if s.Some? {
        Close(s.value);
      }
    }

    method CloseAllSessions()
      requires Known(Abs(), sess)
      modifies this`sessions, this`sess
      ensures Abs() == TakeAll(old(Abs())).0 && sess.Keys == old(sess.Keys)
      ensures forall sid :: sid in sess ==>
                sess[sid] == if sid in old(sessions).Values then CloseSession(old(sess)[sid]) else old(sess)[sid]
    {
      var all := sessions.Values;
      sessions := map[];
      CloseEach(all);
    }

    /** A full table loses its oldest session, which is closed. */
    method MakeRoom() returns (ghost victim: ClientKey)
      requires Known(Abs(), sess) && Unshared(sessions) && sessions != map[]
      modifies this`sessions, this`sess
      ensures Oldest(old(Abs()), old(sess), victim) && Abs() == Without(old(Abs()), victim)
      ensures sess == old(sess)[old(sessions)[victim] := CloseSession(old(sess)[old(sessions)[victim]])]
      ensures Unshared(sessions) && |sessions| == |old(sessions)| - 1
    {
      hide Unshared;
      ghost var before := Abs();
      var s := EvictOldest();
      victim :| Oldest(before, sess, victim) && s == Some(before.sessions[victim]) && Abs() == Without(before, victim);
      RemoveOne(before.sessions, victim);
      Close(s.value);
    }

    method InsertSession(key: ClientKey, sid: Sid) returns (startSweeper: bool)
      requires Unshared(sessions) && key !in sessions && sid !in sessions.Values && |sessions| < MAX_SESSIONS
      modifies this`sessions, this`sweeping
      ensures (Abs(), startSweeper) == Insert(old(Abs()), key, sid)
      ensures Unshared(sessions) && |sessions| <= MAX_SESSIONS
    {
      InsertOne(sessions, key, sid);
      sessions := sessions[key := sid];
      startSweeper := !sweeping;
      if startSweeper {
        sweeping := true;
      }
    }

    /**
      The second half of newSession, with nobody in between: the stream of `sid` is open and its
      head is written. Whatever the size of the table, it is within the limit afterwards and the
      key has a session; only the oldest one of a full table has to go.
    */
    method NewSession(key: ClientKey, sid: Sid, now: Seconds)
      returns (got: Sid, startSweeper: bool, ghost victim: Option<ClientKey>)
      requires Known(Abs(), sess) && Unshared(sessions) && |sessions| <= MAX_SESSIONS && sid !in sess
      modifies this`sessions, this`sweeping, this`sess
      ensures Unshared(sessions) && |sessions| <= MAX_SESSIONS
      ensures got == if key in old(sessions) then old(sessions)[key] else sid
      ensures startSweeper <==> key !in old(sessions) && !old(sweeping)
      ensures sweeping == (old(sweeping) || key !in old(sessions))
      ensures victim.Some? <==> key !in old(sessions) && |old(sessions)| == MAX_SESSIONS
      ensures victim.Some? ==> victim.value in old(sessions)
      ensures sessions == if key in old(sessions) then old(sessions)
                          else (if victim.Some? then old(sessions) - {victim.value} else old(sessions))[key := sid]
      ensures var created := Session(now, now, false, 0);
              sess == if key in old(sessions) then old(sess)[sid := CloseSession(created)]
                      else if victim.None? then old(sess)[sid := created]
                      else var v := old(sessions)[victim.value];
                           old(sess)[sid := created][v := CloseSession(old(sess)[v])]
      ensures victim.Some? ==> Oldest(old(Abs()), old(sess)[sid := Session(now, now, false, 0)], victim.value)
    {
      hide Unshared, Oldest;
      victim := None;
      assert forall k :: k in sessions ==> sessions[k] in sessions.Values && sessions[k] != sid;
      sess := sess[sid := Session(now, now, false, 0)];
      if key in sessions {
        Close(sid);
        return sessions[key], false, None;
      }
      if |sessions| >= MAX_SESSIONS {
        ghost var v := MakeRoom();
        victim := Some(v);
      }
      startSweeper := InsertSession(key, sid);
      got := sid;
    }
  }
}
