/**
  pro/local.go, pro/remote.go and the Redis records of pro/comm.go: one session between a Local and
  a Remote that share a registration and a session record. A step is one read, write or delete of a
  record, one decision of a party, or the expiry of a record. A write or delete may have no effect,
  and nobody is told; a read may fail.
*/
module Rendezvous {
  import opened Base
  import opened Text

  // ---- Transport and addresses ----

  const QUIC := "quic"
  const KCP := "kcp"

  function NormalizeTransport(s: string): string {
    if Plain(s) == "" then KCP else Plain(s)
  }

  function SessionTransport(s: string): (t: string) {
    var n := NormalizeTransport(s);
    if n != QUIC && n != KCP then KCP else n
  }

  predicate KnownTransport(s: string) {
    s == QUIC || s == KCP
  }

  /** Local follows Remote's raw setting exactly when that is one of the two known names already. */
  lemma SameTransport(raw: string)
    ensures KnownTransport(SessionTransport(raw))
    ensures SessionTransport(raw) == raw <==> KnownTransport(raw)
    ensures SessionTransport(raw) == QUIC <==> Lower(Trim(raw)) == "quic"
  {
    if KnownTransport(raw) {
      TrimExact(raw);
      assert Lower(raw) == raw;
    }
  }

  /** The two public ports that two STUN servers saw; port 0 stands for none. */
  datatype Addr = Addr(wan1: nat, wan2: nat)

  const NO_ADDR := Addr(0, 0)

  /** The two servers saw different ports: a symmetric NAT. */
  predicate Nat4(a: Addr) {
    a.wan1 != a.wan2
  }

  const ATTEMPTS := 5

  /** What one round of GetUDPAddr meets. */
  datatype Probe = NoSocket | Stun(addr: Addr, found: bool, rebinds: bool)

  predicate Usable(p: Probe) {
    p.Stun? && p.found && p.addr.wan1 != 0 && p.addr.wan2 != 0 && p.rebinds
  }

  /** GetUDPAddr: the first usable round of five decides; an address with port 0 is never returned. */
  method GetUDPAddr(probe: nat -> Probe) returns (addr: Option<Addr>)
    ensures addr.Some? ==> addr.value.wan1 != 0 && addr.value.wan2 != 0
    ensures addr.None? <==> forall k: nat :: k < ATTEMPTS ==> !Usable(probe(k))
    ensures addr.Some? ==>
              exists k: nat :: k < ATTEMPTS && Usable(probe(k)) && addr.value == probe(k).addr
                               && forall j: nat :: j < k ==> !Usable(probe(j))
  {
    for k := 0 to ATTEMPTS
      invariant forall j: nat :: j < k ==> !Usable(probe(j))
    {
      var p := probe(k);
      if p.NoSocket? {
        continue;
      }
      if !p.found || p.addr.wan1 == 0 || p.addr.wan2 == 0 {
        continue;
      }
      if !p.rebinds {
        continue;
      }
      assert Usable(probe(k));
      return Some(p.addr);
    }
    addr := None;
  }

  // ---- The session ----

  datatype Record = Record(state: int, localAddr: Addr, remoteAddr: Addr, transport: string, allowProxy: bool)

  /** What does not change during the session; `remoteSees` and `localSees` are the version checks. */
  datatype Setting = Setting(
    local: Addr,
    remote: Option<Addr>,          // None: GetUDPAddr fails at Remote
    transport: string,             // Remote's setting, as configured
    allowProxy: bool,
    remoteSees: bool,
    localSees: bool)

  datatype Role = Active | Passive

  /** A tunnel end: its role, its transport, and whether Start was called. */
  datatype End = End(role: Role, transport: string, started: bool)

  datatype LocalPc =
    | Registering
    | AwaitingClaim
    | Polling
    | AtState1(r: Record)
    | Setting2(r: Record)
    | Deleting
    | Unregistering
    | Returned(allow: bool)        // with a tunnel
    | Gone

  datatype RemotePc =
    | Scanning
    | Claimed(r: Record)
    | Setting1(r: Record)
    | SettingMismatch(r: Record)
    | Watching
    | AtState2(r: Record)
    | Deciding(r: Record)          // select on the tunnel and the timeout
    | SettingOutcome(r: Record, tunnel: bool)
    | Connected
    | Over

  datatype State = State(
    reg: Option<Record>,
    rec: Option<Record>,
    local: LocalPc,
    remote: RemotePc,
    localEnd: Option<End>,
    remoteEnd: Option<End>,
    history: seq<int>)             // the states effectively written to the session record

  const INIT := State(None, None, Registering, Scanning, None, None, [])

  datatype Event =
    | Register(effective: bool, reported: bool)
    | SeeClaim
    | GiveUpClaim
    | Unregister(effective: bool)
    | LocalRead(ok: bool, tunnel: bool)
    | Prepare
    | Set2(effective: bool)
    | Delete(effective: bool)
    | LocalStops
    | Claim
    | Answer
    | Set1(effective: bool)
    | SetMismatch(effective: bool)
    | RemoteRead(ok: bool)
    | StartTunnel
    | Outcome(connected: bool, tunnel: bool)
    | SetOutcome(effective: bool)
    | RemoteStops
    | ExpireRegistration
    | ExpireRecord

  /** Local sends its address along only when it will connect actively. */
  function Registration(p: Setting): Record {
    Record(0, if Nat4(p.local) then NO_ADDR else p.local, NO_ADDR, "", true)
  }

  predicate Enabled(p: Setting, s: State, e: Event) {
    match e
    case Register(_, _) => s.local.Registering?
    case SeeClaim => s.local.AwaitingClaim? && s.rec.Some?
    case GiveUpClaim => s.local.AwaitingClaim?
    case Unregister(_) => s.local.Unregistering?
    case LocalRead(_, _) => s.local.Polling?
    case Prepare => s.local.AtState1?
    case Set2(_) => s.local.Setting2?
    case Delete(_) => s.local.Deleting?
    case LocalStops => s.local.Polling? || s.local.AwaitingClaim?
    case Claim => s.remote.Scanning? && s.reg.Some?
    case Answer => s.remote.Claimed?
    case Set1(_) => s.remote.Setting1?
    case SetMismatch(_) => s.remote.SettingMismatch?
    case RemoteRead(_) => s.remote.Watching?
    case StartTunnel => s.remote.AtState2?
    case Outcome(_, _) => s.remote.Deciding?
    case SetOutcome(_) => s.remote.SettingOutcome?
    case RemoteStops => s.remote.Watching?
    case ExpireRegistration => true
    case ExpireRecord => true
  }

  /** RedisSessionSet: with a lost write the record stays as it was. */
  function Put(s: State, r: Record, effective: bool): State {
    if effective then s.(rec := Some(r), history := s.history + [r.state]) else s
  }

  function LocalReads(s: State, ok: bool, tunnel: bool): State {
    if !ok || s.rec.None? then s.(local := Gone)
    else
      var r := s.rec.value;
      if r.state == -1 || r.state == -2 then s.(local := Deleting)
      else if r.state == 1 then s.(local := AtState1(r))
      else if r.state == 3 then s.(local := if tunnel then Returned(r.allowProxy) else Gone)
      else if r.state == 4 then s.(local := Gone)
      else s
  }

  /** handleState1_ProcessRemoteAddr up to the write: a tunnel end is made and started. */
  function Prepared(p: Setting, s: State): State
    requires s.local.AtState1?
  {
    var r := s.local.r;
    if !p.localSees || (Nat4(p.local) && Nat4(r.remoteAddr)) then s.(local := Deleting)
    else if Nat4(p.local) then
      s.(localEnd := Some(End(Passive, SessionTransport(r.transport), true)),
         local := Setting2(r.(state := 2, localAddr := p.local)))
    else
      s.(localEnd := Some(End(Active, SessionTransport(r.transport), true)), local := Setting2(r.(state := 2)))
  }

  /** handleState1_SendRemoteAddr up to the write: Remote's role depends on whether an address came. */
  function Answered(p: Setting, s: State): State
    requires s.remote.Claimed?
  {
    var r := s.remote.r;
    if !p.remoteSees then s.(remote := SettingMismatch(r.(state := -1)))
    else if p.remote.None? then s.(remote := Over)
    else
      var r' := r.(state := 1, transport := p.transport, allowProxy := p.allowProxy, remoteAddr := p.remote.value);
      var end := if r.localAddr.wan1 == 0 then End(Active, p.transport, false) else End(Passive, p.transport, true);
      s.(remoteEnd := Some(end), remote := Setting1(r'))
  }

  function RemoteReads(s: State, ok: bool): State {
    if !ok || s.rec.None? then s.(remote := Over)
    else
      var r := s.rec.value;
      if r.state == 2 then s.(remote := AtState2(r))
      else if r.state == 3 then s.(remote := Connected)
      else if r.state == 4 then s.(remote := Over)
      else s
  }

  function Started(s: State): State
    requires s.remote.AtState2?
  {
    var end := if s.remoteEnd.Some? && s.remoteEnd.value.role == Active then Some(s.remoteEnd.value.(started := true))
               else s.remoteEnd;
    s.(remoteEnd := end, remote := Deciding(s.remote.r))
  }

  function Decided(s: State, connected: bool, tunnel: bool): State
    requires s.remote.Deciding?
  {
    s.(remote := SettingOutcome(s.remote.r.(state := if connected then 3 else 4), tunnel))
  }

  function OutcomeSet(s: State, effective: bool): State
    requires s.remote.SettingOutcome?
  {
    var pc := s.remote;
    Put(s, pc.r, effective).(remote := if pc.r.state == 4 then Over else if pc.tunnel then Connected else Watching)
  }

  function Next(p: Setting, s: State, e: Event): State
    requires Enabled(p, s, e)
  {
    match e
    case Register(effective, reported) =>
      s.(reg := if effective then Some(Registration(p)) else s.reg, local := if reported then AwaitingClaim else Gone)
    case SeeClaim => s.(local := Polling)
    case GiveUpClaim => s.(local := Unregistering)
    case Unregister(effective) => s.(reg := if effective then None else s.reg, local := Gone)
    case LocalRead(ok, tunnel) => LocalReads(s, ok, tunnel)
    case Prepare => Prepared(p, s)
    case Set2(effective) => Put(s, s.local.r, effective).(local := Polling)
    case Delete(effective) => s.(rec := if effective then None else s.rec, local := Gone)
    case LocalStops => s.(local := if s.local.AwaitingClaim? then Unregistering else Gone)
    case Claim => s.(reg := None, remote := Claimed(s.reg.value))
    case Answer => Answered(p, s)
    case Set1(effective) => Put(s, s.remote.r, effective).(remote := Watching)
    case SetMismatch(effective) => Put(s, s.remote.r, effective).(remote := Over)
    case RemoteRead(ok) => RemoteReads(s, ok)
    case StartTunnel => Started(s)
    case Outcome(connected, tunnel) => Decided(s, connected, tunnel)
    case SetOutcome(effective) => OutcomeSet(s, effective)
    case RemoteStops => s.(remote := Over)
    case ExpireRegistration => s.(reg := None)
    case ExpireRecord => s.(rec := None)
  }

  ghost function Exec(p: Setting, run: seq<Event>): Option<State> {
    if run == [] then Some(INIT)
    else
      var s := Exec(p, run[..|run| - 1]);
      if s.Some? && Enabled(p, s.value, run[|run| - 1]) then Some(Next(p, s.value, run[|run| - 1])) else None
  }

  ghost predicate Reached(p: Setting, run: seq<Event>, s: State) {
    Exec(p, run) == Some(s)
  }

  // ---- Who may write when ----

  predicate LocalWrites(pc: LocalPc) {
    pc.AtState1? || pc.Setting2? || pc.Deleting?
  }

  predicate RemoteWrites(pc: RemotePc) {
    pc.Claimed? || pc.Setting1? || pc.SettingMismatch? || pc.AtState2? || pc.Deciding? || pc.SettingOutcome?
  }

  /** The states written so far when Local is where it is. */
  ghost predicate LocalPhase(pc: LocalPc, h: seq<int>) {
    match pc
    case Registering => h in {[], [1], [-1]}
    case AwaitingClaim => h in {[], [1], [-1]}
    case Unregistering => h in {[], [1], [-1]}
    case AtState1(_) => h == [1]
    case Setting2(_) => h == [1]
    case Deleting => h in {[1], [-1]}
    case Polling => h != []
    case Returned(_) => h == [1, 2, 3]
    case Gone => true
  }

  ghost predicate RemotePhase(pc: RemotePc, h: seq<int>) {
    match pc
    case Scanning => h == []
    case Claimed(_) => h == []
    case Setting1(_) => h == []
    case SettingMismatch(_) => h == []
    case Watching => h in {[], [1], [1, 2], [1, 2, 3]}
    case AtState2(_) => h == [1, 2]
    case Deciding(_) => h == [1, 2]
    case SettingOutcome(_, _) => h == [1, 2]
    case Connected => h in {[1, 2], [1, 2, 3]}
    case Over => true
  }

  /** 1, then 2, then 3 or 4; or only -1. */
  predicate Orderly(h: seq<int>) {
    h <= [1, 2, 3] || h <= [1, 2, 4] || h == [-1]
  }

  // ---- What every reachable state satisfies, part by part ----

  predicate BothNat4(p: Setting) {
    Nat4(p.local) && p.remote.Some? && Nat4(p.remote.value)
  }

  /** A session record carries Remote's data, and Local's address once Local has answered. */
  ghost predicate Content(p: Setting, r: Record) {
    r.state == -1
    || (1 <= r.state <= 4 && p.remote == Some(r.remoteAddr) && r.transport == p.transport
        && r.allowProxy == p.allowProxy
        && r.localAddr == if r.state == 1 then Registration(p).localAddr else p.local)
  }

  ghost predicate RecordInv(p: Setting, reg: Option<Record>, rec: Option<Record>, h: seq<int>) {
    && Orderly(h) && (-1 in h ==> !p.remoteSees)
    && (reg.Some? ==> reg.value == Registration(p))
    && (rec.Some? ==> h != [] && rec.value.state == h[|h| - 1] && Content(p, rec.value))
  }

  ghost predicate LocalInv(p: Setting, pc: LocalPc, h: seq<int>) {
    && LocalPhase(pc, h)
    && (pc.AtState1? ==> pc.r.state == 1 && Content(p, pc.r))
    && (pc.Setting2? ==> pc.r.state == 2 && Content(p, pc.r))
    && (pc.Returned? ==> pc.allow == p.allowProxy)
  }

  ghost predicate RemoteInv(p: Setting, pc: RemotePc, h: seq<int>) {
    && RemotePhase(pc, h)
    && (pc.Claimed? ==> pc.r == Registration(p))
    && (pc.Setting1? ==> pc.r.state == 1 && Content(p, pc.r))
    && (pc.SettingMismatch? ==> pc.r.state == -1 && !p.remoteSees)
    && (pc.AtState2? || pc.Deciding? ==> pc.r.state == 2 && Content(p, pc.r))
    && (pc.SettingOutcome? ==> pc.r.state in {3, 4} && Content(p, pc.r))
  }

  ghost predicate LocalEndInv(p: Setting, end: Option<End>, pc: LocalPc, h: seq<int>) {
    && (pc.Setting2? || 2 in h ==> end.Some?)
    && (end.Some? ==>
          end.value == End(if Nat4(p.local) then Passive else Active, SessionTransport(p.transport), true)
          && p.localSees && !BothNat4(p))
  }

  ghost predicate RemoteEndInv(p: Setting, end: Option<End>, pc: RemotePc, h: seq<int>) {
    && (pc.Setting1? || 1 in h ==> end.Some?)
    && (end.Some? ==>
          end.value.role == (if Registration(p).localAddr.wan1 == 0 then Active else Passive)
          && end.value.transport == p.transport
          && (end.value.started ==> end.value.role == Passive || 2 in h)
          && (end.value.role == Passive || pc.Deciding? || pc.SettingOutcome? || pc.Connected? || 3 in h ==> end.value.started)
          && p.remoteSees && p.remote.Some?)
  }

  ghost predicate Inv(p: Setting, s: State) {
    && RecordInv(p, s.reg, s.rec, s.history)
    && LocalInv(p, s.local, s.history)
    && RemoteInv(p, s.remote, s.history)
    && LocalEndInv(p, s.localEnd, s.local, s.history)
    && RemoteEndInv(p, s.remoteEnd, s.remote, s.history)
  }

  lemma LocalStep(p: Setting, s: State, e: Event)
    requires Inv(p, s) && Enabled(p, s, e) && e.LocalRead?
    ensures Inv(p, Next(p, s, e))
  {
  }

  lemma LocalQuietStep(p: Setting, s: State, e: Event)
    requires Inv(p, s) && Enabled(p, s, e)
    requires e.Register? || e.SeeClaim? || e.GiveUpClaim? || e.Unregister? || e.Delete? || e.LocalStops?
             || e.Claim? || e.RemoteStops? || e.ExpireRegistration? || e.ExpireRecord?
    ensures Inv(p, Next(p, s, e))
  {
  }

  lemma PrepareStep(p: Setting, s: State)
    requires Inv(p, s) && Enabled(p, s, Prepare)
    ensures Inv(p, Next(p, s, Prepare))
  {
  }

  lemma Longer()
    ensures [] + [1] == [1] && [] + [-1] == [-1] && [1] + [2] == [1, 2]
    ensures [1, 2] + [3] == [1, 2, 3] && [1, 2] + [4] == [1, 2, 4]
  {
  }

  lemma Set2Step(p: Setting, s: State, effective: bool)
    requires Inv(p, s) && Enabled(p, s, Set2(effective))
    ensures Inv(p, Next(p, s, Set2(effective)))
  {
    Longer();
  }

  lemma AnswerStep(p: Setting, s: State)
    requires Inv(p, s) && Enabled(p, s, Answer)
    ensures Inv(p, Next(p, s, Answer))
  {
  }

  lemma RemoteSetStep(p: Setting, s: State, e: Event)
    requires Inv(p, s) && Enabled(p, s, e) && (e.Set1? || e.SetMismatch?)
    ensures Inv(p, Next(p, s, e))
  {
    Longer();
  }

  lemma RemoteReadStep(p: Setting, s: State, e: Event)
    requires Inv(p, s) && Enabled(p, s, e) && (e.RemoteRead? || e.StartTunnel? || e.Outcome?)
    ensures Inv(p, Next(p, s, e))
  {
  }

  lemma SetOutcomeStep(p: Setting, s: State, effective: bool)
    requires Inv(p, s) && Enabled(p, s, SetOutcome(effective))
    ensures Inv(p, Next(p, s, SetOutcome(effective)))
  {
    Longer();
  }

  lemma InvStep(p: Setting, s: State, e: Event)
    requires Inv(p, s) && Enabled(p, s, e)
    ensures Inv(p, Next(p, s, e))
  {
    hide Inv, Next;
    match e
    case LocalRead(_, _) => LocalStep(p, s, e);
    case Prepare => PrepareStep(p, s);
    case Set2(effective) => Set2Step(p, s, effective);
    case Answer => AnswerStep(p, s);
    case Set1(_) => RemoteSetStep(p, s, e);
    case SetMismatch(_) => RemoteSetStep(p, s, e);
    case RemoteRead(_) => RemoteReadStep(p, s, e);
    case StartTunnel => RemoteReadStep(p, s, e);
    case Outcome(_, _) => RemoteReadStep(p, s, e);
    case SetOutcome(effective) => SetOutcomeStep(p, s, effective);
    case _ => LocalQuietStep(p, s, e);
  }

  lemma {:induction false} EveryRun(p: Setting, run: seq<Event>)
    ensures Exec(p, run).Some? ==> Inv(p, Exec(p, run).value)
  {
    hide Inv, Enabled, Next;
    if run == [] {
      InvInit(p);
    } else {
      var last := |run| - 1;
      EveryRun(p, run[..last]);
      var s := Exec(p, run[..last]);
      if s.Some? && Enabled(p, s.value, run[last]) {
        InvStep(p, s.value, run[last]);
      }
    }
  }

  lemma InvInit(p: Setting)
    ensures Inv(p, INIT)
  {
  }

  // ---- Consequences ----

  /** The record goes from 1 to 2 to 3 or 4, or is -1; what a reader finds is the latest of these. */
  lemma RecordOrder(p: Setting, run: seq<Event>, s: State)
    requires Reached(p, run, s)
    ensures Orderly(s.history)
    ensures (-1 in s.history ==> !p.remoteSees) && (1 in s.history ==> p.remoteSees && p.remote.Some?)
    ensures s.rec.Some? ==> s.history != [] && s.rec.value.state == s.history[|s.history| - 1]
  {
    EveryRun(p, run);
  }

  lemma HistoryStep(p: Setting, s: State, e: Event)
    requires Enabled(p, s, e)
    ensures s.history <= Next(p, s, e).history
  {
  }

  /** In no continuation is a state taken back, and once the record has been 3, 4 or -1 none is added. */
  lemma {:induction false} NeverTakenBack(p: Setting, run: seq<Event>, s: State, more: seq<Event>, t: State)
    requires Reached(p, run, s) && Reached(p, run + more, t)
    ensures s.history <= t.history && |t.history| <= 3
    ensures 3 in s.history || 4 in s.history || -1 in s.history ==> t.history == s.history
    decreases |more|
  {
    hide Enabled, Next, Inv;
    if more == [] {
      assert run + more == run;
    } else {
      var m := |more| - 1;
      assert (run + more)[..|run + more| - 1] == run + more[..m];
      var q := Exec(p, run + more[..m]).value;
      NeverTakenBack(p, run, s, more[..m], q);
      HistoryStep(p, q, more[m]);
    }
    RecordOrder(p, run, s);
    RecordOrder(p, run + more, t);
  }

  /** At most one of the two may write or delete the session record at any moment. */
  lemma OneWriter(p: Setting, run: seq<Event>, s: State)
    requires Reached(p, run, s)
    ensures !(LocalWrites(s.local) && RemoteWrites(s.remote))
  {
    EveryRun(p, run);
  }

  /** In the run, the wait of Remote ended with a connection, or with the timeout. */
  ghost predicate TunnelConnected(run: seq<Event>) {
    Outcome(true, true) in run || Outcome(true, false) in run
  }

  ghost predicate TimedOut(run: seq<Event>) {
    Outcome(false, true) in run || Outcome(false, false) in run
  }

  /** The state that Remote has decided on and is about to write. */
  predicate Decides(pc: RemotePc, state: int) {
    pc.SettingOutcome? && pc.r.state == state
  }

  lemma OutcomeStep(p: Setting, s: State, e: Event)
    requires Inv(p, s) && Enabled(p, s, e)
    ensures var t := Next(p, s, e);
            (3 in t.history ==> 3 in s.history || Decides(s.remote, 3))
            && (4 in t.history ==> 4 in s.history || Decides(s.remote, 4))
            && (Decides(t.remote, 3) ==> Decides(s.remote, 3) || (e.Outcome? && e.connected))
            && (Decides(t.remote, 4) ==> Decides(s.remote, 4) || (e.Outcome? && !e.connected))
            && (t.local.Returned? ==> s.local.Returned? || e == LocalRead(true, true))
  {
    hide RecordInv, LocalEndInv, RemoteEndInv, Content, Registration, LocalPhase, RemotePhase;
  }

  /** 3 is written only after the tunnel connected, 4 only after the timeout; and Local returns only its own tunnel. */
  lemma {:induction false} OutcomeTold(p: Setting, run: seq<Event>, s: State)
    requires Reached(p, run, s)
    ensures 3 in s.history || Decides(s.remote, 3) ==> TunnelConnected(run)
    ensures 4 in s.history || Decides(s.remote, 4) ==> TimedOut(run)
    ensures s.local.Returned? ==> LocalRead(true, true) in run
  {
    hide Enabled, Next, Inv, Decides;
    if run == [] {
      NothingYet();
    } else {
      var last := |run| - 1;
      var q := Exec(p, run[..last]).value;
      OutcomeTold(p, run[..last], q);
      EveryRun(p, run[..last]);
      OutcomeStep(p, q, run[last]);
      assert forall e :: e in run[..last] ==> e in run;
      assert run[last] in run;
    }
  }

  lemma NothingYet()
    ensures INIT.history == [] && !Decides(INIT.remote, 3) && !Decides(INIT.remote, 4)
  {
  }

  /** Local has a tunnel only after Remote's tunnel connected and Remote wrote 3, and it follows what Remote allows. */
  lemma TunnelAfterSuccess(p: Setting, run: seq<Event>, s: State)
    requires Reached(p, run, s) && s.local.Returned?
    ensures TunnelConnected(run) && LocalRead(true, true) in run
    ensures s.history == [1, 2, 3] && s.local.allow == p.allowProxy
    ensures s.localEnd.Some? && s.remoteEnd.Some? && s.localEnd.value.started && s.remoteEnd.value.started
  {
    EveryRun(p, run);
    assert [1, 2, 3][1] == 2 && [1, 2, 3][0] == 1 && [1, 2, 3][2] == 3;
    OutcomeTold(p, run, s);
  }

  /** Where Local goes after reading the record depends on what was written, and on nothing else. */
  lemma LocalFollows(p: Setting, run: seq<Event>, s: State, ok: bool, tunnel: bool)
    requires Reached(p, run, s) && s.local.Polling?
    ensures var pc, seen := Next(p, s, LocalRead(ok, tunnel)).local, ok && s.rec.Some?;
            (pc.Polling? <==> seen && s.history == [1, 2])
            && (pc.AtState1? <==> seen && s.history == [1])
            && (pc.Deleting? <==> seen && s.history == [-1])
            && (pc.Returned? <==> seen && s.history == [1, 2, 3] && tunnel)
            && (pc.Gone? <==> !seen || s.history == [1, 2, 4] || (s.history == [1, 2, 3] && !tunnel))
  {
    EveryRun(p, run);
    hide LocalEndInv, RemoteEndInv, RemoteInv;
    Written(s.history);
  }

  /** And so it is with Remote. */
  lemma RemoteFollows(p: Setting, run: seq<Event>, s: State, ok: bool)
    requires Reached(p, run, s) && s.remote.Watching?
    ensures var pc, seen := Next(p, s, RemoteRead(ok)).remote, ok && s.rec.Some?;
            (pc.Watching? <==> seen && s.history == [1])
            && (pc.AtState2? <==> seen && s.history == [1, 2])
            && (pc.Connected? <==> seen && s.history == [1, 2, 3])
            && (pc.Over? <==> !seen)
  {
    EveryRun(p, run);
    hide LocalEndInv, RemoteEndInv, LocalInv;
    Written(s.history);
  }

  lemma Written(h: seq<int>)
    requires Orderly(h)
    ensures h in {[], [1], [1, 2], [1, 2, 3], [1, 2, 4], [-1]}
  {
    var a, b := [1, 2, 3], [1, 2, 4];
    assert (h <= a ==> h == a[..|h|]) && (h <= b ==> h == b[..|h|]);
    assert a[..0] == [] && a[..1] == [1] && a[..2] == [1, 2] && a[..3] == a;
    assert b[..0] == [] && b[..1] == [1] && b[..2] == [1, 2] && b[..3] == b;
  }

  /**
    In a session that reaches state 2 one side is active and the other passive, unless Local takes
    itself for directly reachable on port 0; and both use one transport exactly when Remote's
    setting is one of the known names.
  */
  lemma Complementary(p: Setting, run: seq<Event>, s: State)
    requires Reached(p, run, s) && 2 in s.history
    ensures s.localEnd.Some? && s.remoteEnd.Some?
    ensures s.localEnd.value.role.Passive? <==> Nat4(p.local)
    ensures s.localEnd.value.role != s.remoteEnd.value.role <==> p.local != NO_ADDR
    ensures s.localEnd.value.transport == s.remoteEnd.value.transport <==> KnownTransport(p.transport)
    ensures KnownTransport(s.localEnd.value.transport)
  {
    EveryRun(p, run);
    assert s.history[0] == 1;
    SameTransport(p.transport);
  }

  /** With a symmetric NAT at both ends, nobody calls Start and nobody gets to state 2. */
  lemma NoHopelessStart(p: Setting, run: seq<Event>, s: State)
    requires Reached(p, run, s) && BothNat4(p)
    ensures s.localEnd.Some? ==> !s.localEnd.value.started
    ensures s.remoteEnd.Some? ==> !s.remoteEnd.value.started
    ensures 2 !in s.history
  {
    EveryRun(p, run);
  }

  /** An expired record ends whoever reads it next. */
  lemma ExpiryEnds(p: Setting, s: State, ok: bool, tunnel: bool)
    ensures var t := Next(p, s, ExpireRecord);
            t.history == s.history
            && (s.local.Polling? ==> Enabled(p, t, LocalRead(ok, tunnel)) && Next(p, t, LocalRead(ok, tunnel)).local.Gone?)
            && (s.remote.Watching? ==> Enabled(p, t, RemoteRead(ok)) && Next(p, t, RemoteRead(ok)).remote.Over?)
    ensures s.remote.Scanning? ==> !Enabled(p, Next(p, s, ExpireRegistration), Claim)
  {
  }

  /** A lost write leaves the record and its history as they were, and the writer goes on as after any other. */
  lemma LostWrites(p: Setting, s: State, lost: Event, kept: Event)
    requires Enabled(p, s, lost)
    requires (lost, kept) in {(Set1(false), Set1(true)), (Set2(false), Set2(true)), (SetMismatch(false), SetMismatch(true)),
                              (SetOutcome(false), SetOutcome(true)), (Delete(false), Delete(true))}
    ensures Enabled(p, s, kept) && Next(p, s, lost).rec == s.rec && Next(p, s, lost).history == s.history
    ensures Next(p, s, lost).local == Next(p, s, kept).local && Next(p, s, lost).remote == Next(p, s, kept).remote
  {
  }

  /** A registration can be claimed once. */
  lemma ClaimedOnce(p: Setting, run: seq<Event>, s: State)
    requires Reached(p, run, s) && Enabled(p, s, Claim)
    ensures Next(p, s, Claim).reg.None? && Next(p, s, Claim).remote == Claimed(Registration(p))
    ensures Registration(p).state == 0 && Registration(p).localAddr == if p.local.wan1 == p.local.wan2 then p.local else NO_ADDR
  {
    EveryRun(p, run);
  }

  /** When Local gives up its registration, or finds versions that do not agree, it leaves no record behind. */
  lemma LocalCleansUp(p: Setting, run: seq<Event>, s: State, tunnel: bool)
    requires Reached(p, run, s)
    ensures s.local.AwaitingClaim? ==>
              var t := Next(p, s, GiveUpClaim);
              Enabled(p, t, Unregister(true))
              && Next(p, t, Unregister(true)).reg.None? && Next(p, t, Unregister(true)).local.Gone?
    ensures s.local.Polling? && s.rec.Some? && s.history == [-1] ==>
              var t := Next(p, s, LocalRead(true, tunnel));
              Enabled(p, t, Delete(true))
              && Next(p, t, Delete(true)).rec.None? && Next(p, t, Delete(true)).local.Gone?
    ensures s.local.AtState1? && (!p.localSees || BothNat4(p)) ==>
              var t := Next(p, s, Prepare);
              Enabled(p, t, Delete(true))
              && Next(p, t, Delete(true)).rec.None? && Next(p, t, Delete(true)).local.Gone?
  {
    EveryRun(p, run);
    hide LocalEndInv, RemoteEndInv, RemoteInv;
  }

  /** What has to hold for a session to be able to succeed at all. */
  predicate CanMeet(p: Setting) {
    p.remote.Some? && p.remoteSees && p.localSees && !BothNat4(p)
  }

  lemma Snoc(p: Setting, run: seq<Event>, s: State, e: Event) returns (run': seq<Event>, s': State)
    requires Reached(p, run, s) && Enabled(p, s, e)
    ensures s' == Next(p, s, e) && Reached(p, run', s')
  {
    run', s' := run + [e], Next(p, s, e);
    assert run'[..|run|] == run;
  }

  lemma MeetFirst(p: Setting) returns (run: seq<Event>, s: State)
    requires p.remote.Some? && p.remoteSees
    ensures Reached(p, run, s) && s.local.AtState1? && s.remote.Watching?
  {
    hide Reached;
    run, s := Start(p);
    run, s := Snoc(p, run, s, Register(true, true));
    run, s := Snoc(p, run, s, Claim);
    run, s := Snoc(p, run, s, Answer);
    run, s := Snoc(p, run, s, Set1(true));
    run, s := Snoc(p, run, s, SeeClaim);
    run, s := Snoc(p, run, s, LocalRead(true, true));
  }

  lemma Start(p: Setting) returns (run: seq<Event>, s: State)
    ensures Reached(p, run, s) && s == INIT
  {
    run, s := [], INIT;
  }

  lemma MeetSecond(p: Setting, run: seq<Event>, s: State) returns (run': seq<Event>, s': State)
    requires CanMeet(p) && Reached(p, run, s) && s.local.AtState1? && s.remote.Watching?
    ensures Reached(p, run', s') && s'.local.Returned? && s'.remote.Connected?
  {
    EveryRun(p, run);
    assert Inv(p, s);
    hide Reached;
    run', s' := Snoc(p, run, s, Prepare);
    run', s' := Snoc(p, run', s', Set2(true));
    run', s' := Snoc(p, run', s', RemoteRead(true));
    run', s' := Snoc(p, run', s', StartTunnel);
    run', s' := Snoc(p, run', s', Outcome(true, true));
    run', s' := Snoc(p, run', s', SetOutcome(true));
    run', s' := Snoc(p, run', s', LocalRead(true, true));
  }

  /** Some run gives both a tunnel exactly when the versions agree, Remote has an address and one NAT is not symmetric. */
  lemma CanSucceed(p: Setting)
    ensures CanMeet(p) <==> exists run, s :: Reached(p, run, s) && s.local.Returned? && s.remote.Connected?
  {
    if CanMeet(p) {
      var run, s := MeetFirst(p);
      run, s := MeetSecond(p, run, s);
    }
    forall run, s | Reached(p, run, s) && s.local.Returned? ensures CanMeet(p) {
      TunnelAfterSuccess(p, run, s);
      EveryRun(p, run);
    }
  }

  // ---- Local's attempts ----

  const MAX_ATTEMPTS := 15

  /** How one round of RunLocal ends: no address, an error of the session, no tunnel, or a tunnel that later broke. */
  datatype Attempt = NoAddress | SessionError | NoTunnel | Tunnel

  datatype RunEnd = StoppedBy(e: Attempt) | GaveUp | Going

  /** The last fifteen of the first `n` attempts all gave no tunnel. */
  predicate Exhausted(attempts: seq<Attempt>, n: nat)
    requires n <= |attempts|
  {
    n >= MAX_ATTEMPTS && forall k :: n - MAX_ATTEMPTS <= k < n ==> attempts[k].NoTunnel?
  }

  predicate EndsRun(a: Attempt) {
    a.NoAddress? || a.SessionError?
  }

  /**
    RunLocal gives up after the first fifteen attempts in a row without a tunnel, and stops at the first
    error; a tunnel starts the count again.
  */
  method RunLocal(attempts: seq<Attempt>) returns (r: RunEnd, n: nat)
    ensures n <= |attempts|
    ensures forall k :: 0 <= k < n && (k < n - 1 || !r.StoppedBy?) ==> !EndsRun(attempts[k])
    ensures forall k :: 0 <= k < n ==> !Exhausted(attempts, k)
    ensures match r
            case GaveUp => Exhausted(attempts, n)
            case StoppedBy(e) => n > 0 && attempts[n - 1] == e && EndsRun(e)
            case Going => n == |attempts| && !Exhausted(attempts, n)
  {
    var count: nat := 0;
    n := 0;
    while n < |attempts|
      invariant count <= n <= |attempts| && count < MAX_ATTEMPTS
      invariant forall k :: n - count <= k < n ==> attempts[k].NoTunnel?
      invariant count < n ==> !attempts[n - count - 1].NoTunnel?
      invariant forall k :: 0 <= k < n ==> !EndsRun(attempts[k])
      invariant forall k :: 0 <= k <= n ==> !Exhausted(attempts, k)
    {
      var a := attempts[n];
      n := n + 1;
      if a.NoAddress? {
        return StoppedBy(a), n;
      }
      count := count + 1;
      if a.SessionError? {
        return StoppedBy(a), n;
      }
      if a.NoTunnel? {
        if count >= MAX_ATTEMPTS {
          return GaveUp, n;
        }
      } else {
        count := 0;
      }
    }
    r := Going;
  }
}
