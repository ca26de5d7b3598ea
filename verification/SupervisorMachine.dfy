/**
  Every interleaving of starts, stops, process exits, waiters and automatic restarts of one service.
  A step is one region under procMu, taking or releasing startMu, the start or end of a process, or
  a kill. `startMu` is held by at most one start at a time.
*/
module SupervisorMachine {
  import opened Base
  import opened Supervisor

  /** A waiter goroutine: it waits for its own process only. */
  datatype Waiter = Waiter(pid: Pid, gen: nat)

  /** Why a start runs: a user asked, or the process `of` ended abnormally. */
  datatype Cause = User | Auto(of: Pid)

  /** How far the start that holds startMu has got. */
  datatype Start =
    | Nobody
    | Checking(why: Cause)
    | Arming                             // HandleStart, after its checks
    | Spawning(why: Cause)
    | Registering(why: Cause, pid: Pid)  // the process runs, procMu not taken yet
    | Launching(w: Waiter)               // registered, its waiter not started yet
    | Cleaning

  /** A stop on its way: autoRestart is still to be cleared, or only the process to be stopped. */
  datatype Stopper = Disarming | Stopping

  datatype State = State(
    e: Entry,
    start: Start,
    gens: map<Pid, nat>,             // every process ever started, with its generation; 0 until it is registered
    alive: set<Pid>,
    waiting: multiset<Waiter>,
    judging: multiset<Waiter>,       // cmd.Wait has returned
    pending: multiset<Pid>,          // in the 500 ms before an automatic restart
    stoppers: multiset<Stopper>,
    kills: multiset<Pid>,
    wipes: nat,                      // StopCmdProcess calls whose pid files are still to be removed
    waits: multiset<Pid>,            // history: cmd.Wait returned
    heirs: multiset<Pid>)            // history: an automatic successor was registered

  const INIT :=
    State(NEW_ENTRY, Nobody, map[], {}, multiset{}, multiset{}, multiset{}, multiset{}, multiset{}, 0, multiset{}, multiset{})

  datatype Event =
    | UserStarts
    | AutoStarts(of: Pid)
    | Check(refuse: bool)                // `refuse`: HandleStart may also fail for another reason
    | Arm
    | Spawn(pid: Pid, ok: bool)
    | Register
    | Launch
    | Clean
    | Exit(pid: Pid)
    | WaitReturns(w: Waiter)
    | Judge(w: Waiter)
    | StopAsked                          // HandleStop's check
    | StatusStop                         // a status line that ends the service
    | Disarm
    | StopIt
    | Kill(pid: Pid, works: bool)
    | StopEverything
    | WipePidFiles

  predicate Enabled(s: State, e: Event) {
    match e
    case UserStarts => s.start.Nobody?
    case AutoStarts(of) => s.start.Nobody? && of in s.pending
    case Check(_) => s.start.Checking?
    case Arm => s.start.Arming?
    case Spawn(pid, ok) => s.start.Spawning? && (ok ==> pid !in s.gens)
    case Register => s.start.Registering?
    case Launch => s.start.Launching?
    case Clean => s.start.Cleaning?
    case Exit(pid) => pid in s.alive
    case WaitReturns(w) => w in s.waiting && w.pid !in s.alive
    case Judge(w) => w in s.judging
    case StopAsked => true
    case StatusStop => true
    case Disarm => Disarming in s.stoppers
    case StopIt => Stopping in s.stoppers
    case Kill(pid, _) => pid in s.kills
    case StopEverything => true
    case WipePidFiles => s.wipes > 0
  }

  function Checked(s: State, refuse: bool): State
    requires s.start.Checking?
  {
    match s.start.why
    case User => s.(start := if s.e.started || refuse then Nobody else Arming)
    case Auto(of) => s.(start := if s.e.autoRestart && !s.e.started then Spawning(s.start.why) else Nobody)
  }

  function Spawned(s: State, pid: Pid, ok: bool): State
    requires s.start.Spawning?
  {
    if ok then s.(gens := s.gens[pid := 0], alive := s.alive + {pid}, start := Registering(s.start.why, pid))
    else s.(start := Cleaning)
  }

  function RegisteredNow(s: State): State
    requires s.start.Registering?
  {
    var pid, e := s.start.pid, Registered(s.e, s.start.pid);
    s.(e := e, gens := s.gens[pid := e.gen], start := Launching(Waiter(pid, e.gen)),
       heirs := s.heirs + UnderWay(s.start))
  }

  function WaitReturned(s: State, w: Waiter): State {
    s.(waiting := s.waiting - multiset{w}, judging := s.judging + multiset{w}, waits := s.waits + multiset{w.pid})
  }

  function JudgedNow(s: State, w: Waiter): State {
    var r := Judged(s.e, w.pid, w.gen);
    s.(e := r.0, judging := s.judging - multiset{w}, pending := if r.1 then s.pending + multiset{w.pid} else s.pending)
  }

  function StoppedNow(s: State): State {
    s.(e := Stopped(s.e), stoppers := s.stoppers - multiset{Stopping},
       kills := if s.e.cmd.Some? then s.kills + multiset{s.e.cmd.value} else s.kills)
  }

  function EverythingStopped(s: State): State {
    s.(e := StoppedAll(s.e), wipes := s.wipes + 1,
       kills := if s.e.cmd.Some? then s.kills + multiset{s.e.cmd.value} else s.kills)
  }

  function Next(s: State, e: Event): State
    requires Enabled(s, e)
  {
    match e
    case UserStarts => s.(start := Checking(User))
    case AutoStarts(of) => s.(start := Checking(Auto(of)), pending := s.pending - multiset{of})
    case Check(refuse) => Checked(s, refuse)
    case Arm => s.(e := s.e.(autoRestart := true), start := Spawning(User))
    case Spawn(pid, ok) => Spawned(s, pid, ok)
    case Register => RegisteredNow(s)
    case Launch => s.(waiting := s.waiting + multiset{s.start.w}, start := Nobody)
    case Clean => s.(e := StartFailed(s.e), start := Nobody)
    case Exit(pid) => s.(alive := s.alive - {pid})
    case WaitReturns(w) => WaitReturned(s, w)
    case Judge(w) => JudgedNow(s, w)
    case StopAsked => if s.e.started then s.(stoppers := s.stoppers + multiset{Disarming}) else s
    case StatusStop => s.(stoppers := s.stoppers + multiset{Disarming})
    case Disarm =>
      s.(e := s.e.(autoRestart := false), stoppers := s.stoppers - multiset{Disarming} + multiset{Stopping})
    case StopIt => StoppedNow(s)
    case Kill(pid, works) => s.(kills := s.kills - multiset{pid}, alive := if works then s.alive - {pid} else s.alive)
    case StopEverything => EverythingStopped(s)
    case WipePidFiles => s.(e := s.e.(pidFile := None), wipes := s.wipes - 1)
  }

  ghost function ExecFrom(s: State, run: seq<Event>): Option<State> {
    if run == [] then Some(s)
    else
      var t := ExecFrom(s, run[..|run| - 1]);
      if t.Some? && Enabled(t.value, run[|run| - 1]) then Some(Next(t.value, run[|run| - 1])) else None
  }

  ghost predicate Leads(s: State, run: seq<Event>, t: State) {
    ExecFrom(s, run) == Some(t)
  }

  // ---- What every reachable state satisfies, part by part ----

  /** The start that holds startMu has made sure that nothing runs. */
  predicate Cleared(start: Start) {
    start.Arming? || start.Spawning? || start.Registering? || start.Cleaning?
  }

  ghost predicate EntryInv(e: Entry, cleared: bool) {
    (e.started <==> e.cmd.Some?) && (cleared ==> !e.started)
  }

  /** A process's generation; 0 if it has none yet. */
  function Gen(gens: map<Pid, nat>, p: Pid): nat {
    if p in gens then gens[p] else 0
  }

  /** Every registered process has its own generation, the current one the latest. */
  ghost predicate GenInv(cmd: Option<Pid>, gen: nat, gens: map<Pid, nat>) {
    && (forall p :: Gen(gens, p) <= gen)
    && (forall p, q :: Gen(gens, p) == Gen(gens, q) && Gen(gens, p) > 0 ==> p == q)
    && (cmd.Some? ==> Gen(gens, cmd.value) == gen && gen > 0)
  }

  /** The waiters of the processes that are still to be waited for, started or about to be. */
  function Waiters(waiting: multiset<Waiter>, start: Start): multiset<Waiter> {
    waiting + if start.Launching? then multiset{start.w} else multiset{}
  }

  /** Once for each automatic restart of a process that is pending, under way or done. */
  function Due(pending: multiset<Pid>, start: Start, heirs: multiset<Pid>): multiset<Pid> {
    pending + heirs + UnderWay(start)
  }

  function UnderWay(start: Start): multiset<Pid> {
    if (start.Checking? || start.Spawning? || start.Registering?) && start.why.Auto? then multiset{start.why.of}
    else multiset{}
  }

  /** Every waiter knows its process's generation, and a registered process is waited for exactly once. */
  ghost predicate WaitInv(gens: map<Pid, nat>, waiters: multiset<Waiter>, judging: multiset<Waiter>, waits: multiset<Pid>) {
    && (forall w :: w in waiters || w in judging ==> w.gen == Gen(gens, w.pid) && w.gen > 0)
    && (forall p :: waiters[Waiter(p, Gen(gens, p))] + waits[p] == if Gen(gens, p) > 0 then 1 else 0)
  }

  /** A process is judged once, and has one automatic successor at most. */
  ghost predicate HeirInv(gens: map<Pid, nat>, judging: multiset<Waiter>, due: multiset<Pid>, waits: multiset<Pid>) {
    forall p :: judging[Waiter(p, Gen(gens, p))] + due[p] <= waits[p]
  }

  /** While the flag is up, the waiter of the current process has still to judge, and so to clear it. */
  ghost predicate FlagInv(cmd: Option<Pid>, gen: nat, waiters: multiset<Waiter>, judging: multiset<Waiter>) {
    cmd.Some? ==> Waiter(cmd.value, gen) in waiters + judging
  }

  ghost predicate NewProcess(start: Start, gens: map<Pid, nat>) {
    start.Registering? ==> Gen(gens, start.pid) == 0
  }

  ghost predicate Inv(s: State) {
    && EntryInv(s.e, Cleared(s.start))
    && NewProcess(s.start, s.gens)
    && GenInv(s.e.cmd, s.e.gen, s.gens)
    && WaitInv(s.gens, Waiters(s.waiting, s.start), s.judging, s.waits)
    && HeirInv(s.gens, s.judging, Due(s.pending, s.start, s.heirs), s.waits)
    && FlagInv(s.e.cmd, s.e.gen, Waiters(s.waiting, s.start), s.judging)
  }

  lemma QuietMove(s: State, t: State)
    requires Inv(s) && t.start == s.start && t.gens == s.gens && t.waiting == s.waiting && t.judging == s.judging
    requires t.pending == s.pending && t.waits == s.waits && t.heirs == s.heirs
    requires t.e.cmd == s.e.cmd && t.e.gen == s.e.gen && t.e.started == s.e.started
    ensures Inv(t)
  {
    hide GenInv, WaitInv, HeirInv, FlagInv, Due, Waiters, NewProcess;
  }

  /** A stop takes the process out of the entry. */
  lemma StopMove(s: State, t: State)
    requires Inv(s) && t.start == s.start && t.gens == s.gens && t.waiting == s.waiting && t.judging == s.judging
    requires t.pending == s.pending && t.waits == s.waits && t.heirs == s.heirs
    requires t.e.cmd.None? && t.e.gen == s.e.gen && !t.e.started
    ensures Inv(t)
  {
    hide GenInv, WaitInv, HeirInv, Due, Waiters, NewProcess;
    Uncurrent(s.e.cmd, s.e.gen, s.gens);
  }

  /** A restart that is given up is due no longer. */
  lemma HeirFewer(gens: map<Pid, nat>, judging: multiset<Waiter>, due: multiset<Pid>, due': multiset<Pid>, waits: multiset<Pid>)
    requires HeirInv(gens, judging, due, waits) && due' <= due
    ensures HeirInv(gens, judging, due', waits)
  {
  }

  lemma DueDrops(pending: multiset<Pid>, start: Start, start': Start, heirs: multiset<Pid>)
    requires UnderWay(start') <= UnderWay(start)
    ensures Due(pending, start', heirs) <= Due(pending, start, heirs)
  {
  }

  lemma StartMoves(s: State, e': Entry, start': Start)
    requires Inv(s) && UnderWay(start') <= UnderWay(s.start)
    requires e'.cmd == s.e.cmd && e'.gen == s.e.gen && EntryInv(e', Cleared(start'))
    requires !s.start.Launching? && !start'.Launching? && !start'.Registering?
    ensures Inv(s.(e := e', start := start'))
  {
    hide GenInv, WaitInv, HeirInv, FlagInv, Due;
    DueDrops(s.pending, s.start, start', s.heirs);
    HeirFewer(s.gens, s.judging, Due(s.pending, s.start, s.heirs), Due(s.pending, start', s.heirs), s.waits);
  }

  lemma UserStep(s: State)
    requires Inv(s) && Enabled(s, UserStarts)
    ensures Inv(Next(s, UserStarts))
  {
    hide GenInv, WaitInv, HeirInv, FlagInv, Waiters, Due;
    StartMoves(s, s.e, Checking(User));
  }

  lemma ArmStep(s: State)
    requires Inv(s) && Enabled(s, Arm)
    ensures Inv(Next(s, Arm))
  {
    hide GenInv, WaitInv, HeirInv, FlagInv, Waiters, Due;
    StartMoves(s, s.e.(autoRestart := true), Spawning(User));
  }

  lemma CleanStep(s: State)
    requires Inv(s) && Enabled(s, Clean)
    ensures Inv(Next(s, Clean))
  {
    hide GenInv, WaitInv, HeirInv, FlagInv, Waiters, Due;
    StartMoves(s, StartFailed(s.e), Nobody);
  }

  lemma SpawnFails(s: State, pid: Pid)
    requires Inv(s) && Enabled(s, Spawn(pid, false))
    ensures Inv(Next(s, Spawn(pid, false)))
  {
    hide GenInv, WaitInv, HeirInv, FlagInv, Waiters, Due;
    StartMoves(s, s.e, Cleaning);
  }

  lemma UserChecks(s: State, refuse: bool)
    requires Inv(s) && Enabled(s, Check(refuse)) && s.start.why.User?
    ensures Inv(Next(s, Check(refuse)))
  {
    hide GenInv, WaitInv, HeirInv, FlagInv, Waiters, Due;
    StartMoves(s, s.e, Checked(s, refuse).start);
  }

  lemma AutoChecks(s: State, refuse: bool)
    requires Inv(s) && Enabled(s, Check(refuse)) && s.start.why.Auto?
    ensures Inv(Next(s, Check(refuse)))
  {
    hide GenInv, WaitInv, HeirInv, FlagInv, Waiters, Due;
    StartMoves(s, s.e, Checked(s, refuse).start);
  }

  lemma Uncurrent(cmd: Option<Pid>, gen: nat, gens: map<Pid, nat>)
    requires GenInv(cmd, gen, gens)
    ensures GenInv(None, gen, gens)
  {
  }

  lemma AutoStep(s: State, of: Pid)
    requires Inv(s) && Enabled(s, AutoStarts(of))
    ensures Inv(Next(s, AutoStarts(of)))
  {
    hide GenInv, WaitInv, HeirInv, FlagInv;
    assert Due(s.pending - multiset{of}, Checking(Auto(of)), s.heirs) == Due(s.pending, s.start, s.heirs);
  }

  lemma SpawnStep(s: State, pid: Pid)
    requires Inv(s) && Enabled(s, Spawn(pid, true))
    ensures Inv(Next(s, Spawn(pid, true)))
  {
    hide GenInv, WaitInv, HeirInv, FlagInv, Due, Waiters;
    var gens, start := s.gens[pid := 0], Registering(s.start.why, pid);
    var waiters, due := Waiters(s.waiting, s.start), Due(s.pending, s.start, s.heirs);
    assert Due(s.pending, start, s.heirs) == due && Waiters(s.waiting, start) == waiters by {
      SameHands(s, start);
    }
    SameGens(s.gens, gens, s.e.cmd, s.e.gen, waiters, s.judging, s.waits, due);
  }

  lemma SameHands(s: State, start: Start)
    requires UnderWay(start) == UnderWay(s.start) && !start.Launching? && !s.start.Launching?
    ensures Due(s.pending, start, s.heirs) == Due(s.pending, s.start, s.heirs)
    ensures Waiters(s.waiting, start) == Waiters(s.waiting, s.start)
  {
  }

  lemma SameGens(gens: map<Pid, nat>, gens': map<Pid, nat>, cmd: Option<Pid>, gen: nat, waiters: multiset<Waiter>,
                 judging: multiset<Waiter>, waits: multiset<Pid>, due: multiset<Pid>)
    requires forall p :: Gen(gens', p) == Gen(gens, p)
    ensures GenInv(cmd, gen, gens) ==> GenInv(cmd, gen, gens')
    ensures WaitInv(gens, waiters, judging, waits) ==> WaitInv(gens', waiters, judging, waits)
    ensures HeirInv(gens, judging, due, waits) ==> HeirInv(gens', judging, due, waits)
  {
  }

  lemma NotWaited(gens: map<Pid, nat>, pid: Pid, waiters: multiset<Waiter>, judging: multiset<Waiter>, waits: multiset<Pid>)
    requires Gen(gens, pid) == 0 && WaitInv(gens, waiters, judging, waits)
    ensures waits[pid] == 0 && forall w :: w in waiters || w in judging ==> w.pid != pid
  {
  }

  /** A new process gets the next generation. */
  lemma RegisterGen(gens: map<Pid, nat>, pid: Pid, gen: nat, cmd: Option<Pid>)
    requires GenInv(cmd, gen, gens) && Gen(gens, pid) == 0
    ensures GenInv(Some(pid), gen + 1, gens[pid := gen + 1])
  {
    var gens' := gens[pid := gen + 1];
    assert forall p :: Gen(gens', p) == if p == pid then gen + 1 else Gen(gens, p);
  }

  /** And one waiter. */
  lemma RegisterWait(gens: map<Pid, nat>, pid: Pid, gen: nat, waiters: multiset<Waiter>, judging: multiset<Waiter>,
                     waits: multiset<Pid>)
    requires Gen(gens, pid) == 0 && WaitInv(gens, waiters, judging, waits)
    ensures WaitInv(gens[pid := gen + 1], waiters + multiset{Waiter(pid, gen + 1)}, judging, waits)
  {
    assert forall p :: Gen(gens[pid := gen + 1], p) == if p == pid then gen + 1 else Gen(gens, p);
    NotWaited(gens, pid, waiters, judging, waits);
  }

  lemma RegisterHeir(gens: map<Pid, nat>, pid: Pid, gen: nat, judging: multiset<Waiter>, due: multiset<Pid>,
                     waiters: multiset<Waiter>, waits: multiset<Pid>)
    requires Gen(gens, pid) == 0 && HeirInv(gens, judging, due, waits) && WaitInv(gens, waiters, judging, waits)
    ensures HeirInv(gens[pid := gen + 1], judging, due, waits)
  {
    var gens' := gens[pid := gen + 1];
    assert forall p :: Gen(gens', p) == if p == pid then gen + 1 else Gen(gens, p);
    assert forall w :: w in judging ==> w.pid != pid;
    assert Waiter(pid, gen + 1) !in judging;
  }

  lemma RegisterStep(s: State)
    requires Inv(s) && Enabled(s, Register)
    ensures Inv(Next(s, Register))
  {
    hide GenInv, WaitInv, HeirInv, Due;
    var due, t := Due(s.pending, s.start, s.heirs), Next(s, Register);
    assert Waiters(s.waiting, s.start) == s.waiting;
    RegisterGen(s.gens, s.start.pid, s.e.gen, s.e.cmd);
    RegisterWait(s.gens, s.start.pid, s.e.gen, s.waiting, s.judging, s.waits);
    RegisterHeir(s.gens, s.start.pid, s.e.gen, s.judging, due, s.waiting, s.waits);
    HeirRegistered(s.pending, s.start, s.heirs, t.start);
  }

  lemma HeirRegistered(pending: multiset<Pid>, start: Start, heirs: multiset<Pid>, start': Start)
    requires UnderWay(start') == multiset{}
    ensures Due(pending, start', heirs + UnderWay(start)) == Due(pending, start, heirs)
  {
  }

  lemma LaunchStep(s: State)
    requires Inv(s) && Enabled(s, Launch)
    ensures Inv(Next(s, Launch))
  {
    hide GenInv, WaitInv, HeirInv, FlagInv;
    assert Waiters(s.waiting + multiset{s.start.w}, Nobody) == Waiters(s.waiting, s.start);
  }

  lemma WaitMoves(gens: map<Pid, nat>, w: Waiter, waiters: multiset<Waiter>, judging: multiset<Waiter>,
                  waits: multiset<Pid>, due: multiset<Pid>)
    requires WaitInv(gens, waiters, judging, waits) && HeirInv(gens, judging, due, waits) && w in waiters
    ensures WaitInv(gens, waiters - multiset{w}, judging + multiset{w}, waits + multiset{w.pid})
    ensures HeirInv(gens, judging + multiset{w}, due, waits + multiset{w.pid})
  {
  }

  lemma WaitStep(s: State, w: Waiter)
    requires Inv(s) && Enabled(s, WaitReturns(w))
    ensures Inv(Next(s, WaitReturns(w)))
  {
    hide GenInv, WaitInv, HeirInv, Due, Waiters, NewProcess;
    var all, due := Waiters(s.waiting, s.start), Due(s.pending, s.start, s.heirs);
    FewerWaiters(s.waiting, w, s.start);
    WaitMoves(s.gens, w, all, s.judging, s.waits, due);
  }

  lemma FewerWaiters(waiting: multiset<Waiter>, w: Waiter, start: Start)
    requires w in waiting
    ensures w in Waiters(waiting, start)
    ensures Waiters(waiting - multiset{w}, start) == Waiters(waiting, start) - multiset{w}
  {
  }

  lemma JudgeParts(s: State, w: Waiter)
    requires Inv(s) && Enabled(s, Judge(w))
    ensures w.gen == Gen(s.gens, w.pid) && w.gen > 0
    ensures WaitInv(s.gens, Waiters(s.waiting, s.start), s.judging - multiset{w}, s.waits)
    ensures s.e.cmd.Some? && s.e.gen == w.gen ==> s.e.cmd == Some(w.pid)
  {
  }

  lemma JudgeHeir(gens: map<Pid, nat>, w: Waiter, judging: multiset<Waiter>, due: multiset<Pid>, waits: multiset<Pid>)
    requires HeirInv(gens, judging, due, waits) && w in judging && w.gen == Gen(gens, w.pid)
    ensures HeirInv(gens, judging - multiset{w}, due, waits)
    ensures HeirInv(gens, judging - multiset{w}, due + multiset{w.pid}, waits)
  {
  }

  lemma JudgeStep(s: State, w: Waiter)
    requires Inv(s) && Enabled(s, Judge(w))
    ensures Inv(Next(s, Judge(w)))
  {
    JudgeParts(s, w);
    hide GenInv, WaitInv, HeirInv, Due, Waiters;
    var due := Due(s.pending, s.start, s.heirs);
    JudgeHeir(s.gens, w, s.judging, due, s.waits);
    Uncurrent(s.e.cmd, s.e.gen, s.gens);
    assert Due(s.pending + multiset{w.pid}, s.start, s.heirs) == due + multiset{w.pid} by {
      OneMoreDue(s, w.pid);
    }
    OthersFlag(s.e.cmd, s.e.gen, Waiters(s.waiting, s.start), s.judging, w);
    hide FlagInv;
  }

  lemma OneMoreDue(s: State, p: Pid)
    ensures Due(s.pending + multiset{p}, s.start, s.heirs) == Due(s.pending, s.start, s.heirs) + multiset{p}
  {
  }

  lemma OthersFlag(cmd: Option<Pid>, gen: nat, waiters: multiset<Waiter>, judging: multiset<Waiter>, w: Waiter)
    requires FlagInv(cmd, gen, waiters, judging)
    ensures w.gen != gen || cmd != Some(w.pid) ==> FlagInv(cmd, gen, waiters, judging - multiset{w})
    ensures FlagInv(None, gen, waiters, judging - multiset{w})
  {
  }

  lemma QuietSteps(s: State, e: Event)
    requires Inv(s) && Enabled(s, e)
    requires e.StopAsked? || e.StatusStop? || e.Disarm? || e.WipePidFiles? || e.Exit? || e.Kill?
    ensures Inv(Next(s, e))
  {
    hide Inv;
    QuietMove(s, Next(s, e));
  }

  lemma StopSteps(s: State, e: Event)
    requires Inv(s) && Enabled(s, e) && (e.StopIt? || e.StopEverything?)
    ensures Inv(Next(s, e))
  {
    hide Inv;
    StopMove(s, Next(s, e));
  }

  lemma InvStep(s: State, e: Event)
    requires Inv(s) && Enabled(s, e)
    ensures Inv(Next(s, e))
  {
    hide Inv, Next;
    match e
    case AutoStarts(of) => AutoStep(s, of);
    case Check(refuse) => if s.start.why.User? { UserChecks(s, refuse); } else { AutoChecks(s, refuse); }
    case Register => RegisterStep(s);
    case Launch => LaunchStep(s);
    case WaitReturns(w) => WaitStep(s, w);
    case Judge(w) => JudgeStep(s, w);
    case Spawn(pid, ok) => if ok { SpawnStep(s, pid); } else { SpawnFails(s, pid); }
    case UserStarts => UserStep(s);
    case Arm => ArmStep(s);
    case Clean => CleanStep(s);
    case StopIt => StopSteps(s, e);
    case StopEverything => StopSteps(s, e);
    case _ => QuietSteps(s, e);
  }

  lemma {:induction false} EveryRun(s: State, run: seq<Event>, t: State)
    requires Inv(s) && Leads(s, run, t)
    ensures Inv(t)
  {
    hide Inv, Enabled, Next;
    if run != [] {
      var last := |run| - 1;
      var mid := ExecFrom(s, run[..last]).value;
      EveryRun(s, run[..last], mid);
      InvStep(mid, run[last]);
    }
  }

  lemma InvInit()
    ensures Inv(INIT)
  {
  }

  // ---- Consequences ----

  lemma FromInit(run: seq<Event>, s: State)
    requires Leads(INIT, run, s)
    ensures Inv(s)
  {
    InvInit();
    EveryRun(INIT, run, s);
  }

  /** The flag tells the truth about `cmd`, and a start never replaces a process that was not stopped. */
  lemma NeverOverwrites(run: seq<Event>, s: State)
    requires Leads(INIT, run, s)
    ensures s.e.started <==> s.e.cmd.Some?
    ensures s.start.Registering? ==> s.e.cmd.None? && !s.e.started
  {
    FromInit(run, s);
  }

  /** A waiter of an older generation changes nothing; the waiter of the current one leaves nothing started. */
  lemma OnlyOwnGeneration(run: seq<Event>, s: State, w: Waiter)
    requires Leads(INIT, run, s) && Enabled(s, Judge(w))
    ensures w.gen <= s.e.gen
    ensures w.gen < s.e.gen ==> Next(s, Judge(w)) == s.(judging := s.judging - multiset{w})
    ensures w.gen == s.e.gen ==> !Next(s, Judge(w)).e.started && Next(s, Judge(w)).e.cmd.None?
    ensures s.e.cmd == Some(w.pid) <==> s.e.cmd.Some? && w.gen == s.e.gen
  {
    FromInit(run, s);
  }

  /** Every process is waited for once, and has at most one automatic successor, after it has ended. */
  lemma WaitedOnce(run: seq<Event>, s: State, p: Pid)
    requires Leads(INIT, run, s)
    ensures s.waits[p] <= 1
    ensures s.heirs[p] + s.pending[p] <= s.waits[p]
    ensures Gen(s.gens, p) > 0 && s.waits[p] == 0 ==> Waiter(p, Gen(s.gens, p)) in Waiters(s.waiting, s.start)
  {
    FromInit(run, s);
  }

  /** A flag that is up will come down again: the waiter that clears it has not judged yet. */
  lemma FlagComesDown(run: seq<Event>, s: State)
    requires Leads(INIT, run, s) && s.e.cmd.Some?
    ensures var w := Waiter(s.e.cmd.value, s.e.gen);
            (w in s.judging ==> !Next(s, Judge(w)).e.started) && w in Waiters(s.waiting, s.start) + s.judging
  {
    FromInit(run, s);
  }

  lemma PidJudge(s: State, w: Waiter)
    requires Inv(s) && Enabled(s, Judge(w)) && s.e.pidFile == s.e.cmd
    ensures var t := JudgedNow(s, w); t.e.pidFile == t.e.cmd
  {
    JudgeParts(s, w);
  }

  lemma PidStep(s: State, e: Event)
    requires Inv(s) && Enabled(s, e) && s.e.pidFile == s.e.cmd && s.wipes == 0 && !e.StopEverything?
    ensures Next(s, e).e.pidFile == Next(s, e).e.cmd && Next(s, e).wipes == 0
  {
    hide Inv, Judged;
    if e.Judge? {
      PidJudge(s, e.w);
    }
  }

  /** A pid file that is right stays right until StopCmdProcess is called. */
  lemma {:induction false} PidStaysExact(s: State, run: seq<Event>, t: State)
    requires Inv(s) && s.e.pidFile == s.e.cmd && s.wipes == 0
    requires Leads(s, run, t) && StopEverything !in run
    ensures t.e.pidFile == t.e.cmd && t.wipes == 0
  {
    hide Inv, Enabled, Next;
    if run != [] {
      var last := |run| - 1;
      var mid := ExecFrom(s, run[..last]).value;
      PidStaysExact(s, run[..last], mid);
      EveryRun(s, run[..last], mid);
      PidStep(mid, run[last]);
    }
  }

  /** Until StopCmdProcess is called, there is a pid file exactly while a process is current, and it names that one. */
  lemma PidFileExact(run: seq<Event>, s: State)
    requires Leads(INIT, run, s) && StopEverything !in run
    ensures s.e.pidFile == s.e.cmd && s.wipes == 0
  {
    InvInit();
    hide Inv;
    PidStaysExact(INIT, run, s);
  }

  lemma StaysStoppedStep(s: State, e: Event)
    requires s.e.cmd.None? && Enabled(s, e) && !e.Register?
    ensures Next(s, e).e.cmd.None?
  {
  }

  /** Only a registration makes a process current. */
  lemma {:induction false} StaysStopped(s: State, run: seq<Event>, t: State)
    requires s.e.cmd.None? && Leads(s, run, t) && Register !in run
    ensures t.e.cmd.None?
  {
    hide Enabled, Next;
    if run != [] {
      var last := |run| - 1;
      var mid := ExecFrom(s, run[..last]).value;
      StaysStopped(s, run[..last], mid);
      StaysStoppedStep(mid, run[last]);
    }
  }

  lemma {:induction false} WipesKept(s: State, run: seq<Event>, t: State)
    requires Leads(s, run, t) && StopEverything !in run && WipePidFiles !in run
    ensures t.wipes == s.wipes
  {
    hide Enabled, Next;
    if run != [] {
      var last := |run| - 1;
      var mid := ExecFrom(s, run[..last]).value;
      WipesKept(s, run[..last], mid);
      WipesKeptStep(mid, run[last]);
    }
  }

  lemma WipesKeptStep(s: State, e: Event)
    requires Enabled(s, e) && !e.StopEverything? && !e.WipePidFiles?
    ensures Next(s, e).wipes == s.wipes
  {
  }

  lemma FlagTrue(s: State)
    requires Inv(s)
    ensures s.e.started <==> s.e.cmd.Some?
  {
  }

  /**
    One StopCmdProcess, from its first region through `mid` to the removal of the pid files and on through
    `post`: right after the removal the pid file is right exactly if nothing is started at that moment, as
    it is when nothing was registered in between; and from then on it stays right.
  */
  lemma PidFileAfterStop(s: State, mid: seq<Event>, t: State, post: seq<Event>, u: State)
    requires Inv(s) && s.e.pidFile == s.e.cmd && s.wipes == 0
    requires Leads(Next(s, StopEverything), mid, t) && StopEverything !in mid && WipePidFiles !in mid
    requires Enabled(t, WipePidFiles) && Leads(Next(t, WipePidFiles), post, u) && StopEverything !in post
    ensures Next(t, WipePidFiles).e.pidFile == Next(t, WipePidFiles).e.cmd <==> !t.e.started
    ensures Register !in mid ==> !t.e.started
    ensures !t.e.started ==> u.e.pidFile == u.e.cmd
  {
    hide Inv, Leads;
    var first := Next(s, StopEverything);
    InvStep(s, StopEverything);
    EveryRun(first, mid, t);
    InvStep(t, WipePidFiles);
    WipesKept(first, mid, t);
    FlagTrue(t);
    if Register !in mid {
      StaysStopped(first, mid, t);
    }
    if !t.e.started {
      PidStaysExact(Next(t, WipePidFiles), post, u);
    }
  }

  // ---- Stopping and automatic restarts ----

  /** An automatic start that is past its check. */
  predicate PastCheck(start: Start) {
    (start.Spawning? || start.Registering?) && start.why.Auto?
  }

  /** Nothing may restart by itself: the flag is down, and no automatic start is past its check. */
  predicate Disarmed(s: State) {
    !s.e.autoRestart && !PastCheck(s.start)
  }

  lemma DisarmedStart(s: State, e: Event)
    requires Disarmed(s) && Enabled(s, e)
    requires e.UserStarts? || e.AutoStarts? || e.Check? || e.Spawn? || e.Register? || e.Launch? || e.Clean?
    ensures Disarmed(Next(s, e)) && Next(s, e).heirs == s.heirs
  {
  }

  lemma DisarmedOther(s: State, e: Event)
    requires Disarmed(s) && Enabled(s, e)
    requires e.Exit? || e.WaitReturns? || e.Judge? || e.StopAsked? || e.StatusStop? || e.Disarm? || e.StopIt? || e.Kill?
             || e.StopEverything? || e.WipePidFiles?
    ensures Disarmed(Next(s, e)) && Next(s, e).heirs == s.heirs
  {
    hide PastCheck;
  }

  lemma DisarmedStep(s: State, e: Event)
    requires Disarmed(s) && Enabled(s, e) && !e.Arm?
    ensures Disarmed(Next(s, e)) && Next(s, e).heirs == s.heirs
  {
    hide Disarmed, Next;
    if e.UserStarts? || e.AutoStarts? || e.Check? || e.Spawn? || e.Register? || e.Launch? || e.Clean? {
      DisarmedStart(s, e);
    } else {
      DisarmedOther(s, e);
    }
  }

  /** Once disarmed, and until the user starts the service again, there is no automatic successor. */
  lemma {:induction false} DisarmedStaysDown(s: State, run: seq<Event>, t: State)
    requires Disarmed(s) && Leads(s, run, t) && Arm !in run
    ensures Disarmed(t) && t.heirs == s.heirs
  {
    hide Enabled, Next, Disarmed;
    if run != [] {
      var last := |run| - 1;
      var mid := ExecFrom(s, run[..last]).value;
      DisarmedStaysDown(s, run[..last], mid);
      DisarmedStep(mid, run[last]);
    }
  }

  /** A process number larger than all of these. */
  lemma {:induction false} Above(pids: set<Pid>) returns (top: Pid)
    ensures forall p :: p in pids ==> p < top
    decreases |pids|
  {
    top := 0;
    if pids != {} {
      var p :| p in pids;
      var below := Above(pids - {p});
      top := if p < below then below else p + 1;
      assert forall q :: q in pids ==> q == p || q in pids - {p};
    }
  }

  lemma Extend(s: State, run: seq<Event>, t: State, e: Event) returns (run': seq<Event>, t': State)
    requires Leads(s, run, t) && Enabled(t, e)
    ensures run' == run + [e] && t' == Next(t, e) && Leads(s, run', t')
  {
    run', t' := run + [e], Next(t, e);
    assert run'[..|run|] == run;
  }

  lemma Nowhere(s: State)
    ensures Leads(s, [], s)
  {
  }

  /** From here some run without a new start by the user gives the service an automatic successor. */
  ghost predicate MayRestart(s: State) {
    exists run, t :: Leads(s, run, t) && Arm !in run && t.heirs != s.heirs
  }

  /** An automatic start past its check can always be finished. */
  lemma PastCheckFinishes(s: State, run: seq<Event>, t: State)
    requires Leads(s, run, t) && Arm !in run && t.heirs == s.heirs && PastCheck(t.start)
    ensures MayRestart(s)
  {
    hide Leads;
    var run', t' := run, t;
    if t'.start.Spawning? {
      var pid := Above(t'.gens.Keys);
      run', t' := Extend(s, run', t', Spawn(pid, true));
    }
    var of := t'.start.why.of;
    run', t' := Extend(s, run', t', Register);
    assert t'.heirs[of] == s.heirs[of] + 1;
  }

  /** A restart that is pending or at its check goes ahead while autoRestart is up and nothing is started. */
  lemma CheckPasses(s: State, run: seq<Event>, t: State)
    requires Leads(s, run, t) && Arm !in run && t.heirs == s.heirs && t.e.autoRestart && !t.e.started
    requires (t.start.Checking? && t.start.why.Auto?) || (t.start.Nobody? && t.pending != multiset{})
    ensures MayRestart(s)
  {
    hide Leads, MayRestart;
    var run', t' := run, t;
    if t'.start.Nobody? {
      var of :| of in t'.pending;
      run', t' := Extend(s, run', t', AutoStarts(of));
    }
    run', t' := Extend(s, run', t', Check(false));
    PastCheckFinishes(s, run', t');
  }

  /** The current process may crash, and is then restarted. */
  lemma CrashRestarts(s: State, run: seq<Event>, t: State, w: Waiter)
    requires Leads(s, run, t) && Arm !in run && t.heirs == s.heirs && t.e.autoRestart && t.e.started
    requires t.start.Nobody? && w in t.waiting && w.gen == t.e.gen
    ensures MayRestart(s)
  {
    hide Leads, MayRestart;
    var run', t' := run, t;
    if w.pid in t'.alive {
      run', t' := Extend(s, run', t', Exit(w.pid));
    }
    run', t' := Extend(s, run', t', WaitReturns(w));
    run', t' := Extend(s, run', t', Judge(w));
    assert w.pid in t'.pending;
    CheckPasses(s, run', t');
  }

  /** A start by the user that is past its check is registered first. */
  lemma UserStartRestarts(s: State, run: seq<Event>, t: State)
    requires Leads(s, run, t) && Arm !in run && t.heirs == s.heirs && t.e.autoRestart
    requires t.start.Registering? && t.start.why.User?
    ensures MayRestart(s)
  {
    hide Leads, MayRestart;
    var run', t' := Extend(s, run, t, Register);
    var w := t'.start.w;
    run', t' := Extend(s, run', t', Launch);
    CrashRestarts(s, run', t', w);
  }

  /** What it takes, with nothing started, for an automatic successor to come without the user. */
  predicate RestartLooms(s: State) {
    PastCheck(s.start)
    || (s.e.autoRestart
        && match s.start
           case Nobody => s.pending != multiset{}
           case Launching(_) => s.pending != multiset{}
           case Checking(why) => why.Auto? || s.pending != multiset{}
           case Spawning(_) => true
           case Registering(_, _) => true
           case Arming => false
           case Cleaning => false)
  }

  lemma LoomingRestarts(s: State)
    requires RestartLooms(s) && !s.e.started
    ensures MayRestart(s)
  {
    Nowhere(s);
    hide Leads, MayRestart;
    match s.start
    case Nobody => CheckPasses(s, [], s);
    case Launching(_) =>
      var run, t := Extend(s, [], s, Launch);
      CheckPasses(s, run, t);
    case Checking(why) =>
      if why.Auto? && s.e.autoRestart {
        CheckPasses(s, [], s);
      } else {
        var run, t := Extend(s, [], s, Check(true));
        CheckPasses(s, run, t);
      }
    case Registering(why, _) =>
      if why.Auto? {
        PastCheckFinishes(s, [], s);
      } else {
        UserStartRestarts(s, [], s);
      }
    case Spawning(why) =>
      if why.Auto? {
        PastCheckFinishes(s, [], s);
      } else {
        var pid := Above(s.gens.Keys);
        var run, t := Extend(s, [], s, Spawn(pid, true));
        UserStartRestarts(s, run, t);
      }
  }

  /** Nothing looms: the service is disarmed, or idle with no restart that could get past startMu. */
  predicate Calm(s: State) {
    !PastCheck(s.start) && (!s.e.autoRestart || (!s.e.started && !RestartLooms(s)))
  }

  lemma CalmStart(s: State, e: Event)
    requires Calm(s) && Enabled(s, e)
    requires e.UserStarts? || e.AutoStarts? || e.Check? || e.Launch? || e.Clean?
    ensures Calm(Next(s, e)) && Next(s, e).heirs == s.heirs
  {
  }

  lemma CalmSpawn(s: State, e: Event)
    requires Calm(s) && Enabled(s, e) && (e.Spawn? || e.Register?)
    ensures Calm(Next(s, e)) && Next(s, e).heirs == s.heirs
  {
  }

  lemma CalmJudge(s: State, w: Waiter)
    requires Calm(s) && Enabled(s, Judge(w))
    ensures Calm(Next(s, Judge(w))) && Next(s, Judge(w)).heirs == s.heirs
  {
  }

  lemma CalmOther(s: State, e: Event)
    requires Calm(s) && Enabled(s, e)
    requires e.Exit? || e.WaitReturns? || e.StopAsked? || e.StatusStop? || e.Disarm? || e.StopIt? || e.Kill?
             || e.StopEverything? || e.WipePidFiles?
    ensures Calm(Next(s, e)) && Next(s, e).heirs == s.heirs
  {
    hide RestartLooms;
    LoomsFewer(s, Next(s, e));
  }

  lemma LoomsFewer(s: State, t: State)
    requires t.start == s.start && t.pending == s.pending && (t.e.autoRestart ==> s.e.autoRestart)
    ensures RestartLooms(t) ==> RestartLooms(s)
  {
  }

  lemma CalmStep(s: State, e: Event)
    requires Calm(s) && Enabled(s, e) && !e.Arm?
    ensures Calm(Next(s, e)) && Next(s, e).heirs == s.heirs
  {
    hide Calm, Next;
    match e
    case Judge(w) => CalmJudge(s, w);
    case Spawn(_, _) => CalmSpawn(s, e);
    case Register => CalmSpawn(s, e);
    case UserStarts => CalmStart(s, e);
    case AutoStarts(_) => CalmStart(s, e);
    case Check(_) => CalmStart(s, e);
    case Launch => CalmStart(s, e);
    case Clean => CalmStart(s, e);
    case _ => CalmOther(s, e);
  }

  lemma {:induction false} CalmStays(s: State, run: seq<Event>, t: State)
    requires Calm(s) && Leads(s, run, t) && Arm !in run
    ensures Calm(t) && t.heirs == s.heirs
  {
    hide Enabled, Next, Calm;
    if run != [] {
      var last := |run| - 1;
      var mid := ExecFrom(s, run[..last]).value;
      CalmStays(s, run[..last], mid);
      CalmStep(mid, run[last]);
    }
  }

  // ---- What a stop achieves ----

  /** Nothing is started or restarts, and process `p` is to be killed; a kill that works ends it. */
  ghost predicate StoppedFor(s: State, p: Pid) {
    && !s.e.started && s.e.cmd.None? && !s.e.autoRestart
    && Enabled(s, Kill(p, true))
    && p !in Next(s, Kill(p, true)).alive && Next(s, Kill(p, true)).e == s.e
  }

  /** Whenever it comes, the region of stopServiceProcess stops whatever is current then. */
  lemma StopItWorks(s: State)
    requires Enabled(s, StopIt)
    ensures s.e.cmd.Some? ==> StoppedFor(Next(s, StopIt), s.e.cmd.value)
    ensures Next(s, StopIt).e == Entry(None, s.e.gen, false, false, None)
  {
  }

  /** From one event to the next this step of a stop stays on its way. */
  lemma OnItsWayStep(s: State, e: Event)
    requires Enabled(s, e)
    ensures e != Disarm && Disarming in s.stoppers ==> Disarming in Next(s, e).stoppers
    ensures e != StopIt && Stopping in s.stoppers ==> Stopping in Next(s, e).stoppers
  {
  }

  lemma {:induction false} OnItsWay(s: State, run: seq<Event>, t: State, e: Event)
    requires Leads(s, run, t) && e !in run && (e == Disarm || e == StopIt) && Enabled(s, e)
    ensures Enabled(t, e)
  {
    hide Next;
    if run != [] {
      var last := |run| - 1;
      var mid := ExecFrom(s, run[..last]).value;
      assert forall x :: x in run[..last] ==> x in run;
      OnItsWay(s, run[..last], mid, e);
      assert run[last] in run;
      OnItsWayStep(mid, run[last]);
    }
  }

  /** The first step of a stop is asked for by HandleStop when something is started, or by a status line. */
  predicate AsksToStop(s: State, e: Event) {
    (e == StopAsked && s.e.started) || e == StatusStop
  }

  /** Asking, disarming and stopping, one after the other, leave `p` to be killed and nothing started. */
  ghost predicate StopsFor(s: State, e: Event, p: Pid) {
    Enabled(s, e) && Enabled(Next(s, e), Disarm)
    && var b := Next(Next(s, e), Disarm);
    Enabled(b, StopIt) && StoppedFor(Next(b, StopIt), p)
  }

  /**
    HandleStop for a started service, or a status line that ends it, with no other stop on its way:
    undisturbed, its own steps leave nothing started, no restart to come, and the old process to be killed.
  */
  lemma StopWorks(run: seq<Event>, s: State, e: Event)
    requires Leads(INIT, run, s) && s.e.started && s.stoppers == multiset{} && AsksToStop(s, e)
    ensures s.e.cmd.Some? && StopsFor(s, e, s.e.cmd.value)
  {
    hide Inv, StoppedFor, Next, Leads;
    FromInit(run, s);
    FlagTrue(s);
    StopBegins(s, e);
    DisarmGoesOn(Next(s, e));
    StopItWorks(Next(Next(s, e), Disarm));
  }

  /** Whatever comes in between, the first step of such a stop stays possible until it is taken, and so does the second after it. */
  lemma StopNotLost(s: State, e: Event, more: seq<Event>, t: State, rest: seq<Event>, u: State)
    requires s.stoppers == multiset{} && AsksToStop(s, e) && Leads(Next(s, e), more, t) && Disarm !in more
    requires Enabled(t, Disarm) ==> Leads(Next(t, Disarm), rest, u) && StopIt !in rest
    ensures Enabled(t, Disarm) && !Next(t, Disarm).e.autoRestart && Enabled(u, StopIt)
    ensures Next(u, StopIt).e == Entry(None, u.e.gen, false, false, None) && (u.e.cmd.Some? ==> StoppedFor(Next(u, StopIt), u.e.cmd.value))
  {
    hide Next, Leads, StoppedFor;
    StopBegins(s, e);
    OnItsWay(Next(s, e), more, t, Disarm);
    DisarmGoesOn(t);
    OnItsWay(Next(t, Disarm), rest, u, StopIt);
    StopItWorks(u);
  }

  lemma StopBegins(s: State, e: Event)
    requires s.stoppers == multiset{} && AsksToStop(s, e)
    ensures Enabled(Next(s, e), Disarm) && Next(s, e).e == s.e
  {
  }

  lemma DisarmGoesOn(s: State)
    requires Enabled(s, Disarm)
    ensures !Next(s, Disarm).e.autoRestart && Enabled(Next(s, Disarm), StopIt) && Next(s, Disarm).e.cmd == s.e.cmd
  {
  }

  /** StopCmdProcess stops whatever is current, too. */
  lemma StopEverythingWorks(run: seq<Event>, s: State)
    requires Leads(INIT, run, s) && s.e.started
    ensures s.e.cmd.Some? && StoppedFor(Next(s, StopEverything), s.e.cmd.value)
  {
    hide Inv, Leads, StoppedFor, Next;
    FromInit(run, s);
    FlagTrue(s);
    AllStopped(s);
  }

  lemma AllStopped(s: State)
    requires s.e.cmd.Some?
    ensures StoppedFor(Next(s, StopEverything), s.e.cmd.value)
  {
  }

  /**
    A stop that was heard, at the moment it clears autoRestart: whatever happens then, the service has no
    automatic successor until the user starts it again, exactly if no automatic start is past its check.
  */
  lemma StopExact(s: State)
    requires Enabled(s, Disarm)
    ensures MayRestart(Next(s, Disarm)) <==> PastCheck(s.start)
  {
    var t := Next(s, Disarm);
    Nowhere(t);
    if PastCheck(s.start) {
      PastCheckFinishes(t, [], t);
    } else if MayRestart(t) {
      var run, u :| Leads(t, run, u) && Arm !in run && u.heirs != t.heirs;
      CalmStays(t, run, u);
      assert false;
    }
  }

  /**
    HandleStop goes unheard while nothing is marked as started: it changes nothing, and an automatic
    successor can then still come without the user exactly if one looms.
  */
  lemma UnheardStop(s: State)
    requires !s.e.started
    ensures Next(s, StopAsked) == s
    ensures MayRestart(Next(s, StopAsked)) <==> RestartLooms(s)
  {
    if RestartLooms(s) {
      LoomingRestarts(s);
    } else if MayRestart(s) {
      var run, t :| Leads(s, run, t) && Arm !in run && t.heirs != s.heirs;
      CalmStays(s, run, t);
      assert false;
    }
  }

  lemma Snoc(run: seq<Event>, s: State, e: Event) returns (run': seq<Event>, s': State)
    requires Leads(INIT, run, s) && Enabled(s, e)
    ensures run' == run + [e] && s' == Next(s, e) && Leads(INIT, run', s')
  {
    run', s' := run + [e], Next(s, e);
    assert run'[..|run|] == run;
  }

  lemma Crashed() returns (run: seq<Event>, s: State)
    ensures Leads(INIT, run, s) && s.pending == multiset{0} && s.start.Nobody? && s.gens == map[0 := 1]
    ensures s.heirs == multiset{} && s.stoppers == multiset{} && s.e == Entry(None, 1, false, true, None)
  {
    run, s := [], INIT;
    hide Leads;
    InitLeads();
    run, s := Snoc(run, s, UserStarts);
    run, s := Snoc(run, s, Check(false));
    run, s := Snoc(run, s, Arm);
    run, s := Snoc(run, s, Spawn(0, true));
    run, s := Snoc(run, s, Register);
    run, s := Snoc(run, s, Launch);
    run, s := CrashJudged(run, s);
  }

  lemma CrashJudged(run: seq<Event>, s: State) returns (run': seq<Event>, s': State)
    requires Leads(INIT, run, s) && s.waiting == multiset{Waiter(0, 1)} && s.judging == multiset{} && s.start.Nobody?
    requires s.e == Entry(Some(0), 1, true, true, Some(0)) && s.gens == map[0 := 1] && s.alive == {0}
    requires s.pending == multiset{} && s.heirs == multiset{} && s.stoppers == multiset{}
    ensures Leads(INIT, run', s') && s'.pending == multiset{0} && s'.start.Nobody? && s'.gens == s.gens
    ensures s'.heirs == multiset{} && s'.stoppers == multiset{} && s'.e == Entry(None, 1, false, true, None)
  {
    hide Leads;
    run', s' := Snoc(run, s, Exit(0));
    run', s' := Snoc(run', s', WaitReturns(Waiter(0, 1)));
    run', s' := Snoc(run', s', Judge(Waiter(0, 1)));
  }

  lemma InitLeads()
    ensures Leads(INIT, [], INIT)
  {
  }

  /** In the half second before an automatic restart HandleStop goes unheard, and the service comes back. */
  lemma StopLostInWindow() returns (run: seq<Event>, s: State, run': seq<Event>, s': State)
    ensures Leads(INIT, run, s) && Next(s, StopAsked) == s && s.pending == multiset{0}
    ensures Leads(INIT, run', s') && run < run' && run'[|run|] == StopAsked
    ensures s'.e.started && s'.heirs == multiset{0} && s'.stoppers == multiset{}
  {
    run, s := Crashed();
    hide Leads;
    run', s' := Snoc(run, s, StopAsked);
    var r1, s1 := Snoc(run', s', AutoStarts(0));
    var r2, s2 := Snoc(r1, s1, Check(false));
    var r3, s3 := Snoc(r2, s2, Spawn(1, true));
    run', s' := Snoc(r3, s3, Register);
  }
}
