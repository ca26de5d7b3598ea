/**
  ui2/start.go: one child process per service. The functions are what happens to a service's entry
  and its pid file inside one region under procMu; the class applies them to the table of services.
*/
module Supervisor {
  import opened Base

  type Id = string
  type Pid = nat

  datatype Entry = Entry(cmd: Option<Pid>, gen: nat, started: bool, autoRestart: bool, pidFile: Option<Pid>)

  const NEW_ENTRY := Entry(None, 0, false, false, None)

  /** The region of startCmdProcess: a new generation, with its pid file. */
  function Registered(e: Entry, pid: Pid): Entry {
    Entry(Some(pid), e.gen + 1, true, e.autoRestart, Some(pid))
  }

  /** The region of stopServiceProcess; what it returns to be killed is the old `cmd`. */
  function Stopped(e: Entry): Entry {
    e.(cmd := None, started := false, autoRestart := false, pidFile := None)
  }

  /** The region of StopCmdProcess, which leaves pid files for later. */
  function StoppedAll(e: Entry): Entry {
    e.(cmd := None, started := false, autoRestart := false)
  }

  /** Both failure paths of a start. */
  function StartFailed(e: Entry): Entry {
    e.(started := false, autoRestart := false)
  }

  /** What the waiter of generation `gen` finds after its process has ended. */
  function Judged(e: Entry, pid: Pid, gen: nat): (Entry, bool) {
    if e.gen != gen then (e, false)
    else
      (e.(started := false, cmd := if e.cmd == Some(pid) then None else e.cmd, pidFile := None),
       e.started && e.autoRestart)
  }

  class Services {
    var procs: map<Id, Entry>

    constructor ()
      ensures procs == map[]
    {
      procs := map[];
    }

    function Of(id: Id): Entry
      reads this
    {
      if id in procs then procs[id] else NEW_ENTRY
    }

    /** An entry is made when it is first asked for. */
    method ProcOf(id: Id) returns (e: Entry)
      modifies this
      ensures e == old(Of(id)) && procs == old(procs)[id := e]
    {
      if id !in procs {
        procs := procs[id := NEW_ENTRY];
      }
      e := procs[id];
      assert procs == old(procs)[id := e];
    }

    method RegisterProcess(id: Id, pid: Pid) returns (gen: nat)
      modifies this
      ensures procs == old(procs)[id := Registered(old(Of(id)), pid)]
      ensures gen == Of(id).gen
    {
      var p := ProcOf(id);
      p := p.(gen := p.gen + 1);
      gen := p.gen;
      p := p.(cmd := Some(pid), started := true);
      p := p.(pidFile := Some(pid));
      procs := procs[id := p];
    }

    method StopService(id: Id) returns (kill: Option<Pid>)
      modifies this
      ensures procs == old(procs)[id := Stopped(old(Of(id)))]
      ensures kill == old(Of(id)).cmd
    {
      var p := ProcOf(id);
      p := p.(autoRestart := false);
      kill := p.cmd;
      p := p.(cmd := None, started := false);
      p := p.(pidFile := None);
      procs := procs[id := p];
    }

    /** StopCmdProcess, under procMu: every service is stopped and its process killed. */
    method StopAll() returns (killed: set<Pid>)
      modifies this
      ensures procs.Keys == old(procs.Keys)
      ensures forall id :: id in procs ==> procs[id] == StoppedAll(old(procs)[id])
      ensures killed == set id | id in old(procs) && old(procs)[id].cmd.Some? :: old(procs)[id].cmd.value
    {
      killed := {};
      var rest := procs.Keys;
      while rest != {}
        invariant rest <= procs.Keys == old(procs.Keys)
        invariant forall id :: id in procs ==>
                    procs[id] == if id in rest then old(procs)[id] else StoppedAll(old(procs)[id])
        invariant killed == set id | id in old(procs) && id !in rest && old(procs)[id].cmd.Some? :: old(procs)[id].cmd.value
        decreases |rest|
      {
        var id :| id in rest;
        var p := procs[id];
        if p.cmd.Some? {
          killed := killed + {p.cmd.value};
        }
        procs := procs[id := p.(cmd := None, started := false, autoRestart := false)];
        rest := rest - {id};
      }
    }

    method JudgeExit(id: Id, pid: Pid, gen: nat) returns (mine: bool, abnormal: bool)
      modifies this
      ensures procs == old(procs)[id := Judged(old(Of(id)), pid, gen).0]
      ensures abnormal == Judged(old(Of(id)), pid, gen).1 && mine == (old(Of(id)).gen == gen)
    {
      var p := ProcOf(id);
      mine := p.gen == gen;
      abnormal := mine && p.started && p.autoRestart;
      if mine {
        p := p.(started := false);
        if p.cmd == Some(pid) {
          p := p.(cmd := None);
        }
        p := p.(pidFile := None);
      }
      procs := procs[id := p];
    }
  }
}
