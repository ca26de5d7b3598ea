/**
  proxy/forward_mgr.go: the manager that reconciles local forwarding listeners with the wanted
  rules. `runners` stands for the runner objects; a runner holds its address while it is open.
*/
module ForwardManager {
  import opened Base

  datatype Target = Target(ip: Bytes, port: nat)

  /** proto|listen: what tells listeners apart. */
  datatype Key = Key(proto: byte, host: string, port: nat)

  /** What a listener occupies: newForwardRunner opens TCP for every protocol but 0x01. */
  datatype Place = Place(udp: bool, host: string, port: nat)

  function PlaceOf(k: Key): Place {
    Place(k.proto == 1, k.host, k.port)
  }

  datatype Rule = Rule(key: Key, target: Target)

  type Tunnel = nat
  type Id = nat

  datatype Runner = Runner(key: Key, target: Target, quic: Option<Tunnel>, open: bool, failed: bool)

  datatype Entry = Entry(key: Key, rule: Rule, runner: Id)

  const BUILTIN_HOST := "127.0.0.1"
  const PROXY_PORT: nat := 1080
  const PREFERRED := Key(0, BUILTIN_HOST, PROXY_PORT)
  const BUILTIN_TARGET := Target([127, 0, 0, 1], PROXY_PORT)

  datatype ApplyError = ListenFailed(key: Key)

  ghost function Keys(es: seq<Entry>): set<Key> {
    set e | e in es :: e.key
  }

  /** The entries whose key is still wanted. */
  function Kept(es: seq<Entry>, wanted: map<Key, Rule>): (r: seq<Entry>)
    ensures forall e :: e in r <==> e in es && e.key in wanted
  {
    if es == [] then []
    else Kept(es[..|es| - 1], wanted) + if es[|es| - 1].key in wanted then [es[|es| - 1]] else []
  }

  ghost predicate DistinctPlaces(es: seq<Entry>) {
    forall i, j :: 0 <= i < j < |es| ==> PlaceOf(es[i].key) != PlaceOf(es[j].key)
  }

  lemma {:induction false} KeptJoin(a: seq<Entry>, b: seq<Entry>, wanted: map<Key, Rule>)
    ensures Kept(a + b, wanted) == Kept(a, wanted) + Kept(b, wanted)
  {
    if b == [] {
      assert a + b == a;
    } else {
      hide Kept;
      var n := |b| - 1;
      KeptJoin(a, b[..n], wanted);
      KeptSnoc(b[..n], b[n], wanted);
      KeptSnoc(a + b[..n], b[n], wanted);
      Associates(a, b[..n], [b[n]]);
      Associates(Kept(a, wanted), Kept(b[..n], wanted), if b[n].key in wanted then [b[n]] else []);
      assert b[..n] + [b[n]] == b;
    }
  }

  lemma KeptSnoc(es: seq<Entry>, e: Entry, wanted: map<Key, Rule>)
    ensures Kept(es + [e], wanted) == Kept(es, wanted) + if e.key in wanted then [e] else []
  {
    assert (es + [e])[..|es|] == es;
  }

  lemma Associates(a: seq<Entry>, b: seq<Entry>, c: seq<Entry>)
    ensures (a + b) + c == a + (b + c)
  {
  }

  lemma KeptHead(es: seq<Entry>, wanted: map<Key, Rule>)
    requires es != []
    ensures Kept(es, wanted) == (if es[0].key in wanted then [es[0]] else []) + Kept(es[1..], wanted)
  {
    hide Kept;
    KeptOne(es[0], wanted);
    KeptJoin([es[0]], es[1..], wanted);
    assert [es[0]] + es[1..] == es;
  }

  lemma KeptOne(e: Entry, wanted: map<Key, Rule>)
    ensures Kept([e], wanted) == if e.key in wanted then [e] else []
  {
    assert Kept([e][..0], wanted) == [];
  }

  lemma KeptStep(es: seq<Entry>, i: nat, wanted: map<Key, Rule>)
    requires i < |es|
    ensures var a, b := Kept(es[..i], wanted), es[i + 1..];
            a + es[i..] == a + [es[i]] + b
            && Kept(es[..i + 1], wanted) + b == if es[i].key in wanted then a + [es[i]] + b else a + b
  {
    assert es[i..] == [es[i]] + es[i + 1..];
    assert es[..i + 1][..i] == es[..i];
  }

  lemma KeptTail(next: seq<Entry>, es: seq<Entry>, i: nat, wanted: map<Key, Rule>)
    requires i < |es|
    ensures var b := Kept(es[i + 1..], wanted);
            next + Kept(es[i..], wanted) == if es[i].key in wanted then next + [es[i]] + b else next + b
  {
    KeptHead(es[i..], wanted);
    assert es[i..][1..] == es[i + 1..];
  }

  lemma KeptEnds(es: seq<Entry>, wanted: map<Key, Rule>, next: seq<Entry>)
    ensures Kept(es[..0], wanted) + es[0..] == es && Kept(es[..|es|], wanted) + es[|es|..] == Kept(es, wanted)
    ensures [] + Kept(es[0..], wanted) == Kept(es, wanted) && next + Kept(es[|es|..], wanted) == next
  {
    assert es[..|es|] == es && es[0..] == es;
  }

  lemma LaterDiffers(es: seq<Entry>, i: nat)
    requires DistinctPlaces(es) && i < |es|
    ensures forall j :: i < j < |es| ==> es[j].key != es[i].key
  {
  }

  /**
    The entries `done` of `all` have been dealt with: `next` serves wanted rules only, every healthy
    wanted runner is still there, a wanted entry whose runner had failed has a new one that listens
    again, a wanted entry is missing only after a fault, and no address of a healthy runner was
    listened on again.
  */
  ghost predicate Reconciled(all: seq<Entry>, done: seq<Entry>, next: seq<Entry>, wanted: map<Key, Rule>,
                             before: map<Id, Runner>, fault: bool, rebound: seq<Key>) {
    && (forall e :: e in all ==> e.runner in before) && (forall e :: e in done ==> e in all)
    && (forall e :: e in next ==> e.key in Keys(all) && e.key in wanted && e.rule == wanted[e.key])
    && (forall e :: e in done && e.key in wanted && !before[e.runner].failed ==>
          Entry(e.key, wanted[e.key], e.runner) in next)
    && (forall e :: e in done && e.key in wanted ==> e.key in Keys(next) || fault)
    && (forall e, x :: e in done && x in next && x.key == e.key && before[e.runner].failed ==>
          x.runner !in before && x.key in rebound)
    && (forall k :: k in rebound ==> k in wanted)
    && (forall e :: e in all && !before[e.runner].failed ==> e.key !in rebound)
  }

  lemma ReconciledStart(all: seq<Entry>, wanted: map<Key, Rule>, before: map<Id, Runner>)
    requires forall e :: e in all ==> e.runner in before
    ensures Reconciled(all, all[..0], [], wanted, before, false, [])
  {
  }

  lemma ReconciledStep(all: seq<Entry>, i: nat, was: seq<Entry>, next: seq<Entry>, wanted: map<Key, Rule>,
                       before: map<Id, Runner>, fault: bool, fault': bool, rebound: seq<Key>, again: seq<Key>)
    requires i < |all| && DistinctPlaces(all) && (fault ==> fault')
    requires Reconciled(all, all[..i], was, wanted, before, fault, rebound)
    requires was <= next && |next| <= |was| + 1 && again <= [all[i].key]
    requires all[i].key !in wanted ==> next == was && again == []
    requires forall e :: e in next[|was|..] ==> e.key == all[i].key && e.rule == wanted[e.key]
    requires all[i].key in wanted ==> |next| == |was| + 1 || fault'
    requires all[i].key in wanted && !before[all[i].runner].failed ==>
               again == [] && next == was + [Entry(all[i].key, wanted[all[i].key], all[i].runner)]
    requires all[i].key in wanted && before[all[i].runner].failed && |next| > |was| ==>
               again == [all[i].key] && next[|was|].runner !in before
    requires all[i].key in wanted ==> forall x :: x in was ==> x.key != all[i].key
    ensures Reconciled(all, all[..i + 1], next, wanted, before, fault', rebound + again)
  {
    var e := all[i];
    assert next == was + next[|was|..];
    assert all[..i + 1] == all[..i] + [e];
    forall x | x in all && x.key == e.key ensures x == e {
      SameKey(all, x, e);
    }
    if |next| > |was| {
      assert next[|was|] in next[|was|..];
    }
  }

  /** Every wanted key that had no entry is either in `todo` or among the entries added for it. */
  ghost predicate Filled(wanted: map<Key, Rule>, existing: set<Key>, todo: set<Key>, added: seq<Entry>, rebound: seq<Key>) {
    && todo <= wanted.Keys - existing
    && (forall e :: e in added ==> e.key in wanted && e.key !in existing && e.key !in todo && e.rule == wanted[e.key])
    && (forall k :: k in wanted && k !in existing ==> k in Keys(added) || k in todo)
    && (forall e :: e in added ==> e.key in rebound)
    && (forall k :: k in rebound ==> k in wanted && k !in existing)
  }

  lemma FilledStart(wanted: map<Key, Rule>, existing: set<Key>)
    ensures Filled(wanted, existing, wanted.Keys - existing, [], [])
  {
  }

  lemma FilledNext(wanted: map<Key, Rule>, existing: set<Key>, todo: set<Key>, added: seq<Entry>, rebound: seq<Key>, k: Key)
    requires Filled(wanted, existing, todo, added, rebound) && k in todo
    ensures k in wanted && k !in existing && k !in Keys(added) && Keys(added) <= wanted.Keys
    ensures forall x :: x in rebound ==> x in wanted && x !in existing
  {
  }

  lemma FilledRebound(wanted: map<Key, Rule>, existing: set<Key>, added: seq<Entry>, rebound: seq<Key>)
    requires Filled(wanted, existing, {}, added, rebound)
    ensures forall x :: x in rebound ==> x in wanted && x !in existing
  {
  }

  lemma FilledStep(wanted: map<Key, Rule>, existing: set<Key>, todo: set<Key>, added: seq<Entry>, rebound: seq<Key>, e: Entry)
    requires Filled(wanted, existing, todo, added, rebound)
    requires e.key in todo && e.rule == wanted[e.key]
    ensures Filled(wanted, existing, todo - {e.key}, added + [e], rebound + [e.key])
  {
    assert e in added + [e];
  }

  /**
    What one Apply does to the entries `was`: what stays or is new serves the wanted rule of its key;
    a healthy wanted runner is the same one as before, and a failed one is replaced by one that listens
    again; an entry that stays wanted is missing only after a fault; on success no wanted key is missing
    otherwise, on failure no key is new; and only addresses without a healthy runner were listened on.
  */
  ghost predicate Applied(was: seq<Entry>, before: map<Id, Runner>, wanted: map<Key, Rule>, now: seq<Entry>,
                          ok: bool, fault: bool, rebound: seq<Key>) {
    && (forall e :: e in was ==> e.runner in before)
    && (forall e :: e in now ==> e.key in wanted && e.rule == wanted[e.key])
    && (forall e :: e in was && e.key in wanted && !before[e.runner].failed ==>
          Entry(e.key, wanted[e.key], e.runner) in now)
    && (forall e :: e in was && e.key in wanted ==> e.key in Keys(now) || fault)
    && (forall e, x :: e in was && x in now && x.key == e.key && before[e.runner].failed ==>
          x.runner !in before && x.key in rebound)
    && (if ok then forall k :: k in wanted && k !in Keys(was) ==> k in Keys(now) && k in rebound else Keys(now) <= Keys(was))
    && (forall k :: k in rebound ==> k in wanted)
    && (forall e :: e in was && !before[e.runner].failed ==> e.key !in rebound)
  }

  lemma AppliedFromParts(was: seq<Entry>, before: map<Id, Runner>, mid: map<Id, Runner>, wanted: map<Key, Rule>,
                         next: seq<Entry>, added: seq<Entry>, ok: bool, fault: bool, fault': bool,
                         rebound: seq<Key>, rebound': seq<Key>)
    requires Reconciled(was, was, next, wanted, mid, fault, rebound) && (fault ==> fault')
    requires forall e :: e in was ==> e.runner in before
    requires forall e :: e in was && e.key in wanted ==> mid[e.runner] == before[e.runner]
    requires mid.Keys == before.Keys
    requires if ok then Filled(wanted, Keys(was), {}, added, rebound') else added == []
    requires forall k :: k in rebound' ==> k in wanted && k !in Keys(was)
    ensures Applied(was, before, wanted, next + added, ok, fault', rebound + rebound')
  {
    assert Keys(next + added) == Keys(next) + Keys(added);
    forall e | e in was && !before[e.runner].failed ensures e.key !in rebound + rebound' {
      assert e.key in Keys(was);
    }
  }

  lemma HasMember(ks: seq<Key>)
    ensures ks == [] || exists k :: k in ks
  {
    if ks != [] {
      assert ks[0] in ks;
    }
  }

  /** Applying to entries that are all healthy and exactly the wanted ones changes and opens nothing. */
  lemma AppliedAgain(was: seq<Entry>, before: map<Id, Runner>, wanted: map<Key, Rule>, now: seq<Entry>,
                     ok: bool, fault: bool, rebound: seq<Key>)
    requires Applied(was, before, wanted, now, ok, fault, rebound)
    requires DistinctPlaces(was) && DistinctPlaces(now) && Keys(was) == wanted.Keys
    requires forall e :: e in was ==> e.rule == wanted[e.key] && !before[e.runner].failed
    ensures rebound == []
    ensures forall e :: e in now <==> e in was
  {
    assert forall e :: e in was ==> e.key in Keys(was);
    assert forall e :: e in now ==> e.key in Keys(was);
    forall e | e in now ensures e in was {
      var x :| x in was && x.key == e.key;
      SameKey(now, e, Entry(x.key, wanted[x.key], x.runner));
    }
    HasMember(rebound);
  }

  /** Success without a fault leaves exactly the wanted keys. */
  lemma AppliedExactly(was: seq<Entry>, before: map<Id, Runner>, wanted: map<Key, Rule>, now: seq<Entry>, rebound: seq<Key>)
    requires Applied(was, before, wanted, now, true, false, rebound)
    ensures Keys(now) == wanted.Keys
  {
    assert forall e :: e in was ==> e.key in Keys(was);
  }

  lemma Regroup(a: seq<Entry>, b: seq<Entry>, e: Option<Entry>)
    ensures a + [] == a && a + b + [] == a + b
    ensures e.Some? ==> a + b + [e.value] + [] == a + (b + [e.value])
  {
  }

  lemma SameKey(es: seq<Entry>, x: Entry, y: Entry)
    requires DistinctPlaces(es) && x in es && y in es && x.key == y.key
    ensures x == y
  {
    var i :| 0 <= i < |es| && es[i] == x;
    var j :| 0 <= j < |es| && es[j] == y;
  }

  lemma DistinctDrop(a: seq<Entry>, e: Entry, b: seq<Entry>)
    requires DistinctPlaces(a + [e] + b)
    ensures DistinctPlaces(a + b) && forall x :: x in a + b ==> x in a + [e] + b && PlaceOf(x.key) != PlaceOf(e.key)
  {
    var all, less := a + [e] + b, a + b;
    assert all[|a|] == e;
    assert forall i :: 0 <= i < |less| ==> less[i] == all[if i < |a| then i else i + 1];
  }

  lemma DistinctAdd(a: seq<Entry>, e: Entry, b: seq<Entry>)
    requires DistinctPlaces(a + b) && forall x :: x in a + b ==> PlaceOf(x.key) != PlaceOf(e.key)
    ensures DistinctPlaces(a + [e] + b)
  {
    var all, less := a + [e] + b, a + b;
    assert forall i :: 0 <= i < |all| && i != |a| ==> all[i] == less[if i < |a| then i else i - 1];
  }

  /** Two keys mean one place: the same address, both UDP or neither, 0x01 being UDP. */
  predicate SamePlace(a: Key, b: Key) {
    a.host == b.host && a.port == b.port && (a.proto == 1 <==> b.proto == 1)
  }

  /** Another wanted key means the same place, under another number for TCP. */
  ghost predicate Shadowed(wanted: map<Key, Rule>, k: Key) {
    exists other :: other in wanted && other != k && SamePlace(other, k)
  }

  /** Another program or the builtin proxy holds the key's place, or another wanted key means it too. */
  ghost predicate Taken(wanted: map<Key, Rule>, k: Key, builtin: Option<Place>, outsiders: set<Place>) {
    || (exists o :: o in outsiders && o.udp == (k.proto == 1) && o.host == k.host && o.port == k.port)
    || (builtin.Some? && builtin.value.udp == (k.proto == 1) && builtin.value.host == k.host && builtin.value.port == k.port)
    || Shadowed(wanted, k)
  }

  /** The wanted rules by key: of several rules for one key the last counts. */
  ghost predicate WantedBy(rules: seq<Rule>, w: map<Key, Rule>) {
    && (forall k :: k in w ==> w[k] in rules && w[k].key == k)
    && (forall i :: 0 <= i < |rules| && (forall j :: i < j < |rules| ==> rules[j].key != rules[i].key) ==>
          rules[i].key in w && w[rules[i].key] == rules[i])
    && (forall r :: r in rules ==> r.key in w)
  }

  lemma KeptKeys(was: seq<Entry>, wanted: map<Key, Rule>, mid: map<Id, Runner>, next: seq<Entry>, fault: bool, rebound: seq<Key>)
    requires Reconciled(was, was, next, wanted, mid, fault, rebound)
    ensures Keys(next) <= Keys(was) && Keys(next) <= wanted.Keys
  {
  }

  method KeysOf(es: seq<Entry>) returns (ks: set<Key>)
    ensures ks == Keys(es)
  {
    ks := {};
    for i := 0 to |es|
      invariant ks == Keys(es[..i])
    {
      ks := ks + {es[i].key};
    }
    assert es[..|es|] == es;
  }

  class Manager {
    var entries: seq<Entry>
    var builtin: Option<Id>
    var quic: Option<Tunnel>
    var closed: bool
    /** Every runner made so far. */
    var runners: map<Id, Runner>
    var nextId: Id
    /** Addresses held by other programs. */
    var outsiders: set<Place>
    /** Listen calls that failed although the address was free. */
    ghost var faults: nat
    /** Listen calls that succeeded, in order. */
    ghost var listens: seq<Key>

    predicate Holds(r: Id, k: Place)
      reads this`runners
    {
      r in runners && runners[r].open && PlaceOf(runners[r].key) == k
    }

    predicate Occupied(k: Key)
      reads this`runners, this`outsiders
    {
      PlaceOf(k) in outsiders || exists r :: r in runners && Holds(r, PlaceOf(k))
    }

    /** The address of the builtin proxy. */
    ghost function BuiltinPlace(): Option<Place>
      reads this`builtin, this`runners
    {
      if builtin.Some? && builtin.value in runners && runners[builtin.value].open then
        Some(PlaceOf(runners[builtin.value].key))
      else
        None
    }

    /** The entry's runner serves the entry's rule through the manager's tunnel. */
    ghost predicate Linked(e: Entry)
      reads this`runners, this`quic
    {
      && e.key == e.rule.key
      && e.runner in runners
      && var r := runners[e.runner];
      r.open && r.key == e.key && r.target == e.rule.target && r.quic == quic
    }

    ghost predicate BuiltinOK()
      reads this`builtin, this`runners, this`quic
    {
      builtin.Some? ==>
        builtin.value in runners
        && var r := runners[builtin.value];
        r.open && r.quic == quic && r.target == BUILTIN_TARGET && r.key == Key(0, BUILTIN_HOST, r.key.port)
    }

    /** With `es` as the entries, every open listener belongs to exactly one entry or the builtin slot. */
    ghost predicate Consistent(es: seq<Entry>)
      reads this`builtin, this`quic, this`runners, this`nextId, this`outsiders
    {
      && DistinctPlaces(es)
      && (forall e :: e in es ==> Linked(e))
      && BuiltinOK()
      && (forall e :: e in es && builtin.Some? ==> PlaceOf(runners[builtin.value].key) != PlaceOf(e.key))
      && (forall r :: r in runners && runners[r].open ==>
            PlaceOf(runners[r].key) !in outsiders && (builtin == Some(r) || exists e :: e in es && e.runner == r))
      && (forall r :: r in runners ==> r < nextId)
    }

    ghost predicate Valid()
      reads this
    {
      Consistent(entries) && (closed ==> entries == [] && builtin.None? && quic.None?)
    }

    constructor (outsiders: set<Place>)
      ensures Valid() && entries == [] && !closed && listens == [] && this.outsiders == outsiders
    {
      entries, builtin, quic, closed := [], None, None, false;
      runners, nextId := map[], 0;
      this.outsiders := outsiders;
      faults, listens := 0, [];
    }

    // ---- Single listeners ----

    /** newForwardRunner: listening fails when the address is occupied, or for a reason of its own. */
    method Open(rule: Rule) returns (id: Option<Id>)
      modifies this`runners, this`nextId, this`faults, this`listens
      ensures id.None? ==> runners == old(runners) && nextId == old(nextId) && listens == old(listens)
      ensures id.None? ==> faults == old(faults) + if old(Occupied(rule.key)) then 0 else 1
      ensures id.Some? ==> !old(Occupied(rule.key)) && id.value == old(nextId) && nextId == old(nextId) + 1
      ensures id.Some? ==> runners == old(runners)[id.value := Runner(rule.key, rule.target, None, true, false)]
      ensures id.Some? ==> listens == old(listens) + [rule.key] && faults == old(faults)
    {
      var lucky: bool := *;
      if Occupied(rule.key) {
        return None;
      }
      if !lucky {
        faults := faults + 1;
        return None;
      }
      runners := runners[nextId := Runner(rule.key, rule.target, None, true, false)];
      listens := listens + [rule.key];
      id := Some(nextId);
      nextId := nextId + 1;
    }

    method CloseRunner(r: Id)
      requires r in runners
      modifies this`runners
      ensures runners == old(runners)[r := old(runners[r]).(open := false, failed := true)]
    {
      runners := runners[r := runners[r].(open := false, failed := true)];
    }

    /** Closing the runner of an entry takes exactly that entry out. */
    method Drop(ghost a: seq<Entry>, e: Entry, ghost b: seq<Entry>)
      requires Consistent(a + [e] + b)
      modifies this`runners
      ensures Consistent(a + b)
      ensures !Occupied(e.key)
      ensures runners.Keys == old(runners.Keys)
      ensures forall r :: r in runners ==> runners[r].key == old(runners[r]).key
      ensures forall r :: r in runners && r != e.runner ==> runners[r] == old(runners[r])
      ensures BuiltinPlace() == old(BuiltinPlace())
    {
      DistinctDrop(a, e, b);
      assert e in a + [e] + b && Linked(e);
      CloseRunner(e.runner);
    }

    /** A new listener for a rule whose key no entry has. */
    method Add(ghost a: seq<Entry>, rule: Rule, ghost b: seq<Entry>) returns (e: Option<Entry>)
      requires Consistent(a + b)
      modifies this`runners, this`nextId, this`faults, this`listens
      ensures e.Some? ==> Consistent(a + [e.value] + b) && e.value.rule == rule && e.value.key == rule.key
      ensures e.Some? ==> listens == old(listens) + [rule.key] && faults == old(faults)
      ensures e.Some? ==> !old(Occupied(rule.key)) && e.value.runner !in old(runners)
      ensures e.Some? ==> e.value.runner in runners && !runners[e.value.runner].failed
      ensures e.None? ==> Consistent(a + b) && listens == old(listens) && runners == old(runners)
      ensures e.None? ==> faults == old(faults) + if old(Occupied(rule.key)) then 0 else 1
      ensures old(runners.Keys) <= runners.Keys
      ensures forall r :: r in old(runners) ==> runners[r] == old(runners[r])
      ensures BuiltinPlace() == old(BuiltinPlace())
    {
      forall x | x in a + b ensures Holds(x.runner, PlaceOf(x.key)) && x.runner < nextId {
        assert Linked(x);
      }
      var id := Open(rule);
      if id.None? {
        assert forall x :: x in a + b ==> Linked(x);
        return None;
      }
      e := Some(Entry(rule.key, rule, id.value));
      if quic.Some? {
        runners := runners[id.value := runners[id.value].(quic := quic)];
      }
      DistinctAdd(a, e.value, b);
      forall x | x in a + [e.value] + b ensures Linked(x) {
        if x != e.value {
          assert x in a + b;
        }
      }
    }

    /** SetTarget on the runner of a kept entry. */
    method Retarget(ghost a: seq<Entry>, e: Entry, rule: Rule, ghost b: seq<Entry>)
      requires Consistent(a + [e] + b) && rule.key == e.key
      modifies this`runners
      ensures Consistent(a + [e.(rule := rule)] + b)
      ensures runners.Keys == old(runners.Keys)
      ensures forall r :: r in runners && r != e.runner ==> runners[r] == old(runners[r])
      ensures e.runner in runners && runners[e.runner] == old(runners[e.runner]).(target := rule.target)
      ensures BuiltinPlace() == old(BuiltinPlace())
    {
      DistinctDrop(a, e, b);
      assert e in a + [e] + b && Linked(e);
      runners := runners[e.runner := runners[e.runner].(target := rule.target)];
      DistinctAdd(a, e.(rule := rule), b);
    }

    // ---- Apply ----

    method Wanted(rules: seq<Rule>) returns (w: map<Key, Rule>)
      ensures WantedBy(rules, w) && forall k :: k in w ==> w[k].key == k
    {
      w := map[];
      for n := 0 to |rules|
        invariant forall k :: k in w ==> w[k] in rules[..n] && w[k].key == k
        invariant forall i :: 0 <= i < n && (forall j :: i < j < n ==> rules[j].key != rules[i].key) ==>
                    rules[i].key in w && w[rules[i].key] == rules[i]
        invariant forall r :: r in rules[..n] ==> r.key in w
      {
        w := w[rules[n].key := rules[n]];
      }
      assert rules[..|rules|] == rules;
    }

    lemma Links(es: seq<Entry>)
      requires Consistent(es)
      ensures DistinctPlaces(es)
      ensures forall e :: e in es ==> e.runner in runners && runners[e.runner].key == e.key
      ensures builtin.Some? ==> builtin.value in runners
    {
      assert forall e :: e in es ==> Linked(e);
    }

    /** First the listeners nobody wants any more are closed, so that their addresses are free. */
    method CloseUnwanted(wanted: map<Key, Rule>)
      requires Consistent(entries)
      modifies this`runners
      ensures Consistent(Kept(entries, wanted)) && runners.Keys == old(runners.Keys)
      ensures forall e :: e in Kept(entries, wanted) ==>
                (e.runner in runners && runners[e.runner] == old(runners[e.runner]))
      ensures forall r :: r in runners ==> runners[r].key == old(runners[r]).key
      ensures BuiltinPlace() == old(BuiltinPlace())
    {
      hide Consistent, Kept, DistinctPlaces, BuiltinPlace;
      Links(entries);
      ghost var before := runners;
      KeptEnds(entries, wanted, []);
      for i := 0 to |entries|
        invariant BuiltinPlace() == old(BuiltinPlace())
        invariant Consistent(Kept(entries[..i], wanted) + entries[i..])
        invariant runners.Keys == before.Keys
        invariant forall r :: r in runners ==> runners[r].key == before[r].key
        invariant forall e :: e in entries && e.key in wanted ==> runners[e.runner] == before[e.runner]
      {
        KeptStep(entries, i, wanted);
        if entries[i].key !in wanted {
          Drop(Kept(entries[..i], wanted), entries[i], entries[i + 1..]);
        }
      }
    }

    /**
      Then the wanted entries are gone through: a healthy runner stays and gets its new target, a
      failed one is closed and built again. `rebound` are the addresses listened on again.
    */
    method KeepWanted(wanted: map<Key, Rule>) returns (next: seq<Entry>, ghost rebound: seq<Key>)
      requires Consistent(Kept(entries, wanted)) && DistinctPlaces(entries)
      requires forall k :: k in wanted ==> wanted[k].key == k
      requires forall i :: 0 <= i < |entries| ==>
                 entries[i].runner in runners && runners[entries[i].runner].key == entries[i].key
      modifies this`runners, this`nextId, this`faults, this`listens
      ensures Consistent(next) && (forall x :: x in next ==> x.runner in runners && !runners[x.runner].failed)
      ensures faults >= old(faults) && listens == old(listens) + rebound
      ensures Reconciled(entries, entries, next, wanted, old(runners), faults > old(faults), rebound)
      ensures BuiltinPlace() == old(BuiltinPlace())
    {
      hide *;
      ghost var before := runners;
      next, rebound := [], [];
      KeptEnds(entries, wanted, next);
      ReconciledStart(entries, wanted, before);
      for i := 0 to |entries|
        invariant BuiltinPlace() == old(BuiltinPlace())
        invariant Consistent(next + Kept(entries[i..], wanted))
        invariant Reconciled(entries, entries[..i], next, wanted, before, faults > old(faults), rebound)
        invariant before.Keys <= runners.Keys && (forall x :: x in next ==> x.runner in runners && !runners[x.runner].failed)
        invariant forall j :: i <= j < |entries| ==> runners[entries[j].runner] == before[entries[j].runner]
        invariant faults >= old(faults) && listens == old(listens) + rebound
      {
        next, rebound := KeepEntry(i, next, wanted, before, faults > old(faults), rebound, old(listens));
      }
      assert entries[..|entries|] == entries;
      KeptEnds(entries, wanted, next);
    }

    method KeepEntry(i: nat, was: seq<Entry>, wanted: map<Key, Rule>, ghost before: map<Id, Runner>, ghost fault: bool,
                     ghost bound: seq<Key>, ghost start: seq<Key>)
      returns (next: seq<Entry>, ghost rebound: seq<Key>)
      requires i < |entries| && DistinctPlaces(entries) && listens == start + bound
      requires forall k :: k in wanted ==> wanted[k].key == k
      requires Consistent(was + Kept(entries[i..], wanted))
      requires Reconciled(entries, entries[..i], was, wanted, before, fault, bound)
      requires forall j :: i <= j < |entries| ==> entries[j].runner in before && before[entries[j].runner].key == entries[j].key
      requires before.Keys <= runners.Keys && (forall x :: x in was ==> x.runner in runners && !runners[x.runner].failed)
      requires forall j :: i <= j < |entries| ==> runners[entries[j].runner] == before[entries[j].runner]
      modifies this`runners, this`nextId, this`faults, this`listens
      ensures BuiltinPlace() == old(BuiltinPlace())
      ensures Consistent(next + Kept(entries[i + 1..], wanted))
      ensures Reconciled(entries, entries[..i + 1], next, wanted, before, fault || faults > old(faults), rebound)
      ensures before.Keys <= runners.Keys && (forall x :: x in next ==> x.runner in runners && !runners[x.runner].failed)
      ensures forall j :: i < j < |entries| ==> runners[entries[j].runner] == before[entries[j].runner]
      ensures faults >= old(faults) && listens == start + rebound
    {
      hide *;
      KeptTail(was, entries, i, wanted);
      LaterDiffers(entries, i);
      if entries[i].key in wanted {
        Apart(was, entries[i], Kept(entries[i + 1..], wanted));
      }
      ghost var again;
      var stays;
      stays, again := KeepNext(was, entries[i], wanted, Kept(entries[i + 1..], wanted));
      next, rebound := was + stays, bound + again;
      ReconciledStep(entries, i, was, next, wanted, before, fault, fault || faults > old(faults), bound, again);
    }

    /** Two entries have different keys and different runners. */
    lemma Apart(a: seq<Entry>, e: Entry, b: seq<Entry>)
      requires Consistent(a + [e] + b)
      ensures forall x :: x in a || x in b ==> x.key != e.key && x.runner in runners && x.runner != e.runner
    {
      DistinctDrop(a, e, b);
      assert e in a + [e] + b && Linked(e);
      forall x | x in a || x in b ensures x.key != e.key && x.runner in runners && x.runner != e.runner {
        assert x in a + b && x in a + [e] + b && Linked(x);
      }
    }

    method KeepNext(ghost a: seq<Entry>, e: Entry, wanted: map<Key, Rule>, ghost b: seq<Entry>)
      returns (stays: seq<Entry>, ghost again: seq<Key>)
      requires Consistent(if e.key in wanted then a + [e] + b else a + b)
      requires forall k :: k in wanted ==> wanted[k].key == k
      modifies this`runners, this`nextId, this`faults, this`listens
      ensures Consistent(a + stays + b)
      ensures e.key !in wanted ==> stays == [] && again == [] && faults == old(faults) && runners == old(runners)
      ensures forall x :: x in stays ==> x.key == e.key && x.rule == wanted[e.key]
      ensures e.key in wanted && old(e.runner in runners && !runners[e.runner].failed) ==>
                (stays == [Entry(e.key, wanted[e.key], e.runner)] && again == [])
      ensures e.key in wanted && old(e.runner in runners && runners[e.runner].failed) && stays != [] ==>
                (stays[0].runner !in old(runners) && again == [e.key])
      ensures forall x :: x in stays ==> x.runner in runners && !runners[x.runner].failed
      ensures faults >= old(faults) && |stays| <= 1 && (e.key in wanted && stays == [] ==> faults > old(faults))
      ensures old(runners.Keys) <= runners.Keys
      ensures forall r :: r in old(runners) && r != e.runner ==> runners[r] == old(runners[r])
      ensures listens == old(listens) + again && again <= [e.key]
      ensures BuiltinPlace() == old(BuiltinPlace())
    {
      hide *;
      again, stays := [], [];
      if e.key in wanted {
        var e';
        e', again := KeepOne(a, e, wanted[e.key], b);
        stays := if e'.Some? then [e'.value] else [];
      } else {
        assert a + [] + b == a + b;
      }
    }

    /** One wanted entry: keep its runner, or close it and listen again. */
    method KeepOne(ghost a: seq<Entry>, e: Entry, rule: Rule, ghost b: seq<Entry>) returns (e': Option<Entry>, ghost again: seq<Key>)
      requires Consistent(a + [e] + b) && rule.key == e.key
      modifies this`runners, this`nextId, this`faults, this`listens
      ensures Consistent(a + (if e'.Some? then [e'.value] else []) + b)
      ensures e'.Some? ==> e'.value.key == e.key && e'.value.rule == rule
      ensures old(e.runner in runners && !runners[e.runner].failed) ==>
                (e' == Some(Entry(e.key, rule, e.runner)) && again == [])
      ensures old(e.runner in runners && runners[e.runner].failed) && e'.Some? ==>
                (e'.value.runner !in old(runners) && again == [e.key])
      ensures e'.Some? ==> e'.value.runner in runners && !runners[e'.value.runner].failed
      ensures faults == old(faults) + if e'.Some? then 0 else 1
      ensures old(runners.Keys) <= runners.Keys
      ensures forall r :: r in old(runners) && r != e.runner ==> runners[r] == old(runners[r])
      ensures listens == old(listens) + again && (again == [] || again == [e.key])
      ensures BuiltinPlace() == old(BuiltinPlace())
    {
      again := [];
      assert e in a + [e] + b && Linked(e);
      if runners[e.runner].failed {
        Drop(a, e, b);
        e' := Add(a, rule, b);
        if e'.None? {
          assert a + [] + b == a + b;
        } else {
          again := [e.key];
        }
        return;
      }
      if e.rule.target != rule.target {
        Retarget(a, e, rule, b);
      }
      e' := Some(Entry(e.key, rule, e.runner));
      assert e'.value == e.(rule := rule);
      assert e.rule.target == rule.target ==> e.rule == rule;
    }

    /** Closes the listeners made in this round again. */
    method CloseAdded(ghost kept: seq<Entry>, added: seq<Entry>)
      requires Consistent(kept + added)
      modifies this`runners
      ensures Consistent(kept)
      ensures forall x :: x in kept && x.runner in old(runners) ==> x.runner in runners && runners[x.runner] == old(runners)[x.runner]
    {
      hide Consistent;
      assert added[0..] == added;
      for i := 0 to |added|
        invariant Consistent(kept + added[i..]) && runners.Keys == old(runners.Keys)
        invariant forall x :: x in kept && x.runner in old(runners) ==> runners[x.runner] == old(runners)[x.runner]
      {
        Apart(kept, added[i], added[i + 1..]) by {
          assert kept + added[i..] == kept + [added[i]] + added[i + 1..];
        }
        assert kept + added[i..] == kept + [added[i]] + added[i + 1..];
        Drop(kept, added[i], added[i + 1..]);
      }
      assert kept + added[|added|..] == kept;
    }

    /** An address no entry has is free unless another program or the builtin proxy holds it. */
    lemma AddedSoFar(kept: seq<Entry>, added: seq<Entry>, wanted: map<Key, Rule>, k: Key)
      requires Consistent(kept + added) && Keys(kept) <= wanted.Keys && Keys(added) <= wanted.Keys
      requires k !in Keys(kept) && k !in Keys(added)
      ensures Occupied(k) ==> Taken(wanted, k, BuiltinPlace(), outsiders)
    {
      assert forall e :: e in kept + added ==> e.key in Keys(kept) + Keys(added) && Linked(e);
    }

    /** One missing listener more. If it cannot be made, those made before it in this round are closed. */
    method AddOne(ghost kept: seq<Entry>, added: seq<Entry>, rule: Rule, ghost wanted: map<Key, Rule>) returns (e: Option<Entry>)
      requires Consistent(kept + added)
      requires rule.key !in Keys(kept) && rule.key !in Keys(added)
      requires Keys(kept) <= wanted.Keys && Keys(added) <= wanted.Keys
      requires forall x :: x in kept + added ==> x.runner in runners && !runners[x.runner].failed
      modifies this`runners, this`nextId, this`faults, this`listens
      ensures e.Some? ==> Consistent(kept + (added + [e.value])) && e.value.rule == rule && e.value.key == rule.key
      ensures e.Some? ==> listens == old(listens) + [rule.key] && faults == old(faults)
      ensures e.None? ==> Consistent(kept) && listens == old(listens) && faults >= old(faults)
      ensures e.None? ==> faults > old(faults) || Taken(wanted, rule.key, old(BuiltinPlace()), outsiders)
      ensures e.Some? ==> BuiltinPlace() == old(BuiltinPlace())
      ensures e.Some? ==> forall x :: x in kept + (added + [e.value]) ==> x.runner in runners && !runners[x.runner].failed
      ensures e.None? ==> forall x :: x in kept ==> x.runner in runners && !runners[x.runner].failed
    {
      hide Consistent, Occupied, Keys;
      AddedSoFar(kept, added, wanted, rule.key);
      Regroup(kept, added, None);
      Links(kept + added);
      e := Add(kept + added, rule, []);
      Regroup(kept, added, e);
      if e.None? {
        CloseAdded(kept, added);
      }
    }

    /** Last, a listener for every wanted key that had no entry, in any order. */
    method AddMissing(wanted: map<Key, Rule>, existing: set<Key>, kept: seq<Entry>)
      returns (added: seq<Entry>, err: Option<ApplyError>, ghost rebound: seq<Key>)
      requires Consistent(kept) && Keys(kept) <= existing && Keys(kept) <= wanted.Keys
      requires forall x :: x in kept ==> x.runner in runners && !runners[x.runner].failed
      requires forall k :: k in wanted ==> wanted[k].key == k
      modifies this`runners, this`nextId, this`faults, this`listens
      ensures Consistent(kept + added) && (forall x :: x in kept + added ==> x.runner in runners && !runners[x.runner].failed)
      ensures err.None? ==> Filled(wanted, existing, {}, added, rebound)
      ensures err.Some? ==> added == [] && err.value.key in wanted
      ensures err.Some? ==> faults > old(faults) || Taken(wanted, err.value.key, old(BuiltinPlace()), outsiders)
      ensures faults >= old(faults) && listens == old(listens) + rebound
      ensures forall k :: k in rebound ==> k in wanted && k !in existing
    {
      hide *;
      added, err, rebound := [], None, [];
      var todo := wanted.Keys - existing;
      Regroup(kept, [], None);
      FilledStart(wanted, existing);
      while todo != {}
        invariant Consistent(kept + added) && (forall x :: x in kept + added ==> x.runner in runners && !runners[x.runner].failed)
        invariant Filled(wanted, existing, todo, added, rebound)
        invariant BuiltinPlace() == old(BuiltinPlace())
        invariant faults == old(faults) && listens == old(listens) + rebound
        decreases |todo|
      {
        var key :| key in todo;
        FilledNext(wanted, existing, todo, added, rebound, key);
        var e := AddOne(kept, added, wanted[key], wanted);
        if e.None? {
          Regroup(kept, [], None);
          added, err := [], Some(ListenFailed(key));
          return;
        }
        FilledStep(wanted, existing, todo, added, rebound, e.value);
        added, rebound := added + [e.value], rebound + [key];
        todo := todo - {key};
      }
      FilledRebound(wanted, existing, added, rebound);
    }

    /**
      Apply (lines 78-160). It fails only for a key whose place another program or the builtin proxy
      holds or another wanted key means too, or by a fault, and then keeps what was kept or rebuilt.
    */
    method Apply(rules: seq<Rule>)
      returns (err: Option<ApplyError>, ghost wanted: map<Key, Rule>, ghost rebound: seq<Key>)
      requires Valid()
      modifies this`entries, this`runners, this`nextId, this`faults, this`listens
      ensures Valid()
      ensures WantedBy(rules, wanted)
      ensures closed ==> err.None? && rebound == [] && entries == [] && runners == old(runners)
      ensures !closed ==>
                Applied(old(entries), old(runners), wanted, entries, err.None?, faults > old(faults), rebound)
      ensures forall x :: x in entries ==> x.runner in runners && !runners[x.runner].failed
      ensures err.Some? ==> err.value.key in wanted
      ensures err.Some? ==> faults > old(faults) || Taken(wanted, err.value.key, old(BuiltinPlace()), outsiders)
      ensures faults >= old(faults) && listens == old(listens) + rebound
    {
      hide Consistent, Kept, DistinctPlaces, Reconciled, Filled, Applied, Keys, BuiltinPlace, WantedBy;
      var w := Wanted(rules);
      wanted, rebound, err := w, [], None;
      if closed {
        return;
      }
      ghost var before := runners;
      Links(entries);
      var existing := KeysOf(entries);
      CloseUnwanted(w);
      ghost var mid := runners;
      var next;
      next, rebound := KeepWanted(w);
      KeptKeys(entries, w, mid, next, faults > old(faults), rebound);
      ghost var fault := faults > old(faults);
      var added;
      ghost var rebound';
      added, err, rebound' := AddMissing(w, existing, next);
      AppliedFromParts(entries, before, mid, w, next, added, err.None?, fault, faults > old(faults), rebound, rebound');
      entries, rebound := next + added, rebound + rebound';
    }

    // ---- Builtin proxy, tunnel, close ----

    /** A listener for the builtin proxy; setting it as `builtin` keeps the manager consistent. */
    method OpenBuiltin(key: Key) returns (id: Option<Id>)
      requires Consistent(entries) && builtin.None? && key == Key(0, BUILTIN_HOST, key.port)
      modifies this`builtin, this`runners, this`nextId, this`faults, this`listens
      ensures id == builtin && Consistent(entries)
      ensures id.None? ==> runners == old(runners) && nextId == old(nextId) && listens == old(listens)
      ensures id.None? ==> faults == old(faults) + if old(Occupied(key)) then 0 else 1
      ensures id.Some? ==> !old(Occupied(key)) && listens == old(listens) + [key] && faults == old(faults)
      ensures id.Some? ==> id.value in runners && runners[id.value].key == key
      ensures forall r :: r in old(runners) ==> r in runners && runners[r] == old(runners[r])
    {
      forall x | x in entries ensures Holds(x.runner, PlaceOf(x.key)) && x.runner < nextId {
        assert Linked(x);
      }
      id := Open(Rule(key, BUILTIN_TARGET));
      if id.None? {
        assert forall x :: x in entries ==> Linked(x);
        return;
      }
      if quic.Some? {
        runners := runners[id.value := runners[id.value].(quic := quic)];
      }
      builtin := id;
      assert forall x :: x in entries ==> Linked(x);
    }

    /**
      StartBuiltinProxy (lines 164-212): the preferred address, or any free port when that one cannot
      be had. A builtin proxy that is there already stays.
    */
    method StartBuiltin() returns (listen: Option<(Key, bool)>)
      requires Valid()
      modifies this`builtin, this`runners, this`nextId, this`faults, this`listens
      ensures Valid()
      ensures closed ==> listen.None? && listens == old(listens)
      ensures listen.Some? <==> builtin.Some?
      ensures listen.Some? ==> runners[builtin.value].key == listen.value.0
      ensures old(builtin).Some? ==> builtin == old(builtin) && runners == old(runners) && listens == old(listens)
      ensures old(builtin).Some? && listen.Some? ==> (listen.value.1 <==> listen.value.0 != PREFERRED)
      ensures listen.Some? && old(builtin).None? ==>
                !old(Occupied(listen.value.0)) && listens == old(listens) + [listen.value.0]
      ensures listen.Some? && !listen.value.1 ==> listen.value.0 == PREFERRED
      ensures listen.Some? && listen.value.1 && old(builtin).None? ==> old(Occupied(PREFERRED)) || faults > old(faults)
      ensures listen.None? && !closed ==> faults > old(faults) && listens == old(listens) && runners == old(runners)
      ensures forall r :: r in old(runners) ==> r in runners && runners[r] == old(runners[r])
    {
      if closed {
        return None;
      }
      if builtin.Some? {
        var key := runners[builtin.value].key;
        return Some((key, key.port != PROXY_PORT));
      }
      var key, fallback := PREFERRED, false;
      var id := OpenBuiltin(key);
      if id.None? {
        var port: nat := *;
        key, fallback := Key(0, BUILTIN_HOST, port), true;
        if Occupied(key) {
          faults := faults + 1;
          return None;
        }
        id := OpenBuiltin(key);
        if id.None? {
          return None;
        }
      }
      listen := Some((key, fallback));
    }

    method CloseBuiltin()
      requires Consistent(entries)
      modifies this`builtin, this`runners
      ensures Consistent(entries) && builtin.None?
      ensures runners.Keys == old(runners.Keys)
      ensures old(builtin).None? ==> runners == old(runners)
      ensures old(builtin).Some? ==>
                !runners[old(builtin).value].open && runners[old(builtin).value].quic.None?
                && forall r :: r in runners && r != old(builtin).value ==> runners[r] == old(runners[r])
    {
      if builtin.None? {
        return;
      }
      assert forall e :: e in entries ==> Linked(e) && e.runner != builtin.value;
      runners := runners[builtin.value := runners[builtin.value].(quic := None)];
      CloseRunner(builtin.value);
      builtin := None;
      assert forall e :: e in entries ==> Linked(e);
    }

    /** StopBuiltinProxy (lines 215-224): the entries and their runners stay as they are. */
    method StopBuiltin()
      requires Valid()
      modifies this`builtin, this`runners
      ensures Valid() && builtin.None?
      ensures forall r :: old(builtin) == Some(r) ==> r in runners && !runners[r].open
      ensures forall e :: e in entries ==> e.runner in runners && runners[e.runner] == old(runners)[e.runner]
    {
      assert forall e :: e in entries ==> Linked(e);
      CloseBuiltin();
    }

    method SetRunnerQuic(r: Id)
      requires r in runners
      modifies this`runners
      ensures runners == old(runners)[r := old(runners)[r].(quic := quic)]
    {
      runners := runners[r := runners[r].(quic := quic)];
    }

    method SetEntriesQuic()
      requires forall e :: e in entries ==> e.runner in runners
      modifies this`runners
      ensures runners.Keys == old(runners.Keys)
      ensures forall r :: r in runners ==> runners[r].(quic := old(runners)[r].quic) == old(runners)[r]
      ensures forall e :: e in entries ==> runners[e.runner].quic == quic
      ensures forall r :: r in runners && old(runners)[r].quic == quic ==> runners[r].quic == quic
    {
      for i := 0 to |entries|
        invariant runners.Keys == old(runners.Keys)
        invariant forall r :: r in runners ==> runners[r].(quic := old(runners)[r].quic) == old(runners)[r]
        invariant forall j :: 0 <= j < i ==> runners[entries[j].runner].quic == quic
        invariant forall r :: r in runners && old(runners)[r].quic == quic ==> runners[r].quic == quic
      {
        SetRunnerQuic(entries[i].runner);
      }
    }

    twostate lemma Relinked()
      requires old(Consistent(entries))
      requires entries == old(entries) && builtin == old(builtin) && nextId == old(nextId) && outsiders == old(outsiders)
      requires runners.Keys == old(runners.Keys)
      requires forall r :: r in runners ==> runners[r].(quic := old(runners)[r].quic) == old(runners)[r]
      requires forall e :: e in entries ==> e.runner in runners && runners[e.runner].quic == quic
      requires builtin.Some? ==> builtin.value in runners && runners[builtin.value].quic == quic
      ensures Consistent(entries)
    {
      assert forall e :: e in entries ==> old(Linked(e)) && Linked(e);
    }

    /** SetQuic (lines 226-237): afterwards every listener goes through the new tunnel, or none. */
    method SetQuic(conn: Option<Tunnel>)
      requires Valid()
      modifies this`quic, this`runners
      ensures Valid()
      ensures quic == if closed then old(quic) else conn
      ensures runners.Keys == old(runners.Keys)
      ensures forall r :: r in runners ==> runners[r].(quic := old(runners[r]).quic) == old(runners[r])
    {
      if closed {
        return;
      }
      Links(entries);
      hide *;
      quic := conn;
      if builtin.Some? {
        SetRunnerQuic(builtin.value);
      }
      SetEntriesQuic();
      Relinked();
    }

    /** Close (lines 250-265): everything is closed; nothing opens afterwards, as every method then returns early. */
    method Close()
      requires Valid()
      modifies this`entries, this`builtin, this`quic, this`closed, this`runners
      ensures Valid() && closed
      ensures forall r :: r in runners ==> !runners[r].open
    {
      Links(entries);
      OwnersOnly();
      hide *;
      closed, quic := true, None;
      if builtin.Some? {
        SetRunnerQuic(builtin.value);
        CloseRunner(builtin.value);
        builtin := None;
      }
      CloseEntries();
      entries := [];
      AllClosed();
    }

    method CloseEntries()
      requires forall e :: e in entries ==> e.runner in runners
      requires forall r :: r in runners && runners[r].open ==> exists j :: 0 <= j < |entries| && entries[j].runner == r
      modifies this`runners
      ensures runners.Keys == old(runners.Keys) && forall r :: r in runners ==> !runners[r].open
    {
      for i := 0 to |entries|
        invariant runners.Keys == old(runners.Keys)
        invariant forall r :: r in runners && runners[r].open ==> old(runners)[r].open
        invariant forall j :: 0 <= j < i ==> !runners[entries[j].runner].open
      {
        SetRunnerQuic(entries[i].runner);
        CloseRunner(entries[i].runner);
      }
    }

    lemma OwnersOnly()
      requires Consistent(entries)
      ensures forall r :: r in runners ==> r < nextId
      ensures forall r :: r in runners && runners[r].open ==>
                builtin == Some(r) || exists j :: 0 <= j < |entries| && entries[j].runner == r
    {
    }

    lemma AllClosed()
      requires closed && quic.None? && builtin.None? && entries == []
      requires forall r :: r in runners ==> !runners[r].open && r < nextId
      ensures Valid()
    {
    }

    // ---- What happens around the manager ----

    /** A listener's Serve loop ends: its runner reports failed and keeps its address until it is closed. */
    method RunnerFails(r: Id)
      requires Valid() && r in runners
      modifies this`runners
      ensures Valid() && runners == old(runners)[r := old(runners[r]).(failed := true)]
    {
      assert forall e :: e in entries ==> Linked(e);
      runners := runners[r := runners[r].(failed := true)];
      assert forall e :: e in entries ==> Linked(e);
    }

    /** Another program binds a free address or gives one up. */
    method OutsiderMoves(k: Place, binds: bool)
      requires Valid() && (binds ==> forall r :: r in runners ==> !Holds(r, k))
      modifies this`outsiders
      ensures Valid() && outsiders == if binds then old(outsiders) + {k} else old(outsiders) - {k}
    {
      assert forall e :: e in entries ==> Linked(e);
      outsiders := if binds then outsiders + {k} else outsiders - {k};
    }

    /** Every open listener has one owner, and it is served through the manager's tunnel. */
    lemma OneOwner(r: Id)
      requires Valid() && r in runners && runners[r].open
      ensures runners[r].quic == quic
      ensures builtin == Some(r) ==> r !in set e | e in entries :: e.runner
      ensures builtin != Some(r) ==> exists i :: 0 <= i < |entries| && entries[i].runner == r
      ensures forall i, j :: 0 <= i < |entries| && 0 <= j < |entries| && entries[i].runner == entries[j].runner ==> i == j
      ensures forall i, j :: 0 <= i < j < |entries| ==> !SamePlace(entries[i].key, entries[j].key)
    {
      assert forall e :: e in entries ==> Linked(e);
      forall i, j | 0 <= i < |entries| && 0 <= j < |entries| && entries[i].runner == entries[j].runner
        ensures i == j
      {
        assert Linked(entries[i]) && Linked(entries[j]);
      }
    }
  }
}
