/**
  config/uiconfig.go: normalising and checking the list of services. Parsing and printing of network
  addresses is a parameter.
*/
module UiConfig {
  import opened Base
  import opened Text
  import Decimal
  import Rendezvous

  const TUN := "tun"
  const FORWARD := "forward"
  const MAX_NAME: nat := 32
  const SEGMENT_MIN: nat := 19
  const SEGMENT_MAX: nat := 254

  datatype HostPort = HostPort(host: string, port: nat)

  datatype Rule = Rule(proto: string, listen: string, remote: string)

  datatype Service = Service(
    id: string,
    name: string,
    workType: string,
    tunKey: string,
    localMode: string,
    transport: string,
    tunIP: string,
    autoStart: bool,
    rules: seq<Rule>,
    allowProxy: Option<bool>)

  /**
    The address functions: parseHostPortIPv4, net.JoinHostPort of its results, the four bytes of an
    IPv4 text (spaces around it allowed), and "192.17.N.1".
  */
  datatype Net = Net(
    parse: string -> Option<HostPort>,
    print_: HostPort -> string,
    ip4: string -> Option<Bytes>,
    tunText: nat -> string)

  /** What is printed is parsed back, and a blank text is no address. */
  ghost predicate Lawful(net: Net) {
    && (forall s :: net.parse(s).Some? ==> net.parse(net.print_(net.parse(s).value)) == net.parse(s))
    && (forall n :: SEGMENT_MIN <= n <= SEGMENT_MAX ==> net.ip4(net.tunText(n)) == Some([192, 17, n, 1]))
    && (forall s :: Trim(s) == "" ==> net.ip4(s).None?)
  }

  // ---- One service ----

  predicate IsControl(c: char) {
    c < ' ' || '\U{7F}' <= c <= '\U{9F}'
  }

  predicate GoodName(s: string) {
    s != "" && Trimmed(s) && |s| <= MAX_NAME && forall c :: c in s ==> !IsControl(c)
  }

  predicate TunIPOK(net: Net, s: string) {
    var b := net.ip4(s);
    b.Some? && |b.value| == 4 && b.value[0] == 192 && b.value[1] == 17 && b.value[3] == 1 && b.value[2] >= 1
  }

  /** A rule as a normalised configuration holds it. */
  predicate RuleOK(net: Net, r: Rule) {
    && (r.proto == "tcp" || r.proto == "udp")
    && net.parse(r.listen).Some? && net.print_(net.parse(r.listen).value) == r.listen
    && net.parse(r.remote).Some? && net.print_(net.parse(r.remote).value) == r.remote
  }

  function ListenKey(r: Rule): string {
    Plain(r.proto) + "|" + r.listen
  }

  predicate DistinctListens(rules: seq<Rule>) {
    forall i, j :: 0 <= i < j < |rules| ==> (rules[i].proto, rules[i].listen) != (rules[j].proto, rules[j].listen)
  }

  predicate RulesOK(net: Net, rules: seq<Rule>) {
    (forall i :: 0 <= i < |rules| ==> RuleOK(net, rules[i])) && DistinctListens(rules)
  }

  /** Everything about one service that does not depend on the others, except its address. */
  predicate Clean(net: Net, s: Service) {
    && s.id != "" && Trimmed(s.id)
    && GoodName(s.name)
    && Trimmed(s.workType) && Trimmed(s.tunKey)
    && ModeOK(net, s)
  }

  predicate ModeOK(net: Net, s: Service) {
    (s.localMode == TUN || s.localMode == FORWARD) && Rendezvous.KnownTransport(s.transport) && RulesOK(net, s.rules)
  }

  // ---- The whole list ----

  ghost predicate DistinctFrom(a: Service, b: Service) {
    && a.id != b.id && a.name != b.name && a.tunIP != b.tunIP
    && (a.tunKey != "" ==> a.tunKey != b.tunKey)
    && (a.localMode == FORWARD && b.localMode == FORWARD ==>
          forall r, q :: r in a.rules && q in b.rules ==> (r.proto, r.listen) != (q.proto, q.listen))
  }

  ghost predicate Compatible(net: Net, ss: seq<Service>) {
    && (forall i :: 0 <= i < |ss| ==> Clean(net, ss[i]) && TunIPOK(net, ss[i].tunIP))
    && (forall i, j :: 0 <= i < j < |ss| ==> DistinctFrom(ss[i], ss[j]))
  }

  ghost predicate OneAutoStart(ss: seq<Service>) {
    forall i, j :: 0 <= i < j < |ss| ==> !(ss[i].autoStart && ss[j].autoStart)
  }

  /** What NormalizeAndValidate promises of its result. */
  ghost predicate Canonical(net: Net, ss: seq<Service>) {
    Compatible(net, ss) && OneAutoStart(ss)
  }

  // ---- Names ----

  function DefaultName(n: nat): string {
    "\U{670D}\U{52A1}" + Decimal.Text(n)
  }

  lemma DefaultNamesDiffer(m: nat, n: nat)
    ensures DefaultName(m) == DefaultName(n) <==> m == n
  {
    Decimal.ReadsBack(m);
    Decimal.ReadsBack(n);
    assert DefaultName(m)[2..] == Decimal.Text(m) && DefaultName(n)[2..] == Decimal.Text(n);
  }

  lemma {:induction false} DigitsShort(n: nat, k: nat)
    requires n < Decimal.Pow10(k)
    ensures |Decimal.Digits(n)| <= k
    ensures forall c :: c in Decimal.Digits(n) ==> '0' <= c <= '9'
    decreases k
  {
    if n > 0 {
      DigitsShort(n / 10, k - 1);
    }
  }

  lemma DefaultNameGood(n: nat)
    requires n < Decimal.Pow10(30)
    ensures GoodName(DefaultName(n))
  {
    DigitsShort(n, 30);
    hide Decimal.Digits, Decimal.Pow10;
    var t := Decimal.Text(n);
    assert 0 < |t| <= 30 && forall c :: c in t ==> '0' <= c <= '9';
    GoodPrefixed(t);
  }

  lemma GoodPrefixed(t: string)
    requires 0 < |t| <= 30 && forall c :: c in t ==> '0' <= c <= '9'
    ensures GoodName("\U{670D}\U{52A1}" + t)
  {
    var s := "\U{670D}\U{52A1}" + t;
    assert s[|s| - 1] == t[|t| - 1] && t[|t| - 1] in t;
  }

  datatype NameError = TooLong | ControlCharacter | Taken

  /** The first number from `index + 1` on whose default name is free. */
  ghost predicate FirstFree(used: set<string>, index: nat, n: nat) {
    n > index && DefaultName(n) !in used && forall m: nat :: index < m < n ==> DefaultName(m) in used
  }

  /** normalizeServiceName: a blank name gets the first free default one from `index + 1` on. */
  method NormalizeName(name: string, used: set<string>, index: nat) returns (r: Option<string>, err: Option<NameError>)
    requires index + |used| + 1 < Decimal.Pow10(30)
    ensures r.Some? <==> err.None?
    ensures r.Some? ==> GoodName(r.value) && r.value !in used
    ensures Trim(name) == "" ==>
              exists n: nat :: FirstFree(used, index, n) && n <= index + 1 + |used| && r == Some(DefaultName(n))
    ensures Trim(name) != "" && r.Some? ==> r.value == Trim(name)
    ensures Trim(name) != "" && r.None? ==> !GoodName(Trim(name)) || Trim(name) in used
    ensures err.Some? ==> match err.value
                          case TooLong => |Trim(name)| > 32
                          case ControlCharacter => exists c :: c in Trim(name) && IsControl(c)
                          case Taken => Trim(name) in used && Trim(name) != ""
  {
    TrimExact(name);
    var t := Trim(name);
    err := None;
    if t == "" {
      var n: nat := index + 1;
      ghost var rest := used;
      while DefaultName(n) in used
        invariant index < n && rest <= used && n == index + 1 + |used| - |rest|
        invariant forall m: nat :: index < m < n ==> DefaultName(m) in used
        invariant forall m: nat :: m >= n && DefaultName(m) in used ==> DefaultName(m) in rest
        decreases |rest|
      {
        forall m: nat | m > n ensures DefaultName(m) != DefaultName(n) {
          DefaultNamesDiffer(m, n);
        }
        rest := rest - {DefaultName(n)};
        n := n + 1;
      }
      DefaultNameGood(n);
      assert FirstFree(used, index, n);
      return Some(DefaultName(n)), None;
    }
    if |t| > MAX_NAME {
      return None, Some(TooLong);
    }
    if exists c :: c in t && IsControl(c) {
      return None, Some(ControlCharacter);
    }
    if t in used {
      return None, Some(Taken);
    }
    r := Some(t);
  }

  // ---- Mode and rules ----

  function ModeOf(s: string): string {
    if Plain(s) == "" then TUN else Plain(s)
  }

  /** The names are understood with spaces around them and in any case; a blank one means "tun" or "kcp". */
  lemma NamesMean(s: string)
    ensures ModeOf(s) == FORWARD <==> Lower(Trim(s)) == "forward"
    ensures ModeOf(s) == TUN <==> Lower(Trim(s)) == "tun" || Trim(s) == ""
    ensures Rendezvous.NormalizeTransport(s) == "quic" <==> Lower(Trim(s)) == "quic"
    ensures Rendezvous.NormalizeTransport(s) == "kcp" <==> Lower(Trim(s)) == "kcp" || Trim(s) == ""
  {
    hide Trim;
    assert Trim(s) == "" <==> Lower(Trim(s)) == "";
  }

  predicate Letters(s: string) {
    s != "" && forall i :: 0 <= i < |s| ==> 'a' <= s[i] <= 'z'
  }

  lemma PlainLetters(s: string)
    requires Letters(s)
    ensures Plain(s) == s
  {
    TrimExact(s);
    hide Trim;
    assert Lower(s) == s;
  }

  lemma KnownPlain(s: string)
    requires s in {TUN, FORWARD, "tcp", "udp", Rendezvous.QUIC, Rendezvous.KCP}
    ensures Plain(s) == s
  {
    assert Letters(TUN) && Letters(FORWARD);
    assert Letters("tcp") && Letters("udp");
    assert Letters(Rendezvous.QUIC) && Letters(Rendezvous.KCP);
    hide Plain, Letters;
    PlainLetters(s);
  }

  /** The normal form of one rule, if it has one. */
  function NormalRule(net: Net, r: Rule): Option<Rule> {
    var listen, remote := net.parse(r.listen), net.parse(r.remote);
    if (Plain(r.proto) != "tcp" && Plain(r.proto) != "udp") || listen.None? || remote.None? then None
    else Some(Rule(Plain(r.proto), net.print_(listen.value), net.print_(remote.value)))
  }

  lemma NormalRuleOK(net: Net, r: Rule)
    requires Lawful(net)
    ensures NormalRule(net, r).Some? ==> RuleOK(net, NormalRule(net, r).value)
    ensures RuleOK(net, r) <==> NormalRule(net, r) == Some(r)
  {
    if RuleOK(net, r) {
      KnownPlain(r.proto);
    }
  }

  lemma KeysTell(a: Rule, b: Rule)
    requires a.proto in {"tcp", "udp"} && b.proto in {"tcp", "udp"}
    ensures ListenKey(a) == ListenKey(b) <==> (a.proto, a.listen) == (b.proto, b.listen)
  {
    KnownPlain(a.proto);
    KnownPlain(b.proto);
    assert ListenKey(a)[..3] == a.proto && ListenKey(b)[..3] == b.proto;
    assert ListenKey(a)[4..] == a.listen && ListenKey(b)[4..] == b.listen;
  }

  function KeySet(rules: seq<Rule>): set<string> {
    set r | r in rules :: ListenKey(r)
  }

  lemma AddRule(net: Net, acc: seq<Rule>, r: Rule)
    requires RulesOK(net, acc) && RuleOK(net, r)
    ensures ListenKey(r) !in KeySet(acc) <==> RulesOK(net, acc + [r])
    ensures KeySet(acc + [r]) == KeySet(acc) + {ListenKey(r)}
  {
    hide ListenKey;
    forall j | 0 <= j < |acc|
      ensures ListenKey(acc[j]) == ListenKey(r) <==> (acc[j].proto, acc[j].listen) == (r.proto, r.listen)
    {
      assert RuleOK(net, acc[j]);
      KeysTell(acc[j], r);
    }
    var more := acc + [r];
    assert forall j :: 0 <= j < |acc| ==> more[j] == acc[j];
    assert ListenKey(r) !in KeySet(acc) <==> forall j :: 0 <= j < |acc| ==> ListenKey(acc[j]) != ListenKey(r);
    if DistinctListens(more) {
      assert forall j :: 0 <= j < |acc| ==> (more[j].proto, more[j].listen) != (more[|acc|].proto, more[|acc|].listen);
    }
  }

  lemma RulesPrefix(net: Net, rules: seq<Rule>, i: nat)
    requires RulesOK(net, rules) && i < |rules|
    ensures RuleOK(net, rules[i]) && RulesOK(net, rules[..i + 1]) && rules[..i + 1] == rules[..i] + [rules[i]]
  {
  }

  lemma NoRules(net: Net)
    ensures RulesOK(net, []) && KeySet([]) == {}
  {
  }

  /** Some rule has no normal form, or two of them listen at the same place once they are in it. */
  ghost predicate RulesBroken(net: Net, rules: seq<Rule>) {
    || (exists i :: 0 <= i < |rules| && NormalRule(net, rules[i]).None?)
    || (exists i, j :: 0 <= i < j < |rules| && SameListen(NormalRule(net, rules[i]), NormalRule(net, rules[j])))
  }

  predicate SameListen(a: Option<Rule>, b: Option<Rule>) {
    a.Some? && b.Some? && (a.value.proto, a.value.listen) == (b.value.proto, b.value.listen)
  }

  /** A rule whose key is taken listens where an earlier one does. */
  lemma KeyTakenBy(net: Net, acc: seq<Rule>, r: Rule) returns (j: nat)
    requires RulesOK(net, acc) && RuleOK(net, r) && ListenKey(r) in KeySet(acc)
    ensures j < |acc| && (acc[j].proto, acc[j].listen) == (r.proto, r.listen)
  {
    j :| 0 <= j < |acc| && ListenKey(acc[j]) == ListenKey(r);
    assert RuleOK(net, acc[j]);
    KeysTell(acc[j], r);
  }

  lemma NotBroken(net: Net, rules: seq<Rule>, out: seq<Rule>)
    requires RulesOK(net, out) && |out| == |rules| && forall i :: 0 <= i < |rules| ==> Some(out[i]) == NormalRule(net, rules[i])
    ensures !RulesBroken(net, rules)
  {
    hide RuleOK, NormalRule;
    forall i, j | 0 <= i < j < |rules| ensures !SameListen(NormalRule(net, rules[i]), NormalRule(net, rules[j])) {
      assert (out[i].proto, out[i].listen) != (out[j].proto, out[j].listen);
    }
  }

  /** The rules of normalizeServiceMode: all have a normal form, and no two of them listen at the same place. */
  method NormalizeRules(net: Net, rules: seq<Rule>) returns (out: Option<seq<Rule>>)
    requires Lawful(net)
    ensures out.Some? ==> RulesOK(net, out.value) && |out.value| == |rules|
    ensures out.Some? ==> forall i :: 0 <= i < |rules| ==> Some(out.value[i]) == NormalRule(net, rules[i])
    ensures RulesOK(net, rules) <==> out == Some(rules)
    ensures out.None? <==> RulesBroken(net, rules)
  {
    hide *;
    var acc: seq<Rule>, seen: set<string> := [], {};
    NoRules(net);
    for i := 0 to |rules|
      invariant |acc| == i && RulesOK(net, acc)
      invariant forall j :: 0 <= j < i ==> Some(acc[j]) == NormalRule(net, rules[j])
      invariant seen == KeySet(acc)
      invariant RulesOK(net, rules) ==> acc == rules[..i]
    {
      var n, added := NormalizeRule(net, rules, i, acc, seen);
      if !added {
        return None;
      }
      acc, seen := acc + [n], seen + {ListenKey(n)};
    }
    assert rules[..|rules|] == rules;
    out := Some(acc);
    NotBroken(net, rules, acc);
  }

  method NormalizeRule(net: Net, rules: seq<Rule>, i: nat, acc: seq<Rule>, seen: set<string>) returns (n: Rule, added: bool)
    requires Lawful(net) && i < |rules| && RulesOK(net, acc) && seen == KeySet(acc)
    requires RulesOK(net, rules) ==> acc == rules[..i]
    requires |acc| == i && forall j :: 0 <= j < i ==> Some(acc[j]) == NormalRule(net, rules[j])
    ensures !added ==> RulesBroken(net, rules)
    ensures added ==> NormalRule(net, rules[i]) == Some(n) && RulesOK(net, acc + [n])
    ensures added ==> seen + {ListenKey(n)} == KeySet(acc + [n])
    ensures RulesOK(net, rules) ==> added && acc + [n] == rules[..i + 1]
  {
    hide RulesOK, NormalRule, RuleOK, ListenKey, Lawful, KeySet;
    if RulesOK(net, rules) {
      RulesPrefix(net, rules, i);
    }
    n := rules[i];
    NormalRuleOK(net, rules[i]);
    var o := NormalRule(net, rules[i]);
    if o.None? {
      return n, false;
    }
    n := o.value;
    AddRule(net, acc, n);
    added := ListenKey(n) !in seen;
    if !added {
      ghost var j := KeyTakenBy(net, acc, n);
      assert SameListen(NormalRule(net, rules[j]), NormalRule(net, rules[i]));
    }
  }

  // ---- The whole list, service by service ----

  ghost predicate ModeDerived(net: Net, was: Service, now: Service) {
    && now.localMode == ModeOf(was.localMode)
    && now.transport == Rendezvous.NormalizeTransport(was.transport)
    && |now.rules| == |was.rules|
    && (forall k :: 0 <= k < |was.rules| ==> Some(now.rules[k]) == NormalRule(net, was.rules[k]))
  }

  /** What a service becomes, where that does not depend on the other services. */
  ghost predicate Derived(net: Net, was: Service, now: Service) {
    && (Trim(was.id) != "" ==> now.id == Trim(was.id))
    && (Trim(was.name) != "" ==> now.name == Trim(was.name))
    && now.workType == Trim(was.workType) && now.tunKey == Trim(was.tunKey)
    && ModeDerived(net, was, now)
    && now.allowProxy == was.allowProxy
    && (Trim(was.tunIP) != "" ==> now.tunIP == was.tunIP)
  }

  datatype Problem =
    | DuplicateId | BadName(why: NameError) | DuplicateKey | BadMode | BadTransport | BadRules
    | BadTunIP | DuplicateTunIP | ListenConflict

  /** What the services before this one have used up. */
  datatype Seen = Seen(ids: set<string>, names: set<string>, keys: set<string>, ips: set<string>, listens: map<string, string>)

  /** A service that is already in normal form, and clashes with nobody so far. */
  ghost predicate Settled(net: Net, s: Service, seen: Seen) {
    Clean(net, s) && s.id !in seen.ids && s.name !in seen.names && s.tunKey !in seen.keys
  }

  lemma CleanFixed(net: Net, s: Service)
    requires Clean(net, s)
    ensures Trim(s.id) == s.id && Trim(s.name) == s.name && Trim(s.workType) == s.workType && Trim(s.tunKey) == s.tunKey
    ensures s.name != ""
  {
    TrimExact(s.id);
    TrimExact(s.name);
    TrimExact(s.workType);
    TrimExact(s.tunKey);
  }

  /** Why one service is refused: what is wrong with it, or what it shares with one before it. */
  ghost predicate ServiceWhy(net: Net, was: Service, newId: string, seen: Seen, pr: Problem) {
    match pr
    case DuplicateId => (if Trim(was.id) == "" then newId else Trim(was.id)) in seen.ids
    case BadName(TooLong) => |Trim(was.name)| > 32
    case BadName(ControlCharacter) => exists c :: c in Trim(was.name) && IsControl(c)
    case BadName(Taken) => Trim(was.name) in seen.names && Trim(was.name) != ""
    case DuplicateKey => Trim(was.tunKey) in seen.keys && Trim(was.tunKey) != ""
    case BadMode => ModeOf(was.localMode) != TUN && ModeOf(was.localMode) != FORWARD
    case BadTransport => !Rendezvous.KnownTransport(Rendezvous.NormalizeTransport(was.transport))
    case BadRules => RulesBroken(net, was.rules)
    case _ => false
  }

  /** The loop body of NormalizeAndValidate up to the mode and the rules; `newId` is the random id. */
  method NormalizeService(net: Net, was: Service, index: nat, newId: string, seen: Seen)
    returns (now: Service, err: Option<Problem>)
    requires Lawful(net) && newId != "" && Trimmed(newId) && "" !in seen.keys
    requires index + |seen.names| + 1 < Decimal.Pow10(30)
    ensures err.None? ==> Derived(net, was, now) && Settled(net, now, seen)
    ensures err.None? ==> now.tunIP == was.tunIP && now.autoStart == was.autoStart
    ensures Settled(net, was, seen) ==> err.None? && now == was
    ensures err.Some? ==> ServiceWhy(net, was, newId, seen, err.value)
    ensures err.None? ==> (Trim(was.id) == "" ==> now.id == newId)
    ensures err.None? ==>
              (Trim(was.name) == "" ==> exists n: nat :: FirstFree(seen.names, index, n) && now.name == DefaultName(n))
  {
    hide Lawful, NormalRule, RulesBroken, FirstFree, ModeOK, GoodName, Trimmed, Trim, Plain, Decimal.Pow10, DefaultName;
    if Settled(net, was, seen) {
      CleanFixed(net, was);
    }
    TrimTexts(was);
    now := was.(id := Trim(was.id));
    if now.id == "" {
      now := now.(id := newId);
    }
    if now.id in seen.ids {
      return now, Some(DuplicateId);
    }
    var name, nameErr := NormalizeName(was.name, seen.names, index);
    if nameErr.Some? {
      return now, Some(BadName(nameErr.value));
    }
    now := now.(name := name.value, workType := Trim(was.workType), tunKey := Trim(was.tunKey));
    if now.tunKey != "" && now.tunKey in seen.keys {
      return now, Some(DuplicateKey);
    }
    now, err := NormalizeMode(net, now);
  }

  /** normalizeServiceMode. */
  method NormalizeMode(net: Net, was: Service) returns (now: Service, err: Option<Problem>)
    requires Lawful(net)
    ensures now == was.(localMode := now.localMode, transport := now.transport, rules := now.rules)
    ensures err.None? ==> ModeDerived(net, was, now) && ModeOK(net, now)
    ensures ModeOK(net, was) ==> err.None? && now == was
    ensures err.Some? ==> match err.value
                          case BadMode => ModeOf(was.localMode) !in {TUN, FORWARD}
                          case BadTransport => !Rendezvous.KnownTransport(Rendezvous.NormalizeTransport(was.transport))
                          case BadRules => RulesBroken(net, was.rules)
                          case _ => false
  {
    hide Lawful, NormalRule, RulesOK, RulesBroken, Plain;
    if ModeOK(net, was) {
      KnownPlain(was.localMode);
      KnownPlain(was.transport);
    }
    now := was.(localMode := ModeOf(was.localMode));
    if now.localMode != TUN && now.localMode != FORWARD {
      return now, Some(BadMode);
    }
    now := now.(transport := Rendezvous.NormalizeTransport(was.transport));
    if now.transport != Rendezvous.QUIC && now.transport != Rendezvous.KCP {
      return now, Some(BadTransport);
    }
    var rules := NormalizeRules(net, was.rules);
    if rules.None? {
      return now, Some(BadRules);
    }
    now := now.(rules := rules.value);
    err := None;
  }

  lemma TrimTexts(s: Service)
    ensures Trimmed(Trim(s.id)) && Trimmed(Trim(s.workType)) && Trimmed(Trim(s.tunKey))
  {
    TrimExact(s.id);
    TrimExact(s.workType);
    TrimExact(s.tunKey);
  }

  ghost predicate Listens(ss: seq<Service>, key: string) {
    exists s :: s in ss && s.localMode == FORWARD && key in KeySet(s.rules)
  }

  /** `seen` is what the services of `ss` have used up. */
  ghost predicate SeenOf(seen: Seen, ss: seq<Service>) {
    && seen.ids == (set s | s in ss :: s.id)
    && seen.names == (set s | s in ss :: s.name)
    && seen.keys == (set s | s in ss && s.tunKey != "" :: s.tunKey)
    && seen.ips == (set s | s in ss :: s.tunIP)
    && (forall k :: k in seen.listens <==> Listens(ss, k))
    && (forall k :: k in seen.listens ==> seen.listens[k] in seen.ids)
  }

  /** No rule of a forwarding service listens where one of `listens` does. */
  predicate NoClash(s: Service, listens: set<string>) {
    s.localMode == FORWARD ==> KeySet(s.rules) !! listens
  }

  lemma FreshFrom(net: Net, ss: seq<Service>, s: Service, seen: Seen, i: nat)
    requires Compatible(net, ss) && SeenOf(seen, ss) && Settled(net, s, seen) && i < |ss|
    ensures s.tunIP !in seen.ips && NoClash(s, seen.listens.Keys) ==> DistinctFrom(ss[i], s)
  {
    var a := ss[i];
    assert a in ss;
    if a.localMode == FORWARD && s.localMode == FORWARD && NoClash(s, seen.listens.Keys) {
      forall r, q | r in a.rules && q in s.rules ensures (r.proto, r.listen) != (q.proto, q.listen) {
        assert Clean(net, a) && RuleOK(net, r) && RuleOK(net, q);
        assert ListenKey(r) in KeySet(a.rules) && ListenKey(q) in KeySet(s.rules) && Listens(ss, ListenKey(r));
        KeysTell(r, q);
      }
    }
  }

  /** One more service that clashes with none before it. */
  lemma AddService(net: Net, ss: seq<Service>, s: Service, seen: Seen)
    requires Compatible(net, ss) && SeenOf(seen, ss) && Settled(net, s, seen)
    requires TunIPOK(net, s.tunIP) && s.tunIP !in seen.ips && NoClash(s, seen.listens.Keys)
    ensures Compatible(net, ss + [s])
  {
    forall i | 0 <= i < |ss| ensures DistinctFrom(ss[i], s) {
      FreshFrom(net, ss, s, seen, i);
    }
    hide DistinctFrom, TunIPOK, SeenOf, Settled, NoClash;
    assert Clean(net, s) by {
      SettledClean(net, s, seen);
    }
  }

  lemma SettledClean(net: Net, s: Service, seen: Seen)
    requires Settled(net, s, seen)
    ensures Clean(net, s)
  {
  }

  lemma AddSeen(ss: seq<Service>, s: Service, seen: Seen, listens: map<string, string>)
    requires SeenOf(seen, ss)
    requires listens.Keys == seen.listens.Keys + if s.localMode == FORWARD then KeySet(s.rules) else {}
    requires forall k :: k in listens ==> listens[k] in seen.ids + {s.id}
    ensures SeenOf(Seen(seen.ids + {s.id}, seen.names + {s.name}, if s.tunKey != "" then seen.keys + {s.tunKey} else seen.keys,
                        seen.ips + {s.tunIP}, listens), ss + [s])
  {
    hide KeySet;
    forall k ensures k in listens <==> Listens(ss + [s], k) {
      if Listens(ss, k) {
        var t :| t in ss && t.localMode == FORWARD && k in KeySet(t.rules);
        assert t in ss + [s];
      }
      assert s in ss + [s];
    }
  }

  /** The check of a service's listening rules against those of the services before it. */
  method CheckListens(rules: seq<Rule>, id: string, listens: map<string, string>)
    returns (after: map<string, string>, ok: bool)
    requires id !in listens.Values
    ensures ok <==> KeySet(rules) !! listens.Keys
    ensures ok ==> after.Keys == listens.Keys + KeySet(rules)
    ensures ok ==> forall k :: k in after ==> after[k] == id || (k in listens && after[k] == listens[k])
  {
    hide ListenKey;
    after, ok := listens, true;
    for i := 0 to |rules|
      invariant after.Keys == listens.Keys + KeySet(rules[..i]) && KeySet(rules[..i]) !! listens.Keys
      invariant forall k :: k in after ==> if k in listens then after[k] == listens[k] else after[k] == id
    {
      var key := ListenKey(rules[i]);
      assert rules[..i + 1] == rules[..i] + [rules[i]];
      assert key in listens ==> after[key] == listens[key] && listens[key] in listens.Values;
      if key in after && after[key] != id {
        assert key in listens && key in KeySet(rules);
        return after, false;
      }
      after := after[key := id];
    }
    assert rules[..|rules|] == rules;
  }

  /** The third byte of a 192.17.x.1 address. */
  function SegmentOf(net: Net, ip: string): Option<nat> {
    var b := net.ip4(ip);
    if b.Some? && |b.value| == 4 && b.value[0] == 192 && b.value[1] == 17 && b.value[3] == 1 then Some(b.value[2]) else None
  }

  ghost predicate SegmentUsed(net: Net, ss: seq<Service>, n: nat) {
    exists s :: s in ss && SegmentOf(net, s.tunIP) == Some(n)
  }

  ghost predicate LeastFree(net: Net, ss: seq<Service>, n: nat) {
    SEGMENT_MIN <= n <= SEGMENT_MAX && !SegmentUsed(net, ss, n)
    && forall m :: SEGMENT_MIN <= m < n ==> SegmentUsed(net, ss, m)
  }

  /** AllocateTunIP: the least segment from 19 to 254 that no service has, or nothing. */
  method AllocateTunIP(net: Net, ss: seq<Service>) returns (ip: string)
    ensures (exists n: nat :: LeastFree(net, ss, n) && ip == net.tunText(n))
            || (ip == "" && forall n :: SEGMENT_MIN <= n <= SEGMENT_MAX ==> SegmentUsed(net, ss, n))
  {
    var used: set<nat> := {};
    for i := 0 to |ss|
      invariant forall n :: n in used <==> SegmentUsed(net, ss[..i], n)
    {
      var n := SegmentOf(net, ss[i].tunIP);
      assert ss[..i + 1] == ss[..i] + [ss[i]];
      forall m: nat ensures SegmentUsed(net, ss[..i + 1], m) <==> SegmentUsed(net, ss[..i], m) || n == Some(m) {
        if SegmentUsed(net, ss[..i], m) {
          var s :| s in ss[..i] && SegmentOf(net, s.tunIP) == Some(m);
          assert s in ss[..i + 1];
        }
        assert ss[i] in ss[..i + 1];
      }
      if n.Some? {
        used := used + {n.value};
      }
    }
    assert ss[..|ss|] == ss;
    for n := SEGMENT_MIN to SEGMENT_MAX + 1
      invariant forall m :: SEGMENT_MIN <= m < n ==> m in used
    {
      if n !in used {
        assert LeastFree(net, ss, n);
        return net.tunText(n);
      }
    }
    ip := "";
  }

  /** A service that needs no change after those in `seen`. */
  ghost predicate Accepted(net: Net, s: Service, seen: Seen) {
    Settled(net, s, seen) && TunIPOK(net, s.tunIP) && s.tunIP !in seen.ips && NoClash(s, seen.listens.Keys)
  }

  lemma KeyNotTaken(net: Net, t: Service, s: Service, k: string)
    requires Clean(net, t) && Clean(net, s) && DistinctFrom(t, s) && t.localMode == FORWARD && s.localMode == FORWARD
    ensures !(k in KeySet(t.rules) && k in KeySet(s.rules))
  {
    if k in KeySet(t.rules) && k in KeySet(s.rules) {
      var r :| r in t.rules && ListenKey(r) == k;
      var q :| q in s.rules && ListenKey(q) == k;
      assert RuleOK(net, r) && RuleOK(net, q);
      KeysTell(r, q);
    }
  }

  lemma CompatibleLast(net: Net, ss: seq<Service>, s: Service)
    requires Compatible(net, ss + [s])
    ensures Clean(net, s) && TunIPOK(net, s.tunIP)
    ensures forall t :: t in ss ==> Clean(net, t) && DistinctFrom(t, s)
  {
    hide DistinctFrom, Clean, TunIPOK;
    var all := ss + [s];
    assert all[|ss|] == s;
    forall t | t in ss ensures Clean(net, t) && DistinctFrom(t, s) {
      var j :| 0 <= j < |ss| && ss[j] == t;
      assert all[j] == t;
    }
  }

  lemma CompatibleAccepts(net: Net, ss: seq<Service>, s: Service, seen: Seen)
    requires Compatible(net, ss + [s]) && SeenOf(seen, ss)
    ensures Accepted(net, s, seen)
  {
    CompatibleLast(net, ss, s);
    if s.localMode == FORWARD {
      forall k | k in KeySet(s.rules) ensures !Listens(ss, k) {
        if Listens(ss, k) {
          var t :| t in ss && t.localMode == FORWARD && k in KeySet(t.rules);
          KeyNotTaken(net, t, s, k);
        }
      }
    }
    hide Compatible, Clean, TunIPOK, KeySet;
  }

  lemma AddressNotBlank(net: Net, s: Service)
    requires Lawful(net)
    ensures TunIPOK(net, s.tunIP) ==> Trim(s.tunIP) != ""
    ensures !TunIPOK(net, "")
  {
  }

  ghost predicate AddressWhy(net: Net, ss: seq<Service>, now: Service, was: Service, seen: Seen, pr: Problem) {
    match pr
    case BadTunIP =>
      !TunIPOK(net, was.tunIP)
      && (Trim(was.tunIP) == "" ==> forall n :: SEGMENT_MIN <= n <= SEGMENT_MAX ==> SegmentUsed(net, ss, n))
    case DuplicateTunIP => now.tunIP in seen.ips
    case ListenConflict => was.localMode == FORWARD && !(KeySet(was.rules) !! seen.listens.Keys)
    case _ => false
  }

  /** The rest of the loop body: the tunnel address, and the check of the listening rules. */
  method NormalizeAddress(net: Net, ss: seq<Service>, was: Service, seen: Seen)
    returns (now: Service, listens: map<string, string>, err: Option<Problem>)
    requires Lawful(net) && was.id !in seen.listens.Values
    ensures now == was.(tunIP := now.tunIP) && (Trim(was.tunIP) != "" ==> now == was)
    ensures err.None? ==> TunIPOK(net, now.tunIP) && now.tunIP !in seen.ips && NoClash(now, seen.listens.Keys)
    ensures err.None? ==> listens.Keys == seen.listens.Keys + if now.localMode == FORWARD then KeySet(now.rules) else {}
    ensures err.None? ==> forall k :: k in listens ==> listens[k] == now.id || (k in seen.listens && listens[k] == seen.listens[k])
    ensures Accepted(net, was, seen) ==> err.None? && now == was
    ensures err.Some? ==> AddressWhy(net, ss, now, was, seen, err.value)
    ensures Trim(was.tunIP) == "" && err != Some(BadTunIP) ==>
              exists n: nat :: LeastFree(net, ss, n) && now.tunIP == net.tunText(n)
  {
    hide Settled, KeySet, SegmentUsed, Trim;
    now, listens := was, seen.listens;
    AddressNotBlank(net, was);
    if Trim(now.tunIP) == "" {
      var ip := AllocateTunIP(net, ss);
      now := now.(tunIP := ip);
    }
    if !TunIPOK(net, now.tunIP) {
      return now, listens, Some(BadTunIP);
    }
    if now.tunIP in seen.ips {
      return now, listens, Some(DuplicateTunIP);
    }
    if now.localMode == FORWARD {
      var ok;
      listens, ok := CheckListens(now.rules, now.id, listens);
      if !ok {
        return now, listens, Some(ListenConflict);
      }
    }
    err := None;
  }

  /** Two services forward from the same place; `was` is not in normal form yet. */
  ghost predicate ForwardClash(net: Net, s: Service, was: Service) {
    s.localMode == FORWARD && ModeOf(was.localMode) == FORWARD
    && exists r, q :: r in s.rules && q in was.rules && SameListen(Some(r), NormalRule(net, q))
  }

  /**
    Why the service at `i` is refused, when those before it are in normal form: the clash is with one of them,
    or the service itself has no normal form, or there is no free segment.
  */
  ghost predicate Why(net: Net, ss: seq<Service>, i: nat, newId: string, pr: Problem)
    requires i < |ss|
  {
    var was := ss[i];
    match pr
    case DuplicateId => exists s :: s in ss[..i] && s.id == if Trim(was.id) == "" then newId else Trim(was.id)
    case BadName(TooLong) => |Trim(was.name)| > 32
    case BadName(ControlCharacter) => exists c :: c in Trim(was.name) && IsControl(c)
    case BadName(Taken) => Trim(was.name) != "" && exists s :: s in ss[..i] && s.name == Trim(was.name)
    case DuplicateKey => Trim(was.tunKey) != "" && exists s :: s in ss[..i] && s.tunKey == Trim(was.tunKey)
    case BadMode => ModeOf(was.localMode) != TUN && ModeOf(was.localMode) != FORWARD
    case BadTransport => !Rendezvous.KnownTransport(Rendezvous.NormalizeTransport(was.transport))
    case BadRules => RulesBroken(net, was.rules)
    case BadTunIP =>
      !TunIPOK(net, was.tunIP)
      && (Trim(was.tunIP) == "" ==> forall n :: SEGMENT_MIN <= n <= SEGMENT_MAX ==> SegmentUsed(net, ss, n))
    case DuplicateTunIP => Trim(was.tunIP) != "" && exists s :: s in ss[..i] && s.tunIP == was.tunIP
    case ListenConflict => exists s :: s in ss[..i] && ForwardClash(net, s, was)
  }

  /** What blank fields of the service at `i` are filled with. */
  ghost predicate Blanks(net: Net, ss: seq<Service>, i: nat, newId: string, now: Service)
    requires i < |ss|
  {
    && (Trim(ss[i].id) == "" ==> now.id == newId)
    && (Trim(ss[i].name) == "" ==>
          exists n: nat :: FirstFree(set s | s in ss[..i] :: s.name, i, n) && now.name == DefaultName(n))
    && (Trim(ss[i].tunIP) == "" ==> exists n: nat :: LeastFree(net, ss, n) && now.tunIP == net.tunText(n))
  }

  lemma ServiceTold(net: Net, ss: seq<Service>, i: nat, newId: string, seen: Seen, pr: Problem)
    requires i < |ss| && SeenOf(seen, ss[..i]) && ServiceWhy(net, ss[i], newId, seen, pr)
    ensures Why(net, ss, i, newId, pr)
  {
    hide RulesBroken, Trim, ModeOf;
  }

  lemma AddressTold(net: Net, ss: seq<Service>, i: nat, newId: string, seen: Seen, mid: Service, now: Service, pr: Problem)
    requires i < |ss| && Lawful(net) && Compatible(net, ss[..i]) && SeenOf(seen, ss[..i])
    requires Derived(net, ss[i], mid) && Settled(net, mid, seen) && mid.tunIP == ss[i].tunIP
    requires AddressWhy(net, ss, now, mid, seen, pr) && (Trim(mid.tunIP) != "" ==> now == mid)
    requires Trim(mid.tunIP) == "" && pr != BadTunIP ==> exists n: nat :: LeastFree(net, ss, n) && now.tunIP == net.tunText(n)
    ensures Why(net, ss, i, newId, pr)
  {
    match pr
    case DuplicateTunIP =>
      if Trim(mid.tunIP) == "" {
        AllocatedNew(net, ss, i, seen, now.tunIP);
      }
    case ListenConflict => ClashTold(net, ss[..i], seen, ss[i], mid);
    case BadTunIP =>
  }

  /** An allocated address is never one of those before it. */
  lemma AllocatedNew(net: Net, ss: seq<Service>, i: nat, seen: Seen, ip: string)
    requires i < |ss| && Lawful(net) && SeenOf(seen, ss[..i])
    requires exists n: nat :: LeastFree(net, ss, n) && ip == net.tunText(n)
    ensures ip !in seen.ips
  {
    var n: nat :| LeastFree(net, ss, n) && ip == net.tunText(n);
    forall s | s in ss[..i] ensures SegmentOf(net, s.tunIP) != Some(n) {
      assert s in ss;
    }
  }

  /** The rule of a clean service that has this key. */
  lemma RuleOfKey(net: Net, s: Service, k: string) returns (j: nat)
    requires Clean(net, s) && k in KeySet(s.rules)
    ensures j < |s.rules| && ListenKey(s.rules[j]) == k && RuleOK(net, s.rules[j])
  {
    hide ListenKey, RuleOK;
    j :| 0 <= j < |s.rules| && ListenKey(s.rules[j]) == k;
  }

  lemma SameKeyClashes(net: Net, s: Service, r: nat, was: Service, mid: Service, j: nat)
    requires r < |s.rules| && RuleOK(net, s.rules[r]) && j < |mid.rules| && RuleOK(net, mid.rules[j])
    requires ListenKey(s.rules[r]) == ListenKey(mid.rules[j]) && ModeDerived(net, was, mid)
    requires s.localMode == FORWARD && mid.localMode == FORWARD
    ensures ForwardClash(net, s, was)
  {
    KeysTell(s.rules[r], mid.rules[j]);
    hide RuleOK, ListenKey, NormalRule;
    assert s.rules[r] in s.rules && was.rules[j] in was.rules;
    assert SameListen(Some(s.rules[r]), NormalRule(net, was.rules[j]));
  }

  lemma ClashTold(net: Net, before: seq<Service>, seen: Seen, was: Service, mid: Service)
    requires Compatible(net, before) && SeenOf(seen, before) && Derived(net, was, mid) && Settled(net, mid, seen)
    requires mid.localMode == FORWARD && !(KeySet(mid.rules) !! seen.listens.Keys)
    ensures exists s :: s in before && ForwardClash(net, s, was)
  {
    hide Clean, KeySet, ListenKey, RuleOK, ModeDerived, ForwardClash, DistinctFrom;
    var k :| k in KeySet(mid.rules) && k in seen.listens.Keys;
    assert Listens(before, k);
    var s :| s in before && s.localMode == FORWARD && k in KeySet(s.rules);
    var r := RuleOfKey(net, s, k);
    var j := RuleOfKey(net, mid, k);
    SameKeyClashes(net, s, r, was, mid, j);
  }

  /** The whole loop body for the service at `i`. */
  method NormalizeOne(net: Net, ss: seq<Service>, i: nat, newId: string, seen: Seen)
    returns (now: Service, after: Seen, err: Option<Problem>)
    requires Lawful(net) && i < |ss| && newId != "" && Trimmed(newId)
    requires Compatible(net, ss[..i]) && SeenOf(seen, ss[..i])
    requires i + |seen.names| + 1 < Decimal.Pow10(30)
    ensures err.None? ==> Compatible(net, ss[..i] + [now]) && SeenOf(after, ss[..i] + [now])
    ensures err.None? ==> Derived(net, ss[i], now) && now.autoStart == ss[i].autoStart
    ensures err.None? ==> |after.names| <= |seen.names| + 1
    ensures Compatible(net, ss[..i] + [ss[i]]) ==> err.None? && now == ss[i]
    ensures err.Some? ==> Why(net, ss, i, newId, err.value)
    ensures err.None? ==> Blanks(net, ss, i, newId, now)
  {
    hide *;
    var was := ss[i];
    if Compatible(net, ss[..i] + [was]) {
      CompatibleAccepts(net, ss[..i], was, seen);
    }
    SeenFacts(net, was, seen, ss[..i]);
    after := seen;
    now, err := NormalizeService(net, was, i, newId, seen);
    if err.Some? {
      ServiceTold(net, ss, i, newId, seen, err.value);
      return;
    }
    NewIdUnused(net, now, seen, ss[..i]);
    ghost var mid := now;
    var listens;
    now, listens, err := NormalizeAddress(net, ss, now, seen);
    if err.Some? {
      AddressTold(net, ss, i, newId, seen, mid, now, err.value);
      return;
    }
    BlanksFilled(net, ss, i, newId, seen, mid, now);
    WithAddress(net, was, mid, now, seen);
    AddService(net, ss[..i], now, seen);
    AddSeen(ss[..i], now, seen, listens);
    after := Seen(seen.ids + {now.id}, seen.names + {now.name},
                  if now.tunKey != "" then seen.keys + {now.tunKey} else seen.keys, seen.ips + {now.tunIP}, listens);
  }

  class Config {
    var services: seq<Service>

    constructor (services: seq<Service>)
      ensures this.services == services
    {
      this.services := services;
    }

    /**
      NormalizeAndValidate. A list in normal form passes unchanged; a list that passes comes out in
      normal form, so that a second run succeeds and changes nothing. `newIds` are the random ids.
    */
    method NormalizeAndValidate(net: Net, newIds: nat -> string) returns (err: Option<(nat, Problem)>)
      requires Lawful(net) && forall i :: newIds(i) != "" && Trimmed(newIds(i))
      requires 2 * |services| + 1 < Decimal.Pow10(30)
      modifies this
      ensures err.None? ==> Canonical(net, services) && |services| == |old(services)|
      ensures err.None? ==> forall i :: 0 <= i < |services| ==> Derived(net, old(services)[i], services[i])
      ensures err.None? ==> forall i :: 0 <= i < |services| ==>
                (services[i].autoStart <==> FirstAuto(old(services), i))
      ensures Canonical(net, old(services)) ==> err.None? && services == old(services)
      ensures err.None? ==> forall i :: 0 <= i < |services| ==>
                Blanks(net, services[..i] + old(services)[i..], i, newIds(i), services[i])
      ensures err.Some? ==>
                var (i, problem) := err.value;
                i < |services| == |old(services)| && Compatible(net, services[..i])
                && (forall j :: 0 <= j < i ==> Derived(net, old(services)[j], services[j]))
                && Why(net, services[..i] + old(services)[i..], i, newIds(i), problem)
    {
      hide *;
      ghost var was := services;
      var seen := Seen({}, {}, {}, {}, map[]);
      Start(net, was);
      for i := 0 to |services|
        invariant |services| == |was| && |seen.names| <= i
        invariant Compatible(net, services[..i]) && SeenOf(seen, services[..i])
        invariant forall j :: 0 <= j < i ==> Derived(net, was[j], services[j]) && services[j].autoStart == was[j].autoStart
        invariant forall j :: i <= j < |was| ==> services[j] == was[j]
        invariant forall j :: 0 <= j < i ==> Blanks(net, services[..j] + was[j..], j, newIds(j), services[j])
        invariant Compatible(net, was) ==> services == was
      {
        var now, after, e;
        if Compatible(net, was) {
          CompatiblePrefix(net, was, i);
        }
        assert services == services[..i] + was[i..];
        now, after, e := NormalizeOne(net, services, i, newIds(i), seen);
        ghost var before := services;
        services := services[i := now];
        assert services[..i] == before[..i] && services[..i] + was[i..] == before;
        assert forall j :: 0 <= j < i ==> services[..j] == before[..j];
        if e.Some? {
          CanonicalIsCompatible(net, was);
          return Some((i, e.value));
        }
        seen := after;
        assert services[..i + 1] == before[..i] + [now];
      }
      assert services[..|services|] == services;
      ghost var mid := services;
      KeepOneAutoStart();
      forall i | 0 <= i < |was| ensures Blanks(net, services[..i] + was[i..], i, newIds(i), services[i]) {
        BlanksAside(net, mid[..i] + was[i..], services[..i] + was[i..], i, newIds(i), mid[i], services[i]);
      }
      Finished(net, was, mid, services);
      err := None;
    }

    /** A second run after a successful one succeeds and changes nothing, whatever random ids it draws. */
    method NormalizeTwice(net: Net, newIds: nat -> string, newIds': nat -> string) returns (ok: bool, again: bool, ghost first: seq<Service>)
      requires Lawful(net) && forall i :: newIds(i) != "" && Trimmed(newIds(i)) && newIds'(i) != "" && Trimmed(newIds'(i))
      requires 2 * |services| + 1 < Decimal.Pow10(30)
      modifies this
      ensures ok ==> again && services == first && Canonical(net, services)
    {
      hide Canonical, Lawful, Trimmed, Derived, FirstAuto;
      var e := NormalizeAndValidate(net, newIds);
      first := services;
      if e.Some? {
        return false, false, first;
      }
      var e' := NormalizeAndValidate(net, newIds');
      ok, again := true, e'.None?;
    }

    /** The second loop: only the first service that wants to start by itself keeps its wish. */
    method KeepOneAutoStart()
      modifies this
      ensures |services| == |old(services)|
      ensures forall i :: 0 <= i < |services| ==>
                services[i] == old(services)[i].(autoStart := FirstAuto(old(services), i))
    {
      var keep := false;
      for i := 0 to |services|
        invariant |services| == |old(services)|
        invariant keep <==> exists j :: 0 <= j < i && old(services)[j].autoStart
        invariant forall j :: i <= j < |services| ==> services[j] == old(services)[j]
        invariant forall j :: 0 <= j < i ==> services[j] == old(services)[j].(autoStart := FirstAuto(old(services), j))
      {
        if services[i].autoStart {
          if keep {
            services := services[i := services[i].(autoStart := false)];
          } else {
            keep := true;
          }
        }
      }
    }
  }

  predicate FirstAuto(ss: seq<Service>, i: nat)
    requires i < |ss|
  {
    ss[i].autoStart && forall j :: 0 <= j < i ==> !ss[j].autoStart
  }

  lemma CanonicalIsCompatible(net: Net, ss: seq<Service>)
    ensures Canonical(net, ss) ==> Compatible(net, ss)
  {
  }

  lemma Start(net: Net, ss: seq<Service>)
    ensures ss[..0] == [] && Compatible(net, []) && SeenOf(Seen({}, {}, {}, {}, map[]), [])
  {
  }

  lemma CompatiblePrefix(net: Net, ss: seq<Service>, i: nat)
    requires Compatible(net, ss) && i < |ss|
    ensures Compatible(net, ss[..i] + [ss[i]])
  {
    assert ss[..i] + [ss[i]] == ss[..i + 1];
  }

  lemma AutoStartAside(net: Net, mid: seq<Service>, now: seq<Service>)
    requires |now| == |mid| && forall i :: 0 <= i < |mid| ==> now[i] == mid[i].(autoStart := now[i].autoStart)
    ensures Compatible(net, mid) ==> Compatible(net, now)
  {
  }

  lemma SameFirst(was: seq<Service>, mid: seq<Service>)
    requires |was| == |mid| && forall i :: 0 <= i < |mid| ==> mid[i].autoStart == was[i].autoStart
    ensures forall i :: 0 <= i < |mid| ==> FirstAuto(mid, i) == FirstAuto(was, i)
  {
  }

  lemma OnlyFirst(now: seq<Service>, mid: seq<Service>)
    requires |now| == |mid| && forall i :: 0 <= i < |mid| ==> now[i].autoStart == FirstAuto(mid, i)
    ensures OneAutoStart(now)
  {
  }

  lemma NoSecond(ss: seq<Service>)
    requires OneAutoStart(ss)
    ensures forall i :: 0 <= i < |ss| ==> FirstAuto(ss, i) == ss[i].autoStart
  {
  }

  lemma DerivedAside(net: Net, was: Service, mid: Service, auto: bool)
    requires Derived(net, was, mid)
    ensures Derived(net, was, mid.(autoStart := auto))
  {
  }

  lemma Finished(net: Net, was: seq<Service>, mid: seq<Service>, now: seq<Service>)
    requires |was| == |mid| == |now| && Compatible(net, mid)
    requires forall i :: 0 <= i < |mid| ==> Derived(net, was[i], mid[i]) && mid[i].autoStart == was[i].autoStart
    requires forall i :: 0 <= i < |mid| ==> now[i] == mid[i].(autoStart := FirstAuto(mid, i))
    requires Compatible(net, was) ==> mid == was
    ensures Canonical(net, now)
    ensures forall i :: 0 <= i < |now| ==> Derived(net, was[i], now[i]) && (now[i].autoStart <==> FirstAuto(was, i))
    ensures Canonical(net, was) ==> now == was
  {
    hide Compatible, Derived, OneAutoStart, FirstAuto;
    AutoStartAside(net, mid, now);
    OnlyFirst(now, mid);
    SameFirst(was, mid);
    forall i | 0 <= i < |now| ensures Derived(net, was[i], now[i]) {
      DerivedAside(net, was[i], mid[i], FirstAuto(mid, i));
    }
    if Canonical(net, was) {
      NoSecond(was);
    }
  }

  lemma SeenFacts(net: Net, s: Service, seen: Seen, ss: seq<Service>)
    requires SeenOf(seen, ss)
    ensures "" !in seen.keys && forall k :: k in seen.listens ==> seen.listens[k] in seen.ids
    ensures Accepted(net, s, seen) ==> Settled(net, s, seen)
  {
  }

  lemma NewIdUnused(net: Net, s: Service, seen: Seen, ss: seq<Service>)
    requires SeenOf(seen, ss) && Settled(net, s, seen)
    ensures s.id !in seen.listens.Values
  {
  }

  /** What blank fields are filled with does not depend on who starts automatically. */
  lemma BlanksAside(net: Net, ss: seq<Service>, tt: seq<Service>, i: nat, newId: string, now: Service, later: Service)
    requires i < |ss| == |tt| && ss[i..] == tt[i..]
    requires forall j :: 0 <= j < |ss| ==> ss[j].name == tt[j].name && ss[j].tunIP == tt[j].tunIP
    requires later == now.(autoStart := later.autoStart) && Blanks(net, ss, i, newId, now)
    ensures Blanks(net, tt, i, newId, later)
  {
    assert ss[i] == ss[i..][0] == tt[i..][0] == tt[i];
    SameNames(ss[..i], tt[..i]);
    forall n: nat ensures SegmentUsed(net, ss, n) <==> SegmentUsed(net, tt, n) {
      SameSegments(net, ss, tt, n);
      SameSegments(net, tt, ss, n);
    }
    hide SegmentUsed, FirstFree, DefaultName, Trim;
    assert forall n: nat :: LeastFree(net, ss, n) ==> LeastFree(net, tt, n);
  }

  lemma SameNames(a: seq<Service>, b: seq<Service>)
    requires |a| == |b| && forall j :: 0 <= j < |a| ==> a[j].name == b[j].name
    ensures (set s | s in a :: s.name) == (set s | s in b :: s.name)
  {
    NamesWithin(a, b);
    NamesWithin(b, a);
  }

  lemma NamesWithin(a: seq<Service>, b: seq<Service>)
    requires |a| == |b| && forall j :: 0 <= j < |a| ==> a[j].name == b[j].name
    ensures forall s :: s in a ==> s.name in (set t | t in b :: t.name)
  {
    forall s | s in a ensures s.name in (set t | t in b :: t.name) {
      var j :| 0 <= j < |a| && a[j] == s;
      assert b[j] in b;
    }
  }

  lemma SameSegments(net: Net, a: seq<Service>, b: seq<Service>, n: nat)
    requires |a| == |b| && forall j :: 0 <= j < |a| ==> a[j].tunIP == b[j].tunIP
    ensures SegmentUsed(net, a, n) ==> SegmentUsed(net, b, n)
  {
    if SegmentUsed(net, a, n) {
      var s :| s in a && SegmentOf(net, s.tunIP) == Some(n);
      var j :| 0 <= j < |a| && a[j] == s;
      assert b[j] in b;
    }
  }

  lemma BlanksFilled(net: Net, ss: seq<Service>, i: nat, newId: string, seen: Seen, mid: Service, now: Service)
    requires i < |ss| && SeenOf(seen, ss[..i]) && now == mid.(tunIP := now.tunIP) && mid.tunIP == ss[i].tunIP
    requires Trim(ss[i].id) == "" ==> mid.id == newId
    requires Trim(ss[i].name) == "" ==> exists n: nat :: FirstFree(seen.names, i, n) && mid.name == DefaultName(n)
    requires Trim(mid.tunIP) == "" ==> exists n: nat :: LeastFree(net, ss, n) && now.tunIP == net.tunText(n)
    ensures Blanks(net, ss, i, newId, now)
  {
    hide FirstFree, LeastFree, DefaultName, Trim;
  }

  lemma WithAddress(net: Net, was: Service, mid: Service, now: Service, seen: Seen)
    requires now == mid.(tunIP := now.tunIP) && Derived(net, was, mid) && Settled(net, mid, seen) && mid.tunIP == was.tunIP
    requires Trim(mid.tunIP) != "" ==> now == mid
    ensures Derived(net, was, now) && Settled(net, now, seen)
  {
  }
}
