/**
  What to publish: from the running containers' ports to the host mappings, the
  redirects jm installs in the guest, and the mappings still waiting for one.
 */
module DesiredState {
  import opened Order
  import C = Converge

  const DefaultHostIP := "0.0.0.0"

  datatype Port = Port(hostIP: string, hostPort: nat, containerPort: nat, protocol: string, range: nat)

  datatype Container = Container(id: string, state: string, exited: bool, ports: seq<Port>)

  /** One port of one running container, its range unrolled. */
  datatype Published = Published(
    proto: string, id: string, hostPort: nat, containerPort: nat, bind: string, needsRule: bool)

  /** One redirect in the guest, and the keys of the mappings that depend on it. */
  datatype Rule = Rule(
    proto: string, guestPort: nat, id: string, containerIP: string, containerPort: nat, keys: seq<string>)

  datatype Plan = Plan(mappings: seq<C.Key>, rules: seq<Rule>, pending: map<string, string>)

  // ----- The containers' ports -----

  predicate Counts(c: Container) {
    !c.exited && (c.state == "" || c.state == "running" || c.state == "paused")
  }

  function BindFor(portIP: string, guestIP: string, hostIP: string): (string, bool) {
    if portIP == "" || portIP == guestIP then (hostIP, false)
    else if portIP == "0.0.0.0" || portIP == "::" then (DefaultHostIP, true)
    else (portIP, true)
  }

  /** How many ports of a range exist: none past 65535. */
  function Unrolled(p: Port): nat {
    var n := if p.range < 1 then 1 else p.range;
    if p.hostPort > 65535 then 0 else if p.hostPort + n > 65536 then 65536 - p.hostPort else n
  }

  function PublishedAt(c: Container, p: Port, guestIP: string, hostIP: string, i: nat): Published {
    var bind := BindFor(p.hostIP, guestIP, hostIP);
    Published(if p.protocol == "" then "tcp" else p.protocol, c.id, p.hostPort + i, p.containerPort + i, bind.0, bind.1)
  }

  function Expanded(c: Container, p: Port, guestIP: string, hostIP: string): seq<Published> {
    seq(Unrolled(p), i requires 0 <= i < Unrolled(p) => PublishedAt(c, p, guestIP, hostIP, i))
  }

  function PortsOf(c: Container, ps: seq<Port>, guestIP: string, hostIP: string): seq<Published> {
    if ps == [] then []
    else
      PortsOf(c, ps[..|ps| - 1], guestIP, hostIP) +
      if ps[|ps| - 1].hostPort == 0 then [] else Expanded(c, ps[|ps| - 1], guestIP, hostIP)
  }

  function AllPorts(cs: seq<Container>, guestIP: string, hostIP: string): seq<Published> {
    if cs == [] then []
    else
      AllPorts(cs[..|cs| - 1], guestIP, hostIP) +
      if Counts(cs[|cs| - 1]) then PortsOf(cs[|cs| - 1], cs[|cs| - 1].ports, guestIP, hostIP) else []
  }

  function JoinHostPort(host: string, port: nat): (r: string)
    ensures r != ""
  {
    if ':' in host then "[" + host + "]:" + Itoa(port) else host + ":" + Itoa(port)
  }

  function MappingOf(p: Published, guestIP: string): C.Key {
    C.Key(p.proto, JoinHostPort(p.bind, p.hostPort), JoinHostPort(guestIP, p.hostPort))
  }

  function KeyText(k: C.Key): string {
    (if k.proto == "" then "tcp" else k.proto) + " " + k.local + " " + k.remote
  }

  function KeyOf(p: Published, guestIP: string): string { KeyText(MappingOf(p, guestIP)) }

  function GuestKey(proto: string, port: nat): string { proto + "/" + Itoa(port) }

  function GuestKeyOf(p: Published): string { GuestKey(p.proto, p.hostPort) }

  function RuleGuestKey(r: Rule): string { GuestKey(r.proto, r.guestPort) }

  /** The first publisher of a guest port that the engine itself redirects. */
  function EngineOwner(ports: seq<Published>, gk: string): seq<string> {
    if ports == [] then []
    else if !ports[0].needsRule && GuestKeyOf(ports[0]) == gk then [ports[0].id]
    else EngineOwner(ports[1..], gk)
  }

  function ShortID(id: string): string { if |id| > 12 then id[..12] else id }

  function PortClash(port: nat, proto: string, owner: string, self: string): string {
    "port " + Itoa(port) + "/" + proto + " on the guest already carries " +
    (if owner == self then "this container's own publish of a different port"
     else "container " + ShortID(owner) + "'s publish") +
    "; use a different host port"
  }

  // ----- Placing one port after the other -----

  predicate HasMapping(ms: seq<C.Key>, k: string) { exists i :: 0 <= i < |ms| && KeyText(ms[i]) == k }

  /** The rule on a guest port, if any. */
  function RuleAt(rules: seq<Rule>, gk: string): (i: nat)
    ensures i <= |rules|
    ensures i < |rules| ==> RuleGuestKey(rules[i]) == gk
    ensures forall j :: 0 <= j < i ==> RuleGuestKey(rules[j]) != gk
  {
    if rules == [] || RuleGuestKey(rules[0]) == gk then 0 else RuleAt(rules[1..], gk) + 1
  }

  function NewRule(p: Published, k: string): Rule { Rule(p.proto, p.hostPort, p.id, "", p.containerPort, [k]) }

  function Place(pl: Plan, all: seq<Published>, p: Published, guestIP: string): Plan {
    var k, gk := KeyOf(p, guestIP), GuestKeyOf(p);
    if HasMapping(pl.mappings, k) then pl
    else
      var pl' := pl.(mappings := pl.mappings + [MappingOf(p, guestIP)]);
      var owner, i := EngineOwner(all, gk), RuleAt(pl.rules, gk);
      if !p.needsRule then pl'
      else if owner != [] then
        pl'.(pending := pl.pending[k := PortClash(p.hostPort, p.proto, owner[0], p.id)])
      else if i < |pl.rules| && pl.rules[i].id != p.id then
        pl'.(pending := pl.pending[k := PortClash(p.hostPort, p.proto, pl.rules[i].id, p.id)])
      else if i < |pl.rules| then
        pl'.(rules := pl.rules[i := pl.rules[i].(keys := pl.rules[i].keys + [k])])
      else pl'.(rules := pl.rules + [NewRule(p, k)])
  }

  function PlaceAll(all: seq<Published>, n: nat, guestIP: string): Plan
    requires n <= |all|
  {
    if n == 0 then Plan([], [], map[]) else Place(PlaceAll(all, n - 1, guestIP), all, all[n - 1], guestIP)
  }

  // ----- Where each key ends up -----

  predicate InRule(rules: seq<Rule>, k: string) { exists i :: 0 <= i < |rules| && k in rules[i].keys }

  /** Port j is the first published under its key, and so decides it. */
  predicate Decides(all: seq<Published>, j: nat, guestIP: string)
    requires j < |all|
  {
    forall i :: 0 <= i < j ==> KeyOf(all[i], guestIP) != KeyOf(all[j], guestIP)
  }

  predicate Fresh(pl: Plan, p: Published, guestIP: string) { !HasMapping(pl.mappings, KeyOf(p, guestIP)) }

  /** The port gets a redirect, its own or one its container already has. */
  predicate Joins(pl: Plan, all: seq<Published>, p: Published) {
    var i := RuleAt(pl.rules, GuestKeyOf(p));
    && p.needsRule && EngineOwner(all, GuestKeyOf(p)) == []
    && (i < |pl.rules| ==> pl.rules[i].id == p.id)
  }

  lemma HasMappingMore(ms: seq<C.Key>, m: C.Key, k: string)
    ensures HasMapping(ms + [m], k) <==> HasMapping(ms, k) || KeyText(m) == k
  {
    if HasMapping(ms, k) {
      var i :| 0 <= i < |ms| && KeyText(ms[i]) == k;
      assert KeyText((ms + [m])[i]) == k;
    }
    assert (ms + [m])[|ms|] == m;
  }

  lemma InRuleMore(rules: seq<Rule>, r: Rule, x: string)
    ensures InRule(rules + [r], x) <==> InRule(rules, x) || x in r.keys
  {
    if InRule(rules, x) {
      var i :| 0 <= i < |rules| && x in rules[i].keys;
      assert x in (rules + [r])[i].keys;
    }
    assert (rules + [r])[|rules|] == r;
  }

  lemma InRuleJoined(rules: seq<Rule>, i: nat, k: string, x: string)
    requires i < |rules|
    ensures InRule(rules[i := rules[i].(keys := rules[i].keys + [k])], x) <==> InRule(rules, x) || x == k
  {
    var rules' := rules[i := rules[i].(keys := rules[i].keys + [k])];
    if InRule(rules, x) {
      var j :| 0 <= j < |rules| && x in rules[j].keys;
      assert x in rules'[j].keys;
    }
    assert k in rules'[i].keys;
    if InRule(rules', x) && x != k {
      var j :| 0 <= j < |rules| && x in rules'[j].keys;
      assert x in rules[j].keys;
    }
  }

  /** What placing a port does to a key: only its own key moves, and only the
      first time. */
  lemma PlaceMoves(pl: Plan, all: seq<Published>, p: Published, guestIP: string, x: string)
    ensures var pl', mine := Place(pl, all, p, guestIP), x == KeyOf(p, guestIP) && Fresh(pl, p, guestIP);
      && (HasMapping(pl'.mappings, x) <==> HasMapping(pl.mappings, x) || mine)
      && (InRule(pl'.rules, x) <==> InRule(pl.rules, x) || (mine && Joins(pl, all, p)))
      && (x in pl'.pending <==> x in pl.pending || (mine && p.needsRule && !Joins(pl, all, p)))
  {
    var k, i := KeyOf(p, guestIP), RuleAt(pl.rules, GuestKeyOf(p));
    HasMappingMore(pl.mappings, MappingOf(p, guestIP), x);
    InRuleMore(pl.rules, NewRule(p, k), x);
    if i < |pl.rules| { InRuleJoined(pl.rules, i, k, x); }
  }

  /** Key k of the plan is exactly one of: reachable through the engine, in a
      rule's list, or pending. */
  predicate OnePlace(pl: Plan, k: string, needsRule: bool) {
    && HasMapping(pl.mappings, k)
    && (needsRule <==> InRule(pl.rules, k) || k in pl.pending)
    && !(InRule(pl.rules, k) && k in pl.pending)
  }

  predicate Partitioned(pl: Plan, all: seq<Published>, n: nat, guestIP: string)
    requires n <= |all|
  {
    && (forall j :: 0 <= j < n ==> HasMapping(pl.mappings, KeyOf(all[j], guestIP)))
    && (forall j :: 0 <= j < n && Decides(all, j, guestIP) ==> OnePlace(pl, KeyOf(all[j], guestIP), all[j].needsRule))
  }

  ghost predicate OnlyListed(pl: Plan) {
    forall k: string :: InRule(pl.rules, k) || k in pl.pending ==> HasMapping(pl.mappings, k)
  }

  lemma PlaceListed(pl: Plan, all: seq<Published>, p: Published, guestIP: string)
    requires OnlyListed(pl)
    ensures OnlyListed(Place(pl, all, p, guestIP))
  {
    var pl' := Place(pl, all, p, guestIP);
    forall k: string | InRule(pl'.rules, k) || k in pl'.pending ensures HasMapping(pl'.mappings, k) {
      PlaceMoves(pl, all, p, guestIP, k);
    }
  }

  /** Every mapping is some port's. */
  predicate AllPublished(pl: Plan, all: seq<Published>, n: nat, guestIP: string)
    requires n <= |all|
  {
    forall i :: 0 <= i < |pl.mappings| ==> exists j :: 0 <= j < n && MappingOf(all[j], guestIP) == pl.mappings[i]
  }

  predicate KeysDistinct(pl: Plan) {
    forall i, j :: 0 <= i < j < |pl.mappings| ==> KeyText(pl.mappings[i]) != KeyText(pl.mappings[j])
  }

  lemma PlaceKeepsMappings(pl: Plan, all: seq<Published>, n: nat, guestIP: string)
    requires n < |all| && AllPublished(pl, all, n, guestIP) && KeysDistinct(pl)
    ensures AllPublished(Place(pl, all, all[n], guestIP), all, n + 1, guestIP)
    ensures KeysDistinct(Place(pl, all, all[n], guestIP))
  {
    var ms := Place(pl, all, all[n], guestIP).mappings;
    if Fresh(pl, all[n], guestIP) {
      assert ms == pl.mappings + [MappingOf(all[n], guestIP)];
      forall i | 0 <= i < |pl.mappings| ensures KeyText(ms[i]) != KeyOf(all[n], guestIP) {
        assert ms[i] == pl.mappings[i];
      }
    } else {
      assert ms == pl.mappings;
    }
  }

  lemma PlacePartitions(pl: Plan, all: seq<Published>, n: nat, guestIP: string)
    requires n < |all| && Partitioned(pl, all, n, guestIP) && OnlyListed(pl) && AllPublished(pl, all, n, guestIP)
    ensures Partitioned(Place(pl, all, all[n], guestIP), all, n + 1, guestIP)
  {
    var pl' := Place(pl, all, all[n], guestIP);
    forall j | 0 <= j < n + 1
      ensures HasMapping(pl'.mappings, KeyOf(all[j], guestIP))
      ensures Decides(all, j, guestIP) ==> OnePlace(pl', KeyOf(all[j], guestIP), all[j].needsRule)
    {
      var k := KeyOf(all[j], guestIP);
      PlaceMoves(pl, all, all[n], guestIP, k);
      if j == n && HasMapping(pl.mappings, k) {
        var i :| 0 <= i < |pl.mappings| && KeyText(pl.mappings[i]) == k;
        var d :| 0 <= d < n && MappingOf(all[d], guestIP) == pl.mappings[i];
        assert KeyOf(all[d], guestIP) == k;
        assert !Decides(all, n, guestIP);
      }
    }
  }

  // ----- The rules -----

  predicate NoRepeat(ks: seq<string>) { forall i, j :: 0 <= i < j < |ks| ==> ks[i] != ks[j] }

  /** Rules are on different guest ports, and no key is listed twice. */
  predicate RulesApart(rules: seq<Rule>) {
    && (forall i, j :: 0 <= i < j < |rules| ==> RuleGuestKey(rules[i]) != RuleGuestKey(rules[j]))
    && (forall i, j, k :: 0 <= i < j < |rules| && k in rules[i].keys ==> k !in rules[j].keys)
    && (forall i :: 0 <= i < |rules| ==> NoRepeat(rules[i].keys) && rules[i].keys != [])
  }

  /** Port p put key k on rule r. */
  predicate Feeds(all: seq<Published>, p: Published, r: Rule, k: string, guestIP: string) {
    && p.needsRule && KeyOf(p, guestIP) == k && p.id == r.id
    && p.proto == r.proto && p.hostPort == r.guestPort && EngineOwner(all, RuleGuestKey(r)) == []
  }

  predicate FedRule(all: seq<Published>, r: Rule, guestIP: string) {
    forall k :: k in r.keys ==>
      exists j :: 0 <= j < |all| && Decides(all, j, guestIP) && Feeds(all, all[j], r, k, guestIP)
  }

  predicate AllFed(all: seq<Published>, rules: seq<Rule>, guestIP: string) {
    forall i :: 0 <= i < |rules| ==> FedRule(all, rules[i], guestIP)
  }

  lemma JoinedApart(rules: seq<Rule>, i: nat, k: string)
    requires RulesApart(rules) && i < |rules| && !InRule(rules, k)
    ensures RulesApart(rules[i := rules[i].(keys := rules[i].keys + [k])])
  {
    assert forall j :: 0 <= j < |rules| ==> k !in rules[j].keys;
  }

  lemma AddedApart(rules: seq<Rule>, r: Rule, k: string)
    requires RulesApart(rules) && r.keys == [k] && !InRule(rules, k)
    requires RuleAt(rules, RuleGuestKey(r)) == |rules|
    ensures RulesApart(rules + [r])
  {
    var more := rules + [r];
    forall i, j | 0 <= i < j < |more|
      ensures RuleGuestKey(more[i]) != RuleGuestKey(more[j]) && forall x :: x in more[i].keys ==> x !in more[j].keys
    {
      assert k !in rules[i].keys;
      if j == |rules| { assert more[j] == r && more[i] == rules[i]; }
    }
  }

  /** A guest key names one protocol and port. */
  lemma GuestKeyIsInjective(p: string, m: nat, q: string, n: nat)
    requires GuestKey(p, m) == GuestKey(q, n)
    ensures p == q && m == n
  {
    assert GuestKey(p, m) == p + ['/'] + Itoa(m) && GuestKey(q, n) == q + ['/'] + Itoa(n);
    OneLastMark(p, Itoa(m), q, Itoa(n), '/');
    ItoaIsInjective(m, n);
  }

  lemma JoinedFed(all: seq<Published>, rules: seq<Rule>, i: nat, j: nat, guestIP: string)
    requires AllFed(all, rules, guestIP) && i < |rules| && j < |all|
    requires Decides(all, j, guestIP) && Feeds(all, all[j], rules[i], KeyOf(all[j], guestIP), guestIP)
    ensures AllFed(all, rules[i := rules[i].(keys := rules[i].keys + [KeyOf(all[j], guestIP)])], guestIP)
  {
    var k := KeyOf(all[j], guestIP);
    var r := rules[i].(keys := rules[i].keys + [k]);
    assert FedRule(all, rules[i], guestIP);
    forall x | x in r.keys
      ensures exists d :: 0 <= d < |all| && Decides(all, d, guestIP) && Feeds(all, all[d], r, x, guestIP)
    {
      if x == k {
        assert Feeds(all, all[j], r, k, guestIP);
      } else {
        var d :| 0 <= d < |all| && Decides(all, d, guestIP) && Feeds(all, all[d], rules[i], x, guestIP);
        assert Feeds(all, all[d], r, x, guestIP);
      }
    }
  }

  lemma AddedFed(all: seq<Published>, rules: seq<Rule>, j: nat, guestIP: string)
    requires AllFed(all, rules, guestIP) && j < |all|
    requires Decides(all, j, guestIP) && all[j].needsRule && EngineOwner(all, GuestKeyOf(all[j])) == []
    ensures AllFed(all, rules + [NewRule(all[j], KeyOf(all[j], guestIP))], guestIP)
  {
    var r := NewRule(all[j], KeyOf(all[j], guestIP));
    NewIsFed(all, j, guestIP);
    forall i | 0 <= i < |rules| + 1 ensures FedRule(all, (rules + [r])[i], guestIP) {
      if i < |rules| { assert (rules + [r])[i] == rules[i]; }
    }
  }

  lemma NewFeeds(all: seq<Published>, p: Published, guestIP: string)
    requires p.needsRule && EngineOwner(all, GuestKeyOf(p)) == []
    ensures Feeds(all, p, NewRule(p, KeyOf(p, guestIP)), KeyOf(p, guestIP), guestIP)
  {
    hide KeyOf, EngineOwner, GuestKey;
  }

  lemma OneKeyIsFed(all: seq<Published>, j: nat, r: Rule, k: string, guestIP: string)
    requires j < |all| && Decides(all, j, guestIP) && r.keys == [k] && Feeds(all, all[j], r, k, guestIP)
    ensures FedRule(all, r, guestIP)
  {
    hide Decides, Feeds;
    forall x | x in r.keys
      ensures exists d :: 0 <= d < |all| && Decides(all, d, guestIP) && Feeds(all, all[d], r, x, guestIP)
    {
      assert x == k;
    }
  }

  lemma NewIsFed(all: seq<Published>, j: nat, guestIP: string)
    requires j < |all| && Decides(all, j, guestIP) && all[j].needsRule && EngineOwner(all, GuestKeyOf(all[j])) == []
    ensures FedRule(all, NewRule(all[j], KeyOf(all[j], guestIP)), guestIP)
  {
    hide Decides, Feeds, KeyOf, EngineOwner, FedRule;
    NewFeeds(all, all[j], guestIP);
    OneKeyIsFed(all, j, NewRule(all[j], KeyOf(all[j], guestIP)), KeyOf(all[j], guestIP), guestIP);
  }

  lemma PlaceRules(pl: Plan, all: seq<Published>, j: nat, guestIP: string)
    requires j < |all| && RulesApart(pl.rules) && AllFed(all, pl.rules, guestIP) && OnlyListed(pl)
    requires Fresh(pl, all[j], guestIP) ==> Decides(all, j, guestIP)
    ensures var pl' := Place(pl, all, all[j], guestIP); RulesApart(pl'.rules) && AllFed(all, pl'.rules, guestIP)
  {
    var p := all[j];
    var k, gk := KeyOf(p, guestIP), GuestKeyOf(p);
    if Fresh(pl, p, guestIP) && Joins(pl, all, p) {
      assert !InRule(pl.rules, k);
      var i := RuleAt(pl.rules, gk);
      if i < |pl.rules| {
        GuestKeyIsInjective(p.proto, p.hostPort, pl.rules[i].proto, pl.rules[i].guestPort);
        JoinedApart(pl.rules, i, k);
        JoinedFed(all, pl.rules, i, j, guestIP);
      } else {
        AddedApart(pl.rules, NewRule(p, k), k);
        AddedFed(all, pl.rules, j, guestIP);
      }
    }
  }

  // ----- Over all ports -----

  /** What holds of the plan after n ports. */
  ghost predicate Placed(pl: Plan, all: seq<Published>, n: nat, guestIP: string)
    requires n <= |all|
  {
    && Partitioned(pl, all, n, guestIP) && OnlyListed(pl) && AllPublished(pl, all, n, guestIP) && KeysDistinct(pl)
    && RulesApart(pl.rules) && AllFed(all, pl.rules, guestIP)
  }

  lemma FreshDecides(pl: Plan, all: seq<Published>, n: nat, guestIP: string)
    requires n < |all| && Partitioned(pl, all, n, guestIP) && AllPublished(pl, all, n, guestIP)
    ensures Fresh(pl, all[n], guestIP) <==> Decides(all, n, guestIP)
  {
    if HasMapping(pl.mappings, KeyOf(all[n], guestIP)) {
      var i :| 0 <= i < |pl.mappings| && KeyText(pl.mappings[i]) == KeyOf(all[n], guestIP);
      var d :| 0 <= d < n && MappingOf(all[d], guestIP) == pl.mappings[i];
      assert KeyOf(all[d], guestIP) == KeyOf(all[n], guestIP);
    }
  }

  lemma PlaceKeeps(pl: Plan, all: seq<Published>, n: nat, guestIP: string)
    requires n < |all| && Placed(pl, all, n, guestIP)
    ensures Placed(Place(pl, all, all[n], guestIP), all, n + 1, guestIP)
  {
    PlaceListed(pl, all, all[n], guestIP);
    PlacePartitions(pl, all, n, guestIP);
    PlaceKeepsMappings(pl, all, n, guestIP);
    FreshDecides(pl, all, n, guestIP);
    PlaceRules(pl, all, n, guestIP);
  }

  lemma NothingPlaced(all: seq<Published>, guestIP: string)
    ensures Placed(Plan([], [], map[]), all, 0, guestIP)
  {
  }

  lemma OneMorePlaced(all: seq<Published>, n: nat, guestIP: string)
    requires n < |all| && Placed(PlaceAll(all, n, guestIP), all, n, guestIP)
    ensures Placed(PlaceAll(all, n + 1, guestIP), all, n + 1, guestIP)
  {
    PlaceKeeps(PlaceAll(all, n, guestIP), all, n, guestIP);
  }

  // ----- Ports merged into one rule -----

  /** Port i is the first that needs a rule on its guest port, and gets one. */
  predicate Leads(all: seq<Published>, i: nat, guestIP: string)
    requires i < |all|
  {
    && NeedsOne(all, i, guestIP)
    && forall j :: 0 <= j < i && NeedsOne(all, j, guestIP) ==> GuestKeyOf(all[j]) != GuestKeyOf(all[i])
  }

  predicate LedBy(r: Rule, p: Published) {
    RuleGuestKey(r) == GuestKeyOf(p) && r.id == p.id && r.containerPort == p.containerPort
  }

  predicate AllLed(rules: seq<Rule>, all: seq<Published>, n: nat, guestIP: string)
    requires n <= |all|
  {
    forall x :: 0 <= x < |rules| ==> LedAt(rules, all, n, x, guestIP)
  }

  /** Port j has a rule on its guest port, which lists it exactly if the rule is
      its container's. */
  predicate Lists(rules: seq<Rule>, p: Published, guestIP: string) {
    exists x :: 0 <= x < |rules| && RuleGuestKey(rules[x]) == GuestKeyOf(p)
      && (rules[x].id == p.id <==> KeyOf(p, guestIP) in rules[x].keys)
  }

  predicate AllLists(rules: seq<Rule>, all: seq<Published>, n: nat, guestIP: string)
    requires n <= |all|
  {
    forall j :: 0 <= j < n && NeedsOne(all, j, guestIP) ==> Lists(rules, all[j], guestIP)
  }

  /** Port j decides its key and needs a rule that the engine does not preclude. */
  predicate NeedsOne(all: seq<Published>, j: nat, guestIP: string)
    requires j < |all|
  {
    Decides(all, j, guestIP) && all[j].needsRule && EngineOwner(all, GuestKeyOf(all[j])) == []
  }

  /** The rules as they were, but for at most one new key and one new rule. */
  predicate Grown(rules: seq<Rule>, rules': seq<Rule>, k: string) {
    && |rules| <= |rules'| <= |rules| + 1
    && forall x :: 0 <= x < |rules| ==>
      rules'[x] == rules[x] || rules'[x] == rules[x].(keys := rules[x].keys + [k])
  }

  lemma KeepsLists(rules: seq<Rule>, rules': seq<Rule>, k: string, p: Published, guestIP: string)
    requires Lists(rules, p, guestIP) && KeyOf(p, guestIP) != k && Grown(rules, rules', k)
    ensures Lists(rules', p, guestIP)
  {
    var x :| 0 <= x < |rules| && RuleGuestKey(rules[x]) == GuestKeyOf(p)
      && (rules[x].id == p.id <==> KeyOf(p, guestIP) in rules[x].keys);
    assert RuleGuestKey(rules'[x]) == GuestKeyOf(p);
    assert KeyOf(p, guestIP) in rules'[x].keys <==> KeyOf(p, guestIP) in rules[x].keys;
  }

  lemma KeepsAllLists(rules: seq<Rule>, rules': seq<Rule>, k: string, all: seq<Published>, n: nat, guestIP: string)
    requires n <= |all| && AllLists(rules, all, n, guestIP) && Grown(rules, rules', k)
    requires forall j :: 0 <= j < n ==> KeyOf(all[j], guestIP) != k
    ensures AllLists(rules', all, n, guestIP)
  {
    forall j | 0 <= j < n && NeedsOne(all, j, guestIP) ensures Lists(rules', all[j], guestIP) {
      KeepsLists(rules, rules', k, all[j], guestIP);
    }
  }

  lemma PlaceGrows(pl: Plan, all: seq<Published>, p: Published, guestIP: string)
    ensures Grown(pl.rules, Place(pl, all, p, guestIP).rules, KeyOf(p, guestIP))
    ensures !Fresh(pl, p, guestIP) ==> Place(pl, all, p, guestIP) == pl
  {
  }

  lemma GrownLists(rules: seq<Rule>, rules': seq<Rule>, all: seq<Published>, n: nat, guestIP: string)
    requires n < |all| && AllLists(rules, all, n, guestIP) && Grown(rules, rules', KeyOf(all[n], guestIP))
    requires !Decides(all, n, guestIP) ==> rules' == rules
    requires NeedsOne(all, n, guestIP) ==> Lists(rules', all[n], guestIP)
    ensures AllLists(rules', all, n + 1, guestIP)
  {
    if Decides(all, n, guestIP) {
      KeepsAllLists(rules, rules', KeyOf(all[n], guestIP), all, n, guestIP);
    }
  }

  lemma PlaceLists(pl: Plan, all: seq<Published>, n: nat, guestIP: string)
    requires n < |all| && Placed(pl, all, n, guestIP) && AllLists(pl.rules, all, n, guestIP)
    ensures AllLists(Place(pl, all, all[n], guestIP).rules, all, n + 1, guestIP)
  {
    FreshDecides(pl, all, n, guestIP);
    PlaceGrows(pl, all, all[n], guestIP);
    if NeedsOne(all, n, guestIP) { NewLists(pl, all, n, guestIP); }
    GrownLists(pl.rules, Place(pl, all, all[n], guestIP).rules, all, n, guestIP);
  }

  lemma NewLists(pl: Plan, all: seq<Published>, n: nat, guestIP: string)
    requires n < |all| && Placed(pl, all, n, guestIP) && Fresh(pl, all[n], guestIP)
    requires all[n].needsRule && EngineOwner(all, GuestKeyOf(all[n])) == []
    ensures Lists(Place(pl, all, all[n], guestIP).rules, all[n], guestIP)
  {
    var p := all[n];
    var k, x := KeyOf(p, guestIP), RuleAt(pl.rules, GuestKeyOf(p));
    var rules' := Place(pl, all, p, guestIP).rules;
    assert !InRule(pl.rules, k);
    if x < |pl.rules| {
      assert k !in pl.rules[x].keys;
      assert RuleGuestKey(rules'[x]) == GuestKeyOf(p);
    } else {
      assert rules'[x] == NewRule(p, k);
    }
  }

  predicate LedAt(rules: seq<Rule>, all: seq<Published>, n: nat, x: nat, guestIP: string)
    requires n <= |all| && x < |rules|
  {
    exists i :: 0 <= i < n && Leads(all, i, guestIP) && LedBy(rules[x], all[i])
  }

  lemma KeepsLed(rules: seq<Rule>, rules': seq<Rule>, k: string, all: seq<Published>, n: nat, x: nat, guestIP: string)
    requires n < |all| && x < |rules| && LedAt(rules, all, n, x, guestIP) && Grown(rules, rules', k)
    ensures LedAt(rules', all, n + 1, x, guestIP)
  {
    var i :| 0 <= i < n && Leads(all, i, guestIP) && LedBy(rules[x], all[i]);
    assert LedBy(rules'[x], all[i]);
  }

  lemma GrownLed(rules: seq<Rule>, rules': seq<Rule>, k: string, all: seq<Published>, n: nat, m: nat, guestIP: string)
    requires n < |all| && m == n + 1 && AllLed(rules, all, n, guestIP) && Grown(rules, rules', k)
    requires |rules'| > |rules| ==> LedAt(rules', all, m, |rules|, guestIP)
    ensures AllLed(rules', all, m, guestIP)
  {
    forall x | 0 <= x < |rules'| ensures LedAt(rules', all, m, x, guestIP) {
      if x < |rules| {
        assert LedAt(rules, all, n, x, guestIP);
        KeepsLed(rules, rules', k, all, n, x, guestIP);
      }
    }
  }

  lemma PlaceLed(pl: Plan, all: seq<Published>, n: nat, guestIP: string)
    requires n < |all| && Placed(pl, all, n, guestIP) && AllLists(pl.rules, all, n, guestIP)
    requires AllLed(pl.rules, all, n, guestIP)
    ensures AllLed(Place(pl, all, all[n], guestIP).rules, all, n + 1, guestIP)
  {
    hide Place, Placed, LedAt, AllLists, AllLed;
    var rules' := Place(pl, all, all[n], guestIP).rules;
    PlaceGrows(pl, all, all[n], guestIP);
    if |rules'| > |pl.rules| { NewLed(pl, all, n, guestIP); }
    GrownLed(pl.rules, rules', KeyOf(all[n], guestIP), all, n, n + 1, guestIP);
  }

  lemma NewLed(pl: Plan, all: seq<Published>, n: nat, guestIP: string)
    requires n < |all| && Placed(pl, all, n, guestIP) && AllLists(pl.rules, all, n, guestIP)
    requires |Place(pl, all, all[n], guestIP).rules| > |pl.rules|
    ensures LedAt(Place(pl, all, all[n], guestIP).rules, all, n + 1, |pl.rules|, guestIP)
  {
    var p := all[n];
    FreshDecides(pl, all, n, guestIP);
    NewLeads(pl, all, n, guestIP);
    assert Place(pl, all, p, guestIP).rules == pl.rules + [NewRule(p, KeyOf(p, guestIP))];
    assert LedBy(NewRule(p, KeyOf(p, guestIP)), p);
  }

  lemma NewLeads(pl: Plan, all: seq<Published>, n: nat, guestIP: string)
    requires n < |all| && AllLists(pl.rules, all, n, guestIP) && NeedsOne(all, n, guestIP)
    requires RuleAt(pl.rules, GuestKeyOf(all[n])) == |pl.rules|
    ensures Leads(all, n, guestIP)
  {
    forall j | 0 <= j < n && NeedsOne(all, j, guestIP) ensures GuestKeyOf(all[j]) != GuestKeyOf(all[n]) {
      var x :| 0 <= x < |pl.rules| && RuleGuestKey(pl.rules[x]) == GuestKeyOf(all[j]);
    }
  }

  /** What also holds of the plan after n ports. */
  ghost predicate Led(pl: Plan, all: seq<Published>, n: nat, guestIP: string)
    requires n <= |all|
  {
    AllLists(pl.rules, all, n, guestIP) && AllLed(pl.rules, all, n, guestIP)
  }

  lemma OneMoreLed(all: seq<Published>, n: nat, guestIP: string)
    requires n < |all| && Placed(PlaceAll(all, n, guestIP), all, n, guestIP)
    requires Led(PlaceAll(all, n, guestIP), all, n, guestIP)
    ensures Led(PlaceAll(all, n + 1, guestIP), all, n + 1, guestIP)
  {
    PlaceLists(PlaceAll(all, n, guestIP), all, n, guestIP);
    PlaceLed(PlaceAll(all, n, guestIP), all, n, guestIP);
  }

  ghost predicate PlacedAndLed(pl: Plan, all: seq<Published>, n: nat, guestIP: string)
    requires n <= |all|
  {
    pl == PlaceAll(all, n, guestIP) && Placed(pl, all, n, guestIP) && Led(pl, all, n, guestIP)
  }

  lemma OneMore(pl: Plan, all: seq<Published>, n: nat, guestIP: string) returns (pl': Plan)
    requires n < |all| && PlacedAndLed(pl, all, n, guestIP)
    ensures PlacedAndLed(pl', all, n + 1, guestIP)
  {
    OneMorePlaced(all, n, guestIP);
    OneMoreLed(all, n, guestIP);
    pl' := PlaceAll(all, n + 1, guestIP);
  }

  lemma NoneYet(all: seq<Published>, guestIP: string) returns (pl: Plan)
    ensures PlacedAndLed(pl, all, 0, guestIP)
  {
    pl := Plan([], [], map[]);
    NothingPlaced(all, guestIP);
  }

  lemma {:induction false} TheRest(pl: Plan, all: seq<Published>, n: nat, guestIP: string) returns (last: Plan)
    requires n <= |all| && PlacedAndLed(pl, all, n, guestIP)
    ensures PlacedAndLed(last, all, |all|, guestIP)
    decreases |all| - n
  {
    if n == |all| {
      last := pl;
    } else {
      var next := OneMore(pl, all, n, guestIP);
      last := TheRest(next, all, n + 1, guestIP);
    }
  }

  lemma AllPlacedAndLed(all: seq<Published>, guestIP: string) returns (pl: Plan)
    ensures PlacedAndLed(pl, all, |all|, guestIP)
  {
    var none := NoneYet(all, guestIP);
    pl := TheRest(none, all, 0, guestIP);
  }

  /** Key j's traffic is redirected by rule x to a container port that its
      publish did not name. */
  predicate Misdirected(rules: seq<Rule>, all: seq<Published>, x: nat, j: nat, guestIP: string)
    requires x < |rules| && j < |all|
  {
    && Decides(all, j, guestIP) && KeyOf(all[j], guestIP) in rules[x].keys
    && rules[x].containerPort != all[j].containerPort
  }

  predicate Misdirects(rules: seq<Rule>, all: seq<Published>, guestIP: string) {
    exists x, j :: 0 <= x < |rules| && 0 <= j < |all| && Misdirected(rules, all, x, j, guestIP)
  }

  /** One container publishes one guest port twice, on two host addresses, to two
      of its own ports. */
  predicate SharesRule(all: seq<Published>, i: nat, j: nat, guestIP: string)
    requires i < |all| && j < |all|
  {
    && Leads(all, i, guestIP) && Decides(all, j, guestIP) && all[j].needsRule
    && GuestKeyOf(all[i]) == GuestKeyOf(all[j]) && all[i].id == all[j].id
    && all[i].containerPort != all[j].containerPort
  }

  predicate PublishesTwice(all: seq<Published>, guestIP: string) {
    exists i, j :: 0 <= i < |all| && 0 <= j < |all| && SharesRule(all, i, j, guestIP)
  }

  lemma MisdirectedShares(rules: seq<Rule>, all: seq<Published>, x: nat, j: nat, guestIP: string)
    requires AllFed(all, rules, guestIP) && AllLed(rules, all, |all|, guestIP)
    requires x < |rules| && j < |all| && Misdirected(rules, all, x, j, guestIP)
    ensures PublishesTwice(all, guestIP)
  {
    assert LedAt(rules, all, |all|, x, guestIP);
    var i :| 0 <= i < |all| && Leads(all, i, guestIP) && LedBy(rules[x], all[i]);
    assert FedRule(all, rules[x], guestIP);
    var d :| 0 <= d < |all| && Decides(all, d, guestIP)
      && Feeds(all, all[d], rules[x], KeyOf(all[j], guestIP), guestIP);
    assert d == j;
    assert SharesRule(all, i, j, guestIP);
  }

  lemma SharedMisdirects(rules: seq<Rule>, all: seq<Published>, i: nat, j: nat, guestIP: string)
    requires AllLists(rules, all, |all|, guestIP) && AllLed(rules, all, |all|, guestIP)
    requires i < |all| && j < |all| && SharesRule(all, i, j, guestIP)
    ensures Misdirects(rules, all, guestIP)
  {
    assert NeedsOne(all, j, guestIP) && Lists(rules, all[j], guestIP);
    var x :| 0 <= x < |rules| && RuleGuestKey(rules[x]) == GuestKeyOf(all[j])
      && (rules[x].id == all[j].id <==> KeyOf(all[j], guestIP) in rules[x].keys);
    assert LedAt(rules, all, |all|, x, guestIP);
    var l :| 0 <= l < |all| && Leads(all, l, guestIP) && LedBy(rules[x], all[l]);
    OneLeader(all, i, l, guestIP);
    assert Misdirected(rules, all, x, j, guestIP);
  }

  lemma OneLeader(all: seq<Published>, i: nat, l: nat, guestIP: string)
    requires i < |all| && l < |all| && Leads(all, i, guestIP) && Leads(all, l, guestIP)
    requires GuestKeyOf(all[i]) == GuestKeyOf(all[l])
    ensures i == l
  {
  }

  /** A rule is keyed by container alone, so it is wrong for one of its mappings
      exactly when its container published the guest port to two of its ports. */
  lemma MisdirectsExactly(all: seq<Published>, guestIP: string)
    ensures Misdirects(PlaceAll(all, |all|, guestIP).rules, all, guestIP) <==> PublishesTwice(all, guestIP)
  {
    var pl := AllPlacedAndLed(all, guestIP);
    RulesMisdirect(pl.rules, all, guestIP);
  }

  lemma RulesMisdirect(rules: seq<Rule>, all: seq<Published>, guestIP: string)
    requires AllFed(all, rules, guestIP) && AllLists(rules, all, |all|, guestIP) && AllLed(rules, all, |all|, guestIP)
    ensures Misdirects(rules, all, guestIP) <==> PublishesTwice(all, guestIP)
  {
    if Misdirects(rules, all, guestIP) {
      var x, j :| 0 <= x < |rules| && 0 <= j < |all| && Misdirected(rules, all, x, j, guestIP);
      MisdirectedShares(rules, all, x, j, guestIP);
    }
    if PublishesTwice(all, guestIP) {
      var i, j :| 0 <= i < |all| && 0 <= j < |all| && SharesRule(all, i, j, guestIP);
      SharedMisdirects(rules, all, i, j, guestIP);
    }
  }

  // ----- The plan in order -----

  predicate RuleLess(a: Rule, b: Rule) {
    a.guestPort < b.guestPort || (a.guestPort == b.guestPort && Less(a.proto, b.proto))
  }

  predicate RulesInOrder(rs: seq<Rule>) { forall i, j :: 0 <= i < j < |rs| ==> RuleLess(rs[i], rs[j]) }

  function InsertRule(r: Rule, rs: seq<Rule>): (out: seq<Rule>)
    ensures forall x :: x in out <==> x == r || x in rs
  {
    if rs == [] then [r]
    else if RuleLess(r, rs[0]) then [r] + rs
    else
      assert forall x :: x in rs <==> x == rs[0] || x in rs[1..];
      [rs[0]] + InsertRule(r, rs[1..])
  }

  function SortRules(rs: seq<Rule>): (out: seq<Rule>)
    ensures forall x :: x in out <==> x in rs
  {
    if rs == [] then []
    else
      assert forall x :: x in rs <==> x == rs[0] || x in rs[1..];
      InsertRule(rs[0], SortRules(rs[1..]))
  }

  predicate Apart(a: Rule, b: Rule) {
    RuleGuestKey(a) != RuleGuestKey(b) && forall k :: k in a.keys ==> k !in b.keys
  }

  lemma ConsApart(r: Rule, rs: seq<Rule>)
    requires RulesApart(rs) && NoRepeat(r.keys) && r.keys != [] && forall b :: b in rs ==> Apart(r, b)
    ensures RulesApart([r] + rs)
  {
    var all := [r] + rs;
    forall i, j | 0 <= i < j < |all| ensures Apart(all[i], all[j]) {
      assert all[j] == rs[j - 1] && rs[j - 1] in rs;
      if i > 0 { assert all[i] == rs[i - 1]; }
    }
  }

  lemma HeadApart(rs: seq<Rule>)
    requires RulesApart(rs) && rs != []
    ensures RulesApart(rs[1..]) && NoRepeat(rs[0].keys) && rs[0].keys != []
    ensures forall b :: b in rs[1..] ==> Apart(rs[0], b) && Apart(b, rs[0])
  {
    forall b | b in rs[1..] ensures Apart(rs[0], b) && Apart(b, rs[0]) {
      var i :| 0 <= i < |rs[1..]| && rs[1..][i] == b;
      assert b == rs[i + 1];
    }
  }

  lemma ApartIsOrdered(a: Rule, b: Rule)
    requires Apart(a, b)
    ensures RuleLess(a, b) || RuleLess(b, a)
  {
    LessIsTotal(a.proto, b.proto);
  }

  lemma RuleLessIsTransitive(a: Rule, b: Rule, c: Rule)
    requires RuleLess(a, b) && RuleLess(b, c)
    ensures RuleLess(a, c)
  {
    if a.guestPort == c.guestPort { LessIsTransitive(a.proto, b.proto, c.proto); }
  }

  lemma {:induction false} InsertKeeps(r: Rule, rs: seq<Rule>)
    requires RulesApart(rs) && RulesInOrder(rs) && NoRepeat(r.keys) && r.keys != []
    requires forall b :: b in rs ==> Apart(r, b) && Apart(b, r)
    ensures RulesApart(InsertRule(r, rs)) && RulesInOrder(InsertRule(r, rs))
  {
    if rs == [] {
    } else if RuleLess(r, rs[0]) {
      ConsApart(r, rs);
      forall i | 0 <= i < |rs| ensures RuleLess(r, rs[i]) { if i > 0 { RuleLessIsTransitive(r, rs[0], rs[i]); } }
    } else {
      assert rs[0] in rs;
      ApartIsOrdered(r, rs[0]);
      HeadApart(rs);
      InsertKeeps(r, rs[1..]);
      var rest := InsertRule(r, rs[1..]);
      ConsApart(rs[0], rest);
      forall i | 0 <= i < |rest| ensures RuleLess(rs[0], rest[i]) {
        assert rest[i] in rest;
        if rest[i] != r { assert rest[i] in rs[1..]; }
      }
    }
  }

  lemma {:induction false} SortKeeps(rs: seq<Rule>)
    requires RulesApart(rs)
    ensures RulesApart(SortRules(rs)) && RulesInOrder(SortRules(rs))
  {
    if rs != [] {
      HeadApart(rs);
      SortKeeps(rs[1..]);
      InsertKeeps(rs[0], SortRules(rs[1..]));
    }
  }

  function Ordered(pl: Plan): Plan { Plan(Sort(pl.mappings, KeyText), SortRules(pl.rules), pl.pending) }

  /** The plan for a list of published ports. */
  function PlanFor(all: seq<Published>, guestIP: string): Plan { Ordered(PlaceAll(all, |all|, guestIP)) }

  function ComputedPlan(cs: seq<Container>, guestIP: string, hostIP: string): Plan {
    PlanFor(AllPorts(cs, guestIP, hostIP), guestIP)
  }

  lemma OrderedMoves(pl: Plan, k: string)
    ensures HasMapping(Ordered(pl).mappings, k) <==> HasMapping(pl.mappings, k)
    ensures InRule(Ordered(pl).rules, k) <==> InRule(pl.rules, k)
  {
    var o := Ordered(pl);
    if HasMapping(pl.mappings, k) {
      var i :| 0 <= i < |pl.mappings| && KeyText(pl.mappings[i]) == k;
      SortKeepsMembers(pl.mappings, KeyText, pl.mappings[i]);
    }
    if HasMapping(o.mappings, k) {
      var i :| 0 <= i < |o.mappings| && KeyText(o.mappings[i]) == k;
      SortKeepsMembers(pl.mappings, KeyText, o.mappings[i]);
    }
    if InRule(pl.rules, k) {
      var i :| 0 <= i < |pl.rules| && k in pl.rules[i].keys;
      assert pl.rules[i] in o.rules;
    }
    if InRule(o.rules, k) {
      var i :| 0 <= i < |o.rules| && k in o.rules[i].keys;
      assert o.rules[i] in pl.rules;
    }
  }

  /** The mappings are strictly sorted, and are exactly the published ports'. */
  lemma MappingsAreThePorts(all: seq<Published>, guestIP: string)
    ensures SortedBy(PlanFor(all, guestIP).mappings, KeyText)
    ensures forall j :: 0 <= j < |all| ==> HasMapping(PlanFor(all, guestIP).mappings, KeyOf(all[j], guestIP))
    ensures forall m :: m in PlanFor(all, guestIP).mappings ==>
      exists j :: 0 <= j < |all| && MappingOf(all[j], guestIP) == m
  {
    hide PlaceAll, Ordered, HasMapping, Led;
    var pl := AllPlacedAndLed(all, guestIP);
    OrderedMappings(pl, all, guestIP);
  }

  lemma OrderedMappings(pl: Plan, all: seq<Published>, guestIP: string)
    requires Placed(pl, all, |all|, guestIP)
    ensures SortedBy(Ordered(pl).mappings, KeyText)
    ensures forall j :: 0 <= j < |all| ==> HasMapping(Ordered(pl).mappings, KeyOf(all[j], guestIP))
    ensures forall m :: m in Ordered(pl).mappings ==> exists j :: 0 <= j < |all| && MappingOf(all[j], guestIP) == m
  {
    assert KeysDiffer(pl.mappings, KeyText);
    SortSorts(pl.mappings, KeyText);
    forall j | 0 <= j < |all| ensures HasMapping(Ordered(pl).mappings, KeyOf(all[j], guestIP)) {
      OrderedMoves(pl, KeyOf(all[j], guestIP));
    }
    forall m | m in Ordered(pl).mappings ensures exists j :: 0 <= j < |all| && MappingOf(all[j], guestIP) == m {
      SortKeepsMembers(pl.mappings, KeyText, m);
    }
  }

  /** Each mapping's key is in exactly one place: reachable through the engine,
      in exactly one rule's list and there once, or pending. No two rules share a
      guest port. */
  lemma EachKeyInOnePlace(all: seq<Published>, guestIP: string)
    ensures RulesApart(PlanFor(all, guestIP).rules) && RulesInOrder(PlanFor(all, guestIP).rules)
    ensures forall j :: 0 <= j < |all| && Decides(all, j, guestIP) ==>
      OnePlace(PlanFor(all, guestIP), KeyOf(all[j], guestIP), all[j].needsRule)
  {
    var pl := AllPlacedAndLed(all, guestIP);
    SortKeeps(pl.rules);
    forall j | 0 <= j < |all| && Decides(all, j, guestIP)
      ensures OnePlace(Ordered(pl), KeyOf(all[j], guestIP), all[j].needsRule)
    {
      OrderedMoves(pl, KeyOf(all[j], guestIP));
    }
  }

  /** Each rule is for a guest port the engine does not redirect itself, and each
      key on it was decided by a publish of that port by the rule's container. */
  lemma RulesComeFromTheirContainer(all: seq<Published>, guestIP: string, r: Rule)
    requires r in PlanFor(all, guestIP).rules
    ensures FedRule(all, r, guestIP) && r.keys != [] && EngineOwner(all, RuleGuestKey(r)) == []
  {
    var pl := AllPlacedAndLed(all, guestIP);
    assert r in pl.rules;
    var i :| 0 <= i < |pl.rules| && pl.rules[i] == r;
    assert FedRule(all, pl.rules[i], guestIP);
    assert r.keys[0] in r.keys;
  }

  /** And the convergence takes the mappings as they come: no key twice, each
      with a remote. */
  lemma PlannedIsProper(all: seq<Published>, guestIP: string)
    ensures C.Proper(C.Plan(PlanFor(all, guestIP).mappings, [], map[]))
  {
    var ms := PlanFor(all, guestIP).mappings;
    MappingsAreThePorts(all, guestIP);
    forall i, j | 0 <= i < j < |ms| ensures ms[i] != ms[j] {
      LessIsTotal(KeyText(ms[i]), KeyText(ms[j]));
    }
  }

  // ----- Compute, internal/forwarder/desired.go:151-228 -----

  method Expand(c: Container, p: Port, guestIP: string, hostIP: string) returns (out: seq<Published>)
    ensures out == Expanded(c, p, guestIP, hostIP)
  {
    var bind := BindFor(p.hostIP, guestIP, hostIP);
    var n := if p.range < 1 then 1 else p.range;
    out := [];
    var i := 0;
    while i < n && p.hostPort + i <= 65535
      invariant 0 <= i <= n && |out| == i && i <= Unrolled(p)
      invariant forall j :: 0 <= j < i ==> out[j] == PublishedAt(c, p, guestIP, hostIP, j)
    {
      out := out + [Published(if p.protocol == "" then "tcp" else p.protocol, c.id, p.hostPort + i,
                              p.containerPort + i, bind.0, bind.1)];
      i := i + 1;
    }
  }

  method ContainerPorts(c: Container, guestIP: string, hostIP: string) returns (out: seq<Published>)
    ensures out == PortsOf(c, c.ports, guestIP, hostIP)
  {
    out := [];
    var i := 0;
    while i < |c.ports|
      invariant 0 <= i <= |c.ports| && out == PortsOf(c, c.ports[..i], guestIP, hostIP)
    {
      assert c.ports[..i + 1][..i] == c.ports[..i];
      if c.ports[i].hostPort != 0 {
        var more := Expand(c, c.ports[i], guestIP, hostIP);
        out := out + more;
      }
      i := i + 1;
    }
    assert c.ports[..i] == c.ports;
  }

  method GatherPorts(cs: seq<Container>, guestIP: string, hostIP: string) returns (out: seq<Published>)
    ensures out == AllPorts(cs, guestIP, hostIP)
  {
    out := [];
    var i := 0;
    while i < |cs|
      invariant 0 <= i <= |cs| && out == AllPorts(cs[..i], guestIP, hostIP)
    {
      assert cs[..i + 1][..i] == cs[..i];
      if Counts(cs[i]) {
        var more := ContainerPorts(cs[i], guestIP, hostIP);
        out := out + more;
      }
      i := i + 1;
    }
    assert cs[..i] == cs;
  }

  /** The map the code builds of the ports the engine redirects. */
  ghost predicate OwnsFrom(owns: map<string, string>, ports: seq<Published>) {
    forall gk: string :: EngineOwner(ports, gk) == if gk in owns then [owns[gk]] else []
  }

  lemma {:induction false} EngineOwnerMore(ports: seq<Published>, p: Published, gk: string)
    ensures EngineOwner(ports + [p], gk) ==
      if EngineOwner(ports, gk) != [] then EngineOwner(ports, gk)
      else if !p.needsRule && GuestKeyOf(p) == gk then [p.id] else []
  {
    if ports == [] {
      assert [] + [p] == [p] && [p][1..] == [];
    } else {
      assert (ports + [p])[1..] == ports[1..] + [p];
      EngineOwnerMore(ports[1..], p, gk);
    }
  }

  lemma OwnsMore(owns: map<string, string>, ports: seq<Published>, p: Published)
    requires OwnsFrom(owns, ports)
    ensures var gk := GuestKeyOf(p);
      OwnsFrom(if gk !in owns && !p.needsRule then owns[gk := p.id] else owns, ports + [p])
  {
    var gk := GuestKeyOf(p);
    var owns' := if gk !in owns && !p.needsRule then owns[gk := p.id] else owns;
    forall x: string ensures EngineOwner(ports + [p], x) == if x in owns' then [owns'[x]] else [] {
      EngineOwnerMore(ports, p, x);
    }
  }

  method EngineOwns(all: seq<Published>) returns (owns: map<string, string>)
    ensures OwnsFrom(owns, all)
  {
    owns := map[];
    var i := 0;
    while i < |all|
      invariant 0 <= i <= |all| && OwnsFrom(owns, all[..i])
    {
      assert all[..i + 1] == all[..i] + [all[i]];
      OwnsMore(owns, all[..i], all[i]);
      var gk := GuestKeyOf(all[i]);
      if gk !in owns && !all[i].needsRule { owns := owns[gk := all[i].id]; }
      i := i + 1;
    }
    assert all[..i] == all;
  }

  /** The maps the code keeps beside the plan say what the plan says. */
  ghost predicate Indexed(pl: Plan, seen: set<string>, ruleAt: map<string, nat>) {
    && (forall k: string :: k in seen <==> HasMapping(pl.mappings, k))
    && (forall gk: string :: RuleAt(pl.rules, gk) == if gk in ruleAt then ruleAt[gk] else |pl.rules|)
    && (forall gk :: gk in ruleAt ==> ruleAt[gk] < |pl.rules|)
  }

  lemma {:induction false} RuleAtMore(rules: seq<Rule>, r: Rule, gk: string)
    ensures RuleAt(rules + [r], gk) ==
      if RuleAt(rules, gk) < |rules| then RuleAt(rules, gk) else if RuleGuestKey(r) == gk then |rules| else |rules| + 1
  {
    if rules == [] {
      assert [] + [r] == [r] && [r][1..] == [];
    } else {
      assert (rules + [r])[1..] == rules[1..] + [r];
      RuleAtMore(rules[1..], r, gk);
    }
  }

  lemma {:induction false} RuleAtSame(a: seq<Rule>, b: seq<Rule>, gk: string)
    requires |a| == |b| && forall i :: 0 <= i < |a| ==> RuleGuestKey(a[i]) == RuleGuestKey(b[i])
    ensures RuleAt(a, gk) == RuleAt(b, gk)
  {
    if a != [] {
      assert forall i :: 0 <= i < |a[1..]| ==> a[1..][i] == a[i + 1] && b[1..][i] == b[i + 1];
      RuleAtSame(a[1..], b[1..], gk);
    }
  }

  lemma IndexedMapping(pl: Plan, seen: set<string>, ruleAt: map<string, nat>, m: C.Key, pending: map<string, string>)
    requires Indexed(pl, seen, ruleAt)
    ensures Indexed(pl.(mappings := pl.mappings + [m], pending := pending), seen + {KeyText(m)}, ruleAt)
  {
    forall k: string ensures k in seen + {KeyText(m)} <==> HasMapping(pl.mappings + [m], k) {
      HasMappingMore(pl.mappings, m, k);
    }
  }

  lemma IndexedJoin(pl: Plan, seen: set<string>, ruleAt: map<string, nat>, i: nat, k: string)
    requires Indexed(pl, seen, ruleAt) && i < |pl.rules|
    ensures Indexed(pl.(rules := pl.rules[i := pl.rules[i].(keys := pl.rules[i].keys + [k])]), seen, ruleAt)
  {
    var rules' := pl.rules[i := pl.rules[i].(keys := pl.rules[i].keys + [k])];
    forall gk: string ensures RuleAt(rules', gk) == RuleAt(pl.rules, gk) { RuleAtSame(rules', pl.rules, gk); }
  }

  lemma IndexedRule(pl: Plan, seen: set<string>, ruleAt: map<string, nat>, r: Rule)
    requires Indexed(pl, seen, ruleAt) && RuleGuestKey(r) !in ruleAt
    ensures Indexed(pl.(rules := pl.rules + [r]), seen, ruleAt[RuleGuestKey(r) := |pl.rules|])
  {
    var ruleAt' := ruleAt[RuleGuestKey(r) := |pl.rules|];
    forall gk: string ensures RuleAt(pl.rules + [r], gk) == if gk in ruleAt' then ruleAt'[gk] else |pl.rules| + 1 {
      RuleAtMore(pl.rules, r, gk);
    }
  }

  method PlacePorts(all: seq<Published>, owns: map<string, string>, guestIP: string) returns (pl: Plan)
    requires OwnsFrom(owns, all)
    ensures pl == PlaceAll(all, |all|, guestIP)
  {
    hide Place, OwnsFrom;
    pl := Plan([], [], map[]);
    var seen: set<string>, ruleAt: map<string, nat> := {}, map[];
    var n := 0;
    while n < |all|
      invariant 0 <= n <= |all| && pl == PlaceAll(all, n, guestIP) && Indexed(pl, seen, ruleAt)
    {
      pl, seen, ruleAt := PlaceOne(pl, seen, ruleAt, all[n], owns, all, guestIP);
      n := n + 1;
    }
  }

  method PlaceOne(was: Plan, seen_: set<string>, ruleAt_: map<string, nat>, p: Published, owns: map<string, string>,
                  ghost all: seq<Published>, guestIP: string)
    returns (pl: Plan, seen: set<string>, ruleAt: map<string, nat>)
    requires OwnsFrom(owns, all) && Indexed(was, seen_, ruleAt_)
    ensures pl == Place(was, all, p, guestIP) && Indexed(pl, seen, ruleAt)
  {
    pl, seen, ruleAt := was, seen_, ruleAt_;
    var mp := MappingOf(p, guestIP);
    var k, gk := KeyText(mp), GuestKeyOf(p);
    if k in seen { return; }
    IndexedMapping(was, seen, ruleAt, mp, was.pending);
    seen := seen + {k};
    pl := pl.(mappings := pl.mappings + [mp]);
    if !p.needsRule { return; }
    assert EngineOwner(all, gk) == if gk in owns then [owns[gk]] else [];
    if gk in owns {
      IndexedMapping(was, seen_, ruleAt, mp, was.pending[k := PortClash(p.hostPort, p.proto, owns[gk], p.id)]);
      pl := pl.(pending := pl.pending[k := PortClash(p.hostPort, p.proto, owns[gk], p.id)]);
      return;
    }
    assert RuleAt(was.rules, gk) == if gk in ruleAt then ruleAt[gk] else |was.rules|;
    if gk in ruleAt {
      var i := ruleAt[gk];
      if pl.rules[i].id != p.id {
        IndexedMapping(was, seen_, ruleAt, mp, was.pending[k := PortClash(p.hostPort, p.proto, pl.rules[i].id, p.id)]);
        pl := pl.(pending := pl.pending[k := PortClash(p.hostPort, p.proto, pl.rules[i].id, p.id)]);
        return;
      }
      IndexedJoin(pl, seen, ruleAt, i, k);
      pl := pl.(rules := pl.rules[i := pl.rules[i].(keys := pl.rules[i].keys + [k])]);
      return;
    }
    IndexedRule(pl, seen, ruleAt, NewRule(p, k));
    ruleAt := ruleAt[gk := |pl.rules|];
    pl := pl.(rules := pl.rules + [Rule(p.proto, p.hostPort, p.id, "", p.containerPort, [k])]);
  }

  method Compute(cs: seq<Container>, guestIP: string, publishAddr: string) returns (pl: Plan)
    ensures pl == ComputedPlan(cs, guestIP, HostIP(publishAddr))
  {
    var hostIP := HostIP(publishAddr);
    var all := GatherPorts(cs, guestIP, hostIP);
    var owns := EngineOwns(all);
    var placed := PlacePorts(all, owns, guestIP);
    pl := Plan(Sort(placed.mappings, KeyText), SortRules(placed.rules), placed.pending);
  }

  function HostIP(configured: string): string { if configured == "" then DefaultHostIP else configured }

  // ----- Resolving and blocking, internal/forwarder/desired.go:325-356 -----

  function AddressOf(ips: map<string, string>, id: string): string { if id in ips then ips[id] else "" }

  function Blocked(pending: map<string, string>, r: Rule, why: string): (m: map<string, string>)
    ensures forall k :: k in m <==> k in pending || k in r.keys
    ensures forall k :: k in m ==> m[k] == if k in r.keys then why else pending[k]
  {
    map k | k in pending.Keys + (set x | x in r.keys) :: if k in r.keys then why else pending[k]
  }

  const NoAddressYet := "the container has no address on the guest's container network yet"

  function ResolvedOne(pl: Plan, r: Rule, ips: map<string, string>): Plan {
    var ip := AddressOf(ips, r.id);
    if ip == "" then pl.(pending := Blocked(pl.pending, r, NoAddressYet))
    else pl.(rules := pl.rules + [r.(containerIP := ip)])
  }

  function Resolved(pl: Plan, rules: seq<Rule>, ips: map<string, string>): Plan {
    if rules == [] then pl.(rules := [])
    else ResolvedOne(Resolved(pl, rules[..|rules| - 1], ips), rules[|rules| - 1], ips)
  }

  lemma ResolvedMore(pl: Plan, rules: seq<Rule>, ips: map<string, string>, i: nat)
    requires i < |rules|
    ensures Resolved(pl, rules[..i + 1], ips) == ResolvedOne(Resolved(pl, rules[..i], ips), rules[i], ips)
  {
    assert rules[..i + 1][..i] == rules[..i];
  }

  method ResolveOne(pl: Plan, r: Rule, ips: map<string, string>) returns (out: Plan)
    ensures out == ResolvedOne(pl, r, ips)
  {
    out := pl;
    var ip := AddressOf(ips, r.id);
    if ip == "" {
      out := out.(pending := Blocked(out.pending, r, NoAddressYet));
      return;
    }
    out := out.(rules := out.rules + [r.(containerIP := ip)]);
  }

  method Resolve(pl: Plan, ips: map<string, string>) returns (out: Plan)
    ensures out == Resolved(pl, pl.rules, ips)
  {
    out := pl.(rules := []);
    var i := 0;
    while i < |pl.rules|
      invariant 0 <= i <= |pl.rules| && out == Resolved(pl, pl.rules[..i], ips)
    {
      ResolvedMore(pl, pl.rules, ips, i);
      out := ResolveOne(out, pl.rules[i], ips);
      i := i + 1;
    }
    assert pl.rules[..i] == pl.rules;
  }

  /** Key k is on a rule whose container has an address, or has none. */
  predicate Settles(rules: seq<Rule>, ips: map<string, string>, k: string, addressed: bool) {
    exists i :: 0 <= i < |rules| && SettlesAt(rules[i], ips, k, addressed)
  }

  predicate SettlesAt(r: Rule, ips: map<string, string>, k: string, addressed: bool) {
    k in r.keys && (r.id in ips && ips[r.id] != "" <==> addressed)
  }

  lemma SettlesMore(rules: seq<Rule>, r: Rule, ips: map<string, string>, k: string, addressed: bool)
    ensures Settles(rules + [r], ips, k, addressed) <==>
      Settles(rules, ips, k, addressed) || SettlesAt(r, ips, k, addressed)
  {
    if Settles(rules, ips, k, addressed) {
      var i :| 0 <= i < |rules| && SettlesAt(rules[i], ips, k, addressed);
      assert (rules + [r])[i] == rules[i];
    }
    assert (rules + [r])[|rules|] == r;
  }

  /** A rule's keys are lost to it only together, when its container has no
      address; then they are pending, and nothing else changes. */
  lemma {:induction false} ResolveMoves(pl: Plan, rules: seq<Rule>, ips: map<string, string>, k: string)
    ensures var out := Resolved(pl, rules, ips);
      && out.mappings == pl.mappings
      && (InRule(out.rules, k) <==> Settles(rules, ips, k, true))
      && (k in out.pending <==> k in pl.pending || Settles(rules, ips, k, false))
  {
    if rules != [] {
      var init, r := rules[..|rules| - 1], rules[|rules| - 1];
      ResolveMoves(pl, init, ips, k);
      assert rules == init + [r];
      SettlesMore(init, r, ips, k, true);
      SettlesMore(init, r, ips, k, false);
      InRuleMore(Resolved(pl, init, ips).rules, r.(containerIP := AddressOf(ips, r.id)), k);
    }
  }

  lemma SettlesOnce(rules: seq<Rule>, ips: map<string, string>, k: string)
    requires RulesApart(rules)
    ensures InRule(rules, k) <==> Settles(rules, ips, k, true) || Settles(rules, ips, k, false)
    ensures !(Settles(rules, ips, k, true) && Settles(rules, ips, k, false))
  {
    if InRule(rules, k) {
      var i :| 0 <= i < |rules| && k in rules[i].keys;
      assert SettlesAt(rules[i], ips, k, true) || SettlesAt(rules[i], ips, k, false);
    }
  }

  /** Resolving only moves keys from rules to pending: each key keeps exactly one
      place. */
  lemma ResolveKeepsPlaces(pl: Plan, ips: map<string, string>, k: string, needsRule: bool)
    requires RulesApart(pl.rules) && OnePlace(pl, k, needsRule)
    ensures OnePlace(Resolved(pl, pl.rules, ips), k, needsRule)
    ensures InRule(Resolved(pl, pl.rules, ips).rules, k) ==> InRule(pl.rules, k)
    ensures k in pl.pending ==> k in Resolved(pl, pl.rules, ips).pending
  {
    ResolveMoves(pl, pl.rules, ips, k);
    SettlesOnce(pl.rules, ips, k);
  }

  function BlockedAll(pl: Plan, rules: seq<Rule>, why: string): Plan {
    if rules == [] then pl.(rules := [])
    else
      var before := BlockedAll(pl, rules[..|rules| - 1], why);
      before.(pending := Blocked(before.pending, rules[|rules| - 1], why))
  }

  method Block(pl: Plan, why: string) returns (out: Plan)
    ensures out == BlockedAll(pl, pl.rules, why)
  {
    var pending := pl.pending;
    var i := 0;
    while i < |pl.rules|
      invariant 0 <= i <= |pl.rules| && Plan(pl.mappings, [], pending) == BlockedAll(pl, pl.rules[..i], why)
    {
      assert pl.rules[..i + 1][..i] == pl.rules[..i];
      pending := Blocked(pending, pl.rules[i], why);
      i := i + 1;
    }
    assert pl.rules[..i] == pl.rules;
    out := Plan(pl.mappings, [], pending);
  }

  /** Blocking moves every key that had a rule to pending, and no other. */
  lemma {:induction false} BlockMoves(pl: Plan, rules: seq<Rule>, why: string, k: string)
    ensures var out := BlockedAll(pl, rules, why);
      && out.mappings == pl.mappings && out.rules == []
      && (k in out.pending <==> k in pl.pending || InRule(rules, k))
      && (InRule(rules, k) ==> out.pending[k] == why)
      && (!InRule(rules, k) && k in pl.pending ==> out.pending[k] == pl.pending[k])
  {
    if rules != [] {
      var init, r := rules[..|rules| - 1], rules[|rules| - 1];
      BlockMoves(pl, init, why, k);
      assert rules == init + [r];
      InRuleMore(init, r, k);
    }
  }

  lemma BlockKeepsPlaces(pl: Plan, why: string, k: string, needsRule: bool)
    requires OnePlace(pl, k, needsRule)
    ensures OnePlace(BlockedAll(pl, pl.rules, why), k, needsRule)
  {
    BlockMoves(pl, pl.rules, why, k);
  }

  /** An example: one container publishing port 8080 on two host addresses, to
      its ports 80 and 81. */
  lemma OneContainerTwoPorts(guestIP: string) returns (all: seq<Published>)
    ensures Misdirects(PlaceAll(all, |all|, guestIP).rules, all, guestIP)
  {
    all := [Published("tcp", "c", 8080, 80, "127.0.0.1", true), Published("tcp", "c", 8080, 81, "10.0.0.1", true)];
    assert |KeyOf(all[0], guestIP)| > |KeyOf(all[1], guestIP)|;
    assert EngineOwner(all, GuestKeyOf(all[0])) == [];
    assert SharesRule(all, 0, 1, guestIP);
    MisdirectsExactly(all, guestIP);
  }
}
