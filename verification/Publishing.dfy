/**
  What the computed plan does for the containers, told from the containers alone:
  which host address each publish is found at, where it leads, and which redirect
  it gets in the guest.
 */
module Publishing {
  import opened Base
  import opened Order
  import opened DesiredState
  import C = Converge

  /** Port `at` of the range that port y of container x publishes. */
  datatype Spot = Spot(x: nat, y: nat, at: nat)

  /** The container runs or is paused, and the port has a host side that exists. */
  predicate Live(cs: seq<Container>, s: Spot) {
    && s.x < |cs| && s.y < |cs[s.x].ports|
    && !cs[s.x].exited && (cs[s.x].state == "running" || cs[s.x].state == "paused" || cs[s.x].state == "")
    && var p := cs[s.x].ports[s.y];
       p.hostPort != 0 && (s.at == 0 || s.at < p.range) && p.hostPort + s.at <= 65535
  }

  function PortAt(cs: seq<Container>, s: Spot): Port
    requires Live(cs, s)
  {
    cs[s.x].ports[s.y]
  }

  function GuestPortOf(cs: seq<Container>, s: Spot): nat
    requires Live(cs, s)
  {
    PortAt(cs, s).hostPort + s.at
  }

  function ProtoOf(cs: seq<Container>, s: Spot): string
    requires Live(cs, s)
  {
    if PortAt(cs, s).protocol != "" then PortAt(cs, s).protocol else "tcp"
  }

  /** The publish asks for no address in particular; the engine makes it reachable
      at the guest's own. */
  predicate LeftToTheEngine(portIP: string, guestIP: string) { portIP == "" || portIP == guestIP }

  /** The host address a publish is found at. */
  function HostSide(portIP: string, guestIP: string, publishAddr: string): string {
    if !LeftToTheEngine(portIP, guestIP) then if portIP != "0.0.0.0" && portIP != "::" then portIP else "0.0.0.0"
    else if publishAddr != "" then publishAddr
    else "0.0.0.0"
  }

  /** The mapping of a publish: from its host address to the guest, at one port. */
  function MappingAt(cs: seq<Container>, s: Spot, guestIP: string, publishAddr: string): C.Key
    requires Live(cs, s)
  {
    var port := GuestPortOf(cs, s);
    C.Key(ProtoOf(cs, s),
          JoinHostPort(HostSide(PortAt(cs, s).hostIP, guestIP, publishAddr), port), JoinHostPort(guestIP, port))
  }

  function KeyAt(cs: seq<Container>, s: Spot, guestIP: string, publishAddr: string): string
    requires Live(cs, s)
  {
    KeyText(MappingAt(cs, s, guestIP, publishAddr))
  }

  predicate Before(s: Spot, t: Spot) {
    s.x < t.x || (s.x == t.x && (s.y < t.y || (s.y == t.y && s.at < t.at)))
  }

  /** The first publish under its key. */
  ghost predicate First(cs: seq<Container>, s: Spot, guestIP: string, publishAddr: string)
    requires Live(cs, s)
  {
    forall t :: Live(cs, t) && Before(t, s) ==> KeyAt(cs, t, guestIP, publishAddr) != KeyAt(cs, s, guestIP, publishAddr)
  }

  predicate SameGuestPort(cs: seq<Container>, s: Spot, t: Spot)
    requires Live(cs, s) && Live(cs, t)
  {
    ProtoOf(cs, s) == ProtoOf(cs, t) && GuestPortOf(cs, s) == GuestPortOf(cs, t)
  }

  predicate NeedsRedirect(cs: seq<Container>, s: Spot, guestIP: string)
    requires Live(cs, s)
  {
    !LeftToTheEngine(PortAt(cs, s).hostIP, guestIP)
  }

  // ----- Where a spot stands among the ports -----

  function PortsIn(c: Container, n: nat, guestIP: string, hostIP: string): seq<Published>
    requires n <= |c.ports|
  {
    PortsOf(c, c.ports[..n], guestIP, hostIP)
  }

  /** The number of ports before a spot. */
  function PlaceOf(cs: seq<Container>, s: Spot, guestIP: string, hostIP: string): nat
    requires Live(cs, s)
  {
    |AllPorts(cs[..s.x], guestIP, hostIP)| + |PortsIn(cs[s.x], s.y, guestIP, hostIP)| + s.at
  }

  lemma LiveIsUnrolled(cs: seq<Container>, s: Spot)
    requires Live(cs, s)
    ensures Counts(cs[s.x]) && s.at < Unrolled(PortAt(cs, s))
  {
  }

  lemma OneMorePort(c: Container, n: nat, guestIP: string, hostIP: string)
    requires n < |c.ports|
    ensures PortsIn(c, n + 1, guestIP, hostIP) ==
      PortsIn(c, n, guestIP, hostIP) + if c.ports[n].hostPort == 0 then [] else Expanded(c, c.ports[n], guestIP, hostIP)
  {
    assert c.ports[..n + 1][..n] == c.ports[..n];
  }

  lemma OneMoreContainer(cs: seq<Container>, n: nat, guestIP: string, hostIP: string)
    requires n < |cs|
    ensures AllPorts(cs[..n + 1], guestIP, hostIP) ==
      AllPorts(cs[..n], guestIP, hostIP)
      + if Counts(cs[n]) then PortsIn(cs[n], |cs[n].ports|, guestIP, hostIP) else []
  {
    assert cs[..n + 1][..n] == cs[..n];
    assert cs[n].ports[..|cs[n].ports|] == cs[n].ports;
  }

  lemma {:induction false} PortsGrow(c: Container, m: nat, n: nat, guestIP: string, hostIP: string)
    requires m <= n <= |c.ports|
    ensures PortsIn(c, m, guestIP, hostIP) <= PortsIn(c, n, guestIP, hostIP)
  {
    hide PortsIn, Expanded;
    if m < n {
      PortsGrow(c, m, n - 1, guestIP, hostIP);
      OneMorePort(c, n - 1, guestIP, hostIP);
    }
  }

  lemma {:induction false} ContainersGrow(cs: seq<Container>, m: nat, n: nat, guestIP: string, hostIP: string)
    requires m <= n <= |cs|
    ensures AllPorts(cs[..m], guestIP, hostIP) <= AllPorts(cs[..n], guestIP, hostIP)
  {
    hide AllPorts, PortsIn;
    if m < n {
      ContainersGrow(cs, m, n - 1, guestIP, hostIP);
      OneMoreContainer(cs, n - 1, guestIP, hostIP);
    }
  }

  lemma FoundIn<T>(a: seq<T>, b: seq<T>, all: seq<T>, k: nat)
    requires k < |b| && a + b <= all
    ensures |a| + k < |all| && all[|a| + k] == b[k]
  {
    assert (a + b)[|a| + k] == b[k];
  }

  lemma SpotInContainer(cs: seq<Container>, s: Spot, guestIP: string, hostIP: string)
    requires Live(cs, s)
    ensures var ports := PortsIn(cs[s.x], |cs[s.x].ports|, guestIP, hostIP);
      var k := |PortsIn(cs[s.x], s.y, guestIP, hostIP)| + s.at;
      && k < |PortsIn(cs[s.x], s.y + 1, guestIP, hostIP)| <= |ports|
      && ports[k] == PublishedAt(cs[s.x], PortAt(cs, s), guestIP, hostIP, s.at)
  {
    hide PortsIn, PublishedAt, Unrolled, Counts;
    var c := cs[s.x];
    LiveIsUnrolled(cs, s);
    OneMorePort(c, s.y, guestIP, hostIP);
    PortsGrow(c, s.y + 1, |c.ports|, guestIP, hostIP);
    FoundIn(PortsIn(c, s.y, guestIP, hostIP), Expanded(c, PortAt(cs, s), guestIP, hostIP),
            PortsIn(c, |c.ports|, guestIP, hostIP), s.at);
  }

  lemma SpotHasAPlace(cs: seq<Container>, s: Spot, guestIP: string, hostIP: string)
    requires Live(cs, s)
    ensures var all, k := AllPorts(cs, guestIP, hostIP), PlaceOf(cs, s, guestIP, hostIP);
      k < |AllPorts(cs[..s.x + 1], guestIP, hostIP)| <= |all|
      && all[k] == PublishedAt(cs[s.x], PortAt(cs, s), guestIP, hostIP, s.at)
  {
    hide AllPorts, PortsIn, PublishedAt, Unrolled, Counts;
    var c := cs[s.x];
    LiveIsUnrolled(cs, s);
    SpotInContainer(cs, s, guestIP, hostIP);
    OneMoreContainer(cs, s.x, guestIP, hostIP);
    ContainersGrow(cs, s.x + 1, |cs|, guestIP, hostIP);
    assert cs[..|cs|] == cs;
    FoundIn(AllPorts(cs[..s.x], guestIP, hostIP), PortsIn(c, |c.ports|, guestIP, hostIP), AllPorts(cs, guestIP, hostIP),
            |PortsIn(c, s.y, guestIP, hostIP)| + s.at);
  }

  lemma EarlierPlace(cs: seq<Container>, s: Spot, t: Spot, guestIP: string, hostIP: string)
    requires Live(cs, s) && Live(cs, t) && Before(s, t)
    ensures PlaceOf(cs, s, guestIP, hostIP) < PlaceOf(cs, t, guestIP, hostIP)
  {
    SpotHasAPlace(cs, s, guestIP, hostIP);
    SpotInContainer(cs, s, guestIP, hostIP);
    if s.x < t.x {
      ContainersGrow(cs, s.x + 1, t.x, guestIP, hostIP);
    } else if s.y < t.y {
      PortsGrow(cs[s.x], s.y + 1, t.y, guestIP, hostIP);
    }
    hide AllPorts, PortsIn, PublishedAt;
  }

  lemma {:induction false} PortOfSpot(c: Container, n: nat, k: nat, guestIP: string, hostIP: string)
    returns (y: nat, at: nat)
    requires n <= |c.ports| && k < |PortsIn(c, n, guestIP, hostIP)|
    ensures y < n && c.ports[y].hostPort != 0 && at < Unrolled(c.ports[y])
    ensures k == |PortsIn(c, y, guestIP, hostIP)| + at
  {
    hide PortsIn, PublishedAt, Unrolled;
    if n == 0 {
      NoPorts(c, guestIP, hostIP);
    } else {
      OneMorePort(c, n - 1, guestIP, hostIP);
      var before := |PortsIn(c, n - 1, guestIP, hostIP)|;
      if k < before {
        y, at := PortOfSpot(c, n - 1, k, guestIP, hostIP);
      } else {
        y, at := n - 1, k - before;
      }
    }
  }

  lemma NoPorts(c: Container, guestIP: string, hostIP: string)
    ensures PortsIn(c, 0, guestIP, hostIP) == []
  {
  }

  lemma {:induction false} SpotOf(cs: seq<Container>, n: nat, k: nat, guestIP: string, hostIP: string) returns (s: Spot)
    requires n <= |cs| && k < |AllPorts(cs[..n], guestIP, hostIP)|
    ensures Live(cs, s) && PlaceOf(cs, s, guestIP, hostIP) == k
  {
    if n == 0 {
      assert false;
    } else {
      OneMoreContainer(cs, n - 1, guestIP, hostIP);
      var before := |AllPorts(cs[..n - 1], guestIP, hostIP)|;
      hide AllPorts, PortsIn, Unrolled;
      if k < before {
        s := SpotOf(cs, n - 1, k, guestIP, hostIP);
      } else {
        var y, at := PortOfSpot(cs[n - 1], |cs[n - 1].ports|, k - before, guestIP, hostIP);
        s := Spot(n - 1, y, at);
        UnrolledIsLive(cs, s);
      }
    }
  }

  lemma UnrolledIsLive(cs: seq<Container>, s: Spot)
    requires s.x < |cs| && s.y < |cs[s.x].ports| && Counts(cs[s.x])
    requires cs[s.x].ports[s.y].hostPort != 0 && s.at < Unrolled(cs[s.x].ports[s.y])
    ensures Live(cs, s)
  {
  }

  /** What a port says is what its spot says. */
  lemma PublishedSays(cs: seq<Container>, s: Spot, guestIP: string, publishAddr: string)
    requires Live(cs, s)
    ensures var p := PublishedAt(cs[s.x], PortAt(cs, s), guestIP, HostIP(publishAddr), s.at);
      && p.id == cs[s.x].id && p.proto == ProtoOf(cs, s) && p.hostPort == GuestPortOf(cs, s)
      && p.containerPort == PortAt(cs, s).containerPort + s.at
      && p.needsRule == NeedsRedirect(cs, s, guestIP)
      && MappingOf(p, guestIP) == MappingAt(cs, s, guestIP, publishAddr)
      && KeyOf(p, guestIP) == KeyAt(cs, s, guestIP, publishAddr)
  {
  }

  lemma SpotPublishes(cs: seq<Container>, s: Spot, guestIP: string, publishAddr: string) returns (j: nat)
    requires Live(cs, s)
    ensures j == PlaceOf(cs, s, guestIP, HostIP(publishAddr)) && j < |AllPorts(cs, guestIP, HostIP(publishAddr))|
    ensures Tells(cs, s, AllPorts(cs, guestIP, HostIP(publishAddr))[j], guestIP, publishAddr)
  {
    j := PlaceOf(cs, s, guestIP, HostIP(publishAddr));
    SpotHasAPlace(cs, s, guestIP, HostIP(publishAddr));
    PublishedSays(cs, s, guestIP, publishAddr);
    hide AllPorts, PlaceOf, PublishedAt, KeyAt, MappingAt, KeyOf, MappingOf;
  }

  /** Port p is the one at spot s. */
  predicate Tells(cs: seq<Container>, s: Spot, p: Published, guestIP: string, publishAddr: string) {
    && Live(cs, s) && p.id == cs[s.x].id && p.proto == ProtoOf(cs, s) && p.hostPort == GuestPortOf(cs, s)
    && p.containerPort == PortAt(cs, s).containerPort + s.at
    && p.needsRule == NeedsRedirect(cs, s, guestIP)
    && MappingOf(p, guestIP) == MappingAt(cs, s, guestIP, publishAddr)
    && KeyOf(p, guestIP) == KeyAt(cs, s, guestIP, publishAddr)
  }

  lemma PublishedBySpot(cs: seq<Container>, j: nat, guestIP: string, publishAddr: string) returns (s: Spot)
    requires j < |AllPorts(cs, guestIP, HostIP(publishAddr))|
    ensures Live(cs, s) && PlaceOf(cs, s, guestIP, HostIP(publishAddr)) == j
    ensures Tells(cs, s, AllPorts(cs, guestIP, HostIP(publishAddr))[j], guestIP, publishAddr)
  {
    assert cs[..|cs|] == cs;
    s := SpotOf(cs, |cs|, j, guestIP, HostIP(publishAddr));
    var k := SpotPublishes(cs, s, guestIP, publishAddr);
  }

  lemma OrderOfPlaces(cs: seq<Container>, s: Spot, t: Spot, guestIP: string, publishAddr: string)
    requires Live(cs, s) && Live(cs, t)
    ensures PlaceOf(cs, s, guestIP, HostIP(publishAddr)) < PlaceOf(cs, t, guestIP, HostIP(publishAddr)) <==> Before(s, t)
  {
    if Before(s, t) {
      EarlierPlace(cs, s, t, guestIP, HostIP(publishAddr));
    } else if s != t {
      assert Before(t, s);
      EarlierPlace(cs, t, s, guestIP, HostIP(publishAddr));
    }
  }

  lemma FirstDecides(cs: seq<Container>, s: Spot, guestIP: string, publishAddr: string, j: nat)
    requires Live(cs, s) && j == PlaceOf(cs, s, guestIP, HostIP(publishAddr))
    requires j < |AllPorts(cs, guestIP, HostIP(publishAddr))|
    requires Tells(cs, s, AllPorts(cs, guestIP, HostIP(publishAddr))[j], guestIP, publishAddr)
    ensures First(cs, s, guestIP, publishAddr) <==> Decides(AllPorts(cs, guestIP, HostIP(publishAddr)), j, guestIP)
  {
    var all := AllPorts(cs, guestIP, HostIP(publishAddr));
    hide AllPorts, PlaceOf, KeyOf, KeyAt, MappingOf, MappingAt, Live;
    if First(cs, s, guestIP, publishAddr) {
      forall i | 0 <= i < j ensures KeyOf(all[i], guestIP) != KeyOf(all[j], guestIP) {
        var t := PublishedBySpot(cs, i, guestIP, publishAddr);
        OrderOfPlaces(cs, t, s, guestIP, publishAddr);
      }
    }
    if Decides(all, j, guestIP) {
      forall t | Live(cs, t) && Before(t, s)
        ensures KeyAt(cs, t, guestIP, publishAddr) != KeyAt(cs, s, guestIP, publishAddr)
      {
        var i := SpotPublishes(cs, t, guestIP, publishAddr);
        OrderOfPlaces(cs, t, s, guestIP, publishAddr);
      }
    }
  }

  // ----- The mappings -----

  /** The host side: every live publish is mapped, and nothing else is. */
  lemma LivePublishesAreMapped(cs: seq<Container>, guestIP: string, publishAddr: string)
    ensures var ms := ComputedPlan(cs, guestIP, HostIP(publishAddr)).mappings;
      && (forall s :: Live(cs, s) ==> exists m :: m in ms && KeyText(m) == KeyAt(cs, s, guestIP, publishAddr))
      && (forall m :: m in ms ==> exists s :: Live(cs, s) && m == MappingAt(cs, s, guestIP, publishAddr))
  {
    var all := AllPorts(cs, guestIP, HostIP(publishAddr));
    var ms := PlanFor(all, guestIP).mappings;
    hide AllPorts, PlanFor, KeyAt, MappingAt, MappingOf, KeyText, PlaceOf;
    MappingsAreThePorts(all, guestIP);
    forall s | Live(cs, s) ensures exists m :: m in ms && KeyText(m) == KeyAt(cs, s, guestIP, publishAddr) {
      var j := SpotPublishes(cs, s, guestIP, publishAddr);
      var i :| 0 <= i < |ms| && KeyText(ms[i]) == KeyOf(all[j], guestIP);
      assert ms[i] in ms;
    }
    forall m | m in ms ensures exists s :: Live(cs, s) && m == MappingAt(cs, s, guestIP, publishAddr) {
      var j :| 0 <= j < |all| && MappingOf(all[j], guestIP) == m;
      var s := PublishedBySpot(cs, j, guestIP, publishAddr);
    }
  }

  // ----- Their text -----

  /** What comes before the last colon. */
  function UpToColon(s: string): (r: string)
    ensures r <= s
  {
    if s == "" || s[|s| - 1] == ':' then s[..if s == "" then 0 else |s| - 1] else UpToColon(s[..|s| - 1])
  }

  predicate Bracketed(h: string) { |h| >= 2 && h[0] == '[' && h[|h| - 1] == ']' }

  /** A host:port text as a dialler reads it: a host that has colons must stand in
      brackets. */
  function ReadAddress(s: string): Option<(string, string)> {
    var h := UpToColon(s);
    if |h| == |s| then None
    else if Bracketed(h) then Some((h[1..|h| - 1], s[|h| + 1..]))
    else if ':' in h || s[|h|] != ':' then None
    else Some((h, s[|h| + 1..]))
  }

  lemma {:induction false} ColonIsLast(p: string, x: string)
    requires ':' !in x
    ensures UpToColon(p + ":" + x) == p
    decreases |x|
  {
    var s := p + ":" + x;
    if x == "" {
      assert s[..|s| - 1] == p;
    } else {
      var y := x[..|x| - 1];
      assert s[|s| - 1] == x[|x| - 1] && s[..|s| - 1] == p + ":" + y;
      ColonIsLast(p, y);
    }
  }

  /** Every address, of either family, is written so that it reads back. */
  lemma AddressReadsBack(host: string, port: nat)
    requires '[' !in host
    ensures ReadAddress(JoinHostPort(host, port)) == Some((host, Itoa(port)))
  {
    var s := JoinHostPort(host, port);
    var h := if ':' in host then "[" + host + "]" else host;
    assert s == h + ":" + Itoa(port);
    ColonIsLast(h, Itoa(port));
    assert s[|h| + 1..] == Itoa(port);
    if ':' in host { assert h[1..|h| - 1] == host; } else { assert |host| > 0 ==> host[0] in host; }
  }

  /** No key of these publishes has a space but those that part its fields. */
  ghost predicate Spaceless(cs: seq<Container>, guestIP: string, publishAddr: string) {
    forall s :: Live(cs, s) ==>
      ' ' !in ProtoOf(cs, s) && ' ' !in HostSide(PortAt(cs, s).hostIP, guestIP, publishAddr)
  }

  lemma AddressHasNoSpace(host: string, port: nat)
    requires ' ' !in host
    ensures ' ' !in JoinHostPort(host, port)
  {
  }

  lemma KeyTellsApart(a: C.Key, b: C.Key)
    requires ' ' !in a.proto && ' ' !in b.proto && ' ' !in a.local && ' ' !in b.local
    requires a.proto != "" && b.proto != "" && KeyText(a) == KeyText(b)
    ensures a == b
  {
    assert KeyText(a) == a.proto + [' '] + (a.local + [' '] + a.remote);
    assert KeyText(b) == b.proto + [' '] + (b.local + [' '] + b.remote);
    OneFirstMark(a.proto, a.local + [' '] + a.remote, b.proto, b.local + [' '] + b.remote, ' ');
    OneFirstMark(a.local, a.remote, b.local, b.remote, ' ');
  }

  lemma SpacelessAt(cs: seq<Container>, s: Spot, guestIP: string, publishAddr: string)
    requires Live(cs, s) && Spaceless(cs, guestIP, publishAddr)
    ensures var m := MappingAt(cs, s, guestIP, publishAddr); m.proto != "" && ' ' !in m.proto && ' ' !in m.local
  {
    hide HostSide;
    AddressHasNoSpace(HostSide(PortAt(cs, s).hostIP, guestIP, publishAddr), GuestPortOf(cs, s));
  }

  lemma MappedAsItIs(cs: seq<Container>, s: Spot, m: C.Key, guestIP: string, publishAddr: string)
    requires Live(cs, s) && Spaceless(cs, guestIP, publishAddr)
    requires m in ComputedPlan(cs, guestIP, HostIP(publishAddr)).mappings
    requires KeyText(m) == KeyAt(cs, s, guestIP, publishAddr)
    ensures m == MappingAt(cs, s, guestIP, publishAddr)
  {
    LivePublishesAreMapped(cs, guestIP, publishAddr);
    hide ComputedPlan, KeyText, Live, Spaceless, MappingAt;
    var t :| Live(cs, t) && m == MappingAt(cs, t, guestIP, publishAddr);
    SpacelessAt(cs, s, guestIP, publishAddr);
    SpacelessAt(cs, t, guestIP, publishAddr);
    KeyTellsApart(MappingAt(cs, s, guestIP, publishAddr), m);
  }

  /** So the mappings are exactly those of the live publishes: two that differ in
      protocol, host address or port never pass for one. */
  lemma MappingsExactly(cs: seq<Container>, guestIP: string, publishAddr: string, k: C.Key)
    requires Spaceless(cs, guestIP, publishAddr)
    ensures k in ComputedPlan(cs, guestIP, HostIP(publishAddr)).mappings
      <==> exists s :: Live(cs, s) && k == MappingAt(cs, s, guestIP, publishAddr)
  {
    LivePublishesAreMapped(cs, guestIP, publishAddr);
    hide ComputedPlan, KeyText, KeyAt, Live, Spaceless, MappingAt;
    var ms := ComputedPlan(cs, guestIP, HostIP(publishAddr)).mappings;
    if s :| Live(cs, s) && k == MappingAt(cs, s, guestIP, publishAddr) {
      var m :| m in ms && KeyText(m) == KeyAt(cs, s, guestIP, publishAddr);
      MappedAsItIs(cs, s, m, guestIP, publishAddr);
    }
  }

  // ----- The redirects -----

  /** The engine made the guest port of s reachable itself, for some container. */
  ghost predicate EngineHas(cs: seq<Container>, s: Spot, guestIP: string)
    requires Live(cs, s)
  {
    exists t :: Live(cs, t) && SameGuestPort(cs, s, t) && !NeedsRedirect(cs, t, guestIP)
  }

  /** The first publish that decides its key and needs a redirect on its guest
      port. */
  ghost predicate LeadsPort(cs: seq<Container>, s: Spot, guestIP: string, publishAddr: string)
    requires Live(cs, s)
  {
    && First(cs, s, guestIP, publishAddr) && NeedsRedirect(cs, s, guestIP)
    && forall t :: Live(cs, t) && Before(t, s) && First(cs, t, guestIP, publishAddr) && NeedsRedirect(cs, t, guestIP)
         ==> !SameGuestPort(cs, s, t)
  }

  lemma {:induction false} OwnedByEngine(all: seq<Published>, gk: string)
    ensures EngineOwner(all, gk) != [] <==> exists j :: 0 <= j < |all| && !all[j].needsRule && GuestKeyOf(all[j]) == gk
  {
    if all != [] {
      OwnedByEngine(all[1..], gk);
      if j :| 0 <= j < |all| && !all[j].needsRule && GuestKeyOf(all[j]) == gk && j > 0 {
        assert all[j] == all[1..][j - 1];
      }
      if j :| 0 <= j < |all[1..]| && !all[1..][j].needsRule && GuestKeyOf(all[1..][j]) == gk {
        assert all[j + 1] == all[1..][j];
      }
    }
  }

  lemma SameKeySamePort(cs: seq<Container>, s: Spot, t: Spot, p: Published, q: Published,
                        guestIP: string, publishAddr: string)
    requires Tells(cs, s, p, guestIP, publishAddr) && Tells(cs, t, q, guestIP, publishAddr)
    ensures GuestKeyOf(p) == GuestKeyOf(q) <==> SameGuestPort(cs, s, t)
  {
    if GuestKeyOf(p) == GuestKeyOf(q) { GuestKeyIsInjective(p.proto, p.hostPort, q.proto, q.hostPort); }
  }

  lemma EngineHasIt(cs: seq<Container>, s: Spot, guestIP: string, publishAddr: string, j: nat)
    requires Live(cs, s) && j < |AllPorts(cs, guestIP, HostIP(publishAddr))|
    requires Tells(cs, s, AllPorts(cs, guestIP, HostIP(publishAddr))[j], guestIP, publishAddr)
    ensures EngineHas(cs, s, guestIP) <==>
      EngineOwner(AllPorts(cs, guestIP, HostIP(publishAddr)), GuestKeyOf(AllPorts(cs, guestIP, HostIP(publishAddr))[j])) != []
  {
    var all := AllPorts(cs, guestIP, HostIP(publishAddr));
    OwnedByEngine(all, GuestKeyOf(all[j]));
    hide AllPorts, PlaceOf, KeyOf, KeyAt, MappingOf, MappingAt, Live, EngineOwner, GuestKeyOf, SameGuestPort,
         NeedsRedirect;
    if EngineHas(cs, s, guestIP) {
      var t :| Live(cs, t) && SameGuestPort(cs, s, t) && !NeedsRedirect(cs, t, guestIP);
      var i := SpotPublishes(cs, t, guestIP, publishAddr);
      SameKeySamePort(cs, s, t, all[j], all[i], guestIP, publishAddr);
    }
    if i :| 0 <= i < |all| && !all[i].needsRule && GuestKeyOf(all[i]) == GuestKeyOf(all[j]) {
      var t := PublishedBySpot(cs, i, guestIP, publishAddr);
      SameKeySamePort(cs, s, t, all[j], all[i], guestIP, publishAddr);
    }
  }

  lemma LeaderAt(cs: seq<Container>, s: Spot, guestIP: string, publishAddr: string, j: nat)
    requires Live(cs, s) && j == PlaceOf(cs, s, guestIP, HostIP(publishAddr))
    requires j < |AllPorts(cs, guestIP, HostIP(publishAddr))|
    requires Tells(cs, s, AllPorts(cs, guestIP, HostIP(publishAddr))[j], guestIP, publishAddr)
    ensures Leads(AllPorts(cs, guestIP, HostIP(publishAddr)), j, guestIP) <==>
      LeadsPort(cs, s, guestIP, publishAddr) && !EngineHas(cs, s, guestIP)
  {
    var all := AllPorts(cs, guestIP, HostIP(publishAddr));
    FirstDecides(cs, s, guestIP, publishAddr, j);
    EngineHasIt(cs, s, guestIP, publishAddr, j);
    hide AllPorts, PlaceOf, KeyOf, KeyAt, MappingOf, MappingAt, Live, EngineOwner, EngineHas, GuestKeyOf, SameGuestPort,
         NeedsRedirect, First, Decides;
    if LeadsPort(cs, s, guestIP, publishAddr) && !EngineHas(cs, s, guestIP) {
      forall i | 0 <= i < j && NeedsOne(all, i, guestIP) ensures GuestKeyOf(all[i]) != GuestKeyOf(all[j]) {
        var t := PublishedBySpot(cs, i, guestIP, publishAddr);
        OrderOfPlaces(cs, t, s, guestIP, publishAddr);
        FirstDecides(cs, t, guestIP, publishAddr, i);
        SameKeySamePort(cs, s, t, all[j], all[i], guestIP, publishAddr);
      }
    }
    if Leads(all, j, guestIP) {
      forall t | Live(cs, t) && Before(t, s) && First(cs, t, guestIP, publishAddr) && NeedsRedirect(cs, t, guestIP)
        ensures !SameGuestPort(cs, s, t)
      {
        var i := SpotPublishes(cs, t, guestIP, publishAddr);
        OrderOfPlaces(cs, t, s, guestIP, publishAddr);
        FirstDecides(cs, t, guestIP, publishAddr, i);
        SameKeySamePort(cs, s, t, all[j], all[i], guestIP, publishAddr);
      }
    }
  }

  /** The container of s is the one whose publish leads its guest port, to that
      container port. */
  ghost predicate LedTo(cs: seq<Container>, s: Spot, port: nat, guestIP: string, publishAddr: string)
    requires Live(cs, s)
  {
    exists t :: Live(cs, t) && LeadsPort(cs, t, guestIP, publishAddr) && SameGuestPort(cs, s, t)
      && cs[t.x].id == cs[s.x].id && PortAt(cs, t).containerPort + t.at == port
  }

  ghost predicate Headed(cs: seq<Container>, s: Spot, guestIP: string, publishAddr: string)
    requires Live(cs, s)
  {
    exists port: nat :: LedTo(cs, s, port, guestIP, publishAddr)
  }

  /** What a rule that lists a key comes from: the port that decides the key, and
      the port that leads its guest port. */
  lemma RuleComesFrom(all: seq<Published>, rules: seq<Rule>, x: nat, j: nat, guestIP: string) returns (l: nat)
    requires AllFed(all, rules, guestIP) && AllLed(rules, all, |all|, guestIP)
    requires j < |all| && Decides(all, j, guestIP) && x < |rules| && KeyOf(all[j], guestIP) in rules[x].keys
    ensures Feeds(all, all[j], rules[x], KeyOf(all[j], guestIP), guestIP)
    ensures l < |all| && Leads(all, l, guestIP) && LedBy(rules[x], all[l])
  {
    hide KeyOf, Leads, LedBy, Feeds;
    var r, k := rules[x], KeyOf(all[j], guestIP);
    assert FedRule(all, r, guestIP);
    var d :| 0 <= d < |all| && Decides(all, d, guestIP) && Feeds(all, all[d], r, k, guestIP);
    FeedsItsKey(all, all[d], r, k, guestIP);
    assert d == j;
    assert LedAt(rules, all, |all|, x, guestIP);
    l :| 0 <= l < |all| && Leads(all, l, guestIP) && LedBy(r, all[l]);
  }

  lemma FeedsItsKey(all: seq<Published>, p: Published, r: Rule, k: string, guestIP: string)
    requires Feeds(all, p, r, k, guestIP)
    ensures KeyOf(p, guestIP) == k
  {
  }

  /** What a rule that lists the publish at s is. */
  lemma RuleOfSpot(cs: seq<Container>, s: Spot, guestIP: string, publishAddr: string, rules: seq<Rule>, x: nat, j: nat)
    requires Live(cs, s)
    requires var all := AllPorts(cs, guestIP, HostIP(publishAddr));
      && j < |all| && Tells(cs, s, all[j], guestIP, publishAddr) && Decides(all, j, guestIP)
      && AllFed(all, rules, guestIP) && AllLed(rules, all, |all|, guestIP)
    requires x < |rules| && KeyAt(cs, s, guestIP, publishAddr) in rules[x].keys
    ensures NeedsRedirect(cs, s, guestIP) && !EngineHas(cs, s, guestIP)
    ensures var r := rules[x];
      && r.id == cs[s.x].id && r.proto == ProtoOf(cs, s) && r.guestPort == GuestPortOf(cs, s)
      && LedTo(cs, s, r.containerPort, guestIP, publishAddr)
  {
    var all, r := AllPorts(cs, guestIP, HostIP(publishAddr)), rules[x];
    hide AllPorts, PlaceOf, KeyOf, KeyAt, MappingOf, MappingAt, EngineOwner, EngineHas, SameGuestPort, NeedsRedirect,
         First, Decides, Leads, LeadsPort, AllFed, AllLed, GuestKey;
    EngineHasIt(cs, s, guestIP, publishAddr, j);
    var l := RuleComesFrom(all, rules, x, j, guestIP);
    var t := PublishedBySpot(cs, l, guestIP, publishAddr);
    LeaderAt(cs, t, guestIP, publishAddr, l);
    SameKeySamePort(cs, s, t, all[j], all[l], guestIP, publishAddr);
  }

  /** The port that leads the guest port of s is of the container of s. */
  lemma LeaderIsOwn(cs: seq<Container>, s: Spot, guestIP: string, publishAddr: string, j: nat, l: nat)
    requires Live(cs, s) && !EngineHas(cs, s, guestIP) && Headed(cs, s, guestIP, publishAddr)
    requires var all := AllPorts(cs, guestIP, HostIP(publishAddr));
      && j < |all| && l < |all| && Tells(cs, s, all[j], guestIP, publishAddr)
      && Leads(all, l, guestIP) && GuestKeyOf(all[l]) == GuestKeyOf(all[j])
    ensures AllPorts(cs, guestIP, HostIP(publishAddr))[l].id == cs[s.x].id
  {
    var all := AllPorts(cs, guestIP, HostIP(publishAddr));
    hide AllPorts, PlaceOf, KeyOf, KeyAt, MappingOf, MappingAt, EngineOwner, EngineHas, GuestKeyOf, First, Decides, Leads,
         LeadsPort, NeedsRedirect;
    var port :| LedTo(cs, s, port, guestIP, publishAddr);
    var t :| Live(cs, t) && LeadsPort(cs, t, guestIP, publishAddr) && SameGuestPort(cs, s, t)
      && cs[t.x].id == cs[s.x].id && PortAt(cs, t).containerPort + t.at == port;
    var i := SpotPublishes(cs, t, guestIP, publishAddr);
    SameKeySamePort(cs, s, t, all[j], all[i], guestIP, publishAddr);
    EngineHasIt(cs, s, guestIP, publishAddr, j);
    EngineHasIt(cs, t, guestIP, publishAddr, i);
    LeaderAt(cs, t, guestIP, publishAddr, i);
    OneLeader(all, i, l, guestIP);
  }

  /** A publish that needs a redirect, on a guest port its own container leads and
      the engine does not have, is listed by a rule. */
  lemma SpotGetsItsRule(cs: seq<Container>, s: Spot, guestIP: string, publishAddr: string, pl: Plan, j: nat)
    requires Live(cs, s)
    requires var all := AllPorts(cs, guestIP, HostIP(publishAddr));
      && j < |all| && Tells(cs, s, all[j], guestIP, publishAddr) && Decides(all, j, guestIP)
      && AllLists(pl.rules, all, |all|, guestIP) && AllLed(pl.rules, all, |all|, guestIP)
    requires NeedsRedirect(cs, s, guestIP) && !EngineHas(cs, s, guestIP) && Headed(cs, s, guestIP, publishAddr)
    ensures InRule(pl.rules, KeyAt(cs, s, guestIP, publishAddr))
  {
    var all := AllPorts(cs, guestIP, HostIP(publishAddr));
    EngineHasIt(cs, s, guestIP, publishAddr, j);
    hide AllPorts, KeyOf, KeyAt, MappingOf, MappingAt, Live, EngineOwner, EngineHas, GuestKeyOf, Decides, Leads, Headed,
         NeedsRedirect;
    assert NeedsOne(all, j, guestIP) && Lists(pl.rules, all[j], guestIP);
    var x :| 0 <= x < |pl.rules| && RuleGuestKey(pl.rules[x]) == GuestKeyOf(all[j])
      && (pl.rules[x].id == all[j].id <==> KeyOf(all[j], guestIP) in pl.rules[x].keys);
    assert LedAt(pl.rules, all, |all|, x, guestIP);
    var l :| 0 <= l < |all| && Leads(all, l, guestIP) && LedBy(pl.rules[x], all[l]);
    LeaderIsOwn(cs, s, guestIP, publishAddr, j, l);
  }

  /** The guest side, for the publish that decides its key. It needs a redirect
      exactly when it names a host address or a wildcard. It gets one exactly when
      also no container's publish left that guest port to the engine, and the
      first that needs it there is of its own container; else it is pending. The
      redirect goes from that guest port to its container, to the container port
      of that first publish. */
  lemma RedirectsExactly(cs: seq<Container>, s: Spot, guestIP: string, publishAddr: string)
    requires Live(cs, s) && First(cs, s, guestIP, publishAddr)
    ensures var pl, k := ComputedPlan(cs, guestIP, HostIP(publishAddr)), KeyAt(cs, s, guestIP, publishAddr);
      && (InRule(pl.rules, k) || k in pl.pending <==> NeedsRedirect(cs, s, guestIP))
      && (InRule(pl.rules, k) <==>
            NeedsRedirect(cs, s, guestIP) && !EngineHas(cs, s, guestIP) && Headed(cs, s, guestIP, publishAddr))
      && !(InRule(pl.rules, k) && k in pl.pending)
      && forall r :: r in pl.rules && k in r.keys ==>
           && r.id == cs[s.x].id && r.proto == ProtoOf(cs, s) && r.guestPort == GuestPortOf(cs, s)
           && LedTo(cs, s, r.containerPort, guestIP, publishAddr)
  {
    var all, k := AllPorts(cs, guestIP, HostIP(publishAddr)), KeyAt(cs, s, guestIP, publishAddr);
    var j := SpotPublishes(cs, s, guestIP, publishAddr);
    FirstDecides(cs, s, guestIP, publishAddr, j);
    assert all[j].needsRule == NeedsRedirect(cs, s, guestIP) && KeyOf(all[j], guestIP) == k;
    assert ComputedPlan(cs, guestIP, HostIP(publishAddr)) == PlanFor(all, guestIP);
    hide AllPorts, PlaceOf, KeyOf, KeyAt, Live, EngineHas, First, Decides, LedTo, Headed, PlanFor, ComputedPlan, Tells,
         NeedsRedirect, AllFed, AllLists, AllLed, SameGuestPort, HasMapping, InRule, OnePlace;
    var pl := PlanFacts(all, guestIP, j);
    forall r | r in pl.rules && k in r.keys
      ensures NeedsRedirect(cs, s, guestIP) && !EngineHas(cs, s, guestIP)
      ensures r.id == cs[s.x].id && r.proto == ProtoOf(cs, s) && r.guestPort == GuestPortOf(cs, s)
      ensures LedTo(cs, s, r.containerPort, guestIP, publishAddr)
    {
      var x :| 0 <= x < |pl.rules| && pl.rules[x] == r;
      RuleOfSpot(cs, s, guestIP, publishAddr, pl.rules, x, j);
    }
    RuledIsLed(cs, s, guestIP, publishAddr, pl.rules, k);
    if InRule(pl.rules, k) { RuledHasARule(pl.rules, k); }
    if NeedsRedirect(cs, s, guestIP) && !EngineHas(cs, s, guestIP) && Headed(cs, s, guestIP, publishAddr) {
      SpotGetsItsRule(cs, s, guestIP, publishAddr, pl, j);
    }
  }

  /** What is known of the rules before they are put in order. */
  lemma PlanFacts(all: seq<Published>, guestIP: string, j: nat) returns (pl: Plan)
    requires j < |all| && Decides(all, j, guestIP)
    ensures AllFed(all, pl.rules, guestIP)
    ensures AllLists(pl.rules, all, |all|, guestIP) && AllLed(pl.rules, all, |all|, guestIP)
    ensures forall r :: r in PlanFor(all, guestIP).rules <==> r in pl.rules
    ensures var k, out := KeyOf(all[j], guestIP), PlanFor(all, guestIP);
      && (InRule(out.rules, k) <==> InRule(pl.rules, k))
      && (InRule(out.rules, k) || k in out.pending <==> all[j].needsRule)
      && !(InRule(out.rules, k) && k in out.pending)
  {
    EachKeyInOnePlace(all, guestIP);
    pl := AllPlacedAndLed(all, guestIP);
    hide Placed, Decides, KeyOf, HasMapping, InRule, PlaceAll;
    OrderedMoves(pl, KeyOf(all[j], guestIP));
    assert AllFed(all, pl.rules, guestIP) by { FedByPlacing(pl, all, guestIP); }
  }

  lemma FedByPlacing(pl: Plan, all: seq<Published>, guestIP: string)
    requires Placed(pl, all, |all|, guestIP)
    ensures AllFed(all, pl.rules, guestIP)
  {
  }

  lemma RuledHasARule(rules: seq<Rule>, k: string)
    requires InRule(rules, k)
    ensures exists r :: r in rules && k in r.keys
  {
    var x :| 0 <= x < |rules| && k in rules[x].keys;
  }

  lemma RuledIsLed(cs: seq<Container>, s: Spot, guestIP: string, publishAddr: string, rules: seq<Rule>, k: string)
    requires Live(cs, s)
    requires forall r :: r in rules && k in r.keys ==> LedTo(cs, s, r.containerPort, guestIP, publishAddr)
    ensures InRule(rules, k) ==> Headed(cs, s, guestIP, publishAddr)
  {
    if InRule(rules, k) {
      var x :| 0 <= x < |rules| && k in rules[x].keys;
      assert LedTo(cs, s, rules[x].containerPort, guestIP, publishAddr);
    }
  }

  /** So a redirect that no other port of the container shares goes to the very
      container port its publish names. */
  lemma UnsharedRedirectIsRight(cs: seq<Container>, s: Spot, guestIP: string, publishAddr: string, r: Rule)
    requires Live(cs, s) && First(cs, s, guestIP, publishAddr)
    requires forall t ::
      Live(cs, t) && SameGuestPort(cs, s, t) && cs[t.x].id == cs[s.x].id && NeedsRedirect(cs, t, guestIP)
      ==> PortAt(cs, t).containerPort + t.at == PortAt(cs, s).containerPort + s.at
    requires r in ComputedPlan(cs, guestIP, HostIP(publishAddr)).rules && KeyAt(cs, s, guestIP, publishAddr) in r.keys
    ensures r.id == cs[s.x].id && r.containerPort == PortAt(cs, s).containerPort + s.at
  {
    RedirectsExactly(cs, s, guestIP, publishAddr);
  }
}
