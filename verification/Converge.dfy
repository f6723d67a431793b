/**
  Convergence of the provider's mapping table to a plan, touching only what the
  crash-safe owned set records.
 */
module Converge {
  /** What identifies a mapping; an entry with no remote was never exposed. */
  datatype Key = Key(proto: string, local: string, remote: string)

  datatype Entry = Entry(key: Key, error: string)

  datatype Plan = Plan(desired: seq<Key>, skipped: seq<Entry>, pending: map<Key, string>)

  /** How the calls of one convergence turn out: the keys whose call succeeds,
      those whose call takes effect although it reports an error, what such an
      error says, and whether the listing and each save succeed. */
  datatype Luck = Luck(
    lists: bool,
    works: set<Key>,
    halfWorks: set<Key>,
    message: string,
    firstSave: bool,
    lastSave: bool)

  function Keys(es: seq<Entry>): (r: set<Key>)
    ensures forall i :: 0 <= i < |es| ==> es[i].key in r
    ensures forall k :: k in r ==> exists i :: 0 <= i < |es| && es[i].key == k
  {
    set i | 0 <= i < |es| :: es[i].key
  }

  predicate NoTwice(es: seq<Entry>) { forall i, j :: 0 <= i < j < |es| ==> es[i].key != es[j].key }

  predicate Distinct(ks: seq<Key>) { forall i, j :: 0 <= i < j < |ks| ==> ks[i] != ks[j] }

  /** The plans the desired state makes: no key twice, none both published and
      unpublishable, and every published one with a remote. */
  predicate Proper(pl: Plan) {
    && Distinct(pl.desired) && NoTwice(pl.skipped)
    && (forall k :: k in pl.desired ==> k !in Keys(pl.skipped) && k.remote != "")
  }

  function Pending(pl: Plan, k: Key): string { if k in pl.pending then pl.pending[k] else "" }

  function SkipError(es: seq<Entry>, k: Key): string {
    if es == [] then "" else if es[0].key == k then es[0].error else SkipError(es[1..], k)
  }

  // ----- What one convergence comes to -----

  predicate Wanted(pl: Plan, k: Key) { k in pl.desired || k in Keys(pl.skipped) }

  /** Owned, no longer in the plan, and in the table. */
  predicate Stale(pl: Plan, live: set<Key>, k: Key) { !Wanted(pl, k) && k.remote != "" && k in live }

  function StaleKeys(pl: Plan, live: set<Key>, es: seq<Entry>): set<Key> { set k | k in Keys(es) && Stale(pl, live, k) }

  /** What is left of one owned entry. */
  function KeptOne(pl: Plan, live: set<Key>, luck: Luck, e: Entry): seq<Entry> {
    if e.key in pl.desired then [e]
    else if e.key in Keys(pl.skipped) then [Entry(e.key, SkipError(pl.skipped, e.key))]
    else if Stale(pl, live, e.key) && e.key !in luck.works then [Entry(e.key, luck.message)]
    else []
  }

  function Kept(pl: Plan, live: set<Key>, luck: Luck, es: seq<Entry>): seq<Entry> {
    if es == [] then []
    else Kept(pl, live, luck, es[..|es| - 1]) + KeptOne(pl, live, luck, es[|es| - 1])
  }

  predicate TouchedOne(pl: Plan, live: set<Key>, luck: Luck, e: Entry) {
    KeptOne(pl, live, luck, e) != [e] || !Wanted(pl, e.key)
  }

  predicate Touched(pl: Plan, live: set<Key>, luck: Luck, es: seq<Entry>) {
    es != [] && (Touched(pl, live, luck, es[..|es| - 1]) || TouchedOne(pl, live, luck, es[|es| - 1]))
  }

  lemma NothingTouched(pl: Plan, live: set<Key>, luck: Luck)
    ensures Kept(pl, live, luck, []) == [] && StaleKeys(pl, live, []) == {} && !Touched(pl, live, luck, [])
  {
  }

  lemma {:induction false} TouchedMeans(pl: Plan, live: set<Key>, luck: Luck, es: seq<Entry>)
    ensures Touched(pl, live, luck, es) <==> Kept(pl, live, luck, es) != es || Strays(pl, es)
    ensures !Strays(pl, es) ==> |Kept(pl, live, luck, es)| == |es|
  {
    if es != [] {
      var init, last := es[..|es| - 1], es[|es| - 1];
      TouchedMeans(pl, live, luck, init);
      assert es == init + [last];
      assert Strays(pl, es) <==> Strays(pl, init) || !Wanted(pl, last.key) by {
        assert forall i :: 0 <= i < |init| ==> es[i] == init[i];
      }
    }
  }

  function Gone(pl: Plan, live: set<Key>, k: Key): set<Key> { if Stale(pl, live, k) then {k} else {} }

  /** The unpublishable entries not on record yet. */
  function NewSkips(skipped: seq<Entry>, owned: set<Key>): seq<Entry> {
    if skipped == [] then []
    else NewSkips(skipped[..|skipped| - 1], owned) + NewSkip(skipped[|skipped| - 1], owned)
  }

  function NewSkip(e: Entry, owned: set<Key>): seq<Entry> { if e.key in owned then [] else [e] }

  function Absent(desired: seq<Key>, live: set<Key>): set<Key> { set k | k in desired && k !in live }

  /** The desired keys that are neither live nor on record. */
  function Added(desired: seq<Key>, live: set<Key>, owned: set<Key>): seq<Entry> {
    if desired == [] then []
    else
      var es := Added(desired[..|desired| - 1], live, owned);
      var k := desired[|desired| - 1];
      if k in live || k in owned then es else es + [Entry(k, "")]
  }

  /** The entries of `ks` take their pending reason. */
  function Explained(pl: Plan, ks: set<Key>, es: seq<Entry>): (r: seq<Entry>)
    ensures |r| == |es| && forall i :: 0 <= i < |es| ==> r[i].key == es[i].key
  {
    seq(|es|, i requires 0 <= i < |es| => if es[i].key in ks then Entry(es[i].key, Pending(pl, es[i].key)) else es[i])
  }

  /** The entries of `ks` take the outcome of their expose. */
  function Tried(pl: Plan, luck: Luck, ks: set<Key>, es: seq<Entry>): (r: seq<Entry>)
    ensures |r| == |es| && forall i :: 0 <= i < |es| ==> r[i].key == es[i].key
  {
    seq(|es|, i requires 0 <= i < |es| =>
      if es[i].key !in ks then es[i]
      else Entry(es[i].key, if es[i].key in luck.works then Pending(pl, es[i].key) else luck.message))
  }

  /** The record a convergence wants on file before it exposes anything. */
  function Recorded(pl: Plan, live: set<Key>, luck: Luck, es: seq<Entry>): seq<Entry> {
    var planned := Planned(pl, live, luck, es);
    Explained(pl, Present(pl.desired, live), planned) + Added(pl.desired, live, Keys(planned))
  }

  function Planned(pl: Plan, live: set<Key>, luck: Luck, es: seq<Entry>): seq<Entry> {
    Kept(pl, live, luck, es) + NewSkips(pl.skipped, Keys(es))
  }

  function Present(desired: seq<Key>, live: set<Key>): set<Key> { set k | k in desired && k in live }

  /** Something on the record changes, so it is saved first. */
  predicate Saves(pl: Plan, live: set<Key>, luck: Luck, es: seq<Entry>) {
    || Strays(pl, es) || Kept(pl, live, luck, es) != es
    || NewSkips(pl.skipped, Keys(es)) != []
    || Recorded(pl, live, luck, es) != Planned(pl, live, luck, es)
  }

  predicate Strays(pl: Plan, es: seq<Entry>) { exists i :: 0 <= i < |es| && !Wanted(pl, es[i].key) }

  lemma OneMore(pl: Plan, live: set<Key>, luck: Luck, es: seq<Entry>, i: nat)
    requires i < |es|
    ensures Keys(es[..i + 1]) == Keys(es[..i]) + {es[i].key}
    ensures StaleKeys(pl, live, es[..i + 1]) == StaleKeys(pl, live, es[..i]) + Gone(pl, live, es[i].key)
    ensures Kept(pl, live, luck, es[..i + 1]) == Kept(pl, live, luck, es[..i]) + KeptOne(pl, live, luck, es[i])
    ensures Touched(pl, live, luck, es[..i + 1]) <==>
      Touched(pl, live, luck, es[..i]) || TouchedOne(pl, live, luck, es[i])
  {
    var one := es[..i + 1];
    assert one[..|one| - 1] == es[..i] && one[|one| - 1] == es[i];
    assert one == es[..i] + [es[i]];
    KeysOf(es[..i], es[i]);
  }

  /** The record once the exposes are through. */
  function Settled(pl: Plan, live: set<Key>, luck: Luck, es: seq<Entry>): seq<Entry> {
    Tried(pl, luck, Absent(pl.desired, live), Recorded(pl, live, luck, es))
  }

  function TakesEffect(luck: Luck): set<Key> { luck.works + luck.halfWorks }

  /** The convergence gets as far as exposing. */
  predicate Exposes(pl: Plan, live: set<Key>, luck: Luck, es: seq<Entry>) {
    luck.lists && (Saves(pl, live, luck, es) ==> luck.firstSave)
  }

  function LiveAfter(pl: Plan, live: set<Key>, luck: Luck, es: seq<Entry>): set<Key> {
    if !luck.lists then live
    else
      var left := live - StaleKeys(pl, live, es) * TakesEffect(luck);
      if Exposes(pl, live, luck, es) then left + Absent(pl.desired, live) * TakesEffect(luck) else left
  }

  function OwnedAfter(pl: Plan, live: set<Key>, luck: Luck, es: seq<Entry>): seq<Entry> {
    if !luck.lists then es
    else if Exposes(pl, live, luck, es) then Settled(pl, live, luck, es)
    else Recorded(pl, live, luck, es)
  }

  /** What is in the table, through this forwarder, and not on file. */
  function OffRecord(pl: Plan, live: set<Key>, luck: Luck, es: seq<Entry>, onFile: set<Key>): set<Key> {
    if luck.lists && !Saves(pl, live, luck, es) then Absent(pl.desired, live) * TakesEffect(luck) - onFile else {}
  }

  /** The file after a convergence. */
  function SavedAfter(pl: Plan, live: set<Key>, luck: Luck, es: seq<Entry>, saved: seq<Entry>): seq<Entry> {
    var record, owned := Recorded(pl, live, luck, es), OwnedAfter(pl, live, luck, es);
    if !luck.lists then saved
    else if Exposes(pl, live, luck, es) && luck.lastSave && owned != record then owned
    else if Saves(pl, live, luck, es) && luck.firstSave then record
    else saved
  }

  // ----- What the record comes to -----

  lemma KeysOf(es: seq<Entry>, e: Entry)
    ensures Keys(es + [e]) == Keys(es) + {e.key}
  {
    forall k | k in Keys(es) ensures k in Keys(es + [e]) {
      var i :| 0 <= i < |es| && es[i].key == k;
      assert (es + [e])[i].key == k;
    }
    assert (es + [e])[|es|] == e;
  }

  lemma KeysJoin(a: seq<Entry>, b: seq<Entry>)
    ensures Keys(a + b) == Keys(a) + Keys(b)
    ensures NoTwice(a) && NoTwice(b) && Keys(a) !! Keys(b) ==> NoTwice(a + b)
  {
    forall k | k in Keys(a) ensures k in Keys(a + b) {
      var i :| 0 <= i < |a| && a[i].key == k;
      assert (a + b)[i].key == k;
    }
    forall k | k in Keys(b) ensures k in Keys(a + b) {
      var i :| 0 <= i < |b| && b[i].key == k;
      assert (a + b)[|a| + i].key == k;
    }
  }

  lemma LastIsNew(init: seq<Entry>, last: Entry)
    requires NoTwice(init + [last])
    ensures NoTwice(init) && last.key !in Keys(init)
  {
    var es := init + [last];
    assert es[|init|] == last && forall i :: 0 <= i < |init| ==> es[i] == init[i];
  }

  predicate Stays(pl: Plan, live: set<Key>, luck: Luck, k: Key) {
    Wanted(pl, k) || (Stale(pl, live, k) && k !in luck.works)
  }

  lemma KeptOneKeys(pl: Plan, live: set<Key>, luck: Luck, e: Entry)
    ensures Keys(KeptOne(pl, live, luck, e)) == if Stays(pl, live, luck, e.key) then {e.key} else {}
    ensures |KeptOne(pl, live, luck, e)| <= 1 && NoTwice(KeptOne(pl, live, luck, e))
  {
    var one := KeptOne(pl, live, luck, e);
    if one != [] {
      assert one[0].key == e.key && one == [one[0]];
      KeysOf([], one[0]);
    }
  }

  lemma {:induction false} KeptKeys(pl: Plan, live: set<Key>, luck: Luck, es: seq<Entry>)
    requires NoTwice(es)
    ensures forall k :: k in Keys(Kept(pl, live, luck, es)) <==> k in Keys(es) && Stays(pl, live, luck, k)
    ensures NoTwice(Kept(pl, live, luck, es))
  {
    if es != [] {
      hide NoTwice, KeptOne, Keys, Stays;
      var init, last := es[..|es| - 1], es[|es| - 1];
      assert es == init + [last];
      LastIsNew(init, last);
      KeptKeys(pl, live, luck, init);
      KeysOf(init, last);
      KeptOneKeys(pl, live, luck, last);
      KeysJoin(Kept(pl, live, luck, init), KeptOne(pl, live, luck, last));
    }
  }

  lemma NewSkipKeys(e: Entry, owned: set<Key>)
    ensures Keys(NewSkip(e, owned)) == (if e.key in owned then {} else {e.key}) && NoTwice(NewSkip(e, owned))
  {
    KeysOf([], e);
    assert [] + [e] == [e];
  }

  lemma {:induction false} NewSkipsKeys(skipped: seq<Entry>, owned: set<Key>)
    requires NoTwice(skipped)
    ensures forall k :: k in Keys(NewSkips(skipped, owned)) <==> k in Keys(skipped) && k !in owned
    ensures NoTwice(NewSkips(skipped, owned))
  {
    if skipped != [] {
      hide Keys, NoTwice, NewSkip;
      var init, last := skipped[..|skipped| - 1], skipped[|skipped| - 1];
      assert skipped == init + [last];
      LastIsNew(init, last);
      NewSkipsKeys(init, owned);
      KeysOf(init, last);
      NewSkipKeys(last, owned);
      KeysJoin(NewSkips(init, owned), NewSkip(last, owned));
    }
  }

  lemma {:induction false} AddedKeys(desired: seq<Key>, live: set<Key>, owned: set<Key>)
    requires Distinct(desired)
    ensures Keys(Added(desired, live, owned)) == (set k | k in desired && k !in live && k !in owned)
    ensures NoTwice(Added(desired, live, owned))
  {
    hide Keys;
    if desired != [] {
      var init, last := desired[..|desired| - 1], desired[|desired| - 1];
      AddedKeys(init, live, owned);
      assert desired == init + [last];
      KeysOf(Added(init, live, owned), Entry(last, ""));
      assert last !in init;
    }
  }

  lemma SameKeys(a: seq<Entry>, b: seq<Entry>)
    requires |a| == |b| && forall i :: 0 <= i < |a| ==> a[i].key == b[i].key
    ensures Keys(a) == Keys(b)
    ensures NoTwice(a) ==> NoTwice(b)
  {
  }

  lemma PlannedKeys(pl: Plan, live: set<Key>, luck: Luck, es: seq<Entry>)
    requires Proper(pl) && NoTwice(es)
    ensures NoTwice(Planned(pl, live, luck, es))
    ensures Keys(Planned(pl, live, luck, es)) ==
      (set k | k in Keys(es) && Stays(pl, live, luck, k)) + Keys(pl.skipped)
  {
    KeptKeys(pl, live, luck, es);
    NewSkipsKeys(pl.skipped, Keys(es));
    KeysJoin(Kept(pl, live, luck, es), NewSkips(pl.skipped, Keys(es)));
  }

  /** The record has no key twice, and its keys are: what was owned and is still
      planned or could not be unexposed, what cannot be published, and what is
      desired and not in the table. */
  lemma RecordedKeys(pl: Plan, live: set<Key>, luck: Luck, es: seq<Entry>)
    requires Proper(pl) && NoTwice(es)
    ensures NoTwice(Recorded(pl, live, luck, es))
    ensures Keys(Recorded(pl, live, luck, es)) ==
      (set k | k in Keys(es) && Stays(pl, live, luck, k)) + Keys(pl.skipped) + Absent(pl.desired, live)
  {
    var planned := Planned(pl, live, luck, es);
    PlannedKeys(pl, live, luck, es);
    var explained := Explained(pl, Present(pl.desired, live), planned);
    SameKeys(planned, explained);
    AddedKeys(pl.desired, live, Keys(planned));
    KeysJoin(explained, Added(pl.desired, live, Keys(planned)));
  }

  lemma SettledKeys(pl: Plan, live: set<Key>, luck: Luck, es: seq<Entry>)
    requires Proper(pl) && NoTwice(es)
    ensures NoTwice(Settled(pl, live, luck, es))
    ensures Keys(Settled(pl, live, luck, es)) == Keys(Recorded(pl, live, luck, es))
  {
    RecordedKeys(pl, live, luck, es);
    SameKeys(Recorded(pl, live, luck, es), Settled(pl, live, luck, es));
  }

  lemma UnsavedKeys(pl: Plan, live: set<Key>, luck: Luck, es: seq<Entry>)
    ensures !Saves(pl, live, luck, es) ==> Recorded(pl, live, luck, es) == es
  {
  }

  lemma RecordCovers(pl: Plan, live: set<Key>, luck: Luck, es: seq<Entry>, ours: set<Key>)
    requires Proper(pl) && NoTwice(es) && ours <= live && ours <= Keys(es) && forall k :: k in ours ==> k.remote != ""
    ensures NoTwice(Recorded(pl, live, luck, es))
    ensures ours - StaleKeys(pl, live, es) * TakesEffect(luck) <= Keys(Recorded(pl, live, luck, es))
    ensures Absent(pl.desired, live) <= Keys(Recorded(pl, live, luck, es))
  {
    RecordedKeys(pl, live, luck, es);
  }

  // ----- The laws of one convergence -----

  /** A mapping that is not on record is never removed. */
  lemma OthersAreLeftAlone(pl: Plan, live: set<Key>, luck: Luck, es: seq<Entry>, k: Key)
    requires k in live && k !in Keys(es)
    ensures k in LiveAfter(pl, live, luck, es) && k !in StaleKeys(pl, live, es)
  {
  }

  /** Every call of the convergence does what it is for. */
  predicate AllWorks(pl: Plan, live: set<Key>, luck: Luck, es: seq<Entry>) {
    && luck.lists && luck.firstSave
    && StaleKeys(pl, live, es) <= luck.works && Absent(pl.desired, live) <= luck.works
  }

  /** Then the table is what it was, less what is owned and not planned, plus
      what is desired. */
  lemma TableConverges(pl: Plan, live: set<Key>, luck: Luck, es: seq<Entry>)
    requires AllWorks(pl, live, luck, es)
    ensures LiveAfter(pl, live, luck, es) ==
      (live - set k | k in Keys(es) && k.remote != "" && !Wanted(pl, k)) + set k | k in pl.desired
  {
  }

  /** The table and the record say what the plan says. */
  predicate Steady(pl: Plan, live: set<Key>, es: seq<Entry>) {
    && (forall k :: k in pl.desired ==> k in live)
    && Keys(pl.skipped) <= Keys(es)
    && forall i :: 0 <= i < |es| ==> EntrySteady(pl, es[i])
  }

  predicate EntrySteady(pl: Plan, e: Entry) {
    || (e.key in pl.desired && e.error == Pending(pl, e.key))
    || (e.key in Keys(pl.skipped) && e.error == SkipError(pl.skipped, e.key))
  }

  lemma {:induction false} SkipErrorAt(es: seq<Entry>, i: nat)
    requires NoTwice(es) && i < |es|
    ensures SkipError(es, es[i].key) == es[i].error
  {
    if i > 0 {
      SkipErrorAt(es[1..], i - 1);
    }
  }

  lemma KeptOneSteady(pl: Plan, live: set<Key>, luck: Luck, e: Entry)
    requires Gone(pl, live, e.key) <= luck.works
    ensures forall i :: 0 <= i < |KeptOne(pl, live, luck, e)| ==>
      var k := KeptOne(pl, live, luck, e)[i]; k.key in pl.desired || EntrySteady(pl, k)
  {
    assert Stale(pl, live, e.key) ==> e.key in Gone(pl, live, e.key);
  }

  lemma {:induction false} KeptSteady(pl: Plan, live: set<Key>, luck: Luck, es: seq<Entry>)
    requires StaleKeys(pl, live, es) <= luck.works
    ensures forall i :: 0 <= i < |Kept(pl, live, luck, es)| ==>
      var e := Kept(pl, live, luck, es)[i]; e.key in pl.desired || EntrySteady(pl, e)
  {
    if es != [] {
      hide Keys, StaleKeys, KeptOne, EntrySteady;
      assert es[..|es|] == es;
      OneMore(pl, live, luck, es, |es| - 1);
      KeptSteady(pl, live, luck, es[..|es| - 1]);
      KeptOneSteady(pl, live, luck, es[|es| - 1]);
    }
  }

  lemma {:induction false} NewSkipsSteady(pl: Plan, n: nat, owned: set<Key>)
    requires NoTwice(pl.skipped) && n <= |pl.skipped|
    ensures forall i :: 0 <= i < |NewSkips(pl.skipped[..n], owned)| ==>
      EntrySteady(pl, NewSkips(pl.skipped[..n], owned)[i])
  {
    if n > 0 {
      assert pl.skipped[..n][..n - 1] == pl.skipped[..n - 1];
      NewSkipsSteady(pl, n - 1, owned);
      SkipErrorAt(pl.skipped, n - 1);
    }
  }

  lemma {:induction false} AddedDesired(desired: seq<Key>, live: set<Key>, owned: set<Key>)
    ensures forall i :: 0 <= i < |Added(desired, live, owned)| ==>
      Added(desired, live, owned)[i].key in desired && Added(desired, live, owned)[i].key !in live
  {
    if desired != [] {
      AddedDesired(desired[..|desired| - 1], live, owned);
    }
  }

  lemma PlannedSteady(pl: Plan, live: set<Key>, luck: Luck, es: seq<Entry>, i: nat)
    requires Proper(pl) && StaleKeys(pl, live, es) <= luck.works && i < |Planned(pl, live, luck, es)|
    ensures var e := Planned(pl, live, luck, es)[i]; e.key in pl.desired || EntrySteady(pl, e)
  {
    KeptSteady(pl, live, luck, es);
    assert pl.skipped[..|pl.skipped|] == pl.skipped;
    NewSkipsSteady(pl, |pl.skipped|, Keys(es));
    var kept := Kept(pl, live, luck, es);
    if i < |kept| {
      assert Planned(pl, live, luck, es)[i] == kept[i];
    } else {
      assert Planned(pl, live, luck, es)[i] == NewSkips(pl.skipped, Keys(es))[i - |kept|];
    }
  }

  lemma SettledEntry(pl: Plan, live: set<Key>, luck: Luck, es: seq<Entry>, i: nat)
    requires Proper(pl) && AllWorks(pl, live, luck, es) && i < |Settled(pl, live, luck, es)|
    ensures EntrySteady(pl, Settled(pl, live, luck, es)[i])
  {
    var planned := Planned(pl, live, luck, es);
    var before := Recorded(pl, live, luck, es)[i];
    AddedDesired(pl.desired, live, Keys(planned));
    if i < |planned| {
      PlannedSteady(pl, live, luck, es, i);
      assert before == Explained(pl, Present(pl.desired, live), planned)[i];
    } else {
      assert before == Added(pl.desired, live, Keys(planned))[i - |planned|];
    }
  }

  /** After a convergence in which every call works, that is so. */
  lemma CleanIsSteady(pl: Plan, live: set<Key>, luck: Luck, es: seq<Entry>)
    requires Proper(pl) && NoTwice(es) && AllWorks(pl, live, luck, es)
    ensures Steady(pl, LiveAfter(pl, live, luck, es), OwnedAfter(pl, live, luck, es))
  {
    RecordedKeys(pl, live, luck, es);
    SettledKeys(pl, live, luck, es);
    forall i | 0 <= i < |Settled(pl, live, luck, es)| ensures EntrySteady(pl, Settled(pl, live, luck, es)[i]) {
      SettledEntry(pl, live, luck, es, i);
    }
  }

  lemma SteadyEntryIsKept(pl: Plan, live: set<Key>, luck: Luck, e: Entry)
    requires Proper(pl) && EntrySteady(pl, e)
    ensures KeptOne(pl, live, luck, e) == [e] && Wanted(pl, e.key)
    ensures e.key in pl.desired ==> e.error == Pending(pl, e.key)
  {
  }

  lemma SteadyIsExplained(pl: Plan, live: set<Key>, es: seq<Entry>)
    requires Proper(pl) && forall i :: 0 <= i < |es| ==> EntrySteady(pl, es[i])
    ensures Explained(pl, Present(pl.desired, live), es) == es
  {
    forall i | 0 <= i < |es| ensures Explained(pl, Present(pl.desired, live), es)[i] == es[i] {
      SteadyEntryIsKept(pl, live, Luck(true, {}, {}, "", true, true), es[i]);
    }
  }

  lemma SteadyIsWanted(pl: Plan, es: seq<Entry>, k: Key)
    requires (forall i :: 0 <= i < |es| ==> EntrySteady(pl, es[i])) && k in Keys(es)
    ensures Wanted(pl, k)
  {
    var i :| 0 <= i < |es| && es[i].key == k;
    assert EntrySteady(pl, es[i]);
  }

  lemma {:induction false} AllKept(pl: Plan, live: set<Key>, luck: Luck, es: seq<Entry>)
    requires forall i :: 0 <= i < |es| ==> KeptOne(pl, live, luck, es[i]) == [es[i]]
    ensures Kept(pl, live, luck, es) == es
  {
    if es != [] {
      var init, last := es[..|es| - 1], es[|es| - 1];
      AllKept(pl, live, luck, init);
      assert es == init + [last];
    }
  }

  lemma SteadyIsKept(pl: Plan, live: set<Key>, luck: Luck, es: seq<Entry>)
    requires Proper(pl) && forall i :: 0 <= i < |es| ==> EntrySteady(pl, es[i])
    ensures Kept(pl, live, luck, es) == es
  {
    forall i | 0 <= i < |es| ensures KeptOne(pl, live, luck, es[i]) == [es[i]] {
      SteadyEntryIsKept(pl, live, luck, es[i]);
    }
    AllKept(pl, live, luck, es);
  }

  lemma {:induction false} NothingNew(skipped: seq<Entry>, owned: set<Key>)
    requires Keys(skipped) <= owned
    ensures NewSkips(skipped, owned) == []
  {
    if skipped != [] {
      var init, last := skipped[..|skipped| - 1], skipped[|skipped| - 1];
      assert skipped == init + [last];
      KeysOf(init, last);
      NothingNew(init, owned);
    }
  }

  lemma {:induction false} NothingAdded(desired: seq<Key>, live: set<Key>, owned: set<Key>)
    requires forall k :: k in desired ==> k in live
    ensures Added(desired, live, owned) == []
  {
    if desired != [] {
      NothingAdded(desired[..|desired| - 1], live, owned);
    }
  }

  /** From there the same plan changes nothing, asks for nothing and saves
      nothing, however its calls would turn out. */
  lemma SteadyIsIdle(pl: Plan, live: set<Key>, luck: Luck, es: seq<Entry>)
    requires Proper(pl) && Steady(pl, live, es)
    ensures StaleKeys(pl, live, es) == {} && Absent(pl.desired, live) == {}
    ensures !Saves(pl, live, luck, es)
    ensures LiveAfter(pl, live, luck, es) == live && OwnedAfter(pl, live, luck, es) == es
  {
    SteadyIsKept(pl, live, luck, es);
    NothingNew(pl.skipped, Keys(es));
    assert Planned(pl, live, luck, es) == es;
    NothingAdded(pl.desired, live, Keys(es));
    SteadyIsExplained(pl, live, es);
    assert Recorded(pl, live, luck, es) == es;
    SteadyHasNoStale(pl, live, es);
  }

  lemma SteadyHasNoStale(pl: Plan, live: set<Key>, es: seq<Entry>)
    requires Steady(pl, live, es)
    ensures StaleKeys(pl, live, es) == {} && Absent(pl.desired, live) == {} && !Strays(pl, es)
    ensures forall luck :: Tried(pl, luck, {}, es) == es
  {
    forall k | k in Keys(es) ensures Wanted(pl, k) { SteadyIsWanted(pl, es, k); }
  }

  /** A second convergence right after a clean one is idle. */
  lemma SecondCallIsIdle(pl: Plan, live: set<Key>, luck: Luck, es: seq<Entry>, again: Luck)
    requires Proper(pl) && NoTwice(es) && AllWorks(pl, live, luck, es)
    ensures var live', es' := LiveAfter(pl, live, luck, es), OwnedAfter(pl, live, luck, es);
      && StaleKeys(pl, live', es') == {} && Absent(pl.desired, live') == {} && !Saves(pl, live', again, es')
      && LiveAfter(pl, live', again, es') == live' && OwnedAfter(pl, live', again, es') == es'
  {
    CleanIsSteady(pl, live, luck, es);
    SteadyIsIdle(pl, LiveAfter(pl, live, luck, es), again, OwnedAfter(pl, live, luck, es));
  }

  /** A convergence that saves nothing exposes a desired mapping that is owned
      in memory only. */
  predicate AheadOfFile(pl: Plan, live: set<Key>, luck: Luck, es: seq<Entry>, onFile: set<Key>) {
    && luck.lists && !Saves(pl, live, luck, es)
    && exists k :: k in Keys(es) - onFile && k in pl.desired && k !in live && k in TakesEffect(luck)
  }

  /** Exactly then it puts a mapping in the table that is not on file. */
  lemma OffRecordExactlyWhenAheadOfFile(pl: Plan, live: set<Key>, luck: Luck, es: seq<Entry>, onFile: set<Key>)
    requires Proper(pl) && NoTwice(es)
    ensures OffRecord(pl, live, luck, es, onFile) != {} <==> AheadOfFile(pl, live, luck, es, onFile)
  {
    if luck.lists && !Saves(pl, live, luck, es) {
      RecordedKeys(pl, live, luck, es);
      assert Planned(pl, live, luck, es) == es;
      var off := OffRecord(pl, live, luck, es, onFile);
      assert Absent(pl.desired, live) <= Keys(es);
      if k :| k in off { assert k in Keys(es) - onFile; }
      if k :| k in Keys(es) - onFile && k in pl.desired && k !in live && k in TakesEffect(luck) { assert k in off; }
    }
  }

  lemma OwnedAfterKeys(pl: Plan, live: set<Key>, luck: Luck, es: seq<Entry>)
    requires Proper(pl) && NoTwice(es)
    ensures NoTwice(OwnedAfter(pl, live, luck, es))
    ensures luck.lists && !Saves(pl, live, luck, es) ==> Keys(OwnedAfter(pl, live, luck, es)) == Keys(es)
  {
    RecordedKeys(pl, live, luck, es);
    SettledKeys(pl, live, luck, es);
    UnsavedKeys(pl, live, luck, es);
  }

  // ----- Over many convergences -----

  /** What a run of convergences has at some instant in the table and not on
      file. */
  function Lost(pls: seq<Plan>, lucks: seq<Luck>, live: set<Key>, es: seq<Entry>, saved: seq<Entry>): set<Key>
    requires |pls| == |lucks|
    decreases |pls|
  {
    if pls == [] then {}
    else
      OffRecord(pls[0], live, lucks[0], es, Keys(saved))
      + Lost(pls[1..], lucks[1..], LiveAfter(pls[0], live, lucks[0], es), OwnedAfter(pls[0], live, lucks[0], es),
             SavedAfter(pls[0], live, lucks[0], es, saved))
  }

  lemma LostFrom(pls: seq<Plan>, lucks: seq<Luck>, i: nat, live: set<Key>, es: seq<Entry>, saved: seq<Entry>,
                 before: set<Key>)
    requires |pls| == |lucks| && i < |pls|
    ensures before + Lost(pls[i..], lucks[i..], live, es, saved) ==
      (before + OffRecord(pls[i], live, lucks[i], es, Keys(saved)))
      + Lost(pls[i + 1..], lucks[i + 1..], LiveAfter(pls[i], live, lucks[i], es), OwnedAfter(pls[i], live, lucks[i], es),
             SavedAfter(pls[i], live, lucks[i], es, saved))
  {
    hide OffRecord, LiveAfter, OwnedAfter, SavedAfter, Keys;
    assert pls[i..][1..] == pls[i + 1..] && lucks[i..][1..] == lucks[i + 1..];
  }

  lemma LostInFull(pls: seq<Plan>, lucks: seq<Luck>, live: set<Key>, es: seq<Entry>, saved: seq<Entry>)
    requires |pls| == |lucks|
    ensures Lost(pls[0..], lucks[0..], live, es, saved) == Lost(pls, lucks, live, es, saved)
  {
    hide Lost;
    assert pls[0..] == pls && lucks[0..] == lucks;
  }

  lemma LostAtTheEnd(pls: seq<Plan>, lucks: seq<Luck>, live: set<Key>, es: seq<Entry>, saved: seq<Entry>)
    requires |pls| == |lucks|
    ensures Lost(pls[|pls|..], lucks[|pls|..], live, es, saved) == {}
  {
    assert pls[|pls|..] == [];
  }

  /** Some convergence of the run is ahead of the file it finds. */
  predicate EverAhead(pls: seq<Plan>, lucks: seq<Luck>, live: set<Key>, es: seq<Entry>, saved: seq<Entry>)
    requires |pls| == |lucks|
    decreases |pls|
  {
    && pls != []
    && (AheadOfFile(pls[0], live, lucks[0], es, Keys(saved))
        || EverAhead(pls[1..], lucks[1..], LiveAfter(pls[0], live, lucks[0], es), OwnedAfter(pls[0], live, lucks[0], es),
                     SavedAfter(pls[0], live, lucks[0], es, saved)))
  }

  lemma {:induction false} LostExactlyWhenEverAhead(pls: seq<Plan>, lucks: seq<Luck>, live: set<Key>, es: seq<Entry>,
                                                    saved: seq<Entry>)
    requires |pls| == |lucks| && NoTwice(es) && forall i :: 0 <= i < |pls| ==> Proper(pls[i])
    ensures Lost(pls, lucks, live, es, saved) != {} <==> EverAhead(pls, lucks, live, es, saved)
    decreases |pls|
  {
    if pls != [] {
      hide OffRecord, AheadOfFile, LiveAfter, OwnedAfter, SavedAfter, Proper;
      OffRecordExactlyWhenAheadOfFile(pls[0], live, lucks[0], es, Keys(saved));
      OwnedAfterKeys(pls[0], live, lucks[0], es);
      LostExactlyWhenEverAhead(pls[1..], lucks[1..], LiveAfter(pls[0], live, lucks[0], es),
                               OwnedAfter(pls[0], live, lucks[0], es), SavedAfter(pls[0], live, lucks[0], es, saved));
    }
  }

  /** A convergence that has to save first, and cannot. */
  predicate LosesItsSave(pl: Plan, live: set<Key>, luck: Luck, es: seq<Entry>) {
    luck.lists && Saves(pl, live, luck, es) && !luck.firstSave
  }

  predicate EverLosesItsSave(pls: seq<Plan>, lucks: seq<Luck>, live: set<Key>, es: seq<Entry>)
    requires |pls| == |lucks|
    decreases |pls|
  {
    && pls != []
    && (LosesItsSave(pls[0], live, lucks[0], es)
        || EverLosesItsSave(pls[1..], lucks[1..], LiveAfter(pls[0], live, lucks[0], es),
                            OwnedAfter(pls[0], live, lucks[0], es)))
  }

  lemma FileKeepsUp(pl: Plan, live: set<Key>, luck: Luck, es: seq<Entry>, saved: seq<Entry>)
    requires Proper(pl) && NoTwice(es) && Keys(es) <= Keys(saved) && !LosesItsSave(pl, live, luck, es)
    ensures Keys(OwnedAfter(pl, live, luck, es)) <= Keys(SavedAfter(pl, live, luck, es, saved))
    ensures !AheadOfFile(pl, live, luck, es, Keys(saved))
  {
    OwnedAfterKeys(pl, live, luck, es);
  }

  /** Starting with everything owned on file, a run has a mapping in the table
      and off the file only if a save it needed failed before. */
  lemma {:induction false} NothingIsLostWhileSavesWork(pls: seq<Plan>, lucks: seq<Luck>, live: set<Key>, es: seq<Entry>,
                                                       saved: seq<Entry>)
    requires |pls| == |lucks| && NoTwice(es) && Keys(es) <= Keys(saved) && forall i :: 0 <= i < |pls| ==> Proper(pls[i])
    requires !EverLosesItsSave(pls, lucks, live, es)
    ensures Lost(pls, lucks, live, es, saved) == {}
    decreases |pls|
  {
    if pls != [] {
      hide OffRecord, AheadOfFile, LosesItsSave, LiveAfter, OwnedAfter, SavedAfter, Proper;
      FileKeepsUp(pls[0], live, lucks[0], es, saved);
      OffRecordExactlyWhenAheadOfFile(pls[0], live, lucks[0], es, Keys(saved));
      OwnedAfterKeys(pls[0], live, lucks[0], es);
      NothingIsLostWhileSavesWork(pls[1..], lucks[1..], LiveAfter(pls[0], live, lucks[0], es),
                                  OwnedAfter(pls[0], live, lucks[0], es), SavedAfter(pls[0], live, lucks[0], es, saved));
    }
  }

  /** What is on record and in the table. */
  function Listed(es: seq<Entry>, table: set<Key>): set<Key> { set k | k in Keys(es) && k.remote != "" && k in table }

  function ListedOne(k: Key, table: set<Key>): set<Key> { if k.remote != "" && k in table then {k} else {} }

  lemma NothingListed(table: set<Key>)
    ensures Listed([], table) == {}
  {
  }

  lemma OneMoreListed(es: seq<Entry>, table: set<Key>, i: nat)
    requires i < |es|
    ensures Listed(es[..i + 1], table) ==
      Listed(es[..i], table) + ListedOne(es[i].key, table)
  {
    assert es[..i + 1] == es[..i] + [es[i]];
    KeysOf(es[..i], es[i]);
  }

  // ----- The forwarder -----

  class Forwarder {
    /** The provider's table, the owned set in memory, and its file. */
    var live: set<Key>
    var owned: seq<Entry>
    var saved: seq<Entry>
    /** What this forwarder exposed and has not unexposed, what of that was
        missing from the file at some instant, and every key it asked the
        provider to remove. */
    ghost var ours: set<Key>
    ghost var offRecord: set<Key>
    ghost var asked: set<Key>

    ghost predicate Valid()
      reads this
    {
      && ours <= live && ours <= Keys(owned)
      && (forall k :: k in ours ==> k.remote != "")
      && NoTwice(owned)
      && Exposed()
    }

    /** What is missing from the file now was missing from it at some instant. */
    ghost predicate Exposed()
      reads this
    {
      ours - Keys(saved) <= offRecord
    }

    constructor (table: set<Key>)
      ensures Valid() && live == table && owned == [] && saved == []
      ensures ours == {} && offRecord == {} && asked == {}
    {
      live, owned, saved, ours, offRecord, asked := table, [], [], {}, {}, {};
    }

    method Unexpose(k: Key, luck: Luck) returns (ok: bool)
      requires Exposed()
      modifies this`live, this`ours, this`asked, this`offRecord
      ensures ok == (k in luck.works)
      ensures live == if k in TakesEffect(luck) then old(live) - {k} else old(live)
      ensures ours == if k in TakesEffect(luck) then old(ours) - {k} else old(ours)
      ensures asked == old(asked) + {k} && offRecord == old(offRecord) && Exposed()
    {
      asked := asked + {k};
      if k in luck.works || k in luck.halfWorks { live, ours := live - {k}, ours - {k}; }
      offRecord := offRecord + (ours - Keys(saved));
      ok := k in luck.works;
    }

    method Expose(k: Key, luck: Luck) returns (ok: bool)
      requires Exposed()
      modifies this`live, this`ours, this`offRecord
      ensures ok == (k in luck.works)
      ensures live == if k in TakesEffect(luck) then old(live) + {k} else old(live)
      ensures ours == if k in TakesEffect(luck) then old(ours) + {k} else old(ours)
      ensures offRecord == old(offRecord) + ({k} * TakesEffect(luck) - Keys(saved)) && Exposed()
    {
      if k in luck.works || k in luck.halfWorks { live, ours := live + {k}, ours + {k}; }
      offRecord := offRecord + (ours - Keys(saved));
      ok := k in luck.works;
    }

    method Save(ok: bool)
      modifies this`saved, this`offRecord
      ensures saved == if ok then owned else old(saved)
      ensures offRecord == old(offRecord) + (ours - Keys(saved))
    {
      if ok { saved := owned; }
      offRecord := offRecord + (ours - Keys(saved));
    }

    method DropOne(pl: Plan, luck: Luck, table: set<Key>, e: Entry) returns (kept: seq<Entry>)
      requires Exposed()
      modifies this`live, this`ours, this`asked, this`offRecord
      ensures kept == KeptOne(pl, table, luck, e)
      ensures live == old(live) - Gone(pl, table, e.key) * TakesEffect(luck)
      ensures ours == old(ours) - Gone(pl, table, e.key) * TakesEffect(luck)
      ensures asked == old(asked) + Gone(pl, table, e.key) && offRecord == old(offRecord) && Exposed()
    {
      if e.key in pl.desired { return [e]; }
      if e.key in Keys(pl.skipped) { return [Entry(e.key, SkipError(pl.skipped, e.key))]; }
      kept := [];
      if e.key.remote != "" && e.key in table {
        var ok := Unexpose(e.key, luck);
        if !ok { kept := [Entry(e.key, luck.message)]; }
      }
    }

    /** The first loop: what is owned and no longer planned goes. */
    method DropStale(pl: Plan, luck: Luck) returns (dirty: bool)
      requires Exposed()
      modifies this`live, this`owned, this`ours, this`asked, this`offRecord
      ensures owned == Kept(pl, old(live), luck, old(owned))
      ensures live == old(live) - StaleKeys(pl, old(live), old(owned)) * TakesEffect(luck)
      ensures ours == old(ours) - StaleKeys(pl, old(live), old(owned)) * TakesEffect(luck)
      ensures asked == old(asked) + StaleKeys(pl, old(live), old(owned)) && offRecord == old(offRecord) && Exposed()
      ensures dirty <==> owned != old(owned) || Strays(pl, old(owned))
    {
      hide Keys, Kept, KeptOne, StaleKeys, Touched, Gone, Strays;
      var keep: seq<Entry> := [];
      var table, before := live, owned;
      NothingTouched(pl, table, luck);
      dirty := false;
      var i := 0;
      while i < |before|
        invariant 0 <= i <= |before|
        invariant owned == before
        invariant keep == Kept(pl, table, luck, before[..i])
        invariant live == table - StaleKeys(pl, table, before[..i]) * TakesEffect(luck)
        invariant ours == old(ours) - StaleKeys(pl, table, before[..i]) * TakesEffect(luck)
        invariant asked == old(asked) + StaleKeys(pl, table, before[..i]) && offRecord == old(offRecord) && Exposed()
        invariant dirty <==> Touched(pl, table, luck, before[..i])
      {
        OneMore(pl, table, luck, before, i);
        var kept := DropOne(pl, luck, table, before[i]);
        if kept != [before[i]] || !Wanted(pl, before[i].key) { dirty := true; }
        keep := keep + kept;
        i := i + 1;
      }
      assert before[..i] == before;
      TouchedMeans(pl, table, luck, before);
      owned := keep;
    }

    /** The second loop: unpublishable entries not on record join it. */
    method AddSkips(pl: Plan, owns: set<Key>) returns (dirty: bool)
      modifies this`owned
      ensures owned == old(owned) + NewSkips(pl.skipped, owns)
      ensures dirty <==> owned != old(owned)
    {
      var new_: seq<Entry> := [];
      var i := 0;
      while i < |pl.skipped|
        invariant 0 <= i <= |pl.skipped|
        invariant new_ == NewSkips(pl.skipped[..i], owns)
      {
        assert pl.skipped[..i + 1][..i] == pl.skipped[..i];
        new_ := new_ + if pl.skipped[i].key in owns then [] else [pl.skipped[i]];
        i := i + 1;
      }
      assert pl.skipped[..i] == pl.skipped;
      owned := owned + new_;
      dirty := new_ != [];
    }

    /** The third loop: the entries of live mappings take their pending reason,
        and desired mappings that are neither live nor owned join the record. */
    method AddMissing(pl: Plan, table: set<Key>) returns (dirty: bool)
      modifies this`owned
      ensures owned == Explained(pl, Present(pl.desired, table), old(owned))
                       + Added(pl.desired, table, Keys(old(owned)))
      ensures dirty <==> owned != old(owned)
    {
      var owns := Keys(owned);
      var explained := Explained(pl, Present(pl.desired, table), owned);
      var added: seq<Entry> := [];
      var i := 0;
      while i < |pl.desired|
        invariant 0 <= i <= |pl.desired|
        invariant added == Added(pl.desired[..i], table, owns)
      {
        assert pl.desired[..i + 1][..i] == pl.desired[..i];
        var k := pl.desired[i];
        if k !in table && k !in owns { added := added + [Entry(k, "")]; }
        i := i + 1;
      }
      assert pl.desired[..i] == pl.desired;
      dirty := explained != owned || added != [];
      owned := explained + added;
    }

    /** The last loop: everything desired and not live is exposed. */
    method ExposeAll(pl: Plan, luck: Luck, table: set<Key>) returns (dirty: bool)
      requires Exposed()
      modifies this`live, this`ours, this`owned, this`offRecord
      ensures var todo := Absent(pl.desired, table);
        && live == old(live) + todo * TakesEffect(luck)
        && ours == old(ours) + todo * TakesEffect(luck)
        && owned == Tried(pl, luck, todo, old(owned))
        && offRecord == old(offRecord) + (todo * TakesEffect(luck) - Keys(saved)) && Exposed()
      ensures dirty <==> owned != old(owned)
    {
      var todo: set<Key> := {};
      var i := 0;
      while i < |pl.desired|
        invariant 0 <= i <= |pl.desired|
        invariant todo == Absent(pl.desired[..i], table)
        invariant live == old(live) + todo * TakesEffect(luck)
        invariant ours == old(ours) + todo * TakesEffect(luck)
        invariant offRecord == old(offRecord) + (todo * TakesEffect(luck) - Keys(saved)) && Exposed()
        invariant owned == old(owned)
      {
        var k := pl.desired[i];
        assert pl.desired[..i + 1] == pl.desired[..i] + [k];
        if k !in table {
          var ok := Expose(k, luck);
          todo := todo + {k};
        }
        i := i + 1;
      }
      assert pl.desired[..i] == pl.desired;
      var tried := Tried(pl, luck, todo, owned);
      dirty := tried != owned;
      owned := tried;
    }

    /** Everything before the first save. */
    method Prepare(pl: Plan, luck: Luck) returns (dirty: bool)
      requires Valid() && Proper(pl)
      modifies this`live, this`owned, this`ours, this`asked, this`offRecord
      ensures Valid() && ours <= old(ours) && Absent(pl.desired, old(live)) <= Keys(owned)
      ensures owned == Recorded(pl, old(live), luck, old(owned))
      ensures live == old(live) - StaleKeys(pl, old(live), old(owned)) * TakesEffect(luck)
      ensures ours == old(ours) - StaleKeys(pl, old(live), old(owned)) * TakesEffect(luck)
      ensures asked == old(asked) + StaleKeys(pl, old(live), old(owned)) && offRecord == old(offRecord)
      ensures dirty <==> Saves(pl, old(live), luck, old(owned))
    {
      hide Kept, StaleKeys, NewSkips, Added, Explained, Strays, Absent, Keys, NoTwice, Proper;
      RecordCovers(pl, live, luck, owned, ours);
      var table, owns := live, Keys(owned);
      var stale := DropStale(pl, luck);
      var skips := AddSkips(pl, owns);
      var missing := AddMissing(pl, table);
      dirty := stale || skips || missing;
    }

    /** The exposes and the last save. */
    method Conclude(pl: Plan, luck: Luck, table: set<Key>)
      requires Valid() && Proper(pl) && Absent(pl.desired, table) <= Keys(owned)
      modifies this`live, this`owned, this`saved, this`ours, this`offRecord
      ensures Valid() && Keys(owned) == old(Keys(owned))
      ensures var todo := Absent(pl.desired, table) * TakesEffect(luck);
        && live == old(live) + todo && ours == old(ours) + todo
        && owned == Tried(pl, luck, Absent(pl.desired, table), old(owned))
        && saved == (if luck.lastSave && owned != old(owned) then owned else old(saved))
        && offRecord == old(offRecord) + (todo - Keys(old(saved)))
    {
      SameKeys(owned, Tried(pl, luck, Absent(pl.desired, table), owned));
      var changed := ExposeAll(pl, luck, table);
      if changed { Save(luck.lastSave); }
    }

    /** Everything from the first save on. */
    method Finish(pl: Plan, luck: Luck, table: set<Key>, dirty: bool)
      requires Valid() && Proper(pl) && Absent(pl.desired, table) <= Keys(owned)
      modifies this`live, this`owned, this`saved, this`ours, this`offRecord
      ensures Valid() && Keys(owned) == old(Keys(owned))
      ensures var todo := Absent(pl.desired, table) * TakesEffect(luck);
        var through := dirty ==> luck.firstSave;
        && live == (if through then old(live) + todo else old(live))
        && ours == (if through then old(ours) + todo else old(ours))
        && owned == (if through then Tried(pl, luck, Absent(pl.desired, table), old(owned)) else old(owned))
        && saved == (if through && luck.lastSave && owned != old(owned) then owned
                     else if dirty && luck.firstSave then old(owned) else old(saved))
        && offRecord == old(offRecord) + if dirty then {} else todo - Keys(old(saved))
    {
      SameKeys(owned, Tried(pl, luck, Absent(pl.desired, table), owned));
      if dirty {
        Save(luck.firstSave);
        if !luck.firstSave { return; }
      }
      Conclude(pl, luck, table);
    }

    /** A convergence whose listing succeeded. */
    method ConvergeListed(pl: Plan, luck: Luck) returns (dirty: bool, ghost record: seq<Entry>, ghost stale: set<Key>)
      requires Valid() && Proper(pl)
      modifies this
      ensures Valid()
      ensures dirty <==> Saves(pl, old(live), luck, old(owned))
      ensures record == Recorded(pl, old(live), luck, old(owned)) && stale == StaleKeys(pl, old(live), old(owned))
      ensures var through := dirty ==> luck.firstSave;
        var todo := Absent(pl.desired, old(live));
        && live == old(live) - stale * TakesEffect(luck) + (if through then todo * TakesEffect(luck) else {})
        && owned == (if through then Tried(pl, luck, todo, record) else record)
        && Keys(owned) == Keys(record) && asked == old(asked) + stale
        && saved == (if through && luck.lastSave && owned != record then owned
                     else if dirty && luck.firstSave then record else old(saved))
        && offRecord == old(offRecord) + if dirty then {} else todo * TakesEffect(luck) - Keys(old(saved))
    {
      var table := live;
      hide Recorded, Explained, Tried, Planned, Saves, Proper, StaleKeys, Absent;
      stale := StaleKeys(pl, live, owned);
      dirty := Prepare(pl, luck);
      record := owned;
      Finish(pl, luck, table, dirty);
    }

    /** One convergence, whatever its calls do: the table and the record it
        leaves, what it asked the provider to remove, and exactly which mappings
        were at some instant in the table and not on file. */
    method ConvergeWith(pl: Plan, luck: Luck)
      requires Valid() && Proper(pl)
      modifies this
      ensures Valid()
      ensures live == LiveAfter(pl, old(live), luck, old(owned))
      ensures owned == OwnedAfter(pl, old(live), luck, old(owned))
      ensures asked == old(asked) + if luck.lists then StaleKeys(pl, old(live), old(owned)) else {}
      ensures saved == SavedAfter(pl, old(live), luck, old(owned), old(saved))
      ensures offRecord == old(offRecord) + OffRecord(pl, old(live), luck, old(owned), old(Keys(saved)))
    {
      if !luck.lists { return; }
      hide Recorded, Tried, Saves, StaleKeys, Absent, Keys, Proper;
      var dirty, record, stale := ConvergeListed(pl, luck);
    }

    /** Any number of convergences: exactly which mappings were, at some instant,
        in the table through this forwarder and not on file. */
    method ConvergeAgainAndAgain(pls: seq<Plan>, lucks: seq<Luck>)
      requires Valid() && |pls| == |lucks| && forall i :: 0 <= i < |pls| ==> Proper(pls[i])
      modifies this
      ensures Valid()
      ensures offRecord == old(offRecord) + Lost(pls, lucks, old(live), old(owned), old(saved))
    {
      hide Lost, OffRecord, LiveAfter, OwnedAfter, SavedAfter, Proper, Valid;
      ghost var all := offRecord + Lost(pls, lucks, live, owned, saved);
      var i := 0;
      LostInFull(pls, lucks, live, owned, saved);
      while i < |pls|
        invariant 0 <= i <= |pls| && Valid()
        invariant all == offRecord + Lost(pls[i..], lucks[i..], live, owned, saved)
      {
        LostFrom(pls, lucks, i, live, owned, saved, offRecord);
        ConvergeWith(pls[i], lucks[i]);
        i := i + 1;
      }
      LostAtTheEnd(pls, lucks, live, owned, saved);
    }

    method ReleaseOne(k: Key, table: set<Key>, luck: Luck)
      requires Exposed()
      modifies this`live, this`ours, this`asked, this`offRecord
      ensures live == old(live) - ListedOne(k, table) * TakesEffect(luck)
      ensures ours == old(ours) - ListedOne(k, table) * TakesEffect(luck)
      ensures asked == old(asked) + ListedOne(k, table) && offRecord == old(offRecord) && Exposed()
    {
      if k.remote != "" && k in table {
        var ok := Unexpose(k, luck);
      }
    }

    /** Release: everything on file that the table still lists goes, as far as
        the provider lets it, and the owned set is forgotten. What then is in the
        table off record is what failed to go and what was never on file. */
    method Release(luck: Luck)
      requires Valid()
      modifies this
      ensures var listed := Listed(old(saved), old(live));
        && (if old(saved) == [] || !luck.lists then unchanged(this)
            else
              && live == old(live) - listed * TakesEffect(luck)
              && ours == old(ours) - listed * TakesEffect(luck)
              && asked == old(asked) + listed
              && saved == (if luck.firstSave then [] else old(saved))
              && offRecord == old(offRecord) + if luck.firstSave then ours else {})
    {
      hide Listed, ListedOne, Keys, NoTwice;
      if saved == [] || !luck.lists { return; }
      var table := live;
      assert Listed(saved[..0], table) == {} by { NothingListed(table); }
      var i := 0;
      while i < |saved|
        invariant 0 <= i <= |saved|
        invariant saved == old(saved)
        invariant asked == old(asked) + Listed(saved[..i], table) && offRecord == old(offRecord) && Exposed()
        invariant live == old(live) - Listed(saved[..i], table) * TakesEffect(luck)
        invariant ours == old(ours) - Listed(saved[..i], table) * TakesEffect(luck)
      {
        OneMoreListed(saved, table, i);
        ReleaseOne(saved[i].key, table, luck);
        i := i + 1;
      }
      assert saved[..i] == saved;
      owned := [];
      Save(luck.firstSave);
    }
  }

  lemma FirstTry(k: Key, luck: Luck)
    ensures var pl := Plan([k], [], map[]);
      Recorded(pl, {}, luck, []) == [Entry(k, "")] && Saves(pl, {}, luck, [])
  {
    var pl := Plan([k], [], map[]);
    assert Keys(Planned(pl, {}, luck, [])) == {};
    assert Added(pl.desired, {}, {}) == Added([], {}, {}) + [Entry(k, "")];
  }

  lemma Retry(k: Key, luck: Luck)
    requires k.remote != "" && luck.lists && k in luck.works
    ensures var pl, es := Plan([k], [], map[]), [Entry(k, "")];
      && !Saves(pl, {}, luck, es) && Recorded(pl, {}, luck, es) == es && OwnedAfter(pl, {}, luck, es) == es
      && OffRecord(pl, {}, luck, es, {}) == {k} && LiveAfter(pl, {}, luck, es) == {k}
  {
    var pl, es := Plan([k], [], map[]), [Entry(k, "")];
    assert EntrySteady(pl, es[0]);
    SteadyIsKept(pl, {}, luck, es);
    assert Planned(pl, {}, luck, es) == es;
    SteadyIsExplained(pl, {}, es);
    assert Keys(es) == {k};
    assert Added(pl.desired, {}, {k}) == Added([], {}, {k});
    assert Wanted(pl, es[0].key);
  }

  /** What a forwarder that keeps running after a failed save does: the retry
      finds the entry on its record, so it saves nothing and exposes a mapping
      that no file knows. */
  method RetryAfterAFailedSave(k: Key) returns (f: Forwarder)
    requires k.remote != ""
    ensures fresh(f) && k in f.live && f.saved == [] && f.offRecord == {k}
  {
    var pl := Plan([k], [], map[]);
    var unsaved, retried := Luck(true, {k}, {}, "", false, false), Luck(true, {k}, {}, "", true, true);
    FirstTry(k, unsaved);
    Retry(k, retried);
    f := new Forwarder({});
    f.ConvergeWith(pl, unsaved);
    assert f.owned == [Entry(k, "")] && f.live == {} && f.saved == [];
    f.ConvergeWith(pl, retried);
  }
}
