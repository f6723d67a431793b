/**
  The guest's redirect anchor, which jm writes but never reads, and the memo
  that stands in for it; and the debouncer whose force flag bypasses the memo.
 */
module AnchorMemo {
  type Text = string

  datatype Memo = Memo(text: Text, loaded: bool)

  /** The memo, what the guest really holds, and the timer's tick count. */
  datatype Anchor = Anchor(memo: Memo, guest: Text, ticks: nat)

  /** How far a resync gets: a lookup before the write fails; the write, if one
      is made, works; or it fails and leaves `left` in the guest. */
  datatype Reach = LookupFails | WriteWorks | WriteFails(left: Text)

  datatype Event =
    | Timer(wanted: Text, reach: Reach)
    | Resync(force: bool, wanted: Text, reach: Reach)
    | GuestChanges(text: Text)

  predicate Writes(m: Memo, force: bool, wanted: Text) { force || !m.loaded || wanted != m.text }

  function Apply(a: Anchor, force: bool, wanted: Text, reach: Reach): Anchor {
    if reach.LookupFails? || !Writes(a.memo, force, wanted) then a
    else if reach.WriteWorks? then a.(memo := Memo(wanted, true), guest := wanted)
    else a.(memo := a.memo.(loaded := false), guest := reach.left)
  }

  function Next(a: Anchor, every: nat, e: Event): Anchor
    requires every > 0
  {
    match e
    case Timer(wanted, reach) =>
      Apply(a.(ticks := a.ticks + 1), (a.ticks + 1) % every == 0, wanted, reach)
    case Resync(force, wanted, reach) => Apply(a, force, wanted, reach)
    case GuestChanges(text) => a.(guest := text)
  }

  function Run(a: Anchor, every: nat, es: seq<Event>): Anchor
    requires every > 0
    decreases |es|
  {
    if es == [] then a else Run(Next(a, every, es[0]), every, es[1..])
  }

  /** The belief is right: a memo that counts as loaded is what the guest has. */
  predicate Faithful(a: Anchor) { a.memo.loaded ==> a.guest == a.memo.text }

  /** With nobody else writing the anchor the belief stays right over any run,
      failed lookups and failed writes included. */
  lemma {:induction false} MemoStaysFaithful(a: Anchor, every: nat, es: seq<Event>)
    requires every > 0 && Faithful(a) && forall e :: e in es ==> !e.GuestChanges?
    ensures Faithful(Run(a, every, es))
    decreases |es|
  {
    if es != [] {
      assert es[0] in es;
      MemoStaysFaithful(Next(a, every, es[0]), every, es[1..]);
    }
  }

  /** So a skipped write is never stale: whenever a resync gets to the end, the
      guest holds what is wanted, written or not. */
  lemma SkippedWriteIsNotStale(a: Anchor, every: nat, es: seq<Event>, e: Event)
    requires every > 0 && Faithful(a) && forall x :: x in es ==> !x.GuestChanges?
    requires !e.GuestChanges? && e.reach.WriteWorks?
    ensures Next(Run(a, every, es), every, e).guest == e.wanted
  {
    MemoStaysFaithful(a, every, es);
  }

  // ----- After the guest dropped what the memo believes in -----

  predicate OnlyResyncs(es: seq<Event>) { forall e :: e in es ==> !e.GuestChanges? }

  function Timers(es: seq<Event>): nat {
    if es == [] then 0 else (if es[0].Timer? then 1 else 0) + Timers(es[1..])
  }

  predicate Forces(e: Event, ticks: nat, every: nat)
    requires every > 0
  {
    match e
    case Timer(_, _) => (ticks + 1) % every == 0
    case Resync(force, _, _) => force
    case GuestChanges(_) => false
  }

  /** The i-th event comes to a write, whatever becomes of it: its lookup works,
      and it forces or wants another text than the memo believes in. */
  predicate Tries(a: Anchor, every: nat, es: seq<Event>, i: nat)
    requires every > 0 && i < |es|
  {
    && !es[i].GuestChanges? && !es[i].reach.LookupFails?
    && (es[i].wanted != a.memo.text || Forces(es[i], a.ticks + Timers(es[..i]), every))
  }

  predicate Restored(a: Anchor) { a.memo.loaded && a.guest == a.memo.text }

  lemma TriesLater(a: Anchor, every: nat, es: seq<Event>, i: nat)
    requires every > 0 && 0 < i < |es| && !es[0].GuestChanges?
    requires Next(a, every, es[0]).memo == a.memo
    ensures Tries(a, every, es, i) <==> Tries(Next(a, every, es[0]), every, es[1..], i - 1)
  {
    assert es[..i][0] == es[0] && es[..i][1..] == es[1..][..i - 1];
  }

  /** A resync that gets to the end leaves the guest with what is wanted exactly
      when it or one before it came to a write. A write that failed counts: it
      made the memo forget. */
  lemma {:induction false} HeldExactlyOnceTried(a: Anchor, every: nat, es: seq<Event>, e: Event)
    requires every > 0 && a.memo.loaded && a.guest != a.memo.text
    requires OnlyResyncs(es) && !e.GuestChanges? && e.reach.WriteWorks?
    ensures Next(Run(a, every, es), every, e).guest == e.wanted
      <==> exists i :: 0 <= i <= |es| && Tries(a, every, es + [e], i)
    decreases |es|
  {
    var all := es + [e];
    if es == [] {
      assert Next(a, every, e).guest == e.wanted <==> Tries(a, every, all, 0);
    } else {
      assert es[0] in es && all[0] == es[0] && all[1..] == es[1..] + [e];
      var a1 := Next(a, every, es[0]);
      if Tries(a, every, all, 0) {
        assert Faithful(a1);
        SkippedWriteIsNotStale(a1, every, es[1..], e);
      } else {
        assert a1.memo == a.memo && a1.guest == a.guest;
        HeldExactlyOnceTried(a1, every, es[1..], e);
        forall i | 0 < i <= |es| ensures Tries(a, every, all, i) <==> Tries(a1, every, es[1..] + [e], i - 1) {
          TriesLater(a, every, all, i);
        }
        if i :| 0 <= i <= |es[1..]| && Tries(a1, every, es[1..] + [e], i) {
          assert Tries(a, every, all, i + 1);
        }
      }
    }
  }

  lemma {:induction false} RunLast(a: Anchor, every: nat, es: seq<Event>, e: Event)
    requires every > 0
    ensures Run(a, every, es + [e]) == Next(Run(a, every, es), every, e)
    decreases |es|
  {
    if es == [] {
      assert [e][1..] == [];
      assert es + [e] == [e];
      assert Run(Next(a, every, e), every, []) == Next(a, every, e);
    } else {
      assert (es + [e])[1..] == es[1..] + [e];
      RunLast(Next(a, every, es[0]), every, es[1..], e);
    }
  }

  lemma {:induction false} RestoringNeedsATry(a: Anchor, every: nat, es: seq<Event>, n: nat) returns (i: nat, j: nat)
    requires every > 0 && a.memo.loaded && a.guest != a.memo.text && OnlyResyncs(es)
    requires n <= |es| && Restored(Run(a, every, es[..n]))
    ensures i <= j < |es| && Tries(a, every, es, i) && es[j].reach.WriteWorks?
    decreases n
  {
    assert n > 0;
    var before := es[..n - 1];
    assert es[..n] == before + [es[n - 1]] && es[n - 1] in es;
    RunLast(a, every, before, es[n - 1]);
    if Restored(Run(a, every, before)) {
      i, j := RestoringNeedsATry(a, every, es, n - 1);
    } else {
      j := n - 1;
      HeldExactlyOnceTried(a, every, before, es[j]);
      i :| 0 <= i <= j && Tries(a, every, before + [es[j]], i);
      assert (before + [es[j]])[..i] == es[..i];
    }
  }

  lemma TryingRestores(a: Anchor, every: nat, es: seq<Event>, i: nat, j: nat)
    requires every > 0 && a.memo.loaded && a.guest != a.memo.text && OnlyResyncs(es)
    requires i <= j < |es| && Tries(a, every, es, i) && es[j].reach.WriteWorks?
    ensures Restored(Run(a, every, es[..j + 1]))
  {
    var before := es[..j];
    assert es[j] in es && es[..j + 1] == before + [es[j]] && (before + [es[j]])[..i] == es[..i];
    RunLast(a, every, before, es[j]);
    assert Tries(a, every, before + [es[j]], i);
    HeldExactlyOnceTried(a, every, before, es[j]);
  }

  /** After the guest dropped what the memo believes in, resyncs of any kind
      restore the anchor exactly when one gets through at or after the first that
      came to a write: that forced, or wanted another text, and whose lookup
      worked. */
  lemma RestoredExactlyOnceTried(a: Anchor, every: nat, es: seq<Event>)
    requires every > 0 && a.memo.loaded && a.guest != a.memo.text && OnlyResyncs(es)
    ensures (exists n :: 0 <= n <= |es| && Restored(Run(a, every, es[..n])))
      <==> exists i, j :: 0 <= i <= j < |es| && Tries(a, every, es, i) && es[j].reach.WriteWorks?
  {
    if n :| 0 <= n <= |es| && Restored(Run(a, every, es[..n])) {
      var i, j := RestoringNeedsATry(a, every, es, n);
    }
    if i, j :| 0 <= i <= j < |es| && Tries(a, every, es, i) && es[j].reach.WriteWorks? {
      TryingRestores(a, every, es, i, j);
      assert 0 <= j + 1 <= |es| && Restored(Run(a, every, es[..j + 1]));
    }
  }

  /** A restored anchor stays restored as long as no write fails. */
  lemma {:induction false} StaysRestored(a: Anchor, every: nat, es: seq<Event>)
    requires every > 0 && Restored(a) && OnlyResyncs(es) && forall e :: e in es ==> !e.reach.WriteFails?
    ensures Restored(Run(a, every, es))
    decreases |es|
  {
    if es != [] {
      assert es[0] in es;
      StaysRestored(Next(a, every, es[0]), every, es[1..]);
    }
  }

  lemma TimesMore(q: int, k: nat, d: nat)
    ensures (q + k + 1) * d >= q * d + d
  {
    assert (q + k + 1) * d == q * d + k * d + d;
    assert k * d >= 0;
  }

  lemma SameRemainder(q: int, r: nat, q': int, r': nat, d: nat)
    requires r < d && r' < d && q * d + r == q' * d + r'
    ensures r == r'
  {
    if q < q' {
      TimesMore(q, q' - q - 1, d);
      assert false;
    } else if q' < q {
      TimesMore(q', q - q' - 1, d);
      assert false;
    }
  }

  lemma SomeTickForces(ticks: nat, every: nat) returns (i: nat)
    requires every > 0
    ensures i < every && (ticks + i + 1) % every == 0
  {
    i := every - 1 - ticks % every;
    var n := ticks + 1 + i;
    assert n == (ticks / every + 1) * every;
    SameRemainder(n / every, n % every, ticks / every + 1, 0, every);
  }

  lemma {:induction false} AllTimers(es: seq<Event>)
    requires forall e :: e in es ==> e.Timer?
    ensures Timers(es) == |es|
  {
    if es != [] {
      assert es[0] in es;
      AllTimers(es[1..]);
    }
  }

  lemma TriesWithinARound(a: Anchor, every: nat, es: seq<Event>) returns (i: nat)
    requires every > 0 && |es| >= every && forall e :: e in es ==> e.Timer? && e.reach.WriteWorks?
    ensures i < |es| && Tries(a, every, es, i)
  {
    i := SomeTickForces(a.ticks, every);
    assert forall x :: x in es[..i] ==> x in es;
    AllTimers(es[..i]);
    assert es[i] in es;
  }

  /** In particular, from any state, as many timer resyncs as there are between
      two forced ones leave the guest with what is wanted, if they get through. */
  lemma OneRoundRestores(a: Anchor, every: nat, es: seq<Event>)
    requires every > 0 && |es| >= every && forall e :: e in es ==> e.Timer? && e.reach.WriteWorks?
    ensures Run(a, every, es).guest == es[|es| - 1].wanted
  {
    var before, last := es[..|es| - 1], es[|es| - 1];
    assert es == before + [last] && last in es;
    assert forall x :: x in before ==> x in es;
    assert OnlyResyncs(before);
    RunLast(a, every, before, last);
    if Faithful(a) {
      SkippedWriteIsNotStale(a, every, before, last);
    } else {
      var i := TriesWithinARound(a, every, es);
      HeldExactlyOnceTried(a, every, before, last);
    }
  }

  /** Rounds of two ticks of which the second, which forces, fails. */
  function UnluckyRounds(n: nat, wanted: Text): seq<Event> {
    if n == 0 then [] else [Timer(wanted, WriteWorks), Timer(wanted, LookupFails)] + UnluckyRounds(n - 1, wanted)
  }

  /** Timer resyncs that get through are not enough by themselves: any number of
      them can go by without restoring the anchor, when the lookup fails in each
      that forces. */
  lemma {:induction false} SuccessfulTicksAreNotEnough(a: Anchor, n: nat)
    requires a.memo.loaded && a.guest != a.memo.text && a.ticks % 2 == 0
    ensures var es := UnluckyRounds(n, a.memo.text);
      |es| == 2 * n && Run(a, 2, es).guest != a.memo.text
    decreases n
  {
    if n > 0 {
      var first, second := Timer(a.memo.text, WriteWorks), Timer(a.memo.text, LookupFails);
      var rest := UnluckyRounds(n - 1, a.memo.text);
      var a1 := Next(a, 2, first);
      var a2 := Next(a1, 2, second);
      var es := [first, second] + rest;
      assert es[1..] == [second] + rest && es[1..][1..] == rest;
      assert Run(a, 2, es) == Run(a1, 2, es[1..]) == Run(a2, 2, rest);
      SuccessfulTicksAreNotEnough(a2, n - 1);
    }
  }

  /** The anchor's memo as the forwarder keeps it. */
  class AnchorState {
    var text: Text
    var loaded: bool

    constructor ()
      ensures !loaded
    {
      text, loaded := "", false;
    }

    /** Writes through to the guest, or skips the write. */
    method ApplyRules(force: bool, wanted: Text, guest: Text, reach: Reach) returns (after: Text)
      modifies this
      ensures var a := Apply(Anchor(old(Memo(text, loaded)), guest, 0), force, wanted, reach);
        Memo(text, loaded) == a.memo && after == a.guest
    {
      after := guest;
      if reach.LookupFails? { return; }
      if !force && loaded && wanted == text { return; }
      if reach.WriteFails? {
        loaded := false;
        return reach.left;
      }
      after, text, loaded := wanted, wanted, true;
    }
  }

  // ----- The debouncer, internal/forwarder/debounce.go -----

  /** `armed` is the running timer, `firing` the callbacks that have started and
      not sent yet, `slot` the one signal waiting on the channel, `taking` a
      consumer that received it and has not asked for the flag yet. `forced`
      counts the forced triggers, `seen` those a reply of true covers. */
  datatype Debouncer = Debouncer(
    force: bool, armed: bool, firing: nat, slot: bool, taking: bool, forced: nat, seen: nat)

  datatype Tick = Trigger(force: bool) | Fires | Sends | Receives | TakesForce

  function Step(d: Debouncer, t: Tick): Debouncer {
    match t
    case Trigger(force) => d.(force := d.force || force, armed := true, forced := d.forced + if force then 1 else 0)
    case Fires => if d.armed then d.(armed := false, firing := d.firing + 1) else d
    case Sends => if d.firing > 0 then d.(firing := d.firing - 1, slot := true) else d
    case Receives => if d.slot && !d.taking then d.(slot := false, taking := true) else d
    case TakesForce =>
      if d.taking then d.(taking := false, force := false, seen := if d.force then d.forced else d.seen) else d
  }

  function Steps(d: Debouncer, ts: seq<Tick>): Debouncer
    decreases |ts|
  {
    if ts == [] then d else Steps(Step(d, ts[0]), ts[1..])
  }

  /** A signal is on its way to a consumer that will ask for the flag. */
  predicate OnItsWay(d: Debouncer) { d.armed || d.firing > 0 || d.slot || d.taking }

  /** Every forced trigger was answered, or the flag that stands for it is set
      and a signal is on its way. */
  predicate NoneLost(d: Debouncer) {
    d.seen <= d.forced && if d.force then OnItsWay(d) else d.seen == d.forced
  }

  lemma {:induction false} ForceIsNeverLost(d: Debouncer, ts: seq<Tick>)
    requires NoneLost(d)
    ensures NoneLost(Steps(d, ts))
    decreases |ts|
  {
    if ts != [] {
      ForceIsNeverLost(Step(d, ts[0]), ts[1..]);
    }
  }

  /** And it gets there: let the timer, the callback and the consumer run, and
      every forced trigger so far is answered. */
  lemma ForceArrives(d: Debouncer) returns (ts: seq<Tick>)
    requires NoneLost(d)
    ensures Steps(d, ts).seen == d.forced && forall t :: t in ts ==> !t.Trigger?
  {
    if d.force {
      var d1 := Step(d, TakesForce);
      if d.taking {
        ts := [TakesForce];
        assert Steps(d, ts) == Steps(d1, []);
      } else {
        ts := [Fires, Sends, Receives, TakesForce];
        var f := Step(d, Fires);
        var s := Step(f, Sends);
        var r := Step(s, Receives);
        assert ts[1..] == [Sends, Receives, TakesForce] && ts[1..][1..] == [Receives, TakesForce]
            && ts[1..][1..][1..] == [TakesForce] && [TakesForce][1..] == [];
        assert Steps(d, ts) == Steps(f, ts[1..]) == Steps(s, ts[1..][1..]) == Steps(r, [TakesForce])
            == Steps(Step(r, TakesForce), []);
      }
    } else {
      ts := [];
    }
  }

  /** The debouncer as the forwarder keeps it. Each method is one section under
      its mutex, or one send or receive on its channel. */
  class Signal {
    var force: bool
    var armed: bool
    var firing: nat
    var slot: bool
    var taking: bool
    ghost var forced: nat
    ghost var seen: nat

    ghost function View(): Debouncer
      reads this
    {
      Debouncer(force, armed, firing, slot, taking, forced, seen)
    }

    constructor ()
      ensures NoneLost(View()) && forced == 0
    {
      force, armed, firing, slot, taking, forced, seen := false, false, 0, false, false, 0, 0;
    }

    method Trigger(forcing: bool)
      modifies this
      ensures View() == Step(old(View()), Tick.Trigger(forcing))
      ensures old(NoneLost(View())) ==> NoneLost(View())
    {
      if forcing { force, forced := true, forced + 1; }
      armed := true;
    }

    method TimerLapses()
      modifies this
      ensures View() == Step(old(View()), Fires)
    {
      if armed { armed, firing := false, firing + 1; }
    }

    /** The callback's send: dropped when a signal is waiting already. */
    method Send()
      modifies this
      ensures View() == Step(old(View()), Sends)
    {
      if firing > 0 {
        firing := firing - 1;
        if !slot { slot := true; }
      }
    }

    method Receive()
      modifies this
      ensures View() == Step(old(View()), Receives)
    {
      if slot && !taking { slot, taking := false, true; }
    }

    /** What the loop asks after a receive. */
    method TakeForce() returns (f: bool)
      requires taking
      modifies this
      ensures View() == Step(old(View()), TakesForce)
      ensures f == old(force)
      ensures old(NoneLost(View())) ==> seen == forced
    {
      f := force;
      force, taking := false, false;
      if f { seen := forced; }
    }
  }
}
