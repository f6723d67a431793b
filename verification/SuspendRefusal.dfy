/**
  When a wake may call a saved state incompatible, and so have it discarded.
 */
module SuspendRefusal {
  import opened Base
  import opened SuspendWorld
  import opened SuspendSteps
  import opened SuspendInvariant
  import opened SuspendRecovery
  import opened SuspendTurns

  /** The outcome of one step, and the events before it. */
  datatype Chance = Chance(es: seq<Event>, ok: bool, bit: bool)

  function Take(s: State, c: Chance): State { JmStep(State(HappenAll(s.w, c.es), s.pc), c.ok, c.bit) }

  /** A wake, up to where it hands over. */
  function WakeRun(s: State, cs: seq<Chance>): State
    decreases |cs|
  {
    if !s.pc.Waking? || cs == [] then s else WakeRun(Take(s, cs[0]), cs[1..])
  }

  /** The step finds the state incompatible: the pair, the disk or the hardware is
      not the saved one; or the hypervisor launched for it has exited, refuses it,
      or failed to load it. A load under way is none of these. */
  predicate Refuses(s: State, ok: bool, bit: bool) {
    && s.pc.Waking?
    && match s.pc.wat
       case Validate => ok && !Alive(s.w) && s.w.dir.journal.Saved? && (!ValidImage(s.w) || !Unspoiled(s.w) || bit)
       case AwaitIncoming => s.w.qemu.Off? && bit
       case WakeSetUp => !ok && bit
       case Load => s.w.qemu.Off? || (!ok && bit)
       case AwaitLoaded => s.w.qemu.Off? || (ok && !s.w.qemu.mode.Loaded? && !s.w.qemu.transfer.Receiving?)
       case _ => false
  }

  predicate Condemned(pc: Pc) { pc.Waking? && (pc.wat.Rejected? || pc.wat == WakeKill(true)) }

  lemma CondemnedExactly(s: State, ok: bool, bit: bool)
    requires s.pc.Waking? && !Condemned(s.pc)
    ensures Condemned(JmStep(s, ok, bit).pc) <==> Refuses(s, ok, bit)
    ensures !JmStep(s, ok, bit).pc.Discarding?
    ensures JmStep(s, ok, bit).pc.Waking? ==> JmStep(s, ok, bit).pc.goal == s.pc.goal
    ensures Condemned(JmStep(s, ok, bit).pc) ==>
      (JmStep(s, ok, bit).pc.wat.Rejected? <==> s.pc.wat.Validate? || s.pc.wat.AwaitIncoming?)
  {
  }

  /** What turn n of the run finds. */
  function At(s: State, cs: seq<Chance>, n: nat): State
    requires n < |cs|
  {
    var before := WakeRun(s, cs[..n]);
    State(HappenAll(before.w, cs[n].es), before.pc)
  }

  /** Turn n refuses. */
  predicate RefusedAt(s: State, cs: seq<Chance>, n: nat)
    requires n < |cs|
  {
    var t := At(s, cs, n);
    t.pc.Waking? && !Condemned(t.pc) && Refuses(t, cs[n].ok, cs[n].bit)
  }

  /** The turns after it carry that out: a hypervisor that may be left can be
      ended. */
  predicate CarriedOut(s: State, cs: seq<Chance>, n: nat)
    requires n < |cs|
  {
    var pc := At(s, cs, n).pc;
    if pc.Waking? && (pc.wat.Validate? || pc.wat.AwaitIncoming?) then n + 1 < |cs|
    else n + 2 < |cs| && (cs[n + 1].ok || At(s, cs, n + 1).w.qemu.Off?)
  }

  predicate EverRefused(s: State, cs: seq<Chance>) {
    exists n :: 0 <= n < |cs| && RefusedAt(s, cs, n) && CarriedOut(s, cs, n)
  }

  lemma AtFirst(s: State, cs: seq<Chance>)
    requires cs != []
    ensures At(s, cs, 0) == State(HappenAll(s.w, cs[0].es), s.pc)
  {
    assert cs[..0] == [];
  }

  lemma AtLater(s: State, cs: seq<Chance>, n: nat)
    requires 0 < n < |cs| && s.pc.Waking?
    ensures At(s, cs, n) == At(Take(s, cs[0]), cs[1..], n - 1)
  {
    assert cs[..n][0] == cs[0] && cs[..n][1..] == cs[1..][..n - 1];
  }

  lemma {:induction false} OverIsOver(s: State, cs: seq<Chance>)
    requires !s.pc.Waking?
    ensures WakeRun(s, cs) == s && !EverRefused(s, cs)
  {
    forall n | 0 <= n < |cs| ensures !RefusedAt(s, cs, n) { assert WakeRun(s, cs[..n]) == s; }
  }

  lemma CondemnedEnds(s: State, cs: seq<Chance>)
    requires Condemned(s.pc)
    ensures WakeRun(s, cs).pc == Discarding(ByWake(s.pc.goal), Unlink) <==>
      if s.pc.wat.Rejected? then |cs| >= 1
      else |cs| >= 2 && (cs[0].ok || At(s, cs, 0).w.qemu.Off?)
  {
    if cs != [] {
      AtFirst(s, cs);
      var s1 := Take(s, cs[0]);
      if |cs| > 1 {
        assert WakeRun(s, cs) == WakeRun(s1, cs[1..]);
        if s1.pc.Waking? { assert WakeRun(s1, cs[1..]) == WakeRun(Take(s1, cs[1]), cs[1..][1..]); }
        OverOrNot(Take(s1, cs[1]), cs[1..][1..]);
      }
    }
  }

  lemma OverOrNot(s: State, cs: seq<Chance>)
    ensures !s.pc.Waking? ==> WakeRun(s, cs) == s
  {
  }

  lemma RefusedNow(s: State, cs: seq<Chance>)
    requires cs != [] && s.pc.Waking? && !Condemned(s.pc) && RefusedAt(s, cs, 0)
    ensures WakeRun(s, cs).pc == Discarding(ByWake(s.pc.goal), Unlink) <==> CarriedOut(s, cs, 0)
  {
    AtFirst(s, cs);
    CondemnedExactly(At(s, cs, 0), cs[0].ok, cs[0].bit);
    CondemnedEnds(Take(s, cs[0]), cs[1..]);
    if |cs| > 1 {
      AtLater(s, cs, 1);
    }
  }

  lemma NothingAfterRefusal(s: State, cs: seq<Chance>, n: nat)
    requires 0 < n < |cs| && s.pc.Waking? && !Condemned(s.pc) && RefusedAt(s, cs, 0)
    ensures !RefusedAt(s, cs, n)
  {
    AtFirst(s, cs);
    CondemnedExactly(At(s, cs, 0), cs[0].ok, cs[0].bit);
    AtLater(s, cs, n);
    CondemnedStays(Take(s, cs[0]), cs[1..], n - 1);
  }

  lemma {:induction false} CondemnedStays(s: State, cs: seq<Chance>, n: nat)
    requires n < |cs| && (Condemned(s.pc) || !s.pc.Waking?)
    ensures !RefusedAt(s, cs, n)
    decreases n
  {
    if n == 0 {
      AtFirst(s, cs);
    } else if s.pc.Waking? {
      AtLater(s, cs, n);
      CondemnedStays(Take(s, cs[0]), cs[1..], n - 1);
    } else {
      OverOrNot(s, cs[..n]);
    }
  }

  /** A wake has its saved state discarded exactly when one of its steps refused
      it and, if a hypervisor may have been left, that could be ended. */
  lemma {:induction false} WakeDiscardsExactly(s: State, cs: seq<Chance>)
    requires s.pc.Waking? && !Condemned(s.pc)
    ensures WakeRun(s, cs).pc == Discarding(ByWake(s.pc.goal), Unlink) <==> EverRefused(s, cs)
    decreases |cs|
  {
    if cs != [] {
      AtFirst(s, cs);
      var s1 := Take(s, cs[0]);
      CondemnedExactly(At(s, cs, 0), cs[0].ok, cs[0].bit);
      if RefusedAt(s, cs, 0) {
        RefusedNow(s, cs);
        forall n | 0 < n < |cs| ensures !RefusedAt(s, cs, n) { NothingAfterRefusal(s, cs, n); }
      } else {
        if s1.pc.Waking? { WakeDiscardsExactly(s1, cs[1..]); } else { OverIsOver(s1, cs[1..]); }
        RefusedLater(s, cs);
      }
    }
  }

  lemma RefusedLater(s: State, cs: seq<Chance>)
    requires cs != [] && s.pc.Waking? && !RefusedAt(s, cs, 0)
    ensures EverRefused(s, cs) <==> EverRefused(Take(s, cs[0]), cs[1..])
  {
    var s1 := Take(s, cs[0]);
    forall n | 0 < n < |cs|
      ensures RefusedAt(s, cs, n) && CarriedOut(s, cs, n)
        <==> RefusedAt(s1, cs[1..], n - 1) && CarriedOut(s1, cs[1..], n - 1)
    {
      AtLater(s, cs, n);
      if n + 1 < |cs| { AtLater(s, cs, n + 1); }
    }
    if EverRefused(s1, cs[1..]) {
      var n :| 0 <= n < |cs[1..]| && RefusedAt(s1, cs[1..], n) && CarriedOut(s1, cs[1..], n);
      assert RefusedAt(s, cs, n + 1) && CarriedOut(s, cs, n + 1);
    }
  }

  // ----- What a wake that fails says -----

  predicate KnowsItsJournal(s: State) {
    && (s.pc.Waking? ==> (s.w.dir.journal.Saved? <==> !PastTheUnlink(s.pc.wat)))
    && (s.pc.Idle? ==> (s.pc.outcome.Transient? <==> s.w.dir.journal.Saved?))
  }

  predicate PastTheUnlink(at: WakeAt) { at.WakeSync? || at.WakeCont? || at.WakeImage? || at.WakeTmp? }

  lemma TakeKnows(s: State, c: Chance)
    requires Inv(s) && s.pc.Waking? && KnowsItsJournal(s)
    ensures Inv(Take(s, c)) && KnowsItsJournal(Take(s, c))
  {
    EventsKeepTheJournal(s, c.es);
    var s1 := State(HappenAll(s.w, c.es), s.pc);
    StepKeeps(s1, Jm(c.ok, c.bit));
    StepKnows(s1, c.ok, c.bit);
  }

  lemma StepKnows(s: State, ok: bool, bit: bool)
    requires Inv(s) && s.pc.Waking? && KnowsItsJournal(s)
    ensures KnowsItsJournal(JmStep(s, ok, bit))
  {
    hide Global, RecoverStep, RepairStep, DiscardStep, SuspendStep, BootStep, StopStep;
  }

  lemma {:induction false} EventsKeepTheJournal(s: State, es: seq<Event>)
    requires Inv(s)
    ensures Inv(State(HappenAll(s.w, es), s.pc)) && HappenAll(s.w, es).dir == s.w.dir
    decreases |es|
  {
    if es != [] {
      StepKeeps(s, Env(es[0]));
      EventsKeepTheJournal(State(Happens(s.w, es[0]), s.pc), es[1..]);
    }
  }

  /** A wake of a saved state that ends without its guest says "transient", to be
      tried again, exactly when the saved state is still there. */
  lemma {:induction false} TransientExactlyIfSaved(s: State, cs: seq<Chance>)
    requires Inv(s) && s.pc.Waking? && KnowsItsJournal(s)
    ensures var end := WakeRun(s, cs); end.pc.Idle? ==> (end.pc.outcome.Transient? <==> end.w.dir.journal.Saved?)
    decreases |cs|
  {
    if cs != [] {
      hide Take, Inv;
      var s1 := Take(s, cs[0]);
      TakeKnows(s, cs[0]);
      if s1.pc.Waking? { TransientExactlyIfSaved(s1, cs[1..]); }
    }
  }
}
