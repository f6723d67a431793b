/**
  Where a suspend that gives up leaves the machine: its journal was written, its
  save was not committed, and the calls that undo it succeed. The hypervisor may
  do anything at any time, and may die.
 */
module SuspendUndo {
  import opened Base
  import opened SuspendWorld
  import opened SuspendSteps
  import opened SuspendInvariant
  import opened SuspendRecovery

  /** The way back of a suspend, internal/cli/suspend.go:434-537. */
  predicate BackingOut(at: SuspendAt) {
    || at.RollBack? || at.RollBackCancel? || at.RollBackImage? || at.RollBackTmp? || at.RollBackCont?
    || at.CrashTmp? || at.CrashPid? || at.AfterError? || at.Cancel?
  }

  /** A step at which a suspend under way gives up, leaving its "saving" journal
      for the way back, or for nobody. */
  predicate GivesUp(s: State, c: Choice) {
    && s.pc.Suspending? && !s.pc.sat.CheckRunning? && !BackingOut(s.pc.sat) && c.Jm?
    && var s' := Step(s, c);
       && s'.w.dir.journal.Saving?
       && (s'.pc.Idle? || (s'.pc.Suspending? && BackingOut(s'.pc.sat)))
  }

  /** The way back, with the events that come before each of its steps. */
  function Roll(s: State, ess: seq<seq<Event>>): State
    decreases |ess|
  {
    if s.pc.Idle? || ess == [] then s
    else Roll(JmStep(State(HappenAll(s.w, ess[0]), s.pc), true, false), ess[1..])
  }

  /** The guest runs and nothing of the suspend is left, or the hypervisor died,
      jm says so, and nothing of the suspend is left. */
  predicate BackedOut(s: State) {
    || (s.pc == Idle(RolledBack) && GuestBack(s.w))
    || (s.pc == Idle(Died) && s.w.qemu.Off? && s.w.dir == Dir(NoJournal, None, None))
  }

  /** Past the last look at whether the hypervisor lives. */
  predicate Late(pc: Pc) {
    match pc
    case Suspending(at) => at.Cancel?
    case Recovering(goal, _) => goal.ToRollBack?
    case Repairing(who, _) => who == ByRecover(ToRollBack)
    case Discarding(who, _) =>
      who.ByCancel? || who == ByRecover(ToRollBack) || who == BySaving(ToRollBack) || who == ByKilled(ToRollBack)
    case _ => false
  }

  /** At some step of the way back past that look, the hypervisor is dead. */
  predicate LateDeath(s: State, ess: seq<seq<Event>>)
    decreases |ess|
  {
    if s.pc.Idle? || ess == [] then false
    else
      var s1 := State(HappenAll(s.w, ess[0]), s.pc);
      (Late(s1.pc) && s1.w.qemu.Off?) || LateDeath(JmStep(s1, true, false), ess[1..])
  }

  // ----- The way back -----

  predicate UndoRecovers(w: World, at: RecoverAt) {
    match at
    case ReadJournal => w.dir.journal.Saving?
    case QueryStatus => w.dir.journal.Saving?
    case SavingCancel => w.dir.journal.Saving?
    case SavingTmp => w.dir.journal.Saving?
    case SavingCont => w.dir.journal.Saving?
    case Done(a) => a.ResumedGuest? && GuestBack(w)
    case _ => false
  }

  predicate Undoing(s: State) {
    match s.pc
    case Idle(_) => BackedOut(s)
    case Suspending(at) =>
      && BackingOut(at)
      && (if at.Cancel? then s.w.qemu.On? && (s.w.dir.journal.Saving? || s.w.dir == Dir(NoJournal, None, None))
          else Open(s.w))
    case Recovering(goal, at) => goal.ToRollBack? && s.w.qemu.On? && UndoRecovers(s.w, at)
    case Discarding(who, at) =>
      && (who.ByDied? || ((who.ByCancel? || who == BySaving(ToRollBack)) && s.w.qemu.On?))
      && DiscardCourse(s.w, at)
    case _ => false
  }

  function UndoLeft(s: State): nat {
    match s.pc
    case Suspending(at) =>
      (match at
       case RollBack => 19
       case RollBackCancel => 18
       case RollBackImage => 17
       case RollBackTmp => 16
       case RollBackCont => 15
       case CrashTmp => 14
       case CrashPid => 13
       case AfterError(_) => 12
       case _ => if s.w.dir.journal.Saving? then 7 else 1)
    case Recovering(_, at) =>
      (match at
       case ReadJournal => 11
       case QueryStatus => 10
       case SavingCancel => 9
       case SavingTmp => 8
       case SavingCont => 7
       case _ => 2)
    case Discarding(_, at) =>
      (match at
       case Unlink => 6
       case SyncUnlink => 5
       case RemoveImage => 4
       case RemoveTmp(_) => 3)
    case _ => 0
  }

  lemma EventKeepsUndoing(s: State, e: Event)
    requires Inv(s) && Undoing(s) && !s.pc.Idle?
    ensures var s' := State(Happens(s.w, e), s.pc);
      Inv(s') && (Undoing(s') || (Late(s.pc) && s'.w.qemu.Off?)) && UndoLeft(s') == UndoLeft(s)
  {
    StepKeeps(s, Env(e));
    hide LogOk, FilesOk, SurvivorsOk, RunsOrOff, Named, TransferOk;
  }

  lemma {:induction false} EventsKeepUndoing(s: State, es: seq<Event>)
    requires Inv(s) && !s.pc.Idle? && (Undoing(s) || (Late(s.pc) && s.w.qemu.Off?))
    ensures var s' := State(HappenAll(s.w, es), s.pc);
      && Inv(s') && (Undoing(s') || (Late(s.pc) && s'.w.qemu.Off?))
      && (Undoing(s') ==> UndoLeft(s') == UndoLeft(s))
      && (Calm(es) && s.w.qemu.On? ==> s'.w.qemu.On?)
    decreases |es|
  {
    if es != [] {
      hide Inv, Undoing, UndoLeft;
      assert es[0] in es;
      StepKeeps(s, Env(es[0]));
      var s1 := State(Happens(s.w, es[0]), s.pc);
      if Undoing(s) {
        EventKeepsUndoing(s, es[0]);
      }
      EventsKeepUndoing(s1, es[1..]);
    }
  }

  lemma SuspendUndoes(w: World, at: SuspendAt)
    requires Inv(State(w, Suspending(at))) && Undoing(State(w, Suspending(at)))
    ensures var s' := SuspendStep(w, at, true, false);
      Undoing(s') && UndoLeft(s') < UndoLeft(State(w, Suspending(at)))
  {
    hide LogOk, FilesOk, SurvivorsOk, TransferOk;
  }

  lemma RecoverUndoes(w: World, at: RecoverAt)
    requires Inv(State(w, Recovering(ToRollBack, at))) && Undoing(State(w, Recovering(ToRollBack, at)))
    ensures var s' := RecoverStep(w, ToRollBack, at, true, false);
      Undoing(s') && UndoLeft(s') < UndoLeft(State(w, Recovering(ToRollBack, at)))
  {
    hide LogOk, FilesOk, SurvivorsOk;
  }

  lemma DiscardUndoes(w: World, who: By, at: DiscardAt)
    requires Inv(State(w, Discarding(who, at))) && Undoing(State(w, Discarding(who, at)))
    ensures var s' := DiscardStep(w, who, at, true, false);
      Undoing(s') && UndoLeft(s') < UndoLeft(State(w, Discarding(who, at)))
  {
    hide LogOk, FilesOk, SurvivorsOk, TransferOk;
  }

  lemma StepUndoes(s: State)
    requires Inv(s) && Undoing(s) && !s.pc.Idle?
    ensures var s' := JmStep(s, true, false); Inv(s') && Undoing(s') && UndoLeft(s') < UndoLeft(s)
  {
    StepKeeps(s, Jm(true, false));
    hide Inv, SuspendStep, RecoverStep, DiscardStep, UndoLeft;
    match s.pc
    case Suspending(at) => SuspendUndoes(s.w, at);
    case Recovering(_, at) => RecoverUndoes(s.w, at);
    case Discarding(who, at) => DiscardUndoes(s.w, who, at);
    case _ =>
  }

  // ----- Too late -----

  /** The hypervisor is dead, and jm no longer finds out. */
  predicate Missed(s: State) {
    s.w.qemu.Off? && (Late(s.pc) || (s.pc.Idle? && (s.pc.outcome.RolledBack? || s.pc.outcome.Failed?)))
  }

  lemma StepKeepsMissed(s: State)
    requires Inv(s) && Missed(s)
    ensures Inv(JmStep(s, true, false)) && Missed(JmStep(s, true, false))
  {
    StepKeeps(s, Jm(true, false));
    hide Global;
  }

  lemma {:induction false} EventsKeepMissed(s: State, es: seq<Event>)
    requires Inv(s) && Missed(s)
    ensures Inv(State(HappenAll(s.w, es), s.pc)) && HappenAll(s.w, es) == s.w
    decreases |es|
  {
    if es != [] {
      EventsKeepMissed(State(Happens(s.w, es[0]), s.pc), es[1..]);
    }
  }

  lemma {:induction false} MissedStays(s: State, ess: seq<seq<Event>>)
    requires Inv(s) && Missed(s)
    ensures Missed(Roll(s, ess))
    decreases |ess|
  {
    if ess != [] && !s.pc.Idle? {
      hide Inv, Missed;
      EventsKeepMissed(s, ess[0]);
      StepKeepsMissed(s);
      MissedStays(JmStep(s, true, false), ess[1..]);
    }
  }

  // ----- The result -----

  lemma {:induction false} RollsBackExactly(s: State, ess: seq<seq<Event>>)
    requires Inv(s) && (Undoing(s) || Missed(s)) && |ess| >= UndoLeft(s) && (Missed(s) ==> ess != [] && !s.pc.Idle?)
    ensures BackedOut(Roll(s, ess)) <==> !LateDeath(s, ess)
    decreases |ess|
  {
    if Missed(s) {
      EventsKeepMissed(s, ess[0]);
      MissedStays(s, ess);
    } else if !s.pc.Idle? {
      EventsKeepUndoing(s, ess[0]);
      var s1 := State(HappenAll(s.w, ess[0]), s.pc);
      if Missed(s1) {
        StepKeepsMissed(s1);
        MissedStays(JmStep(s1, true, false), ess[1..]);
      } else {
        StepUndoes(s1);
        RollsBackExactly(JmStep(s1, true, false), ess[1..]);
      }
    }
  }

  /** The journal was written but could not be made durable: jm returns at once
      and undoes nothing. */
  predicate Unsynced(at: SuspendAt) { at.WriteSaving? || at.SyncSaving? }

  lemma GivingUpUndoes(s: State, c: Choice)
    requires Inv(s) && GivesUp(s, c) && !Unsynced(s.pc.sat)
    ensures var s' := Step(s, c); Undoing(s') || (s.pc.sat.HandEndpoints? && s.w.qemu.Off? && Missed(s'))
  {
    StepKeeps(s, c);
    hide LogOk, FilesOk, SurvivorsOk, TransferOk;
  }

  /** A suspend that gives up, whichever call failed, ends with its guest running
      or its hypervisor reported dead, and nothing of it left, exactly when its
      journal was durable and the hypervisor was not dead past jm's last look. */
  lemma SuspendBacksOut(s: State, c: Choice, ess: seq<seq<Event>>)
    requires Inv(s) && GivesUp(s, c) && |ess| >= 19
    ensures BackedOut(Roll(Step(s, c), ess)) <==> !Unsynced(s.pc.sat) && !LateDeath(Step(s, c), ess)
  {
    StepKeeps(s, c);
    if !Unsynced(s.pc.sat) {
      GivingUpUndoes(s, c);
      RollsBackExactly(Step(s, c), ess);
    }
  }

  lemma {:induction false} CalmIsNeverLate(s: State, ess: seq<seq<Event>>)
    requires Inv(s) && Undoing(s) && AllCalm(ess)
    ensures !LateDeath(s, ess)
    decreases |ess|
  {
    if ess != [] && !s.pc.Idle? {
      EventsKeepUndoing(s, ess[0]);
      var s1 := State(HappenAll(s.w, ess[0]), s.pc);
      StepUndoes(s1);
      CalmIsNeverLate(JmStep(s1, true, false), ess[1..]);
    }
  }

  /** When the hypervisor does not die on the way back: exactly when the journal
      was durable and the call that failed was not that for the endpoints under
      a hypervisor already dead. */
  lemma CalmSuspendBacksOut(s: State, c: Choice)
    requires Inv(s) && GivesUp(s, c)
    ensures (forall ess :: |ess| >= 19 && AllCalm(ess) ==> BackedOut(Roll(Step(s, c), ess)))
      <==> !Unsynced(s.pc.sat) && !(s.pc.sat.HandEndpoints? && s.w.qemu.Off?)
  {
    var s' := Step(s, c);
    StepKeeps(s, c);
    if Unsynced(s.pc.sat) || (s.pc.sat.HandEndpoints? && s.w.qemu.Off?) {
      var ess: seq<seq<Event>> := seq(19, _ => []);
      SuspendBacksOut(s, c, ess);
      assert |ess| >= 19 && AllCalm(ess) && !BackedOut(Roll(s', ess));
    } else {
      GivingUpUndoes(s, c);
      forall ess | |ess| >= 19 && AllCalm(ess) ensures BackedOut(Roll(s', ess)) {
        SuspendBacksOut(s, c, ess);
        CalmIsNeverLate(s', ess);
      }
    }
  }
}
