/**
  Where a recovery leaves the machine when every call it makes succeeds, whatever
  the hypervisor does between two of them, short of dying.
 */
module SuspendRecovery {
  import opened Base
  import opened SuspendWorld
  import opened SuspendSteps
  import opened SuspendInvariant

  /** A recovery that has returned an action. */
  predicate Returned(pc: Pc) { pc.Recovering? && pc.rat.Done? }

  /** One step whose call succeeds: files can be read and changed, QMP answers,
      a kill kills, the disk's fingerprint can be taken. */
  function Good(s: State): State {
    if Returned(s.pc) then s else JmStep(s, true, s.pc.Recovering? && s.pc.rat.SavedPrint?)
  }

  function HappenAll(w: World, es: seq<Event>): World
    decreases |es|
  {
    if es == [] then w else HappenAll(Happens(w, es[0]), es[1..])
  }

  /** A recovery, with the events that come before each of its steps, and after
      its return. */
  function Recover(s: State, ess: seq<seq<Event>>): State
    decreases |ess|
  {
    if ess == [] then s else Recover(Good(State(HappenAll(s.w, ess[0]), s.pc)), ess[1..])
  }

  /** The hypervisor does not die. */
  predicate Calm(es: seq<Event>) { forall e :: e in es ==> !e.QemuDies? }

  predicate AllCalm(ess: seq<seq<Event>>) { forall i :: 0 <= i < |ess| ==> Calm(ess[i]) }

  // ----- What a recovery is for -----

  /** The guest runs and no save can freeze it. */
  predicate Going(w: World) { w.qemu.On? && w.qemu.mode.Running? && w.qemu.transfer.Quiet? && w.pid }

  /** The ways a machine can be resolved. A machine that is off and has no
      journal is left alone. */
  predicate GuestBack(w: World) { Going(w) && w.dir == Dir(NoJournal, None, None) }

  predicate SafelyAsleep(w: World) {
    w.qemu.Off? && !w.pid && ValidImage(w) && Paired(w) && w.dir.tmp.None?
  }

  predicate Cleared(w: World) {
    w.qemu.Off? && !w.pid && w.dir == Dir(NoJournal, None, None)
  }

  predicate ResolvedAs(w: World, a: Action) {
    match a
    case ActNone => if w.qemu.On? then GuestBack(w) else w.dir.journal.NoJournal?
    case ResumedGuest => GuestBack(w)
    case Suspended => SafelyAsleep(w)
    case Discarded => Cleared(w)
  }

  predicate Resolved(s: State) { Returned(s.pc) && ResolvedAs(s.w, s.pc.rat.action) }

  /** A guest no file speaks of any more, that is frozen or will be: after its
      save completed, while it is still being sent, or before it began under a
      hypervisor that was never woken. */
  predicate Forgotten(w: World) {
    w.dir.journal.NoJournal? && w.qemu.On? &&
    (w.qemu.mode.PostMigrate? || w.qemu.transfer.Sending? || (w.qemu.mode.Paused? && !w.incoming))
  }

  // ----- On course -----

  predicate RecoverCourse(w: World, at: RecoverAt) {
    match at
    case ReadJournal => !Forgotten(w)
    case QueryStatus => w.qemu.On? && !Forgotten(w) && (w.dir.journal.NoJournal? ==> w.incoming)
    case SweepImage => Going(w)
    case SweepTmp => Going(w) && w.dir.image.None?
    case SavedStatus => w.qemu.On?
    case SavedKill => w.qemu.On?
    case BadAside(_) => w.qemu.On?
    case BadAsideSync(_) => w.qemu.On?
    case SavingCancel => w.qemu.On?
    case SavingTmp => w.qemu.On?
    case SavingCont => w.qemu.On?
    case IncomingSync => w.qemu.On? && !Forgotten(w)
    case IncomingCont => w.qemu.On? && !Forgotten(w)
    case IncomingImage => Going(w)
    case IncomingTmp => Going(w) && w.dir.image.None?
    case StrayImage => !w.pid
    case StrayTmp(clean) => !w.pid && clean && w.dir.image.None?
    case Done(a) => ResolvedAs(w, a)
    case GaveUp => false
    case _ => true
  }

  predicate RepairCourse(w: World, at: RepairAt) {
    match at
    case RepairPid => !w.dir.journal.NoJournal?
    case Examine => !w.dir.journal.NoJournal?
    case OrphanTmp(clean) => clean && w.dir.image.None?
    case KeepPair => ValidImage(w)
    case _ => true
  }

  predicate DiscardCourse(w: World, at: DiscardAt) {
    at.RemoveTmp? ==> at.clean && w.dir.image.None?
  }

  /** The pc belongs to a recovery that will resolve the machine. */
  predicate Course(w: World, pc: Pc) {
    match pc
    case Recovering(_, at) => RecoverCourse(w, at)
    case Repairing(who, at) => (who.ByRecover? || who.ByRecoverSaved?) && RepairCourse(w, at)
    case Discarding(who, at) =>
      && (who.ByRecover? || who.ByRecoverSaved? || who.ByKilled? || who.BySaving?)
      && (if who.BySaving? then Going(w) else !w.pid)
      && DiscardCourse(w, at)
    case _ => false
  }

  function RecoverLeft(at: RecoverAt): nat {
    match at
    case ReadJournal => 20
    case QueryStatus => 19
    case BadAside(_) => 18
    case BadAsideSync(_) => 17
    case SavedStatus => 16
    case SavedKill => 15
    case SavedPid => 14
    case SavedPrint => 13
    case SavedPrintSync => 12
    case SavingCancel => 16
    case SavingTmp => 15
    case SavingCont => 14
    case SavingKill => 14
    case SavingPid => 13
    case IncomingSync => 5
    case IncomingCont => 4
    case IncomingImage => 3
    case IncomingTmp => 2
    case SweepImage => 3
    case SweepTmp => 2
    case StrayKill => 5
    case StrayPid => 4
    case StrayImage => 3
    case StrayTmp(_) => 2
    case Done(_) => 0
    case GaveUp => 0
  }

  function RepairLeft(at: RepairAt): nat {
    match at
    case RepairPid => 11
    case Examine => 10
    case SetAside => 9
    case SetAsideSync => 8
    case OrphanImage => 7
    case OrphanTmp(_) => 6
    case KeepPair => 6
  }

  function DiscardLeft(at: DiscardAt): nat {
    match at
    case Unlink => 9
    case SyncUnlink => 8
    case RemoveImage => 7
    case RemoveTmp(_) => 6
  }

  /** A bound on the steps a recovery still takes. */
  function Left(pc: Pc): nat {
    match pc
    case Recovering(_, at) => RecoverLeft(at)
    case Repairing(_, at) => RepairLeft(at)
    case Discarding(_, at) => DiscardLeft(at)
    case _ => 0
  }

  lemma EventKeepsCourse(s: State, e: Event)
    requires Inv(s) && Course(s.w, s.pc) && !e.QemuDies?
    ensures Inv(State(Happens(s.w, e), s.pc)) && Course(Happens(s.w, e), s.pc)
  {
    hide LogOk, FilesOk, SurvivorsOk;
    StepKeeps(s, Env(e));
  }

  lemma {:induction false} EventsKeepCourse(s: State, es: seq<Event>)
    requires Inv(s) && Course(s.w, s.pc) && Calm(es)
    ensures Inv(State(HappenAll(s.w, es), s.pc)) && Course(HappenAll(s.w, es), s.pc)
    decreases |es|
  {
    hide Inv, Course;
    if es != [] {
      assert es[0] in es;
      EventKeepsCourse(s, es[0]);
      EventsKeepCourse(State(Happens(s.w, es[0]), s.pc), es[1..]);
    }
  }

  lemma ReadAdvances(w: World, goal: Goal, at: RecoverAt)
    requires Inv(State(w, Recovering(goal, at))) && RecoverCourse(w, at) && (at.ReadJournal? || at.QueryStatus?)
    ensures var s' := Good(State(w, Recovering(goal, at)));
      Course(s'.w, s'.pc) && Left(s'.pc) < RecoverLeft(at)
  {
    hide LogOk, FilesOk, SuspendStep, WakeStep, BootStep, StopStep;
  }

  predicate InTidy(at: RecoverAt) {
    at.SweepImage? || at.SweepTmp? || at.IncomingImage? || at.IncomingTmp?
  }

  lemma SweepAdvances(w: World, goal: Goal, at: RecoverAt)
    requires Inv(State(w, Recovering(goal, at))) && RecoverCourse(w, at) && InTidy(at)
    ensures var s' := Good(State(w, Recovering(goal, at)));
      Course(s'.w, s'.pc) && Left(s'.pc) < RecoverLeft(at)
  {
    hide Global, RepairStep, DiscardStep, SuspendStep, WakeStep, BootStep;
    hide StopStep, Forgotten, SafelyAsleep, Cleared, RepairCourse, DiscardCourse;
  }

  lemma StrayEnds(w: World, goal: Goal, at: RecoverAt)
    requires Inv(State(w, Recovering(goal, at))) && RecoverCourse(w, at) && (at.StrayKill? || at.StrayPid?)
    ensures var s' := Good(State(w, Recovering(goal, at)));
      Course(s'.w, s'.pc) && Left(s'.pc) < RecoverLeft(at)
  {
    hide Global, RepairStep, DiscardStep, SuspendStep, WakeStep, BootStep;
    hide StopStep, Forgotten, SafelyAsleep, GuestBack, Going, RepairCourse, DiscardCourse;
  }

  lemma StrayFilesGo(w: World, goal: Goal, at: RecoverAt)
    requires Inv(State(w, Recovering(goal, at))) && RecoverCourse(w, at) && (at.StrayImage? || at.StrayTmp?)
    ensures var s' := Good(State(w, Recovering(goal, at)));
      Course(s'.w, s'.pc) && Left(s'.pc) < RecoverLeft(at)
  {
    hide Global, RepairStep, DiscardStep, SuspendStep, WakeStep, BootStep;
    hide StopStep, Forgotten, SafelyAsleep, GuestBack, Going, RepairCourse, DiscardCourse;
  }

  lemma SavedAdvances(w: World, goal: Goal, at: RecoverAt)
    requires Inv(State(w, Recovering(goal, at))) && RecoverCourse(w, at) && InSaved(at)
    ensures var s' := Good(State(w, Recovering(goal, at)));
      Course(s'.w, s'.pc) && Left(s'.pc) < RecoverLeft(at)
  {
    hide LogOk, FilesOk, SuspendStep, WakeStep, BootStep, StopStep;
  }

  lemma SavingAdvances(w: World, goal: Goal, at: RecoverAt)
    requires Inv(State(w, Recovering(goal, at))) && RecoverCourse(w, at) && (InAside(at) || InSaving(at))
    ensures var s' := Good(State(w, Recovering(goal, at)));
      Course(s'.w, s'.pc) && Left(s'.pc) < RecoverLeft(at)
  {
    hide LogOk, FilesOk, SuspendStep, WakeStep, BootStep, StopStep, Forgotten, GuestBack, SafelyAsleep, Cleared;
  }

  lemma IncomingAdvances(w: World, goal: Goal, at: RecoverAt)
    requires Inv(State(w, Recovering(goal, at))) && RecoverCourse(w, at) && (at.IncomingSync? || at.IncomingCont?)
    ensures var s' := Good(State(w, Recovering(goal, at)));
      Course(s'.w, s'.pc) && Left(s'.pc) < RecoverLeft(at)
  {
    hide LogOk, FilesOk, SuspendStep, WakeStep, BootStep, StopStep;
  }

  lemma RepairAdvances(w: World, who: By, at: RepairAt)
    requires Inv(State(w, Repairing(who, at))) && Course(w, Repairing(who, at))
    ensures var s' := Good(State(w, Repairing(who, at)));
      Course(s'.w, s'.pc) && Left(s'.pc) < RepairLeft(at)
  {
    hide LogOk, FilesOk, SuspendStep, WakeStep, BootStep, StopStep, Forgotten, GuestBack, Going;
  }

  lemma DiscardAdvances(w: World, who: By, at: DiscardAt)
    requires Inv(State(w, Discarding(who, at))) && Course(w, Discarding(who, at))
    ensures var s' := Good(State(w, Discarding(who, at)));
      Course(s'.w, s'.pc) && Left(s'.pc) < DiscardLeft(at)
  {
    hide LogOk, FilesOk, SuspendStep, WakeStep, BootStep, StopStep;
  }

  /** On course, every step that succeeds stays on it and comes closer. */
  lemma GoodAdvances(s: State)
    requires Inv(s) && Course(s.w, s.pc) && !Returned(s.pc)
    ensures Inv(Good(s)) && Course(Good(s).w, Good(s).pc) && Left(Good(s).pc) < Left(s.pc)
  {
    hide JmStep, Inv, RepairCourse, DiscardCourse;
    StepKeeps(s, Jm(true, s.pc.Recovering? && s.pc.rat.SavedPrint?));
    match s.pc
    case Recovering(goal, at) =>
      assert RecoverCourse(s.w, at) && !at.GaveUp?;
      if at.ReadJournal? || at.QueryStatus? { ReadAdvances(s.w, goal, at); }
      else if InTidy(at) { SweepAdvances(s.w, goal, at); }
      else if InSaved(at) { SavedAdvances(s.w, goal, at); }
      else if at.StrayKill? || at.StrayPid? { StrayEnds(s.w, goal, at); }
      else if at.StrayImage? || at.StrayTmp? { StrayFilesGo(s.w, goal, at); }
      else if InIncoming(at) { IncomingAdvances(s.w, goal, at); }
      else { SavingAdvances(s.w, goal, at); }
    case Repairing(who, at) => RepairAdvances(s.w, who, at);
    case Discarding(who, at) => DiscardAdvances(s.w, who, at);
    case _ => assert false;
  }

  lemma {:induction false} CourseResolves(s: State, ess: seq<seq<Event>>)
    requires Inv(s) && Course(s.w, s.pc) && AllCalm(ess) && Left(s.pc) <= |ess|
    ensures Resolved(Recover(s, ess))
    decreases |ess|
  {
    if ess != [] {
      hide Good, Inv, Course;
      var s1 := State(HappenAll(s.w, ess[0]), s.pc);
      EventsKeepCourse(s, ess[0]);
      if !Returned(s1.pc) { GoodAdvances(s1); }
      CourseResolves(Good(s1), ess[1..]);
    }
  }

  // ----- Off course -----

  /** A guest that stays frozen, met by a recovery that finds no journal. */
  predicate Stuck(s: State) {
    && s.pc.Recovering? && !s.pc.goal.ToRollBack?
    && (s.pc.rat.ReadJournal? || s.pc.rat.QueryStatus? || s.pc.rat.SweepImage? || s.pc.rat.SweepTmp?
        || s.pc.rat == Done(ActNone))
    && Alive(s.w) && s.w.dir.journal.NoJournal?
    && !s.w.qemu.transfer.Sending?
    && (s.w.qemu.mode.PostMigrate? || (s.w.qemu.mode.Paused? && !s.w.incoming && !s.pc.rat.QueryStatus?))
  }

  lemma {:induction false} EventsKeepStuck(s: State, es: seq<Event>)
    requires Stuck(s) && Calm(es)
    ensures Stuck(State(HappenAll(s.w, es), s.pc))
    decreases |es|
  {
    if es != [] {
      assert es[0] in es;
      EventsKeepStuck(State(Happens(s.w, es[0]), s.pc), es[1..]);
    }
  }

  /** A recovery that meets such a guest reports nothing to recover and leaves
      it frozen. */
  lemma {:induction false} StuckStays(s: State, ess: seq<seq<Event>>)
    requires Stuck(s) && AllCalm(ess)
    ensures Stuck(Recover(s, ess)) && !Resolved(Recover(s, ess))
    decreases |ess|
  {
    if ess != [] {
      EventsKeepStuck(s, ess[0]);
      StuckStays(Good(State(HappenAll(s.w, ess[0]), s.pc)), ess[1..]);
    }
  }

  /** The save of a forgotten guest may complete before the recovery looks. */
  lemma ForgottenGetsStuck(s: State, goal: Goal, rest: seq<seq<Event>>)
    requires Inv(s) && s.pc == Recovering(goal, ReadJournal) && Forgotten(s.w) && AllCalm(rest)
    ensures !Resolved(Recover(s, [[SaveDone(1)]] + rest))
  {
    var es, ess := [SaveDone(1)], [[SaveDone(1)]] + rest;
    var w1 := Happens(s.w, SaveDone(1));
    assert HappenAll(s.w, es) == w1 by {
      assert es[1..] == [];
    }
    assert Stuck(State(w1, s.pc));
    assert ess[1..] == rest;
    StuckStays(Good(State(w1, s.pc)), rest);
  }

  // ----- The result -----

  /** From every reachable state in which a recovery begins, whatever the
      hypervisor does short of dying, its calls leave a running guest with no
      journal, a valid saved pair with no hypervisor, or a stopped machine with
      neither, exactly when the guest is not a forgotten one. */
  lemma RecoverResolves(s: State, goal: Goal)
    requires Inv(s) && s.pc == Recovering(goal, ReadJournal)
    ensures (forall ess :: |ess| >= 20 && AllCalm(ess) ==> Resolved(Recover(s, ess))) <==> !Forgotten(s.w)
  {
    if Forgotten(s.w) {
      var rest := seq(19, _ => []);
      var ess := [[SaveDone(1)]] + rest;
      ForgottenGetsStuck(s, goal, rest);
      assert |ess| >= 20 && AllCalm(ess) && !Resolved(Recover(s, ess));
    } else {
      forall ess | |ess| >= 20 && AllCalm(ess) ensures Resolved(Recover(s, ess)) {
        CourseResolves(s, ess);
      }
    }
  }

  /** Nothing jm records changed, nor what its guest is doing. */
  predicate SameMachine(w: World, w': World) {
    && w'.dir == w.dir && w'.pid == w.pid && w'.incoming == w.incoming && w'.files == w.files && w'.log == w.log
    && (if w.qemu.On? then w'.qemu.On? && w'.qemu.mode == w.qemu.mode && w'.qemu.transfer == w.qemu.transfer
        else w'.qemu.Off?)
  }

  /** A recovery of a machine that is already resolved. */
  predicate Again(w: World, goal: Goal, s: State) {
    && SameMachine(w, s.w)
    && (s.pc == Recovering(goal, ReadJournal)
        || if w.qemu.On? then
             && s.pc.Recovering? && s.pc.goal == goal
             && (s.pc.rat.SweepImage? || s.pc.rat.SweepTmp? || s.pc.rat == Done(ActNone)
                 || (s.pc.rat.QueryStatus? && w.incoming))
           else if w.dir.journal.Saved? then
             || s.pc == Recovering(goal, Done(Suspended))
             || (s.pc.Repairing? && s.pc.who == ByRecover(goal)
                 && (s.pc.pat.RepairPid? || s.pc.pat.Examine? || s.pc.pat.KeepPair?))
           else s.pc == Recovering(goal, Done(ActNone)))
  }

  lemma {:induction false} EventsKeepAgain(w: World, goal: Goal, s: State, es: seq<Event>)
    requires (w.qemu.On? ==> GuestBack(w)) && Again(w, goal, s) && Calm(es)
    ensures Again(w, goal, State(HappenAll(s.w, es), s.pc))
    decreases |es|
  {
    if es != [] {
      assert es[0] in es;
      EventsKeepAgain(w, goal, State(Happens(s.w, es[0]), s.pc), es[1..]);
    }
  }

  lemma ReadKeepsAgain(w: World, goal: Goal, s: State)
    requires GuestBack(w) || SafelyAsleep(w) || Cleared(w)
    requires Again(w, goal, s) && s.pc.Recovering? && !Returned(s.pc)
    ensures Again(w, goal, Good(s)) && Left(Good(s).pc) < Left(s.pc)
  {
    hide RepairStep, SuspendStep, WakeStep, BootStep, StopStep, DiscardStep, ValidImage;
  }

  lemma RepairKeepsAgain(w: World, goal: Goal, s: State)
    requires SafelyAsleep(w) && Again(w, goal, s) && s.pc.Repairing?
    ensures Again(w, goal, Good(s)) && Left(Good(s).pc) < Left(s.pc)
  {
    hide RecoverStep, SuspendStep, WakeStep, BootStep, StopStep, DiscardStep;
  }

  lemma GoodKeepsAgain(w: World, goal: Goal, s: State)
    requires GuestBack(w) || SafelyAsleep(w) || Cleared(w)
    requires Again(w, goal, s) && !Returned(s.pc)
    ensures Again(w, goal, Good(s)) && Left(Good(s).pc) < Left(s.pc)
  {
    hide Good;
    if s.pc.Repairing? { RepairKeepsAgain(w, goal, s); } else { ReadKeepsAgain(w, goal, s); }
  }

  lemma {:induction false} AgainEnds(w: World, goal: Goal, s: State, ess: seq<seq<Event>>)
    requires GuestBack(w) || SafelyAsleep(w) || Cleared(w)
    requires Again(w, goal, s) && AllCalm(ess) && Left(s.pc) <= |ess|
    ensures Again(w, goal, Recover(s, ess)) && Returned(Recover(s, ess).pc)
    decreases |ess|
  {
    if ess != [] {
      var s1 := State(HappenAll(s.w, ess[0]), s.pc);
      EventsKeepAgain(w, goal, s, ess[0]);
      if !Returned(s1.pc) { GoodKeepsAgain(w, goal, s1); }
      AgainEnds(w, goal, Good(s1), ess[1..]);
    }
  }

  /** A second recovery changes nothing, and says the same of a machine that is
      asleep and "nothing to recover" of any other. */
  lemma SecondRecoveryIsIdle(w: World, goal: Goal, ess: seq<seq<Event>>)
    requires GuestBack(w) || SafelyAsleep(w) || Cleared(w)
    requires |ess| >= 20 && AllCalm(ess)
    ensures var s' := Recover(State(w, Recovering(goal, ReadJournal)), ess);
      && s'.pc == Recovering(goal, Done(if SafelyAsleep(w) then Suspended else ActNone))
      && SameMachine(w, s'.w)
  {
    AgainEnds(w, goal, State(w, Recovering(goal, ReadJournal)), ess);
  }
}
