/**
  What every run guarantees, from a machine that was never started on: over any
  commands, failures, kills and power losses.
 */
module SuspendSafety {
  import opened Base
  import opened SuspendWorld
  import opened SuspendSteps
  import opened SuspendInvariant
  import opened SuspendCoherence

  /** `cont` is never sent while the journal reads "saved". A guest restored
      from an image is continued only once the removal of its journal is
      durable, and so no image is continued twice. */
  lemma SavedStateIsNeverContinuedTwice(s: State, choices: seq<Choice>)
    requires Init(s)
    ensures var log := Run(s, choices).w.log;
      && (forall i :: 0 <= i < |log| ==> !log[i].journal.Saved? && (log[i].image.Some? ==> !log[i].exposed))
      && (forall i, j :: 0 <= i < j < |log| && log[i].image.Some? && log[j].image.Some?
            ==> log[i].image != log[j].image)
  {
    InitHolds(s);
    RunKeeps(s, choices);
  }

  /** In a run with no reckless boot every continued guest matched its disk, and
      the guest that runs now still does. */
  lemma ContinuedGuestsMatchTheirDisk(s: State, choices: seq<Choice>)
    requires Init(s) && Careful(s, choices)
    ensures var w := Run(s, choices).w;
      && LogFresh(w.log)
      && (w.qemu.On? && w.qemu.mode.Running? ==> w.qemu.mem == w.disk)
  {
    InitHolds(s);
    RunFresh(s, choices);
  }

  /** A recovery's action is true of the machine it leaves, however it got there:
      but for a guest it continued whose save, under a bad journal that was set
      aside, was still being sent. The end of that save freezes it again. */
  lemma RecoverActionIsTrue(s: State, choices: seq<Choice>)
    requires Init(s)
    ensures var t := Run(s, choices);
      t.pc.Recovering? && t.pc.rat.Done? ==>
        match t.pc.rat.action
        case ActNone => t.w.dir.journal.NoJournal?
        case ResumedGuest =>
          && t.w.dir.journal.NoJournal?
          && (t.w.qemu.On? && !t.w.qemu.mode.Running? ==> t.w.qemu.mode.PostMigrate? && t.w.aside)
        case Suspended => t.w.qemu.Off? && ValidImage(t.w)
        case Discarded => t.w.qemu.Off? && t.w.dir.journal.NoJournal?
  {
    InitHolds(s);
    RunKeeps(s, choices);
    var w := Run(s, choices).w;
    assert SavedOk(w.files, Taken(w.log), w.dir);
  }

  /** The branch of a recovery for a guest that runs under a saved journal is
      never taken. */
  lemma ViolationBranchIsDead(s: State, choices: seq<Choice>)
    requires Init(s)
    ensures var t := Run(s, choices);
      !(t.pc.Discarding? && t.pc.who.ByViolation?) &&
      !(t.w.qemu.On? && t.w.qemu.mode.Running? && t.w.dir.journal.Saved?)
  {
    InitHolds(s);
    RunKeeps(s, choices);
  }

  /** Whenever no command runs, a live hypervisor is named by its pid file: no
      returning path of a start or a wake loses one. */
  lemma NoHypervisorIsLost(s: State, choices: seq<Choice>)
    requires Init(s)
    ensures var t := Run(s, choices); t.pc.Idle? && t.w.qemu.On? ==> t.w.pid
  {
    InitHolds(s);
    RunKeeps(s, choices);
  }

  /** A frozen guest without any journal can only come of a bad journal that was
      set aside. */
  lemma ForgottenGuestsHadABadJournal(s: State, choices: seq<Choice>)
    requires Init(s)
    ensures var w := Run(s, choices).w;
      w.qemu.On? && w.dir.journal.NoJournal? && !w.qemu.mode.Running? && !w.qemu.mode.Loaded? ==> w.aside
  {
    InitHolds(s);
    RunKeeps(s, choices);
  }

  // ----- Failed wakes -----

  /** The stretch of a wake before its journal is unlinked. */
  predicate BeforeUnlink(at: WakeAt) {
    !at.WakeSync? && !at.WakeCont? && !at.WakeImage? && !at.WakeTmp?
  }

  /** A run of one wake: jm's steps and the hypervisor's events only, until the
      wake returns or hands over. */
  predicate WakeRun(s: State, choices: seq<Choice>)
    decreases |choices|
  {
    choices == [] ||
    (s.pc.Waking? && (choices[0].Jm? || choices[0].Env?) && WakeRun(Step(s, choices[0]), choices[1..]))
  }

  /** A wake that fails without its state being called incompatible, before it
      unlinked the journal, leaves the saved state as it was; one whose state is
      called incompatible leaves it too, to be discarded with the hypervisor
      gone. */
  lemma {:induction false} FailedWakeKeepsTheSavedState(s: State, choices: seq<Choice>)
    requires Inv(s) && WakeRun(s, choices)
    requires s.pc.Waking? && BeforeUnlink(s.pc.wat)
    ensures var t := Run(s, choices);
      t.pc == Idle(Transient) || (t.pc.Waking? && BeforeUnlink(t.pc.wat)) || (t.pc.Discarding? && t.pc.who.ByWake?)
      ==> t.w.dir == s.w.dir && t.w.survivors == s.w.survivors
    ensures var t := Run(s, choices); t.pc.Discarding? && t.pc.who.ByWake? ==> t.w.qemu.Off?
    decreases |choices|
  {
    RunKeeps(s, choices);
    if choices != [] {
      var s1 := Step(s, choices[0]);
      StepKeeps(s, choices[0]);
      WakeStepKeepsDir(s, choices[0]);
      if s1.pc.Waking? && BeforeUnlink(s1.pc.wat) {
        FailedWakeKeepsTheSavedState(s1, choices[1..]);
      } else if s1.pc.Waking? {
        PastUnlink(s1, choices[1..]);
      }
    }
  }

  lemma WakeStepKeepsDir(s: State, c: Choice)
    requires s.pc.Waking? && BeforeUnlink(s.pc.wat) && (c.Jm? || c.Env?)
    ensures var t := Step(s, c);
      t.pc == Waking(s.pc.goal, WakeSync) || (t.w.dir == s.w.dir && t.w.survivors == s.w.survivors)
  {
  }

  /** Once the journal is unlinked the wake neither fails as transient nor calls
      the state incompatible. */
  lemma {:induction false} PastUnlink(s: State, choices: seq<Choice>)
    requires WakeRun(s, choices)
    requires s.pc.Waking? && !BeforeUnlink(s.pc.wat)
    ensures var t := Run(s, choices);
      t.pc != Idle(Transient) && !(t.pc.Waking? && BeforeUnlink(t.pc.wat)) && !t.pc.Discarding?
    decreases |choices|
  {
    if choices != [] {
      var s1 := Step(s, choices[0]);
      if s1.pc.Waking? {
        PastUnlink(s1, choices[1..]);
      }
    }
  }

  // ----- What a command says when it returns -----

  /** What a command that has just returned says of the machine. */
  predicate OutcomeMeans(w: World, outcome: Outcome) {
    match outcome
    case Halted => w.qemu.Off?
    case Died => w.qemu.Off?
    case Asleep => w.dir.journal.Saved?
    case Awake => w.dir.journal.NoJournal? && Named(w)
    case RolledBack => w.dir.journal.NoJournal? && RunsOrOff(w)
    case Transient => LoadingOrOff(w)
    case _ => true
  }

  /** What a command can say when it returns from there: a start awake or failed, a
      stop halted or failed, and so on; and that a start or a stop went well, only
      if its last call did. */
  predicate MaySay(pc: Pc, ok: bool, o: Outcome) {
    match pc
    case Recovering(_, _) => o.Failed?
    case Repairing(who, _) => o.Failed? || (who.ByStop? && o.Halted? && ok)
    case Discarding(who, _) =>
      (match who
       case ByCancel => if ok then o.RolledBack? || o.Failed? else o.Failed?
       case ByDied => o.Died?
       case ByWake(goal) => if goal.ToStart? || !ok then o.Failed? else o.Halted? || o.Failed?
       case ByForce => if ok then o.Halted? || o.Failed? else o.Failed?
       case ByStop(_) => if ok then o.Halted? || o.Failed? else o.Failed?
       case _ => o.Failed?)
    case Suspending(at) =>
      (match at
       case CheckRunning => o.Refused?
       case WriteSaving => o.Refused? && !ok
       case SyncSaving => o.Refused? && !ok
       case AfterError(_) => if ok then o.Asleep? else o.Failed?
       case Cancel => if ok then o.RolledBack? || o.Failed? else o.Failed?
       case _ => o.Asleep?)
    case Waking(goal, at) => o.Transient? || o.Failed? || (goal.ToStart? && at.WakeTmp? && o.Awake?)
    case Booting(_) => o.Failed? || (o.Awake? && ok)
    case Stopping(_, _) => o.Failed? || (o.Halted? && ok)
    case Idle(_) => false
  }

  lemma RecoverReturns(w: World, goal: Goal, at: RecoverAt, ok: bool, bit: bool)
    requires Inv(State(w, Recovering(goal, at))) && RecoverStep(w, goal, at, ok, bit).pc.Idle?
    ensures OutcomeMeans(RecoverStep(w, goal, at, ok, bit).w, RecoverStep(w, goal, at, ok, bit).pc.outcome)
    ensures MaySay(Recovering(goal, at), ok, RecoverStep(w, goal, at, ok, bit).pc.outcome)
  {
    hide Global;
  }

  lemma RepairReturns(w: World, who: By, at: RepairAt, ok: bool, bit: bool)
    requires Inv(State(w, Repairing(who, at))) && RepairStep(w, who, at, ok, bit).pc.Idle?
    ensures OutcomeMeans(RepairStep(w, who, at, ok, bit).w, RepairStep(w, who, at, ok, bit).pc.outcome)
    ensures MaySay(Repairing(who, at), ok, RepairStep(w, who, at, ok, bit).pc.outcome)
  {
    hide Global;
  }

  lemma DiscardReturns(w: World, who: By, at: DiscardAt, ok: bool, bit: bool)
    requires Inv(State(w, Discarding(who, at))) && DiscardStep(w, who, at, ok, bit).pc.Idle?
    ensures OutcomeMeans(DiscardStep(w, who, at, ok, bit).w, DiscardStep(w, who, at, ok, bit).pc.outcome)
    ensures MaySay(Discarding(who, at), ok, DiscardStep(w, who, at, ok, bit).pc.outcome)
  {
    hide Global;
  }

  lemma SuspendReturns(w: World, at: SuspendAt, ok: bool, bit: bool)
    requires Inv(State(w, Suspending(at))) && SuspendStep(w, at, ok, bit).pc.Idle?
    ensures OutcomeMeans(SuspendStep(w, at, ok, bit).w, SuspendStep(w, at, ok, bit).pc.outcome)
    ensures MaySay(Suspending(at), ok, SuspendStep(w, at, ok, bit).pc.outcome)
  {
    hide Global;
  }

  lemma WakeReturns(w: World, goal: Goal, at: WakeAt, ok: bool, bit: bool)
    requires Inv(State(w, Waking(goal, at))) && WakeStep(w, goal, at, ok, bit).pc.Idle?
    ensures OutcomeMeans(WakeStep(w, goal, at, ok, bit).w, WakeStep(w, goal, at, ok, bit).pc.outcome)
    ensures MaySay(Waking(goal, at), ok, WakeStep(w, goal, at, ok, bit).pc.outcome)
  {
    hide Global;
  }

  lemma BootReturns(w: World, at: BootAt, ok: bool, bit: bool)
    requires Inv(State(w, Booting(at))) && BootStep(w, at, ok, bit).pc.Idle?
    ensures OutcomeMeans(BootStep(w, at, ok, bit).w, BootStep(w, at, ok, bit).pc.outcome)
    ensures MaySay(Booting(at), ok, BootStep(w, at, ok, bit).pc.outcome)
  {
    hide Global;
  }

  lemma StopReturns(w: World, force: bool, at: StopAt, ok: bool, bit: bool)
    requires Inv(State(w, Stopping(force, at))) && StopStep(w, force, at, ok, bit).pc.Idle?
    ensures OutcomeMeans(StopStep(w, force, at, ok, bit).w, StopStep(w, force, at, ok, bit).pc.outcome)
    ensures MaySay(Stopping(force, at), ok, StopStep(w, force, at, ok, bit).pc.outcome)
  {
    hide Global;
  }

  /** Every command, however it ended, says what is so. */
  lemma ReturnsTruly(s: State, ok: bool, bit: bool)
    requires Inv(s) && !s.pc.Idle? && JmStep(s, ok, bit).pc.Idle?
    ensures OutcomeMeans(JmStep(s, ok, bit).w, JmStep(s, ok, bit).pc.outcome)
    ensures MaySay(s.pc, ok, JmStep(s, ok, bit).pc.outcome)
  {
    hide Inv, OutcomeMeans, MaySay, RecoverStep, RepairStep, DiscardStep, SuspendStep, WakeStep, BootStep, StopStep;
    match s.pc
    case Recovering(goal, at) => RecoverReturns(s.w, goal, at, ok, bit);
    case Repairing(who, at) => RepairReturns(s.w, who, at, ok, bit);
    case Discarding(who, at) => DiscardReturns(s.w, who, at, ok, bit);
    case Suspending(at) => SuspendReturns(s.w, at, ok, bit);
    case Waking(goal, at) => WakeReturns(s.w, goal, at, ok, bit);
    case Booting(at) => BootReturns(s.w, at, ok, bit);
    case Stopping(force, at) => StopReturns(s.w, force, at, ok, bit);
  }

  /** A start or a wake that gives up after its launch leaves no pid file of a
      hypervisor that is gone. */
  lemma FailedLaunchLeavesNoPidFile(s: State, ok: bool, bit: bool)
    requires Inv(s) && JmStep(s, ok, bit).pc.Idle?
    requires (s.pc.Booting? && (s.pc.bat.BootLaunch? || s.pc.bat.AwaitReady?))
      || (s.pc.Waking? && (s.pc.wat.WakeLaunch? || s.pc.wat.AwaitIncoming? || s.pc.wat.WakeKill?))
    ensures JmStep(s, ok, bit).w.qemu.Off? ==> !JmStep(s, ok, bit).w.pid
  {
    hide Global, RecoverStep, RepairStep, DiscardStep, SuspendStep, StopStep;
  }

  predicate OffIfSaidSo(s: State) { s.pc.Idle? && (s.pc.outcome.Halted? || s.pc.outcome.Died?) ==> s.w.qemu.Off? }

  lemma {:induction false} SaidSoStays(s: State, choices: seq<Choice>)
    requires Inv(s) && OffIfSaidSo(s)
    ensures OffIfSaidSo(Run(s, choices))
    decreases |choices|
  {
    if choices != [] {
      var s1 := Step(s, choices[0]);
      StepKeeps(s, choices[0]);
      StepSaysSo(s, choices[0]);
      SaidSoStays(s1, choices[1..]);
    }
  }

  lemma StepSaysSo(s: State, c: Choice)
    requires Inv(s) && OffIfSaidSo(s)
    ensures OffIfSaidSo(Step(s, c))
  {
    hide Inv, JmStep;
    if c.Jm? {
      if !s.pc.Idle? && JmStep(s, c.ok, c.bit).pc.Idle? { ReturnsTruly(s, c.ok, c.bit); }
      IdleStays(s, c.ok, c.bit);
    }
  }

  lemma IdleStays(s: State, ok: bool, bit: bool)
    ensures s.pc.Idle? ==> JmStep(s, ok, bit) == s
  {
  }

  /** Over every run, from the return of a command that says "halted", or that the
      hypervisor died, there is no hypervisor until the next command. */
  lemma HaltedIsOff(s: State, choices: seq<Choice>)
    requires Init(s)
    ensures var t := Run(s, choices);
      t.pc == Idle(Halted) || t.pc == Idle(Died) ==> t.w.qemu.Off?
  {
    InitHolds(s);
    SaidSoStays(s, choices);
  }

  /** A cold boot that is past its sweep for orphans has nothing saved left. */
  predicate Swept(s: State) {
    && (s.pc.Booting? && s.pc.bat.BootTmp? && s.pc.bat.clean ==> s.w.dir.image.None?)
    && (s.pc.Booting? && (s.pc.bat.BootArgv? || s.pc.bat.BootLaunch?) ==>
          s.w.dir.image.None? && s.w.dir.tmp.None?)
  }

  lemma BootStepSweeps(w: World, at: BootAt, ok: bool, bit: bool)
    requires Swept(State(w, Booting(at)))
    ensures Swept(BootStep(w, at, ok, bit))
  {
  }

  /** A boot begins at one of its looks at the machine, whatever leads to it. */
  predicate AtCheck(s: State) { s.pc.Booting? ==> s.pc.bat.BootCheck? || s.pc.bat.BootState? }

  lemma RecoverComesToCheck(w: World, goal: Goal, at: RecoverAt, ok: bool, bit: bool)
    ensures AtCheck(RecoverStep(w, goal, at, ok, bit))
  {
  }

  lemma RepairComesToCheck(w: World, who: By, at: RepairAt, ok: bool, bit: bool)
    ensures AtCheck(RepairStep(w, who, at, ok, bit))
  {
  }

  lemma DiscardComesToCheck(w: World, who: By, at: DiscardAt, ok: bool, bit: bool)
    ensures AtCheck(DiscardStep(w, who, at, ok, bit))
  {
  }

  lemma SuspendNeverBoots(w: World, at: SuspendAt, ok: bool, bit: bool)
    ensures AtCheck(SuspendStep(w, at, ok, bit))
  {
  }

  lemma WakeNeverBoots(w: World, goal: Goal, at: WakeAt, ok: bool, bit: bool)
    ensures AtCheck(WakeStep(w, goal, at, ok, bit))
  {
  }

  lemma JmComesToCheck(s: State, ok: bool, bit: bool)
    requires !s.pc.Booting?
    ensures AtCheck(JmStep(s, ok, bit))
  {
    hide RecoverStep, RepairStep, DiscardStep, SuspendStep, WakeStep;
    match s.pc
    case Idle(_) =>
    case Recovering(goal, at) => RecoverComesToCheck(s.w, goal, at, ok, bit);
    case Repairing(who, at) => RepairComesToCheck(s.w, who, at, ok, bit);
    case Discarding(who, at) => DiscardComesToCheck(s.w, who, at, ok, bit);
    case Suspending(at) => SuspendNeverBoots(s.w, at, ok, bit);
    case Waking(goal, at) => WakeNeverBoots(s.w, goal, at, ok, bit);
    case Stopping(force, at) =>
  }

  lemma JmStepSweeps(s: State, ok: bool, bit: bool)
    requires Swept(s)
    ensures Swept(JmStep(s, ok, bit))
  {
    hide BootStep, RecoverStep, RepairStep, DiscardStep, SuspendStep, WakeStep, StopStep;
    if s.pc.Booting? { BootStepSweeps(s.w, s.pc.bat, ok, bit); } else { JmComesToCheck(s, ok, bit); }
  }

  lemma StepSweeps(s: State, c: Choice)
    requires Inv(s) && Swept(s)
    ensures Swept(Step(s, c))
  {
    hide Inv, JmStep;
    if c.Jm? { JmStepSweeps(s, c.ok, c.bit); }
  }

  lemma {:induction false} RunSweeps(s: State, choices: seq<Choice>)
    requires Inv(s) && Swept(s)
    ensures Inv(Run(s, choices)) && Swept(Run(s, choices))
    decreases |choices|
  {
    if choices != [] {
      hide Inv, Swept;
      StepKeeps(s, choices[0]);
      StepSweeps(s, choices[0]);
      RunSweeps(Step(s, choices[0]), choices[1..]);
    }
  }

  /** Over every run a guest is booted cold only where there is no hypervisor and
      neither a journal nor an image is left. */
  lemma BootsOverNothingSaved(s: State, choices: seq<Choice>)
    requires Init(s)
    ensures var t := Run(s, choices);
      t.pc == Booting(BootLaunch) ==> t.w.qemu.Off? && t.w.dir == Dir(NoJournal, None, None)
  {
    InitHolds(s);
    RunSweeps(s, choices);
  }
}
