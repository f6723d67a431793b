/**
  A continued guest always matches its disk.

  A saved image is the guest as its disk was then. Loading it beside a disk
  that has been written since would corrupt the guest, so what must hold is
  that a saved pair which jm could load, now or after any power loss, is
  either of the present disk or carries a fingerprint that gives it away.

  One step can break that: a cold boot while an unlinked saved journal is not
  yet durably gone and has no fingerprint. Every other step keeps it.
 */
module SuspendCoherence {
  import opened Base
  import opened SuspendWorld
  import opened SuspendSteps
  import opened SuspendInvariant

  predicate SavedFresh(files: map<nat, Content>, disk: nat, d: Dir) {
    d.journal.Saved? && d.journal.save in files ==>
      && (d.journal.mark.Some? ==> d.journal.mark.value == files[d.journal.save].version)
      && (Naked(d) ==> files[d.journal.save].version == disk)
  }

  predicate AllFresh(ds: set<Dir>, files: map<nat, Content>, disk: nat) {
    forall d :: d in ds ==> SavedFresh(files, disk, d)
  }

  /** The visible saved journal, if any, commits an image of the present disk. */
  predicate NowFresh(w: World) {
    w.dir.journal.Saved? && w.dir.journal.save in w.files ==> w.files[w.dir.journal.save].version == w.disk
  }

  predicate ImageFresh(w: World, s: nat) {
    s in w.files ==> w.files[s].version == w.disk
  }

  /** The guest in memory, and what `cont` would let loose. */
  predicate GuestFresh(w: World) {
    w.qemu.On? ==>
      && (!w.qemu.mode.InMigrate? ==> w.qemu.mem == w.disk)
      && (w.qemu.mode.InMigrate? || w.qemu.mode.Loaded? || w.qemu.mode.PostMigrate? ==> NowFresh(w))
      && (w.qemu.transfer.Receiving? || w.qemu.transfer.Sent? ==> ImageFresh(w, w.qemu.transfer.save))
      && (w.qemu.mode.Running? || w.qemu.mode.Paused? || (w.qemu.mode.PostMigrate? && !w.dir.journal.Saved?)
          ==> NoNaked(w.survivors))
  }

  predicate LogFresh(log: seq<Continued>) {
    forall i :: 0 <= i < |log| ==> log[i].coherent
  }

  predicate PcFresh(w: World, pc: Pc) {
    match pc
    case Suspending(at) =>
      (match at
       case SyncImage(s) => ImageFresh(w, s)
       case RenameImage(s) => ImageFresh(w, s)
       case SyncRename(s) => ImageFresh(w, s)
       case WriteSaved(s) => ImageFresh(w, s)
       case SyncSaved(_) => NowFresh(w)
       case Reread(_) => NowFresh(w)
       case Quit(_) => NowFresh(w)
       case QuitPid(_) => NowFresh(w)
       case Print(_) => NowFresh(w)
       case _ => true)
    case Recovering(_, at) =>
      at.SavedStatus? || at.SavedKill? || at.SavedPid? || at.SavedPrint? ==> NowFresh(w)
    case Waking(_, at) =>
      !at.Validate? && !at.Rejected? ==> NowFresh(w)
    case _ => true
  }

  predicate Fresh(w: World) {
    AllFresh(w.survivors, w.files, w.disk) && GuestFresh(w) && LogFresh(w.log)
  }

  predicate Coherent(s: State) {
    Fresh(s.w) && PcFresh(s.w, s.pc)
  }

  /** A cold boot that lets a guest write a disk whose old saved pair a power
      loss could still bring back, unprotected. */
  predicate Reckless(s: State, c: Choice) {
    c.Jm? && c.ok && s.pc == Booting(BootLaunch) && !NoNaked(s.w.survivors)
  }

  lemma MutateFresh(w: World, op: DirOp)
    requires AllFresh(w.survivors, w.files, w.disk)
    requires op.PutJournal? && op.journal.Saved? ==>
      op.journal.save in w.files && w.files[op.journal.save].version == w.disk &&
      (op.journal.mark.Some? ==> op.journal.mark.value == w.disk)
    requires op.RenameTmp? ==> NoSaved(w.survivors)
    ensures AllFresh(Mutate(w, op).survivors, w.files, w.disk)
    ensures NoNaked(w.survivors) && !(op.PutJournal? && op.journal.Saved? && op.journal.mark.None?) ==>
      NoNaked(Mutate(w, op).survivors)
  {
    var w' := Mutate(w, op);
    forall d' | d' in w'.survivors
      ensures SavedFresh(w.files, w.disk, d')
      ensures NoNaked(w.survivors) && !(op.PutJournal? && op.journal.Saved? && op.journal.mark.None?) ==> !Naked(d')
    {
      if d' !in w.survivors {
        var d :| d in w.survivors && d' == Apply(op, d);
        assert SavedFresh(w.files, w.disk, d);
      }
    }
  }

  lemma ContFresh(w: World)
    requires Fresh(w) && w.qemu.On? && !w.qemu.mode.InMigrate?
    requires w.qemu.mode.Loaded? ==> NoSaved(w.survivors)
    requires !w.dir.journal.Saved?
    ensures Fresh(Cont(w))
  {
  }

  lemma MarkFresh(w: World)
    requires Global(w) && Fresh(w) && NowFresh(w) && w.dir.journal.Saved?
    ensures var op := PutJournal(w.dir.journal.(mark := Some(w.disk)));
      && AllFresh(Mutate(w, op).survivors, w.files, w.disk)
      && (NoNaked(w.survivors) ==> NoNaked(Mutate(w, op).survivors))
  {
    assert SavedOk(w.files, Taken(w.log), w.dir);
    MutateFresh(w, PutJournal(w.dir.journal.(mark := Some(w.disk))));
  }

  lemma RecoverReadFresh(w: World, goal: Goal, at: RecoverAt, ok: bool, bit: bool)
    requires Inv(State(w, Recovering(goal, at))) && Coherent(State(w, Recovering(goal, at)))
    requires at.ReadJournal? || at.QueryStatus? || at.Done? || at.GaveUp? || InSaved(at)
    ensures Coherent(RecoverStep(w, goal, at, ok, bit))
  {
    if at.SavedPrint? { MarkFresh(w); }
  }

  lemma RecoverContFresh(w: World, goal: Goal, at: RecoverAt, ok: bool, bit: bool)
    requires Inv(State(w, Recovering(goal, at))) && Coherent(State(w, Recovering(goal, at)))
    requires at.SavingCont? || at.IncomingCont?
    ensures Coherent(RecoverStep(w, goal, at, ok, bit))
  {
    if w.qemu.On? { ContFresh(w); }
  }

  lemma RecoverRestFresh(w: World, goal: Goal, at: RecoverAt, ok: bool, bit: bool)
    requires Inv(State(w, Recovering(goal, at))) && Coherent(State(w, Recovering(goal, at)))
    requires !at.ReadJournal? && !at.QueryStatus? && !at.Done? && !at.GaveUp? && !InSaved(at)
    requires !at.SavingCont? && !at.IncomingCont?
    ensures Coherent(RecoverStep(w, goal, at, ok, bit))
  {
    hide LogOk, FilesOk, RepairInv, DiscardInv, SuspendInv, WakeInv, BootInv, StopInv;
    MutateFresh(w, if at.BadAside? then DropJournal
                   else if at.SweepImage? || at.IncomingImage? || at.StrayImage? then DropImage
                   else DropTmp);
  }

  lemma RepairStepFresh(w: World, who: By, at: RepairAt, ok: bool, bit: bool)
    requires Inv(State(w, Repairing(who, at))) && Coherent(State(w, Repairing(who, at)))
    ensures Coherent(RepairStep(w, who, at, ok, bit))
  {
    MutateFresh(w, if at.SetAside? then DropJournal else if at.OrphanImage? then DropImage else DropTmp);
  }

  lemma DiscardStepFresh(w: World, who: By, at: DiscardAt, ok: bool, bit: bool)
    requires Inv(State(w, Discarding(who, at))) && Coherent(State(w, Discarding(who, at)))
    ensures Coherent(DiscardStep(w, who, at, ok, bit))
  {
    MutateFresh(w, if at.Unlink? then DropJournal else if at.RemoveImage? then DropImage else DropTmp);
  }

  lemma PrepareFresh(w: World, at: SuspendAt, ok: bool, bit: bool)
    requires Inv(State(w, Suspending(at))) && Coherent(State(w, Suspending(at)))
    requires InPrepare(at)
    ensures Coherent(SuspendStep(w, at, ok, bit))
  {
    if at.WriteSaving? { MutateFresh(w, PutJournal(Saving)); }
  }

  lemma CreateFresh(w: World, ok: bool, bit: bool)
    requires Inv(State(w, Suspending(Create))) && Coherent(State(w, Suspending(Create)))
    ensures Coherent(SuspendStep(w, Create, ok, bit))
  {
    assert forall d :: d in w.survivors ==> SavedOk(w.files, Taken(w.log), d) && SavedFresh(w.files, w.disk, d);
    var w1 := w.(files := w.files[w.nextSave := Content(0, 0, false, false)], nextSave := w.nextSave + 1);
    assert AllFresh(w1.survivors, w1.files, w1.disk);
    MutateFresh(w1, PutTmp(w.nextSave));
  }

  lemma SaveFresh(w: World, at: SuspendAt, ok: bool, bit: bool)
    requires Inv(State(w, Suspending(at))) && Coherent(State(w, Suspending(at))) && InSave(at)
    ensures Coherent(SuspendStep(w, at, ok, bit))
  {
    assert forall d :: d in w.survivors ==> SavedOk(w.files, Taken(w.log), d) && SavedFresh(w.files, w.disk, d);
  }

  lemma RenameFresh(w: World, at: SuspendAt, ok: bool, bit: bool)
    requires Inv(State(w, Suspending(at))) && Coherent(State(w, Suspending(at)))
    requires at.RenameImage? || at.SyncRename?
    ensures Coherent(SuspendStep(w, at, ok, bit))
  {
    hide LogOk, FilesOk, RecoverInv, RepairInv, DiscardInv, WakeInv, BootInv, StopInv;
    if at.RenameImage? { MutateFresh(w, RenameTmp(at.save)); }
  }

  lemma WriteSavedFresh(w: World, s: nat, ok: bool, bit: bool)
    requires Inv(State(w, Suspending(WriteSaved(s)))) && Coherent(State(w, Suspending(WriteSaved(s))))
    ensures Coherent(SuspendStep(w, WriteSaved(s), ok, bit))
  {
    hide LogOk, FilesOk, RecoverInv, RepairInv, DiscardInv, WakeInv, BootInv, StopInv;
    MutateFresh(w, PutJournal(Saved(s, w.files[s].size, None)));
  }

  lemma PrintFresh(w: World, s: nat, ok: bool, bit: bool)
    requires Inv(State(w, Suspending(Print(s)))) && Coherent(State(w, Suspending(Print(s))))
    ensures Coherent(SuspendStep(w, Print(s), ok, bit))
  {
    MarkFresh(w);
  }

  lemma EndFresh(w: World, at: SuspendAt, ok: bool, bit: bool)
    requires Inv(State(w, Suspending(at))) && Coherent(State(w, Suspending(at)))
    requires InEnd(at) && !at.Print?
    ensures Coherent(SuspendStep(w, at, ok, bit))
  {
    hide LogOk, FilesOk, RecoverInv, RepairInv, DiscardInv, WakeInv, BootInv, StopInv;
  }

  lemma CommitFresh(w: World, at: SuspendAt, ok: bool, bit: bool)
    requires Inv(State(w, Suspending(at))) && Coherent(State(w, Suspending(at)))
    requires InCommit(at) || InEnd(at)
    ensures Coherent(SuspendStep(w, at, ok, bit))
  {
    hide Inv, Coherent, SuspendStep;
    match at
    case WriteSaved(s) => WriteSavedFresh(w, s, ok, bit);
    case Print(s) => PrintFresh(w, s, ok, bit);
    case _ => if InEnd(at) { EndFresh(w, at, ok, bit); } else { RenameFresh(w, at, ok, bit); }
  }

  lemma RollBackContFresh(w: World, ok: bool, bit: bool)
    requires Inv(State(w, Suspending(RollBackCont))) && Coherent(State(w, Suspending(RollBackCont)))
    ensures Coherent(SuspendStep(w, RollBackCont, ok, bit))
  {
    if w.qemu.On? { ContFresh(w); }
  }

  lemma RollBackFresh(w: World, at: SuspendAt, ok: bool, bit: bool)
    requires Inv(State(w, Suspending(at))) && Coherent(State(w, Suspending(at)))
    requires InRollBack(at) && !at.RollBackCont?
    ensures Coherent(SuspendStep(w, at, ok, bit))
  {
    MutateFresh(w, if at.RollBackImage? then DropImage else DropTmp);
  }

  lemma TroubleFresh(w: World, at: SuspendAt, ok: bool, bit: bool)
    requires Inv(State(w, Suspending(at))) && Coherent(State(w, Suspending(at))) && InTrouble(at)
    ensures Coherent(SuspendStep(w, at, ok, bit))
  {
    MutateFresh(w, DropTmp);
  }

  lemma WakeBeginFresh(w: World, goal: Goal, at: WakeAt, ok: bool, bit: bool)
    requires Inv(State(w, Waking(goal, at))) && Coherent(State(w, Waking(goal, at))) && (InLaunch(at) || InLoad(at))
    ensures Coherent(WakeStep(w, goal, at, ok, bit))
  {
    hide LogOk, FilesOk, RecoverInv, RepairInv, DiscardInv, SuspendInv, BootInv, StopInv;
    assert SavedOk(w.files, Taken(w.log), w.dir) && SavedFresh(w.files, w.disk, w.dir);
  }

  lemma WakeContFresh(w: World, goal: Goal, ok: bool, bit: bool)
    requires Inv(State(w, Waking(goal, WakeCont))) && Coherent(State(w, Waking(goal, WakeCont)))
    ensures Coherent(WakeStep(w, goal, WakeCont, ok, bit))
  {
    if w.qemu.On? { ContFresh(w); }
  }

  lemma WakeEndFresh(w: World, goal: Goal, at: WakeAt, ok: bool, bit: bool)
    requires Inv(State(w, Waking(goal, at))) && Coherent(State(w, Waking(goal, at)))
    requires !InLaunch(at) && !InLoad(at) && !at.WakeCont?
    ensures Coherent(WakeStep(w, goal, at, ok, bit))
  {
    hide LogOk, FilesOk, RecoverInv, RepairInv, DiscardInv, SuspendInv, BootInv, StopInv;
    MutateFresh(w, if at.WakeUnlink? then DropJournal else if at.WakeImage? then DropImage else DropTmp);
  }

  lemma WakeStepFresh(w: World, goal: Goal, at: WakeAt, ok: bool, bit: bool)
    requires Inv(State(w, Waking(goal, at))) && Coherent(State(w, Waking(goal, at)))
    ensures Coherent(WakeStep(w, goal, at, ok, bit))
  {
    hide Inv, Coherent, WakeStep;
    if InLaunch(at) || InLoad(at) { WakeBeginFresh(w, goal, at, ok, bit); }
    else if at.WakeCont? { WakeContFresh(w, goal, ok, bit); }
    else { WakeEndFresh(w, goal, at, ok, bit); }
  }

  lemma BootStepFresh(w: World, at: BootAt, ok: bool, bit: bool)
    requires Inv(State(w, Booting(at))) && Coherent(State(w, Booting(at)))
    requires !Reckless(State(w, Booting(at)), Jm(ok, bit))
    ensures Coherent(BootStep(w, at, ok, bit))
  {
    MutateFresh(w, if at.BootImage? then DropImage else DropTmp);
  }

  lemma RecoverStepFresh(w: World, goal: Goal, at: RecoverAt, ok: bool, bit: bool)
    requires Inv(State(w, Recovering(goal, at))) && Coherent(State(w, Recovering(goal, at)))
    ensures Coherent(RecoverStep(w, goal, at, ok, bit))
  {
    hide Inv, Coherent, RecoverStep;
    if at.ReadJournal? || at.QueryStatus? || at.Done? || at.GaveUp? || InSaved(at) {
      RecoverReadFresh(w, goal, at, ok, bit);
    } else if at.SavingCont? || at.IncomingCont? {
      RecoverContFresh(w, goal, at, ok, bit);
    } else {
      RecoverRestFresh(w, goal, at, ok, bit);
    }
  }

  lemma SuspendStepFresh(w: World, at: SuspendAt, ok: bool, bit: bool)
    requires Inv(State(w, Suspending(at))) && Coherent(State(w, Suspending(at)))
    ensures Coherent(SuspendStep(w, at, ok, bit))
  {
    hide Inv, Coherent, SuspendStep;
    if InPrepare(at) { PrepareFresh(w, at, ok, bit); }
    else if at.Create? { CreateFresh(w, ok, bit); }
    else if InSave(at) { SaveFresh(w, at, ok, bit); }
    else if InCommit(at) || InEnd(at) { CommitFresh(w, at, ok, bit); }
    else if at.RollBackCont? { RollBackContFresh(w, ok, bit); }
    else if InTrouble(at) { TroubleFresh(w, at, ok, bit); }
    else { RollBackFresh(w, at, ok, bit); }
  }

  lemma StopStepFresh(w: World, force: bool, at: StopAt, ok: bool, bit: bool)
    requires Coherent(State(w, Stopping(force, at)))
    ensures Coherent(StopStep(w, force, at, ok, bit))
  {
  }

  lemma JmStepFresh(s: State, ok: bool, bit: bool)
    requires Inv(s) && Coherent(s) && !Reckless(s, Jm(ok, bit))
    ensures Coherent(JmStep(s, ok, bit))
  {
    hide Inv, Coherent, RecoverStep, RepairStep, DiscardStep, SuspendStep, WakeStep, BootStep, StopStep;
    match s.pc
    case Idle(_) =>
    case Recovering(goal, at) => RecoverStepFresh(s.w, goal, at, ok, bit);
    case Repairing(who, at) => RepairStepFresh(s.w, who, at, ok, bit);
    case Discarding(who, at) => DiscardStepFresh(s.w, who, at, ok, bit);
    case Suspending(at) => SuspendStepFresh(s.w, at, ok, bit);
    case Waking(goal, at) => WakeStepFresh(s.w, goal, at, ok, bit);
    case Booting(at) => BootStepFresh(s.w, at, ok, bit);
    case Stopping(force, at) => StopStepFresh(s.w, force, at, ok, bit);
  }

  lemma HappensFresh(s: State, e: Event)
    requires Inv(s) && Coherent(s)
    ensures Coherent(State(Happens(s.w, e), s.pc))
  {
    var w := s.w;
    assert forall d :: d in w.survivors ==> SavedOk(w.files, Taken(w.log), d) && SavedFresh(w.files, w.disk, d);
  }

  lemma LosePowerFresh(w: World, d: Dir, torn: nat, pid: bool, incoming: bool)
    requires Global(w) && Fresh(w) && d in w.survivors
    ensures Fresh(LosePower(w, d, torn, pid, incoming))
  {
    assert SavedOk(w.files, Taken(w.log), d) && SavedFresh(w.files, w.disk, d);
  }

  lemma StepFresh(s: State, c: Choice)
    requires Inv(s) && Coherent(s) && !Reckless(s, c)
    ensures Coherent(Step(s, c))
  {
    match c
    case Begin(_) =>
    case Jm(ok, bit) => JmStepFresh(s, ok, bit);
    case Env(e) => HappensFresh(s, e);
    case CorruptJournal =>
    case Kill =>
    case PowerLoss(d, torn, pid, incoming) =>
      if d in s.w.survivors { LosePowerFresh(s.w, d, torn, pid, incoming); }
  }

  /** A run none of whose steps is a reckless boot. */
  predicate Careful(s: State, choices: seq<Choice>)
    decreases |choices|
  {
    choices == [] || (!Reckless(s, choices[0]) && Careful(Step(s, choices[0]), choices[1..]))
  }

  lemma {:induction false} RunFresh(s: State, choices: seq<Choice>)
    requires Inv(s) && Coherent(s) && Careful(s, choices)
    ensures Coherent(Run(s, choices))
    decreases |choices|
  {
    hide Inv, Coherent, Reckless;
    if choices != [] {
      StepFresh(s, choices[0]);
      StepKeeps(s, choices[0]);
      RunFresh(Step(s, choices[0]), choices[1..]);
    }
  }
}
