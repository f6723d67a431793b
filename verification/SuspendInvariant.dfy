/**
  What holds after every effect of every command, whatever fails, whenever jm
  is killed or the power goes.
 */
module SuspendInvariant {
  import opened Base
  import opened SuspendWorld
  import opened SuspendSteps

  /** A saved journal that exists, or that a power loss could bring back,
      commits a finished and synced image that was never continued; the image
      entry beside it is that image or nothing. */
  predicate SavedOk(files: map<nat, Content>, taken: set<nat>, d: Dir) {
    d.journal.Saved? ==>
      var s := d.journal.save;
      && s in files && files[s].whole && files[s].synced
      && files[s].size == d.journal.size && d.journal.size > 0
      && (d.image.None? || d.image == Some(s))
      && s !in taken
  }

  predicate SurvivorsOk(dir: Dir, ds: set<Dir>, files: map<nat, Content>, taken: set<nat>) {
    && dir in ds
    && (forall d :: d in ds ==> SavedOk(files, taken, d))
    && (dir.journal.Bad? ==> NoSaved(ds))
    && (dir.journal.Saved? ==> ImagesAre(ds, dir.journal.save))
  }

  /** Every image entry a power loss could leave names save s. */
  predicate ImagesAre(ds: set<Dir>, s: nat) {
    forall d :: d in ds ==> d.image.None? || d.image == Some(s)
  }

  predicate TransferOk(w: World)
    requires w.qemu.On?
  {
    match w.qemu.transfer
    case Quiet => true
    case Sending(s) =>
      && s in w.files && !w.files[s].whole
      && (w.qemu.mode.Paused? || (w.qemu.mode.Running? && w.dir.journal.NoJournal? && w.aside))
    case Sent(s) => w.qemu.mode.PostMigrate? && s in w.files && w.files[s].whole
    case Receiving(s) =>
      && w.qemu.mode.InMigrate? && s in w.files && s !in Taken(w.log)
      && (w.dir.journal.Saved? ==> s == w.dir.journal.save)
  }

  /** The modes a live hypervisor can be in beside each journal. */
  predicate QemuOk(w: World) {
    w.qemu.On? ==>
      && TransferOk(w)
      && (match w.dir.journal
          case Saved(s, _, _) => w.qemu.mode.PostMigrate? || w.qemu.mode.InMigrate? || w.qemu.mode == Loaded(s)
          case Saving => w.qemu.mode.Running? || w.qemu.mode.Paused? || w.qemu.mode.PostMigrate?
          case NoJournal => w.qemu.mode.Running? || w.qemu.mode.Loaded? || w.aside
          case Bad => true)
      && (w.qemu.mode.InMigrate? || w.qemu.mode.Loaded? ==> w.incoming)
      && (w.qemu.mode.Loaded? ==> w.qemu.mode.save in w.files && w.qemu.mode.save !in Taken(w.log))
  }

  /** `cont` was never sent under a saved journal; a guest loaded from an image
      was continued only once no power loss could bring its journal back; no
      image was continued twice. */
  predicate LogOk(log: seq<Continued>) {
    && (forall i :: 0 <= i < |log| ==> !log[i].journal.Saved? && (log[i].image.Some? ==> !log[i].exposed))
    && (forall i, j :: 0 <= i < j < |log| && log[i].image.Some? && log[j].image.Some? ==> log[i].image != log[j].image)
  }

  predicate FilesOk(files: map<nat, Content>, nextSave: nat, taken: set<nat>) {
    && (forall s :: s in files ==> s < nextSave)
    && taken <= files.Keys
  }

  predicate Global(w: World) {
    && SurvivorsOk(w.dir, w.survivors, w.files, Taken(w.log))
    && QemuOk(w)
    && LogOk(w.log)
    && FilesOk(w.files, w.nextSave, Taken(w.log))
    && w.memory > 0
  }

  // ----- What each point of a command may rely on -----

  /** A live hypervisor is the one its pid file names. */
  predicate Named(w: World) { w.qemu.On? ==> w.pid }

  predicate RunsOrOff(w: World) { w.qemu.On? ==> w.qemu.mode.Running? && w.qemu.transfer.Quiet? }

  /** A guest that was continued while its save was still being sent may be
      frozen again by the end of that save. */
  predicate ContinuedOrOff(w: World) {
    w.qemu.On? ==>
      || (w.qemu.mode.Running? && (w.qemu.transfer.Quiet? || w.aside))
      || (w.qemu.mode.PostMigrate? && w.aside)
  }

  predicate PausedOrOff(w: World) { w.qemu.On? ==> w.qemu.mode.Paused? && w.qemu.transfer.Quiet? }

  predicate SentOrOff(w: World) { w.qemu.On? ==> w.qemu.mode.PostMigrate? }

  predicate FrozenOrOff(w: World) {
    w.qemu.On? ==> w.qemu.mode.Paused? || w.qemu.mode.PostMigrate? || w.qemu.mode.Loaded?
  }

  /** No save is being sent. */
  predicate NotSending(w: World) { w.qemu.On? ==> !w.qemu.transfer.Sending? }

  predicate EmptyOrOff(w: World) { w.qemu.On? ==> w.qemu.mode.InMigrate? && w.qemu.transfer.Quiet? }

  predicate LoadingOrOff(w: World) { w.qemu.On? ==> w.qemu.mode.InMigrate? || w.qemu.mode.Loaded? }

  predicate LoadedOrOff(w: World) { w.qemu.On? ==> w.qemu.mode.Loaded? }

  predicate StatusFits(w: World, status: Status) {
    match status
    case IsRunning => RunsOrOff(w)
    case IsFrozen => FrozenOrOff(w)
    case IsIncoming => LoadingOrOff(w)
  }

  /** No power loss brings anything back. */
  predicate Synced(w: World) { w.survivors == {w.dir} }

  predicate NoJournalLeft(w: World) { w.dir.journal.NoJournal? && NoSaved(w.survivors) }

  /** A saved journal with its image beside it. */
  predicate Paired(w: World) { w.dir.journal.Saved? && w.dir.image == Some(w.dir.journal.save) }

  /** Between a durable "saving" journal and the commit. */
  predicate Open(w: World) { w.dir.journal.Saving? && NoSaved(w.survivors) }

  /** The journal of a suspend under way, or a bad one that was set aside. */
  predicate Uncommitted(w: World) { w.dir.journal.Saving? || (NoJournalLeft(w) && w.aside) }

  predicate WrittenImage(w: World, s: nat) { s in w.files && s !in Taken(w.log) }

  predicate FinishedImage(w: World, s: nat) { WrittenImage(w, s) && w.files[s].whole }

  predicate DurableImage(w: World, s: nat) {
    FinishedImage(w, s) && w.files[s].synced && w.files[s].size >= w.memory
  }

  /** What a recovery's action says of the machine it leaves. */
  predicate ActionMeans(w: World, a: Action) {
    match a
    case ActNone => w.dir.journal.NoJournal?
    case ResumedGuest => w.dir.journal.NoJournal? && ContinuedOrOff(w)
    case Suspended => w.qemu.Off? && Paired(w)
    case Discarded => w.qemu.Off? && w.dir.journal.NoJournal?
  }

  /** A recovery inside a rollback starts from a "saving" journal and so never
      takes the branches for the others. */
  predicate RollBackInv(w: World, at: RecoverAt) {
    match at
    case ReadJournal => w.dir.journal.Saving?
    case QueryStatus => w.dir.journal.Saving?
    case SavingCancel => true
    case SavingTmp => true
    case SavingCont => true
    case SavingKill => true
    case SavingPid => true
    case Done(a) => !a.ActNone? && RunsOrOff(w)
    case GaveUp => true
    case _ => false
  }

  predicate RecoverInv(w: World, goal: Goal, at: RecoverAt) {
    && Named(w)
    && (goal.ToRollBack? ==> RollBackInv(w, at))
    && match at
       case ReadJournal => true
       case QueryStatus => !w.dir.journal.Saved?
       case SweepImage => w.dir.journal.NoJournal?
       case SweepTmp => w.dir.journal.NoJournal?
       case SavedStatus => w.dir.journal.Saved?
       case SavedKill => w.dir.journal.Saved?
       case SavedPid => w.dir.journal.Saved? && w.qemu.Off?
       case SavedPrint => w.dir.journal.Saved? && w.qemu.Off? && !w.pid
       case SavedPrintSync => w.dir.journal.Saved? && w.qemu.Off? && !w.pid
       case BadAside(status) => w.dir.journal.Bad? && StatusFits(w, status)
       case BadAsideSync(status) => NoJournalLeft(w) && w.aside && StatusFits(w, status)
       case SavingCancel => Uncommitted(w) && FrozenOrOff(w)
       case SavingTmp => Uncommitted(w) && FrozenOrOff(w) && NotSending(w)
       case SavingCont => Uncommitted(w) && FrozenOrOff(w) && NotSending(w)
       case SavingKill => Uncommitted(w) && LoadingOrOff(w)
       case SavingPid => Uncommitted(w) && w.qemu.Off?
       case IncomingSync => w.dir.journal.NoJournal? && FrozenOrOff(w)
       case IncomingCont => w.dir.journal.NoJournal? && FrozenOrOff(w) && Synced(w)
       case IncomingImage => NoJournalLeft(w) && ContinuedOrOff(w)
       case IncomingTmp => NoJournalLeft(w) && ContinuedOrOff(w)
       case StrayKill => w.dir.journal.NoJournal?
       case StrayPid => w.dir.journal.NoJournal? && w.qemu.Off?
       case StrayImage => w.dir.journal.NoJournal? && w.qemu.Off?
       case StrayTmp(_) => w.dir.journal.NoJournal? && w.qemu.Off?
       case Done(a) => ActionMeans(w, a)
       case GaveUp => true
  }

  predicate RepairInv(w: World, who: By, at: RepairAt) {
    && (who.ByRecover? || who.ByBoot? || who.ByStop? || (who.ByRecoverSaved? && !who.goal.ToRollBack?))
    && w.qemu.Off?
    && (at.RepairPid? || !w.pid)
    && match at
       case RepairPid => true
       case Examine => true
       case SetAside => w.dir.journal.Bad?
       case SetAsideSync => NoJournalLeft(w)
       case OrphanImage => w.dir.journal.NoJournal?
       case OrphanTmp(_) => w.dir.journal.NoJournal?
       case KeepPair => Paired(w)
  }

  predicate DiscardInv(w: World, who: By, at: DiscardAt) {
    && Named(w)
    && !who.ByViolation?
    && (if who.BySaving? || who.ByCancel? then RunsOrOff(w) else w.qemu.Off?)
    && match at
       case Unlink => true
       case SyncUnlink => w.dir.journal.NoJournal?
       case RemoveImage => NoJournalLeft(w)
       case RemoveTmp(_) => NoJournalLeft(w)
  }

  predicate SuspendInv(w: World, at: SuspendAt) {
    && Named(w)
    && match at
       case CheckRunning => true
       case WriteSaving => w.dir.journal.NoJournal? && RunsOrOff(w)
       case SyncSaving => w.dir.journal.Saving? && RunsOrOff(w)
       case HandEndpoints => Open(w) && RunsOrOff(w)
       case SetUp => Open(w) && RunsOrOff(w)
       case Freeze => Open(w) && RunsOrOff(w)
       case Create => Open(w) && PausedOrOff(w)
       case Migrate(s) => Open(w) && PausedOrOff(w) && WrittenImage(w, s) && !w.files[s].whole
       case Poll(s) => Open(w) && FrozenOrOff(w) && WrittenImage(w, s)
       case SyncImage(s) => Open(w) && SentOrOff(w) && FinishedImage(w, s)
       case RenameImage(s) => Open(w) && SentOrOff(w) && DurableImage(w, s)
       case SyncRename(s) => Open(w) && SentOrOff(w) && DurableImage(w, s) && w.dir.image == Some(s)
       case WriteSaved(s) =>
         Open(w) && SentOrOff(w) && DurableImage(w, s) && w.dir.image == Some(s) && Synced(w)
       case SyncSaved(_) => w.dir.journal.Saved? && SentOrOff(w)
       case Reread(_) => (w.dir.journal.Saved? || Open(w)) && SentOrOff(w)
       case Quit(_) => w.dir.journal.Saved? && SentOrOff(w)
       case QuitPid(_) => w.dir.journal.Saved? && w.qemu.Off?
       case Print(_) => w.dir.journal.Saved? && w.qemu.Off?
       case SyncPrint(_) => w.dir.journal.Saved? && w.qemu.Off?
       case RollBack => Open(w)
       case RollBackCancel => Open(w)
       case RollBackImage => Open(w) && NotSending(w)
       case RollBackTmp => Open(w) && NotSending(w)
       case RollBackCont => Open(w) && NotSending(w)
       case CrashTmp => Open(w) && w.qemu.Off?
       case CrashPid => Open(w) && w.qemu.Off?
       case AfterError(trouble) =>
         (match trouble
          case Crash => Open(w) && w.qemu.Off?
          case Refusal => Open(w) && RunsOrOff(w)
          case SaveFailed => w.dir.journal.Saved? || Open(w))
       case Cancel => RunsOrOff(w)
  }

  predicate WakeInv(w: World, goal: Goal, at: WakeAt) {
    && (goal.ToStart? || goal.ToStop?)
    && (at.AwaitIncoming? || at.WakeKill? || Named(w))
    && match at
       case Validate => w.qemu.Off?
       case WakePid => w.qemu.Off? && Paired(w)
       case WakeArgv => w.qemu.Off? && Paired(w) && !w.pid
       case WakeLaunch => w.qemu.Off? && Paired(w) && !w.pid && w.incoming
       case AwaitIncoming => Paired(w) && EmptyOrOff(w)
       case WakeSetUp => Paired(w) && EmptyOrOff(w)
       case Load => Paired(w) && EmptyOrOff(w)
       case AwaitLoaded => Paired(w) && LoadingOrOff(w)
       case WakeKill(_) => Paired(w) && LoadingOrOff(w)
       case Rejected => w.dir.journal.Saved? && w.qemu.Off?
       case WakeUnlink => Paired(w) && LoadedOrOff(w)
       case WakeSync => w.dir.journal.NoJournal? && LoadedOrOff(w)
       case WakeCont => w.dir.journal.NoJournal? && LoadedOrOff(w) && Synced(w)
       case WakeImage => NoJournalLeft(w) && RunsOrOff(w)
       case WakeTmp => NoJournalLeft(w) && RunsOrOff(w)
  }

  predicate BootInv(w: World, at: BootAt) {
    match at
    case BootCheck => Named(w)
    case HaltGuest => Named(w)
    case HaltPid => w.qemu.Off?
    case BootState => w.qemu.Off?
    case BootImage => w.qemu.Off? && w.dir.journal.NoJournal? && !w.pid
    case BootTmp(_) => w.qemu.Off? && w.dir.journal.NoJournal? && !w.pid
    case BootArgv => w.qemu.Off? && w.dir.journal.NoJournal? && !w.pid
    case BootLaunch => w.qemu.Off? && w.dir.journal.NoJournal? && !w.pid
    case AwaitReady => w.dir.journal.NoJournal? && RunsOrOff(w)
  }

  predicate StopInv(w: World, at: StopAt) {
    match at
    case StopCheck => Named(w)
    case StopKill => Named(w)
    case StopPid => w.qemu.Off?
  }

  predicate Inv(s: State) {
    && Global(s.w)
    && match s.pc
       case Idle(_) => Named(s.w)
       case Recovering(goal, at) => RecoverInv(s.w, goal, at)
       case Repairing(who, at) => RepairInv(s.w, who, at)
       case Discarding(who, at) => DiscardInv(s.w, who, at)
       case Suspending(at) => SuspendInv(s.w, at)
       case Waking(goal, at) => WakeInv(s.w, goal, at)
       case Booting(at) => BootInv(s.w, at)
       case Stopping(_, at) => StopInv(s.w, at)
  }

  // ----- Effects -----

  /** A directory change keeps what is known of every survivor. */
  lemma MutateKeeps(w: World, op: DirOp)
    requires SurvivorsOk(w.dir, w.survivors, w.files, Taken(w.log))
    requires op.PutJournal? && op.journal.Saved? ==> ImagesAre(w.survivors, op.journal.save)
    requires op.PutJournal? && op.journal.Saved? ==> SavedOk(w.files, Taken(w.log), Apply(op, w.dir))
    requires op.PutJournal? ==> !op.journal.Bad?
    requires op.RenameTmp? ==> NoSaved(w.survivors)
    ensures var w' := Mutate(w, op);
      && SurvivorsOk(w'.dir, w'.survivors, w.files, Taken(w.log))
      && (NoSaved(w.survivors) && !(op.PutJournal? && op.journal.Saved?) ==> NoSaved(w'.survivors))
  {
    var w' := Mutate(w, op);
    forall d' | d' in w'.survivors
      ensures SavedOk(w.files, Taken(w.log), d')
      ensures NoSaved(w.survivors) && !(op.PutJournal? && op.journal.Saved?) ==> !d'.journal.Saved?
      ensures w'.dir.journal.Saved? ==> d'.image.None? || d'.image == Some(w'.dir.journal.save)
    {
      if d' !in w.survivors {
        var d :| d in w.survivors && d' == Apply(op, d);
        assert SavedOk(w.files, Taken(w.log), d);
      }
    }
  }

  lemma ContKeeps(w: World)
    requires Global(w) && w.qemu.On? && !w.dir.journal.Saved?
    requires !w.qemu.mode.InMigrate?
    requires w.qemu.mode.Loaded? ==> NoSaved(w.survivors)
    requires w.qemu.transfer.Sending? ==> w.dir.journal.NoJournal? && w.aside
    ensures Global(Cont(w))
  {
    var w' := Cont(w);
    var sent := w'.log[|w.log|];
    assert w'.log == w.log + [sent];
    assert Taken(w'.log) == Taken(w.log) + (if sent.image.Some? then {sent.image.value} else {});
    forall i | 0 <= i < |w.log| && w.log[i].image.Some? ensures w.log[i].image.value in Taken(w.log) {
      assert w.log[i] in w.log;
    }
    forall d | d in w'.survivors ensures SavedOk(w.files, Taken(w'.log), d) {
      assert SavedOk(w.files, Taken(w.log), d);
    }
  }

  lemma MarkKeeps(w: World)
    requires Global(w) && w.dir.journal.Saved?
    ensures Global(Mutate(w, PutJournal(w.dir.journal.(mark := Some(w.disk)))))
  {
    assert SavedOk(w.files, Taken(w.log), w.dir);
    MutateKeeps(w, PutJournal(w.dir.journal.(mark := Some(w.disk))));
  }

  lemma TidyKeeps(w: World, op: DirOp)
    requires Global(w) && (op.DropImage? || op.DropTmp?)
    ensures Global(Mutate(w, op))
    ensures NoSaved(w.survivors) ==> NoSaved(Mutate(w, op).survivors)
  {
    MutateKeeps(w, op);
  }

  lemma UnlinkedKeeps(w: World)
    requires Global(w) && (w.qemu.On? ==> w.qemu.mode.Running? || w.qemu.mode.Loaded?)
    requires w.qemu.On? && w.qemu.transfer.Sending? ==> w.aside
    ensures Global(Mutate(w, DropJournal))
    ensures NoSaved(w.survivors) ==> NoSaved(Mutate(w, DropJournal).survivors)
  {
    MutateKeeps(w, DropJournal);
  }

  lemma SetAsideDone(w: World)
    requires Global(w) && w.dir.journal.Bad?
    ensures Global(Mutate(w, DropJournal).(aside := true)) && NoSaved(Mutate(w, DropJournal).survivors)
  {
    MutateKeeps(w, DropJournal);
  }

  lemma SyncKeeps(w: World)
    requires Global(w)
    ensures Global(SyncDir(w))
  {
  }

  lemma OffKeeps(w: World, pid: bool)
    requires Global(w)
    ensures Global(w.(qemu := Off, pid := pid))
  {
  }

  lemma PidKeeps(w: World, pid: bool)
    requires Global(w)
    ensures Global(w.(pid := pid))
  {
  }

  // ----- Steps -----

  // One lemma per stretch of a command.

  lemma ReadJournalKeeps(w: World, goal: Goal, ok: bool, bit: bool)
    requires Inv(State(w, Recovering(goal, ReadJournal)))
    ensures Inv(RecoverStep(w, goal, ReadJournal, ok, bit))
  {
  }

  lemma QueryStatusKeeps(w: World, goal: Goal, ok: bool, bit: bool)
    requires Inv(State(w, Recovering(goal, QueryStatus)))
    ensures Inv(RecoverStep(w, goal, QueryStatus, ok, bit))
  {
  }

  lemma RecoverEndKeeps(w: World, goal: Goal, at: RecoverAt, ok: bool, bit: bool)
    requires Inv(State(w, Recovering(goal, at))) && (at.Done? || at.GaveUp?)
    ensures Inv(RecoverStep(w, goal, at, ok, bit))
  {
  }

  predicate InSaved(at: RecoverAt) {
    at.SavedStatus? || at.SavedKill? || at.SavedPid? || at.SavedPrint? || at.SavedPrintSync?
  }

  lemma RecoverSavedKeeps(w: World, goal: Goal, at: RecoverAt, ok: bool, bit: bool)
    requires Inv(State(w, Recovering(goal, at))) && InSaved(at)
    ensures Inv(RecoverStep(w, goal, at, ok, bit))
  {
    if at.SavedPrint? { MarkKeeps(w); }
  }

  predicate InAside(at: RecoverAt) {
    at.BadAside? || at.BadAsideSync? || at.SavingCancel?
  }

  predicate InSaving(at: RecoverAt) {
    at.SavingTmp? || at.SavingCont? || at.SavingKill? || at.SavingPid?
  }

  lemma SavingContKeeps(w: World, goal: Goal, ok: bool, bit: bool)
    requires Inv(State(w, Recovering(goal, SavingCont)))
    ensures Inv(RecoverStep(w, goal, SavingCont, ok, bit))
  {
    if w.qemu.On? { ContKeeps(w); }
  }

  predicate InIncoming(at: RecoverAt) {
    at.IncomingSync? || at.IncomingCont? || at.IncomingImage? || at.IncomingTmp?
  }

  lemma IncomingContKeeps(w: World, goal: Goal, ok: bool, bit: bool)
    requires Inv(State(w, Recovering(goal, IncomingCont)))
    ensures Inv(RecoverStep(w, goal, IncomingCont, ok, bit))
  {
    if w.qemu.On? { ContKeeps(w); }
    hide LogOk, FilesOk, SurvivorsOk, RepairInv, DiscardInv, SuspendInv, WakeInv, BootInv, StopInv;
  }

  lemma BadAsideKeeps(w: World, goal: Goal, status: Status, ok: bool, bit: bool)
    requires Inv(State(w, Recovering(goal, BadAside(status))))
    ensures Inv(RecoverStep(w, goal, BadAside(status), ok, bit))
  {
    SetAsideDone(w);
  }

  lemma BadAsideSyncKeeps(w: World, goal: Goal, status: Status, ok: bool, bit: bool)
    requires Inv(State(w, Recovering(goal, BadAsideSync(status))))
    ensures Inv(RecoverStep(w, goal, BadAsideSync(status), ok, bit))
  {
    SyncKeeps(w);
  }

  lemma SavingCancelKeeps(w: World, goal: Goal, ok: bool, bit: bool)
    requires Inv(State(w, Recovering(goal, SavingCancel)))
    ensures Inv(RecoverStep(w, goal, SavingCancel, ok, bit))
  {
  }

  lemma SavingTmpKeeps(w: World, goal: Goal, ok: bool, bit: bool)
    requires Inv(State(w, Recovering(goal, SavingTmp)))
    ensures Inv(RecoverStep(w, goal, SavingTmp, ok, bit))
  {
    TidyKeeps(w, DropTmp);
  }

  lemma SavingKillKeeps(w: World, goal: Goal, ok: bool, bit: bool)
    requires Inv(State(w, Recovering(goal, SavingKill)))
    ensures Inv(RecoverStep(w, goal, SavingKill, ok, bit))
  {
    OffKeeps(w, w.pid);
  }

  lemma SavingPidKeeps(w: World, goal: Goal, ok: bool, bit: bool)
    requires Inv(State(w, Recovering(goal, SavingPid)))
    ensures Inv(RecoverStep(w, goal, SavingPid, ok, bit))
  {
    PidKeeps(w, false);
  }

  lemma IncomingSyncKeeps(w: World, goal: Goal, ok: bool, bit: bool)
    requires Inv(State(w, Recovering(goal, IncomingSync)))
    ensures Inv(RecoverStep(w, goal, IncomingSync, ok, bit))
  {
    SyncKeeps(w);
  }

  lemma IncomingImageKeeps(w: World, goal: Goal, ok: bool, bit: bool)
    requires Inv(State(w, Recovering(goal, IncomingImage)))
    ensures Inv(RecoverStep(w, goal, IncomingImage, ok, bit))
  {
    TidyKeeps(w, DropImage);
  }

  lemma IncomingTmpKeeps(w: World, goal: Goal, ok: bool, bit: bool)
    requires Inv(State(w, Recovering(goal, IncomingTmp)))
    ensures Inv(RecoverStep(w, goal, IncomingTmp, ok, bit))
  {
    TidyKeeps(w, DropTmp);
  }

  lemma SweepImageKeeps(w: World, goal: Goal, ok: bool, bit: bool)
    requires Inv(State(w, Recovering(goal, SweepImage)))
    ensures Inv(RecoverStep(w, goal, SweepImage, ok, bit))
  {
    TidyKeeps(w, DropImage);
  }

  lemma SweepTmpKeeps(w: World, goal: Goal, ok: bool, bit: bool)
    requires Inv(State(w, Recovering(goal, SweepTmp)))
    ensures Inv(RecoverStep(w, goal, SweepTmp, ok, bit))
  {
    TidyKeeps(w, DropTmp);
  }

  lemma StrayKillKeeps(w: World, goal: Goal, ok: bool, bit: bool)
    requires Inv(State(w, Recovering(goal, StrayKill)))
    ensures Inv(RecoverStep(w, goal, StrayKill, ok, bit))
  {
    OffKeeps(w, w.pid);
  }

  lemma StrayPidKeeps(w: World, goal: Goal, ok: bool, bit: bool)
    requires Inv(State(w, Recovering(goal, StrayPid)))
    ensures Inv(RecoverStep(w, goal, StrayPid, ok, bit))
  {
    PidKeeps(w, false);
  }

  lemma StrayImageKeeps(w: World, goal: Goal, ok: bool, bit: bool)
    requires Inv(State(w, Recovering(goal, StrayImage)))
    ensures Inv(RecoverStep(w, goal, StrayImage, ok, bit))
  {
    TidyKeeps(w, DropImage);
  }

  lemma StrayTmpKeeps(w: World, goal: Goal, clean: bool, ok: bool, bit: bool)
    requires Inv(State(w, Recovering(goal, StrayTmp(clean))))
    ensures Inv(RecoverStep(w, goal, StrayTmp(clean), ok, bit))
  {
    TidyKeeps(w, DropTmp);
  }

  predicate InSweep(at: RecoverAt) {
    at.SweepImage? || at.SweepTmp? || at.StrayKill? || at.StrayPid? || at.StrayImage? || at.StrayTmp?
  }

  lemma RecoverSweepKeeps(w: World, goal: Goal, at: RecoverAt, ok: bool, bit: bool)
    requires Inv(State(w, Recovering(goal, at))) && InSweep(at)
    ensures Inv(RecoverStep(w, goal, at, ok, bit))
  {
    hide Inv, RecoverStep;
    match at
    case SweepImage => SweepImageKeeps(w, goal, ok, bit);
    case SweepTmp => SweepTmpKeeps(w, goal, ok, bit);
    case StrayKill => StrayKillKeeps(w, goal, ok, bit);
    case StrayPid => StrayPidKeeps(w, goal, ok, bit);
    case StrayImage => StrayImageKeeps(w, goal, ok, bit);
    case StrayTmp(clean) => StrayTmpKeeps(w, goal, clean, ok, bit);
  }

  lemma RecoverSavingKeeps(w: World, goal: Goal, at: RecoverAt, ok: bool, bit: bool)
    requires Inv(State(w, Recovering(goal, at))) && (InAside(at) || InSaving(at))
    ensures Inv(RecoverStep(w, goal, at, ok, bit))
  {
    hide Inv, RecoverStep;
    match at
    case BadAside(status) => BadAsideKeeps(w, goal, status, ok, bit);
    case BadAsideSync(status) => BadAsideSyncKeeps(w, goal, status, ok, bit);
    case SavingCancel => SavingCancelKeeps(w, goal, ok, bit);
    case SavingTmp => SavingTmpKeeps(w, goal, ok, bit);
    case SavingCont => SavingContKeeps(w, goal, ok, bit);
    case SavingKill => SavingKillKeeps(w, goal, ok, bit);
    case SavingPid => SavingPidKeeps(w, goal, ok, bit);
  }

  lemma RecoverIncomingKeeps(w: World, goal: Goal, at: RecoverAt, ok: bool, bit: bool)
    requires Inv(State(w, Recovering(goal, at))) && InIncoming(at)
    ensures Inv(RecoverStep(w, goal, at, ok, bit))
  {
    hide Inv, RecoverStep;
    match at
    case IncomingSync => IncomingSyncKeeps(w, goal, ok, bit);
    case IncomingCont => IncomingContKeeps(w, goal, ok, bit);
    case IncomingImage => IncomingImageKeeps(w, goal, ok, bit);
    case IncomingTmp => IncomingTmpKeeps(w, goal, ok, bit);
  }

  lemma RecoverStepKeeps(w: World, goal: Goal, at: RecoverAt, ok: bool, bit: bool)
    requires Inv(State(w, Recovering(goal, at)))
    ensures Inv(RecoverStep(w, goal, at, ok, bit))
  {
    hide Inv, RecoverStep;
    if at.ReadJournal? { ReadJournalKeeps(w, goal, ok, bit); }
    else if at.QueryStatus? { QueryStatusKeeps(w, goal, ok, bit); }
    else if at.Done? || at.GaveUp? { RecoverEndKeeps(w, goal, at, ok, bit); }
    else if InSaved(at) { RecoverSavedKeeps(w, goal, at, ok, bit); }
    else if InAside(at) || InSaving(at) { RecoverSavingKeeps(w, goal, at, ok, bit); }
    else if InIncoming(at) { RecoverIncomingKeeps(w, goal, at, ok, bit); }
    else { RecoverSweepKeeps(w, goal, at, ok, bit); }
  }

  lemma ExamineKeeps(w: World, who: By, at: RepairAt, ok: bool, bit: bool)
    requires Inv(State(w, Repairing(who, at))) && (at.RepairPid? || at.Examine?)
    ensures Inv(RepairStep(w, who, at, ok, bit))
  {
  }

  lemma SetAsideKeeps(w: World, who: By, at: RepairAt, ok: bool, bit: bool)
    requires Inv(State(w, Repairing(who, at))) && (at.SetAside? || at.SetAsideSync?)
    ensures Inv(RepairStep(w, who, at, ok, bit))
  {
    if at.SetAside? { SetAsideDone(w); }
  }

  lemma OrphanKeeps(w: World, who: By, at: RepairAt, ok: bool, bit: bool)
    requires Inv(State(w, Repairing(who, at))) && (at.OrphanImage? || at.OrphanTmp?)
    ensures Inv(RepairStep(w, who, at, ok, bit))
  {
    hide Global, DiscardInv, SuspendInv, WakeInv;
    TidyKeeps(w, if at.OrphanImage? then DropImage else DropTmp);
  }

  lemma KeepPairKeeps(w: World, who: By, ok: bool, bit: bool)
    requires Inv(State(w, Repairing(who, KeepPair)))
    ensures Inv(RepairStep(w, who, KeepPair, ok, bit))
  {
    hide Global, DiscardInv, SuspendInv, WakeInv;
    TidyKeeps(w, DropTmp);
  }

  lemma UnlinkKeeps(w: World, who: By, ok: bool, bit: bool)
    requires Inv(State(w, Discarding(who, Unlink)))
    ensures Inv(DiscardStep(w, who, Unlink, ok, bit))
  {
    MutateKeeps(w, DropJournal);
  }

  lemma SyncUnlinkKeeps(w: World, who: By, ok: bool, bit: bool)
    requires Inv(State(w, Discarding(who, SyncUnlink)))
    ensures Inv(DiscardStep(w, who, SyncUnlink, ok, bit))
  {
  }

  lemma RemoveImageKeeps(w: World, who: By, ok: bool, bit: bool)
    requires Inv(State(w, Discarding(who, RemoveImage)))
    ensures Inv(DiscardStep(w, who, RemoveImage, ok, bit))
  {
    TidyKeeps(w, DropImage);
  }

  lemma RemoveTmpKeeps(w: World, who: By, clean: bool, ok: bool, bit: bool)
    requires Inv(State(w, Discarding(who, RemoveTmp(clean))))
    ensures Inv(DiscardStep(w, who, RemoveTmp(clean), ok, bit))
  {
    TidyKeeps(w, DropTmp);
  }

  predicate InPrepare(at: SuspendAt) {
    at.CheckRunning? || at.WriteSaving? || at.SyncSaving? || at.HandEndpoints? || at.SetUp? || at.Freeze?
  }

  lemma CheckRunningKeeps(w: World, ok: bool, bit: bool)
    requires Inv(State(w, Suspending(CheckRunning)))
    ensures Inv(SuspendStep(w, CheckRunning, ok, bit))
  {
  }

  lemma WriteSavingKeeps(w: World, ok: bool, bit: bool)
    requires Inv(State(w, Suspending(WriteSaving)))
    ensures Inv(SuspendStep(w, WriteSaving, ok, bit))
  {
    MutateKeeps(w, PutJournal(Saving));
    hide LogOk, FilesOk, SurvivorsOk;
  }

  lemma FreezeKeeps(w: World, ok: bool, bit: bool)
    requires Inv(State(w, Suspending(Freeze)))
    ensures Inv(SuspendStep(w, Freeze, ok, bit))
  {
    hide LogOk, FilesOk, SurvivorsOk;
  }

  lemma CreateKeeps(w: World, ok: bool, bit: bool)
    requires Inv(State(w, Suspending(Create)))
    ensures Inv(SuspendStep(w, Create, ok, bit))
  {
    hide RecoverInv, RepairInv, DiscardInv, WakeInv, BootInv, StopInv;
    var w1 := w.(files := w.files[w.nextSave := Content(0, 0, false, false)], nextSave := w.nextSave + 1);
    assert forall d :: d in w.survivors ==> SavedOk(w.files, Taken(w.log), d);
    assert SurvivorsOk(w1.dir, w1.survivors, w1.files, Taken(w1.log));
    MutateKeeps(w1, PutTmp(w.nextSave));
  }

  predicate InSave(at: SuspendAt) { at.Migrate? || at.Poll? || at.SyncImage? }

  lemma SaveKeeps(w: World, at: SuspendAt, ok: bool, bit: bool)
    requires Inv(State(w, Suspending(at))) && InSave(at)
    ensures Inv(SuspendStep(w, at, ok, bit))
  {
    hide RecoverInv, RepairInv, DiscardInv, WakeInv, BootInv, StopInv;
    assert forall d :: d in w.survivors ==> SavedOk(w.files, Taken(w.log), d);
  }

  predicate InCommit(at: SuspendAt) { at.RenameImage? || at.SyncRename? || at.WriteSaved? }

  lemma WriteSavedKeeps(w: World, s: nat, ok: bool, bit: bool)
    requires Inv(State(w, Suspending(WriteSaved(s))))
    ensures Inv(SuspendStep(w, WriteSaved(s), ok, bit))
  {
    MutateKeeps(w, PutJournal(Saved(s, w.files[s].size, None)));
    hide LogOk, FilesOk;
  }

  predicate InEnd(at: SuspendAt) {
    at.SyncSaved? || at.Reread? || at.Quit? || at.QuitPid? || at.Print? || at.SyncPrint?
  }

  predicate InRollBack(at: SuspendAt) {
    at.RollBack? || at.RollBackCancel? || at.RollBackImage? || at.RollBackTmp? || at.RollBackCont?
  }

  lemma RollBackContKeeps(w: World, ok: bool, bit: bool)
    requires Inv(State(w, Suspending(RollBackCont)))
    ensures Inv(SuspendStep(w, RollBackCont, ok, bit))
  {
    if w.qemu.On? { ContKeeps(w); }
  }

  lemma RollBackFilesKeeps(w: World, at: SuspendAt, ok: bool, bit: bool)
    requires Inv(State(w, Suspending(at))) && (at.RollBackImage? || at.RollBackTmp?)
    ensures Inv(SuspendStep(w, at, ok, bit))
  {
    hide Global, RecoverInv, RepairInv, DiscardInv, WakeInv, BootInv, StopInv;
    TidyKeeps(w, if at.RollBackImage? then DropImage else DropTmp);
  }

  lemma RollBackKeeps(w: World, at: SuspendAt, ok: bool, bit: bool)
    requires Inv(State(w, Suspending(at))) && (at.RollBack? || at.RollBackCancel?)
    ensures Inv(SuspendStep(w, at, ok, bit))
  {
    hide RecoverInv, RepairInv, DiscardInv, WakeInv, BootInv, StopInv;
  }

  predicate InTrouble(at: SuspendAt) { at.CrashTmp? || at.CrashPid? || at.AfterError? || at.Cancel? }

  lemma SyncSavingKeeps(w: World, ok: bool, bit: bool)
    requires Inv(State(w, Suspending(SyncSaving)))
    ensures Inv(SuspendStep(w, SyncSaving, ok, bit))
  {
    SyncKeeps(w);
  }

  lemma HandEndpointsKeeps(w: World, ok: bool, bit: bool)
    requires Inv(State(w, Suspending(HandEndpoints)))
    ensures Inv(SuspendStep(w, HandEndpoints, ok, bit))
  {
  }

  lemma SetUpKeeps(w: World, ok: bool, bit: bool)
    requires Inv(State(w, Suspending(SetUp)))
    ensures Inv(SuspendStep(w, SetUp, ok, bit))
  {
  }

  lemma RenameImageKeeps(w: World, s: nat, ok: bool, bit: bool)
    requires Inv(State(w, Suspending(RenameImage(s))))
    ensures Inv(SuspendStep(w, RenameImage(s), ok, bit))
  {
    MutateKeeps(w, RenameTmp(s));
  }

  lemma SyncRenameKeeps(w: World, s: nat, ok: bool, bit: bool)
    requires Inv(State(w, Suspending(SyncRename(s))))
    ensures Inv(SuspendStep(w, SyncRename(s), ok, bit))
  {
    SyncKeeps(w);
  }

  lemma SyncSavedKeeps(w: World, s: nat, ok: bool, bit: bool)
    requires Inv(State(w, Suspending(SyncSaved(s))))
    ensures Inv(SuspendStep(w, SyncSaved(s), ok, bit))
  {
    SyncKeeps(w);
  }

  lemma RereadKeeps(w: World, s: nat, ok: bool, bit: bool)
    requires Inv(State(w, Suspending(Reread(s))))
    ensures Inv(SuspendStep(w, Reread(s), ok, bit))
  {
  }

  lemma QuitKeeps(w: World, s: nat, ok: bool, bit: bool)
    requires Inv(State(w, Suspending(Quit(s))))
    ensures Inv(SuspendStep(w, Quit(s), ok, bit))
  {
    OffKeeps(w, w.pid);
  }

  lemma QuitPidKeeps(w: World, s: nat, ok: bool, bit: bool)
    requires Inv(State(w, Suspending(QuitPid(s))))
    ensures Inv(SuspendStep(w, QuitPid(s), ok, bit))
  {
    PidKeeps(w, w.pid && !ok);
  }

  lemma PrintKeeps(w: World, s: nat, ok: bool, bit: bool)
    requires Inv(State(w, Suspending(Print(s))))
    ensures Inv(SuspendStep(w, Print(s), ok, bit))
  {
    MarkKeeps(w);
  }

  lemma SyncPrintKeeps(w: World, s: nat, ok: bool, bit: bool)
    requires Inv(State(w, Suspending(SyncPrint(s))))
    ensures Inv(SuspendStep(w, SyncPrint(s), ok, bit))
  {
    SyncKeeps(w);
  }

  lemma CrashTmpKeeps(w: World, ok: bool, bit: bool)
    requires Inv(State(w, Suspending(CrashTmp)))
    ensures Inv(SuspendStep(w, CrashTmp, ok, bit))
  {
    TidyKeeps(w, DropTmp);
  }

  lemma CrashPidKeeps(w: World, ok: bool, bit: bool)
    requires Inv(State(w, Suspending(CrashPid)))
    ensures Inv(SuspendStep(w, CrashPid, ok, bit))
  {
    PidKeeps(w, w.pid && !(ok && w.qemu.Off?));
  }

  lemma AfterErrorKeeps(w: World, trouble: Trouble, ok: bool, bit: bool)
    requires Inv(State(w, Suspending(AfterError(trouble))))
    ensures Inv(SuspendStep(w, AfterError(trouble), ok, bit))
  {
  }

  lemma CancelKeeps(w: World, ok: bool, bit: bool)
    requires Inv(State(w, Suspending(Cancel)))
    ensures Inv(SuspendStep(w, Cancel, ok, bit))
  {
  }

  lemma PrepareKeeps(w: World, at: SuspendAt, ok: bool, bit: bool)
    requires Inv(State(w, Suspending(at))) && InPrepare(at)
    ensures Inv(SuspendStep(w, at, ok, bit))
  {
    hide Inv, SuspendStep;
    match at
    case CheckRunning => CheckRunningKeeps(w, ok, bit);
    case WriteSaving => WriteSavingKeeps(w, ok, bit);
    case SyncSaving => SyncSavingKeeps(w, ok, bit);
    case HandEndpoints => HandEndpointsKeeps(w, ok, bit);
    case SetUp => SetUpKeeps(w, ok, bit);
    case Freeze => FreezeKeeps(w, ok, bit);
  }

  lemma CommitKeeps(w: World, at: SuspendAt, ok: bool, bit: bool)
    requires Inv(State(w, Suspending(at))) && InCommit(at)
    ensures Inv(SuspendStep(w, at, ok, bit))
  {
    hide Inv, SuspendStep;
    match at
    case RenameImage(s) => RenameImageKeeps(w, s, ok, bit);
    case SyncRename(s) => SyncRenameKeeps(w, s, ok, bit);
    case WriteSaved(s) => WriteSavedKeeps(w, s, ok, bit);
  }

  lemma EndKeeps(w: World, at: SuspendAt, ok: bool, bit: bool)
    requires Inv(State(w, Suspending(at))) && InEnd(at)
    ensures Inv(SuspendStep(w, at, ok, bit))
  {
    hide Inv, SuspendStep;
    match at
    case SyncSaved(s) => SyncSavedKeeps(w, s, ok, bit);
    case Reread(s) => RereadKeeps(w, s, ok, bit);
    case Quit(s) => QuitKeeps(w, s, ok, bit);
    case QuitPid(s) => QuitPidKeeps(w, s, ok, bit);
    case Print(s) => PrintKeeps(w, s, ok, bit);
    case SyncPrint(s) => SyncPrintKeeps(w, s, ok, bit);
  }

  lemma TroubleKeeps(w: World, at: SuspendAt, ok: bool, bit: bool)
    requires Inv(State(w, Suspending(at))) && InTrouble(at)
    ensures Inv(SuspendStep(w, at, ok, bit))
  {
    hide Inv, SuspendStep;
    match at
    case CrashTmp => CrashTmpKeeps(w, ok, bit);
    case CrashPid => CrashPidKeeps(w, ok, bit);
    case AfterError(trouble) => AfterErrorKeeps(w, trouble, ok, bit);
    case Cancel => CancelKeeps(w, ok, bit);
  }

  lemma SuspendStepKeeps(w: World, at: SuspendAt, ok: bool, bit: bool)
    requires Inv(State(w, Suspending(at)))
    ensures Inv(SuspendStep(w, at, ok, bit))
  {
    hide Inv, SuspendStep;
    if InPrepare(at) { PrepareKeeps(w, at, ok, bit); }
    else if at.Create? { CreateKeeps(w, ok, bit); }
    else if InSave(at) { SaveKeeps(w, at, ok, bit); }
    else if InCommit(at) { CommitKeeps(w, at, ok, bit); }
    else if InEnd(at) { EndKeeps(w, at, ok, bit); }
    else if at.RollBackCont? { RollBackContKeeps(w, ok, bit); }
    else if at.RollBackImage? || at.RollBackTmp? { RollBackFilesKeeps(w, at, ok, bit); }
    else if InRollBack(at) { RollBackKeeps(w, at, ok, bit); }
    else { TroubleKeeps(w, at, ok, bit); }
  }

  predicate InLaunch(at: WakeAt) {
    at.Validate? || at.WakePid? || at.WakeArgv? || at.WakeLaunch? || at.AwaitIncoming? || at.WakeSetUp?
  }

  lemma WakeLaunchKeeps(w: World, goal: Goal, at: WakeAt, ok: bool, bit: bool)
    requires Inv(State(w, Waking(goal, at))) && InLaunch(at)
    ensures Inv(WakeStep(w, goal, at, ok, bit))
  {
    assert SavedOk(w.files, Taken(w.log), w.dir);
  }

  predicate InLoad(at: WakeAt) { at.Load? || at.AwaitLoaded? || at.WakeKill? || at.Rejected? }

  lemma WakeLoadKeeps(w: World, goal: Goal, at: WakeAt, ok: bool, bit: bool)
    requires Inv(State(w, Waking(goal, at))) && InLoad(at)
    ensures Inv(WakeStep(w, goal, at, ok, bit))
  {
    assert SavedOk(w.files, Taken(w.log), w.dir);
  }

  lemma WakeContKeeps(w: World, goal: Goal, ok: bool, bit: bool)
    requires Inv(State(w, Waking(goal, WakeCont)))
    ensures Inv(WakeStep(w, goal, WakeCont, ok, bit))
  {
    if w.qemu.On? { ContKeeps(w); }
    hide LogOk, FilesOk, SurvivorsOk, RepairInv, DiscardInv, SuspendInv, RecoverInv, BootInv;
  }

  lemma WakeUnlinkKeeps(w: World, goal: Goal, ok: bool, bit: bool)
    requires Inv(State(w, Waking(goal, WakeUnlink)))
    ensures Inv(WakeStep(w, goal, WakeUnlink, ok, bit))
  {
    UnlinkedKeeps(w);
  }

  lemma WakeSyncKeeps(w: World, goal: Goal, ok: bool, bit: bool)
    requires Inv(State(w, Waking(goal, WakeSync)))
    ensures Inv(WakeStep(w, goal, WakeSync, ok, bit))
  {
    SyncKeeps(w);
  }

  lemma WakeImageKeeps(w: World, goal: Goal, ok: bool, bit: bool)
    requires Inv(State(w, Waking(goal, WakeImage)))
    ensures Inv(WakeStep(w, goal, WakeImage, ok, bit))
  {
    TidyKeeps(w, DropImage);
  }

  lemma WakeTmpKeeps(w: World, goal: Goal, ok: bool, bit: bool)
    requires Inv(State(w, Waking(goal, WakeTmp)))
    ensures Inv(WakeStep(w, goal, WakeTmp, ok, bit))
  {
    TidyKeeps(w, DropTmp);
  }

  lemma BootStepKeeps(w: World, at: BootAt, ok: bool, bit: bool)
    requires Inv(State(w, Booting(at)))
    ensures Inv(BootStep(w, at, ok, bit))
  {
    hide SuspendInv, LogOk, FilesOk, DiscardInv;
    match at
    case BootImage => TidyKeeps(w, DropImage);
    case BootTmp(_) => TidyKeeps(w, DropTmp);
    case _ =>
  }

  lemma StopStepKeeps(w: World, force: bool, at: StopAt, ok: bool, bit: bool)
    requires Inv(State(w, Stopping(force, at)))
    ensures Inv(StopStep(w, force, at, ok, bit))
  {
  }

  lemma RepairStepKeeps(w: World, who: By, at: RepairAt, ok: bool, bit: bool)
    requires Inv(State(w, Repairing(who, at)))
    ensures Inv(RepairStep(w, who, at, ok, bit))
  {
    hide Inv, RepairStep;
    if at.RepairPid? || at.Examine? { ExamineKeeps(w, who, at, ok, bit); }
    else if at.SetAside? || at.SetAsideSync? { SetAsideKeeps(w, who, at, ok, bit); }
    else if at.KeepPair? { KeepPairKeeps(w, who, ok, bit); }
    else { OrphanKeeps(w, who, at, ok, bit); }
  }

  lemma DiscardStepKeeps(w: World, who: By, at: DiscardAt, ok: bool, bit: bool)
    requires Inv(State(w, Discarding(who, at)))
    ensures Inv(DiscardStep(w, who, at, ok, bit))
  {
    hide Inv, DiscardStep;
    if at.Unlink? { UnlinkKeeps(w, who, ok, bit); }
    else if at.SyncUnlink? { SyncUnlinkKeeps(w, who, ok, bit); }
    else if at.RemoveImage? { RemoveImageKeeps(w, who, ok, bit); }
    else { RemoveTmpKeeps(w, who, at.clean, ok, bit); }
  }

  lemma WakeStepKeeps(w: World, goal: Goal, at: WakeAt, ok: bool, bit: bool)
    requires Inv(State(w, Waking(goal, at)))
    ensures Inv(WakeStep(w, goal, at, ok, bit))
  {
    hide Inv, WakeStep;
    if InLaunch(at) { WakeLaunchKeeps(w, goal, at, ok, bit); }
    else if InLoad(at) { WakeLoadKeeps(w, goal, at, ok, bit); }
    else if at.WakeUnlink? { WakeUnlinkKeeps(w, goal, ok, bit); }
    else if at.WakeSync? { WakeSyncKeeps(w, goal, ok, bit); }
    else if at.WakeCont? { WakeContKeeps(w, goal, ok, bit); }
    else if at.WakeImage? { WakeImageKeeps(w, goal, ok, bit); }
    else { WakeTmpKeeps(w, goal, ok, bit); }
  }

  lemma JmStepKeeps(s: State, ok: bool, bit: bool)
    requires Inv(s)
    ensures Inv(JmStep(s, ok, bit))
  {
    hide Inv, RecoverStep, RepairStep, DiscardStep, SuspendStep, WakeStep, BootStep, StopStep;
    match s.pc
    case Idle(_) =>
    case Recovering(goal, at) => RecoverStepKeeps(s.w, goal, at, ok, bit);
    case Repairing(who, at) => RepairStepKeeps(s.w, who, at, ok, bit);
    case Discarding(who, at) => DiscardStepKeeps(s.w, who, at, ok, bit);
    case Suspending(at) => SuspendStepKeeps(s.w, at, ok, bit);
    case Waking(goal, at) => WakeStepKeeps(s.w, goal, at, ok, bit);
    case Booting(at) => BootStepKeeps(s.w, at, ok, bit);
    case Stopping(force, at) => StopStepKeeps(s.w, force, at, ok, bit);
  }

  // ----- The hypervisor, kills, power losses -----

  lemma HappensKeepsGlobal(w: World, e: Event)
    requires Global(w)
    ensures Global(Happens(w, e))
  {
    assert forall d :: d in w.survivors ==> SavedOk(w.files, Taken(w.log), d);
  }

  lemma HappensKeepsRecover(w: World, goal: Goal, at: RecoverAt, e: Event)
    requires Global(w) && RecoverInv(w, goal, at)
    ensures RecoverInv(Happens(w, e), goal, at)
  {
  }

  lemma HappensKeepsSuspend(w: World, at: SuspendAt, e: Event)
    requires Global(w) && SuspendInv(w, at)
    ensures SuspendInv(Happens(w, e), at)
  {
  }

  lemma HappensKeepsWake(w: World, goal: Goal, at: WakeAt, e: Event)
    requires Global(w) && WakeInv(w, goal, at)
    ensures WakeInv(Happens(w, e), goal, at)
  {
  }

  lemma HappensKeepsRest(s: State, e: Event)
    requires Inv(s) && !s.pc.Recovering? && !s.pc.Suspending? && !s.pc.Waking?
    ensures Global(Happens(s.w, e)) ==> Inv(State(Happens(s.w, e), s.pc))
  {
  }

  lemma HappensKeeps(s: State, e: Event)
    requires Inv(s)
    ensures Inv(State(Happens(s.w, e), s.pc))
  {
    hide Global, Happens, RecoverInv, RepairInv, DiscardInv, SuspendInv, WakeInv, BootInv, StopInv;
    HappensKeepsGlobal(s.w, e);
    match s.pc
    case Recovering(goal, at) => HappensKeepsRecover(s.w, goal, at, e);
    case Suspending(at) => HappensKeepsSuspend(s.w, at, e);
    case Waking(goal, at) => HappensKeepsWake(s.w, goal, at, e);
    case _ => HappensKeepsRest(s, e);
  }

  lemma CorruptKeeps(w: World)
    requires Global(w)
    ensures Global(Corrupt(w))
  {
  }

  lemma LosePowerKeeps(w: World, d: Dir, torn: nat, pid: bool, incoming: bool)
    requires Global(w) && d in w.survivors
    ensures Global(LosePower(w, d, torn, pid, incoming))
  {
    assert SavedOk(w.files, Taken(w.log), d);
  }

  /** Every step keeps the invariant, whatever it is and however it ends. */
  lemma StepKeeps(s: State, c: Choice)
    requires Inv(s)
    ensures Inv(Step(s, c))
  {
    match c
    case Begin(_) =>
    case Jm(ok, bit) => JmStepKeeps(s, ok, bit);
    case Env(e) => HappensKeeps(s, e);
    case CorruptJournal => CorruptKeeps(s.w);
    case Kill =>
    case PowerLoss(d, torn, pid, incoming) =>
      if d in s.w.survivors { LosePowerKeeps(s.w, d, torn, pid, incoming); }
  }

  lemma {:induction false} RunKeeps(s: State, choices: seq<Choice>)
    requires Inv(s)
    ensures Inv(Run(s, choices))
    decreases |choices|
  {
    if choices != [] {
      StepKeeps(s, choices[0]);
      RunKeeps(Step(s, choices[0]), choices[1..]);
    }
  }

  lemma InitHolds(s: State)
    requires Init(s)
    ensures Inv(s)
  {
  }
}
