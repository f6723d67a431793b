/**
  jm's side of suspend, wake and recovery, one effect per step. A command runs
  under the machine lock, so at most one program counter is live; a kill drops
  it, a power loss drops it with the hypervisor.

  Every step takes the outcome of the call it makes: `ok`, and one more `bit`
  for the second thing that call can decide (a command that took effect
  although its reply was lost, a timeout, a refusal by hardware).
 */
module SuspendSteps {
  import opened Base
  import opened SuspendWorld

  /** Who asked for a recovery. */
  datatype Goal = ToSuspend | ToStart | ToStop(force: bool) | ToRollBack

  datatype Action = ActNone | ResumedGuest | Suspended | Discarded

  datatype Outcome = Fresh | Refused | Failed | RolledBack | Died | Asleep | Awake | Transient | Halted | Killed

  /** Who discards a saved state or repairs the suspend files. */
  datatype By =
    | ByRecover(goal: Goal)
    | ByRecoverSaved(goal: Goal)
    | BySaving(goal: Goal)
    | ByKilled(goal: Goal)
    | ByViolation(goal: Goal)
    | ByCancel
    | ByDied
    | ByWake(goal: Goal)
    | ByForce
    | ByBoot
    | ByStop(force: bool)

  datatype Status = IsRunning | IsFrozen | IsIncoming

  datatype RecoverAt =
    | ReadJournal | QueryStatus
    | SweepImage | SweepTmp
    | SavedStatus | SavedKill | SavedPid | SavedPrint | SavedPrintSync
    | BadAside(status: Status) | BadAsideSync(status: Status)
    | SavingCancel | SavingTmp | SavingCont | SavingKill | SavingPid
    | IncomingSync | IncomingCont | IncomingImage | IncomingTmp
    | StrayKill | StrayPid | StrayImage | StrayTmp(clean: bool)
    | Done(action: Action) | GaveUp

  datatype RepairAt =
    | RepairPid | Examine | SetAside | SetAsideSync
    | OrphanImage | OrphanTmp(clean: bool) | KeepPair

  datatype DiscardAt = Unlink | SyncUnlink | RemoveImage | RemoveTmp(clean: bool)

  datatype Trouble = Crash | Refusal | SaveFailed

  datatype SuspendAt =
    | CheckRunning | WriteSaving | SyncSaving | HandEndpoints | SetUp | Freeze
    | Create | Migrate(save: nat) | Poll(save: nat)
    | SyncImage(save: nat) | RenameImage(save: nat) | SyncRename(save: nat)
    | WriteSaved(save: nat) | SyncSaved(save: nat) | Reread(save: nat)
    | Quit(save: nat) | QuitPid(save: nat) | Print(save: nat) | SyncPrint(save: nat)
    | RollBack | RollBackCancel | RollBackImage | RollBackTmp | RollBackCont
    | CrashTmp | CrashPid | AfterError(trouble: Trouble) | Cancel

  datatype WakeAt =
    | Validate | WakePid | WakeArgv | WakeLaunch | AwaitIncoming | WakeSetUp | Load | AwaitLoaded
    | WakeKill(rejected: bool) | Rejected
    | WakeUnlink | WakeSync | WakeCont | WakeImage | WakeTmp

  datatype BootAt =
    | BootCheck | HaltGuest | HaltPid | BootState | BootImage | BootTmp(clean: bool)
    | BootArgv | BootLaunch | AwaitReady

  datatype StopAt = StopCheck | StopKill | StopPid

  datatype Pc =
    | Idle(outcome: Outcome)
    | Recovering(goal: Goal, rat: RecoverAt)
    | Repairing(who: By, pat: RepairAt)
    | Discarding(who: By, dat: DiscardAt)
    | Suspending(sat: SuspendAt)
    | Waking(goal: Goal, wat: WakeAt)
    | Booting(bat: BootAt)
    | Stopping(force: bool, tat: StopAt)

  datatype State = State(w: World, pc: Pc)

  function StatusOf(m: Mode): Status {
    match m
    case Running => IsRunning
    case InMigrate => IsIncoming
    case _ => IsFrozen
  }

  // ----- Recover, internal/backend/qemu/suspend.go:857-1076 -----

  function SavingFrom(goal: Goal, status: Status): Pc {
    match status
    case IsRunning => Discarding(BySaving(goal), Unlink)
    case IsFrozen => Recovering(goal, SavingCancel)
    case IsIncoming => Recovering(goal, SavingKill)
  }

  /** Where a recovery that returned an action, or gave up, hands over. */
  function AfterRecover(goal: Goal, ok: bool): Pc {
    match goal
    case ToSuspend => if ok then Suspending(CheckRunning) else Idle(Failed)
    case ToStart => if ok then Booting(BootCheck) else Idle(Failed)
    case ToStop(force) => if ok || force then Stopping(force, StopCheck) else Idle(Failed)
    case ToRollBack => if ok then Suspending(Cancel) else Idle(Failed)
  }

  function RecoverStep(w: World, goal: Goal, at: RecoverAt, ok: bool, bit: bool): State {
    var giveUp := Recovering(goal, GaveUp);
    var gone := w.qemu.Off?;
    match at
    case ReadJournal =>
      State(w,
            if !ok then giveUp
            else if !Alive(w) then
              if w.dir.journal.NoJournal? then Recovering(goal, Done(ActNone)) else Repairing(ByRecover(goal), RepairPid)
            else if w.dir.journal.Saved? then Recovering(goal, SavedStatus)
            else if w.dir.journal.NoJournal? && (bit || !w.incoming) then Recovering(goal, SweepImage)
            else Recovering(goal, QueryStatus))
    case SweepImage => State(MutateIf(w, DropImage, ok), Recovering(goal, SweepTmp))
    case SweepTmp => State(MutateIf(w, DropTmp, ok), Recovering(goal, Done(ActNone)))
    case QueryStatus =>
      State(w,
            if !ok || gone then
              if w.dir.journal.NoJournal? then Recovering(goal, Done(ActNone)) else giveUp
            else match w.dir.journal
              case NoJournal =>
                (match w.qemu.mode
                 case Paused => Recovering(goal, IncomingSync)
                 case Loaded(_) => Recovering(goal, IncomingSync)
                 case InMigrate => Recovering(goal, StrayKill)
                 case _ => Recovering(goal, SweepImage))
              case Bad => Recovering(goal, BadAside(StatusOf(w.qemu.mode)))
              case _ => SavingFrom(goal, StatusOf(w.qemu.mode)))
    case BadAside(status) =>
      if ok then State(Mutate(w, DropJournal).(aside := true), Recovering(goal, BadAsideSync(status)))
      else State(w, giveUp)
    case BadAsideSync(status) => State(SyncIf(w, ok), SavingFrom(goal, status))
    case SavingCancel =>
      if ok && !gone then State(CancelTransfer(w), Recovering(goal, SavingTmp)) else State(w, giveUp)
    case SavingTmp => State(MutateIf(w, DropTmp, ok), Recovering(goal, SavingCont))
    case SavingCont =>
      State(ContIf(w, ok || bit), if ok && !gone then Discarding(BySaving(goal), Unlink) else giveUp)
    case SavingKill =>
      if ok || gone then State(w.(qemu := Off), Recovering(goal, SavingPid)) else State(w, giveUp)
    case SavingPid =>
      if ok then State(w.(pid := false), Discarding(ByKilled(goal), Unlink)) else State(w, giveUp)
    case SavedStatus =>
      State(w, if ok && !gone && w.qemu.mode.Running? then Discarding(ByViolation(goal), Unlink)
               else Recovering(goal, SavedKill))
    case SavedKill =>
      if ok || gone then State(w.(qemu := Off), Recovering(goal, SavedPid)) else State(w, giveUp)
    case SavedPid =>
      if ok then State(w.(pid := false), Recovering(goal, SavedPrint)) else State(w, giveUp)
    case SavedPrint =>
      if ok && bit && w.dir.journal.Saved? && w.dir.journal.mark.None? then
        State(Mutate(w, PutJournal(w.dir.journal.(mark := Some(w.disk)))), Recovering(goal, SavedPrintSync))
      else State(w, Repairing(ByRecoverSaved(goal), Examine))
    case SavedPrintSync => State(SyncIf(w, ok), Repairing(ByRecoverSaved(goal), Examine))
    case IncomingSync =>
      if ok then State(SyncDir(w), Recovering(goal, IncomingCont)) else State(w, giveUp)
    case IncomingCont =>
      State(ContIf(w, ok || bit), if ok && !gone then Recovering(goal, IncomingImage) else giveUp)
    case IncomingImage => State(MutateIf(w, DropImage, ok), Recovering(goal, IncomingTmp))
    case IncomingTmp => State(MutateIf(w, DropTmp, ok), Recovering(goal, Done(ResumedGuest)))
    case StrayKill =>
      if ok || gone then State(w.(qemu := Off), Recovering(goal, StrayPid)) else State(w, giveUp)
    case StrayPid =>
      if ok then State(w.(pid := false), Recovering(goal, StrayImage)) else State(w, giveUp)
    case StrayImage => State(MutateIf(w, DropImage, ok), Recovering(goal, StrayTmp(ok)))
    case StrayTmp(clean) =>
      State(MutateIf(w, DropTmp, ok), if clean && ok then Recovering(goal, Done(Discarded)) else giveUp)
    case Done(_) => State(w, AfterRecover(goal, true))
    case GaveUp => State(w, AfterRecover(goal, false))
  }

  // ----- Repair, internal/backend/qemu/qemu.go:172-210, and
  // discardJournalThenImage, internal/backend/qemu/journal.go:238-255 -----

  /** Where a repair or a discard returns to. `kept` says a valid saved pair
      was kept. */
  function Return(who: By, ok: bool, kept: bool): Pc {
    match who
    case ByRecover(g) => Recovering(g, if !ok then GaveUp else Done(if kept then Suspended else Discarded))
    case ByRecoverSaved(g) => Recovering(g, if !ok then GaveUp else Done(if kept then Suspended else Discarded))
    case ByKilled(g) => Recovering(g, if ok then Done(Discarded) else GaveUp)
    case BySaving(g) => Recovering(g, if ok then Done(ResumedGuest) else GaveUp)
    case ByViolation(g) => Recovering(g, if ok then Done(ResumedGuest) else GaveUp)
    case ByCancel => Idle(if ok then RolledBack else Failed)
    case ByDied => Idle(Died)
    case ByWake(g) => if !ok then Idle(Failed) else if g.ToStart? then Booting(BootState) else Idle(Halted)
    case ByForce => Idle(if ok then Halted else Failed)
    case ByBoot => if ok then Booting(BootCheck) else Idle(Failed)
    case ByStop(force) => if !ok then Idle(Failed) else if kept then Stopping(force, StopCheck) else Idle(Halted)
  }

  function RepairStep(w: World, who: By, at: RepairAt, ok: bool, bit: bool): State {
    match at
    case RepairPid =>
      if ok then State(w.(pid := false), Repairing(who, Examine)) else State(w, Return(who, false, false))
    case Examine =>
      State(w,
            if !ok then Return(who, false, false)
            else match w.dir.journal
              case NoJournal => Repairing(who, OrphanImage)
              case Bad => Repairing(who, SetAside)
              case Saving => Discarding(who, Unlink)
              case Saved(_, _, _) =>
                if bit then Return(who, false, false)
                else if ValidImage(w) then Repairing(who, KeepPair)
                else Discarding(who, Unlink))
    case SetAside =>
      if ok then State(Mutate(w, DropJournal).(aside := true), Repairing(who, SetAsideSync))
      else State(w, Return(who, false, false))
    case SetAsideSync =>
      if ok then State(SyncDir(w), Repairing(who, OrphanImage)) else State(w, Return(who, false, false))
    case OrphanImage => State(MutateIf(w, DropImage, ok), Repairing(who, OrphanTmp(ok)))
    case OrphanTmp(clean) => State(MutateIf(w, DropTmp, ok), Return(who, clean && ok, false))
    case KeepPair => State(MutateIf(w, DropTmp, ok), Return(who, ok, true))
  }

  function DiscardStep(w: World, who: By, at: DiscardAt, ok: bool, bit: bool): State {
    match at
    case Unlink =>
      if ok then State(Mutate(w, DropJournal), Discarding(who, SyncUnlink)) else State(w, Return(who, false, false))
    case SyncUnlink =>
      if ok then State(SyncDir(w), Discarding(who, RemoveImage)) else State(w, Return(who, false, false))
    case RemoveImage => State(MutateIf(w, DropImage, ok), Discarding(who, RemoveTmp(ok)))
    case RemoveTmp(clean) => State(MutateIf(w, DropTmp, ok), Return(who, clean && ok, false))
  }

  // ----- PrepareSuspend and CommitSuspend, internal/backend/qemu/suspend.go:124-191 and 330-485,
  // under suspendMachine, internal/cli/suspend.go:220-402 and 480-537 -----

  function SuspendStep(w: World, at: SuspendAt, ok: bool, bit: bool): State {
    var gone := w.qemu.Off?;
    match at
    case CheckRunning =>
      State(w, if ok && Alive(w) && w.dir.journal.NoJournal? && w.qemu.mode.Running? && !w.qemu.transfer.Sending?
               then Suspending(WriteSaving) else Idle(Refused))
    case WriteSaving =>
      State(MutateIf(w, PutJournal(Saving), ok || bit), if ok then Suspending(SyncSaving) else Idle(Refused))
    case SyncSaving =>
      if ok then State(SyncDir(w), Suspending(HandEndpoints)) else State(w, Idle(Refused))
    case HandEndpoints => State(w, Suspending(if ok then SetUp else Cancel))
    case SetUp =>
      State(w, Suspending(if !Alive(w) then CrashTmp else if ok then Freeze else AfterError(Refusal)))
    case Freeze =>
      if ok && bit then State(w, Suspending(AfterError(Refusal)))
      else State(StopIf(w, ok || bit), Suspending(if ok && !gone then Create else RollBack))
    case Create =>
      if ok then
        State(Mutate(w.(files := w.files[w.nextSave := Content(0, 0, false, false)], nextSave := w.nextSave + 1),
                     PutTmp(w.nextSave)),
              Suspending(Migrate(w.nextSave)))
      else State(w, Suspending(RollBack))
    case Migrate(s) =>
      State(TransferIf(w, Sending(s), (ok || bit) && !gone && w.qemu.mode.Paused?),
            Suspending(if ok && !gone then Poll(s) else RollBack))
    case Poll(s) =>
      State(w, Suspending(
              if !ok || gone then RollBack
              else if w.qemu.transfer == Sent(s) then SyncImage(s)
              else if w.qemu.transfer == Sending(s) && !bit then Poll(s)
              else RollBack))
    case SyncImage(s) =>
      if ok && s in w.files then
        State(w.(files := w.files[s := w.files[s].(synced := true)]),
              Suspending(if w.files[s].size >= w.memory then RenameImage(s) else RollBack))
      else State(w, Suspending(RollBack))
    case RenameImage(s) =>
      State(MutateIf(w, RenameTmp(s), ok), Suspending(if ok then SyncRename(s) else RollBack))
    case SyncRename(s) => State(SyncIf(w, ok), Suspending(if ok then WriteSaved(s) else RollBack))
    case WriteSaved(s) =>
      State(MutateIf(w, PutJournal(Saved(s, if s in w.files then w.files[s].size else 0, None)), ok || bit),
            Suspending(if ok then SyncSaved(s) else Reread(s)))
    case SyncSaved(s) => State(SyncIf(w, ok), Suspending(if ok then Quit(s) else Reread(s)))
    case Reread(s) =>
      State(w, Suspending(
              if ok && w.dir.journal.Saving? then RollBack
              else if ok && w.dir.journal.Saved? then Quit(s)
              else AfterError(SaveFailed)))
    case Quit(s) =>
      if ok || gone then State(w.(qemu := Off), Suspending(QuitPid(s)))
      else State(w, Suspending(AfterError(SaveFailed)))
    case QuitPid(s) => State(w.(pid := w.pid && !ok), Suspending(Print(s)))
    case Print(s) =>
      if ok && bit && w.dir.journal.Saved? then
        State(Mutate(w, PutJournal(w.dir.journal.(mark := Some(w.disk)))), Suspending(SyncPrint(s)))
      else State(w, Idle(Asleep))
    case SyncPrint(_) => State(SyncIf(w, ok), Idle(Asleep))
    case RollBack =>
      State(w, Suspending(if !Alive(w) then CrashTmp else if ok then RollBackCancel else AfterError(SaveFailed)))
    case RollBackCancel =>
      if ok && !gone then State(CancelTransfer(w), Suspending(RollBackImage))
      else State(w, Suspending(AfterError(SaveFailed)))
    case RollBackImage => State(MutateIf(w, DropImage, ok), Suspending(RollBackTmp))
    case RollBackTmp => State(MutateIf(w, DropTmp, ok), Suspending(RollBackCont))
    case RollBackCont =>
      State(ContIf(w, ok || bit),
            Suspending(if gone || !w.pid then CrashTmp else AfterError(SaveFailed)))
    case CrashTmp => State(MutateIf(w, DropTmp, ok), Suspending(CrashPid))
    case CrashPid => State(w.(pid := w.pid && !(ok && gone)), Suspending(AfterError(Crash)))
    case AfterError(trouble) =>
      State(w,
            if ok && w.dir.journal.Saved? then Idle(Asleep)
            else if trouble.Crash? || !Alive(w) then Discarding(ByDied, Unlink)
            else if !ok then Idle(Failed)
            else if trouble.Refusal? then Suspending(Cancel)
            else Recovering(ToRollBack, ReadJournal))
    case Cancel =>
      State(w,
            if !ok then Idle(Failed)
            else match w.dir.journal
              case NoJournal => Idle(RolledBack)
              case Saved(_, _, _) => Idle(Failed)
              case _ => Discarding(ByCancel, Unlink))
  }

  // ----- Resume, internal/backend/qemu/suspend.go:565-837, under wakeMachine,
  // internal/cli/resume.go:60-116, and stopSuspended, internal/cli/stop.go:114-151 -----

  /** A wake that failed after the journal went: a stop goes on and shuts the
      restored guest down, a start leaves it to the next recovery. */
  function AfterUnlinked(goal: Goal): Pc {
    if goal.ToStop? then Stopping(goal.force, StopKill) else Idle(Failed)
  }

  function WakeStep(w: World, goal: Goal, at: WakeAt, ok: bool, bit: bool): State {
    var gone := w.qemu.Off?;
    match at
    case Validate =>
      State(w,
            if !ok then Idle(Transient)
            else if Alive(w) || !w.dir.journal.Saved? then Idle(Failed)
            else if !ValidImage(w) || bit then Waking(goal, Rejected)
            else if w.dir.journal.mark.Some? && w.dir.journal.mark.value != w.disk then Waking(goal, Rejected)
            else Waking(goal, WakePid))
    case WakePid =>
      if ok then State(w.(pid := false), Waking(goal, WakeArgv)) else State(w, Idle(Transient))
    case WakeArgv =>
      if ok then State(w.(incoming := true), Waking(goal, WakeLaunch)) else State(w, Idle(Transient))
    case WakeLaunch =>
      if ok then State(w.(qemu := On(InMigrate, 0, Quiet)), Waking(goal, AwaitIncoming))
      else State(w, Idle(Transient))
    case AwaitIncoming =>
      if gone then State(w.(pid := false), if bit then Waking(goal, Rejected) else Idle(Transient))
      else State(w, Waking(goal, if !ok then WakeKill(false) else if w.pid then WakeSetUp else AwaitIncoming))
    case WakeSetUp =>
      State(w, Waking(goal, if ok && !gone then Load else WakeKill(bit && !ok)))
    case Load =>
      State(TransferIf(w, Receiving(if w.dir.image.Some? then w.dir.image.value else 0),
                       (ok || !bit) && w.dir.image.Some?),
            Waking(goal, if ok && !gone then AwaitLoaded else WakeKill(bit || gone)))
    case AwaitLoaded =>
      State(w, Waking(goal,
                      if gone then WakeKill(true)
                      else if !ok then WakeKill(false)
                      else if w.qemu.mode.Loaded? then WakeUnlink
                      else if w.qemu.transfer.Receiving? then AwaitLoaded
                      else WakeKill(true)))
    case WakeKill(rejected) =>
      if ok || gone then
        State(w.(qemu := Off, pid := false), if rejected then Waking(goal, Rejected) else Idle(Transient))
      else State(w.(pid := true), Idle(Transient))
    case Rejected => State(w, Discarding(ByWake(goal), Unlink))
    case WakeUnlink =>
      if ok then State(Mutate(w, DropJournal), Waking(goal, WakeSync)) else State(w, Waking(goal, WakeKill(false)))
    case WakeSync =>
      if ok then State(SyncDir(w), Waking(goal, WakeCont)) else State(w, AfterUnlinked(goal))
    case WakeCont =>
      State(ContIf(w, ok || bit), if ok && !gone then Waking(goal, WakeImage) else AfterUnlinked(goal))
    case WakeImage => State(MutateIf(w, DropImage, ok), Waking(goal, WakeTmp))
    case WakeTmp =>
      State(MutateIf(w, DropTmp, ok), if goal.ToStop? then Stopping(goal.force, StopKill) else Idle(Awake))
  }

  // ----- Start, internal/backend/qemu/qemu.go:231-359, under startMachine, internal/cli/start.go:132-183 -----

  function BootStep(w: World, at: BootAt, ok: bool, bit: bool): State {
    var gone := w.qemu.Off?;
    match at
    case BootCheck =>
      State(w,
            if !ok then Idle(Failed)
            else if Alive(w) then
              if bit then Booting(HaltGuest)
              else Idle(if w.dir.journal.NoJournal? then Awake else Failed)
            else if ValidImage(w) then Waking(ToStart, Validate)
            else if w.dir.journal.NoJournal? && !w.pid then Booting(BootState)
            else Repairing(ByBoot, RepairPid))
    case HaltGuest =>
      if ok || gone then State(w.(qemu := Off), Booting(HaltPid)) else State(w, Idle(Failed))
    case HaltPid =>
      if ok then State(w.(pid := false), Booting(BootCheck)) else State(w, Idle(Failed))
    case BootState =>
      State(w,
            if !ok || Alive(w) || ValidImage(w) then Idle(Failed)
            else if w.dir.journal.NoJournal? && !w.pid then Booting(BootImage)
            else Repairing(ByBoot, RepairPid))
    case BootImage => State(MutateIf(w, DropImage, ok), Booting(BootTmp(ok)))
    case BootTmp(clean) =>
      State(MutateIf(w, DropTmp, ok), if clean && ok then Booting(BootArgv) else Idle(Failed))
    case BootArgv =>
      if ok then State(w.(incoming := false), Booting(BootLaunch)) else State(w, Idle(Failed))
    case BootLaunch =>
      if ok then State(w.(qemu := On(Running, w.disk, Quiet)), Booting(AwaitReady)) else State(w, Idle(Failed))
    case AwaitReady =>
      if gone then State(w.(pid := false), Idle(Failed))
      else if ok then State(w, if w.pid then Idle(Awake) else Booting(AwaitReady))
      else if bit then State(w.(qemu := Off, pid := false), Idle(Failed))
      else State(w.(pid := true), Idle(Failed))
  }

  // ----- Stop, internal/backend/qemu/qemu.go:493-512, under stopMachine, internal/cli/stop.go:53-107 -----

  function StopStep(w: World, force: bool, at: StopAt, ok: bool, bit: bool): State {
    match at
    case StopCheck =>
      State(w,
            if !ok then Idle(Failed)
            else if Alive(w) then Stopping(force, StopKill)
            else if ValidImage(w) then
              if force then Discarding(ByForce, Unlink) else Waking(ToStop(false), Validate)
            else if w.dir.journal.NoJournal? && !w.pid then Idle(Halted)
            else Repairing(ByStop(force), RepairPid))
    case StopKill =>
      if ok || w.qemu.Off? then State(w.(qemu := Off), Stopping(force, StopPid)) else State(w, Idle(Failed))
    case StopPid => State(w.(pid := w.pid && !ok), Idle(if ok then Halted else Failed))
  }

  function JmStep(s: State, ok: bool, bit: bool): State {
    match s.pc
    case Idle(_) => s
    case Recovering(goal, at) => RecoverStep(s.w, goal, at, ok, bit)
    case Repairing(who, at) => RepairStep(s.w, who, at, ok, bit)
    case Discarding(who, at) => DiscardStep(s.w, who, at, ok, bit)
    case Suspending(at) => SuspendStep(s.w, at, ok, bit)
    case Waking(goal, at) => WakeStep(s.w, goal, at, ok, bit)
    case Booting(at) => BootStep(s.w, at, ok, bit)
    case Stopping(force, at) => StopStep(s.w, force, at, ok, bit)
  }

  datatype Command = Suspend | Start | Stop(force: bool)

  /** One step of a run. Commands begin only when none runs (the machine lock);
      a kill, a power loss and the hypervisor's own events are always enabled. */
  datatype Choice =
    | Begin(command: Command)
    | Jm(ok: bool, bit: bool)
    | Env(event: Event)
    | CorruptJournal
    | Kill
    | PowerLoss(dir: Dir, torn: nat, pid: bool, incoming: bool)

  function Step(s: State, c: Choice): State {
    match c
    case Begin(command) =>
      if !s.pc.Idle? then s
      else s.(pc := Recovering(match command
                               case Suspend => ToSuspend
                               case Start => ToStart
                               case Stop(force) => ToStop(force),
                               ReadJournal))
    case Jm(ok, bit) => JmStep(s, ok, bit)
    case Env(event) => s.(w := Happens(s.w, event))
    case CorruptJournal => if s.pc.Idle? then s.(w := Corrupt(s.w)) else s
    // A hypervisor launched by a killed jm writes its own pid file before the
    // next command takes the lock.
    case Kill => State(s.w.(pid := s.w.pid || s.w.qemu.On?), Idle(Killed))
    case PowerLoss(d, torn, pid, incoming) =>
      if d in s.w.survivors then State(LosePower(s.w, d, torn, pid, incoming), Idle(Killed)) else s
  }

  function Run(s: State, choices: seq<Choice>): State
    decreases |choices|
  {
    if choices == [] then s else Run(Step(s, choices[0]), choices[1..])
  }

  /** A machine that was initialised and never started. */
  predicate Init(s: State) {
    var none := Dir(NoJournal, None, None);
    && s.w.dir == none && s.w.survivors == {none}
    && s.w.files == map[] && s.w.qemu == Off && !s.w.pid && !s.w.aside
    && s.w.memory > 0 && s.w.log == []
    && s.pc == Idle(Fresh)
  }
}
