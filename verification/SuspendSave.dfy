/**
  A suspend that goes well saves the running guest, however often it polls; and
  with the wake that follows, the guest goes on where it was.
 */
module SuspendSave {
  import opened Base
  import opened SuspendWorld
  import opened SuspendSteps
  import opened SuspendInvariant
  import opened SuspendRecovery
  import opened SuspendTurns
  import opened SuspendWake

  /** The guest of w has run on, or is frozen. */
  predicate SameGuest(w: World, w': World) {
    && w.qemu.On? && w'.qemu.On? && w'.pid && w'.qemu.mem + w.disk == w.qemu.mem + w'.disk
    && w'.log == w.log && w'.memory == w.memory
  }

  /** Save n holds the guest of w. */
  predicate Holds(w: World, w': World, n: nat) {
    && w.qemu.On? && n in w'.files && w'.files[n].version + w.disk == w.qemu.mem + w'.disk
    && w'.files[n].size >= w.memory && w'.log == w.log && w'.memory == w.memory
  }

  predicate HasSent(w: World, w': World, n: nat) {
    SameGuest(w, w') && Holds(w, w', n) && w'.qemu.mode.PostMigrate? && w'.qemu.transfer == Sent(n)
  }

  predicate Committed(w: World, w': World, n: nat, mark: Option<nat>) {
    Holds(w, w', n) && w'.dir == Dir(Saved(n, w'.files[n].size, mark), Some(n), None)
  }

  predicate SuspendCourse(w: World, marks: bool, s: State, at: SuspendAt) {
    var w' := s.w;
    match at
    case CheckRunning => SameGuest(w, w') && GuestBack(w')
    case WriteSaving => SameGuest(w, w') && GuestBack(w')
    case SyncSaving => SameGuest(w, w') && Going(w') && w'.dir == Dir(Saving, None, None)
    case HandEndpoints => SameGuest(w, w') && Going(w') && w'.dir == Dir(Saving, None, None)
    case SetUp => SameGuest(w, w') && Going(w') && w'.dir == Dir(Saving, None, None)
    case Freeze => SameGuest(w, w') && Going(w') && w'.dir == Dir(Saving, None, None)
    case Create => SameGuest(w, w') && w'.qemu.mode.Paused? && w'.dir == Dir(Saving, None, None)
    case Migrate(n) => SameGuest(w, w') && w'.qemu.mode.Paused? && w'.dir == Dir(Saving, None, Some(n))
    case Poll(n) =>
      && SameGuest(w, w') && w'.dir == Dir(Saving, None, Some(n))
      && ((w'.qemu.mode.Paused? && w'.qemu.transfer == Sending(n)) || HasSent(w, w', n))
    case SyncImage(n) => HasSent(w, w', n) && w'.dir == Dir(Saving, None, Some(n))
    case RenameImage(n) => HasSent(w, w', n) && w'.dir == Dir(Saving, None, Some(n))
    case SyncRename(n) => HasSent(w, w', n) && w'.dir == Dir(Saving, Some(n), None)
    case WriteSaved(n) => HasSent(w, w', n) && w'.dir == Dir(Saving, Some(n), None)
    case SyncSaved(n) => HasSent(w, w', n) && Committed(w, w', n, None)
    case Quit(n) => HasSent(w, w', n) && Committed(w, w', n, None)
    case QuitPid(n) => w'.qemu.Off? && Committed(w, w', n, None)
    case Print(n) => w'.qemu.Off? && !w'.pid && Committed(w, w', n, None)
    case SyncPrint(n) => marks && w'.qemu.Off? && !w'.pid && Committed(w, w', n, Some(w'.disk))
    case _ => false
  }

  /** The guest of w is saved, of full size, fingerprinted if that could be. */
  predicate GuestSaved(w: World, marks: bool, w': World) {
    && w.qemu.On? && SafelyAsleep(w')
    && w'.dir.journal.mark == (if marks then Some(w'.disk) else None)
    && SavedVersion(w') + w.disk == w.qemu.mem + w'.disk
    && w'.dir.journal.size >= w.memory && w'.log == w.log
  }

  /** s is on the way from the running guest of w to its saved state. */
  predicate Saves(w: World, marks: bool, s: State) {
    match s.pc
    case Recovering(goal, at) =>
      && goal.ToSuspend? && SameGuest(w, s.w) && GuestBack(s.w)
      && (at.ReadJournal? || (at.QueryStatus? && s.w.incoming) || at.SweepImage? || at.SweepTmp? || at == Done(ActNone))
    case Suspending(at) => SuspendCourse(w, marks, s, at)
    case Idle(o) => o.Asleep? && GuestSaved(w, marks, s.w)
    case _ => false
  }

  const TO_POLL := 10

  function SaveLeft(pc: Pc): nat {
    match pc
    case Recovering(_, at) =>
      (match at
       case ReadJournal => 23
       case QueryStatus => 22
       case SweepImage => 21
       case SweepTmp => 20
       case _ => 19)
    case Suspending(at) =>
      (match at
       case CheckRunning => 18
       case WriteSaving => 17
       case SyncSaving => 16
       case HandEndpoints => 15
       case SetUp => 14
       case Freeze => 13
       case Create => 12
       case Migrate(_) => 11
       case Poll(_) => TO_POLL
       case SyncImage(_) => 9
       case RenameImage(_) => 8
       case SyncRename(_) => 7
       case WriteSaved(_) => 6
       case SyncSaved(_) => 5
       case Quit(_) => 4
       case QuitPid(_) => 3
       case Print(_) => 2
       case _ => 1)
    case _ => 0
  }

  /** A poll that comes too early. */
  predicate Early(s: State) { s.pc.Suspending? && s.pc.sat.Poll? && s.w.qemu.On? && s.w.qemu.transfer.Sending? }

  /** A save that completes is as large as the guest's memory. */
  predicate Roomy(es: seq<Event>, memory: nat) { forall e :: e in es && e.SaveDone? ==> e.size >= memory }

  lemma EventKeepsSaves(w: World, marks: bool, s: State, e: Event)
    requires Inv(s) && Saves(w, marks, s) && !s.pc.Idle?
    requires !e.QemuDies? && !e.SaveFails? && (e.SaveDone? ==> e.size >= w.memory)
    ensures Saves(w, marks, State(Happens(s.w, e), s.pc))
    ensures Early(State(Happens(s.w, e), s.pc)) ==> Early(s) && !e.SaveDone?
  {
    hide LogOk, FilesOk;
  }

  lemma RecoverTurns(w: World, marks: bool, s: State)
    requires Inv(s) && Saves(w, marks, s) && s.pc.Recovering?
    ensures Saves(w, marks, Turn(s, marks))
    ensures SaveLeft(Turn(s, marks).pc) < SaveLeft(s.pc)
  {
    hide LogOk, FilesOk, RepairStep, DiscardStep, WakeStep, BootStep, StopStep;
  }

  lemma PrepareTurns(w: World, marks: bool, s: State)
    requires Inv(s) && Saves(w, marks, s) && s.pc.Suspending? && InPrepare(s.pc.sat)
    ensures Saves(w, marks, Turn(s, marks))
    ensures SaveLeft(Turn(s, marks).pc) < SaveLeft(s.pc)
  {
    hide LogOk, FilesOk, RepairStep, DiscardStep, WakeStep, BootStep, StopStep;
  }

  lemma CreateTurns(w: World, marks: bool, s: State)
    requires Inv(s) && Saves(w, marks, s) && s.pc.Suspending? && (s.pc.sat.Create? || s.pc.sat.Migrate?)
    ensures Saves(w, marks, Turn(s, marks))
    ensures SaveLeft(Turn(s, marks).pc) < SaveLeft(s.pc)
  {
    hide LogOk, FilesOk, RepairStep, DiscardStep, WakeStep, BootStep, StopStep;
  }

  lemma PollTurns(w: World, marks: bool, s: State)
    requires Inv(s) && Saves(w, marks, s) && s.pc.Suspending? && (s.pc.sat.Poll? || s.pc.sat.SyncImage?)
    ensures Saves(w, marks, Turn(s, marks))
    ensures if Early(s) then Turn(s, marks) == s else SaveLeft(Turn(s, marks).pc) < SaveLeft(s.pc)
  {
    hide LogOk, FilesOk, RepairStep, DiscardStep, WakeStep, BootStep, StopStep;
  }

  lemma CommitTurns(w: World, marks: bool, s: State)
    requires Inv(s) && Saves(w, marks, s) && s.pc.Suspending? && InCommit(s.pc.sat)
    ensures Saves(w, marks, Turn(s, marks))
    ensures SaveLeft(Turn(s, marks).pc) < SaveLeft(s.pc)
  {
    hide LogOk, FilesOk, RepairStep, DiscardStep, WakeStep, BootStep, StopStep;
  }

  lemma QuitTurns(w: World, marks: bool, s: State)
    requires Inv(s) && Saves(w, marks, s) && s.pc.Suspending? && (s.pc.sat.SyncSaved? || s.pc.sat.Quit?)
    ensures Saves(w, marks, Turn(s, marks))
    ensures SaveLeft(Turn(s, marks).pc) < SaveLeft(s.pc)
  {
    hide LogOk, FilesOk, RepairStep, DiscardStep, WakeStep, BootStep, StopStep;
  }

  lemma EndTurns(w: World, marks: bool, s: State)
    requires Inv(s) && Saves(w, marks, s) && s.pc.Suspending?
    requires s.pc.sat.QuitPid? || s.pc.sat.Print? || s.pc.sat.SyncPrint?
    ensures Saves(w, marks, Turn(s, marks))
    ensures SaveLeft(Turn(s, marks).pc) < SaveLeft(s.pc)
  {
    hide LogOk, FilesOk, RepairStep, DiscardStep, WakeStep, BootStep, StopStep;
  }

  lemma SaveTurns(w: World, marks: bool, s: State)
    requires Inv(s) && Saves(w, marks, s) && !s.pc.Idle?
    ensures Saves(w, marks, Turn(s, marks))
    ensures if Early(s) then Turn(s, marks) == s else SaveLeft(Turn(s, marks).pc) < SaveLeft(s.pc)
  {
    hide Inv, Turn, SameGuest, Holds, Committed, GuestBack, Going;
    if s.pc.Recovering? { RecoverTurns(w, marks, s); }
    else if InPrepare(s.pc.sat) { PrepareTurns(w, marks, s); }
    else if s.pc.sat.Create? || s.pc.sat.Migrate? { CreateTurns(w, marks, s); }
    else if s.pc.sat.Poll? || s.pc.sat.SyncImage? { PollTurns(w, marks, s); }
    else if InCommit(s.pc.sat) { CommitTurns(w, marks, s); }
    else if s.pc.sat.SyncSaved? || s.pc.sat.Quit? { QuitTurns(w, marks, s); }
    else { EndTurns(w, marks, s); }
  }

  lemma {:induction false} EventsKeepSaves(w: World, marks: bool, s: State, es: seq<Event>)
    requires Inv(s) && Saves(w, marks, s) && !s.pc.Idle? && Smooth(es) && Roomy(es, w.memory)
    ensures var s' := State(HappenAll(s.w, es), s.pc);
      Inv(s') && Saves(w, marks, s') && (Early(s') ==> Early(s) && forall e :: e in es ==> !e.SaveDone?)
    decreases |es|
  {
    if es != [] {
      assert es[0] in es;
      hide Inv, Saves, Happens, Early;
      var s1 := State(Happens(s.w, es[0]), s.pc);
      StepKeeps(s, Env(es[0]));
      EventKeepsSaves(w, marks, s, es[0]);
      EventsKeepSaves(w, marks, s1, es[1..]);
    }
  }

  lemma EarlyPolls(s: State)
    ensures Early(s) ==> s.pc.Suspending? && s.pc.sat.Poll?
  {
  }

  lemma LeftUntilIdle(w: World, marks: bool, s: State)
    requires Saves(w, marks, s) && !s.pc.Idle?
    ensures SaveLeft(s.pc) > 0
  {
  }

  /** A turn comes closer, or is a poll that comes too early. */
  lemma OneTurn(w: World, marks: bool, s: State, es: seq<Event>)
    requires Inv(s) && Saves(w, marks, s) && !s.pc.Idle? && Smooth(es) && Roomy(es, w.memory)
    ensures var s' := Turn(State(HappenAll(s.w, es), s.pc), marks);
      && Inv(s') && Saves(w, marks, s') && SaveLeft(s.pc) > 0
      && (SaveLeft(s'.pc) < SaveLeft(s.pc)
          || (s'.pc == s.pc && SaveLeft(s.pc) == TO_POLL && forall e :: e in es ==> !e.SaveDone?))
  {
    var s1 := State(HappenAll(s.w, es), s.pc);
    EventsKeepSaves(w, marks, s, es);
    TurnKeeps(s1, marks);
    LeftUntilIdle(w, marks, s);
    EarlyPolls(s1);
    hide Inv, Saves, Turn, HappenAll, Early;
    SaveTurns(w, marks, s1);
  }

  /** The save completes in ess[j], once it has begun, with turns enough after. */
  predicate InTime(pc: Pc, ess: seq<seq<Event>>, j: int) {
    var left := SaveLeft(pc);
    && left <= |ess|
    && (left >= TO_POLL ==> left - TO_POLL <= j && j + TO_POLL <= |ess| && exists e :: e in ess[j] && e.SaveDone?)
  }

  lemma {:induction false} SavesInTime(w: World, marks: bool, s: State, ess: seq<seq<Event>>, j: int)
    requires Inv(s) && Saves(w, marks, s) && AllSmooth(ess) && InTime(s.pc, ess, j)
    requires forall i :: 0 <= i < |ess| ==> Roomy(ess[i], w.memory)
    ensures var end := Proceed(s, marks, ess); end.pc.Idle? && Inv(end) && Saves(w, marks, end)
    decreases |ess|
  {
    if !s.pc.Idle? {
      hide Inv, Saves, Turn, HappenAll;
      assert SaveLeft(s.pc) > 0 by { LeftUntilIdle(w, marks, s); }
      assert Smooth(ess[0]) && Roomy(ess[0], w.memory);
      OneTurn(w, marks, s, ess[0]);
      SavesInTime(w, marks, Turn(State(HappenAll(s.w, ess[0]), s.pc), marks), ess[1..], j - 1);
    }
  }

  // ----- The results -----

  /** A suspend of a running machine: once its save has completed, however many
      polls came before, its guest is saved as it was frozen. */
  lemma SuspendSaves(s: State, marks: bool, ess: seq<seq<Event>>, j: nat)
    requires Inv(s) && s.pc == Recovering(ToSuspend, ReadJournal) && GuestBack(s.w)
    requires AllSmooth(ess) && (forall i :: 0 <= i < |ess| ==> Roomy(ess[i], s.w.memory))
    requires 13 <= j && j + 10 <= |ess| && exists e :: e in ess[j] && e.SaveDone?
    ensures var end := Proceed(s, marks, ess);
      end.pc == Idle(Asleep) && GuestSaved(s.w, marks, end.w) && Inv(end)
  {
    SavesInTime(s.w, marks, s, ess, j);
  }

  /** Suspended and started again, a guest goes on where it was: it runs, nothing
      of the suspend is left, its memory has seen what it had seen and what it
      wrote since, and it was continued once, from its own image, matching its disk
      if it did before. */
  lemma RoundTrip(s: State, marks: bool, ess: seq<seq<Event>>, j: nat, ess': seq<seq<Event>>, i': nat, j': nat)
    returns (asleep: World)
    requires Inv(s) && s.pc == Recovering(ToSuspend, ReadJournal) && GuestBack(s.w)
    requires AllSmooth(ess) && (forall i :: 0 <= i < |ess| ==> Roomy(ess[i], s.w.memory))
    requires 13 <= j && j + 10 <= |ess| && exists e :: e in ess[j] && e.SaveDone?
    requires AllSmooth(ess') && 10 <= i' && i' + 3 <= j' && j' + 8 <= |ess'|
    requires QemuNamesItself in ess'[i'] && LoadDone in ess'[j']
    ensures Proceed(s, marks, ess) == State(asleep, Idle(Asleep))
    ensures var w, end := s.w, Proceed(Step(State(asleep, Idle(Asleep)), Begin(Start)), false, ess');
      && end.pc == Idle(Awake) && GuestBack(end.w)
      && end.w.qemu.mem + w.disk == w.qemu.mem + end.w.disk
      && |end.w.log| == |w.log| + 1 && end.w.log[..|w.log|] == w.log
      && asleep.dir.journal.Saved? && end.w.log[|w.log|].image == Some(asleep.dir.journal.save)
      && (end.w.log[|w.log|].coherent <==> w.qemu.mem == w.disk)
  {
    SuspendSaves(s, marks, ess, j);
    var end := Proceed(s, marks, ess);
    asleep := end.w;
    StepKeeps(end, Begin(Start));
    StartWakes(Step(end, Begin(Start)), ess', i', j');
  }
}
