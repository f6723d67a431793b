/**
  A wake that goes well brings the saved guest back, however often it polls.
 */
module SuspendWake {
  import opened Base
  import opened SuspendWorld
  import opened SuspendSteps
  import opened SuspendInvariant
  import opened SuspendRecovery
  import opened SuspendTurns

  /** The pair is as w left it. */
  predicate SamePair(w: World, s: State) {
    && w.dir.journal.Saved? && s.w.dir.journal == w.dir.journal && s.w.dir.image == Some(w.dir.journal.save)
    && s.w.files == w.files && s.w.disk == w.disk && s.w.log == w.log
    && ValidImage(s.w) && Unspoiled(s.w)
  }

  function SavedVersion(w: World): nat {
    if w.dir.journal.Saved? && w.dir.journal.save in w.files then w.files[w.dir.journal.save].version else 0
  }

  /** The saved guest is in memory, loaded but not continued. */
  predicate GuestLoaded(w: World, w': World) {
    && w.dir.journal.Saved? && w'.qemu.On? && w'.qemu.mode == Loaded(w.dir.journal.save)
    && w'.qemu.mem == SavedVersion(w) && w'.disk == w.disk && w'.log == w.log && w'.pid
    && w'.dir.image == Some(w.dir.journal.save)
  }

  /** One `cont` more than w's, of the guest that was saved. */
  predicate ContinuedSaved(w: World, log: seq<Continued>) {
    && w.dir.journal.Saved?
    && |log| == |w.log| + 1 && log[..|w.log|] == w.log
    && log[|w.log|].image == Some(w.dir.journal.save)
    && (log[|w.log|].coherent <==> SavedVersion(w) == w.disk)
  }

  /** The saved guest runs: its memory is what was saved, and it has seen what it
      wrote since. It was continued once. */
  predicate GuestRestored(w: World, w': World) {
    && w.dir.journal.Saved? && Going(w') && w'.incoming
    && w'.qemu.mem + w.disk == SavedVersion(w) + w'.disk
    && ContinuedSaved(w, w'.log)
    && w'.dir.journal.NoJournal?
  }

  predicate WakeCourse(w: World, s: State, at: WakeAt) {
    match at
    case Validate => SamePair(w, s)
    case WakePid => SamePair(w, s)
    case WakeArgv => SamePair(w, s)
    case WakeLaunch => SamePair(w, s)
    case AwaitIncoming => SamePair(w, s) && s.w.qemu.On?
    case WakeSetUp => SamePair(w, s) && s.w.qemu.On?
    case Load => SamePair(w, s) && s.w.qemu.On?
    case AwaitLoaded =>
      && SamePair(w, s) && s.w.qemu.On? && s.w.incoming
      && (s.w.qemu.transfer == Receiving(w.dir.journal.save) || GuestLoaded(w, s.w))
    case WakeUnlink => GuestLoaded(w, s.w) && s.w.incoming
    case WakeSync => GuestLoaded(w, s.w) && s.w.incoming
    case WakeCont => GuestLoaded(w, s.w) && s.w.incoming
    case WakeImage => GuestRestored(w, s.w)
    case WakeTmp => GuestRestored(w, s.w) && s.w.dir.image.None?
    case _ => false
  }

  /** s is on the way from w, asleep, to its guest, or through it to a stop. */
  predicate Wakes(w: World, goal: Goal, s: State) {
    && (goal.ToStart? || goal == ToStop(false))
    && match s.pc
       case Recovering(g, at) =>
         g == goal && SamePair(w, s) && (at.ReadJournal? || at == Done(Suspended)) && s.w.qemu.Off?
       case Repairing(who, at) =>
         who == ByRecover(goal) && SamePair(w, s) && (at.RepairPid? || at.Examine? || at.KeepPair?)
       case Booting(at) => goal.ToStart? && at.BootCheck? && SamePair(w, s) && s.w.qemu.Off?
       case Waking(g, at) => g == goal && WakeCourse(w, s, at)
       case Stopping(force, at) =>
         && goal == ToStop(force)
         && (if at.StopCheck? then SamePair(w, s) && s.w.qemu.Off?
             else
                && s.w.dir == Dir(NoJournal, None, None) && ContinuedSaved(w, s.w.log)
                && (at.StopPid? ==> s.w.qemu.Off?))
       case Idle(o) =>
         if goal.ToStart? then o.Awake? && GuestRestored(w, s.w) && GuestBack(s.w)
         else o.Halted? && Cleared(s.w) && ContinuedSaved(w, s.w.log)
       case _ => false
  }

  const TO_AWAIT := 11
  const TO_LOAD := 8

  function WakeLeft(pc: Pc): nat {
    match pc
    case Recovering(_, at) => if at.ReadJournal? then 21 else 17
    case Repairing(_, at) => if at.RepairPid? then 20 else if at.Examine? then 19 else 18
    case Booting(_) => 16
    case Waking(_, at) =>
      (match at
       case Validate => 15
       case WakePid => 14
       case WakeArgv => 13
       case WakeLaunch => 12
       case AwaitIncoming => TO_AWAIT
       case WakeSetUp => 10
       case Load => 9
       case AwaitLoaded => TO_LOAD
       case WakeUnlink => 7
       case WakeSync => 6
       case WakeCont => 5
       case WakeImage => 4
       case _ => 3)
    case Stopping(_, at) => if at.StopCheck? then 16 else if at.StopKill? then 2 else 1
    case _ => 0
  }

  /** A poll that comes too early. */
  predicate Early(s: State) {
    && s.pc.Waking?
    && ((s.pc.wat.AwaitIncoming? && !s.w.pid) || (s.pc.wat.AwaitLoaded? && !(s.w.qemu.On? && s.w.qemu.mode.Loaded?)))
  }

  lemma EventKeepsWakes(w: World, goal: Goal, s: State, e: Event)
    requires Inv(s) && Wakes(w, goal, s) && !e.QemuDies? && !e.LoadFails?
    requires !s.pc.Idle?
    ensures Wakes(w, goal, State(Happens(s.w, e), s.pc))
    ensures Early(State(Happens(s.w, e), s.pc)) ==>
      && Early(s)
      && (s.pc.wat.AwaitIncoming? ==> !e.QemuNamesItself?) && (s.pc.wat.AwaitLoaded? ==> !e.LoadDone?)
  {
    hide LogOk, FilesOk;
    assert SavedOk(s.w.files, Taken(s.w.log), s.w.dir);
  }

  lemma RecoverTurns(w: World, goal: Goal, s: State)
    requires Inv(s) && Wakes(w, goal, s) && !s.pc.Idle? && !s.pc.Waking?
    ensures Wakes(w, goal, Turn(s, false)) && WakeLeft(Turn(s, false).pc) < WakeLeft(s.pc)
  {
  }

  lemma LaunchTurns(w: World, goal: Goal, s: State)
    requires Inv(s) && Wakes(w, goal, s) && s.pc.Waking?
    requires s.pc.wat.Validate? || s.pc.wat.WakePid? || s.pc.wat.WakeArgv? || s.pc.wat.WakeLaunch?
    ensures Wakes(w, goal, Turn(s, false))
    ensures WakeLeft(Turn(s, false).pc) < WakeLeft(s.pc)
  {
    hide LogOk, FilesOk, RecoverStep, RepairStep, DiscardStep, SuspendStep, BootStep;
  }

  lemma AwaitTurns(w: World, goal: Goal, s: State)
    requires Inv(s) && Wakes(w, goal, s) && s.pc.Waking? && (s.pc.wat.AwaitIncoming? || s.pc.wat.WakeSetUp?)
    ensures Wakes(w, goal, Turn(s, false))
    ensures if Early(s) then Turn(s, false) == s else WakeLeft(Turn(s, false).pc) < WakeLeft(s.pc)
  {
    hide LogOk, FilesOk, RecoverStep, RepairStep, DiscardStep, SuspendStep, BootStep;
  }

  lemma LoadTurns(w: World, goal: Goal, s: State)
    requires Inv(s) && Wakes(w, goal, s) && s.pc.Waking? && (s.pc.wat.Load?)
    ensures Wakes(w, goal, Turn(s, false))
    ensures WakeLeft(Turn(s, false).pc) < WakeLeft(s.pc)
  {
    hide LogOk, FilesOk, RecoverStep, RepairStep, DiscardStep, SuspendStep, BootStep;
  }

  lemma LoadedTurns(w: World, goal: Goal, s: State)
    requires Inv(s) && Wakes(w, goal, s) && s.pc.Waking? && (s.pc.wat.AwaitLoaded?)
    ensures Wakes(w, goal, Turn(s, false))
    ensures if Early(s) then Turn(s, false) == s else WakeLeft(Turn(s, false).pc) < WakeLeft(s.pc)
  {
    hide LogOk, FilesOk, RecoverStep, RepairStep, DiscardStep, SuspendStep, BootStep;
  }

  lemma UnlinkTurns(w: World, goal: Goal, s: State)
    requires Inv(s) && Wakes(w, goal, s) && s.pc.Waking? && (s.pc.wat.WakeUnlink? || s.pc.wat.WakeSync?)
    ensures Wakes(w, goal, Turn(s, false))
    ensures WakeLeft(Turn(s, false).pc) < WakeLeft(s.pc)
  {
    hide LogOk, FilesOk, RecoverStep, RepairStep, DiscardStep, SuspendStep, BootStep;
  }

  lemma ContTurns(w: World, goal: Goal, s: State)
    requires Inv(s) && Wakes(w, goal, s) && s.pc.Waking? && (s.pc.wat.WakeCont?)
    ensures Wakes(w, goal, Turn(s, false))
    ensures WakeLeft(Turn(s, false).pc) < WakeLeft(s.pc)
  {
    hide LogOk, FilesOk, RecoverStep, RepairStep, DiscardStep, SuspendStep, BootStep;
  }

  lemma TidyTurns(w: World, goal: Goal, s: State)
    requires Inv(s) && Wakes(w, goal, s) && s.pc.Waking? && (s.pc.wat.WakeImage? || s.pc.wat.WakeTmp?)
    ensures Wakes(w, goal, Turn(s, false))
    ensures WakeLeft(Turn(s, false).pc) < WakeLeft(s.pc)
  {
    hide LogOk, FilesOk, RecoverStep, RepairStep, DiscardStep, SuspendStep, BootStep;
  }

  lemma WakeTurns(w: World, goal: Goal, s: State)
    requires Inv(s) && Wakes(w, goal, s) && s.pc.Waking?
    ensures Wakes(w, goal, Turn(s, false))
    ensures if Early(s) then Turn(s, false) == s else WakeLeft(Turn(s, false).pc) < WakeLeft(s.pc)
  {
    hide Inv, Turn, SamePair, GuestLoaded, GuestRestored;
    match s.pc.wat
    case AwaitIncoming => AwaitTurns(w, goal, s);
    case WakeSetUp => AwaitTurns(w, goal, s);
    case Load => LoadTurns(w, goal, s);
    case AwaitLoaded => LoadedTurns(w, goal, s);
    case WakeUnlink => UnlinkTurns(w, goal, s);
    case WakeSync => UnlinkTurns(w, goal, s);
    case WakeCont => ContTurns(w, goal, s);
    case WakeImage => TidyTurns(w, goal, s);
    case WakeTmp => TidyTurns(w, goal, s);
    case _ => LaunchTurns(w, goal, s);
  }

  lemma {:induction false} EventsKeepWakes(w: World, goal: Goal, s: State, es: seq<Event>)
    requires Inv(s) && Wakes(w, goal, s) && Smooth(es) && !s.pc.Idle?
    ensures var s' := State(HappenAll(s.w, es), s.pc);
      && Inv(s') && Wakes(w, goal, s')
      && (Early(s') ==>
            && Early(s)
            && (s.pc.wat.AwaitIncoming? ==> QemuNamesItself !in es)
            && (s.pc.wat.AwaitLoaded? ==> forall e :: e in es ==> !e.LoadDone?))
    decreases |es|
  {
    if es != [] {
      assert es[0] in es;
      hide Inv, Wakes, Happens, Early;
      var s1 := State(Happens(s.w, es[0]), s.pc);
      StepKeeps(s, Env(es[0]));
      EventKeepsWakes(w, goal, s, es[0]);
      EventsKeepWakes(w, goal, s1, es[1..]);
      EarlyIsAPoll(State(HappenAll(s1.w, es[1..]), s.pc));
    }
  }

  lemma EarlyIsAPoll(s: State)
    ensures Early(s) ==> s.pc.Waking?
  {
  }

  /** The hypervisor names itself in ess[i] and its load completes in ess[j], once
      each has begun, and there are turns enough after that. */
  predicate InTime(pc: Pc, ess: seq<seq<Event>>, i: int, j: int) {
    var left := WakeLeft(pc);
    && left <= |ess|
    && (left >= TO_AWAIT ==> left - TO_AWAIT <= i < |ess| && QemuNamesItself in ess[i] && i + 3 <= j)
    && (left >= TO_LOAD ==> left - TO_LOAD <= j && j + TO_LOAD <= |ess| && LoadDone in ess[j])
  }

  /** A turn comes closer, or is a poll that comes too early. */
  lemma OneTurn(w: World, goal: Goal, s: State, es: seq<Event>)
    requires Inv(s) && Wakes(w, goal, s) && Smooth(es) && !s.pc.Idle?
    ensures var s' := Turn(State(HappenAll(s.w, es), s.pc), false);
      && Inv(s') && Wakes(w, goal, s') && WakeLeft(s.pc) > 0
      && (WakeLeft(s'.pc) < WakeLeft(s.pc)
          || (s'.pc == s.pc && s.pc.Waking?
              && (if s.pc.wat.AwaitIncoming? then QemuNamesItself !in es
                  else s.pc.wat.AwaitLoaded? && forall e :: e in es ==> !e.LoadDone?)))
  {
    var s1 := State(HappenAll(s.w, es), s.pc);
    EventsKeepWakes(w, goal, s, es);
    TurnKeeps(s1, false);
    hide Inv, Wakes, Turn, HappenAll;
    if s.pc.Waking? { WakeTurns(w, goal, s1); } else { RecoverTurns(w, goal, s1); }
  }

  lemma {:induction false} WakesInTime(w: World, goal: Goal, s: State, ess: seq<seq<Event>>, i: int, j: int)
    requires Inv(s) && Wakes(w, goal, s) && AllSmooth(ess) && InTime(s.pc, ess, i, j)
    ensures var end := Proceed(s, false, ess); end.pc.Idle? && Wakes(w, goal, end)
    decreases |ess|
  {
    if !s.pc.Idle? {
      hide Inv, Wakes, Turn, HappenAll;
      assert Smooth(ess[0]);
      OneTurn(w, goal, s, ess[0]);
      WakesInTime(w, goal, Turn(State(HappenAll(s.w, ess[0]), s.pc), false), ess[1..], i - 1, j - 1);
    }
  }

  /** A valid pair that no fingerprint speaks against, on a machine that is off. */
  predicate Wakeable(w: World) { w.qemu.Off? && ValidImage(w) && Unspoiled(w) }

  // ----- The result -----

  /** A start of a machine that sleeps, of a valid pair that no fingerprint speaks
      against: once the hypervisor has named itself and has loaded, however many
      polls came before, the saved guest runs with the memory it was saved with,
      continued once, and nothing of the suspend is left. */
  lemma StartWakes(s: State, ess: seq<seq<Event>>, i: nat, j: nat)
    requires Inv(s) && s.pc == Recovering(ToStart, ReadJournal) && Wakeable(s.w)
    requires AllSmooth(ess) && 10 <= i && i + 3 <= j && j + 8 <= |ess|
    requires QemuNamesItself in ess[i] && LoadDone in ess[j]
    ensures var end := Proceed(s, false, ess);
      end.pc == Idle(Awake) && GuestBack(end.w) && GuestRestored(s.w, end.w)
  {
    assert SavedOk(s.w.files, Taken(s.w.log), s.w.dir);
    assert Wakes(s.w, ToStart, s);
    WakesInTime(s.w, ToStart, s, ess, i, j);
  }

  /** A stop of it wakes it first, and ends with nothing of it left. */
  lemma StopWakesFirst(s: State, ess: seq<seq<Event>>, i: nat, j: nat)
    requires Inv(s) && s.pc == Recovering(ToStop(false), ReadJournal) && Wakeable(s.w)
    requires AllSmooth(ess) && 10 <= i && i + 3 <= j && j + 8 <= |ess|
    requires QemuNamesItself in ess[i] && LoadDone in ess[j]
    ensures var end := Proceed(s, false, ess);
      end.pc == Idle(Halted) && Cleared(end.w) && ContinuedSaved(s.w, end.w.log)
  {
    assert SavedOk(s.w.files, Taken(s.w.log), s.w.dir);
    assert Wakes(s.w, ToStop(false), s);
    WakesInTime(s.w, ToStop(false), s, ess, i, j);
  }
}
