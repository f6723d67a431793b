/**
  A start that goes well, of a machine that is off or already runs: a cold boot
  exactly when there is no saved state to wake.
 */
module SuspendBoot {
  import opened Base
  import opened SuspendWorld
  import opened SuspendSteps
  import opened SuspendInvariant
  import opened SuspendRecovery
  import opened SuspendTurns

  /** Off, with nothing to wake: no journal, or a saved pair whose disk was
      written since. */
  predicate BootsCold(w: World) {
    && w.qemu.Off? && !w.pid
    && (w.dir.journal.NoJournal? || (SafelyAsleep(w) && !Unspoiled(w)))
  }

  /** A guest that has read its disk and nothing else. */
  predicate Booted(w: World, w': World) {
    && Going(w') && w'.dir == Dir(NoJournal, None, None) && !w'.incoming
    && w'.qemu.mem == w'.disk && w'.log == w.log
  }

  predicate Unchanged(w: World, w': World) {
    && w'.qemu.Off? && !w'.pid && w'.log == w.log && w'.disk == w.disk
  }

  /** The saved pair that is not to be woken, still there. */
  predicate Spoiled(w: World, w': World) {
    && Unchanged(w, w') && ValidImage(w') && Paired(w') && w'.dir.tmp.None? && !Unspoiled(w')
  }

  /** s is on the way from w to a cold boot. */
  predicate Boots(w: World, s: State) {
    match s.pc
    case Recovering(goal, at) =>
      && goal.ToStart?
      && (match at
          case ReadJournal =>
            Unchanged(w, s.w) && (s.w.dir.journal.NoJournal? || Spoiled(w, s.w))
          case Done(a) =>
            if a.ActNone? then Unchanged(w, s.w) && s.w.dir.journal.NoJournal? else a.Suspended? && Spoiled(w, s.w)
          case _ => false)
    case Repairing(who, at) =>
      who == ByRecover(ToStart) && Spoiled(w, s.w) && (at.RepairPid? || at.Examine? || at.KeepPair?)
    case Waking(goal, at) => goal.ToStart? && (at.Validate? || at.Rejected?) && Spoiled(w, s.w)
    case Discarding(who, at) => who == ByWake(ToStart) && Unchanged(w, s.w) && DiscardCourse(s.w, at)
    case Booting(at) =>
      (match at
       case BootCheck => Unchanged(w, s.w) && (s.w.dir.journal.NoJournal? || Spoiled(w, s.w))
       case BootState => Unchanged(w, s.w) && s.w.dir.journal.NoJournal?
       case BootImage => Unchanged(w, s.w) && s.w.dir.journal.NoJournal?
       case BootTmp(clean) => Unchanged(w, s.w) && s.w.dir.journal.NoJournal? && clean && s.w.dir.image.None?
       case BootArgv => Unchanged(w, s.w) && s.w.dir == Dir(NoJournal, None, None)
       case BootLaunch => Unchanged(w, s.w) && s.w.dir == Dir(NoJournal, None, None) && !s.w.incoming
       case AwaitReady =>
         && s.w.qemu.On? && s.w.qemu.mode.Running? && s.w.qemu.transfer.Quiet? && s.w.qemu.mem == s.w.disk
         && s.w.log == w.log && s.w.dir == Dir(NoJournal, None, None) && !s.w.incoming
       case _ => false)
    case Idle(o) => o.Awake? && Booted(w, s.w)
    case _ => false
  }

  const TO_READY := 1

  function BootLeft(pc: Pc): nat {
    match pc
    case Recovering(_, at) => if at.ReadJournal? then 19 else 15
    case Repairing(_, at) => if at.RepairPid? then 18 else if at.Examine? then 17 else 16
    case Waking(_, at) => if at.Validate? then 13 else 12
    case Discarding(_, at) =>
      if at.Unlink? then 11 else if at.SyncUnlink? then 10 else if at.RemoveImage? then 9 else 8
    case Booting(at) =>
      (match at
       case BootCheck => 14
       case BootState => 7
       case BootImage => 6
       case BootTmp(_) => 5
       case BootArgv => 4
       case BootLaunch => 3
       case _ => TO_READY)
    case _ => 0
  }

  /** A poll that comes before the hypervisor has named itself. */
  predicate Early(s: State) { s.pc.Booting? && s.pc.bat.AwaitReady? && !s.w.pid }

  lemma EventKeepsBoots(w: World, s: State, e: Event)
    requires Inv(s) && Boots(w, s) && !s.pc.Idle? && !e.QemuDies?
    ensures Boots(w, State(Happens(s.w, e), s.pc))
    ensures Early(State(Happens(s.w, e), s.pc)) ==> Early(s) && !e.QemuNamesItself?
  {
    hide LogOk, FilesOk, SurvivorsOk;
  }

  lemma FindingTurns(w: World, s: State)
    requires Inv(s) && Boots(w, s) && (s.pc.Recovering? || s.pc.Repairing? || s.pc.Waking? || s.pc.Discarding?)
    ensures Boots(w, Turn(s, false)) && BootLeft(Turn(s, false).pc) < BootLeft(s.pc)
  {
    hide LogOk, FilesOk, SuspendStep, BootStep, StopStep;
  }

  lemma BootingTurns(w: World, s: State)
    requires Inv(s) && Boots(w, s) && s.pc.Booting?
    ensures Boots(w, Turn(s, false))
    ensures if Early(s) then Turn(s, false) == s else BootLeft(Turn(s, false).pc) < BootLeft(s.pc)
  {
    hide LogOk, FilesOk, SuspendStep, StopStep, RecoverStep, RepairStep, DiscardStep, WakeStep;
  }

  lemma {:induction false} EventsKeepBoots(w: World, s: State, es: seq<Event>)
    requires Inv(s) && Boots(w, s) && !s.pc.Idle? && Calm(es)
    ensures var s' := State(HappenAll(s.w, es), s.pc);
      Inv(s') && Boots(w, s') && (Early(s') ==> Early(s) && QemuNamesItself !in es)
    decreases |es|
  {
    if es != [] {
      assert es[0] in es;
      hide Inv, Boots, Happens, Early;
      StepKeeps(s, Env(es[0]));
      EventKeepsBoots(w, s, es[0]);
      EventsKeepBoots(w, State(Happens(s.w, es[0]), s.pc), es[1..]);
    }
  }

  lemma EarlyPolls(s: State)
    ensures Early(s) ==> s.pc.Booting? && s.pc.bat.AwaitReady?
  {
  }

  lemma LeftUntilIdle(w: World, s: State)
    requires Boots(w, s) && !s.pc.Idle?
    ensures BootLeft(s.pc) > 0
  {
  }

  /** A turn comes closer, or is a poll that comes too early. */
  lemma OneTurn(w: World, s: State, es: seq<Event>)
    requires Inv(s) && Boots(w, s) && !s.pc.Idle? && Calm(es)
    ensures var s' := Turn(State(HappenAll(s.w, es), s.pc), false);
      && Inv(s') && Boots(w, s') && BootLeft(s.pc) > 0
      && (BootLeft(s'.pc) < BootLeft(s.pc)
          || (s'.pc == s.pc && BootLeft(s.pc) == TO_READY && QemuNamesItself !in es))
  {
    var s1 := State(HappenAll(s.w, es), s.pc);
    EventsKeepBoots(w, s, es);
    TurnKeeps(s1, false);
    LeftUntilIdle(w, s);
    EarlyPolls(s1);
    BootsKinds(w, s1);
    hide Inv, Boots, Turn, HappenAll, Early;
    if s.pc.Booting? { BootingTurns(w, s1); } else { FindingTurns(w, s1); }
  }

  lemma BootsKinds(w: World, s: State)
    requires Boots(w, s) && !s.pc.Idle?
    ensures s.pc.Booting? || s.pc.Recovering? || s.pc.Repairing? || s.pc.Waking? || s.pc.Discarding?
  {
  }

  lemma {:induction false} BootsInTime(w: World, s: State, ess: seq<seq<Event>>, i: int)
    requires Inv(s) && Boots(w, s) && AllCalm(ess)
    requires s.pc.Idle? || (BootLeft(s.pc) - TO_READY <= i < |ess| && QemuNamesItself in ess[i])
    ensures var end := Proceed(s, false, ess); end.pc.Idle? && Boots(w, end)
    decreases |ess|
  {
    if !s.pc.Idle? {
      assert BootLeft(s.pc) > 0 by { LeftUntilIdle(w, s); }
      var s' := Turn(State(HappenAll(s.w, ess[0]), s.pc), false);
      OneTurn(w, s, ess[0]);
      if !s'.pc.Idle? { LeftUntilIdle(w, s'); }
      hide Inv, Boots, Turn, HappenAll;
      BootsInTime(w, s', ess[1..], i - 1);
    }
  }

  /** A start of a machine that is off and has nothing to wake boots it cold, once
      the hypervisor has named itself: its guest runs, has read its disk and
      nothing else, and no saved state is left. */
  lemma StartBoots(s: State, ess: seq<seq<Event>>, i: nat)
    requires Inv(s) && s.pc == Recovering(ToStart, ReadJournal) && BootsCold(s.w)
    requires AllCalm(ess) && 18 <= i < |ess| && QemuNamesItself in ess[i]
    ensures var end := Proceed(s, false, ess); end.pc == Idle(Awake) && Booted(s.w, end.w)
  {
    BootsInTime(s.w, s, ess, i);
  }

  /** A start that finds the guest of a live hypervisor halted ends that hypervisor
      and boots the machine in its place. */
  lemma StartReplacesHaltedGuest(s: State, ess: seq<seq<Event>>, i: nat)
    requires Inv(s) && s.pc == Booting(BootCheck) && Alive(s.w) && s.w.dir.journal.NoJournal?
    requires AllCalm(ess) && 13 <= i < |ess| && QemuNamesItself in ess[i]
    ensures var after := JmStep(JmStep(JmStep(s, true, true), true, false), true, false);
      && after == State(s.w.(qemu := Off, pid := false), Booting(BootCheck))
      && var end := Proceed(after, false, ess); end.pc == Idle(Awake) && Booted(s.w, end.w)
  {
    var w1 := s.w.(qemu := Off, pid := false);
    var s1 := JmStep(s, true, true);
    var s2 := JmStep(s1, true, false);
    var after := JmStep(s2, true, false);
    assert s1 == State(s.w, Booting(HaltGuest));
    assert s2 == State(s.w.(qemu := Off), Booting(HaltPid));
    assert after == State(w1, Booting(BootCheck));
    StepKeeps(s, Jm(true, true));
    StepKeeps(s1, Jm(true, false));
    StepKeeps(s2, Jm(true, false));
    hide Inv, JmStep;
    BootsInTime(w1, after, ess, i);
  }

  // ----- A machine that runs -----

  predicate StaysUp(w: World, s: State) {
    && GuestBack(s.w) && GuestBack(w) && s.w.log == w.log && s.w.qemu.mem + w.disk == w.qemu.mem + s.w.disk
    && match s.pc
       case Recovering(goal, at) =>
         && goal.ToStart?
         && (at.ReadJournal? || (at.QueryStatus? && s.w.incoming) || at.SweepImage? || at.SweepTmp? || at == Done(ActNone))
       case Booting(at) => at.BootCheck?
       case Idle(o) => o.Awake?
       case _ => false
  }

  function UpLeft(pc: Pc): nat {
    match pc
    case Recovering(_, at) =>
      if at.ReadJournal? then 6 else if at.QueryStatus? then 5 else if at.SweepImage? then 4
      else if at.SweepTmp? then 3 else 2
    case Booting(_) => 1
    case _ => 0
  }

  lemma UpTurns(w: World, s: State)
    requires StaysUp(w, s) && !s.pc.Idle?
    ensures StaysUp(w, Turn(s, false)) && UpLeft(Turn(s, false).pc) < UpLeft(s.pc)
  {
    hide SuspendStep, StopStep, RepairStep, DiscardStep, WakeStep;
  }

  lemma {:induction false} EventsKeepUp(w: World, s: State, es: seq<Event>)
    requires StaysUp(w, s) && Calm(es)
    ensures StaysUp(w, State(HappenAll(s.w, es), s.pc))
    decreases |es|
  {
    if es != [] {
      assert es[0] in es;
      EventsKeepUp(w, State(Happens(s.w, es[0]), s.pc), es[1..]);
    }
  }

  lemma {:induction false} UpInTime(w: World, s: State, ess: seq<seq<Event>>)
    requires StaysUp(w, s) && AllCalm(ess) && UpLeft(s.pc) <= |ess|
    ensures var end := Proceed(s, false, ess); end.pc.Idle? && StaysUp(w, end)
    decreases |ess|
  {
    if !s.pc.Idle? {
      var s1 := State(HappenAll(s.w, ess[0]), s.pc);
      EventsKeepUp(w, s, ess[0]);
      UpTurns(w, s1);
      hide StaysUp, Turn, HappenAll;
      UpInTime(w, Turn(s1, false), ess[1..]);
    }
  }

  /** A start of a machine that runs leaves its guest running, untouched. */
  lemma StartLeavesItUp(s: State, ess: seq<seq<Event>>)
    requires s.pc == Recovering(ToStart, ReadJournal) && GuestBack(s.w) && |ess| >= 6 && AllCalm(ess)
    ensures var w, end := s.w, Proceed(s, false, ess);
      && end.pc == Idle(Awake) && GuestBack(end.w)
      && end.w.log == w.log && end.w.qemu.mem + w.disk == w.qemu.mem + end.w.disk
  {
    UpInTime(s.w, s, ess);
  }
}
