/**
  What one recovery makes of each machine: told from the machine it finds, over
  recoveries whose calls succeed and whose hypervisor does not die.
 */
module SuspendTable {
  import opened Base
  import opened SuspendWorld
  import opened SuspendSteps
  import opened SuspendInvariant
  import opened SuspendRecovery

  /** The image a guest that was never continued was loaded from. */
  function LoadedFrom(w: World): Option<nat> {
    if w.qemu.On? && w.qemu.mode.Loaded? then Some(w.qemu.mode.save) else None
  }

  /** The guest of w is the guest of w', as far as it was not running: what its
      memory is behind or ahead of the disk by is the same, and it was continued
      once if it was frozen, and not if it ran. */
  predicate GuestKept(w: World, w': World) {
    && w.qemu.On? && w'.qemu.On? && w'.qemu.mode.Running?
    && w'.qemu.mem + w.disk == w.qemu.mem + w'.disk
    && (if w.qemu.mode.Running? then w'.log == w.log else ContinuedOnce(w, w'))
  }

  predicate ContinuedOnce(w: World, w': World) {
    && |w'.log| == |w.log| + 1 && w'.log[..|w.log|] == w.log
    && w'.log[|w.log|].image == LoadedFrom(w)
    && (w.qemu.On? ==> (w'.log[|w.log|].coherent <==> w.qemu.mem == w.disk))
  }

  /** The saved pair of w is the one of w', fingerprinted if its hypervisor was
      ended for it. No guest was continued. */
  predicate PairKept(w: World, w': World) {
    && w.dir.journal.Saved? && w'.dir.journal.Saved?
    && w'.dir.journal.save == w.dir.journal.save && w'.dir.journal.size == w.dir.journal.size
    && w'.dir.journal.mark == (if Alive(w) && w.dir.journal.mark.None? then Some(w.disk) else w.dir.journal.mark)
    && w'.files == w.files && w'.disk == w.disk && w'.log == w.log
  }

  // ----- Where a recovery is headed -----

  datatype Fate = ToGuest | ToPair | ToNothing | ToNobody

  function PairFate(w: World): Fate { if ValidImage(w) then ToPair else ToNothing }

  function RecoverFate(w: World, at: RecoverAt): Fate {
    match at
    case ReadJournal =>
      if w.dir.journal.Saved? then PairFate(w)
      else if Alive(w) then if w.qemu.mode.InMigrate? then ToNothing else ToGuest
      else if w.dir.journal.NoJournal? then ToNobody
      else ToNothing
    case QueryStatus => if w.qemu.On? && !w.qemu.mode.InMigrate? then ToGuest else ToNothing
    case SweepImage => ToGuest
    case SweepTmp => ToGuest
    case SavedStatus => PairFate(w)
    case SavedKill => PairFate(w)
    case SavedPid => PairFate(w)
    case SavedPrint => PairFate(w)
    case SavedPrintSync => PairFate(w)
    case BadAside(status) => if status.IsIncoming? then ToNothing else ToGuest
    case BadAsideSync(status) => if status.IsIncoming? then ToNothing else ToGuest
    case SavingCancel => ToGuest
    case SavingTmp => ToGuest
    case SavingCont => ToGuest
    case IncomingSync => ToGuest
    case IncomingCont => ToGuest
    case IncomingImage => ToGuest
    case IncomingTmp => ToGuest
    case Done(a) =>
      (match a
       case ActNone => if w.qemu.On? then ToGuest else ToNobody
       case ResumedGuest => ToGuest
       case Suspended => ToPair
       case Discarded => ToNothing)
    case _ => ToNothing
  }

  function FateOf(s: State): Fate {
    match s.pc
    case Recovering(_, at) => RecoverFate(s.w, at)
    case Repairing(_, at) =>
      if at.RepairPid? || at.Examine? then PairFate(s.w) else if at.KeepPair? then ToPair else ToNothing
    case Discarding(who, _) => if who.BySaving? then ToGuest else ToNothing
    case _ => ToNothing
  }

  /** The recovery has yet to look at the hypervisor, and a load may still
      complete before it does. */
  predicate MayLoad(s: State) {
    && s.pc.Recovering? && (s.pc.rat.ReadJournal? || s.pc.rat.QueryStatus?)
    && !s.w.dir.journal.Saved? && s.w.qemu.On? && s.w.qemu.mode.InMigrate?
  }

  /** Before the fingerprint is taken. */
  predicate Unmarked(pc: Pc) {
    pc.Recovering? && (pc.rat.ReadJournal? || InSaved(pc.rat)) && !pc.rat.SavedPrintSync?
  }

  predicate PairSoFar(w: World, s: State) {
    && w.dir.journal.Saved? && s.w.dir.journal.Saved?
    && s.w.dir.journal.save == w.dir.journal.save && s.w.dir.journal.size == w.dir.journal.size
    && s.w.dir.journal.mark ==
       (if Alive(w) && w.dir.journal.mark.None? && !Unmarked(s.pc) then Some(w.disk) else w.dir.journal.mark)
    && s.w.files == w.files && s.w.disk == w.disk && s.w.log == w.log
    && (if s.pc.Repairing? then s.pc.who.ByRecoverSaved? <==> Alive(w)
        else s.pc.Recovering? && (s.pc.rat.ReadJournal? ==> (Alive(s.w) <==> Alive(w)))
             && (InSaved(s.pc.rat) ==> Alive(w)))
  }

  predicate AlreadyRuns(w: World) { w.qemu.On? && w.qemu.mode.Running? }

  /** A recovery says "nothing to recover" of a running guest without a journal,
      and "resumed" of any other guest. */
  predicate SaysSo(w: World, s: State)
    requires w.qemu.On? && s.pc.Recovering?
  {
    match s.pc.rat
    case ReadJournal => s.w.dir == w.dir && (AlreadyRuns(s.w) <==> AlreadyRuns(w))
    case QueryStatus => s.w.dir == w.dir && (AlreadyRuns(s.w) <==> AlreadyRuns(w))
    case SweepImage => w.dir.journal.NoJournal? && w.qemu.mode.Running?
    case SweepTmp => w.dir.journal.NoJournal? && w.qemu.mode.Running?
    case Done(a) => a.ActNone? <==> w.dir.journal.NoJournal? && w.qemu.mode.Running?
    case _ => !(w.dir.journal.NoJournal? && w.qemu.mode.Running?)
  }

  predicate GuestSoFar(w: World, s: State) {
    && w.qemu.On? && s.w.qemu.On? && s.w.qemu.mem + w.disk == w.qemu.mem + s.w.disk
    && (if s.pc.Recovering? then SaysSo(w, s) else !(w.dir.journal.NoJournal? && w.qemu.mode.Running?))
    && (if w.qemu.mode.Running? then s.w.log == w.log && s.w.qemu.mode.Running?
        else if s.w.qemu.mode.Running? then ContinuedOnce(w, s.w)
        else s.w.log == w.log && LoadedFrom(s.w) == LoadedFrom(w))
  }

  /** What a recovery that began with w has kept. */
  predicate SoFar(w: World, s: State) {
    match FateOf(s)
    case ToGuest => GuestSoFar(w, s)
    case ToPair => PairSoFar(w, s)
    case ToNothing => s.w.log == w.log
    case ToNobody => s.w == w && w.qemu.Off?
  }

  predicate Tabled(w: World, f: Fate, s: State) {
    Inv(s) && Course(s.w, s.pc) && !MayLoad(s) && FateOf(s) == f && SoFar(w, s)
  }

  lemma EventKeepsFate(s: State, e: Event)
    requires Inv(s) && Course(s.w, s.pc) && !MayLoad(s) && !e.QemuDies?
    ensures var s' := State(Happens(s.w, e), s.pc); FateOf(s') == FateOf(s) && !MayLoad(s')
  {
    hide LogOk, FilesOk, SurvivorsOk;
  }

  lemma EventKeepsSoFar(w: World, s: State, e: Event)
    requires Inv(s) && Course(s.w, s.pc) && !MayLoad(s) && !e.QemuDies? && SoFar(w, s)
    requires FateOf(State(Happens(s.w, e), s.pc)) == FateOf(s)
    ensures SoFar(w, State(Happens(s.w, e), s.pc))
  {
    hide LogOk, FilesOk, SurvivorsOk;
  }

  lemma {:induction false} EventsKeepTabled(w: World, f: Fate, s: State, es: seq<Event>)
    requires Tabled(w, f, s) && Calm(es)
    ensures Tabled(w, f, State(HappenAll(s.w, es), s.pc))
    decreases |es|
  {
    if es != [] {
      assert es[0] in es;
      hide Inv, Course, MayLoad, FateOf, SoFar, Happens;
      EventKeepsCourse(s, es[0]);
      EventKeepsFate(s, es[0]);
      EventKeepsSoFar(w, s, es[0]);
      EventsKeepTabled(w, f, State(Happens(s.w, es[0]), s.pc), es[1..]);
    }
  }

  lemma ReadKeepsFate(w: World, s: State)
    requires Inv(s) && Course(s.w, s.pc) && !MayLoad(s) && SoFar(w, s)
    requires s.pc.Recovering? && (s.pc.rat.ReadJournal? || s.pc.rat.QueryStatus?)
    ensures FateOf(Good(s)) == FateOf(s) && SoFar(w, Good(s)) && !MayLoad(Good(s))
  {
    hide LogOk, FilesOk, SuspendStep, WakeStep, BootStep, StopStep;
  }

  lemma SavedKeepsFate(w: World, s: State)
    requires Inv(s) && Course(s.w, s.pc) && SoFar(w, s) && s.pc.Recovering? && InSaved(s.pc.rat)
    ensures FateOf(Good(s)) == FateOf(s) && SoFar(w, Good(s)) && !MayLoad(Good(s))
  {
    hide LogOk, FilesOk, SuspendStep, WakeStep, BootStep, StopStep;
  }

  lemma AsideKeepsFate(w: World, s: State)
    requires Inv(s) && Course(s.w, s.pc) && SoFar(w, s) && s.pc.Recovering?
    requires InAside(s.pc.rat)
    ensures FateOf(Good(s)) == FateOf(s) && SoFar(w, Good(s)) && !MayLoad(Good(s))
  {
    hide LogOk, FilesOk, RepairStep, DiscardStep, SuspendStep, WakeStep, BootStep, StopStep;
  }

  lemma SavingKeepsFate(w: World, s: State)
    requires Inv(s) && Course(s.w, s.pc) && SoFar(w, s) && s.pc.Recovering?
    requires s.pc.rat.SavingTmp? || s.pc.rat.SavingCont?
    ensures FateOf(Good(s)) == FateOf(s) && SoFar(w, Good(s)) && !MayLoad(Good(s))
  {
    hide LogOk, FilesOk, RepairStep, DiscardStep, SuspendStep, WakeStep, BootStep, StopStep;
  }

  lemma KillKeepsFate(w: World, s: State)
    requires Inv(s) && Course(s.w, s.pc) && SoFar(w, s) && s.pc.Recovering?
    requires s.pc.rat.SavingKill? || s.pc.rat.SavingPid?
    ensures FateOf(Good(s)) == FateOf(s) && SoFar(w, Good(s)) && !MayLoad(Good(s))
  {
    hide LogOk, FilesOk, RepairStep, DiscardStep, SuspendStep, WakeStep, BootStep, StopStep;
  }

  lemma IncomingKeepsFate(w: World, s: State)
    requires Inv(s) && Course(s.w, s.pc) && SoFar(w, s) && s.pc.Recovering?
    requires s.pc.rat.IncomingSync? || s.pc.rat.IncomingCont?
    ensures FateOf(Good(s)) == FateOf(s) && SoFar(w, Good(s)) && !MayLoad(Good(s))
  {
    hide LogOk, FilesOk, RepairStep, DiscardStep, SuspendStep, WakeStep, BootStep, StopStep;
  }

  lemma TidyKeepsFate(w: World, s: State)
    requires Inv(s) && Course(s.w, s.pc) && SoFar(w, s) && s.pc.Recovering?
    requires InTidy(s.pc.rat)
    ensures FateOf(Good(s)) == FateOf(s) && SoFar(w, Good(s)) && !MayLoad(Good(s))
  {
    hide LogOk, FilesOk, RepairStep, DiscardStep, SuspendStep, WakeStep, BootStep, StopStep;
  }

  lemma StrayKeepsFate(w: World, s: State)
    requires Inv(s) && Course(s.w, s.pc) && SoFar(w, s) && s.pc.Recovering?
    requires s.pc.rat.StrayKill? || s.pc.rat.StrayPid?
    ensures FateOf(Good(s)) == FateOf(s) && SoFar(w, Good(s)) && !MayLoad(Good(s))
  {
    hide LogOk, FilesOk, RepairStep, DiscardStep, SuspendStep, WakeStep, BootStep, StopStep;
  }

  lemma StrayFilesKeepFate(w: World, s: State)
    requires Inv(s) && Course(s.w, s.pc) && SoFar(w, s) && s.pc.Recovering?
    requires s.pc.rat.StrayImage? || s.pc.rat.StrayTmp?
    ensures FateOf(Good(s)) == FateOf(s) && SoFar(w, Good(s)) && !MayLoad(Good(s))
  {
    hide LogOk, FilesOk, RepairStep, DiscardStep, SuspendStep, WakeStep, BootStep, StopStep;
  }

  lemma ExamineKeepsFate(w: World, s: State)
    requires Inv(s) && Course(s.w, s.pc) && SoFar(w, s) && s.pc.Repairing? && (s.pc.pat.RepairPid? || s.pc.pat.Examine?)
    ensures FateOf(Good(s)) == FateOf(s) && SoFar(w, Good(s)) && !MayLoad(Good(s))
  {
    hide LogOk, FilesOk, RecoverStep, DiscardStep, SuspendStep, WakeStep, BootStep, StopStep, GuestSoFar;
  }

  lemma OrphanKeepsFate(w: World, s: State)
    requires Inv(s) && Course(s.w, s.pc) && SoFar(w, s) && s.pc.Repairing? && !s.pc.pat.RepairPid? && !s.pc.pat.Examine?
    ensures FateOf(Good(s)) == FateOf(s) && SoFar(w, Good(s)) && !MayLoad(Good(s))
  {
    hide LogOk, FilesOk, RecoverStep, DiscardStep, SuspendStep, WakeStep, BootStep, StopStep, GuestSoFar;
  }

  lemma DiscardKeepsFate(w: World, s: State)
    requires Inv(s) && Course(s.w, s.pc) && SoFar(w, s) && s.pc.Discarding?
    ensures FateOf(Good(s)) == FateOf(s) && SoFar(w, Good(s)) && !MayLoad(Good(s))
  {
    hide LogOk, FilesOk, RecoverStep, RepairStep, SuspendStep, WakeStep, BootStep, StopStep, PairSoFar;
  }

  lemma GoodKeepsTabled(w: World, f: Fate, s: State)
    requires Tabled(w, f, s) && !Returned(s.pc)
    ensures Tabled(w, f, Good(s)) && Left(Good(s).pc) < Left(s.pc)
  {
    GoodAdvances(s);
    hide Inv, FateOf, SoFar, MayLoad, Good, RepairCourse, DiscardCourse;
    match s.pc
    case Recovering(_, at) =>
      if at.ReadJournal? || at.QueryStatus? { ReadKeepsFate(w, s); }
      else if InSaved(at) { SavedKeepsFate(w, s); }
      else if InAside(at) { AsideKeepsFate(w, s); }
      else if at.SavingTmp? || at.SavingCont? { SavingKeepsFate(w, s); }
      else if at.SavingKill? || at.SavingPid? { KillKeepsFate(w, s); }
      else if at.IncomingSync? || at.IncomingCont? { IncomingKeepsFate(w, s); }
      else if at.StrayKill? || at.StrayPid? { StrayKeepsFate(w, s); }
      else if at.StrayImage? || at.StrayTmp? { StrayFilesKeepFate(w, s); }
      else { TidyKeepsFate(w, s); }
    case Repairing(_, at) =>
      if at.RepairPid? || at.Examine? { ExamineKeepsFate(w, s); } else { OrphanKeepsFate(w, s); }
    case Discarding(_, _) => DiscardKeepsFate(w, s);
    case _ => assert false;
  }

  lemma {:induction false} TabledEnds(w: World, f: Fate, s: State, ess: seq<seq<Event>>)
    requires Tabled(w, f, s) && AllCalm(ess) && Left(s.pc) <= |ess|
    ensures Tabled(w, f, Recover(s, ess)) && Resolved(Recover(s, ess))
    decreases |ess|
  {
    if ess != [] {
      hide Tabled, Good, Left;
      var s1 := State(HappenAll(s.w, ess[0]), s.pc);
      EventsKeepTabled(w, f, s, ess[0]);
      if !Returned(s1.pc) { GoodKeepsTabled(w, f, s1); }
      TabledEnds(w, f, Good(s1), ess[1..]);
    }
  }

  // ----- The table -----

  /** The row of the table for a recovery that begins with w and finds `seen`
      when it looks at the hypervisor. */
  predicate Row(w: World, seen: World, end: State) {
    && Resolved(end)
    && var a, w' := end.pc.rat.action, end.w;
       if w.dir.journal.Saved? then
         if ValidImage(w) then a.Suspended? && PairKept(w, w') else a.Discarded? && w'.log == w.log
       else if w.qemu.Off? then
         if w.dir.journal.NoJournal? then a.ActNone? && w' == w else a.Discarded? && w'.log == w.log
       else if seen.qemu.On? && seen.qemu.mode.InMigrate? then a.Discarded? && w'.log == w.log
       else a == (if w.dir.journal.NoJournal? && AlreadyRuns(seen) then ActNone else ResumedGuest) && GuestKept(seen, w')
  }

  lemma SettledRow(s: State, goal: Goal, ess: seq<seq<Event>>)
    requires Inv(s) && s.pc == Recovering(goal, ReadJournal) && !Forgotten(s.w) && !MayLoad(s)
    requires |ess| >= 20 && AllCalm(ess)
    ensures Row(s.w, s.w, Recover(s, ess))
  {
    assert Tabled(s.w, FateOf(s), s);
    TabledEnds(s.w, FateOf(s), s, ess);
    RowOf(s.w, s.w, FateOf(s), Recover(s, ess));
  }

  /** The fates, read back as rows. */
  lemma RowOf(w: World, seen: World, f: Fate, end: State)
    requires Tabled(seen, f, end) && Resolved(end) && w.log == seen.log && w.dir == seen.dir
    requires w.dir.journal.Saved? || w.qemu.Off? ==> seen == w
    requires w.qemu.On? ==> w.pid
    requires f == if w.dir.journal.Saved? then PairFate(w)
                  else if w.qemu.Off? then if w.dir.journal.NoJournal? then ToNobody else ToNothing
                  else if seen.qemu.On? && seen.qemu.mode.InMigrate? then ToNothing
                  else ToGuest
    ensures Row(w, seen, end)
  {
    hide Inv, Course;
  }

  lemma SecondLook(s: State, goal: Goal, ess: seq<seq<Event>>)
    requires Inv(s) && s.pc == Recovering(goal, ReadJournal) && MayLoad(s) && |ess| >= 2 && AllCalm(ess)
    ensures var seen := HappenAll(HappenAll(s.w, ess[0]), ess[1]);
      && Recover(s, ess) == Recover(Good(State(seen, Recovering(goal, QueryStatus))), ess[2..])
      && Inv(State(seen, Recovering(goal, QueryStatus)))
      && seen.qemu.On? && (seen.qemu.mode.InMigrate? || seen.qemu.mode.Loaded?) && !seen.dir.journal.Saved? && seen.pid
      && seen.dir == s.w.dir && seen.log == s.w.log && seen.incoming == s.w.incoming
  {
    LoadingStays(s, ess[0]);
    var s1 := State(HappenAll(s.w, ess[0]), Recovering(goal, ReadJournal));
    var s2 := Good(s1);
    assert s2 == State(s1.w, Recovering(goal, QueryStatus));
    StepKeeps(s1, Jm(true, false));
    LoadingStays(s2, ess[1]);
    assert ess[1..][1..] == ess[2..];
  }

  lemma OneLoading(w: World, e: Event)
    requires w.qemu.On? && (w.qemu.mode.InMigrate? || w.qemu.mode.Loaded?) && !e.QemuDies?
    ensures var w' := Happens(w, e);
      && w'.qemu.On? && (w'.qemu.mode.InMigrate? || w'.qemu.mode.Loaded?)
      && w'.dir == w.dir && w'.log == w.log && w'.incoming == w.incoming && (w.pid ==> w'.pid)
  {
  }

  /** A hypervisor that waits for a load, or has loaded. */
  lemma {:induction false} LoadingStays(s: State, es: seq<Event>)
    requires Inv(s) && s.w.qemu.On? && (s.w.qemu.mode.InMigrate? || s.w.qemu.mode.Loaded?) && Calm(es)
    ensures var w' := HappenAll(s.w, es);
      && Inv(State(w', s.pc)) && w'.qemu.On? && (w'.qemu.mode.InMigrate? || w'.qemu.mode.Loaded?)
      && w'.dir == s.w.dir && w'.log == s.w.log && w'.incoming == s.w.incoming && (s.w.pid ==> w'.pid)
    decreases |es|
  {
    if es != [] {
      assert es[0] in es;
      StepKeeps(s, Env(es[0]));
      OneLoading(s.w, es[0]);
      hide Inv, Happens;
      LoadingStays(State(Happens(s.w, es[0]), s.pc), es[1..]);
    }
  }

  lemma LoadingRow(s: State, goal: Goal, ess: seq<seq<Event>>)
    requires Inv(s) && s.pc == Recovering(goal, ReadJournal) && MayLoad(s) && |ess| >= 21 && AllCalm(ess)
    ensures Row(s.w, HappenAll(HappenAll(s.w, ess[0]), ess[1]), Recover(s, ess))
  {
    SecondLook(s, goal, ess);
    var seen := HappenAll(HappenAll(s.w, ess[0]), ess[1]);
    var s2 := State(seen, Recovering(goal, QueryStatus));
    assert Course(seen, s2.pc);
    GoodAdvances(s2);
    var f := if seen.qemu.mode.InMigrate? then ToNothing else ToGuest;
    AfterTheLook(s2, f);
    TabledEnds(seen, f, Good(s2), ess[2..]);
    RowOf(s.w, seen, f, Recover(s, ess));
  }

  lemma AfterTheLook(s: State, f: Fate)
    requires Inv(s) && Course(s.w, s.pc) && Inv(Good(s)) && Course(Good(s).w, Good(s).pc)
    requires s.pc.Recovering? && s.pc.rat.QueryStatus? && s.w.qemu.On? && !s.w.dir.journal.Saved?
    requires s.w.qemu.mode.InMigrate? || s.w.qemu.mode.Loaded?
    requires f == if s.w.qemu.mode.InMigrate? then ToNothing else ToGuest
    ensures Tabled(s.w, f, Good(s))
  {
  }

  /** What one recovery whose calls succeed makes of every machine, whatever its
      hypervisor does short of dying. A valid saved pair is kept, and is all that
      is. A guest that runs, was loaded, or was frozen by a save that was not
      committed runs again, continued exactly if it was frozen, with its memory.
      The rest goes: nothing was loaded or running in it. Only a load under way
      can still change which it is, until the recovery looks. */
  lemma RecoveryTable(s: State, goal: Goal, ess: seq<seq<Event>>)
    requires Inv(s) && s.pc == Recovering(goal, ReadJournal) && !Forgotten(s.w)
    requires |ess| >= 21 && AllCalm(ess)
    ensures Row(s.w, if MayLoad(s) then HappenAll(HappenAll(s.w, ess[0]), ess[1]) else s.w, Recover(s, ess))
  {
    if MayLoad(s) { LoadingRow(s, goal, ess); } else { SettledRow(s, goal, ess); }
  }

  /** So each end is reached from exactly these machines. */
  lemma RecoveryEndsExactly(s: State, goal: Goal, ess: seq<seq<Event>>)
    requires Inv(s) && s.pc == Recovering(goal, ReadJournal) && !Forgotten(s.w) && !MayLoad(s)
    requires |ess| >= 21 && AllCalm(ess)
    ensures var w, end := s.w, Recover(s, ess);
      && Returned(end.pc)
      && (SafelyAsleep(end.w) <==> ValidImage(w))
      && (GuestBack(end.w) <==> w.qemu.On? && !w.dir.journal.Saved? && !w.qemu.mode.InMigrate?)
      && (end.pc.rat.action.Suspended? <==> SafelyAsleep(end.w))
      && (end.pc.rat.action.Discarded? <==>
            if w.qemu.On? && !w.dir.journal.Saved? then w.qemu.mode.InMigrate?
            else !ValidImage(w) && !w.dir.journal.NoJournal?)
  {
    RecoveryTable(s, goal, ess);
  }
}
