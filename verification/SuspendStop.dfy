/**
  A stop that goes well ends with no hypervisor, no pid file and no journal.
 */
module SuspendStop {
  import opened Base
  import opened SuspendWorld
  import opened SuspendSteps
  import opened SuspendInvariant
  import opened SuspendRecovery
  import opened SuspendTurns

  predicate Ended(w: World) { w.qemu.Off? && !w.pid && w.dir.journal.NoJournal? }

  /** The recovery belongs to that goal. */
  predicate For(pc: Pc, goal: Goal) {
    match pc
    case Recovering(g, _) => g == goal
    case Repairing(who, _) => (who.ByRecover? || who.ByRecoverSaved?) && who.goal == goal
    case Discarding(who, _) =>
      (who.ByRecover? || who.ByRecoverSaved? || who.ByKilled? || who.BySaving?) && who.goal == goal
    case _ => false
  }

  /** s is on the way to the end of a stop. */
  predicate Stops(force: bool, s: State) {
    || (For(s.pc, ToStop(force)) && Course(s.w, s.pc) && (force || !ValidImage(s.w)))
    || match s.pc
       case Repairing(who, at) =>
         && who == ByStop(force) && s.w.dir.journal.NoJournal?
         && (at.RepairPid? || at.Examine? || at.OrphanImage? || (at.OrphanTmp? && at.clean))
       case Discarding(who, at) => who.ByForce? && force && !s.w.pid && DiscardCourse(s.w, at)
       case Stopping(f, at) =>
         && f == force
         && (match at
             case StopCheck => s.w.dir.journal.NoJournal? || (force && SafelyAsleep(s.w))
             case StopKill => s.w.dir.journal.NoJournal?
             case StopPid => s.w.dir.journal.NoJournal?)
       case Idle(o) => o.Halted? && Ended(s.w)
       case _ => false
  }

  function StopLeft(pc: Pc): nat {
    match pc
    case Recovering(_, _) => 12 + Left(pc)
    case Repairing(who, at) =>
      if !who.ByStop? then 12 + Left(pc)
      else if at.RepairPid? then 10 else if at.Examine? then 9 else if at.OrphanImage? then 8 else 7
    case Discarding(who, at) => if who.ByForce? then DiscardLeft(at) else 12 + Left(pc)
    case Stopping(_, at) => if at.StopCheck? then 11 else if at.StopKill? then 2 else 1
    case _ => 0
  }

  lemma {:induction false} EventsKeepInvalid(s: State, es: seq<Event>)
    requires Inv(s) && !ValidImage(s.w)
    ensures !ValidImage(HappenAll(s.w, es))
    decreases |es|
  {
    if es != [] {
      StepKeeps(s, Env(es[0]));
      EventKeepsInvalid(s.w, es[0]);
      EventsKeepInvalid(State(Happens(s.w, es[0]), s.pc), es[1..]);
    }
  }

  lemma EventKeepsInvalid(w: World, e: Event)
    requires Global(w) && !ValidImage(w)
    ensures !ValidImage(Happens(w, e))
  {
    assert SavedOk(w.files, Taken(w.log), w.dir);
  }

  lemma SavedKeepsInvalid(s: State)
    requires !ValidImage(s.w) && s.pc.Recovering? && (s.pc.rat.SavedPrint? || s.pc.rat.SavedPrintSync?)
    ensures !ValidImage(Good(s).w)
  {
    hide RepairStep, DiscardStep, SuspendStep, WakeStep, BootStep, StopStep;
  }

  lemma AsideKeepsInvalid(s: State)
    requires !ValidImage(s.w) && s.pc.Recovering? && (InAside(s.pc.rat))
    ensures !ValidImage(Good(s).w)
  {
    hide RepairStep, DiscardStep, SuspendStep, WakeStep, BootStep, StopStep;
  }

  lemma SavingKeepsInvalid(s: State)
    requires !ValidImage(s.w) && s.pc.Recovering? && (InSaving(s.pc.rat))
    ensures !ValidImage(Good(s).w)
  {
    hide RepairStep, DiscardStep, SuspendStep, WakeStep, BootStep, StopStep;
  }

  lemma IncomingKeepsInvalid(s: State)
    requires !ValidImage(s.w) && s.pc.Recovering? && (s.pc.rat.IncomingSync? || s.pc.rat.IncomingCont?)
    ensures !ValidImage(Good(s).w)
  {
    hide RepairStep, DiscardStep, SuspendStep, WakeStep, BootStep, StopStep;
  }

  lemma TidyKeepsInvalid(s: State)
    requires !ValidImage(s.w) && s.pc.Recovering? && (InTidy(s.pc.rat))
    ensures !ValidImage(Good(s).w)
  {
    hide RepairStep, DiscardStep, SuspendStep, WakeStep, BootStep, StopStep;
  }

  lemma StrayKeepsInvalid(s: State)
    requires !ValidImage(s.w) && s.pc.Recovering? && (s.pc.rat.StrayImage? || s.pc.rat.StrayTmp?)
    ensures !ValidImage(Good(s).w)
  {
    hide RepairStep, DiscardStep, SuspendStep, WakeStep, BootStep, StopStep;
  }

  /** The other steps change neither the directory nor a file. */
  lemma FilesStay(s: State)
    requires s.pc.Recovering? && !s.pc.rat.SavedPrint? && !s.pc.rat.SavedPrintSync?
    requires !InAside(s.pc.rat) && !InSaving(s.pc.rat)
    requires !InIncoming(s.pc.rat) && !InTidy(s.pc.rat) && !s.pc.rat.StrayImage? && !s.pc.rat.StrayTmp?
    ensures Good(s).w.dir == s.w.dir && Good(s).w.files == s.w.files
  {
    hide RepairStep, DiscardStep, SuspendStep, WakeStep, BootStep, StopStep, ValidImage, Mutate, Cont;
  }

  lemma RecoverKeepsInvalid(s: State)
    requires !ValidImage(s.w) && s.pc.Recovering?
    ensures !ValidImage(Good(s).w)
  {
    hide Good;
    var at := s.pc.rat;
    if at.SavedPrint? || at.SavedPrintSync? { SavedKeepsInvalid(s); }
    else if InAside(at) { AsideKeepsInvalid(s); }
    else if InSaving(at) { SavingKeepsInvalid(s); }
    else if at.IncomingSync? || at.IncomingCont? { IncomingKeepsInvalid(s); }
    else if InTidy(at) { TidyKeepsInvalid(s); }
    else if at.StrayImage? || at.StrayTmp? { StrayKeepsInvalid(s); }
    else { FilesStay(s); }
  }

  lemma RepairKeepsInvalid(s: State)
    requires !ValidImage(s.w) && s.pc.Repairing? && !Returned(s.pc)
    ensures !ValidImage(Good(s).w)
  {
    hide RecoverStep, DiscardStep, SuspendStep, WakeStep, BootStep, StopStep;
  }

  lemma DiscardKeepsInvalid(s: State)
    requires !ValidImage(s.w) && s.pc.Discarding? && !Returned(s.pc)
    ensures !ValidImage(Good(s).w)
  {
    hide RecoverStep, RepairStep, SuspendStep, WakeStep, BootStep, StopStep;
  }

  lemma RecoveryKeepsInvalid(s: State)
    requires !ValidImage(s.w) && (s.pc.Recovering? || s.pc.Repairing? || s.pc.Discarding?) && !Returned(s.pc)
    ensures !ValidImage(Good(s).w)
  {
    hide Good, ValidImage;
    if s.pc.Recovering? { RecoverKeepsInvalid(s); }
    else if s.pc.Repairing? { RepairKeepsInvalid(s); }
    else { DiscardKeepsInvalid(s); }
  }

  lemma RecoveryStaysFor(s: State, goal: Goal)
    requires For(s.pc, goal) && Course(s.w, s.pc) && Course(Good(s).w, Good(s).pc) && !Returned(s.pc)
    ensures For(Good(s).pc, goal)
  {
    hide SuspendStep, WakeStep, BootStep, StopStep, Mutate, ValidImage;
  }

  lemma RecoveryTurns(force: bool, s: State)
    requires Inv(s) && For(s.pc, ToStop(force)) && Course(s.w, s.pc) && (force || !ValidImage(s.w))
    ensures Stops(force, Turn(s, false)) && StopLeft(Turn(s, false).pc) < StopLeft(s.pc)
  {
    if Returned(s.pc) {
      ReturnTurns(force, s);
    } else {
      GoodAdvances(s);
      RecoveryStaysFor(s, ToStop(force));
      if !ValidImage(s.w) { RecoveryKeepsInvalid(s); }
      assert Turn(s, false) == Good(s);
      hide Inv, Course, Good, Turn, ValidImage;
    }
  }

  lemma ReturnTurns(force: bool, s: State)
    requires For(s.pc, ToStop(force)) && Course(s.w, s.pc) && (force || !ValidImage(s.w)) && Returned(s.pc)
    ensures Stops(force, Turn(s, false)) && StopLeft(Turn(s, false).pc) < StopLeft(s.pc)
  {
  }

  lemma EndTurns(force: bool, s: State)
    requires Inv(s) && Stops(force, s) && !For(s.pc, ToStop(force)) && !s.pc.Idle?
    ensures Stops(force, Turn(s, false)) && StopLeft(Turn(s, false).pc) < StopLeft(s.pc)
  {
    hide RecoverStep, SuspendStep, WakeStep, BootStep;
  }

  lemma StopTurns(force: bool, s: State)
    requires Inv(s) && Stops(force, s) && !s.pc.Idle?
    ensures Stops(force, Turn(s, false)) && StopLeft(Turn(s, false).pc) < StopLeft(s.pc)
  {
    if For(s.pc, ToStop(force)) { RecoveryTurns(force, s); } else { EndTurns(force, s); }
  }

  lemma {:induction false} EventsKeepStops(force: bool, s: State, es: seq<Event>)
    requires Inv(s) && Stops(force, s) && Calm(es)
    ensures Inv(State(HappenAll(s.w, es), s.pc)) && Stops(force, State(HappenAll(s.w, es), s.pc))
    decreases |es|
  {
    if es != [] {
      assert es[0] in es;
      StepKeeps(s, Env(es[0]));
      EventKeepsStops(force, s, es[0]);
      EventsKeepStops(force, State(Happens(s.w, es[0]), s.pc), es[1..]);
    }
  }

  lemma EventKeepsStops(force: bool, s: State, e: Event)
    requires Inv(s) && Stops(force, s) && !e.QemuDies?
    ensures Stops(force, State(Happens(s.w, e), s.pc))
  {
    if For(s.pc, ToStop(force)) {
      EventKeepsCourse(s, e);
      if !ValidImage(s.w) { EventKeepsInvalid(s.w, e); }
      hide Inv, Course, Happens, ValidImage;
    }
  }

  lemma {:induction false} StopsInTime(force: bool, s: State, ess: seq<seq<Event>>)
    requires Inv(s) && Stops(force, s) && AllCalm(ess) && StopLeft(s.pc) <= |ess|
    ensures var end := Proceed(s, false, ess); end.pc.Idle? && Stops(force, end)
    decreases |ess|
  {
    if !s.pc.Idle? {
      StopLeftUntilIdle(force, s);
      hide Inv, Stops, Turn, HappenAll;
      var s1 := State(HappenAll(s.w, ess[0]), s.pc);
      EventsKeepStops(force, s, ess[0]);
      TurnKeeps(s1, false);
      StopTurns(force, s1);
      StopsInTime(force, Turn(s1, false), ess[1..]);
    }
  }

  lemma StopLeftUntilIdle(force: bool, s: State)
    requires Stops(force, s) && !s.pc.Idle?
    ensures StopLeft(s.pc) > 0
  {
  }

  /** A stop whose calls succeed, of any machine but one whose guest is forgotten,
      and unforced of any but one that sleeps, halts it. */
  lemma StopHalts(s: State, force: bool, ess: seq<seq<Event>>)
    requires Inv(s) && s.pc == Recovering(ToStop(force), ReadJournal)
    requires !Forgotten(s.w) && (force || !ValidImage(s.w)) && |ess| >= 32 && AllCalm(ess)
    ensures var end := Proceed(s, false, ess); end.pc == Idle(Halted) && Ended(end.w)
  {
    StopsInTime(force, s, ess);
  }
}
