/**
  Runs from a machine that was never started: how the states come about that
  the counterexamples of this protocol begin with.
 */
module SuspendRuns {
  import opened Base
  import opened SuspendWorld
  import opened SuspendSteps
  import opened SuspendInvariant
  import opened SuspendCoherence
  import opened SuspendReckless

  const NONE := Dir(NoJournal, None, None)

  /** A guest that was booted and runs. */
  predicate Up(w: World) {
    && w.qemu == On(Running, w.disk, Quiet) && w.pid && !w.incoming
    && w.dir == NONE && w.survivors == {NONE} && w.memory > 0
  }

  lemma Boots(s: State) returns (cs: seq<Choice>, w: World)
    requires Init(s)
    ensures Leads(s, cs, State(w, Idle(Awake))) && Up(w)
  {
    hide RecoverStep, SuspendStep, StopStep, DiscardStep, WakeStep, RepairStep;
    var c1, w1 := StartsToLaunch(s.w, Fresh);
    assert Mutate(s.w, DropImage) == s.w;
    assert Mutate(s.w, DropTmp) == s.w;
    var s1 := State(w1, Booting(BootLaunch));
    w := w1.(qemu := On(Running, w1.disk, Quiet), pid := true);
    Leads3(s1, OK, Env(QemuNamesItself), OK);
    cs := c1 + [OK, Env(QemuNamesItself), OK];
    LeadsPlus(s, c1, s1, [OK, Env(QemuNamesItself), OK], State(w, Idle(Awake)));
  }

  /** A suspend finds nothing to recover. */
  lemma FindsNothing(w: World) returns (cs: seq<Choice>)
    requires Up(w)
    ensures Leads(State(w, Idle(Awake)), cs, State(w, Recovering(ToSuspend, Done(ActNone))))
  {
    hide SuspendStep, RepairStep, DiscardStep, WakeStep, BootStep, StopStep;
    assert Mutate(w, DropImage) == w;
    assert Mutate(w, DropTmp) == w;
    cs := [Begin(Suspend), OK, OK, OK];
    Leads4(State(w, Idle(Awake)), Begin(Suspend), OK, OK, OK);
  }

  /** And writes its "saving" journal. */
  lemma Prepares(w: World) returns (cs: seq<Choice>)
    requires Up(w)
    ensures Leads(State(w, Recovering(ToSuspend, Done(ActNone))), cs,
                  State(Mutate(w, PutJournal(Saving)), Suspending(SyncSaving)))
  {
    hide RepairStep, DiscardStep, WakeStep, BootStep, StopStep;
    cs := [OK, OK, OK];
    Leads3(State(w, Recovering(ToSuspend, Done(ActNone))), OK, OK, OK);
  }

  /** On to the image, sent and complete. */
  lemma Saves(w: World) returns (cs: seq<Choice>, w': World)
    requires w.qemu.On? && w.qemu.mode.Running? && w.qemu.transfer.Quiet? && w.pid
    ensures Leads(State(w, Suspending(HandEndpoints)), cs, State(w', Suspending(Poll(w.nextSave))))
    ensures w'.qemu == On(PostMigrate, w.qemu.mem, Sent(w.nextSave)) && w'.pid
    ensures w'.dir == w.dir.(tmp := Some(w.nextSave)) && w'.memory == w.memory
    ensures w.nextSave in w'.files && w'.files[w.nextSave] == Content(w.qemu.mem, w.memory, true, false)
  {
    hide RecoverStep, RepairStep, DiscardStep, WakeStep, BootStep, StopStep;
    var n := w.nextSave;
    var s := State(w, Suspending(HandEndpoints));
    Leads3(s, OK, OK, OK);
    var w1 := w.(qemu := w.qemu.(mode := Paused));
    var s1 := State(w1, Suspending(Create));
    assert Leads(s, [OK, OK, OK], s1);
    Leads3(s1, OK, OK, Env(SaveDone(w.memory)));
    w' := Step(Step(Step(s1, OK), OK), Env(SaveDone(w.memory))).w;
    cs := [OK, OK, OK] + [OK, OK, Env(SaveDone(w.memory))];
    LeadsPlus(s, [OK, OK, OK], s1, [OK, OK, Env(SaveDone(w.memory))], State(w', Suspending(Poll(n))));
  }

  /** Its image is made durable and takes its name, */
  lemma Renames(w: World, n: nat) returns (cs: seq<Choice>, w': World)
    requires w.qemu.On? && w.qemu.transfer == Sent(n) && n in w.files && w.files[n].size >= w.memory
    ensures Leads(State(w, Suspending(Poll(n))), cs, State(w', Suspending(WriteSaved(n))))
    ensures w'.qemu == w.qemu && w'.dir == w.dir.(image := Some(n), tmp := None)
    ensures n in w'.files && w'.files[n].size == w.files[n].size
  {
    hide RecoverStep, RepairStep, DiscardStep, WakeStep, BootStep, StopStep;
    var w1 := w.(files := w.files[n := w.files[n].(synced := true)]);
    w' := SyncDir(Mutate(w1, RenameTmp(n)));
    cs := [OK, OK, OK, OK];
    Leads4(State(w, Suspending(Poll(n))), OK, OK, OK, OK);
  }

  /** and is committed. */
  lemma Commits(w: World, n: nat) returns (cs: seq<Choice>, w': World)
    requires w.qemu.On? && n in w.files && w.files[n].size > 0 && w.dir.image == Some(n)
    ensures Leads(State(w, Suspending(WriteSaved(n))), cs, State(w', Suspending(Quit(n))))
    ensures w'.qemu.On? && w'.dir in w'.survivors && Naked(w'.dir) && ValidImage(w')
  {
    hide RecoverStep, RepairStep, DiscardStep, WakeStep, BootStep, StopStep;
    w' := SyncDir(Mutate(w, PutJournal(Saved(n, w.files[n].size, None))));
    cs := [OK, OK];
    Leads2(State(w, Suspending(WriteSaved(n))), OK, OK);
  }

  /** Then the hypervisor quits. */
  lemma Sleeps(w: World, n: nat) returns (cs: seq<Choice>, w': World)
    requires w.qemu.On?
    ensures Leads(State(w, Suspending(Quit(n))), cs, State(w', Idle(Outcome.Asleep)))
    ensures w' == w.(qemu := Off, pid := false)
  {
    hide RecoverStep, RepairStep, DiscardStep, WakeStep, BootStep, StopStep;
    w' := w.(qemu := Off, pid := false);
    cs := [OK, OK, OK];
    var s1 := Step(State(w, Suspending(Quit(n))), OK);
    assert s1 == State(w.(qemu := Off), Suspending(QuitPid(n)));
    assert Step(s1, OK) == State(w', Suspending(Print(n)));
    Leads3(State(w, Suspending(Quit(n))), OK, OK, OK);
  }

  /** A machine that was never started can be saved up to any of these points:
      its journal written but not synced, its endpoints about to be handed over,
      its image complete, and asleep. */
  lemma SavingIsReached(s: State) returns (cs: seq<Choice>, w: World)
    requires Init(s)
    ensures Leads(s, cs, State(w, Suspending(SyncSaving)))
    ensures w.dir == Dir(Saving, None, None) && w.qemu == On(Running, w.disk, Quiet) && w.pid && w.memory > 0
  {
    var c1, w1 := Boots(s);
    var c2 := FindsNothing(w1);
    var c3 := Prepares(w1);
    w := Mutate(w1, PutJournal(Saving));
    LeadsPlus(s, c1, State(w1, Idle(Awake)), c2, State(w1, Recovering(ToSuspend, Done(ActNone))));
    LeadsPlus(s, c1 + c2, State(w1, Recovering(ToSuspend, Done(ActNone))), c3, State(w, Suspending(SyncSaving)));
    cs := c1 + c2 + c3;
  }

  lemma HandOverIsReached(s: State) returns (cs: seq<Choice>, w: World)
    requires Init(s)
    ensures Leads(s, cs, State(w, Suspending(HandEndpoints)))
    ensures w.dir == Dir(Saving, None, None) && w.qemu == On(Running, w.disk, Quiet) && w.pid && w.memory > 0
  {
    var c1, w1 := SavingIsReached(s);
    w := SyncDir(w1);
    Leads1(State(w1, Suspending(SyncSaving)), OK);
    LeadsPlus(s, c1, State(w1, Suspending(SyncSaving)), [OK], State(w, Suspending(HandEndpoints)));
    cs := c1 + [OK];
  }

  lemma ImageIsReached(s: State) returns (cs: seq<Choice>, w: World, n: nat)
    requires Init(s)
    ensures Leads(s, cs, State(w, Suspending(Poll(n))))
    ensures Alive(w) && w.qemu.mode.PostMigrate? && w.qemu.transfer == Sent(n)
    ensures w.dir == Dir(Saving, None, Some(n)) && n in w.files && w.files[n].size == w.memory > 0
  {
    var c1, w1 := HandOverIsReached(s);
    var c2;
    c2, w := Saves(w1);
    n := w1.nextSave;
    LeadsPlus(s, c1, State(w1, Suspending(HandEndpoints)), c2, State(w, Suspending(Poll(n))));
    cs := c1 + c2;
  }

  lemma SleepIsReached(s: State) returns (cs: seq<Choice>, w: World)
    requires Init(s)
    ensures Leads(s, cs, State(w, Idle(Outcome.Asleep))) && SuspendReckless.Asleep(w)
  {
    var c1, w1, n := ImageIsReached(s);
    var c2, w2 := Renames(w1, n);
    var c3, w3 := Commits(w2, n);
    var c4;
    c4, w := Sleeps(w3, n);
    LeadsPlus(s, c1, State(w1, Suspending(Poll(n))), c2, State(w2, Suspending(WriteSaved(n))));
    LeadsPlus(s, c1 + c2, State(w2, Suspending(WriteSaved(n))), c3, State(w3, Suspending(Quit(n))));
    LeadsPlus(s, c1 + c2 + c3, State(w3, Suspending(Quit(n))), c4, State(w, Idle(Outcome.Asleep)));
    cs := c1 + c2 + c3 + c4;
  }
}
