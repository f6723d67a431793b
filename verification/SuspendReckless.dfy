/**
  The one step that can corrupt a guest, and that it does.

  A discard, or a wake that is killed, unlinks the journal of a saved pair. If
  the directory is not synced after that, nothing a cold boot does syncs it.
 */
module SuspendReckless {
  import opened Base
  import opened SuspendWorld
  import opened SuspendSteps
  import opened SuspendInvariant
  import opened SuspendCoherence

  const OK: Choice := Jm(true, false)

  /** The run `cs` leads from s to t without a reckless boot. */
  predicate Leads(s: State, cs: seq<Choice>, t: State) {
    Run(s, cs) == t && Careful(s, cs)
  }

  lemma {:induction false} LeadsPlus(s: State, a: seq<Choice>, t: State, b: seq<Choice>, u: State)
    requires Leads(s, a, t) && Leads(t, b, u)
    ensures Leads(s, a + b, u)
    decreases |a|
  {
    if a == [] {
      assert a + b == b;
    } else {
      assert (a + b)[0] == a[0] && (a + b)[1..] == a[1..] + b;
      LeadsPlus(Step(s, a[0]), a[1..], t, b, u);
    }
  }

  lemma Leads1(s: State, a: Choice)
    requires !Reckless(s, a)
    ensures Leads(s, [a], Step(s, a))
  {
    assert [a][0] == a && [a][1..] == [];
    assert Leads(Step(s, a), [], Step(s, a));
  }

  lemma Leads2(s: State, a: Choice, b: Choice)
    requires !Reckless(s, a) && !Reckless(Step(s, a), b)
    ensures Leads(s, [a, b], Step(Step(s, a), b))
  {
    Leads1(Step(s, a), b);
    assert [a, b][0] == a && [a, b][1..] == [b];
  }

  lemma Leads3(s: State, a: Choice, b: Choice, c: Choice)
    requires !Reckless(s, a) && !Reckless(Step(s, a), b) && !Reckless(Step(Step(s, a), b), c)
    ensures Leads(s, [a, b, c], Step(Step(Step(s, a), b), c))
  {
    Leads2(Step(s, a), b, c);
    assert [a, b, c][0] == a && [a, b, c][1..] == [b, c];
  }

  lemma Leads4(s: State, a: Choice, b: Choice, c: Choice, d: Choice)
    requires !Reckless(s, a) && !Reckless(Step(s, a), b) && !Reckless(Step(Step(s, a), b), c)
    requires !Reckless(Step(Step(Step(s, a), b), c), d)
    ensures Leads(s, [a, b, c, d], Step(Step(Step(Step(s, a), b), c), d))
  {
    Leads3(Step(s, a), b, c, d);
    assert [a, b, c, d][0] == a && [a, b, c, d][1..] == [b, c, d];
  }

  /** A valid pair that no fingerprint protects, on a machine that is off. */
  predicate Stale(w: World) {
    && w.qemu.Off? && !w.pid && Naked(w.dir) && Paired(w) && ValidImage(w)
    && w.files[w.dir.journal.save].whole && w.files[w.dir.journal.save].version != w.disk
  }

  lemma GuestWritesThenPowerFails(w: World, d: Dir) returns (cs: seq<Choice>, w': World)
    requires w.qemu == On(Running, w.disk, Quiet) && d in w.survivors && Naked(d)
    requires SavedOk(w.files, Taken(w.log), d) && w.files[d.journal.save].version == w.disk
    ensures Leads(State(w, Booting(AwaitReady)), cs, State(w', Idle(Killed)))
    ensures Stale(w') && w'.log == w.log
  {
    cs := [Env(GuestWrites), PowerLoss(d, 0, false, false)];
    var s := State(w, Booting(AwaitReady));
    Leads2(s, Env(GuestWrites), PowerLoss(d, 0, false, false));
    w' := Step(Step(s, Env(GuestWrites)), PowerLoss(d, 0, false, false)).w;
  }

  /** Recovery keeps the pair */
  lemma StaleIsKept(w: World) returns (cs: seq<Choice>)
    requires Stale(w)
    ensures Leads(State(w, Idle(Killed)), cs, State(w, Repairing(ByRecover(ToStart), KeepPair)))
  {
    hide SuspendStep, StopStep, DiscardStep, WakeStep, BootStep;
    cs := [Begin(Start), OK, OK, OK];
    Leads4(State(w, Idle(Killed)), Begin(Start), OK, OK, OK);
  }

  /** and the start goes on to wake it. */
  lemma StaleIsWoken(w: World) returns (cs: seq<Choice>, w': World)
    requires Stale(w)
    ensures Leads(State(w, Repairing(ByRecover(ToStart), KeepPair)), cs, State(w', Waking(ToStart, Validate)))
    ensures Stale(w') && w'.log == w.log
  {
    hide SuspendStep, StopStep, DiscardStep, WakeStep;
    w' := Mutate(w, DropTmp);
    cs := [OK, OK, OK];
    Leads3(State(w, Repairing(ByRecover(ToStart), KeepPair)), OK, OK, OK);
  }

  lemma StaleIsLaunched(w: World) returns (cs: seq<Choice>, w': World)
    requires Stale(w)
    ensures Leads(State(w, Waking(ToStart, Validate)), cs, State(w', Waking(ToStart, AwaitIncoming)))
    ensures w' == w.(qemu := On(InMigrate, 0, Quiet), incoming := true)
  {
    cs := [OK, OK, OK, OK];
    Leads4(State(w, Waking(ToStart, Validate)), OK, OK, OK, OK);
    w' := w.(qemu := On(InMigrate, 0, Quiet), incoming := true);
  }

  lemma LaunchedIsLoaded(w: World) returns (cs: seq<Choice>, w': World)
    requires w.qemu == On(InMigrate, 0, Quiet) && w.dir.image.Some?
    requires w.dir.image.value in w.files && w.files[w.dir.image.value].whole
    ensures Leads(State(w, Waking(ToStart, AwaitIncoming)), cs, State(w', Waking(ToStart, AwaitLoaded)))
    ensures w' == w.(pid := true, qemu := On(Loaded(w.dir.image.value), w.files[w.dir.image.value].version, Quiet))
  {
    var s := State(w, Waking(ToStart, AwaitIncoming));
    Leads4(s, Env(QemuNamesItself), OK, OK, OK);
    var i := w.dir.image.value;
    var w1 := w.(pid := true, qemu := On(InMigrate, 0, Receiving(i)));
    var s1 := State(w1, Waking(ToStart, AwaitLoaded));
    assert Leads(s, [Env(QemuNamesItself), OK, OK, OK], s1);
    w' := w.(pid := true, qemu := On(Loaded(i), w.files[i].version, Quiet));
    var s2 := State(w', Waking(ToStart, AwaitLoaded));
    Leads1(s1, Env(LoadDone));
    assert Leads(s1, [Env(LoadDone)], s2);
    cs := [Env(QemuNamesItself), OK, OK, OK] + [Env(LoadDone)];
    LeadsPlus(s, [Env(QemuNamesItself), OK, OK, OK], s1, [Env(LoadDone)], State(w', Waking(ToStart, AwaitLoaded)));
  }

  lemma LoadedIsContinued(w: World) returns (cs: seq<Choice>, s': State)
    requires w.qemu.On? && w.qemu.mode.Loaded? && w.qemu.mem != w.disk
    ensures Leads(State(w, Waking(ToStart, AwaitLoaded)), cs, s') && !LogFresh(s'.w.log)
  {
    hide SuspendStep, StopStep, DiscardStep, RecoverStep, RepairStep;
    var s := State(w, Waking(ToStart, AwaitLoaded));
    cs := [OK, OK, OK, OK];
    Leads4(s, OK, OK, OK, OK);
    var w1 := SyncDir(Mutate(w, DropJournal));
    s' := State(Cont(w1), Waking(ToStart, WakeImage));
    assert Leads(s, cs, s');
    assert !s'.w.log[|w.log|].coherent;
  }

  /** After a reckless boot some run, itself with no other reckless boot,
      continues a guest that does not match its disk. */
  lemma RecklessCorrupts(s: State, c: Choice) returns (cs: seq<Choice>)
    requires Inv(s) && Coherent(s) && Reckless(s, c)
    ensures Careful(Step(s, c), cs) && !LogFresh(Run(Step(s, c), cs).w.log)
  {
    var d :| d in s.w.survivors && Naked(d);
    assert SavedOk(s.w.files, Taken(s.w.log), d) && SavedFresh(s.w.files, s.w.disk, d);
    var s0 := Step(s, c);
    var c1, w1 := GuestWritesThenPowerFails(s0.w, d);
    var k := StaleIsKept(w1);
    var c2, w2 := StaleIsWoken(w1);
    LeadsPlus(State(w1, Idle(Killed)), k, State(w1, Repairing(ByRecover(ToStart), KeepPair)), c2,
              State(w2, Waking(ToStart, Validate)));
    c2 := k + c2;
    var c3, w3 := StaleIsLaunched(w2);
    var c4, w4 := LaunchedIsLoaded(w3);
    var c5, s5 := LoadedIsContinued(w4);
    LeadsPlus(State(w3, Waking(ToStart, AwaitIncoming)), c4, State(w4, Waking(ToStart, AwaitLoaded)), c5, s5);
    LeadsPlus(State(w2, Waking(ToStart, Validate)), c3, State(w3, Waking(ToStart, AwaitIncoming)), c4 + c5, s5);
    LeadsPlus(State(w1, Idle(Killed)), c2, State(w2, Waking(ToStart, Validate)), c3 + (c4 + c5), s5);
    LeadsPlus(s0, c1, State(w1, Idle(Killed)), c2 + (c3 + (c4 + c5)), s5);
    cs := c1 + (c2 + (c3 + (c4 + c5)));
  }

  /** From any reachable coherent state, a step is safe for every run that
      follows exactly when it is not a reckless boot: no guest is ever continued
      that does not match its disk. */
  lemma StepIsSafeUnlessReckless(s: State, c: Choice)
    requires Inv(s) && Coherent(s)
    ensures (forall cs :: Careful(Step(s, c), cs) ==> LogFresh(Run(Step(s, c), cs).w.log)) <==> !Reckless(s, c)
  {
    if Reckless(s, c) {
      var cs := RecklessCorrupts(s, c);
      assert Careful(Step(s, c), cs);
    } else {
      StepFresh(s, c);
      StepKeeps(s, c);
      forall cs | Careful(Step(s, c), cs) ensures LogFresh(Run(Step(s, c), cs).w.log) {
        RunFresh(Step(s, c), cs);
      }
    }
  }

  /** How it comes about: the saved state of a sleeping machine is discarded,
      the sync after the unlink fails, and the machine is started again. */
  lemma DiscardThenStartIsReckless(w: World, outcome: Outcome) returns (cs: seq<Choice>, w': World)
    requires Asleep(w)
    ensures Leads(State(w, Idle(outcome)), cs, State(w', Booting(BootLaunch)))
    ensures Reckless(State(w', Booting(BootLaunch)), OK)
  {
    var c1, w1 := DiscardUnsynced(w, outcome);
    var c2;
    c2, w' := StartsToLaunch(w1, Failed);
    LeadsPlus(State(w, Idle(outcome)), c1, State(w1, Idle(Failed)), c2, State(w', Booting(BootLaunch)));
    cs := c1 + c2;
    assert Naked(w.dir) && w.dir in w'.survivors;
  }

  predicate Asleep(w: World) {
    w.qemu.Off? && !w.pid && w.dir in w.survivors && Naked(w.dir) && ValidImage(w)
  }

  /** A forced stop of a sleeping machine finds its pair and keeps it. */
  lemma StopFindsThePair(w: World, outcome: Outcome) returns (cs: seq<Choice>)
    requires Asleep(w)
    ensures Leads(State(w, Idle(outcome)), cs, State(w, Repairing(ByRecover(ToStop(true)), KeepPair)))
  {
    cs := [Begin(Stop(true)), OK, OK, OK];
    Leads4(State(w, Idle(outcome)), Begin(Stop(true)), OK, OK, OK);
  }

  /** Then it goes on to discard it, */
  lemma StopDiscards(w: World) returns (cs: seq<Choice>)
    requires Asleep(w)
    ensures Leads(State(w, Repairing(ByRecover(ToStop(true)), KeepPair)), cs,
                  State(Mutate(w, DropTmp), Discarding(ByForce, Unlink)))
  {
    hide SuspendStep, WakeStep, BootStep, DiscardStep;
    cs := [OK, OK, OK];
    Leads3(State(w, Repairing(ByRecover(ToStop(true)), KeepPair)), OK, OK, OK);
  }

  /** and the sync after the unlink fails. */
  lemma UnlinksUnsynced(w: World) returns (cs: seq<Choice>)
    ensures Leads(State(w, Discarding(ByForce, Unlink)), cs, State(Mutate(w, DropJournal), Idle(Failed)))
  {
    hide RecoverStep, RepairStep, SuspendStep, WakeStep, BootStep, StopStep;
    cs := [OK, Jm(false, false)];
    Leads2(State(w, Discarding(ByForce, Unlink)), OK, Jm(false, false));
  }

  lemma DiscardUnsynced(w: World, outcome: Outcome) returns (cs: seq<Choice>, w': World)
    requires Asleep(w)
    ensures Leads(State(w, Idle(outcome)), cs, State(w', Idle(Failed)))
    ensures w'.qemu.Off? && !w'.pid && w'.dir.journal.NoJournal? && w.dir in w'.survivors
  {
    var s, s4 := State(w, Idle(outcome)), State(w, Repairing(ByRecover(ToStop(true)), KeepPair));
    var w7 := Mutate(w, DropTmp);
    w' := Mutate(w7, DropJournal);
    var c1 := StopFindsThePair(w, outcome);
    var c2 := StopDiscards(w);
    var c3 := UnlinksUnsynced(w7);
    LeadsPlus(s, c1, s4, c2, State(w7, Discarding(ByForce, Unlink)));
    LeadsPlus(s, c1 + c2, State(w7, Discarding(ByForce, Unlink)), c3, State(w', Idle(Failed)));
    cs := c1 + c2 + c3;
  }

  /** A start of a machine that is off syncs nothing before it launches. */
  lemma StartsToLaunch(w: World, outcome: Outcome) returns (cs: seq<Choice>, w': World)
    requires w.qemu.Off? && !w.pid && w.dir.journal.NoJournal?
    ensures Leads(State(w, Idle(outcome)), cs, State(w', Booting(BootLaunch)))
    ensures w' == Mutate(Mutate(w, DropImage), DropTmp).(incoming := false)
  {
    hide SuspendStep, StopStep, DiscardStep, WakeStep, RepairStep;
    var s := State(w, Idle(outcome));
    Leads4(s, Begin(Start), OK, OK, OK);
    var s4 := State(w, Booting(BootState));
    assert Leads(s, [Begin(Start), OK, OK, OK], s4);
    Leads4(s4, OK, OK, OK, OK);
    w' := Mutate(Mutate(w, DropImage), DropTmp).(incoming := false);
    assert Leads(s4, [OK, OK, OK, OK], State(w', Booting(BootLaunch)));
    LeadsPlus(s, [Begin(Start), OK, OK, OK], s4, [OK, OK, OK, OK], State(w', Booting(BootLaunch)));
    cs := [Begin(Start), OK, OK, OK] + [OK, OK, OK, OK];
  }
}
