/**
  How the protocol's weak places come about on a machine that was never started
  before: a boot that can corrupt a guest, an image swept too early, a frozen
  guest that no file speaks of, and the two suspends that are not undone.
 */
module SuspendExamples {
  import opened Base
  import opened SuspendWorld
  import opened SuspendSteps
  import opened SuspendInvariant
  import opened SuspendCoherence
  import opened SuspendReckless
  import opened SuspendRuns
  import opened SuspendPairs
  import opened SuspendRecovery

  /** Saved, discarded by a stop whose sync fails, started, cut off and woken: a
      guest is continued that does not match its disk. The start is the only
      reckless boot of the run. */
  lemma CorruptionIsReached(s: State) returns (before: seq<Choice>, after: seq<Choice>)
    requires Init(s)
    ensures Careful(s, before) && Reckless(Run(s, before), OK)
    ensures var s' := Step(Run(s, before), OK); Careful(s', after) && !LogFresh(Run(s', after).w.log)
  {
    var c1, w1 := SleepIsReached(s);
    var c2, w2 := DiscardThenStartIsReckless(w1, Outcome.Asleep);
    before := c1 + c2;
    LeadsPlus(s, c1, State(w1, Idle(Outcome.Asleep)), c2, State(w2, Booting(BootLaunch)));
    InitHolds(s);
    RunKeeps(s, before);
    RunFresh(s, before);
    after := RecklessCorrupts(State(w2, Booting(BootLaunch)), OK);
  }

  /** A start after a discard whose sync failed comes to sweep the image while a
      power loss could still bring the saved journal back. */
  lemma DiscardThenStartIsHasty(w: World, outcome: Outcome) returns (cs: seq<Choice>, w': World)
    requires SuspendReckless.Asleep(w)
    ensures Leads(State(w, Idle(outcome)), cs, State(w', Booting(BootImage)))
    ensures Hasty(State(w', Booting(BootImage)), OK)
  {
    var c1, w1 := DiscardUnsynced(w, outcome);
    w' := w1;
    var s1, s5 := State(w1, Idle(Failed)), State(w1, Booting(BootState));
    Leads4(s1, Begin(Start), OK, OK, OK);
    assert Leads(s1, [Begin(Start), OK, OK, OK], s5);
    Leads1(s5, OK);
    LeadsPlus(s1, [Begin(Start), OK, OK, OK], s5, [OK], State(w1, Booting(BootImage)));
    LeadsPlus(State(w, Idle(outcome)), c1, s1, [Begin(Start), OK, OK, OK] + [OK], State(w1, Booting(BootImage)));
    cs := c1 + ([Begin(Start), OK, OK, OK] + [OK]);
    assert w.dir in w1.survivors && w.dir.journal.Saved?;
  }

  lemma HastyIsReached(s: State) returns (cs: seq<Choice>, w: World)
    requires Init(s)
    ensures Leads(s, cs, State(w, Booting(BootImage))) && Hasty(State(w, Booting(BootImage)), OK)
  {
    var c1, w1 := SleepIsReached(s);
    var c2;
    c2, w := DiscardThenStartIsHasty(w1, Outcome.Asleep);
    LeadsPlus(s, c1, State(w1, Idle(Outcome.Asleep)), c2, State(w, Booting(BootImage)));
    cs := c1 + c2;
  }

  /** A guest frozen by a save, after the save or under it, and for a cold-booted
      hypervisor before it too. */
  predicate FrozenBySave(w: World) {
    && Alive(w) && w.dir.journal.Saving?
    && (w.qemu.mode.PostMigrate? || (w.qemu.mode.Paused? && (w.qemu.transfer.Sending? || !w.incoming)))
  }

  /** A jm killed while it saved leaves such a guest; its journal is damaged; the
      next start sets the journal aside and is killed. */
  lemma DamageThenKillForgets(w: World, outcome: Outcome) returns (cs: seq<Choice>, w': World)
    requires FrozenBySave(w)
    ensures Leads(State(w, Idle(outcome)), cs, State(w', Idle(Killed)))
    ensures Alive(w') && Forgotten(w') && w'.qemu == w.qemu && w'.incoming == w.incoming
  {
    var s := State(w, Idle(outcome));
    var s4 := State(Corrupt(w), Recovering(ToStart, BadAside(IsFrozen)));
    Leads4(s, CorruptJournal, Begin(Start), OK, OK);
    assert Leads(s, [CorruptJournal, Begin(Start), OK, OK], s4);
    Leads2(s4, OK, Kill);
    w' := Step(Step(s4, OK), Kill).w;
    LeadsPlus(s, [CorruptJournal, Begin(Start), OK, OK], s4, [OK, Kill], State(w', Idle(Killed)));
    cs := [CorruptJournal, Begin(Start), OK, OK] + [OK, Kill];
  }

  lemma ReachesCont(w: World) returns (cs: seq<Choice>)
    requires Alive(w) && w.dir.journal.NoJournal? && w.incoming && w.qemu.mode.Paused?
    ensures Leads(State(w, Idle(Killed)), cs, State(SyncDir(w), Recovering(ToStart, IncomingCont)))
  {
    cs := [Begin(Start), OK, OK, OK];
    Leads4(State(w, Idle(Killed)), Begin(Start), OK, OK, OK);
  }

  lemma FreezesAgain(w: World) returns (cs: seq<Choice>, w': World)
    requires Alive(w) && w.dir.journal.NoJournal? && w.qemu.mode.Paused? && w.qemu.transfer.Sending?
    ensures Leads(State(w, Recovering(ToStart, IncomingCont)), cs, State(w', Recovering(ToStart, IncomingImage)))
    ensures Alive(w') && w'.dir.journal.NoJournal? && w'.qemu.mode.PostMigrate?
  {
    var s := State(w, Recovering(ToStart, IncomingCont));
    cs := [OK, Env(SaveDone(1))];
    Leads2(s, OK, Env(SaveDone(1)));
    w' := Step(Step(s, OK), Env(SaveDone(1))).w;
  }

  lemma SaysItResumed(w: World) returns (cs: seq<Choice>, w': World)
    requires w.dir.journal.NoJournal?
    ensures Leads(State(w, Recovering(ToStart, IncomingImage)), cs, State(w', Recovering(ToStart, Done(ResumedGuest))))
    ensures w'.dir.journal.NoJournal? && w'.qemu == w.qemu && w'.pid == w.pid
  {
    cs := [OK, OK];
    Leads2(State(w, Recovering(ToStart, IncomingImage)), OK, OK);
    w' := Mutate(Mutate(w, DropImage), DropTmp);
  }

  /** A recovery continues a guest whose save is still being sent, and says it
      resumed; the save completes meanwhile and freezes the guest again. */
  lemma ResumesWhileSending(w: World) returns (cs: seq<Choice>, w': World)
    requires Alive(w) && w.dir.journal.NoJournal? && w.incoming
    requires w.qemu.mode.Paused? && w.qemu.transfer.Sending?
    ensures Leads(State(w, Idle(Killed)), cs, State(w', Recovering(ToStart, Done(ResumedGuest))))
    ensures Alive(w') && w'.dir.journal.NoJournal? && w'.qemu.mode.PostMigrate?
  {
    hide Leads;
    var s, last := State(w, Idle(Killed)), Recovering(ToStart, Done(ResumedGuest));
    var c1 := ReachesCont(w);
    var c2, w2 := FreezesAgain(SyncDir(w));
    var c3;
    c3, w' := SaysItResumed(w2);
    LeadsPlus(s, c1, State(SyncDir(w), Recovering(ToStart, IncomingCont)), c2,
              State(w2, Recovering(ToStart, IncomingImage)));
    LeadsPlus(s, c1 + c2, State(w2, Recovering(ToStart, IncomingImage)), c3, State(w', last));
    cs := c1 + c2 + c3;
  }

  /** So it goes, after the same damage and kill, in a hypervisor that was once
      woken. */
  lemma ResumedGuestFreezesAgain(w: World, outcome: Outcome) returns (cs: seq<Choice>, w': World)
    requires FrozenBySave(w) && w.qemu.mode.Paused? && w.qemu.transfer.Sending? && w.incoming
    ensures Leads(State(w, Idle(outcome)), cs, State(w', Recovering(ToStart, Done(ResumedGuest))))
    ensures Alive(w') && w'.dir.journal.NoJournal? && w'.qemu.mode.PostMigrate?
  {
    var c1, w1 := DamageThenKillForgets(w, outcome);
    var c2;
    c2, w' := ResumesWhileSending(w1);
    LeadsPlus(State(w, Idle(outcome)), c1, State(w1, Idle(Killed)), c2,
              State(w', Recovering(ToStart, Done(ResumedGuest))));
    cs := c1 + c2;
  }

  lemma ForgottenIsReached(s: State) returns (cs: seq<Choice>, w: World)
    requires Init(s)
    ensures Leads(s, cs, State(w, Idle(Killed))) && Alive(w) && Forgotten(w)
  {
    var c1, w1, n := ImageIsReached(s);
    Leads1(State(w1, Suspending(Poll(n))), Kill);
    LeadsPlus(s, c1, State(w1, Suspending(Poll(n))), [Kill], State(w1, Idle(Killed)));
    var c2;
    c2, w := DamageThenKillForgets(w1, Killed);
    LeadsPlus(s, c1 + [Kill], State(w1, Idle(Killed)), c2, State(w, Idle(Killed)));
    cs := c1 + [Kill] + c2;
  }

  /** The sync of the "saving" journal fails: the suspend is over, its guest runs,
      and its journal stays. */
  lemma UnsyncedJournalStays(s: State) returns (cs: seq<Choice>, w: World)
    requires Init(s)
    ensures Leads(s, cs, State(w, Idle(Refused)))
    ensures w.dir.journal.Saving? && Going(w)
  {
    var c1;
    c1, w := SavingIsReached(s);
    Leads1(State(w, Suspending(SyncSaving)), Jm(false, false));
    LeadsPlus(s, c1, State(w, Suspending(SyncSaving)), [Jm(false, false)], State(w, Idle(Refused)));
    cs := c1 + [Jm(false, false)];
  }

  /** The hypervisor dies before the endpoints are handed over, and handing them
      over fails: jm says it rolled the suspend back, and leaves the pid file of
      a hypervisor that is gone. */
  lemma DeadGuestIsRolledBack(s: State) returns (cs: seq<Choice>, w: World)
    requires Init(s)
    ensures Leads(s, cs, State(w, Idle(RolledBack)))
    ensures w.qemu.Off? && w.pid
  {
    var c1, w1 := HandOverIsReached(s);
    var s1 := State(w1, Suspending(HandEndpoints));
    var w2 := w1.(qemu := Off);
    var s2 := State(w2, Discarding(ByCancel, Unlink));
    Leads3(s1, Env(QemuDies), Jm(false, false), OK);
    LeadsPlus(s, c1, s1, [Env(QemuDies), Jm(false, false), OK], s2);
    Leads4(s2, OK, OK, OK, OK);
    w := Step(Step(Step(Step(s2, OK), OK), OK), OK).w;
    LeadsPlus(s, c1 + [Env(QemuDies), Jm(false, false), OK], s2, [OK, OK, OK, OK], State(w, Idle(RolledBack)));
    cs := c1 + [Env(QemuDies), Jm(false, false), OK] + [OK, OK, OK, OK];
  }
}
