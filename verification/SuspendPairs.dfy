/**
  The order of journal and image: a "saved" journal always has its image.

  A power loss may keep any of the unsynced directory changes, so the image of
  a saved journal may only go once the journal's own removal is durable. Commit,
  discard, cancel and wake keep to that order. The sweeps that tidy an orphan
  image away do not look: they are safe exactly when the directory was synced
  since the journal went.
 */
module SuspendPairs {
  import opened Base
  import opened SuspendWorld
  import opened SuspendSteps
  import opened SuspendInvariant

  /** The image is there, finished, of the size the journal recorded, and of
      that very save. */
  predicate PairOk(files: map<nat, Content>, d: Dir) {
    d.journal.Saved? ==>
      && d.image == Some(d.journal.save) && d.journal.save in files
      && files[d.journal.save].whole && files[d.journal.save].size == d.journal.size
  }

  predicate AllPaired(dir: Dir, ds: set<Dir>, files: map<nat, Content>) {
    && (forall d :: d in ds ==> PairOk(files, d))
    && (dir.journal.Saved? ==> forall d :: d in ds ==> d.image == Some(dir.journal.save))
  }

  predicate PairsOk(w: World) { AllPaired(w.dir, w.survivors, w.files) }

  predicate DropsImage(pc: Pc) {
    || (pc.Recovering? && (pc.rat.SweepImage? || pc.rat.IncomingImage? || pc.rat.StrayImage?))
    || (pc.Repairing? && pc.pat.OrphanImage?)
    || (pc.Discarding? && pc.dat.RemoveImage?)
    || (pc.Suspending? && pc.sat.RollBackImage?)
    || (pc.Waking? && pc.wat.WakeImage?)
    || (pc.Booting? && pc.bat.BootImage?)
  }

  /** Removing an image while a power loss could still bring back a journal. */
  predicate Hasty(s: State, c: Choice) {
    c.Jm? && c.ok && DropsImage(s.pc) && !NoSaved(s.w.survivors)
  }

  lemma MutatePairs(w: World, op: DirOp)
    requires Global(w) && PairsOk(w)
    requires op.RenameTmp? ==> NoSaved(w.survivors)
    requires op.PutJournal? ==> !op.journal.Bad?
    requires op.PutJournal? && op.journal.Saved? ==> op.journal.save in w.files
    requires op.PutJournal? && op.journal.Saved? ==>
      && w.files[op.journal.save].whole && w.files[op.journal.save].size == op.journal.size
      && (forall d :: d in w.survivors ==> d.image == Some(op.journal.save))
    ensures !(op.DropImage? && !NoSaved(w.survivors)) ==> PairsOk(Mutate(w, op))
  {
    var w' := Mutate(w, op);
    if op.DropImage? && !NoSaved(w.survivors) { return; }
    forall d' | d' in w'.survivors
      ensures PairOk(w.files, d')
      ensures w'.dir.journal.Saved? ==> d'.image == Some(w'.dir.journal.save)
    {
      if d' !in w.survivors {
        var d :| d in w.survivors && d' == Apply(op, d);
        assert PairOk(w.files, d);
      }
    }
  }

  lemma MarkPairs(w: World)
    requires Global(w) && PairsOk(w)
    ensures w.dir.journal.Saved? ==> PairsOk(Mutate(w, PutJournal(w.dir.journal.(mark := Some(w.disk)))))
  {
    if w.dir.journal.Saved? {
      assert PairOk(w.files, w.dir);
      MutatePairs(w, PutJournal(w.dir.journal.(mark := Some(w.disk))));
    }
  }

  lemma RecoverStepPairs(w: World, goal: Goal, at: RecoverAt, ok: bool, bit: bool)
    requires Global(w) && PairsOk(w) && !Hasty(State(w, Recovering(goal, at)), Jm(ok, bit))
    ensures PairsOk(RecoverStep(w, goal, at, ok, bit).w)
  {
    hide LogOk, FilesOk;
    if at.SavedPrint? {
      MarkPairs(w);
    } else {
      MutatePairs(w, if at.BadAside? then DropJournal
                     else if DropsImage(Recovering(goal, at)) then DropImage
                     else DropTmp);
    }
  }

  lemma RepairStepPairs(w: World, who: By, at: RepairAt, ok: bool, bit: bool)
    requires Global(w) && PairsOk(w) && !Hasty(State(w, Repairing(who, at)), Jm(ok, bit))
    ensures PairsOk(RepairStep(w, who, at, ok, bit).w)
  {
    MutatePairs(w, if at.SetAside? then DropJournal else if at.OrphanImage? then DropImage else DropTmp);
  }

  lemma DiscardStepPairs(w: World, who: By, at: DiscardAt, ok: bool, bit: bool)
    requires Global(w) && PairsOk(w) && !Hasty(State(w, Discarding(who, at)), Jm(ok, bit))
    ensures PairsOk(DiscardStep(w, who, at, ok, bit).w)
  {
    MutatePairs(w, if at.Unlink? then DropJournal else if at.RemoveImage? then DropImage else DropTmp);
  }

  lemma BootStepPairs(w: World, at: BootAt, ok: bool, bit: bool)
    requires Global(w) && PairsOk(w) && !Hasty(State(w, Booting(at)), Jm(ok, bit))
    ensures PairsOk(BootStep(w, at, ok, bit).w)
  {
    MutatePairs(w, if at.BootImage? then DropImage else DropTmp);
  }

  lemma CreatePairs(w: World, ok: bool, bit: bool)
    requires Inv(State(w, Suspending(Create))) && PairsOk(w)
    ensures PairsOk(SuspendStep(w, Create, ok, bit).w)
  {
    assert forall d :: d in w.survivors ==> SavedOk(w.files, Taken(w.log), d) && PairOk(w.files, d);
    var w1 := w.(files := w.files[w.nextSave := Content(0, 0, false, false)], nextSave := w.nextSave + 1);
    assert Global(w1) && PairsOk(w1);
    MutatePairs(w1, PutTmp(w.nextSave));
  }

  lemma CommitPairs(w: World, at: SuspendAt, ok: bool, bit: bool)
    requires Inv(State(w, Suspending(at))) && PairsOk(w) && (InCommit(at) || at.SyncImage? || at.RollBackImage?)
    ensures PairsOk(SuspendStep(w, at, ok, bit).w)
  {
    assert forall d :: d in w.survivors ==> SavedOk(w.files, Taken(w.log), d) && PairOk(w.files, d);
    match at
    case RenameImage(s) => MutatePairs(w, RenameTmp(s));
    case WriteSaved(s) => MutatePairs(w, PutJournal(Saved(s, w.files[s].size, None)));
    case RollBackImage => MutatePairs(w, DropImage);
    case _ =>
  }

  lemma TidyPairs(w: World, at: SuspendAt, ok: bool, bit: bool)
    requires Global(w) && PairsOk(w) && (at.WriteSaving? || at.Print? || at.RollBackTmp? || at.CrashTmp?)
    ensures PairsOk(SuspendStep(w, at, ok, bit).w)
  {
    match at
    case WriteSaving => MutatePairs(w, PutJournal(Saving));
    case Print(_) => MarkPairs(w);
    case _ => MutatePairs(w, DropTmp);
  }

  predicate InPairs(at: SuspendAt) {
    || InCommit(at) || at.SyncImage? || at.RollBackImage? || at.Create?
    || at.WriteSaving? || at.Print? || at.RollBackTmp? || at.CrashTmp?
  }

  /** Steps that change no entry of the directory. */
  lemma QuietPairs(w: World, at: SuspendAt, ok: bool, bit: bool)
    requires Global(w) && PairsOk(w) && !InPairs(at)
    ensures PairsOk(SuspendStep(w, at, ok, bit).w)
  {
    hide QemuOk, LogOk, FilesOk;
  }

  lemma SuspendStepPairs(w: World, at: SuspendAt, ok: bool, bit: bool)
    requires Inv(State(w, Suspending(at))) && PairsOk(w)
    ensures PairsOk(SuspendStep(w, at, ok, bit).w)
  {
    hide Global, PairsOk, SuspendStep, SuspendInv;
    if at.Create? { CreatePairs(w, ok, bit); }
    else if InCommit(at) || at.SyncImage? || at.RollBackImage? { CommitPairs(w, at, ok, bit); }
    else if InPairs(at) { TidyPairs(w, at, ok, bit); }
    else { QuietPairs(w, at, ok, bit); }
  }

  lemma WakeStepPairs(w: World, goal: Goal, at: WakeAt, ok: bool, bit: bool)
    requires Global(w) && PairsOk(w) && !Hasty(State(w, Waking(goal, at)), Jm(ok, bit))
    ensures PairsOk(WakeStep(w, goal, at, ok, bit).w)
  {
    MutatePairs(w, if at.WakeUnlink? then DropJournal else if at.WakeImage? then DropImage else DropTmp);
  }

  lemma JmStepPairs(s: State, ok: bool, bit: bool)
    requires Inv(s) && PairsOk(s.w) && !Hasty(s, Jm(ok, bit))
    ensures PairsOk(JmStep(s, ok, bit).w)
  {
    hide Global, AllPaired, RecoverStep, RepairStep, DiscardStep, SuspendStep, WakeStep, BootStep;
    match s.pc
    case Idle(_) =>
    case Recovering(goal, at) => RecoverStepPairs(s.w, goal, at, ok, bit);
    case Suspending(at) => SuspendStepPairs(s.w, at, ok, bit);
    case Waking(goal, at) => WakeStepPairs(s.w, goal, at, ok, bit);
    case Repairing(who, at) => RepairStepPairs(s.w, who, at, ok, bit);
    case Discarding(who, at) => DiscardStepPairs(s.w, who, at, ok, bit);
    case Booting(at) => BootStepPairs(s.w, at, ok, bit);
    case Stopping(_, _) =>
  }

  lemma HappensPairs(w: World, e: Event)
    requires Global(w) && PairsOk(w)
    ensures PairsOk(Happens(w, e))
  {
    assert forall d :: d in w.survivors ==> SavedOk(w.files, Taken(w.log), d) && PairOk(w.files, d);
  }

  lemma CorruptPairs(w: World)
    requires Global(w) && PairsOk(w)
    ensures PairsOk(Corrupt(w))
  {
  }

  lemma LosePowerPairs(w: World, d: Dir, torn: nat, pid: bool, incoming: bool)
    requires Global(w) && PairsOk(w) && d in w.survivors
    ensures PairsOk(LosePower(w, d, torn, pid, incoming))
  {
    assert SavedOk(w.files, Taken(w.log), d) && PairOk(w.files, d);
  }

  lemma StepPairs(s: State, c: Choice)
    requires Inv(s) && PairsOk(s.w) && !Hasty(s, c)
    ensures PairsOk(Step(s, c).w)
  {
    hide Global, JmStep, Happens, Corrupt, LosePower;
    match c
    case Jm(ok, bit) => JmStepPairs(s, ok, bit);
    case Env(e) => HappensPairs(s.w, e);
    case CorruptJournal => CorruptPairs(s.w);
    case PowerLoss(d, torn, pid, incoming) =>
      if d in s.w.survivors { LosePowerPairs(s.w, d, torn, pid, incoming); }
    case Begin(_) =>
    case Kill =>
  }

  lemma HastyDrops(s: State, c: Choice)
    requires Hasty(s, c)
    ensures Step(s, c).w == Mutate(s.w, DropImage)
  {
    hide Mutate, NoSaved;
  }

  lemma HastyBreaks(s: State, c: Choice)
    requires Hasty(s, c)
    ensures !PairsOk(Step(s, c).w)
  {
    hide Step;
    HastyDrops(s, c);
    var d :| d in s.w.survivors && d.journal.Saved?;
    assert Apply(DropImage, d) in Mutate(s.w, DropImage).survivors;
    assert !PairOk(s.w.files, Apply(DropImage, d));
  }

  /** A step leaves a saved journal without its image in some surviving
      directory exactly when it removes an image too early. */
  lemma PairsBreakExactlyWhenHasty(s: State, c: Choice)
    requires Inv(s) && PairsOk(s.w)
    ensures PairsOk(Step(s, c).w) <==> !Hasty(s, c)
  {
    hide Inv, PairsOk, Hasty, Step;
    if Hasty(s, c) { HastyBreaks(s, c); } else { StepPairs(s, c); }
  }

  /** Commit and rollback, cancel, discard and wake never remove one too early;
      only a sweep for orphans can. */
  lemma OnlySweepsAreHasty(s: State, c: Choice)
    requires Inv(s) && Hasty(s, c)
    ensures !s.pc.Suspending? && !s.pc.Discarding? && !s.pc.Waking?
    ensures s.w.dir.journal.NoJournal?
  {
  }

  /** From a synced directory no step is hasty. */
  lemma SyncedIsNeverHasty(s: State, c: Choice)
    requires Inv(s) && Synced(s.w)
    ensures !Hasty(s, c)
  {
    if Hasty(s, c) { OnlySweepsAreHasty(s, c); }
  }

  predicate Orderly(s: State, choices: seq<Choice>)
    decreases |choices|
  {
    choices == [] || (!Hasty(s, choices[0]) && Orderly(Step(s, choices[0]), choices[1..]))
  }

  /** From a machine that was never started, and for any subset of the unsynced
      changes a power loss keeps: no saved journal is left whose image is
      missing, short or of another save. */
  lemma {:induction false} SavedJournalsHaveTheirImage(s: State, choices: seq<Choice>)
    requires Inv(s) && PairsOk(s.w) && Orderly(s, choices)
    ensures PairsOk(Run(s, choices).w)
    decreases |choices|
  {
    if choices != [] {
      StepPairs(s, choices[0]);
      StepKeeps(s, choices[0]);
      SavedJournalsHaveTheirImage(Step(s, choices[0]), choices[1..]);
      assert Run(s, choices) == Run(Step(s, choices[0]), choices[1..]);
    }
  }
}
