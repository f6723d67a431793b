/**
  Commands whose calls all succeed, turn by turn: the hypervisor may do anything
  before each of jm's steps, and a poll may come too early any number of times.
 */
module SuspendTurns {
  import opened Base
  import opened SuspendWorld
  import opened SuspendSteps
  import opened SuspendInvariant
  import opened SuspendRecovery

  /** One step whose call succeeds. `marks` says whether a suspend can take the
      disk's fingerprint. */
  function Turn(s: State, marks: bool): State {
    JmStep(s, true, (s.pc.Recovering? && s.pc.rat.SavedPrint?) || (marks && s.pc.Suspending? && s.pc.sat.Print?))
  }

  /** The turns of a command until it returns, with the events before each. */
  function Proceed(s: State, marks: bool, ess: seq<seq<Event>>): State
    decreases |ess|
  {
    if s.pc.Idle? || ess == [] then s
    else Proceed(Turn(State(HappenAll(s.w, ess[0]), s.pc), marks), marks, ess[1..])
  }

  /** The hypervisor does not die, and neither a save nor a load of it fails. */
  predicate Smooth(es: seq<Event>) { forall e :: e in es ==> !e.QemuDies? && !e.SaveFails? && !e.LoadFails? }

  predicate AllSmooth(ess: seq<seq<Event>>) { forall i :: 0 <= i < |ess| ==> Smooth(ess[i]) }

  /** No fingerprint speaks against the saved state. */
  predicate Unspoiled(w: World) {
    w.dir.journal.Saved? && (w.dir.journal.mark.Some? ==> w.dir.journal.mark.value == w.disk)
  }

  lemma TurnKeeps(s: State, marks: bool)
    requires Inv(s)
    ensures Inv(Turn(s, marks))
  {
    hide Inv, JmStep;
    var printed := (s.pc.Recovering? && s.pc.rat.SavedPrint?) || (marks && s.pc.Suspending? && s.pc.sat.Print?);
    StepKeeps(s, Jm(true, printed));
  }
}
