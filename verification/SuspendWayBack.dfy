/**
  The whole way back of a suspend that gave up: the machine's half first, then
  the endpoint's, by what the machine's half found.
 */
module SuspendWayBack {
  import Q = ParkQueue
  import W = SuspendWorld
  import S = SuspendSteps
  import I = SuspendInvariant
  import R = SuspendRecovery
  import U = SuspendUndo
  import E = SuspendRollback

  /** A suspend that gives up with its journal durable, and whose hypervisor does
      not die past jm's last look, leaves no client of the engine socket waiting:
      either its guest runs, with nothing of the suspend left and, if the forward
      comes back, served by it; or its hypervisor is reported dead. */
  method WayBack(s: S.State, c: S.Choice, ess: seq<seq<W.Event>>, endpoint: E.Endpoint,
                 forwardStopped: bool, canRename: bool, smooth: bool, noise: seq<Q.Event>)
    returns (end: S.State, served: bool)
    requires I.Inv(s) && U.GivesUp(s, c) && |ess| >= 19 && endpoint.Valid() && E.Noise(noise)
    modifies endpoint
    ensures endpoint.Valid() && U.BackedOut(end) == (!U.Unsynced(s.pc.sat) && !U.LateDeath(S.Step(s, c), ess))
    ensures U.BackedOut(end) ==> endpoint.q.held == {} && !endpoint.q.armed
    ensures end.pc == S.Idle(S.RolledBack) ==>
      && endpoint.q.fates.Keys == old(Q.Seen(endpoint.q)) && endpoint.s.mine.None?
      && (served ==> E.RealForwardServes(endpoint.s)) && (smooth ==> served)
    ensures end.pc == S.Idle(S.Died) ==>
      && endpoint.s.path == old(endpoint.s.path)
      && (served ==> endpoint.s.helper.None?) && (smooth ==> served)
    ensures !end.pc.Idle? || (!end.pc.outcome.RolledBack? && !end.pc.outcome.Died?) ==>
      endpoint.s == old(endpoint.s) && endpoint.q == old(endpoint.q)
  {
    hide U.BackedOut, U.LateDeath, U.GivesUp, I.Inv, S.Step, U.Roll;
    U.SuspendBacksOut(s, c, ess);
    end := U.Roll(S.Step(s, c), ess);
    served := false;
    BackedOutEnds(end);
    if end.pc == S.Idle(S.RolledBack) {
      served := endpoint.GuestRunning(forwardStopped, canRename, smooth, noise);
    } else if end.pc == S.Idle(S.Died) {
      served := endpoint.HypervisorDied(smooth);
    }
  }

  lemma BackedOutEnds(end: S.State)
    ensures U.BackedOut(end) ==> end.pc == S.Idle(S.RolledBack) || end.pc == S.Idle(S.Died)
  {
  }
}
