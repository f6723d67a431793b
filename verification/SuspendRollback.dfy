/**
  The endpoint half of a suspend's rollback and of the mode loop: what a client
  of the engine socket finds once a suspend did not go ahead.

  The calls run one after the other; each effect may fail, a launched helper may
  or may not come to answer, and the queue's own events (a connection parked, a
  timer, an abort) fall anywhere in the hand-over.
 */
module SuspendRollback {
  import opened Base
  import opened SocketPath
  import Q = ParkQueue

  /** The forward's own helper serves the path, on record. */
  predicate RealForwardServes(s: Sockets) {
    s.helper.Some? && Names(s.path, s.recorded) && Answers(s, s.path)
  }

  /** How many effects a start still has before it. */
  function EffectsLeft(at: ForwardAt): nat {
    match at
    case CheckServing => 11
    case KillHelper(_, _) => 10
    case CheckRemove(_, _, _) => 9
    case RemoveOwn(_) => 8
    case ClearBeside => 7
    case Launch => 6
    case RecordPid(_) => 5
    case AwaitAnswer => 4
    case MoveOver => 3
    case FailKill => 2
    case RecordIno(_) => 1
    case FailRemove => 1
    case NoCommand => 0
  }

  /** What a start knows once its helper answered. */
  predicate OnItsWay(s: Sockets) {
    && (s.fat.MoveOver? || s.fat.RecordIno? ==> s.helper.Some?)
    && (s.fat.AwaitAnswer? ==> s.helper.Some?)
    && (s.fat.MoveOver? ==> s.beside.Some? && s.beside.value in s.serving)
    && (s.fat.RecordIno? ==> s.path == Sock(s.fat.ino) && s.fat.ino in s.serving)
    && (s.fat.KillHelper? || s.fat.CheckRemove? || s.fat.RemoveOwn? ==> s.fat.restart)
  }

  lemma StartStepOnItsWay(s: Sockets, ok: bool)
    requires OnItsWay(s) && !s.fat.NoCommand?
    ensures OnItsWay(ForwardStep(s, ok))
    ensures EffectsLeft(ForwardStep(s, ok).fat) < EffectsLeft(s.fat)
    ensures ok && s.fat.RecordIno? ==> RealForwardServes(ForwardStep(s, ok))
    ensures s.fat.CheckServing? ==>
      ForwardStep(s, ok) == s.(fat := if RealForwardServes(s) then NoCommand else KillHelper(false, true))
  {
  }

  /** A start that nothing has failed in so far. */
  predicate Unhindered(s: Sockets) {
    && !s.fat.FailKill? && !s.fat.FailRemove?
    && (s.fat.Launch? || s.fat.RecordPid? ==> s.beside.None?)
    && (s.fat.AwaitAnswer? && s.beside.Some? ==> s.beside.value in s.serving)
  }

  lemma StepUnhindered(s: Sockets)
    requires OnItsWay(s) && Unhindered(s) && !s.fat.NoCommand? && (s.fat.AwaitAnswer? ==> s.beside.Some?)
    ensures Unhindered(ForwardStep(s, true))
    ensures ForwardStep(s, true).fat.NoCommand? ==> s.fat.RecordIno? || (s.fat.CheckServing? && RealForwardServes(s))
  {
  }

  lemma BindingUnhindered(s: Sockets)
    requires Tracked(s) && OnItsWay(s) && s.fat.AwaitAnswer? && Unhindered(s)
    ensures var s' := Next(s, HelperBinds(s.helper.value));
      s'.beside.Some? && OnItsWay(s') && Unhindered(s') && s'.fat == s.fat
  {
  }

  lemma HandingOver(s: Sockets)
    requires Tracked(s) && s.sat.NoTake?
    ensures var s' := Next(s, HandOver);
      && Tracked(s') && s'.mine == None && s'.sat.NoTake? && s'.fat == s.fat
      && s'.path == s.path && s'.helper == s.helper && s'.recorded == s.recorded
      && (OfForwardAt(s) && Answers(s, s.path) ==> Answers(s', s'.path))
  {
    LettingGoTracks(s, false);
  }

  lemma PuttingBack(s: Sockets, ok: bool)
    requires Tracked(s) && s.sat.NoTake?
    ensures var s' := Next(s, RestorePrevious(ok));
      && Tracked(s') && s'.sat.NoTake? && s'.fat == s.fat && s'.mine == s.mine && s'.helper == s.helper
      && (Restores(s, ok) && s.helper.Some? && Names(s.aside, s.recorded) ==>
            RealForwardServes(s') && s'.path == s.aside)
  {
    NextTracks(s, RestorePrevious(ok));
  }

  lemma ServesUnderOwnName(s: Sockets)
    requires Tracked(s) && RealForwardServes(s)
    ensures OfForwardAt(s) && Answers(s, s.path)
  {
  }

  lemma ParkingOne(q: Q.Queue, c: Q.Conn)
    requires Q.Ok(q) && c in q.arriving
    ensures var q' := Q.Next(q, Q.Park(c));
      && Q.Ok(q') && Q.Seen(q') == Q.Seen(q) && q'.armed == q.armed && q'.handing == q.handing
      && q'.arriving == q.arriving - {c} && q'.listening == q.listening
  {
    hide Q.Next, Q.Ok, Q.Seen;
    Q.NextKeeps(q, Q.Park(c));
    ParkingLeaves(q, c);
  }

  lemma ParkingLeaves(q: Q.Queue, c: Q.Conn)
    requires c in q.arriving
    ensures var q' := Q.Next(q, Q.Park(c));
      && q'.armed == q.armed && q'.handing == q.handing && q'.arriving == q.arriving - {c} && q'.listening == q.listening
  {
  }

  lemma BeginningHandOver(q: Q.Queue)
    requires Q.Ok(q) && q.handing.NotHandingOver?
    ensures var q' := Q.Next(q, Q.BeginHandOver);
      Q.Ok(q') && Q.Seen(q') == Q.Seen(q) && q'.armed == q.armed && q'.handing.Closing? && q'.listening == {}
  {
    Q.NextKeeps(q, Q.BeginHandOver);
  }

  /** Events of the queue that a hand-over does not make itself, and that arm no
      suspend. */
  predicate Noise(es: seq<Q.Event>) { forall e :: e in es ==> !e.TakeAll? && !e.Arm? }

  lemma {:induction false} NoiseArmsNothing(q: Q.Queue, es: seq<Q.Event>)
    requires Noise(es)
    ensures Q.Run(q, es).armed ==> q.armed
    decreases |es|
  {
    if es != [] {
      assert es[0] in es;
      NoiseArmsNothing(Q.Next(q, es[0]), es[1..]);
    }
  }

  lemma NoiseInHandOver(q: Q.Queue, es: seq<Q.Event>)
    requires Q.Ok(q) && q.handing.Closing? && Noise(es)
    ensures var q' := Q.Run(q, es);
      && Q.Ok(q') && Q.Seen(q') == Q.Seen(q) && !q'.handing.NotHandingOver? && q'.listening == {}
      && (q'.armed ==> q.armed)
  {
    Q.EveryConnectionEndsOnce(q, es);
    Q.NothingArrivesDuringHandOver(q, es);
    NoiseArmsNothing(q, es);
  }

  lemma EndingHandOver(q: Q.Queue)
    requires Q.Ok(q) && !q.handing.NotHandingOver? && q.arriving == {} && q.listening == {}
    ensures var q' := Q.Next(Q.Next(q, Q.ListenersDone), Q.TakeAll);
      && Q.Ok(q') && q'.armed == q.armed && q'.handing.NotHandingOver?
      && q'.held == {} && q'.arriving == {} && q'.listening == {} && q'.fates.Keys == Q.Seen(q)
  {
    hide Q.Placed, Q.Later;
    Q.NextKeeps(q, Q.ListenersDone);
    Q.NextKeeps(Q.Next(q, Q.ListenersDone), Q.TakeAll);
    Q.TakeAllRelays(Q.Next(q, Q.ListenersDone));
  }

  class Endpoint {
    var s: Sockets
    var q: Q.Queue

    ghost predicate Valid()
      reads this
    {
      Tracked(s) && s.fat.NoCommand? && s.sat.NoTake? && Q.Ok(q) && q.handing.NotHandingOver?
    }

    constructor (path: Entry, cap: nat)
      requires !path.Sock?
      ensures Valid() && Settled(s) && OnlyOwnRemoved(s.removals)
    {
      s := Sockets(path, {}, 0, None, Nothing, NoTake, None, None, None, NoCommand, []);
      q := Q.Queue(cap, {}, {}, {}, {}, map[], false, false, Q.NotHandingOver);
    }

    /** startForward: a forward found serving is left alone; otherwise, on
        success, a new helper serves the path and is on record. It succeeds if
        all its calls do and the helper binds in time (`smooth`). */
    method StartForward(smooth: bool) returns (ok: bool)
      requires Valid()
      modifies this`s
      ensures Valid()
      ensures ok ==> RealForwardServes(s)
      ensures smooth ==> ok
      ensures s.mine == old(s.mine) && s.aside == old(s.aside)
      ensures old(RealForwardServes(s)) ==> ok && s == old(s)
    {
      ghost var before := s;
      s := Next(s, BeginStart);
      NextTracks(before, BeginStart);
      ok := false;
      while !s.fat.NoCommand?
        invariant Tracked(s) && OnItsWay(s) && s.sat.NoTake?
        invariant s.mine == before.mine && s.aside == before.aside
        invariant s.fat.NoCommand? && ok ==> RealForwardServes(s)
        invariant smooth ==> Unhindered(s) && (s.fat.NoCommand? ==> ok)
        invariant RealForwardServes(before) ==> s == before.(fat := CheckServing) || (s == before && ok)
        decreases EffectsLeft(s.fat)
      {
        var at, fine, binds := s.fat, *, *;
        if smooth { fine, binds := true, true; }
        ok := (at.RecordIno? && fine) || (at.CheckServing? && RealForwardServes(s));
        if at.AwaitAnswer? && binds {
          if smooth { BindingUnhindered(s); }
          NextTracks(s, HelperBinds(s.helper.value));
          s := Next(s, HelperBinds(s.helper.value));
        }
        NextTracks(s, Forward(fine));
        StartStepOnItsWay(s, fine);
        if smooth { StepUnhindered(s); }
        ForwardKeepsStandin(s, fine);
        s := Next(s, Forward(fine));
      }
    }

    /** stopForward with the socket kept, as a park and S8 do it. It fails exactly
        if its helper cannot be ended. */
    method StopForwardKeeping(ends: bool) returns (ok: bool)
      requires Valid()
      modifies this`s
      ensures Valid()
      ensures s.path == old(s.path) && s.removals == old(s.removals) && s.mine == old(s.mine)
      ensures ok == (ends || old(s.helper.None?))
      ensures if ok then s.helper.None? && s.recorded.None? else s.helper == old(s.helper)
    {
      hide Tracked, StartStep, Q.Ok;
      NextTracks(s, BeginStop(true));
      s := Next(s, BeginStop(true));
      NextTracks(s, Forward(ends));
      s := Next(s, Forward(ends));
      if s.fat.NoCommand? { return false; }
      NextTracks(s, Forward(true));
      s := Next(s, Forward(true));
      NextTracks(s, Forward(true));
      s := Next(s, Forward(true));
      ok := true;
    }

    /** The stand-in's hand-over: its listeners close, what they accepted is
        parked, and everything parked is relayed, whatever comes in between. */
    method RelayAll(noise: seq<Q.Event>)
      requires Q.Ok(q) && q.handing.NotHandingOver? && Noise(noise)
      modifies this`q
      ensures Q.Ok(q) && q.handing.NotHandingOver?
      ensures q.held == {} && q.arriving == {} && q.listening == {}
      ensures q.fates.Keys == old(Q.Seen(q)) && (q.armed ==> old(q.armed))
    {
      BeginningHandOver(q);
      q := Q.Next(q, Q.BeginHandOver);
      NoiseInHandOver(q, noise);
      q := Q.Run(q, noise);
      while q.arriving != {}
        invariant Q.Ok(q) && !q.handing.NotHandingOver? && q.listening == {}
        invariant Q.Seen(q) == old(Q.Seen(q)) && (q.armed ==> old(q.armed))
        decreases |q.arriving|
      {
        var c :| c in q.arriving;
        ParkingOne(q, c);
        q := Q.Next(q, Q.Park(c));
      }
      EndingHandOver(q);
      q := Q.Next(Q.Next(q, Q.ListenersDone), Q.TakeAll);
    }

    /** R-A: the guest runs. Given that its start of the forward succeeds, as it
        does when nothing hinders it, the engine socket ends served by the real
        forward, the stand-in holds nothing and nothing is parked. A forward that was never stopped, and
        whose socket was put back, is the one that serves: its clients keep
        their connections. */
    method GuestRunning(forwardStopped: bool, canRename: bool, smooth: bool, noise: seq<Q.Event>)
      returns (ok: bool)
      requires Valid() && Noise(noise)
      modifies this
      ensures Valid() && s.mine == None
      ensures (ok ==> RealForwardServes(s)) && (smooth ==> ok)
      ensures q.held == {} && q.arriving == {} && q.listening == {} && !q.armed
      ensures q.fates.Keys == old(Q.Seen(q))
      ensures !forwardStopped && old(Restores(s, canRename) && s.helper.Some? && Names(s.aside, s.recorded)) ==>
        ok && s.helper == old(s.helper) && s.path == old(s.aside)
    {
      hide Tracked, Q.Ok;
      if !forwardStopped {
        PuttingBack(s, canRename);
        s := Next(s, RestorePrevious(canRename));
      }
      ok := StartForward(smooth);
      HandingOver(s);
      if ok { ServesUnderOwnName(s); }
      s := Next(s, HandOver);
      Q.NextKeeps(q, Q.Disarm);
      q := Q.Next(q, Q.Disarm);
      RelayAll(noise);
    }

    /** R-C: the hypervisor died. Nothing stays parked, and the path is left to
        whoever holds it. */
    method HypervisorDied(ends: bool) returns (ok: bool)
      requires Valid()
      modifies this
      ensures Valid()
      ensures q.held == {} && !q.armed && Q.Seen(q) == old(Q.Seen(q))
      ensures s.path == old(s.path) && s.removals == old(s.removals) && s.mine == old(s.mine)
      ensures ok == (ends || old(s.helper.None?)) && (ok ==> s.helper.None?)
    {
      hide Tracked, Q.Ok;
      Q.NextKeeps(q, Q.Disarm);
      q := Q.Next(q, Q.Disarm);
      Q.NextKeeps(q, Q.CloseHeld);
      q := Q.Next(q, Q.CloseHeld);
      ok := StopForwardKeeping(ends);
    }
  }
}
