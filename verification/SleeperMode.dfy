/**
  One evaluation of the sleeper's mode table, from what it looks at: when it
  hands over, when it gives a socket up, and when it ends.
 */
module SleeperMode {
  import opened Base
  import opened SocketPath

  datatype Machine = IsStopped | IsRunning | IsSuspended | IsBroken

  datatype Mode = Monitor | Hold | HandingOver | Exit

  /** What one evaluation looks at. `inFlight` is a waker alive or the machine
      lock taken. */
  datatype Look = Look(
    machine: Machine,
    journal: bool,
    sockets: Sockets,
    tcpHeld: bool,
    tcpListening: bool,
    tcpAnswers: bool,
    parked: nat,
    inFlight: bool)

  datatype Observation = Observation(
    machine: Machine,
    journal: bool,
    holding: bool,
    endpointsBack: bool,
    stoppedBefore: bool,
    busy: bool)

  predicate CountsStopped(m: Machine, journal: bool) { m.IsStopped? && !journal }

  function Decide(o: Observation): Mode {
    if CountsStopped(o.machine, o.journal) && o.stoppedBefore && !o.busy then Exit
    else if o.holding then
      if !o.journal && o.machine.IsRunning? && o.endpointsBack then HandingOver else Hold
    else if o.machine.IsSuspended? || o.machine.IsBroken? then Hold
    else Monitor
  }

  predicate EndpointsBack(l: Look, s: Sockets) {
    && (s.mine.Some? ==> s.path != Sock(s.mine.value) && Answers(s, s.path))
    && (l.tcpHeld ==> !l.tcpListening && l.tcpAnswers)
  }

  /** giveUpUnservedSocket, then its remove. */
  function AfterGivingUp(l: Look): Sockets {
    if l.machine.IsRunning? && !l.journal && Held(l.sockets) && !l.inFlight
    then Next(Next(l.sockets, Close(true)), Standin(true))
    else l.sockets
  }

  predicate Holding(l: Look, s: Sockets) { s.mine.Some? || l.tcpHeld || l.parked > 0 }

  function Observe(before: bool, l: Look): Observation {
    var s := AfterGivingUp(l);
    var holding := Holding(l, s);
    var stopped := CountsStopped(l.machine, l.journal);
    Observation(l.machine, l.journal, holding,
                holding && !l.journal && l.machine.IsRunning? && EndpointsBack(l, s),
                before, stopped && before && l.inFlight)
  }

  function Evaluate(before: bool, l: Look): Mode { Decide(Observe(before, l)) }

  /** The stand-in is not in the middle of taking the path. */
  predicate Quiet(s: Sockets) { Tracked(s) && s.sat.NoTake? }

  lemma GivingUpKeepsQuiet(l: Look)
    requires Quiet(l.sockets)
    ensures Quiet(AfterGivingUp(l))
  {
    NextTracks(l.sockets, Close(true));
    NextTracks(Next(l.sockets, Close(true)), Standin(true));
  }

  /** A hand-over comes exactly when something is held of a machine that runs
      with no journal, the SSH port was released and answers, and the engine
      socket, if held, is one of the forward's that answers. */
  lemma HandsOverExactlyWhenServed(before: bool, l: Look)
    requires Quiet(l.sockets)
    ensures var s := AfterGivingUp(l);
      Evaluate(before, l).HandingOver? <==>
        && l.machine.IsRunning? && !l.journal && (s.mine.Some? || l.tcpHeld || l.parked > 0)
        && (s.mine.Some? ==> OfForwardAt(s) && Answers(s, s.path))
        && (l.tcpHeld ==> !l.tcpListening && l.tcpAnswers)
  {
    GivingUpKeepsQuiet(l);
  }

  /** A second stop in a row, with nothing in flight. */
  predicate ExitDue(before: bool, l: Look) { l.machine.IsStopped? && !l.journal && before && !l.inFlight }

  /** What is held can be handed over: the machine runs, and has its endpoints. */
  predicate Served(l: Look, s: Sockets) {
    && l.machine.IsRunning? && !l.journal
    && (s.mine.Some? ==> OfForwardAt(s) && Answers(s, s.path))
    && (l.tcpHeld ==> !l.tcpListening && l.tcpAnswers)
  }

  /** The whole table, from the look. What is held, an endpoint or a client, stays
      held until it can be handed over; nothing being held, the endpoints of a
      suspended or broken machine are taken, and a running machine, or one seen
      stopped once, is watched. */
  lemma TableExactly(before: bool, l: Look)
    requires Quiet(l.sockets)
    ensures var s, m := AfterGivingUp(l), Evaluate(before, l);
      var held := s.mine.Some? || l.tcpHeld || l.parked > 0;
      && (m.Exit? <==> ExitDue(before, l))
      && (m.HandingOver? <==> !ExitDue(before, l) && held && Served(l, s))
      && (m.Hold? <==>
            && !ExitDue(before, l)
            && (if held then !Served(l, s) else l.machine.IsSuspended? || l.machine.IsBroken?))
      && (m.Monitor? <==> !ExitDue(before, l) && !held && (l.machine.IsRunning? || l.machine.IsStopped?))
  {
    GivingUpKeepsQuiet(l);
  }

  /** No client waits for a hand-over that never comes: once no wake is in
      flight, a machine that runs with no journal does not keep its path with
      the stand-in, and no socket of anyone else was removed for that. */
  lemma NobodyWaitsForever(l: Look)
    requires Quiet(l.sockets) && OnlyOwnRemoved(l.sockets.removals)
    requires l.machine.IsRunning? && !l.journal && !l.inFlight
    ensures var s := AfterGivingUp(l);
      && !Held(s) && OnlyOwnRemoved(s.removals)
      && (Held(l.sockets) ==> s.path == Nothing)
      && (!Held(l.sockets) ==> s == l.sockets)
  {
    NextTracks(l.sockets, Close(true));
    ForeignRemovalIsAGuess(l.sockets, Close(true));
  }

  /** The passes of the mode loop; each remembers whether it saw a stop. */
  function ModeAt(before: bool, ls: seq<Look>, i: nat): Mode
    requires i < |ls|
    decreases |ls|
  {
    if i == 0 then Evaluate(before, ls[0])
    else ModeAt(CountsStopped(ls[0].machine, ls[0].journal), ls[1..], i - 1)
  }

  /** The sleeper ends exactly at the second pass in a row that finds the
      machine stopped, with nothing in flight: a wake that falls back to a cold
      boot, and reads stopped for a moment, never ends it. */
  lemma {:induction false} EndsAtTheSecondStop(ls: seq<Look>, i: nat)
    requires i < |ls|
    ensures ModeAt(false, ls, i).Exit? <==>
      && i > 0 && !ls[i].inFlight
      && CountsStopped(ls[i].machine, ls[i].journal)
      && CountsStopped(ls[i - 1].machine, ls[i - 1].journal)
  {
    if i > 0 {
      PassAfter(false, ls, i);
    }
  }

  lemma {:induction false} PassAfter(before: bool, ls: seq<Look>, i: nat)
    requires 0 < i < |ls|
    ensures ModeAt(before, ls, i) == Evaluate(CountsStopped(ls[i - 1].machine, ls[i - 1].journal), ls[i])
    decreases |ls|
  {
    if i > 1 {
      PassAfter(CountsStopped(ls[0].machine, ls[0].journal), ls[1..], i - 1);
    }
  }
}
