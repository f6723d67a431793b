/**
  The stand-in's queue: connections it parked unread, and the flag by which one
  cancels a suspend.

  Every section under the stand-in's mutex is one event, and so is each accept,
  each timer callback and each close of a listener. Events come in any order.
  A timer that a hand-over stops may already be waiting for the mutex, so its
  callback stays possible for good.
 */
module ParkQueue {
  datatype Kind = Unix | Tcp

  /** An accepted connection and the endpoint it arrived on. */
  datatype Conn = Conn(id: nat, kind: Kind)

  datatype Fate = Relayed(upstream: Kind) | TurnedAway | TimedOut | ClosedByUs

  /** A hand-over, between its mutex sections. */
  datatype HandOver = NotHandingOver | Closing | Closed

  /** `arriving` are accepted and not yet parked; `timers` are the connections
      whose timer callback may still run; `fates` is how each one ended. */
  datatype Queue = Queue(
    cap: nat,
    listening: set<Kind>,
    arriving: set<Conn>,
    held: set<Conn>,
    timers: set<Conn>,
    fates: map<Conn, Fate>,
    armed: bool,
    aborted: bool,
    handing: HandOver)

  datatype Event =
    | Listen(kind: Kind)
    | StopListening(kind: Kind)
    | Accept(conn: Conn)
    | Park(conn: Conn)
    | TimerRuns(conn: Conn)
    | Arm
    | Disarm
    | Abort
    | CheckAndFreeze
    | CloseHeld
    | BeginHandOver
    | ListenersDone
    | TakeAll

  function Seen(q: Queue): set<Conn> { q.arriving + q.held + q.fates.Keys }

  predicate Full(q: Queue) { |q.held| >= q.cap }

  function End(fates: map<Conn, Fate>, cs: set<Conn>, relay: bool): (r: map<Conn, Fate>)
    ensures r.Keys == fates.Keys + cs
  {
    map c | c in fates.Keys + cs ::
      if c in cs then if relay then Relayed(c.kind) else ClosedByUs else fates[c]
  }

  function Parked(q: Queue, c: Conn): Queue {
    if Full(q) then q.(arriving := q.arriving - {c}, fates := q.fates[c := TurnedAway])
    else q.(arriving := q.arriving - {c}, held := q.held + {c}, timers := q.timers + {c},
            aborted := q.aborted || q.armed)
  }

  function Expired(q: Queue, c: Conn): Queue {
    if c in q.held
    then q.(timers := q.timers - {c}, held := q.held - {c}, fates := q.fates[c := TimedOut])
    else q.(timers := q.timers - {c})
  }

  function Emptied(q: Queue, relay: bool): Queue {
    q.(held := {}, fates := End(q.fates, q.held, relay))
  }

  /** One event; an event that cannot happen changes nothing. */
  function Next(q: Queue, e: Event): Queue {
    match e
    case Listen(k) => if q.handing.NotHandingOver? then q.(listening := q.listening + {k}) else q
    case StopListening(k) => q.(listening := q.listening - {k})
    case Accept(c) => if c.kind in q.listening && c !in Seen(q) then q.(arriving := q.arriving + {c}) else q
    case Park(c) => if c in q.arriving then Parked(q, c) else q
    case TimerRuns(c) => if c in q.timers then Expired(q, c) else q
    case Arm => q.(armed := true, aborted := false)
    case Disarm => q.(armed := false)
    case Abort => if q.armed then q.(aborted := true) else q
    case CheckAndFreeze => if q.aborted then q else q.(armed := false)
    case CloseHeld => Emptied(q, false)
    case BeginHandOver =>
      if q.handing.NotHandingOver? then q.(listening := {}, handing := Closing) else q
    // A listener's accept loop ends only after it parked what it accepted.
    case ListenersDone => if q.handing.Closing? && q.arriving == {} then q.(handing := Closed) else q
    case TakeAll => if q.handing.Closed? then Emptied(q, true).(handing := NotHandingOver) else q
  }

  function Run(q: Queue, es: seq<Event>): Queue
    decreases |es|
  {
    if es == [] then q else Run(Next(q, es[0]), es[1..])
  }

  /** Every connection seen is in exactly one place, about to be parked, held,
      or ended, and the queue is within its cap. */
  predicate Placed(arriving: set<Conn>, held: set<Conn>, ended: set<Conn>, cap: nat) {
    |held| <= cap && arriving !! held && arriving !! ended && held !! ended
  }

  predicate Ok(q: Queue) {
    && Placed(q.arriving, q.held, q.fates.Keys, q.cap)
    && (!q.handing.NotHandingOver? ==> q.listening == {})
    && (q.handing.Closed? ==> q.arriving == {})
  }

  /** What was seen stays seen, and what has ended keeps its end. */
  predicate Later(q: Queue, q': Queue) {
    && Seen(q) <= Seen(q')
    && q'.cap == q.cap
    && Extends(q.fates, q'.fates)
  }

  predicate Extends(m: map<Conn, Fate>, m': map<Conn, Fate>) {
    forall c :: c in m ==> c in m' && m'[c] == m[c]
  }

  lemma Ends(m: map<Conn, Fate>, c: Conn, f: Fate)
    requires c !in m
    ensures m[c := f].Keys == m.Keys + {c} && Extends(m, m[c := f])
  {
  }

  /** A connection on its way in is turned away, or joins the queue. */
  lemma ArrivalPlaced(arriving: set<Conn>, held: set<Conn>, ended: set<Conn>, cap: nat, c: Conn)
    requires Placed(arriving, held, ended, cap) && c in arriving
    ensures Placed(arriving - {c}, held, ended + {c}, cap)
    ensures |held| < cap ==> Placed(arriving - {c}, held + {c}, ended, cap)
    ensures (arriving - {c}) + held + (ended + {c}) == arriving + held + ended
    ensures (arriving - {c}) + (held + {c}) + ended == arriving + held + ended
  {
    assert |held + {c}| == |held| + 1;
  }

  lemma HeldPlaced(arriving: set<Conn>, held: set<Conn>, ended: set<Conn>, cap: nat, c: Conn)
    requires Placed(arriving, held, ended, cap) && c in held
    ensures Placed(arriving, held - {c}, ended + {c}, cap)
    ensures arriving + (held - {c}) + (ended + {c}) == arriving + held + ended
  {
    assert |held - {c}| == |held| - 1;
  }

  lemma ParkedKeeps(q: Queue, c: Conn)
    requires Ok(q) && c in q.arriving
    ensures Ok(Parked(q, c)) && Later(q, Parked(q, c)) && Seen(Parked(q, c)) == Seen(q)
  {
    ArrivalPlaced(q.arriving, q.held, q.fates.Keys, q.cap, c);
    Ends(q.fates, c, TurnedAway);
  }

  lemma ExpiredKeeps(q: Queue, c: Conn)
    requires Ok(q)
    ensures Ok(Expired(q, c)) && Later(q, Expired(q, c)) && Seen(Expired(q, c)) == Seen(q)
  {
    if c in q.held {
      HeldPlaced(q.arriving, q.held, q.fates.Keys, q.cap, c);
      Ends(q.fates, c, TimedOut);
    }
  }

  lemma EmptiedKeeps(q: Queue, relay: bool)
    requires Ok(q)
    ensures Ok(Emptied(q, relay)) && Later(q, Emptied(q, relay)) && Seen(Emptied(q, relay)) == Seen(q)
  {
  }

  lemma HandedOverKeeps(q: Queue)
    requires Ok(q)
    ensures var q' := Emptied(q, true).(handing := NotHandingOver); Ok(q') && Later(q, q') && Seen(q') == Seen(q)
  {
    EmptiedKeeps(q, true);
  }

  lemma Unchanged(q: Queue)
    requires Ok(q)
    ensures Later(q, q)
  {
  }

  lemma AcceptedKeeps(q: Queue, c: Conn)
    requires Ok(q) && c.kind in q.listening && c !in Seen(q)
    ensures var q' := q.(arriving := q.arriving + {c}); Ok(q') && Later(q, q')
  {
  }

  predicate Moves(e: Event) { e.Accept? || e.Park? || e.TimerRuns? || e.CloseHeld? || e.TakeAll? }

  lemma OthersKeep(q: Queue, e: Event)
    requires Ok(q) && !Moves(e)
    ensures Ok(Next(q, e)) && Later(q, Next(q, e)) && Seen(Next(q, e)) == Seen(q)
  {
    hide Placed;
    var q' := Next(q, e);
    assert q'.arriving == q.arriving && q'.held == q.held && q'.fates == q.fates && q'.cap == q.cap;
  }

  lemma NextKeeps(q: Queue, e: Event)
    requires Ok(q)
    ensures Ok(Next(q, e)) && Later(q, Next(q, e))
    ensures !e.Accept? ==> Seen(Next(q, e)) == Seen(q)
  {
    hide Ok, Later, Seen;
    if e.Accept? {
      if e.conn.kind in q.listening && e.conn !in Seen(q) { AcceptedKeeps(q, e.conn); } else { Unchanged(q); }
    } else if e.Park? {
      if e.conn in q.arriving { ParkedKeeps(q, e.conn); } else { Unchanged(q); }
    } else if e.TimerRuns? {
      if e.conn in q.timers { ExpiredKeeps(q, e.conn); } else { Unchanged(q); }
    } else if e.CloseHeld? {
      EmptiedKeeps(q, false);
    } else if e.TakeAll? {
      if q.handing.Closed? { HandedOverKeeps(q); } else { Unchanged(q); }
    } else {
      OthersKeep(q, e);
    }
  }

  lemma LaterTwice(a: Queue, b: Queue, c: Queue)
    requires Later(a, b) && Later(b, c)
    ensures Later(a, c)
  {
    forall x | x in a.fates ensures x in c.fates && c.fates[x] == a.fates[x] { assert x in b.fates; }
  }

  /** Over every interleaving: each accepted connection is about to be parked,
      held, or has ended in exactly one way, and that way never changes; the
      queue never exceeds its cap. */
  lemma {:induction false} EveryConnectionEndsOnce(q: Queue, es: seq<Event>)
    requires Ok(q)
    ensures Ok(Run(q, es)) && Later(q, Run(q, es))
    decreases |es|
  {
    if es != [] {
      NextKeeps(q, es[0]);
      EveryConnectionEndsOnce(Next(q, es[0]), es[1..]);
      LaterTwice(q, Next(q, es[0]), Run(q, es));
    }
  }

  /** None is dropped on the way: one accepted while its endpoint is listened on
      is among the arriving, the held and the ended from then on. */
  lemma {:induction false} AcceptedIsNeverDropped(q: Queue, c: Conn, es: seq<Event>)
    requires Ok(q) && (c in Seen(q) || (es != [] && es[0] == Accept(c) && c.kind in q.listening))
    ensures c in Seen(Run(q, es))
    decreases |es|
  {
    if es != [] {
      NextKeeps(q, es[0]);
      AcceptedIsNeverDropped(Next(q, es[0]), c, es[1..]);
    }
  }

  /** Listening on an endpoint is what accepts its clients. */
  lemma ListenedIsAccepted(q: Queue, c: Conn, es: seq<Event>)
    requires Ok(q) && q.handing.NotHandingOver?
    ensures c in Seen(Run(q, [Listen(c.kind), Accept(c)] + es))
  {
    hide Ok, Seen;
    var all := [Listen(c.kind), Accept(c)] + es;
    NextKeeps(q, Listen(c.kind));
    assert all[1..] == [Accept(c)] + es;
    AcceptedIsNeverDropped(Next(q, Listen(c.kind)), c, all[1..]);
  }

  // ----- Cancelling a suspend -----

  /** The events that cancel an armed suspend: an abort, and a connection that
      is parked. One that the cap turns away does not. */
  predicate Cancels(q: Queue, e: Event) {
    e.Abort? || (e.Park? && e.conn in q.arriving && !Full(q))
  }

  predicate Rearms(e: Event) { e.Arm? || e.Disarm? || e.CheckAndFreeze? }

  predicate AnyCancels(q: Queue, es: seq<Event>)
    decreases |es|
  {
    es != [] && (Cancels(q, es[0]) || AnyCancels(Next(q, es[0]), es[1..]))
  }

  lemma {:induction false} AbortedSince(q: Queue, es: seq<Event>)
    requires q.armed && forall e :: e in es ==> !Rearms(e)
    ensures Run(q, es).armed
    ensures Run(q, es).aborted <==> q.aborted || AnyCancels(q, es)
    decreases |es|
  {
    if es != [] {
      assert es[0] in es;
      AbortedSince(Next(q, es[0]), es[1..]);
    }
  }

  /** From the arming of a suspend to its last check, whatever else happens in
      between: the freeze goes ahead exactly when no connection was parked and
      no abort came. The check disarms in the same step, so nothing falls
      between the two. */
  lemma FreezeGoesAheadExactlyWhenNobodyCame(q: Queue, es: seq<Event>)
    requires forall e :: e in es ==> !Rearms(e)
    ensures var armed := Next(q, Arm);
      var now := Run(armed, es);
      && (now.aborted <==> AnyCancels(armed, es))
      && Next(now, CheckAndFreeze) == if AnyCancels(armed, es) then now else now.(armed := false)
  {
    AbortedSince(Next(q, Arm), es);
  }

  /** The event takes a connection out of the queue. */
  predicate Removes(e: Event, c: Conn) { e.CloseHeld? || e.TakeAll? || e == TimerRuns(c) }

  lemma StaysHeld(q: Queue, e: Event, c: Conn)
    requires c in q.held && !Removes(e, c)
    ensures c in Next(q, e).held
  {
  }

  lemma StaysQuiet(q: Queue, e: Event)
    requires !q.armed && !q.aborted && !e.Arm?
    ensures !Next(q, e).armed && !Next(q, e).aborted
  {
  }

  /** After the freeze a parked connection waits: it stays held, and cancels
      nothing, until its timer runs or the queue is emptied. */
  lemma {:induction false} LateArrivalsWait(q: Queue, c: Conn, es: seq<Event>)
    requires c in q.held && !q.armed && !q.aborted
    requires forall e :: e in es ==> !e.Arm? && !Removes(e, c)
    ensures c in Run(q, es).held && !Run(q, es).aborted
    decreases |es|
  {
    if es != [] {
      assert es[0] in es;
      StaysHeld(q, es[0], c);
      StaysQuiet(q, es[0]);
      LateArrivalsWait(Next(q, es[0]), c, es[1..]);
    }
  }

  // ----- Handing over -----

  lemma HandOverStep(q: Queue, e: Event)
    requires Ok(q) && !q.handing.NotHandingOver? && !e.TakeAll?
    ensures !Next(q, e).handing.NotHandingOver?
    ensures Seen(Next(q, e)) == Seen(q)
  {
    hide Seen, Later, Placed;
    if !e.Accept? { NextKeeps(q, e); }
  }

  /** While a hand-over runs no listener opens, so nothing new arrives. */
  lemma {:induction false} NothingArrivesDuringHandOver(q: Queue, es: seq<Event>)
    requires Ok(q) && !q.handing.NotHandingOver?
    requires forall e :: e in es ==> !e.TakeAll?
    ensures !Run(q, es).handing.NotHandingOver?
    ensures Seen(Run(q, es)) == Seen(q)
    decreases |es|
  {
    if es != [] {
      assert es[0] in es;
      NextKeeps(q, es[0]);
      HandOverStep(q, es[0]);
      NothingArrivesDuringHandOver(Next(q, es[0]), es[1..]);
    }
  }

  lemma TakeAllRelays(q: Queue)
    requires Ok(q) && q.handing.Closed?
    ensures var out := Next(q, TakeAll);
      && out.held == {} && out.arriving == {}
      && out.fates.Keys == Seen(q)
      && forall c :: c in q.held ==> out.fates[c] == Relayed(c.kind)
  {
  }

  /** A hand-over that ran to its end, with anything in between, leaves no
      connection of its listeners parked or about to be: each has ended, and
      each one still held went to the upstream of its own kind. */
  lemma HandOverLeavesNone(q: Queue, es: seq<Event>)
    requires Ok(q) && q.handing.NotHandingOver?
    requires forall e :: e in es ==> !e.TakeAll?
    requires Run(Next(q, BeginHandOver), es).handing.Closed?
    ensures var last := Run(Next(q, BeginHandOver), es);
      var out := Next(last, TakeAll);
      && out.held == {} && out.arriving == {}
      && out.fates.Keys == Seen(q)
      && forall c :: c in last.held ==> out.fates[c] == Relayed(c.kind)
  {
    var q1 := Next(q, BeginHandOver);
    assert q1.handing.Closing?;
    assert Ok(q1) && Seen(q1) == Seen(q) by { NextKeeps(q, BeginHandOver); }
    hide Ok, Seen, Run, Next;
    EveryConnectionEndsOnce(q1, es);
    NothingArrivesDuringHandOver(q1, es);
    TakeAllRelays(Run(q1, es));
  }

  // ----- The object -----

  /** The stand-in itself. Each method is one mutex section. */
  class Standin {
    const cap: nat
    var listening: set<Kind>
    var arriving: set<Conn>
    var held: set<Conn>
    var timers: set<Conn>
    var fates: map<Conn, Fate>
    var armed: bool
    var aborted: bool
    var handing: HandOver

    constructor (cap: nat)
      ensures View() == Queue(cap, {}, {}, {}, {}, map[], false, false, NotHandingOver)
      ensures Ok(View())
    {
      this.cap := cap;
      listening, arriving, held, timers, fates := {}, {}, {}, {}, map[];
      armed, aborted, handing := false, false, NotHandingOver;
    }

    function View(): Queue
      reads this
    {
      Queue(cap, listening, arriving, held, timers, fates, armed, aborted, handing)
    }

    method DoArm()
      modifies this
      ensures View() == Next(old(View()), Arm)
    {
      armed, aborted := true, false;
    }

    method DoDisarm()
      modifies this
      ensures View() == Next(old(View()), Disarm)
    {
      armed := false;
    }

    method DoAbort()
      modifies this
      ensures View() == Next(old(View()), Abort)
    {
      if armed { aborted := true; }
    }

    method DoCheckAndFreeze() returns (cancelled: bool)
      modifies this
      ensures View() == Next(old(View()), CheckAndFreeze)
      ensures cancelled == old(aborted)
      ensures !cancelled ==> !armed
    {
      if aborted { return true; }
      armed := false;
      cancelled := false;
    }

    /** An accepted connection is parked, or closed when the queue is full. */
    method DoPark(c: Conn)
      requires c in arriving
      modifies this
      ensures View() == Next(old(View()), Park(c))
    {
      arriving := arriving - {c};
      if |held| >= cap {
        fates := fates[c := TurnedAway];
        return;
      }
      held, timers := held + {c}, timers + {c};
      if armed { aborted := true; }
    }

    /** The timer callback closes the connection only if it is still held. */
    method DoTimer(c: Conn)
      requires c in timers
      modifies this
      ensures View() == Next(old(View()), TimerRuns(c))
    {
      timers := timers - {c};
      var still := c in held;
      held := held - {c};
      if still { fates := fates[c := TimedOut]; }
    }

    method Take() returns (out: set<Conn>)
      modifies this`held
      ensures out == old(held) && held == {}
    {
      out := held;
      held := {};
    }

    method DoCloseHeld() returns (n: nat)
      modifies this
      ensures View() == Next(old(View()), CloseHeld)
      ensures n == |old(held)|
    {
      var hs := Take();
      fates := End(fates, hs, false);
      n := |hs|;
    }

    /** The last section of a hand-over: everything parked is relayed. */
    method DoTakeAll() returns (n: nat)
      requires handing.Closed?
      modifies this
      ensures View() == Next(old(View()), TakeAll)
      ensures n == |old(held)|
    {
      var hs := Take();
      fates, handing := End(fates, hs, true), NotHandingOver;
      n := |hs|;
    }
  }
}
