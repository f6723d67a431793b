/**
  When a machine has been idle long enough to be suspended: the tracker that
  turns activity samples into idle time, with its flap guard.

  Durations are whole nanoseconds and unbounded; elapsed times may be negative
  or arbitrarily large, as a host that slept or whose clock jumped reports them.
 */
module IdleTracker {
  const MAX_PENALTY := 8
  const FLAP_WINDOW := 600_000_000_000
  const PENALTY_RESET := 3600_000_000_000

  datatype Sample = Sample(
    activity: bool,
    cpuKnown: bool,
    cpuPercent: real,
    jails: nat,
    inhibit: bool,
    engine: int,
    baseline: int,
    sessions: int)

  datatype Settings = Settings(interval: int, busyCPU: real)

  datatype Event =
    | Observed(sample: Sample, readable: bool, elapsed: int)
    | AskedDue(after: int)
    | WasReset
    | Restarted
    | WokeAfter(asleep: int)

  datatype State = State(idle: int, engineRun: nat, sessionsRun: nat, penalty: int)

  const Fresh := State(0, 0, 0, 0)

  function Max(a: int, b: int): int { if a < b then b else a }
  function Min(a: int, b: int): int { if a < b then a else b }

  function Interval(cfg: Settings): int { if cfg.interval > 0 then cfg.interval else 15_000_000_000 }
  function BusyCPU(cfg: Settings): real { if cfg.busyCPU > 0.0 then cfg.busyCPU else 25.0 }

  /** What one quiet sample adds. */
  function Adds(cfg: Settings, elapsed: int): int { Min(Max(elapsed, 0), 2 * Interval(cfg)) }

  // ----- The tracker -----

  predicate HostBusy(cfg: Settings, s: Sample) { s.activity || (s.cpuKnown && s.cpuPercent > BusyCPU(cfg)) }

  predicate EngineSeen(s: Sample) { s.engine - s.baseline > 0 }

  predicate SessionsSeen(s: Sample) { s.sessions > 0 }

  function Observe(cfg: Settings, t: State, s: Sample, readable: bool, elapsed: int): State {
    if !readable then t.(idle := if HostBusy(cfg, s) then 0 else t.idle)
    else
      var engineRun := if EngineSeen(s) then t.engineRun + 1 else 0;
      var sessionsRun := if SessionsSeen(s) then t.sessionsRun + 1 else 0;
      var blocked := HostBusy(cfg, s) || s.jails > 0 || s.inhibit || engineRun >= 2 || sessionsRun >= 2;
      var pending := engineRun == 1 || sessionsRun == 1;
      State(if blocked then 0 else if pending then t.idle else t.idle + Adds(cfg, elapsed),
            engineRun, sessionsRun, t.penalty)
  }

  function Penalty(t: State): int { Max(t.penalty, 1) }

  function Threshold(t: State, after: int): int { if after <= 0 then 0 else after * Penalty(t) }

  predicate Due(t: State, after: int) { after > 0 && t.idle >= Threshold(t, after) }

  function Woke(t: State, asleep: int): State {
    if asleep < FLAP_WINDOW then t.(penalty := Min(Penalty(t) * 2, MAX_PENALTY))
    else if asleep >= PENALTY_RESET then t.(penalty := 1)
    else t
  }

  function Next(cfg: Settings, t: State, e: Event): State {
    match e
    case Observed(s, readable, elapsed) => Observe(cfg, t, s, readable, elapsed)
    case AskedDue(after) => if after <= 0 then t.(idle := 0) else t
    case WasReset => t.(idle := 0)
    case Restarted => State(0, 0, 0, t.penalty)
    case WokeAfter(asleep) => Woke(t, asleep)
  }

  function After(cfg: Settings, es: seq<Event>): State {
    if es == [] then Fresh else Next(cfg, After(cfg, es[..|es| - 1]), es[|es| - 1])
  }

  // ----- What a run showed, told from its events alone -----

  /** The last readable sample since the last restart. */
  function LastReadable(es: seq<Event>): seq<Sample> {
    if es == [] then []
    else
      var e := es[|es| - 1];
      if e.Restarted? then []
      else if e.Observed? && e.readable then [e.sample]
      else LastReadable(es[..|es| - 1])
  }

  /** More engine clients than jm's own. */
  predicate HasClients(s: Sample) { s.engine > s.baseline }

  predicate HasSessions(s: Sample) { s.sessions >= 1 }

  predicate SeenBefore(es: seq<Event>, seen: Sample -> bool) {
    var last := LastReadable(es);
    last != [] && seen(last[0])
  }

  /** A jm command used the machine, or its CPU is known to be busy. */
  predicate HostUses(cfg: Settings, s: Sample) {
    s.activity || (s.cpuKnown && s.cpuPercent > (if cfg.busyCPU > 0.0 then cfg.busyCPU else 25.0))
  }

  /** Event i shows the machine in use: at once for a jm command, a busy CPU, a
      jail or the inhibit file; for an engine client or a session only when the
      readable sample before it showed one too. */
  predicate BlocksAt(cfg: Settings, es: seq<Event>, i: nat)
    requires i < |es|
  {
    var e := es[i];
    e.Observed? && (
      HostUses(cfg, e.sample) || (
        e.readable && (
          || e.sample.jails > 0 || e.sample.inhibit
          || (HasClients(e.sample) && SeenBefore(es[..i], HasClients))
          || (HasSessions(e.sample) && SeenBefore(es[..i], HasSessions)))))
  }

  /** Event i is a sample that shows nothing at all. */
  predicate QuietAt(cfg: Settings, es: seq<Event>, i: nat)
    requires i < |es|
  {
    var e := es[i];
    e.Observed? && e.readable && !HostUses(cfg, e.sample) && e.sample.jails == 0 && !e.sample.inhibit
    && !HasClients(e.sample) && !HasSessions(e.sample)
  }

  /** Event i puts the idle time back to zero. */
  predicate ZeroesAt(cfg: Settings, es: seq<Event>, i: nat)
    requires i < |es|
  {
    || BlocksAt(cfg, es, i) || es[i].WasReset? || es[i].Restarted?
    || (es[i].AskedDue? && es[i].after <= 0)
  }

  /** The quiet samples from event `from` on, and the time they span. */
  function QuietCount(cfg: Settings, es: seq<Event>, from: nat, to: nat): nat
    requires from <= to <= |es|
  {
    if from == to then 0 else QuietCount(cfg, es, from, to - 1) + if QuietAt(cfg, es, to - 1) then 1 else 0
  }

  function QuietTime(cfg: Settings, es: seq<Event>, from: nat, to: nat): nat
    requires from <= to <= |es|
  {
    if from == to then 0
    else QuietTime(cfg, es, from, to - 1) + if QuietAt(cfg, es, to - 1) then Max(es[to - 1].elapsed, 0) else 0
  }

  lemma {:induction false} RunsMeanSeenBefore(cfg: Settings, es: seq<Event>)
    ensures After(cfg, es).engineRun > 0 <==> SeenBefore(es, HasClients)
    ensures After(cfg, es).sessionsRun > 0 <==> SeenBefore(es, HasSessions)
  {
    if es != [] {
      RunsMeanSeenBefore(cfg, es[..|es| - 1]);
    }
  }

  lemma StepAt(cfg: Settings, es: seq<Event>, i: nat)
    requires i < |es|
    ensures After(cfg, es[..i + 1]) == Next(cfg, After(cfg, es[..i]), es[i])
    ensures var before, now := After(cfg, es[..i]).idle, After(cfg, es[..i + 1]).idle;
      now == if ZeroesAt(cfg, es, i) then 0
             else if QuietAt(cfg, es, i) then before + Adds(cfg, es[i].elapsed)
             else before
  {
    assert es[..i + 1][..i] == es[..i];
    RunsMeanSeenBefore(cfg, es[..i]);
  }

  lemma OneMoreTimes(c: nat, w: nat)
    ensures (c + 1) * w == c * w + w
  {
  }

  /** The idle time is bounded by the quiet samples since it was last zero: by
      their number and by the time they span, whatever the clock did. */
  lemma {:induction false} IdleNeedsQuiet(cfg: Settings, es: seq<Event>, n: nat) returns (from: nat)
    requires n <= |es|
    ensures from <= n && forall i :: from <= i < n ==> !ZeroesAt(cfg, es, i)
    ensures 0 <= After(cfg, es[..n]).idle <= QuietTime(cfg, es, from, n)
    ensures After(cfg, es[..n]).idle <= QuietCount(cfg, es, from, n) * (2 * Interval(cfg))
  {
    if n == 0 {
      from := 0;
    } else {
      StepAt(cfg, es, n - 1);
      if ZeroesAt(cfg, es, n - 1) {
        from := n;
      } else {
        from := IdleNeedsQuiet(cfg, es, n - 1);
        OneMoreTimes(QuietCount(cfg, es, from, n - 1), 2 * Interval(cfg));
      }
    }
  }

  /** Event i is a sample no longer than the sampling can stretch. */
  predicate OnTimeAt(cfg: Settings, es: seq<Event>, i: nat)
    requires i < |es|
  {
    es[i].Observed? ==> 0 <= es[i].elapsed <= 2 * (if cfg.interval > 0 then cfg.interval else 15_000_000_000)
  }

  /** And it is no less than that: while the samples come on time and nothing shows
      the machine in use, all the quiet time counts. */
  lemma {:induction false} QuietCounts(cfg: Settings, es: seq<Event>, from: nat, n: nat)
    requires from <= n <= |es|
    requires forall i :: from <= i < n ==> !ZeroesAt(cfg, es, i) && OnTimeAt(cfg, es, i)
    ensures After(cfg, es[..n]).idle == After(cfg, es[..from]).idle + QuietTime(cfg, es, from, n)
    decreases n
  {
    if from < n {
      QuietCounts(cfg, es, from, n - 1);
      StepAt(cfg, es, n - 1);
    }
  }

  lemma {:induction false} IdleIsNotNegative(cfg: Settings, es: seq<Event>)
    ensures After(cfg, es).idle >= 0
  {
    if es != [] {
      IdleIsNotNegative(cfg, es[..|es| - 1]);
    }
  }

  /** So a machine left alone becomes due: when the quiet samples since some event,
      on time and with nothing in between that shows it in use, span the period. */
  lemma QuietMeansDue(cfg: Settings, es: seq<Event>, from: nat, after: int)
    requires from <= |es| && after > 0
    requires forall i :: from <= i < |es| ==> !ZeroesAt(cfg, es, i) && OnTimeAt(cfg, es, i)
    requires QuietTime(cfg, es, from, |es|) >= after * Penalty(After(cfg, es))
    ensures Due(After(cfg, es), after)
  {
    assert es[..|es|] == es;
    QuietCounts(cfg, es, from, |es|);
    IdleIsNotNegative(cfg, es[..from]);
  }

  lemma {:induction false} PenaltyIsAPowerOfTwo(cfg: Settings, es: seq<Event>)
    ensures Penalty(After(cfg, es)) in {1, 2, 4, 8} && After(cfg, es).penalty >= 0
  {
    if es != [] {
      PenaltyIsAPowerOfTwo(cfg, es[..|es| - 1]);
    }
  }

  /** A machine found due was watched being idle: since some event nothing showed
      it in use, and the quiet samples since then number at least
      after × penalty / (2 × interval) and span at least after × penalty of
      observed time. No clock jump, stalled probe or host sleep shortens that. */
  lemma DueMeansWatchedIdle(cfg: Settings, es: seq<Event>, after: int) returns (from: nat)
    requires Due(After(cfg, es), after)
    ensures from <= |es| && forall i :: from <= i < |es| ==> !BlocksAt(cfg, es, i)
    ensures var p := Penalty(After(cfg, es));
      && p in {1, 2, 4, 8}
      && QuietCount(cfg, es, from, |es|) * (2 * Interval(cfg)) >= after * p
      && QuietTime(cfg, es, from, |es|) >= after * p
  {
    assert es[..|es|] == es;
    from := IdleNeedsQuiet(cfg, es, |es|);
    forall i | from <= i < |es| ensures !BlocksAt(cfg, es, i) { assert !ZeroesAt(cfg, es, i); }
    PenaltyIsAPowerOfTwo(cfg, es);
  }

  /** One blocking sample is enough: nothing is due right after it, whatever came
      before. */
  lemma BlockedIsNotDue(cfg: Settings, es: seq<Event>, after: int)
    requires es != [] && BlocksAt(cfg, es, |es| - 1)
    ensures !Due(After(cfg, es), after)
  {
    assert es[..|es|] == es;
    StepAt(cfg, es, |es| - 1);
    PenaltyIsAPowerOfTwo(cfg, es);
    if after > 0 { assert after * Penalty(After(cfg, es)) > 0; }
  }

  function Doubled(p: int, n: nat): int { if n == 0 then p else Doubled(p, n - 1) * 2 }

  lemma {:induction false} DoubledGrows(p: int, n: nat)
    requires p >= 1
    ensures Doubled(p, n) >= p
  {
    if n > 0 {
      DoubledGrows(p, n - 1);
    }
  }

  /** A machine that is woken within the flap window every time doubles its idle
      period each time, up to eight times. */
  lemma {:induction false} QuickWakesDouble(cfg: Settings, t: State, sleeps: seq<int>)
    requires t.penalty <= MAX_PENALTY && forall i :: 0 <= i < |sleeps| ==> sleeps[i] < FLAP_WINDOW
    ensures Penalty(WokeEach(cfg, t, sleeps)) == Min(Doubled(Penalty(t), |sleeps|), MAX_PENALTY)
  {
    if sleeps != [] {
      QuickWakesDouble(cfg, t, sleeps[..|sleeps| - 1]);
      DoubledGrows(Penalty(t), |sleeps| - 1);
    }
  }

  /** After any such wakes one long sleep puts the period back, and a sleep in
      between changes nothing. */
  lemma OneLongSleepResets(cfg: Settings, t: State, sleeps: seq<int>, asleep: int)
    requires t.penalty <= MAX_PENALTY && forall i :: 0 <= i < |sleeps| ==> sleeps[i] < FLAP_WINDOW
    requires asleep >= FLAP_WINDOW
    ensures Penalty(WokeEach(cfg, t, sleeps + [asleep])) ==
            if asleep >= PENALTY_RESET then 1 else Min(Doubled(Penalty(t), |sleeps|), MAX_PENALTY)
  {
    QuickWakesDouble(cfg, t, sleeps);
    assert (sleeps + [asleep])[..|sleeps|] == sleeps;
  }

  function WokeEach(cfg: Settings, t: State, sleeps: seq<int>): State {
    if sleeps == [] then t
    else Next(cfg, WokeEach(cfg, t, sleeps[..|sleeps| - 1]), WokeAfter(sleeps[|sleeps| - 1]))
  }

  // ----- The object -----

  class Tracker {
    const cfg: Settings
    var idle: int
    var engineRun: nat
    var sessionsRun: nat
    var penalty: int
    /** What the tracker went through. */
    ghost var past: seq<Event>

    ghost predicate Valid()
      reads this
    {
      State(idle, engineRun, sessionsRun, penalty) == After(cfg, past)
    }

    constructor (cfg: Settings)
      ensures Valid() && this.cfg == cfg && past == []
    {
      this.cfg := cfg;
      idle, engineRun, sessionsRun, penalty, past := 0, 0, 0, 0, [];
    }

    method ObserveSample(s: Sample, readable: bool, elapsed: int)
      requires Valid()
      modifies this
      ensures Valid() && past == old(past) + [Observed(s, readable, elapsed)]
    {
      past := past + [Observed(s, readable, elapsed)];
      var blocked, pending := s.activity, false;
      if s.cpuKnown && s.cpuPercent > BusyCPU(cfg) { blocked := true; }
      if !readable {
        if blocked { idle := 0; }
        return;
      }
      if s.jails > 0 || s.inhibit { blocked := true; }
      if s.engine - s.baseline > 0 {
        engineRun := engineRun + 1;
        if engineRun >= 2 { blocked := true; } else { pending := true; }
      } else {
        engineRun := 0;
      }
      if s.sessions > 0 {
        sessionsRun := sessionsRun + 1;
        if sessionsRun >= 2 { blocked := true; } else { pending := true; }
      } else {
        sessionsRun := 0;
      }
      if blocked {
        idle := 0;
      } else if !pending {
        idle := idle + Min(Max(elapsed, 0), 2 * Interval(cfg));
      }
    }

    method IsDue(after: int) returns (due: bool)
      requires Valid()
      modifies this
      ensures Valid() && past == old(past) + [AskedDue(after)]
      ensures due == Due(After(cfg, past), after)
    {
      past := past + [AskedDue(after)];
      if after <= 0 {
        idle := 0;
        return false;
      }
      due := idle >= after * Max(penalty, 1);
    }

    method Reset()
      requires Valid()
      modifies this
      ensures Valid() && past == old(past) + [WasReset]
    {
      past := past + [WasReset];
      idle := 0;
    }

    method Restart()
      requires Valid()
      modifies this
      ensures Valid() && past == old(past) + [Restarted]
    {
      past := past + [Restarted];
      idle, engineRun, sessionsRun := 0, 0, 0;
    }

    method WakeAfter(asleep: int)
      requires Valid()
      modifies this
      ensures Valid() && past == old(past) + [WokeAfter(asleep)]
    {
      past := past + [WokeAfter(asleep)];
      if asleep < FLAP_WINDOW {
        penalty := Min(Max(penalty, 1) * 2, MAX_PENALTY);
      } else if asleep >= PENALTY_RESET {
        penalty := 1;
      }
    }
  }
}
