/**
  The engine socket's path, shared by the sleeper's stand-in and by the forward
  helper that jm launches. Each owns what it bound, told by inode.

  A command (under the machine lock) and the sleeper run side by side, so their
  steps interleave freely. A check of an inode and the rename or the remove it
  guards are one step. A command can be killed, and a process can die, between
  any two steps.
 */
module SocketPath {
  import opened Base

  datatype Party = TheStandin | TheForward

  /** A socket's inode, never reused, and who bound it. */
  datatype Ino = Ino(n: nat, owner: Party)

  datatype Entry = Nothing | Sock(ino: Ino) | Plain

  /** A stop or a start of the forward, by the effect that comes next. */
  datatype ForwardAt =
    | NoCommand
    | KillHelper(keep: bool, restart: bool)
    | CheckRemove(keep: bool, restart: bool, killed: bool)
    | RemoveOwn(restart: bool)
    | CheckServing
    | ClearBeside
    | Launch
    | RecordPid(ino: Ino)
    | AwaitAnswer
    | MoveOver
    | RecordIno(ino: Ino)
    | FailKill
    | FailRemove

  /** A take or a close by the stand-in, by the effect that comes next. */
  datatype StandinAt =
    | NoTake
    | LinkAside(own: Ino, keep: bool)
    | TakeOver(own: Ino, link: Entry)
    | Unlink(own: Ino)

  /** `serving` are the sockets with a live listener, `mine` is the stand-in's
      while it holds the path, `aside` the link to what it replaced, `helper`
      the live helper the pid file names, `recorded` the inode file, `beside`
      the name a helper binds, `removals` every socket removed from the path. */
  datatype Sockets = Sockets(
    path: Entry,
    serving: set<Ino>,
    next: nat,
    mine: Option<Ino>,
    aside: Entry,
    sat: StandinAt,
    helper: Option<Ino>,
    recorded: Option<Ino>,
    beside: Option<Ino>,
    fat: ForwardAt,
    removals: seq<Removal>)

  datatype Removal = Removal(who: Party, ino: Ino)

  datatype Step =
    | Forward(ok: bool)
    | BeginStart
    | BeginStop(keep: bool)
    | RemoveLeftover
    | KillCommand
    | HelperBinds(ino: Ino)
    | HelperDies(ino: Ino)
    | Standin(ok: bool)
    | BeginTake(keep: bool)
    | RestorePrevious(ok: bool)
    | DropPrevious
    | Close(unlink: bool)
    | HandOver
    | SleeperDies

  function Removed(s: Sockets, who: Party): Sockets {
    s.(path := Nothing, removals := if s.path.Sock? then s.removals + [Removal(who, s.path.ino)] else s.removals)
  }

  predicate Names(e: Entry, i: Option<Ino>) { i.Some? && e == Sock(i.value) }

  /** A dial to the path succeeds. */
  predicate Answers(s: Sockets, e: Entry) { e.Sock? && e.ino in s.serving }

  function Unserved(serving: set<Ino>, i: Option<Ino>): set<Ino> {
    if i.Some? then serving - {i.value} else serving
  }

  // ----- The forward, internal/netprov/gvproxy/forward.go:109-213 -----

  /** The guard of stopForward's remove. */
  predicate MayRemove(s: Sockets, killed: bool) {
    && !s.path.Nothing?
    && (Names(s.path, s.recorded) || (s.recorded.None? && killed) || !s.path.Sock?)
  }

  function AfterStop(restart: bool): ForwardAt { if restart then ClearBeside else NoCommand }

  predicate Stopping(at: ForwardAt) { at.KillHelper? || at.CheckRemove? || at.RemoveOwn? }

  function StopStep(s: Sockets, ok: bool): Sockets
    requires Stopping(s.fat)
  {
    match s.fat
    case KillHelper(keep, restart) =>
      if s.helper.None? then s.(fat := CheckRemove(keep, restart, false))
      else if ok then
        s.(helper := None, serving := s.serving - {s.helper.value}, fat := CheckRemove(keep, restart, true))
      else s.(fat := AfterStop(restart))
    case CheckRemove(keep, restart, killed) =>
      var s' := if !keep && MayRemove(s, killed) && ok then Removed(s, TheForward) else s;
      s'.(fat := RemoveOwn(restart))
    case RemoveOwn(restart) => s.(beside := None, helper := None, recorded := None, fat := AfterStop(restart))
  }

  function StartStep(s: Sockets, ok: bool): Sockets
    requires !Stopping(s.fat)
  {
    match s.fat
    case NoCommand => s
    case CheckServing =>
      if s.helper.Some? && Names(s.path, s.recorded) && Answers(s, s.path) then s.(fat := NoCommand)
      else s.(fat := KillHelper(false, true))
    case ClearBeside => if ok then s.(beside := None, fat := Launch) else s.(fat := NoCommand)
    case Launch =>
      if ok then s.(next := s.next + 1, fat := RecordPid(Ino(s.next, TheForward))) else s.(fat := NoCommand)
    case RecordPid(i) =>
      if ok then s.(helper := Some(i), fat := AwaitAnswer)
      else s.(serving := s.serving - {i}, fat := NoCommand)
    case AwaitAnswer =>
      if ok && s.beside.Some? && s.beside.value in s.serving then s.(fat := MoveOver) else s.(fat := FailKill)
    case MoveOver =>
      if ok && s.beside.Some? then
        s.(path := Sock(s.beside.value), beside := None, fat := RecordIno(s.beside.value))
      else s.(fat := FailKill)
    case RecordIno(i) => if ok then s.(recorded := Some(i), fat := NoCommand) else s.(fat := NoCommand)
    case FailKill =>
      if ok then s.(serving := Unserved(s.serving, s.helper), helper := None, fat := FailRemove)
      else s.(fat := FailRemove)
    case FailRemove => s.(beside := None, helper := None, recorded := None, fat := NoCommand)
  }

  function ForwardStep(s: Sockets, ok: bool): Sockets {
    if Stopping(s.fat) then StopStep(s, ok) else StartStep(s, ok)
  }

  /** removeForwardLeftover, internal/netprov/gvproxy/gvproxy.go:298-315. */
  function Leftover(s: Sockets): Sockets {
    if s.helper.Some? then s
    else if s.path.Nothing? then s.(recorded := None)
    else if Names(s.path, s.recorded) || !s.path.Sock? then Removed(s, TheForward).(recorded := None)
    else s
  }

  // ----- The stand-in, internal/sleeper/standin.go:198-324 -----

  function StandinStep(s: Sockets, ok: bool): Sockets {
    match s.sat
    case NoTake => s
    case LinkAside(own, keep) =>
      s.(aside := Nothing, sat := TakeOver(own, if keep && ok then s.path else Nothing))
    case TakeOver(own, link) =>
      if ok then
        s.(path := Sock(own), aside := link, mine := Some(own), serving := Unserved(s.serving, s.mine), sat := NoTake)
      else s.(serving := s.serving - {own}, sat := NoTake)
    case Unlink(own) =>
      var s' := s.(sat := NoTake);
      if s.path == Sock(own) && ok then Removed(s', TheStandin) else s'
  }

  /** RestorePrevious found the path its own and the previous socket answering. */
  predicate Restores(s: Sockets, ok: bool) {
    ok && Names(s.path, s.mine) && Answers(s, s.aside)
  }

  function LetGo(s: Sockets, unlink: bool): Sockets {
    s.(aside := Nothing, mine := None, serving := Unserved(s.serving, s.mine),
       sat := if unlink && s.mine.Some? then Unlink(s.mine.value) else NoTake)
  }

  predicate OfForward(i: Ino, next: nat) { i.owner.TheForward? && i.n < next }
  predicate OfStandin(i: Ino, next: nat) { i.owner.TheStandin? && i.n < next }

  function ByStandin(all: set<Ino>): set<Ino> { set i | i in all && i.owner.TheStandin? }

  function Next(s: Sockets, c: Step): Sockets {
    match c
    case Forward(ok) => ForwardStep(s, ok)
    case BeginStart => if s.fat.NoCommand? then s.(fat := CheckServing) else s
    case BeginStop(keep) => if s.fat.NoCommand? then s.(fat := KillHelper(keep, false)) else s
    case RemoveLeftover => if s.fat.NoCommand? then Leftover(s) else s
    case KillCommand => s.(fat := NoCommand)
    case HelperBinds(i) =>
      if OfForward(i, s.next) && s.beside.None? then s.(beside := Some(i), serving := s.serving + {i}) else s
    case HelperDies(i) =>
      if i.owner.TheForward? then s.(serving := s.serving - {i}, helper := if s.helper == Some(i) then None else s.helper)
      else s
    case Standin(ok) => StandinStep(s, ok)
    case BeginTake(keep) =>
      if s.sat.NoTake? then
        var own := Ino(s.next, TheStandin);
        s.(next := s.next + 1, serving := s.serving + {own}, sat := LinkAside(own, keep))
      else s
    case RestorePrevious(ok) =>
      if s.sat.NoTake? then s.(path := if Restores(s, ok) then s.aside else s.path, aside := Nothing) else s
    case DropPrevious => if s.sat.NoTake? then s.(aside := Nothing) else s
    case Close(unlink) => if s.sat.NoTake? then LetGo(s, unlink) else s
    case HandOver => if s.sat.NoTake? then LetGo(s, false) else s
    case SleeperDies => s.(aside := Nothing, mine := None, sat := NoTake, serving := s.serving - ByStandin(s.serving))
  }

  function Run(s: Sockets, cs: seq<Step>): Sockets
    decreases |cs|
  {
    if cs == [] then s else Run(Next(s, cs[0]), cs[1..])
  }

  lemma {:induction false} RunSplits(s: Sockets, a: seq<Step>, b: seq<Step>)
    ensures Run(s, a + b) == Run(Run(s, a), b)
    decreases |a|
  {
    if a == [] {
      assert a + b == b;
    } else {
      assert (a + b)[1..] == a[1..] + b;
      RunSplits(Next(s, a[0]), a[1..], b);
    }
  }

  // ----- What every step keeps -----

  predicate Known(o: Option<Ino>, owner: Party, next: nat) { o.Some? ==> o.value.owner == owner && o.value.n < next }

  predicate KnownOwners(s: Sockets) {
    && Known(s.helper, TheForward, s.next)
    && Known(s.recorded, TheForward, s.next)
    && Known(s.beside, TheForward, s.next)
    && Known(s.mine, TheStandin, s.next)
    && (s.fat.RecordPid? || s.fat.RecordIno? ==> OfForward(s.fat.ino, s.next))
    && (!s.sat.NoTake? ==> OfStandin(s.sat.own, s.next))
  }

  predicate Taking(at: StandinAt) { at.LinkAside? || at.TakeOver? }

  /** The stand-in listens on what it holds and on what it is about to move
      over the path, on nothing else, and keeps neither aside. */
  predicate ListenersOpen(s: Sockets) {
    && (s.mine.Some? ==> s.mine.value.owner.TheStandin? && s.mine.value in s.serving)
    && (Taking(s.sat) ==> s.sat.own.owner.TheStandin? && s.sat.own in s.serving)
    && (s.mine.Some? && Taking(s.sat) ==> s.mine.value != s.sat.own)
    && (forall i :: i in s.serving && i.owner.TheStandin? ==> s.mine == Some(i) || (Taking(s.sat) && s.sat.own == i))
  }

  predicate OlderThan(e: Entry, n: nat) { e.Sock? ==> e.ino.n < n }

  predicate EntriesOld(s: Sockets) {
    && OlderThan(s.path, s.next) && OlderThan(s.aside, s.next)
    && (Taking(s.sat) ==> s.path != Sock(s.sat.own))
    && (s.sat.TakeOver? ==> OlderThan(s.sat.link, s.next) && s.sat.link != Sock(s.sat.own))
    && (s.mine.Some? ==> s.aside != Sock(s.mine.value) && !s.sat.Unlink?)
  }

  predicate Tracked(s: Sockets) { KnownOwners(s) && ListenersOpen(s) && EntriesOld(s) }

  lemma StopOwners(s: Sockets, ok: bool)
    requires KnownOwners(s) && Stopping(s.fat)
    ensures KnownOwners(StopStep(s, ok))
  {
  }

  lemma StartOwners(s: Sockets, ok: bool)
    requires KnownOwners(s) && !Stopping(s.fat)
    ensures KnownOwners(StartStep(s, ok))
  {
  }

  /** What the forward's side leaves alone. */
  ghost predicate StandinSame(s: Sockets, s': Sockets) {
    && s'.mine == s.mine && s'.sat == s.sat && s'.aside == s.aside && s.next <= s'.next
    && (forall i: Ino :: i.owner.TheStandin? ==> (i in s'.serving <==> i in s.serving))
  }

  lemma StopKeepsStandin(s: Sockets, ok: bool)
    requires KnownOwners(s) && Stopping(s.fat)
    ensures StandinSame(s, StopStep(s, ok))
  {
  }

  lemma StartKeepsStandin(s: Sockets, ok: bool)
    requires KnownOwners(s) && !Stopping(s.fat)
    ensures StandinSame(s, StartStep(s, ok))
  {
  }

  lemma ForwardKeepsStandin(s: Sockets, ok: bool)
    requires KnownOwners(s)
    ensures StandinSame(s, ForwardStep(s, ok))
  {
    hide KnownOwners, StandinSame, StopStep, StartStep;
    if Stopping(s.fat) { StopKeepsStandin(s, ok); } else { StartKeepsStandin(s, ok); }
  }

  lemma ForwardPath(s: Sockets, ok: bool)
    requires KnownOwners(s)
    ensures var p := ForwardStep(s, ok).path;
      p == s.path || p == Nothing || (p.Sock? && OfForward(p.ino, s.next))
  {
  }

  lemma SameListeners(s: Sockets, s': Sockets)
    requires KnownOwners(s) && ListenersOpen(s) && EntriesOld(s) && StandinSame(s, s')
    requires s'.path == s.path || s'.path == Nothing || (s'.path.Sock? && OfForward(s'.path.ino, s.next))
    ensures ListenersOpen(s') && EntriesOld(s')
  {
  }

  lemma StandinTracks(s: Sockets, ok: bool)
    requires Tracked(s)
    ensures Tracked(StandinStep(s, ok))
  {
  }

  lemma TakeTracks(s: Sockets, keep: bool)
    requires Tracked(s)
    ensures Tracked(Next(s, BeginTake(keep)))
  {
  }

  lemma LettingGoTracks(s: Sockets, unlink: bool)
    requires Tracked(s) && s.sat.NoTake?
    ensures Tracked(LetGo(s, unlink))
  {
  }

  lemma ForwardTracks(s: Sockets, ok: bool)
    requires Tracked(s)
    ensures Tracked(ForwardStep(s, ok))
  {
    assert KnownOwners(ForwardStep(s, ok)) by {
      if Stopping(s.fat) { StopOwners(s, ok); } else { StartOwners(s, ok); }
    }
    hide KnownOwners, ListenersOpen, EntriesOld, ForwardStep, StandinSame;
    ForwardKeepsStandin(s, ok);
    ForwardPath(s, ok);
    SameListeners(s, ForwardStep(s, ok));
  }

  lemma CommandTracks(s: Sockets, c: Step)
    requires Tracked(s) && (c.BeginStart? || c.BeginStop? || c.KillCommand?)
    ensures Tracked(Next(s, c))
  {
  }

  lemma LeftoverTracks(s: Sockets)
    requires Tracked(s)
    ensures Tracked(Leftover(s))
  {
  }

  lemma DyingTracks(s: Sockets, i: Ino)
    requires Tracked(s)
    ensures Tracked(Next(s, HelperDies(i)))
  {
  }

  lemma BindingTracks(s: Sockets, i: Ino)
    requires Tracked(s)
    ensures Tracked(Next(s, HelperBinds(i)))
  {
  }

  lemma SleeperTracks(s: Sockets, c: Step)
    requires Tracked(s) && (c.RestorePrevious? || c.DropPrevious? || c.SleeperDies?)
    ensures Tracked(Next(s, c))
  {
  }

  lemma NextTracks(s: Sockets, c: Step)
    requires Tracked(s)
    ensures Tracked(Next(s, c))
  {
    hide Tracked, ForwardStep, StandinStep, LetGo, Leftover, Restores;
    match c
    case Forward(ok) => ForwardTracks(s, ok);
    case Standin(ok) => StandinTracks(s, ok);
    case BeginTake(keep) => TakeTracks(s, keep);
    case Close(unlink) => if s.sat.NoTake? { LettingGoTracks(s, unlink); }
    case HandOver => if s.sat.NoTake? { LettingGoTracks(s, false); }
    case HelperBinds(i) => BindingTracks(s, i);
    case HelperDies(i) => DyingTracks(s, i);
    case RemoveLeftover => if s.fat.NoCommand? { LeftoverTracks(s); }
    case RestorePrevious(_) => SleeperTracks(s, c);
    case DropPrevious => SleeperTracks(s, c);
    case SleeperDies => SleeperTracks(s, c);
    case _ => CommandTracks(s, c);
  }

  lemma {:induction false} RunTracks(s: Sockets, cs: seq<Step>)
    requires Tracked(s)
    ensures Tracked(Run(s, cs))
    decreases |cs|
  {
    if cs != [] {
      NextTracks(s, cs[0]);
      RunTracks(Next(s, cs[0]), cs[1..]);
    }
  }

  // ----- Whose socket a step removes -----

  /** The step removes a socket from the path that the other side bound. */
  predicate RemovesForeign(s: Sockets, c: Step) {
    var s' := Next(s, c);
    |s'.removals| > |s.removals| && s'.removals[|s.removals|].ino.owner != s'.removals[|s.removals|].who
  }

  /** stopForward just ended a helper whose inode is on no record, and takes
      whatever socket is at the path for that helper's. */
  predicate Guesses(s: Sockets, c: Step) {
    && c == Forward(true)
    && s.fat.CheckRemove? && !s.fat.keep && s.fat.killed && s.recorded.None?
    && s.path.Sock? && s.path.ino.owner.TheStandin?
  }

  lemma StepsThatRemove(s: Sockets, c: Step)
    requires !(c.Forward? && Stopping(s.fat)) && !c.Standin? && !c.RemoveLeftover?
    ensures Next(s, c).removals == s.removals
  {
  }

  lemma StopRemovals(s: Sockets, ok: bool)
    requires Tracked(s) && Stopping(s.fat)
    ensures RemovesForeign(s, Forward(ok)) <==> Guesses(s, Forward(ok))
  {
  }

  /** Neither side ever removes the other's socket, in any state, except in
      the one branch where the forward has no inode to go by. */
  lemma ForeignRemovalIsAGuess(s: Sockets, c: Step)
    requires Tracked(s)
    ensures RemovesForeign(s, c) <==> Guesses(s, c)
  {
    if c.Forward? && Stopping(s.fat) {
      StopRemovals(s, c.ok);
    } else if !c.Standin? && !c.RemoveLeftover? {
      StepsThatRemove(s, c);
    }
  }

  /** The helper the pid file names is on record, but for a start under way. */
  predicate OnRecord(s: Sockets) {
    s.helper.Some? ==>
      s.recorded.Some? || s.fat.AwaitAnswer? || s.fat.MoveOver? || s.fat.RecordIno? || s.fat.FailKill? || s.fat.FailRemove?
  }

  predicate Settled(s: Sockets) {
    && OnRecord(s)
    && (s.fat.CheckRemove? && s.fat.killed ==> s.recorded.Some?)
  }

  /** A start is cut short between its pid file and its inode file. */
  predicate CutsShort(s: Sockets, c: Step) {
    || (c.KillCommand? && s.helper.Some? && s.recorded.None?)
    || (c == Forward(false) && s.fat.RecordIno?)
  }

  predicate NoneCutShort(s: Sockets, cs: seq<Step>)
    decreases |cs|
  {
    cs == [] || (!CutsShort(s, cs[0]) && NoneCutShort(Next(s, cs[0]), cs[1..]))
  }

  predicate OnlyOwnRemoved(rs: seq<Removal>) { forall r :: r in rs ==> r.ino.owner == r.who }

  lemma ForwardSettles(s: Sockets, ok: bool)
    requires Settled(s) && !CutsShort(s, Forward(ok))
    ensures Settled(ForwardStep(s, ok))
  {
    if Stopping(s.fat) {
      assert Settled(StopStep(s, ok));
    } else {
      assert Settled(StartStep(s, ok));
    }
  }

  lemma NextSettles(s: Sockets, c: Step)
    requires Tracked(s) && Settled(s) && !CutsShort(s, c)
    ensures Settled(Next(s, c))
  {
    if c.Forward? {
      ForwardSettles(s, c.ok);
    }
  }

  lemma OneRemoval(s: Sockets, c: Step)
    ensures var rs := Next(s, c).removals;
      rs == s.removals || exists r :: rs == s.removals + [r]
  {
  }

  lemma OwnRemovals(s: Sockets, c: Step)
    requires Tracked(s) && Settled(s) && OnlyOwnRemoved(s.removals)
    ensures OnlyOwnRemoved(Next(s, c).removals)
  {
    hide Next, Tracked;
    ForeignRemovalIsAGuess(s, c);
    OneRemoval(s, c);
    var rs := Next(s, c).removals;
    if r :| rs == s.removals + [r] { assert rs[|s.removals|] == r; }
  }

  /** Over every interleaving in which no start is cut short between its two
      files, each side removes only sockets it bound itself. */
  lemma {:induction false} EachRemovesOnlyItsOwn(s: Sockets, cs: seq<Step>)
    requires Tracked(s) && Settled(s) && OnlyOwnRemoved(s.removals)
    requires NoneCutShort(s, cs)
    ensures OnlyOwnRemoved(Run(s, cs).removals)
    decreases |cs|
  {
    if cs != [] {
      NextTracks(s, cs[0]);
      NextSettles(s, cs[0]);
      OwnRemovals(s, cs[0]);
      EachRemovesOnlyItsOwn(Next(s, cs[0]), cs[1..]);
    }
  }

  lemma RunThree(s: Sockets, a: Step, b: Step, c: Step)
    ensures Run(s, [a, b, c]) == Next(Next(Next(s, a), b), c)
  {
    assert [a, b, c][1..] == [b, c] && [b, c][1..] == [c];
    assert Run(Next(Next(s, a), b), [c]) == Next(Next(Next(s, a), b), c);
  }

  lemma RunTwo(s: Sockets, a: Step, b: Step)
    ensures Run(s, [a, b]) == Next(Next(s, a), b)
  {
    assert [a, b][1..] == [b];
    assert Run(Next(s, a), [b]) == Next(Next(s, a), b);
  }

  /** What a stop whose calls succeed makes of the path. */
  function PathAfterStop(s: Sockets, keep: bool): Entry {
    if !keep && (s.path.Plain? || Names(s.path, s.recorded) || (s.recorded.None? && s.helper.Some?)) then Nothing
    else s.path
  }

  lemma StopsInThree(s: Sockets)
    requires s.fat.KillHelper?
    ensures var s' := ForwardStep(ForwardStep(ForwardStep(s, true), true), true);
      && s'.fat == AfterStop(s.fat.restart) && s'.mine == s.mine
      && s'.helper.None? && s'.recorded.None? && s'.beside.None?
      && s'.serving == Unserved(s.serving, s.helper) && s'.path == PathAfterStop(s, s.fat.keep)
  {
    hide StartStep;
  }

  lemma StopsFirst(s: Sockets)
    requires s.fat.KillHelper? && s.fat.restart
    ensures var s' := Run(s, [Forward(true), Forward(true), Forward(true)]);
      && s'.fat.ClearBeside? && s'.helper.None? && s'.recorded.None? && s'.mine == s.mine
      && (s'.path == s.path || s'.path == Nothing)
  {
    hide ForwardStep;
    RunThree(s, Forward(true), Forward(true), Forward(true));
    StopsInThree(s);
  }

  /** Up to its pid file, a start that does not find the forward serving. */
  lemma StartsUnrecorded(s: Sockets) returns (cs: seq<Step>)
    requires Tracked(s) && s.fat.NoCommand? && Held(s)
    ensures var s' := Run(s, cs);
      && s'.fat.AwaitAnswer? && s'.helper.Some? && s'.recorded.None? && s'.mine == s.mine
      && (s'.path == s.path || s'.path == Nothing)
  {
    var up := Forward(true);
    var s1 := Run(s, [BeginStart, up]);
    RunTwo(s, BeginStart, up);
    RunTracks(s, [BeginStart, up]);
    StopsFirst(s1);
    RunThree(Run(s1, [up, up, up]), up, up, up);
    RunSplits(s, [BeginStart, up], [up, up, up]);
    RunSplits(s, [BeginStart, up] + [up, up, up], [up, up, up]);
    cs := [BeginStart, up] + [up, up, up] + [up, up, up];
  }

  /** In any state in which the stand-in holds the path and no command runs, one
      start cut short and one more start take the path from it. */
  lemma OneCutShortStartLosesTheSocket(s: Sockets) returns (cs: seq<Step>)
    requires Tracked(s) && s.fat.NoCommand? && Held(s)
    ensures Run(s, cs).path == Nothing && Run(s, cs).mine == s.mine
  {
    var up := Forward(true);
    var first := StartsUnrecorded(s);
    RunTracks(s, first);
    var s1 := Run(s, first);
    RunThree(s1, KillCommand, BeginStart, up);
    var s2 := Run(s1, [KillCommand, BeginStart, up]);
    RunThree(s2, up, up, up);
    RunSplits(s, first, [KillCommand, BeginStart, up]);
    RunSplits(s, first + [KillCommand, BeginStart, up], [up, up, up]);
    cs := first + [KillCommand, BeginStart, up] + [up, up, up];
  }

  // ----- From the take to the hand-back -----

  /** The path names the stand-in's own socket. */
  predicate Held(s: Sockets) { Names(s.path, s.mine) }

  /** The forward moves a new socket over the path, or the stand-in puts the
      previous one back. */
  predicate GivesBack(s: Sockets, c: Step) {
    || (c == Forward(true) && s.fat.MoveOver? && s.beside.Some?)
    || (c.RestorePrevious? && s.sat.NoTake? && Restores(s, c.ok))
  }

  predicate LetsGo(s: Sockets, c: Step) {
    c.SleeperDies? || ((c.Close? || c.HandOver?) && s.sat.NoTake?)
  }

  predicate Ends(s: Sockets, c: Step) { GivesBack(s, c) || LetsGo(s, c) || Guesses(s, c) }

  lemma HeldWhileStops(s: Sockets, ok: bool)
    requires Tracked(s) && Held(s) && Stopping(s.fat)
    ensures Held(StopStep(s, ok)) <==> !Ends(s, Forward(ok))
    ensures !GivesBack(s, Forward(ok))
  {
  }

  lemma HeldWhileStarts(s: Sockets, ok: bool)
    requires Tracked(s) && Held(s) && !Stopping(s.fat)
    ensures Held(StartStep(s, ok)) <==> !Ends(s, Forward(ok))
    ensures GivesBack(s, Forward(ok)) ==> OfForwardAt(StartStep(s, ok))
  {
  }

  lemma HeldWhileForwardSteps(s: Sockets, ok: bool)
    requires Tracked(s) && Held(s)
    ensures Held(ForwardStep(s, ok)) <==> !Ends(s, Forward(ok))
    ensures GivesBack(s, Forward(ok)) ==> OfForwardAt(ForwardStep(s, ok))
  {
    hide Tracked, Held, Ends, GivesBack, StopStep, StartStep;
    if Stopping(s.fat) { HeldWhileStops(s, ok); } else { HeldWhileStarts(s, ok); }
  }

  lemma HeldWhileStandinSteps(s: Sockets, c: Step)
    requires Tracked(s) && Held(s) && !c.Forward?
    ensures Held(Next(s, c)) <==> !Ends(s, c)
    ensures GivesBack(s, c) ==> OfForwardAt(Next(s, c))
    ensures c.RestorePrevious? && GivesBack(s, c) ==> Answers(Next(s, c), Next(s, c).path)
  {
  }

  predicate OfForwardAt(s: Sockets) { s.path.Sock? && s.path.ino.owner.TheForward? }

  /** A held path answers, and only a hand-back, the stand-in's own letting go
      and the guess of stopForward end that. What is handed back is a socket of
      the forward, and the one the stand-in puts back answers. */
  lemma HeldExactlyUntil(s: Sockets, c: Step)
    requires Tracked(s) && Held(s)
    ensures Answers(s, s.path)
    ensures Held(Next(s, c)) <==> !Ends(s, c)
    ensures GivesBack(s, c) ==> OfForwardAt(Next(s, c))
    ensures c.RestorePrevious? && GivesBack(s, c) ==> Answers(Next(s, c), Next(s, c).path)
  {
    if c.Forward? {
      HeldWhileForwardSteps(s, c.ok);
    } else {
      HeldWhileStandinSteps(s, c);
    }
  }

  predicate NeverEnds(s: Sockets, cs: seq<Step>)
    decreases |cs|
  {
    cs == [] || (!Ends(s, cs[0]) && NeverEnds(Next(s, cs[0]), cs[1..]))
  }

  /** From the take on, whatever else happens, the path is never missing, never
      someone else's and never dead, until one of those steps. */
  lemma {:induction false} PathAlwaysAnswers(s: Sockets, cs: seq<Step>)
    requires Tracked(s) && Held(s) && NeverEnds(s, cs)
    ensures Held(Run(s, cs)) && Answers(Run(s, cs), Run(s, cs).path)
    decreases |cs|
  {
    if cs != [] {
      NextTracks(s, cs[0]);
      HeldExactlyUntil(s, cs[0]);
      PathAlwaysAnswers(Next(s, cs[0]), cs[1..]);
    }
  }

  /** The take itself leaves no gap either: a path that answered before one of
      its steps answers after it. */
  lemma TakeLeavesNoGap(s: Sockets, ok: bool)
    requires Tracked(s) && Answers(s, s.path)
    ensures Answers(Next(s, Standin(ok)), Next(s, Standin(ok)).path) || (s.sat.Unlink? && s.path == Sock(s.sat.own))
  {
  }

  // ----- What goes well -----

  /** A take whose rename succeeds ends with the stand-in's socket on the path, and
      the socket it replaced kept aside exactly if that was asked and linked. */
  lemma TakeHolds(s: Sockets, keep: bool, linked: bool)
    requires Tracked(s) && s.sat.NoTake?
    ensures var s' := Run(s, [BeginTake(keep), Standin(linked), Standin(true)]);
      && Held(s') && s'.sat.NoTake? && Answers(s', s'.path)
      && s'.aside == (if keep && linked then s.path else Nothing)
  {
    RunThree(s, BeginTake(keep), Standin(linked), Standin(true));
  }

  /** A socket of the forward that answers, taken over and put back, is on the path
      again, and answers. */
  lemma TakeAndRestore(s: Sockets)
    requires Tracked(s) && s.sat.NoTake? && OfForwardAt(s) && Answers(s, s.path)
    ensures var s' := Run(s, [BeginTake(true), Standin(true), Standin(true)] + [RestorePrevious(true)]);
      s'.path == s.path && Answers(s', s'.path) && s'.aside.Nothing?
  {
    RunThree(s, BeginTake(true), Standin(true), Standin(true));
    RunSplits(s, [BeginTake(true), Standin(true), Standin(true)], [RestorePrevious(true)]);
  }

  /** The forward's own socket, from a live helper, on record. */
  predicate Serving(s: Sockets) {
    && s.fat.NoCommand? && s.helper.Some? && Names(s.path, s.recorded)
    && OfForwardAt(s) && Answers(s, s.path)
  }

  lemma LaunchesInThree(s: Sockets)
    requires s.fat.ClearBeside?
    ensures var s' := ForwardStep(ForwardStep(ForwardStep(s, true), true), true);
      s' == s.(beside := None, next := s.next + 1, helper := Some(Ino(s.next, TheForward)), fat := AwaitAnswer)
  {
    hide StopStep;
  }

  lemma ServesInThree(s: Sockets)
    requires s.fat.AwaitAnswer? && s.beside.Some? && s.beside.value in s.serving
    ensures var s' := ForwardStep(ForwardStep(ForwardStep(s, true), true), true);
      s' == s.(path := Sock(s.beside.value), beside := None, recorded := s.beside, fat := NoCommand)
  {
    hide StopStep;
  }

  /** From the clearing of the beside name on. */
  lemma LaunchServes(s: Sockets) returns (cs: seq<Step>)
    requires s.fat.ClearBeside?
    ensures var s' := Run(s, cs); Serving(s') && s'.helper == s'.recorded && s'.mine == s.mine
  {
    hide ForwardStep;
    var up, i := Forward(true), Ino(s.next, TheForward);
    RunThree(s, up, up, up);
    LaunchesInThree(s);
    var s1 := Run(s, [up, up, up]);
    var s2 := Next(s1, HelperBinds(i));
    assert [HelperBinds(i)][1..] == [];
    assert Run(s2, []) == s2;
    RunThree(s2, up, up, up);
    ServesInThree(s2);
    RunSplits(s1, [HelperBinds(i)], [up, up, up]);
    RunSplits(s, [up, up, up], [HelperBinds(i)] + [up, up, up]);
    cs := [up, up, up] + ([HelperBinds(i)] + [up, up, up]);
  }

  /** A start whose calls succeed, and whose helper binds before it is asked, ends
      with the forward serving the path, whoever had it before; one that finds it
      serving leaves everything as it is. */
  lemma StartServes(s: Sockets) returns (cs: seq<Step>)
    requires Tracked(s) && s.fat.NoCommand?
    ensures Serving(Run(s, cs)) && Run(s, cs).mine == s.mine
    ensures if Serving(s) then Run(s, cs) == s else Run(s, cs).helper == Run(s, cs).recorded
  {
    var up := Forward(true);
    cs := [BeginStart, up];
    RunTwo(s, BeginStart, up);
    var s1 := Run(s, cs);
    if s1.fat.KillHelper? {
      StopsFirst(s1);
      hide Next;
      var rest := LaunchServes(Run(s1, [up, up, up]));
      RunSplits(s1, [up, up, up], rest);
      RunSplits(s, cs, [up, up, up] + rest);
      cs := cs + ([up, up, up] + rest);
    }
  }

  /** What a start left serving, the death of its own helper ends, and no other. */
  lemma ServesUntilItDies(s: Sockets, i: Ino)
    requires Serving(s) && s.helper == s.recorded
    ensures Serving(Next(s, HelperDies(i))) <==> s.path != Sock(i)
  {
  }

  /** A stop whose calls succeed leaves no helper, and nothing of the forward but,
      if asked, its socket on the path: what is there goes exactly if it is the
      recorded one, no socket at all, or unrecorded when the helper was ended. */
  lemma StopClears(s: Sockets, keep: bool)
    requires s.fat.NoCommand?
    ensures var up := Forward(true); var s' := Run(s, [BeginStop(keep), up] + [up, up]);
      && s'.fat.NoCommand? && s'.helper.None? && s'.recorded.None? && s'.beside.None?
      && (s.helper.Some? ==> s.helper.value !in s'.serving)
      && s'.path == PathAfterStop(s, keep)
  {
    var up := Forward(true);
    hide ForwardStep;
    var s1 := Next(s, BeginStop(keep));
    RunTwo(s, BeginStop(keep), up);
    RunTwo(Next(s1, up), up, up);
    RunSplits(s, [BeginStop(keep), up], [up, up]);
    StopsInThree(s1);
  }

  /** What a forward that is gone left on the path goes, a socket of anyone else
      stays. */
  lemma LeftoverGoes(s: Sockets)
    requires s.fat.NoCommand? && s.helper.None?
    ensures var s' := Next(s, RemoveLeftover);
      s'.path == if s.path.Plain? || Names(s.path, s.recorded) then Nothing else s.path
  {
  }
}
