/**
  Share sets: canonical paths in order, redundant shares dropped, unique tags.

  Resolving a path on the host and hashing it are parameters. Paths are as the
  resolution leaves them: absolute, not the root, with no trailing slash.
 */
module Shares {
  import opened Base
  import opened Order

  const MAX_SHARES := 16
  const MAX_TAG := 31
  const CONF_TAG := "jmconf"

  datatype Share = Share(path: string, readOnly: bool, tag: string)

  datatype Result = Ok(shares: seq<Share>) | InvalidPath | TooMany

  /** The host: `canon` resolves a path, or refuses it; `digest` hashes one. */
  datatype Host = Host(canon: string -> Option<string>, digest: string -> string)

  predicate Canonical(p: string) { |p| > 1 && p[0] == '/' && p[|p| - 1] != '/' }

  ghost predicate Sane(h: Host) {
    && (forall p :: h.canon(p).Some? ==>
          Canonical(h.canon(p).value) && h.canon(h.canon(p).value) == Some(h.canon(p).value))
    && (forall p :: |h.digest(p)| == 8)
  }

  // ----- Paths -----

  predicate IsUnder(child: string, parent: string) {
    var dir := if parent != "" && parent[|parent| - 1] == '/' then parent else parent + "/";
    dir <= child
  }

  predicate Covers(p: string, x: string) { p == x || IsUnder(x, p) }

  lemma UnderMeans(child: string, parent: string)
    requires Canonical(parent)
    ensures IsUnder(child, parent) <==> parent < child && child[|parent|] == '/'
  {
    if parent < child && child[|parent|] == '/' {
      assert child[..|parent| + 1] == parent + "/";
    }
  }

  lemma UnderIsTransitive(c: string, b: string, a: string)
    requires Canonical(a) && Canonical(b) && Covers(a, b) && Covers(b, c)
    ensures Covers(a, c) && (IsUnder(b, a) || IsUnder(c, b) ==> IsUnder(c, a))
  {
    UnderMeans(b, a);
    UnderMeans(c, b);
    UnderMeans(c, a);
  }

  /** Two shares over one path are nested, the longer inside the shorter. */
  lemma CoversAreNested(a: string, b: string, x: string)
    requires Canonical(a) && Canonical(b) && Covers(a, x) && Covers(b, x)
    ensures |a| <= |b| ==> Covers(a, b)
    ensures |a| < |b| ==> IsUnder(b, a)
    ensures |a| == |b| ==> a == b
  {
    UnderMeans(x, a);
    UnderMeans(x, b);
    UnderMeans(b, a);
    assert a == x[..|a|] && b == x[..|b|];
    if |a| < |b| { assert b[|a|] == x[|a|]; }
  }

  lemma ParentIsLess(child: string, parent: string)
    requires Canonical(parent) && IsUnder(child, parent)
    ensures Less(parent, child) && |parent| < |child|
  {
    UnderMeans(child, parent);
    PrefixIsLess(parent, child);
  }

  // ----- What is dropped -----

  function PathOf(): Share -> string { (s: Share) => s.path }

  predicate PathsDiffer(ss: seq<Share>) { forall i, j :: 0 <= i < j < |ss| ==> ss[i].path != ss[j].path }

  predicate AllCanonical(ss: seq<Share>) { forall s :: s in ss ==> Canonical(s.path) }

  /** A share nested in one already kept with the same mode adds nothing. */
  predicate Redundant(s: Share, kept: seq<Share>) {
    exists p :: p in kept && IsUnder(s.path, p.path) && p.readOnly == s.readOnly
  }

  function Kept(ss: seq<Share>): seq<Share> {
    if ss == [] then []
    else
      var kept, s := Kept(ss[..|ss| - 1]), ss[|ss| - 1];
      if Redundant(s, kept) then kept else kept + [s]
  }

  lemma {:induction false} KeptMembers(ss: seq<Share>)
    ensures forall s :: s in Kept(ss) ==> s in ss
    ensures forall s :: s in ss && s !in Kept(ss) ==> Redundant(s, Kept(ss))
  {
    if ss != [] {
      var init, last := ss[..|ss| - 1], ss[|ss| - 1];
      KeptMembers(init);
      assert ss == init + [last];
      forall s | s in ss && s !in Kept(ss) ensures Redundant(s, Kept(ss)) {
        var p :| p in Kept(init) && IsUnder(s.path, p.path) && p.readOnly == s.readOnly;
        assert p in Kept(ss);
      }
    }
  }

  /** No kept share is nested in a kept one of its mode. */
  predicate NoneRedundant(ss: seq<Share>) {
    forall a, b :: a in ss && b in ss && IsUnder(b.path, a.path) ==> a.readOnly != b.readOnly
  }

  predicate ByPath(ss: seq<Share>) { forall i, j :: 0 <= i < j < |ss| ==> Less(ss[i].path, ss[j].path) }

  lemma {:induction false} KeptIsClean(ss: seq<Share>)
    requires ByPath(ss) && AllCanonical(ss)
    ensures ByPath(Kept(ss)) && NoneRedundant(Kept(ss))
  {
    if ss != [] {
      var init, last := ss[..|ss| - 1], ss[|ss| - 1];
      KeptIsClean(init);
      KeptMembers(init);
      forall a | a in Kept(init) ensures Less(a.path, last.path) && !IsUnder(a.path, last.path) {
        assert a in init;
        var i :| 0 <= i < |init| && init[i] == a;
        assert ss[i] == a;
        if IsUnder(a.path, last.path) {
          ParentIsLess(a.path, last.path);
          LessIsTotal(a.path, last.path);
        }
      }
      if IsUnder(last.path, last.path) { ParentIsLess(last.path, last.path); }
    }
  }

  lemma {:induction false} CleanIsKept(ss: seq<Share>)
    requires NoneRedundant(ss)
    ensures Kept(ss) == ss
  {
    if ss != [] {
      var init, last := ss[..|ss| - 1], ss[|ss| - 1];
      assert ss == init + [last];
      CleanIsKept(init);
    }
  }

  // ----- What each path gets -----

  /** The nearest share over x has mode ro, as nested mounts are resolved. */
  predicate Effective(ss: seq<Share>, x: string, ro: bool) {
    exists s :: s in ss && Nearest(ss, s, x) && s.readOnly == ro
  }

  predicate Nearest(ss: seq<Share>, s: Share, x: string) {
    Covers(s.path, x) && forall t :: t in ss && Covers(t.path, x) ==> |t.path| <= |s.path|
  }

  /** Every path gets from the kept shares the mode it had. */
  ghost predicate SameModes(a: seq<Share>, b: seq<Share>) {
    forall x: string, ro: bool :: Effective(a, x, ro) <==> Effective(b, x, ro)
  }

  /** A share nested in a share nested in a share changes the mode twice. */
  predicate FlipsTwice(ss: seq<Share>) {
    exists a, b, c :: a in ss && b in ss && c in ss && Flip(a, b, c)
  }

  predicate Flip(a: Share, b: Share, c: Share) {
    IsUnder(b.path, a.path) && IsUnder(c.path, b.path) && a.readOnly == c.readOnly != b.readOnly
  }

  lemma SamePathSameShare(ss: seq<Share>, a: Share, b: Share)
    requires PathsDiffer(ss) && a in ss && b in ss && a.path == b.path
    ensures a == b
  {
  }

  lemma NearestExists(ss: seq<Share>, x: string, t: Share) returns (s: Share)
    requires t in ss && Covers(t.path, x)
    ensures s in ss && Nearest(ss, s, x) && |t.path| <= |s.path|
    decreases |x| - |t.path|
  {
    if u :| u in ss && Covers(u.path, x) && |u.path| > |t.path| {
      LongestCover(u.path, x);
      s := NearestExists(ss, x, u);
    } else {
      s := t;
    }
  }

  lemma LongestCover(p: string, x: string)
    requires Covers(p, x)
    ensures |p| <= |x|
  {
  }

  lemma OneEffectiveMode(ss: seq<Share>, x: string, s: Share, t: Share)
    requires PathsDiffer(ss) && AllCanonical(ss) && s in ss && t in ss && Nearest(ss, s, x) && Nearest(ss, t, x)
    ensures s == t
  {
    CoversAreNested(s.path, t.path, x);
    SamePathSameShare(ss, s, t);
  }

  predicate Deduped(ss: seq<Share>) { ByPath(ss) && AllCanonical(ss) }

  lemma DedupedDiffer(ss: seq<Share>)
    requires Deduped(ss)
    ensures PathsDiffer(ss)
  {
    forall i, j | 0 <= i < j < |ss| ensures ss[i].path != ss[j].path { LessIsTotal(ss[i].path, ss[j].path); }
  }

  /** Every share is kept, or lies under a kept one of its mode. */
  lemma KeptCovers(ss: seq<Share>, s: Share) returns (k: Share)
    requires s in ss
    ensures k in Kept(ss) && Covers(k.path, s.path) && k.readOnly == s.readOnly
  {
    KeptMembers(ss);
    if s in Kept(ss) {
      k := s;
    } else {
      k :| k in Kept(ss) && IsUnder(s.path, k.path) && k.readOnly == s.readOnly;
    }
  }

  /** Of two shares over x in one set, the shorter is the parent. */
  lemma ShorterIsParent(ss: seq<Share>, a: Share, b: Share, x: string)
    requires AllCanonical(ss) && PathsDiffer(ss) && a in ss && b in ss && Covers(a.path, x) && Covers(b.path, x)
    requires |a.path| <= |b.path|
    ensures a == b || IsUnder(b.path, a.path)
  {
    CoversAreNested(a.path, b.path, x);
    if |a.path| == |b.path| { SamePathSameShare(ss, a, b); }
  }

  lemma KeptIsPart(ss: seq<Share>)
    requires Deduped(ss)
    ensures Deduped(Kept(ss)) && PathsDiffer(ss) && forall s :: s in Kept(ss) ==> s in ss
  {
    KeptIsClean(ss);
    KeptMembers(ss);
    DedupedDiffer(ss);
  }

  lemma ModeSurvives(ss: seq<Share>, x: string, s: Share)
    requires Deduped(ss) && !FlipsTwice(ss) && s in ss && Nearest(ss, s, x)
    ensures Effective(Kept(ss), x, s.readOnly)
  {
    KeptIsPart(ss);
    var p := KeptCovers(ss, s);
    UnderIsTransitive(x, s.path, p.path);
    var k := NearestExists(Kept(ss), x, p);
    ShorterIsParent(ss, p, k, x);
    ShorterIsParent(ss, k, s, x);
    assert k.readOnly == s.readOnly by {
      if k.readOnly != s.readOnly { assert Flip(p, k, s); }
    }
  }

  lemma EffectiveKept(ss: seq<Share>, s: Share) returns (k: Share)
    requires Deduped(ss) && s in ss && SameModes(ss, Kept(ss))
    ensures k in Kept(ss) && Nearest(Kept(ss), k, s.path) && k.readOnly == s.readOnly
  {
    NearestToItself(ss, s);
    assert Effective(Kept(ss), s.path, s.readOnly);
    k :| k in Kept(ss) && Nearest(Kept(ss), k, s.path) && k.readOnly == s.readOnly;
  }

  lemma NoFlipKept(ss: seq<Share>, a: Share, b: Share, c: Share)
    requires Deduped(ss) && a in Kept(ss) && b in Kept(ss) && c in Kept(ss)
    ensures !Flip(a, b, c)
  {
    KeptIsClean(ss);
    KeptIsPart(ss);
    if IsUnder(b.path, a.path) && IsUnder(c.path, b.path) {
      UnderIsTransitive(c.path, b.path, a.path);
    }
  }

  lemma FlipChangesAMode(ss: seq<Share>, a: Share, b: Share, c: Share)
    requires Deduped(ss) && a in ss && b in ss && c in ss && Flip(a, b, c)
    ensures !SameModes(ss, Kept(ss))
  {
    if SameModes(ss, Kept(ss)) {
      KeptIsPart(ss);
      var top := KeptCovers(ss, a);
      var kb := EffectiveKept(ss, b);
      var kc := EffectiveKept(ss, c);
      UnderIsTransitive(b.path, a.path, top.path);
      ShorterIsParent(ss, top, kb, b.path);
      UnderIsTransitive(c.path, b.path, kb.path);
      ShorterIsParent(ss, kb, kc, c.path);
      NoFlipKept(ss, top, kb, kc);
    }
  }

  lemma NearestToItself(ss: seq<Share>, s: Share)
    requires s in ss
    ensures Nearest(ss, s, s.path) && Effective(ss, s.path, s.readOnly)
  {
    forall t | t in ss && Covers(t.path, s.path) ensures |t.path| <= |s.path| { LongestCover(t.path, s.path); }
  }

  /** Dropping redundant shares keeps the mode of every path exactly when no
      nested chain of the requested shares changes mode twice. */
  lemma ModesKeptExactlyWithoutDoubleFlip(ss: seq<Share>)
    requires Deduped(ss)
    ensures SameModes(ss, Kept(ss)) <==> !FlipsTwice(ss)
  {
    if FlipsTwice(ss) {
      var a, b, c :| a in ss && b in ss && c in ss && Flip(a, b, c);
      FlipChangesAMode(ss, a, b, c);
    } else {
      KeptIsClean(ss);
      KeptMembers(ss);
      DedupedDiffer(Kept(ss));
      forall x: string, ro: bool ensures Effective(ss, x, ro) <==> Effective(Kept(ss), x, ro) {
        if Effective(ss, x, ro) {
          var s :| s in ss && Nearest(ss, s, x) && s.readOnly == ro;
          ModeSurvives(ss, x, s);
        }
        if Effective(Kept(ss), x, ro) {
          var k :| k in Kept(ss) && Nearest(Kept(ss), k, x) && k.readOnly == ro;
          var s := NearestExists(ss, x, k);
          ModeSurvives(ss, x, s);
          var t :| t in Kept(ss) && Nearest(Kept(ss), t, x) && t.readOnly == s.readOnly;
          OneEffectiveMode(Kept(ss), x, k, t);
        }
      }
    }
  }

  // ----- Tags -----

  predicate Plain(c: char) { 'a' <= c <= 'z' || 'A' <= c <= 'Z' || '0' <= c <= '9' }

  function Masked(s: string): (r: string)
    ensures |r| == |s| && forall i :: 0 <= i < |r| ==> Plain(r[i]) || r[i] == '_'
  {
    seq(|s|, i requires 0 <= i < |s| => if Plain(s[i]) then s[i] else '_')
  }

  function TrimLeft(s: string): (r: string)
    ensures |r| <= |s| && r == s[|s| - |r|..]
  {
    if s != "" && s[0] == '_' then TrimLeft(s[1..]) else s
  }

  function TrimRight(s: string): (r: string)
    ensures |r| <= |s| && r == s[..|r|]
  {
    if s != "" && s[|s| - 1] == '_' then TrimRight(s[..|s| - 1]) else s
  }

  function Slug(s: string): (r: string)
    ensures r != "" && forall i :: 0 <= i < |r| ==> Plain(r[i]) || r[i] == '_'
  {
    var out := TrimRight(TrimLeft(Masked(s)));
    if out == "" then "share" else out
  }

  function BaseName(p: string): string {
    if p == "" then "" else if p[|p| - 1] == '/' then "" else BaseName(p[..|p| - 1]) + [p[|p| - 1]]
  }

  function ShareTag(h: Host, p: string): string {
    var slug, room := Slug(BaseName(p)), MAX_TAG - 2 - 8 - 2;
    "jm-" + (if |slug| > room then slug[..room] else slug) + "-" + h.digest(p)
  }

  /** A tag always fits the protocol and is never the configuration share's. */
  lemma TagFits(h: Host, p: string)
    requires Sane(h)
    ensures 12 < |ShareTag(h, p)| <= MAX_TAG && ShareTag(h, p) != CONF_TAG
  {
    assert ShareTag(h, p)[2] == '-';
  }

  lemma {:induction false} BaseNameOf(dir: string, base: string)
    requires '/' !in base
    ensures BaseName(dir + "/" + base) == base
    decreases |base|
  {
    var p := dir + "/" + base;
    if base == "" {
      assert p[|p| - 1] == '/';
    } else {
      var init := base[..|base| - 1];
      assert p[|p| - 1] == base[|base| - 1] && p[..|p| - 1] == dir + "/" + init;
      BaseNameOf(dir, init);
      assert base == init + [base[|base| - 1]];
    }
  }

  lemma PlainSlug(s: string)
    requires s != ""
    requires forall i :: 0 <= i < |s| ==> '0' <= s[i] <= '9' || 'A' <= s[i] <= 'Z' || 'a' <= s[i] <= 'z'
    ensures Slug(s) == s
  {
    assert Masked(s) == s;
    assert s[0] != '_' && s[|s| - 1] != '_';
  }

  /** A tag can be read: it carries the directory's own name if that is short and
      plain. */
  lemma TagReadsAsItsName(h: Host, dir: string, base: string)
    requires 0 < |base| <= 19
    requires forall i :: 0 <= i < |base| ==>
      '0' <= base[i] <= '9' || 'A' <= base[i] <= 'Z' || 'a' <= base[i] <= 'z'
    ensures ShareTag(h, dir + "/" + base) == "jm-" + base + "-" + h.digest(dir + "/" + base)
  {
    hide Slug, BaseName;
    BaseNameOf(dir, base);
    PlainSlug(base);
  }

  function Renamed(base: string, n: nat): string {
    var suffix := "~" + Itoa(n);
    (if |base| + |suffix| > MAX_TAG && |suffix| <= MAX_TAG then base[..Cut(base, suffix)] else base) + suffix
  }

  function Cut(base: string, suffix: string): (n: nat)
    ensures n <= |base|
  {
    if |suffix| <= MAX_TAG && MAX_TAG - |suffix| <= |base| then MAX_TAG - |suffix| else |base|
  }

  lemma {:induction false} NumeralLength(n: nat)
    requires n < 1000
    ensures |Itoa(n)| <= 3
  {
    if n >= 10 {
      assert n / 10 < 100;
      if n >= 100 { assert |Itoa(n / 10 / 10)| == 1; }
    }
  }

  /** A new name fits, keeps as much of the tag as fits, and ends in its number. */
  lemma RenamedFits(base: string, n: nat)
    requires n < 1000
    ensures var mark, r := "~" + Itoa(n), Renamed(base, n);
      && |r| == (if |base| + |mark| < MAX_TAG then |base| + |mark| else MAX_TAG)
      && r == base[..|r| - |mark|] + mark
  {
    NumeralLength(n);
  }

  /** New names differ from one another, whatever they are cut from. */
  lemma RenamedIsInjective(a: string, b: string, m: nat, n: nat)
    requires Renamed(a, m) == Renamed(b, n)
    ensures m == n
  {
    var p := RenamedHasMark(a, m);
    var q := RenamedHasMark(b, n);
    OneLastMark(p, Itoa(m), q, Itoa(n), '~');
    ItoaIsInjective(m, n);
  }

  lemma RenamedHasMark(base: string, n: nat) returns (p: string)
    ensures Renamed(base, n) == p + ['~'] + Itoa(n)
  {
    var suffix := "~" + Itoa(n);
    p := if |base| + |suffix| > MAX_TAG && |suffix| <= MAX_TAG then base[..Cut(base, suffix)] else base;
    assert p + suffix == p + ['~'] + Itoa(n);
  }

  /** The numbered names below n. */
  ghost function NamesBelow(base: string, n: nat): set<string> {
    if n <= 2 then {} else NamesBelow(base, n - 1) + {Renamed(base, n - 1)}
  }

  lemma {:induction false} NamesDiffer(base: string, n: nat)
    ensures n >= 2 ==> |NamesBelow(base, n)| == n - 2
    ensures forall m: nat :: 2 <= m < n ==> Renamed(base, m) in NamesBelow(base, n)
    ensures forall m: nat :: m >= n && m >= 2 ==> Renamed(base, m) !in NamesBelow(base, n)
  {
    if n > 2 {
      NamesDiffer(base, n - 1);
      forall m: nat | m >= n ensures Renamed(base, m) !in NamesBelow(base, n) {
        if Renamed(base, m) == Renamed(base, n - 1) { RenamedIsInjective(base, base, m, n - 1); }
      }
    }
  }

  /** The tag a share gets when `used` are taken: its own, or the first free of
      its numbered ones. */
  ghost predicate GetsTag(base: string, used: set<string>, tag: string) {
    if base !in used then tag == base
    else exists n: nat :: FirstFree(base, used, n) && tag == Renamed(base, n)
  }

  ghost predicate FirstFree(base: string, used: set<string>, n: nat) {
    n >= 2 && Renamed(base, n) !in used && forall m: nat :: 2 <= m < n ==> Renamed(base, m) in used
  }

  lemma OneTag(base: string, used: set<string>, s: string, t: string)
    requires GetsTag(base, used, s) && GetsTag(base, used, t)
    ensures s == t
  {
    if base in used {
      var m: nat :| FirstFree(base, used, m) && s == Renamed(base, m);
      var n: nat :| FirstFree(base, used, n) && t == Renamed(base, n);
    }
  }

  /** The renaming loop ends: each name tried is one of the used, and no two of
      them are the same. */
  method FreeTag(base: string, used: set<string>) returns (tag: string)
    requires |base| <= MAX_TAG && |used| < 900
    ensures GetsTag(base, used, tag) && tag !in used && |tag| <= MAX_TAG
  {
    tag := base;
    var n := 2;
    while tag in used
      invariant 2 <= n && NamesBelow(base, n - 1) <= used
      invariant n > 2 ==> base in used && |NamesBelow(base, n - 1)| == n - 3
      invariant tag == if n == 2 then base else Renamed(base, n - 1)
      decreases |used| + 3 - n
    {
      NamesDiffer(base, n);
      Smaller(NamesBelow(base, n), used);
      tag := Renamed(base, n);
      n := n + 1;
    }
    if n > 2 {
      NamesDiffer(base, n - 1);
      Smaller(NamesBelow(base, n - 1), used);
      assert FirstFree(base, used, n - 1);
      NumeralLength(n - 1);
    }
  }

  lemma Smaller(a: set<string>, b: set<string>)
    requires a <= b
    ensures |a| <= |b|
  {
    if a != {} {
      var x :| x in a;
      Smaller(a - {x}, b - {x});
    }
  }

  // ----- Normalising a set -----

  predicate Holds(ss: seq<Share>, p: string) { exists s :: s in ss && s.path == p }

  /** The requested shares, resolved; of two requests for one path the first
      counts. None when some path is refused. */
  function Collected(h: Host, requests: seq<Share>): Option<seq<Share>> {
    if requests == [] then Some([])
    else
      var before, r := Collected(h, requests[..|requests| - 1]), requests[|requests| - 1];
      var p := h.canon(r.path);
      if before.None? || p.None? then None
      else if Holds(before.value, p.value) then before
      else Some(before.value + [Share(p.value, r.readOnly, ShareTag(h, p.value))])
  }

  predicate OwnTags(h: Host, ss: seq<Share>) { forall s :: s in ss ==> s.tag == ShareTag(h, s.path) }

  predicate Accepted(h: Host, requests: seq<Share>) {
    forall i :: 0 <= i < |requests| ==> h.canon(requests[i].path).Some?
  }

  lemma AcceptedMore(h: Host, init: seq<Share>, r: Share)
    ensures Accepted(h, init + [r]) <==> Accepted(h, init) && h.canon(r.path).Some?
  {
    var all := init + [r];
    assert all[|init|] == r && forall i :: 0 <= i < |init| ==> all[i] == init[i];
  }

  lemma {:induction false} CollectedUnlessRefused(h: Host, requests: seq<Share>)
    ensures Collected(h, requests).Some? <==> Accepted(h, requests)
  {
    if requests != [] {
      hide Accepted, Holds, ShareTag;
      var init, last := requests[..|requests| - 1], requests[|requests| - 1];
      CollectedUnlessRefused(h, init);
      AcceptedMore(h, init, last);
      assert requests == init + [last];
    } else {
      assert Accepted(h, requests);
    }
  }

  ghost predicate Resolved(h: Host, ss: seq<Share>) {
    AllCanonical(ss) && PathsDiffer(ss) && OwnTags(h, ss) && forall s :: s in ss ==> h.canon(s.path) == Some(s.path)
  }

  lemma ResolvedMore(h: Host, ss: seq<Share>, s: Share)
    requires Resolved(h, ss) && !Holds(ss, s.path)
    requires Canonical(s.path) && s.tag == ShareTag(h, s.path) && h.canon(s.path) == Some(s.path)
    ensures Resolved(h, ss + [s])
  {
    var more := ss + [s];
    forall i, j | 0 <= i < j < |more| ensures more[i].path != more[j].path {
      if j == |ss| { assert ss[i] in ss; }
    }
  }

  lemma {:induction false} CollectedIs(h: Host, requests: seq<Share>)
    requires Sane(h) && Collected(h, requests).Some?
    ensures Resolved(h, Collected(h, requests).value)
  {
    if requests != [] {
      var init, r := requests[..|requests| - 1], requests[|requests| - 1];
      CollectedIs(h, init);
      var before, p := Collected(h, init).value, h.canon(r.path).value;
      if !Holds(before, p) { ResolvedMore(h, before, Share(p, r.readOnly, ShareTag(h, p))); }
    }
  }

  /** Each request is collected, under the mode of the first for its path. */
  lemma {:induction false} RequestIsCollected(h: Host, requests: seq<Share>, i: nat) returns (s: Share)
    requires Sane(h) && Collected(h, requests).Some? && i < |requests| && h.canon(requests[i].path).Some?
    ensures s in Collected(h, requests).value && Some(s.path) == h.canon(requests[i].path)
    ensures (forall j :: 0 <= j < i ==> h.canon(requests[j].path) != h.canon(requests[i].path)) ==>
      s.readOnly == requests[i].readOnly
  {
    var init := requests[..|requests| - 1];
    if i < |init| {
      s := RequestIsCollected(h, init, i);
    } else {
      s := LastIsCollected(h, init, requests[i]);
    }
  }

  lemma LastIsCollected(h: Host, init: seq<Share>, r: Share) returns (s: Share)
    requires Collected(h, init).Some? && h.canon(r.path).Some?
    ensures Some(s.path) == h.canon(r.path)
    ensures s in (if Holds(Collected(h, init).value, s.path) then Collected(h, init).value
                  else Collected(h, init).value + [Share(s.path, r.readOnly, ShareTag(h, s.path))])
    ensures (forall j :: 0 <= j < |init| ==> h.canon(init[j].path) != h.canon(r.path)) ==> s.readOnly == r.readOnly
  {
    hide Collected, ShareTag;
    var p := h.canon(r.path).value;
    if Holds(Collected(h, init).value, p) {
      s :| s in Collected(h, init).value && s.path == p;
      CollectedFromARequest(h, init, s);
      var j :| 0 <= j < |init| && h.canon(init[j].path) == Some(s.path);
    } else {
      s := Share(p, r.readOnly, ShareTag(h, p));
    }
  }

  lemma {:induction false} CollectedFromARequest(h: Host, requests: seq<Share>, s: Share)
    requires Collected(h, requests).Some? && s in Collected(h, requests).value
    ensures exists j :: 0 <= j < |requests| && h.canon(requests[j].path) == Some(s.path)
  {
    var n := |requests| - 1;
    if s in Collected(h, requests[..n]).value {
      CollectedFromARequest(h, requests[..n], s);
      var j :| 0 <= j < n && h.canon(requests[..n][j].path) == Some(s.path);
      assert requests[j] == requests[..n][j];
    } else {
      assert h.canon(requests[n].path) == Some(s.path);
    }
  }

  function InOrder(ss: seq<Share>): seq<Share> { Sort(ss, PathOf()) }

  lemma InOrderIs(h: Host, ss: seq<Share>)
    requires AllCanonical(ss) && PathsDiffer(ss) && OwnTags(h, ss)
    ensures Deduped(InOrder(ss)) && OwnTags(h, InOrder(ss)) && forall s :: s in InOrder(ss) <==> s in ss
  {
    assert KeysDiffer(ss, PathOf());
    SortSorts(ss, PathOf());
    forall s | true ensures s in InOrder(ss) <==> s in ss { SortKeepsMembers(ss, PathOf(), s); }
    var sorted := InOrder(ss);
    forall i, j | 0 <= i < j < |sorted| ensures Less(sorted[i].path, sorted[j].path) {
      assert Less(PathOf()(sorted[i]), PathOf()(sorted[j]));
    }
  }

  function TagsBefore(ss: seq<Share>, i: nat): set<string>
    requires i <= |ss|
  {
    {CONF_TAG} + set j | 0 <= j < i :: ss[j].tag
  }

  /** The same shares, each with the tag it gets after those before it. */
  ghost predicate Tagged(h: Host, ss: seq<Share>, out: seq<Share>) {
    && |out| == |ss|
    && forall i :: 0 <= i < |ss| ==> TaggedAt(h, ss, out, i)
  }

  ghost predicate TaggedAt(h: Host, ss: seq<Share>, out: seq<Share>, i: nat)
    requires i < |ss| && i < |out|
  {
    && out[i].path == ss[i].path && out[i].readOnly == ss[i].readOnly
    && GetsTag(ShareTag(h, ss[i].path), TagsBefore(out, i), out[i].tag)
  }

  ghost predicate Normalised(h: Host, requests: seq<Share>, out: seq<Share>) {
    && Collected(h, requests).Some?
    && var ss := Kept(InOrder(Collected(h, requests).value));
      |ss| <= MAX_SHARES && Tagged(h, ss, out)
  }

  lemma SameTagsBefore(a: seq<Share>, b: seq<Share>, n: nat)
    requires n <= |a| && n <= |b| && forall j :: 0 <= j < n ==> a[j] == b[j]
    ensures TagsBefore(a, n) == TagsBefore(b, n)
  {
  }

  lemma SameNext(h: Host, ss: seq<Share>, a: seq<Share>, b: seq<Share>, i: nat)
    requires i < |ss| == |a| == |b| && TaggedAt(h, ss, a, i) && TaggedAt(h, ss, b, i)
    requires TagsBefore(a, i) == TagsBefore(b, i)
    ensures a[i] == b[i]
  {
    OneTag(ShareTag(h, ss[i].path), TagsBefore(a, i), a[i].tag, b[i].tag);
  }

  lemma {:induction false} OneTagging(h: Host, ss: seq<Share>, a: seq<Share>, b: seq<Share>, n: nat)
    requires Tagged(h, ss, a) && Tagged(h, ss, b) && n <= |ss|
    ensures forall j :: 0 <= j < n ==> a[j] == b[j]
  {
    hide TaggedAt, TagsBefore;
    if n > 0 {
      OneTagging(h, ss, a, b, n - 1);
      SameTagsBefore(a, b, n - 1);
      SameNext(h, ss, a, b, n - 1);
    }
  }

  lemma TagsBeforeSize(ss: seq<Share>, i: nat)
    requires i <= |ss|
    ensures |TagsBefore(ss, i)| <= i + 1
  {
    if i > 0 {
      TagsBeforeSize(ss, i - 1);
      TagsBeforeOneMore(ss, i - 1);
    }
  }

  lemma TagsBeforeOneMore(ss: seq<Share>, i: nat)
    requires i < |ss|
    ensures TagsBefore(ss, i + 1) == TagsBefore(ss, i) + {ss[i].tag}
  {
  }

  lemma GotTagFits(base: string, used: set<string>, tag: string)
    requires |base| <= MAX_TAG && |used| < 900 && GetsTag(base, used, tag)
    ensures |tag| <= MAX_TAG && tag !in used
  {
    if base in used {
      var n: nat :| FirstFree(base, used, n) && tag == Renamed(base, n);
      NamesDiffer(base, n);
      forall t | t in NamesBelow(base, n) ensures t in used { NameBelow(base, n, t); }
      Smaller(NamesBelow(base, n), used);
      NumeralLength(n);
    }
  }

  lemma {:induction false} NameBelow(base: string, n: nat, t: string)
    requires t in NamesBelow(base, n)
    ensures exists m: nat :: 2 <= m < n && t == Renamed(base, m)
  {
    if t == Renamed(base, n - 1) {
    } else {
      NameBelow(base, n - 1, t);
    }
  }

  // ----- The laws of a normalised set -----

  /** The output is in strict path order, so a parent comes before what is nested
      in it; tags differ from one another and from the configuration share's,
      and fit the protocol; and no kept share repeats what a parent gives. */
  predicate WellShaped(out: seq<Share>) {
    && |out| <= MAX_SHARES && ByPath(out) && NoneRedundant(out) && AllCanonical(out)
    && (forall i, j :: 0 <= i < |out| && 0 <= j < |out| && IsUnder(out[j].path, out[i].path) ==> i < j)
    && (forall i, j :: 0 <= i < j < |out| ==> out[i].tag != out[j].tag)
    && (forall i :: 0 <= i < |out| ==> out[i].tag != CONF_TAG && |out[i].tag| <= MAX_TAG)
  }

  lemma NormalisedShape(h: Host, requests: seq<Share>, out: seq<Share>)
    requires Sane(h) && Normalised(h, requests, out)
    ensures WellShaped(out)
  {
    var sorted := InOrder(Collected(h, requests).value);
    var ss := Kept(sorted);
    CollectedIs(h, requests);
    InOrderIs(h, Collected(h, requests).value);
    KeptIsClean(sorted);
    KeptIsPart(sorted);
    SamePathsAndModes(h, ss, out);
    ParentsFirst(out);
    forall i | 0 <= i < |out| ensures |out[i].tag| <= MAX_TAG && out[i].tag !in TagsBefore(out, i) {
      TagIsFree(h, ss, out, i);
    }
    forall i, j | 0 <= i < j < |out| ensures out[i].tag != out[j].tag {
      assert out[i].tag in TagsBefore(out, j);
    }
  }

  lemma TagIsFree(h: Host, ss: seq<Share>, out: seq<Share>, i: nat)
    requires Sane(h) && Tagged(h, ss, out) && |ss| <= MAX_SHARES && i < |out|
    ensures |out[i].tag| <= MAX_TAG && out[i].tag !in TagsBefore(out, i)
  {
    assert TaggedAt(h, ss, out, i);
    TagsBeforeSize(out, i);
    TagFits(h, ss[i].path);
    GotTagFits(ShareTag(h, ss[i].path), TagsBefore(out, i), out[i].tag);
  }

  predicate Alike(a: seq<Share>, b: seq<Share>) {
    |a| == |b| && forall i :: 0 <= i < |a| ==> a[i].path == b[i].path && a[i].readOnly == b[i].readOnly
  }

  lemma SamePathsAndModes(h: Host, ss: seq<Share>, out: seq<Share>)
    requires Tagged(h, ss, out) && ByPath(ss) && NoneRedundant(ss) && AllCanonical(ss)
    ensures Alike(ss, out) && ByPath(out) && NoneRedundant(out) && AllCanonical(out)
  {
    forall i | 0 <= i < |ss| ensures ss[i].path == out[i].path && ss[i].readOnly == out[i].readOnly {
      assert TaggedAt(h, ss, out, i);
    }
    AlikeIsAlike(ss, out);
  }

  lemma AlikeIsAlike(a: seq<Share>, b: seq<Share>)
    requires Alike(a, b)
    ensures ByPath(a) ==> ByPath(b)
    ensures NoneRedundant(a) ==> NoneRedundant(b)
    ensures AllCanonical(a) ==> AllCanonical(b)
    ensures SameModes(a, b)
  {
    if NoneRedundant(a) { AlikeNoneRedundant(a, b); }
    AlikeSameModes(a, b);
  }

  lemma AlikeNoneRedundant(a: seq<Share>, b: seq<Share>)
    requires Alike(a, b) && NoneRedundant(a)
    ensures NoneRedundant(b)
  {
    forall x, y | x in b && y in b && IsUnder(y.path, x.path) ensures x.readOnly != y.readOnly {
      var i :| 0 <= i < |b| && b[i] == x;
      var j :| 0 <= j < |b| && b[j] == y;
      assert a[i] in a && a[j] in a;
    }
  }

  lemma AlikeSameModes(a: seq<Share>, b: seq<Share>)
    requires Alike(a, b)
    ensures SameModes(a, b)
  {
    forall x: string, ro: bool ensures Effective(a, x, ro) <==> Effective(b, x, ro) {
      if Effective(a, x, ro) { EffectiveAlike(a, b, x, ro); }
      if Effective(b, x, ro) { EffectiveAlike(b, a, x, ro); }
    }
  }

  lemma EffectiveAlike(a: seq<Share>, b: seq<Share>, x: string, ro: bool)
    requires Alike(a, b) && Effective(a, x, ro)
    ensures Effective(b, x, ro)
  {
    var s :| s in a && Nearest(a, s, x) && s.readOnly == ro;
    var i :| 0 <= i < |a| && a[i] == s;
    forall t | t in b && Covers(t.path, x) ensures |t.path| <= |b[i].path| {
      var j :| 0 <= j < |b| && b[j] == t;
      assert a[j] in a && Covers(a[j].path, x);
    }
    assert b[i] in b && Nearest(b, b[i], x);
  }

  lemma ParentsFirst(out: seq<Share>)
    requires ByPath(out) && AllCanonical(out)
    ensures forall i, j :: 0 <= i < |out| && 0 <= j < |out| && IsUnder(out[j].path, out[i].path) ==> i < j
  {
    forall i, j | 0 <= i < |out| && 0 <= j < |out| && IsUnder(out[j].path, out[i].path) ensures i < j {
      ParentIsLess(out[j].path, out[i].path);
      LessIsTotal(out[i].path, out[j].path);
    }
  }

  /** Every requested path is kept, or lies under a kept share of the mode that
      was first asked for it. */
  lemma EveryRequestIsCovered(h: Host, requests: seq<Share>, out: seq<Share>, i: nat) returns (k: Share)
    requires Sane(h) && Normalised(h, requests, out) && i < |requests| && h.canon(requests[i].path).Some?
    ensures k in out && Covers(k.path, h.canon(requests[i].path).value)
    ensures (forall j :: 0 <= j < i ==> h.canon(requests[j].path) != h.canon(requests[i].path)) ==>
      k.readOnly == requests[i].readOnly
  {
    var collected := Collected(h, requests).value;
    var s := RequestIsCollected(h, requests, i);
    CollectedIs(h, requests);
    InOrderIs(h, collected);
    var kept := KeptCovers(InOrder(collected), s);
    var ss := Kept(InOrder(collected));
    var n :| 0 <= n < |ss| && ss[n] == kept;
    assert TaggedAt(h, ss, out, n);
    k := out[n];
  }

  /** Normalising keeps the mode of every path exactly when no nested chain of
      the requests changes mode twice. */
  lemma NormaliseKeepsModesExactly(h: Host, requests: seq<Share>, out: seq<Share>)
    requires Sane(h) && Normalised(h, requests, out)
    ensures SameModes(Collected(h, requests).value, out) <==> !FlipsTwice(Collected(h, requests).value)
  {
    var collected := Collected(h, requests).value;
    var sorted := InOrder(collected);
    CollectedIs(h, requests);
    InOrderIs(h, collected);
    ModesKeptExactlyWithoutDoubleFlip(sorted);
    KeptIsClean(sorted);
    KeptIsPart(sorted);
    SamePathsAndModes(h, Kept(sorted), out);
    AlikeIsAlike(Kept(sorted), out);
    SameMembersSameModes(collected, sorted);
  }

  lemma SameMembersSameModes(a: seq<Share>, b: seq<Share>)
    requires forall s :: s in a <==> s in b
    ensures SameModes(a, b) && (FlipsTwice(a) <==> FlipsTwice(b))
  {
  }

  /** What is kept of some requests. */
  function KeptOf(h: Host, requests: seq<Share>): seq<Share>
    requires Collected(h, requests).Some?
  {
    Kept(InOrder(Collected(h, requests).value))
  }

  lemma KeptOfIs(h: Host, requests: seq<Share>)
    requires Sane(h) && Collected(h, requests).Some?
    ensures Resolved(h, KeptOf(h, requests)) && ByPath(KeptOf(h, requests)) && NoneRedundant(KeptOf(h, requests))
  {
    var collected := Collected(h, requests).value;
    CollectedIs(h, requests);
    InOrderIs(h, collected);
    KeptIsClean(InOrder(collected));
    KeptIsPart(InOrder(collected));
    DedupedDiffer(KeptOf(h, requests));
  }

  /** What is kept, under any tags, is what is kept of it. */
  lemma KeptOfKept(h: Host, ss: seq<Share>, out: seq<Share>)
    requires Resolved(h, ss) && ByPath(ss) && NoneRedundant(ss) && Alike(ss, out)
    ensures Collected(h, out) == Some(ss) && KeptOf(h, out) == ss
  {
    forall i | 0 <= i < |ss| ensures CollectsAs(h, ss, out, i) { ResolvedCollects(h, ss, out, i); }
    CollectedAgain(h, ss, out, |out|);
    assert out[..|out|] == out && ss[..|ss|] == ss;
    SortedByPath(ss);
    SortedIsSort(ss, PathOf());
    CleanIsKept(ss);
  }

  /** Normalising a normalised set is never refused, and gives that very set. */
  lemma NormaliseIsIdempotent(h: Host, requests: seq<Share>, out: seq<Share>)
    requires Sane(h) && Normalised(h, requests, out)
    ensures forall again :: Normalised(h, out, again) <==> again == out
  {
    var ss := KeptOf(h, requests);
    KeptOfIs(h, requests);
    SamePathsAndModes(h, ss, out);
    KeptOfKept(h, ss, out);
    hide Kept, InOrder, Collected, Tagged;
    assert Normalised(h, out, out);
    forall again | Normalised(h, out, again) ensures again == out {
      OnlyTagging(h, ss, out, again);
    }
  }

  lemma OnlyTagging(h: Host, ss: seq<Share>, a: seq<Share>, b: seq<Share>)
    requires Tagged(h, ss, a) && Tagged(h, ss, b)
    ensures a == b
  {
    OneTagging(h, ss, a, b, |ss|);
  }

  lemma SortedByPath(ss: seq<Share>)
    requires ByPath(ss)
    ensures SortedBy(ss, PathOf())
  {
  }

  lemma CollectedOneMore(h: Host, requests: seq<Share>, before: seq<Share>, r: Share, s: Share)
    requires Collected(h, requests) == Some(before) && h.canon(r.path) == Some(s.path) && !Holds(before, s.path)
    requires s == Share(s.path, r.readOnly, ShareTag(h, s.path))
    ensures Collected(h, requests + [r]) == Some(before + [s])
  {
    assert (requests + [r])[..|requests|] == requests;
  }

  /** Share i of `out` is collected as share i of `ss`. */
  ghost predicate CollectsAs(h: Host, ss: seq<Share>, out: seq<Share>, i: nat)
    requires i < |ss| && i < |out|
  {
    && h.canon(out[i].path) == Some(ss[i].path)
    && ss[i] == Share(ss[i].path, out[i].readOnly, ShareTag(h, ss[i].path))
    && !Holds(ss[..i], ss[i].path)
  }

  lemma ResolvedCollects(h: Host, ss: seq<Share>, out: seq<Share>, i: nat)
    requires Resolved(h, ss) && Alike(ss, out) && i < |ss|
    ensures CollectsAs(h, ss, out, i)
  {
    assert ss[i] in ss;
  }

  lemma CollectedNext(h: Host, ss: seq<Share>, out: seq<Share>, i: nat)
    requires i < |out| == |ss| && CollectsAs(h, ss, out, i) && Collected(h, out[..i]) == Some(ss[..i])
    ensures Collected(h, out[..i + 1]) == Some(ss[..i + 1])
  {
    hide Collected, Holds, ShareTag;
    CollectedOneMore(h, out[..i], ss[..i], out[i], ss[i]);
    assert out[..i + 1] == out[..i] + [out[i]];
    assert ss[..i + 1] == ss[..i] + [ss[i]];
  }

  lemma {:induction false} CollectedAgain(h: Host, ss: seq<Share>, out: seq<Share>, n: nat)
    requires |out| == |ss| && n <= |ss| && forall i :: 0 <= i < |ss| ==> CollectsAs(h, ss, out, i)
    ensures Collected(h, out[..n]) == Some(ss[..n])
  {
    if n > 0 {
      CollectedAgain(h, ss, out, n - 1);
      CollectedNext(h, ss, out, n - 1);
    }
  }

  // ----- The operations, internal/machine/share.go:202-291 -----

  method Collect(h: Host, requests: seq<Share>) returns (r: Option<seq<Share>>)
    ensures r == Collected(h, requests)
  {
    var out: seq<Share> := [];
    var i := 0;
    while i < |requests|
      invariant 0 <= i <= |requests|
      invariant Collected(h, requests[..i]) == Some(out)
    {
      assert requests[..i + 1][..i] == requests[..i];
      var p := h.canon(requests[i].path);
      if p.None? {
        CollectedUnlessRefused(h, requests);
        assert !Accepted(h, requests);
        return None;
      }
      if !Holds(out, p.value) {
        out := out + [Share(p.value, requests[i].readOnly, ShareTag(h, p.value))];
      }
      i := i + 1;
    }
    assert requests[..i] == requests;
    r := Some(out);
  }

  method FindsRedundant(s: Share, kept: seq<Share>) returns (redundant: bool)
    ensures redundant <==> Redundant(s, kept)
  {
    redundant := false;
    var j := 0;
    while j < |kept| && !redundant
      invariant 0 <= j <= |kept|
      invariant redundant ==> Redundant(s, kept)
      invariant !redundant ==>
        forall i :: 0 <= i < j ==> !(IsUnder(s.path, kept[i].path) && kept[i].readOnly == s.readOnly)
    {
      if IsUnder(s.path, kept[j].path) && kept[j].readOnly == s.readOnly {
        assert kept[j] in kept;
        redundant := true;
      }
      j := j + 1;
    }
  }

  method DropRedundant(ss: seq<Share>) returns (kept: seq<Share>)
    ensures kept == Kept(ss)
  {
    kept := [];
    var i := 0;
    while i < |ss|
      invariant 0 <= i <= |ss| && kept == Kept(ss[..i])
    {
      assert ss[..i + 1][..i] == ss[..i];
      var redundant := FindsRedundant(ss[i], kept);
      if !redundant { kept := kept + [ss[i]]; }
      i := i + 1;
    }
    assert ss[..i] == ss;
  }

  lemma TaggedOneMore(h: Host, ss: seq<Share>, out: seq<Share>, s: Share)
    requires |out| < |ss| && forall j :: 0 <= j < |out| ==> TaggedAt(h, ss, out, j)
    requires s.path == ss[|out|].path && s.readOnly == ss[|out|].readOnly
    requires GetsTag(ShareTag(h, s.path), TagsBefore(out, |out|), s.tag)
    ensures forall j :: 0 <= j < |out| + 1 ==> TaggedAt(h, ss, out + [s], j)
    ensures TagsBefore(out + [s], |out| + 1) == TagsBefore(out, |out|) + {s.tag}
  {
    var more := out + [s];
    forall j | 0 <= j < |out| + 1 ensures TaggedAt(h, ss, more, j) {
      SameTagsBefore(out, more, j);
      if j < |out| { assert TaggedAt(h, ss, out, j); }
    }
    SameTagsBefore(out, more, |out|);
    TagsBeforeOneMore(more, |out|);
  }

  method AssignTags(h: Host, ss: seq<Share>) returns (out: seq<Share>)
    requires Sane(h) && |ss| <= MAX_SHARES
    ensures Tagged(h, ss, out)
  {
    out := [];
    var used := {CONF_TAG};
    while |out| < |ss|
      invariant |out| <= |ss| && used == TagsBefore(out, |out|)
      invariant forall j :: 0 <= j < |out| ==> TaggedAt(h, ss, out, j)
    {
      var s := ss[|out|];
      TagsBeforeSize(out, |out|);
      TagFits(h, s.path);
      var tag := FreeTag(ShareTag(h, s.path), used);
      TaggedOneMore(h, ss, out, Share(s.path, s.readOnly, tag));
      out := out + [Share(s.path, s.readOnly, tag)];
      used := used + {tag};
    }
  }

  method NormaliseShares(h: Host, requests: seq<Share>) returns (r: Result)
    requires Sane(h)
    ensures r.InvalidPath? <==> exists i :: 0 <= i < |requests| && h.canon(requests[i].path).None?
    ensures r.TooMany? <==> Collected(h, requests).Some? && |KeptOf(h, requests)| > MAX_SHARES
    ensures r.Ok? ==> Normalised(h, requests, r.shares) && WellShaped(r.shares)
    ensures r.Ok? ==>
      var asked := Collected(h, requests).value; SameModes(asked, r.shares) <==> !FlipsTwice(asked)
  {
    CollectedUnlessRefused(h, requests);
    var collected := Collect(h, requests);
    if collected.None? { return InvalidPath; }
    var kept := DropRedundant(InOrder(collected.value));
    if |kept| > MAX_SHARES { return TooMany; }
    var out := AssignTags(h, kept);
    NormalisedShape(h, requests, out);
    NormaliseKeepsModesExactly(h, requests, out);
    r := Ok(out);
  }

  function Without(ss: seq<Share>, p: string): (r: seq<Share>)
    ensures forall s :: s in r <==> s in ss && s.path != p
  {
    if ss == [] then []
    else if ss[|ss| - 1].path == p then Without(ss[..|ss| - 1], p)
    else Without(ss[..|ss| - 1], p) + [ss[|ss| - 1]]
  }

  method AddShare(h: Host, list: seq<Share>, s: Share) returns (r: Result)
    requires Sane(h)
    ensures r.Ok? ==> Normalised(h, Without(list, s.path) + [s], r.shares)
  {
    var out: seq<Share> := [];
    var i := 0;
    while i < |list|
      invariant 0 <= i <= |list| && out == Without(list[..i], s.path)
    {
      assert list[..i + 1][..i] == list[..i];
      if list[i].path != s.path { out := out + [list[i]]; }
      i := i + 1;
    }
    assert list[..i] == list;
    r := NormaliseShares(h, out + [s]);
  }

  method RemoveShare(h: Host, list: seq<Share>, path: string) returns (out: seq<Share>, found: bool, ok: bool)
    ensures ok <==> h.canon(path).Some?
    ensures !ok ==> out == list && !found
    ensures ok ==> out == Without(list, h.canon(path).value) && (found <==> Holds(list, h.canon(path).value))
  {
    var p := h.canon(path);
    if p.None? { return list, false, false; }
    out, found, ok := [], false, true;
    var i := 0;
    while i < |list|
      invariant 0 <= i <= |list| && out == Without(list[..i], p.value)
      invariant found <==> Holds(list[..i], p.value)
    {
      assert list[..i + 1] == list[..i] + [list[i]];
      if list[i].path == p.value { found := true; } else { out := out + [list[i]]; }
      i := i + 1;
    }
    assert list[..i] == list;
  }

  /** A share added to a set of resolved paths decides the mode of its path,
      whatever the set said of it before. */
  lemma AddedShareDecides(h: Host, list: seq<Share>, s: Share, out: seq<Share>) returns (k: Share)
    requires Sane(h) && h.canon(s.path) == Some(s.path)
    requires forall e :: e in list ==> h.canon(e.path) == Some(e.path)
    requires Normalised(h, Without(list, s.path) + [s], out)
    ensures k in out && Covers(k.path, s.path) && k.readOnly == s.readOnly
  {
    var requests := Without(list, s.path) + [s];
    k := EveryRequestIsCovered(h, requests, out, |requests| - 1);
    forall j | 0 <= j < |requests| - 1 ensures h.canon(requests[j].path) != h.canon(s.path) {
      assert requests[j] in Without(list, s.path);
    }
  }

  lemma ThirdIsDropped(a: Share, b: Share, c: Share)
    requires !IsUnder(a.path, a.path) && a.readOnly != b.readOnly && IsUnder(c.path, a.path) && a.readOnly == c.readOnly
    ensures Kept([a, b, c]) == [a, b]
  {
    var ss := [a, b, c];
    assert ss[..2] == [a, b] && ss[..2][..1] == [a] && [a][..0] == [];
    assert Kept([a]) == [a];
    assert Kept([a, b]) == [a, b];
    assert a in [a, b] && Redundant(c, [a, b]);
  }

  /** The one family that loses its mode, on an example: a writable share in a
      read-only one in a writable one. */
  lemma WritableUnderReadOnlyUnderWritable(a: Share, b: Share, c: Share)
    requires a == Share("/a", false, "") && b == Share("/a/b", true, "") && c == Share("/a/b/c", false, "")
    ensures Deduped([a, b, c]) && Kept([a, b, c]) == [a, b] && !SameModes([a, b, c], [a, b])
  {
    UnderMeans(a.path, a.path);
    UnderMeans(b.path, a.path);
    UnderMeans(c.path, b.path);
    UnderMeans(c.path, a.path);
    PrefixIsLess(a.path, b.path);
    PrefixIsLess(b.path, c.path);
    PrefixIsLess(a.path, c.path);
    ThirdIsDropped(a, b, c);
    FlipChangesAMode([a, b, c], a, b, c);
  }
}
