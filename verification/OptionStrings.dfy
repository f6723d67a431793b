/**
  QEMU option strings: elements separated by single commas, where a doubled comma
  stands for one; and the saved command line that a resume is launched with.
 */
module OptionStrings {
  import opened Base

  // ----- Splitting and joining -----

  function Glue(p: string, parts: seq<string>): (r: seq<string>)
    requires parts != []
    ensures |r| == |parts| && r[0] == p + parts[0] && forall i :: 1 <= i < |r| ==> r[i] == parts[i]
  {
    [p + parts[0]] + parts[1..]
  }

  function Split(s: string): (r: seq<string>)
    ensures r != []
  {
    if s == "" then [""]
    else if s[0] != ',' then Glue(s[..1], Split(s[1..]))
    else if |s| >= 2 && s[1] == ',' then Glue(",,", Split(s[2..]))
    else [""] + Split(s[1..])
  }

  function Join(parts: seq<string>): string
    requires parts != []
  {
    if |parts| == 1 then parts[0] else parts[0] + "," + Join(parts[1..])
  }

  lemma JoinGlue(p: string, parts: seq<string>)
    requires parts != []
    ensures Join(Glue(p, parts)) == p + Join(parts)
  {
    assert Glue(p, parts)[1..] == parts[1..];
    if |parts| > 1 { assert p + parts[0] + "," + Join(parts[1..]) == p + (parts[0] + "," + Join(parts[1..])); }
  }

  /** Joining the split of any string gives the string back. */
  lemma {:induction false} JoinOfSplit(s: string)
    ensures Join(Split(s)) == s
  {
    if s == "" {
    } else if s[0] != ',' {
      JoinOfSplit(s[1..]);
      JoinGlue(s[..1], Split(s[1..]));
    } else if |s| >= 2 && s[1] == ',' {
      JoinOfSplit(s[2..]);
      JoinGlue(",,", Split(s[2..]));
      assert s == ",," + s[2..];
    } else {
      JoinOfSplit(s[1..]);
      assert ([""] + Split(s[1..]))[1..] == Split(s[1..]);
      assert s == "" + "," + s[1..];
    }
  }

  /** The string is one element: its commas come doubled. */
  predicate WellEscaped(e: string) { Split(e) == [e] }

  predicate StartsWithComma(s: string) { s != "" && s[0] == ',' }

  /** What a split looks like, and all that joining needs to be undone. */
  predicate Splittable(parts: seq<string>) {
    && parts != []
    && (forall i :: 0 <= i < |parts| ==> WellEscaped(parts[i]))
    && (forall i :: 1 <= i < |parts| ==> !StartsWithComma(parts[i]))
    && (forall i :: 1 <= i < |parts| - 1 ==> parts[i] != "")
  }

  lemma SplitHead(s: string)
    ensures StartsWithComma(Split(s)[0]) ==> |s| >= 2 && s[0] == ',' && s[1] == ','
    ensures Split(s)[0] == "" && |Split(s)| > 1 ==> s[0] == ','
  {
  }

  lemma SplitPlain(c: string, x: string)
    requires |c| == 1 && c[0] != ','
    ensures Split(c + x) == Glue(c, Split(x))
  {
    assert (c + x)[..1] == c && (c + x)[1..] == x;
  }

  lemma SplitDoubled(x: string)
    ensures Split(",," + x) == Glue(",,", Split(x))
  {
    assert (",," + x)[2..] == x;
  }

  lemma SplitSingle(r: string)
    requires !StartsWithComma(r)
    ensures Split("," + r) == [""] + Split(r)
  {
    assert ("," + r)[1..] == r;
  }

  lemma GlueOn(p: string, t: string, rest: seq<string>)
    ensures Glue(p, [t] + rest) == [p + t] + rest
  {
  }

  /** What can stand before the rest of an element: a character, or a doubled
      comma. */
  predicate Piece(p: string) { (|p| == 1 && p[0] != ',') || p == ",," }

  lemma SplitPiece(p: string, x: string)
    requires Piece(p)
    ensures Split(p + x) == Glue(p, Split(x))
  {
    if p == ",," { SplitDoubled(x); } else { SplitPlain(p, x); }
  }

  lemma GlueSplittable(p: string, rest: seq<string>)
    requires Piece(p) && Splittable(rest)
    ensures Splittable(Glue(p, rest))
  {
    SplitPiece(p, rest[0]);
    GlueOn(p, rest[0], []);
    hide Split;
  }

  lemma EmptyFirst(rest: seq<string>)
    requires Splittable(rest) && !StartsWithComma(rest[0]) && (|rest| > 1 ==> rest[0] != "")
    ensures Splittable([""] + rest)
  {
    assert WellEscaped("");
    hide Split;
  }

  lemma {:induction false} SplitIsSplittable(s: string)
    ensures Splittable(Split(s))
  {
    if s == "" {
      assert WellEscaped("");
    } else if s[0] != ',' || (|s| >= 2 && s[1] == ',') {
      hide Split, Glue, Splittable;
      var n := if s[0] == ',' then 2 else 1;
      assert s == s[..n] + s[n..] && (n == 2 ==> s[..n] == ",,");
      SplitPiece(s[..n], s[n..]);
      SplitIsSplittable(s[n..]);
      GlueSplittable(s[..n], Split(s[n..]));
    } else {
      SplitIsSplittable(s[1..]);
      SplitHead(s[1..]);
      EmptyFirst(Split(s[1..]));
    }
  }

  lemma {:induction false} SplitPastElement(e: string, r: string)
    requires WellEscaped(e) && !StartsWithComma(r)
    ensures Split(e + "," + r) == [e] + Split(r)
  {
    hide Split, Glue, WellEscaped;
    if e == "" {
      assert e + "," + r == "," + r;
      SplitSingle(r);
    } else {
      var n := if e[0] == ',' then 2 else 1;
      TailIsWellEscaped(e, n);
      var p, t := e[..n], e[n..];
      SplitPastElement(t, r);
      assert e + "," + r == p + (t + "," + r) && e == p + t;
      assert n == 2 ==> p == ",,";
      SplitPiece(p, t + "," + r);
      GlueOn(p, t, Split(r));
    }
  }

  lemma TailIsWellEscaped(e: string, n: nat)
    requires WellEscaped(e) && e != "" && n == (if e[0] == ',' then 2 else 1)
    ensures n <= |e| && WellEscaped(e[n..]) && (n == 2 ==> e[1] == ',')
  {
    if e[0] != ',' {
      assert Split(e) == Glue(e[..1], Split(e[1..]));
      assert |Split(e[1..])| == 1 && e == e[..1] + Split(e[1..])[0];
      assert Split(e[1..]) == [e[1..]];
    } else if |e| >= 2 && e[1] == ',' {
      assert Split(e) == Glue(",,", Split(e[2..]));
      assert |Split(e[2..])| == 1 && e == ",," + Split(e[2..])[0];
      assert Split(e[2..]) == [e[2..]];
    }
  }

  lemma RestIsSplittable(parts: seq<string>)
    requires Splittable(parts) && |parts| > 1
    ensures Splittable(parts[1..]) && WellEscaped(parts[0]) && !StartsWithComma(Join(parts[1..]))
  {
    var rest := parts[1..];
    hide WellEscaped;
    assert forall i :: 0 <= i < |rest| ==> rest[i] == parts[i + 1];
    if |rest| > 1 { assert rest[0] != "" && Join(rest)[0] == rest[0][0]; }
  }

  lemma {:induction false} SplitOfJoin(parts: seq<string>)
    requires Splittable(parts)
    ensures Split(Join(parts)) == parts
  {
    if |parts| > 1 {
      hide Splittable, Split, WellEscaped, StartsWithComma;
      RestIsSplittable(parts);
      SplitOfJoin(parts[1..]);
      SplitPastElement(parts[0], Join(parts[1..]));
    }
  }

  /** Exactly when splitting undoes joining: every element has its commas
      doubled, none after the first starts with one, and none between the first
      and the last is empty. */
  lemma SplitUndoesJoinExactly(parts: seq<string>)
    requires parts != []
    ensures Split(Join(parts)) == parts <==> Splittable(parts)
  {
    if Splittable(parts) {
      SplitOfJoin(parts);
    } else {
      SplitIsSplittable(Join(parts));
    }
  }

  // ----- Escaping -----

  function Escape(v: string): string {
    if v == "" then "" else if v[0] == ',' then ",," + Escape(v[1..]) else v[..1] + Escape(v[1..])
  }

  function Unescape(v: string): string {
    if v == "" then ""
    else if |v| >= 2 && v[0] == ',' && v[1] == ',' then "," + Unescape(v[2..])
    else v[..1] + Unescape(v[1..])
  }

  lemma {:induction false} UnescapeOfEscape(v: string)
    ensures Unescape(Escape(v)) == v && WellEscaped(Escape(v))
  {
    if v != "" {
      UnescapeOfEscape(v[1..]);
      var e := Escape(v);
      if v[0] == ',' {
        assert e[2..] == Escape(v[1..]);
        assert v == "," + v[1..];
      } else {
        assert e[1..] == Escape(v[1..]) && e[..1] == v[..1];
        assert v == v[..1] + v[1..];
      }
    }
  }

  lemma {:induction false} PlainThenEscaped(p: string, v: string)
    requires ',' !in p
    ensures WellEscaped(p + Escape(v))
  {
    if p == "" {
      UnescapeOfEscape(v);
      assert p + Escape(v) == Escape(v);
    } else {
      PlainThenEscaped(p[1..], v);
      var e := p + Escape(v);
      assert e[1..] == p[1..] + Escape(v) && e[..1] == p[..1];
      assert e == e[..1] + e[1..];
    }
  }

  // ----- Reading and setting options -----

  predicate HasKey(o: string, key: string) { key + "=" <= o }

  function OptGet(opts: seq<string>, key: string): string {
    if opts == [] then ""
    else if HasKey(opts[0], key) then Unescape(opts[0][|key| + 1..])
    else OptGet(opts[1..], key)
  }

  function OptSet(opts: seq<string>, key: string, value: string): (r: seq<string>)
    ensures |r| >= |opts| && (opts != [] ==> r != [])
  {
    if opts == [] then [key + "=" + Escape(value)]
    else if HasKey(opts[0], key) then [key + "=" + Escape(value)] + opts[1..]
    else [opts[0]] + OptSet(opts[1..], key, value)
  }

  /** What was set is read back exactly, whatever commas it has. */
  lemma {:induction false} GetAfterSet(opts: seq<string>, key: string, value: string)
    ensures OptGet(OptSet(opts, key, value), key) == value
  {
    var e := key + "=" + Escape(value);
    assert e[|key| + 1..] == Escape(value);
    UnescapeOfEscape(value);
    if opts != [] && !HasKey(opts[0], key) {
      GetAfterSet(opts[1..], key, value);
      assert OptSet(opts, key, value)[1..] == OptSet(opts[1..], key, value);
    }
  }

  lemma OneKey(o: string, a: string, b: string)
    requires HasKey(o, a) && HasKey(o, b) && '=' !in a && '=' !in b
    ensures a == b
  {
    assert o[|a|] == '=' && o[|b|] == '=';
    assert forall i :: 0 <= i < |a| ==> o[i] != '=' by { assert forall i :: 0 <= i < |a| ==> o[i] == a[i]; }
    assert forall i :: 0 <= i < |b| ==> o[i] != '=' by { assert forall i :: 0 <= i < |b| ==> o[i] == b[i]; }
    assert o[..|a|] == a && o[..|b|] == b;
  }

  /** Every other key reads as before. */
  lemma {:induction false} OthersAfterSet(opts: seq<string>, key: string, value: string, other: string)
    requires '=' !in key && '=' !in other && key != other
    ensures OptGet(OptSet(opts, key, value), other) == OptGet(opts, other)
  {
    var e := key + "=" + Escape(value);
    assert HasKey(e, key);
    if HasKey(e, other) { OneKey(e, key, other); }
    if opts == [] {
      assert OptSet(opts, key, value)[1..] == [];
    } else if HasKey(opts[0], key) {
      assert OptSet(opts, key, value)[1..] == opts[1..];
      if HasKey(opts[0], other) { OneKey(opts[0], key, other); }
    } else {
      OthersAfterSet(opts[1..], key, value, other);
      assert OptSet(opts, key, value)[1..] == OptSet(opts[1..], key, value);
    }
  }

  // ----- The loops, internal/backend/qemu/argvpin.go:187-234 -----

  lemma GlueNothing(parts: seq<string>)
    requires parts != []
    ensures Glue("", parts) == parts
  {
    assert "" + parts[0] == parts[0];
  }

  lemma GlueTwice(a: string, b: string, parts: seq<string>)
    requires parts != []
    ensures Glue(a, Glue(b, parts)) == Glue(a + b, parts)
  {
    assert a + (b + parts[0]) == (a + b) + parts[0];
  }

  /** One step of the scan, `pre` being the element read so far. */
  lemma ScanStep(pre: string, rest: string)
    requires rest != ""
    ensures rest[0] != ',' ==> Glue(pre, Split(rest)) == Glue(pre + rest[..1], Split(rest[1..]))
    ensures rest[0] == ',' && |rest| >= 2 && rest[1] == ',' ==>
      Glue(pre, Split(rest)) == Glue(pre + ",,", Split(rest[2..]))
    ensures rest[0] == ',' && (|rest| == 1 || rest[1] != ',') ==>
      Glue(pre, Split(rest)) == [pre] + Glue("", Split(rest[1..]))
  {
    if rest[0] != ',' {
      GlueTwice(pre, rest[..1], Split(rest[1..]));
    } else if |rest| >= 2 && rest[1] == ',' {
      GlueTwice(pre, ",,", Split(rest[2..]));
    } else {
      GlueNothing(Split(rest[1..]));
      assert pre + "" == pre;
      assert ([""] + Split(rest[1..]))[1..] == Split(rest[1..]);
    }
  }

  /** `out`, the element read up to i, and what is still to come. */
  predicate Scanned(s: string, out: seq<string>, start: nat, i: nat)
    requires start <= i <= |s|
  {
    out + Glue(s[start..i], Split(s[i..])) == Split(s)
  }

  lemma ScanStart(s: string)
    ensures Scanned(s, [], 0, 0)
  {
    assert s[0..] == s && s[0..0] == "";
    GlueNothing(Split(s));
  }

  lemma ScanOn(s: string, out: seq<string>, start: nat, i: nat, n: nat)
    requires start <= i < i + n <= |s| && Scanned(s, out, start, i)
    requires if s[i] == ',' then n == 2 && s[i + 1] == ',' else n == 1
    ensures Scanned(s, out, start, i + n)
  {
    var rest := s[i..];
    ScanStep(s[start..i], rest);
    assert rest[n..] == s[i + n..];
    assert s[start..i] + rest[..n] == s[start..i + n];
    if n == 2 { assert rest[..2] == ",,"; }
  }

  lemma ScanCut(s: string, out: seq<string>, start: nat, i: nat)
    requires start <= i < |s| && Scanned(s, out, start, i)
    requires s[i] == ',' && (i + 1 < |s| ==> s[i + 1] != ',')
    ensures Scanned(s, out + [s[start..i]], i + 1, i + 1)
  {
    hide Split, Glue;
    var rest := s[i..];
    ScanStep(s[start..i], rest);
    assert rest[1..] == s[i + 1..] && s[i + 1..i + 1] == "";
    assert out + ([s[start..i]] + Glue("", Split(rest[1..]))) == (out + [s[start..i]]) + Glue("", Split(rest[1..]));
  }

  lemma ScanEnd(s: string, out: seq<string>, start: nat)
    requires start <= |s| && Scanned(s, out, start, |s|)
    ensures out + [s[start..]] == Split(s)
  {
    assert s[|s|..] == "" && s[start..|s|] == s[start..];
    assert s[start..] + "" == s[start..];
    assert Glue(s[start..], [""]) == [s[start..]];
  }

  method SplitOpts(s: string) returns (out: seq<string>)
    ensures out == Split(s)
  {
    hide Split, Glue, Scanned;
    out := [];
    var start, i := 0, 0;
    ScanStart(s);
    while i < |s|
      invariant 0 <= start <= i <= |s| && Scanned(s, out, start, i)
    {
      if s[i] != ',' {
        ScanOn(s, out, start, i, 1);
        i := i + 1;
      } else if i + 1 < |s| && s[i + 1] == ',' {
        ScanOn(s, out, start, i, 2);
        i := i + 2;
      } else {
        ScanCut(s, out, start, i);
        out := out + [s[start..i]];
        start := i + 1;
        i := i + 1;
      }
    }
    ScanEnd(s, out, start);
    out := out + [s[start..]];
  }

  method OptGetLoop(opts: seq<string>, key: string) returns (v: string)
    ensures v == OptGet(opts, key)
  {
    var i := 0;
    while i < |opts|
      invariant 0 <= i <= |opts| && OptGet(opts[i..], key) == OptGet(opts, key)
    {
      if HasKey(opts[i], key) { return Unescape(opts[i][|key| + 1..]); }
      assert opts[i..][1..] == opts[i + 1..];
      i := i + 1;
    }
    v := "";
  }

  method OptSetLoop(opts: seq<string>, key: string, value: string) returns (out: seq<string>)
    ensures out == OptSet(opts, key, value)
  {
    var i := 0;
    while i < |opts|
      invariant 0 <= i <= |opts| && opts[..i] + OptSet(opts[i..], key, value) == OptSet(opts, key, value)
    {
      if HasKey(opts[i], key) {
        assert opts[i..][1..] == opts[i + 1..];
        return opts[i := key + "=" + Escape(value)];
      }
      assert opts[i..][1..] == opts[i + 1..] && opts[..i] + [opts[i]] == opts[..i + 1];
      i := i + 1;
    }
    assert opts[..i] == opts;
    out := opts + [key + "=" + Escape(value)];
  }

  // ----- Setting an option in a command line -----

  predicate Present(opts: seq<string>, key: string) { exists i :: 0 <= i < |opts| && HasKey(opts[i], key) }

  lemma SetElementFits(key: string, value: string)
    requires key != "" && ',' !in key
    ensures WellEscaped(key + "=" + Escape(value)) && !StartsWithComma(key + "=" + Escape(value))
  {
    PlainThenEscaped(key + "=", value);
  }

  lemma {:induction false} SetIsUpdateOrAppend(opts: seq<string>, key: string, value: string) returns (i: nat)
    ensures i <= |opts| && (i < |opts| <==> Present(opts, key))
    ensures OptSet(opts, key, value) ==
      if i < |opts| then opts[i := key + "=" + Escape(value)] else opts + [key + "=" + Escape(value)]
  {
    if opts == [] || HasKey(opts[0], key) {
      i := 0;
    } else {
      var rest := opts[1..];
      var j := SetIsUpdateOrAppend(rest, key, value);
      i := j + 1;
      assert opts == [opts[0]] + rest;
      if j < |rest| {
        var k :| 0 <= k < |rest| && HasKey(rest[k], key);
        assert HasKey(opts[k + 1], key);
      }
    }
  }

  lemma UpdateFits(parts: seq<string>, i: nat, e: string)
    requires Splittable(parts) && i < |parts| && WellEscaped(e) && !StartsWithComma(e) && e != ""
    ensures Splittable(parts[i := e])
  {
    hide Split, WellEscaped, StartsWithComma;
  }

  lemma AppendFits(parts: seq<string>, e: string)
    requires Splittable(parts) && WellEscaped(e) && !StartsWithComma(e)
    requires |parts| == 1 || parts[|parts| - 1] != ""
    ensures Splittable(parts + [e])
  {
    hide Split, WellEscaped, StartsWithComma;
  }

  /** An option set in an option string is there, element by element, when the
      string is split again: exactly unless it had to be added after a trailing
      comma. */
  lemma SetSurvivesResplitExactly(s: string, key: string, value: string)
    requires key != "" && ',' !in key
    ensures var opts := Split(s);
      Split(Join(OptSet(opts, key, value))) == OptSet(opts, key, value) <==>
      Present(opts, key) || |opts| == 1 || opts[|opts| - 1] != ""
  {
    var opts := Split(s);
    SplitIsSplittable(s);
    SetElementFits(key, value);
    var i := SetIsUpdateOrAppend(opts, key, value);
    SplitUndoesJoinExactly(OptSet(opts, key, value));
    var set_ := OptSet(opts, key, value);
    if i == |opts| && |opts| > 1 && opts[|opts| - 1] == "" {
      assert set_[|opts| - 1] == "" && 1 <= |opts| - 1 < |set_| - 1;
    } else {
      var e := key + "=" + Escape(value);
      hide Splittable, OptSet, WellEscaped;
      if i < |opts| { UpdateFits(opts, i, e); } else { AppendFits(opts, e); }
    }
  }

  /** Elements that do not come back: an empty one in the middle doubles a comma. */
  lemma AnEmptyMiddleIsLost()
    ensures !Splittable(["a", "", "b"]) && Split(Join(["a", "", "b"])) != ["a", "", "b"]
  {
    var parts := ["a", "", "b"];
    assert parts[1] == "" && 1 <= 1 < |parts| - 1;
    SplitUndoesJoinExactly(parts);
  }
}
