/**
  The command line a saved state was taken from, adapted for a resume: the machine
  type pinned, the migration source deferred, and vanished host paths replaced,
  with no change to the device model.
 */
module SavedArgv {
  import opened Base
  import opened OptionStrings

  type Argv = seq<string>

  // ----- The machine type -----

  predicate MachineFlag(s: string) { s == "-M" || s == "-machine" }

  predicate FlagAt(argv: Argv, j: nat) { j + 1 < |argv| && MachineFlag(argv[j]) }

  /** The index of the first machine flag's value. */
  function MachineValue(argv: Argv, from: nat): (r: Option<nat>)
    requires from <= |argv|
    ensures r.Some? ==> from < r.value < |argv| && FlagAt(argv, r.value - 1)
    ensures forall j :: from <= j < (if r.Some? then r.value - 1 else |argv|) ==> !FlagAt(argv, j)
    decreases |argv| - from
  {
    if from == |argv| then None
    else if FlagAt(argv, from) then Some(from + 1)
    else MachineValue(argv, from + 1)
  }

  function Pinned(value: string, t: string): string { Join([t] + Split(value)[1..]) }

  function WithMachineType(argv: Argv, t: string): Option<Argv> {
    var i := MachineValue(argv, 0);
    if i.None? then None else Some(argv[i.value := Pinned(argv[i.value], t)])
  }

  /** Pinning twice is pinning once exactly when the type is one element. */
  lemma PinnedTwiceExactly(value: string, t: string)
    ensures Pinned(Pinned(value, t), t) == Pinned(value, t) <==> WellEscaped(t)
  {
    var rest := Split(value)[1..];
    var v := Pinned(value, t);
    SplitIsSplittable(value);
    if WellEscaped(t) {
      assert Splittable([t] + rest);
      SplitOfJoin([t] + rest);
    }
    if Pinned(v, t) == v {
      var parts := Split(v);
      JoinOfSplit(v);
      SplitIsSplittable(v);
      assert parts == [parts[0]] + parts[1..];
      SameTailSameHead(t, parts[0], parts[1..]);
      assert WellEscaped(t);
    }
  }

  lemma SameTailSameHead(a: string, b: string, tail: seq<string>)
    requires Join([a] + tail) == Join([b] + tail)
    ensures a == b
  {
    assert ([a] + tail)[1..] == tail && ([b] + tail)[1..] == tail;
    var end := if tail == [] then "" else "," + Join(tail);
    assert Join([a] + tail) == a + end && Join([b] + tail) == b + end;
    assert |a| == |b|;
    assert (a + end)[..|a|] == a && (b + end)[..|b|] == b;
  }

  lemma SameMachineValue(argv: Argv, i: nat, v: string)
    requires MachineValue(argv, 0) == Some(i)
    ensures MachineValue(argv[i := v], 0) == Some(i)
  {
    var changed := argv[i := v];
    var k := MachineValue(changed, 0);
    assert FlagAt(argv, i - 1) && changed[i - 1] == argv[i - 1] && FlagAt(changed, i - 1);
    if k.Some? && k.value < i {
      assert FlagAt(argv, k.value - 1);
    }
  }

  // ----- Waiting for the saved state -----

  const Deferred := ["-incoming", "defer"]

  /** Every "-incoming defer" goes; any other "-incoming" is refused. */
  function Stripped(saved: Argv): Option<Argv> {
    if saved == [] then Some([])
    else if saved[0] == "-incoming" then
      if |saved| > 1 && saved[1] == "defer" then Stripped(saved[2..]) else None
    else
      var rest := Stripped(saved[1..]);
      if rest.None? then None else Some([saved[0]] + rest.value)
  }

  function IncomingArgv(saved: Argv, t: string): Option<Argv> {
    if "-daemonize" in saved || Stripped(saved).None? then None
    else
      var out := WithMachineType(Stripped(saved).value, t);
      if out.None? then None else Some(out.value + Deferred)
  }

  method StripIncoming(saved: Argv) returns (r: Option<Argv>)
    ensures r == Stripped(saved)
  {
    var out: Argv := [];
    var i := 0;
    assert saved[0..] == saved;
    while i < |saved|
      invariant 0 <= i <= |saved|
      invariant Stripped(saved).Some? <==> Stripped(saved[i..]).Some?
      invariant Stripped(saved).Some? ==> Stripped(saved).value == out + Stripped(saved[i..]).value
    {
      if saved[i] == "-incoming" {
        if i + 1 < |saved| && saved[i + 1] == "defer" {
          assert saved[i..][2..] == saved[i + 2..];
          i := i + 2;
          continue;
        }
        return None;
      }
      assert saved[i..][1..] == saved[i + 1..];
      out := out + [saved[i]];
      i := i + 1;
    }
    assert saved[i..] == [] && out + [] == out;
    r := Some(out);
  }

  lemma {:induction false} StrippedIsClean(saved: Argv)
    requires Stripped(saved).Some?
    ensures "-incoming" !in Stripped(saved).value
    ensures forall x :: x in Stripped(saved).value ==> x in saved
  {
    if saved != [] {
      if saved[0] == "-incoming" {
        StrippedIsClean(saved[2..]);
      } else {
        StrippedIsClean(saved[1..]);
      }
    }
  }

  lemma {:induction false} StripsPast(clean: Argv, rest: Argv)
    requires "-incoming" !in clean
    ensures Stripped(clean + rest) ==
      if Stripped(rest).None? then None else Some(clean + Stripped(rest).value)
  {
    if clean == [] {
      assert clean + rest == rest;
      if Stripped(rest).Some? { assert clean + Stripped(rest).value == Stripped(rest).value; }
    } else {
      assert (clean + rest)[1..] == clean[1..] + rest;
      StripsPast(clean[1..], rest);
      if Stripped(rest).Some? {
        assert [clean[0]] + (clean[1..] + Stripped(rest).value) == clean + Stripped(rest).value;
      }
    }
  }

  lemma StripsDeferred(clean: Argv)
    requires "-incoming" !in clean
    ensures Stripped(clean + Deferred) == Some(clean)
  {
    StripsPast(clean, Deferred);
    assert Deferred[2..] == [];
    assert Stripped(Deferred) == Some([]);
    assert clean + [] == clean;
  }

  lemma StripsFirstTwo(b: Argv)
    ensures Stripped(Deferred + b) == Stripped(b)
    ensures b == [] || b[0] != "defer" ==> Stripped(["-incoming"] + b).None?
  {
    var tail, other := Deferred + b, ["-incoming"] + b;
    assert tail[2..] == b && tail[0] == "-incoming" && tail[1] == "defer";
    assert other[0] == "-incoming" && (b != [] ==> other[1] == b[0]);
  }

  /** What stripping is: a line without "-incoming" stays, a deferred migration
      goes from wherever it stands, and any other "-incoming" refuses the line. */
  lemma StripsExactly(a: Argv, b: Argv)
    requires "-incoming" !in a
    ensures Stripped(a) == Some(a)
    ensures Stripped(a + Deferred + b) == if Stripped(b).None? then None else Some(a + Stripped(b).value)
    ensures b == [] || b[0] != "defer" ==> Stripped(a + ["-incoming"] + b).None?
  {
    assert Stripped([]) == Some([]);
    hide Stripped;
    assert a + [] == a;
    StripsPast(a, []);
    assert a + Deferred + b == a + (Deferred + b);
    StripsPast(a, Deferred + b);
    assert a + ["-incoming"] + b == a + (["-incoming"] + b);
    StripsPast(a, ["-incoming"] + b);
    StripsFirstTwo(b);
  }

  /** A machine flag with a value after it. */
  predicate TypesTheMachine(argv: Argv, j: nat) { 0 < |argv| - j - 1 && argv[j] in ["-machine", "-M"] }

  /** What a resume is launched with: the saved line without its deferred
      migrations, the first machine flag's value reading back as the pinned type
      with its other options as saved, and "-incoming defer" at the end. It is
      refused exactly for a daemonized line, another migration, or no machine
      flag. */
  lemma IncomingArgvIs(saved: Argv, t: string)
    requires WellEscaped(t)
    ensures IncomingArgv(saved, t).None? <==>
      || "-daemonize" in saved || Stripped(saved).None?
      || forall j :: 0 <= j < |Stripped(saved).value| ==> !TypesTheMachine(Stripped(saved).value, j)
    ensures IncomingArgv(saved, t).Some? ==>
      var st, out := Stripped(saved).value, IncomingArgv(saved, t).value;
      && |out| == |st| + 2 && out[|st|] == "-incoming" && out[|st| + 1] == "defer"
      && exists i :: 0 < i < |st| && TypesTheMachine(st, i - 1)
           && (forall j :: 0 <= j < i - 1 ==> !TypesTheMachine(st, j))
           && Split(out[i])[0] == t && Split(out[i])[1..] == Split(st[i])[1..]
           && forall j :: 0 <= j < |st| && j != i ==> out[j] == st[j]
  {
    FlagTypesTheMachine();
    if IncomingArgv(saved, t).Some? {
      var st, out := Stripped(saved).value, IncomingArgv(saved, t).value;
      var i := MachineValue(st, 0).value;
      PinnedReadsBack(st[i], t);
      assert out[i] == Pinned(st[i], t);
    }
  }

  lemma FlagTypesTheMachine()
    ensures forall argv, j: nat :: FlagAt(argv, j) <==> TypesTheMachine(argv, j)
  {
  }

  lemma PinnedReadsBack(value: string, t: string)
    requires WellEscaped(t)
    ensures Split(Pinned(value, t))[0] == t && Split(Pinned(value, t))[1..] == Split(value)[1..]
  {
    var rest := Split(value)[1..];
    SplitIsSplittable(value);
    assert Splittable([t] + rest);
    SplitOfJoin([t] + rest);
    assert ([t] + rest)[1..] == rest;
  }

  /** An "-incoming" that pinning produced is not there any more afterwards. */
  lemma StripsAFlagValue(st: Argv, i: nat)
    requires i < |st| && st[i] == "-incoming" && "-incoming" !in st[..i] && "-incoming" !in st[i + 1..]
    ensures var r := Stripped(st + Deferred); r.Some? ==> |r.value| < |st|
  {
    var rest := st[i..] + Deferred;
    assert st + Deferred == st[..i] + rest;
    StripsPast(st[..i], rest);
    if i + 1 < |st| && st[i + 1] == "defer" {
      assert rest[2..] == st[i + 2..] + Deferred;
      assert st[i + 2..] == st[i + 1..][1..];
      StripsDeferred(st[i + 2..]);
    } else {
      assert rest[0] == "-incoming" && rest[1] == if i + 1 < |st| then st[i + 1] else "-incoming";
    }
  }

  /** A resumed machine's command line resumes unchanged: exactly when the pinned
      type is one element and pinning did not forge one of jm's own flags. */
  lemma IncomingTwiceExactly(saved: Argv, t: string, out: Argv)
    requires IncomingArgv(saved, t) == Some(out)
    ensures var st := Stripped(saved).value;
      var value := Pinned(st[MachineValue(st, 0).value], t);
      IncomingArgv(out, t) == Some(out) <==>
        WellEscaped(t) && value != "-daemonize" && value != "-incoming"
  {
    var st := Stripped(saved).value;
    var i := MachineValue(st, 0).value;
    var value := Pinned(st[i], t);
    var pinned := st[i := value];
    StrippedIsClean(saved);
    SameMachineValue(st, i, value);
    PinnedTwiceExactly(st[i], t);
    assert out == pinned + Deferred;
    if value == "-daemonize" {
      assert out[i] == "-daemonize";
    } else if value == "-incoming" {
      assert forall x :: x in pinned[..i] || x in pinned[i + 1..] ==> x in st;
      StripsAFlagValue(pinned, i);
    } else {
      assert forall x :: x in pinned ==> x in st || x == value;
      StripsDeferred(pinned);
      assert "-daemonize" !in out;
      assert pinned[i := Pinned(value, t)] == pinned <==> Pinned(value, t) == value;
      var again := WithMachineType(pinned, t).value;
      assert again + Deferred == out ==> again == (again + Deferred)[..|again|] == out[..|pinned|] == pinned;
    }
  }

  /** A versioned machine type, the only kind a resume pins, is such a type. */
  lemma PlainTypesResumeUnchanged(saved: Argv, t: string, out: Argv)
    requires IncomingArgv(saved, t) == Some(out)
    requires t != "" && t[0] != '-' && ',' !in t
    ensures IncomingArgv(out, t) == Some(out)
  {
    IncomingTwiceExactly(saved, t, out);
    PlainThenEscaped(t, "");
    assert t + Escape("") == t;
    var st := Stripped(saved).value;
    var rest := Split(st[MachineValue(st, 0).value])[1..];
    assert Join([t] + rest)[0] == t[0] by {
      assert ([t] + rest)[1..] == rest;
    }
  }

  // ----- Vanished host paths -----

  /** The host: which paths exist, and the directory and firmware directory. */
  datatype Host = Host(exist: string -> bool, dir: string, firmware: string, makesDirs: bool)

  const FirmwareCode := "edk2-aarch64-code.fd"

  function BaseName(p: string): string {
    if p == "" || p[|p| - 1] == '/' then "" else BaseName(p[..|p| - 1]) + [p[|p| - 1]]
  }

  function Placeholder(h: Host, tag: string): string { h.dir + "/guest/absent/" + tag }

  /** The mount tag that a 9p device line gives an fsdev, the last one counting. */
  function TagOf(argv: Argv, id: string): string {
    if |argv| < 2 then ""
    else
      var opts := Split(argv[|argv| - 1]);
      if argv[|argv| - 2] == "-device" && "virtio-9p" <= opts[0]
         && OptGet(opts, "fsdev") == id != "" && OptGet(opts, "mount_tag") != ""
      then OptGet(opts, "mount_tag")
      else TagOf(argv[..|argv| - 1], id)
  }

  datatype Fit = Keep | Replace(value: string, tag: string) | Unusable

  predicate UsableTag(tag: string) { tag != "" && '/' !in tag && '\\' !in tag }

  function ReadOnlyAt(opts: seq<string>, path: string): seq<string> {
    var set_ := OptSet(opts, "path", path);
    if OptGet(set_, "readonly") == "on" then set_ else OptSet(set_, "readonly", "on")
  }

  function ShareTagOf(argv: Argv, opts: seq<string>): string {
    var tag := TagOf(argv, OptGet(opts, "id"));
    if tag == "" then OptGet(opts, "id") else tag
  }

  function FitShare(h: Host, argv: Argv, value: string): Fit {
    var opts := Split(value);
    var path := OptGet(opts, "path");
    if path == "" || h.exist(path) then Keep
    else
      var tag := ShareTagOf(argv, opts);
      if !UsableTag(tag) || !h.makesDirs then Unusable
      else Replace(JoinAll(ReadOnlyAt(opts, Placeholder(h, tag))), tag)
  }

  function JoinAll(opts: seq<string>): string { if opts == [] then "" else Join(opts) }

  function FitFirmware(h: Host, value: string): Fit {
    var opts := Split(value);
    var file := OptGet(opts, "file");
    if OptGet(opts, "if") != "pflash" || OptGet(opts, "readonly") != "on"
       || file == "" || h.firmware == "" || h.exist(file)
    then Keep
    else
      var moved := h.firmware + "/" + BaseName(file);
      Replace(JoinAll(OptSet(opts, "file", if h.exist(moved) then moved else h.firmware + "/" + FirmwareCode)), "")
  }

  /** What becomes of argument i, which only the argument before it decides. */
  function FitAt(h: Host, argv: Argv, i: nat): Fit
    requires i < |argv|
  {
    if i == 0 then Keep
    else if argv[i - 1] == "-fsdev" then FitShare(h, argv, argv[i])
    else if argv[i - 1] == "-drive" then FitFirmware(h, argv[i])
    else Keep
  }

  lemma {:induction false} NoCommaIsOneElement(s: string)
    requires ',' !in s
    ensures Split(s) == [s]
  {
    if s != "" {
      NoCommaIsOneElement(s[1..]);
      assert s[..1] + s[1..] == s;
    }
  }

  predicate Flag(s: string) { s == "-fsdev" || s == "-drive" || s == "-device" }

  lemma FlagHasNoOption(flag: string, key: string)
    requires Flag(flag) && key != "" && key[0] != '-'
    ensures OptGet(Split(flag), key) == ""
  {
    NoCommaIsOneElement(flag);
    assert (key + "=")[0] == key[0] && flag[0] == '-';
    assert [flag][1..] == [];
  }

  lemma {:induction false} JoinHolds(parts: seq<string>, i: nat, c: char)
    requires i < |parts| && c in parts[i]
    ensures c in Join(parts)
  {
    if i > 0 {
      JoinHolds(parts[1..], i - 1, c);
    }
  }

  lemma SetHolds(opts: seq<string>, key: string, value: string)
    ensures exists i :: 0 <= i < |OptSet(opts, key, value)| && '=' in OptSet(opts, key, value)[i]
  {
    var i := SetIsUpdateOrAppend(opts, key, value);
    assert (key + "=" + Escape(value))[|key|] == '=';
    assert '=' in OptSet(opts, key, value)[i];
  }

  /** What replaces an argument is an option string, never a flag. */
  lemma ReplacedIsNoFlag(h: Host, argv: Argv, value: string)
    ensures FitShare(h, argv, value).Replace? ==> !Flag(FitShare(h, argv, value).value)
    ensures FitFirmware(h, value).Replace? ==> !Flag(FitFirmware(h, value).value)
  {
    SetIsNoFlag(Split(value), "path", Placeholder(h, ShareTagOf(argv, Split(value))));
    SetIsNoFlag(OptSet(Split(value), "path", Placeholder(h, ShareTagOf(argv, Split(value)))), "readonly", "on");
    var moved := h.firmware + "/" + BaseName(OptGet(Split(value), "file"));
    SetIsNoFlag(Split(value), "file", moved);
    SetIsNoFlag(Split(value), "file", h.firmware + "/" + FirmwareCode);
  }

  lemma SetIsNoFlag(opts: seq<string>, key: string, value: string)
    ensures !Flag(JoinAll(OptSet(opts, key, value)))
  {
    SetHolds(opts, key, value);
    var set_ := OptSet(opts, key, value);
    var i :| 0 <= i < |set_| && '=' in set_[i];
    JoinHolds(set_, i, '=');
    assert '=' in JoinAll(set_);
  }

  /** A flag is kept, and what is replaced was and is none. */
  lemma FlagsStay(h: Host, argv: Argv, i: nat)
    requires i < |argv|
    ensures Flag(argv[i]) ==> FitAt(h, argv, i).Keep?
    ensures FitAt(h, argv, i).Replace? ==> !Flag(FitAt(h, argv, i).value)
  {
    ReplacedIsNoFlag(h, argv, argv[i]);
    if Flag(argv[i]) {
      FlagHasNoOption(argv[i], "path");
      FlagHasNoOption(argv[i], "file");
    }
  }

  /** Argument i once it has been looked at. */
  function Fitted(h: Host, argv: Argv, i: nat): string
    requires i < |argv|
  {
    if FitAt(h, argv, i).Replace? then FitAt(h, argv, i).value else argv[i]
  }

  predicate Refused(h: Host, argv: Argv, i: nat)
    requires i < |argv|
  {
    FitAt(h, argv, i).Unusable?
  }

  /** Arguments up to i are fitted, the rest are as they were. */
  predicate FittedTo(h: Host, argv: Argv, out: Argv, i: nat) {
    && |out| == |argv|
    && (forall j :: 0 <= j <= i && j < |argv| ==> out[j] == Fitted(h, argv, j) && !Refused(h, argv, j))
    && (forall j :: i < j < |argv| ==> out[j] == argv[j])
  }

  lemma FittedMore(h: Host, argv: Argv, out: Argv, i: nat)
    requires i + 1 < |argv| && FittedTo(h, argv, out, i) && !Refused(h, argv, i + 1)
    ensures FittedTo(h, argv, out[i + 1 := Fitted(h, argv, i + 1)], i + 1)
  {
  }

  lemma FirstIsKept(h: Host, argv: Argv)
    ensures argv != [] ==> Fitted(h, argv, 0) == argv[0] && !Refused(h, argv, 0)
  {
  }

  lemma FlagsAreCurrent(h: Host, argv: Argv, out: Argv, i: nat)
    requires i < |argv| && FittedTo(h, argv, out, i)
    ensures Flag(out[i]) || Flag(argv[i]) ==> out[i] == argv[i]
  {
    FlagsStay(h, argv, i);
  }

  /** resolveSavedArgv: each argument is kept or refitted on its own, or the
      whole command line is refused. */
  method ResolveSavedArgv(h: Host, argv: Argv) returns (r: Option<Argv>)
    ensures r.None? <==> exists i :: 0 <= i < |argv| && Refused(h, argv, i)
    ensures r.Some? ==> |r.value| == |argv| && forall i :: 0 <= i < |argv| ==> r.value[i] == Fitted(h, argv, i)
  {
    hide FitAt, FitShare, FitFirmware;
    var out := argv;
    var i := 0;
    FirstIsKept(h, argv);
    while i + 1 < |argv|
      invariant 0 <= i && (i < |argv| || argv == []) && FittedTo(h, argv, out, i)
    {
      FlagsAreCurrent(h, argv, out, i);
      var fit := FitNext(h, argv, out, i);
      if fit.Unusable? { return None; }
      FittedMore(h, argv, out, i);
      if fit.Replace? { out := out[i + 1 := fit.value]; }
      i := i + 1;
    }
    r := Some(out);
  }

  method FitNext(h: Host, argv: Argv, out: Argv, i: nat) returns (fit: Fit)
    requires i + 1 < |argv| == |out| && out[i + 1] == argv[i + 1]
    requires Flag(out[i]) || Flag(argv[i]) ==> out[i] == argv[i]
    ensures fit.Unusable? <==> Refused(h, argv, i + 1)
    ensures Fitted(h, argv, i + 1) == if fit.Replace? then fit.value else out[i + 1]
  {
    if out[i] == "-fsdev" {
      fit := FitShare(h, argv, out[i + 1]);
    } else if out[i] == "-drive" {
      fit := FitFirmware(h, out[i + 1]);
    } else {
      fit := Keep;
    }
  }

  /** No device line changes: ids, tags and pinned addresses are as saved. */
  lemma DeviceLinesAreUntouched(h: Host, argv: Argv, i: nat)
    requires i + 1 < |argv| && argv[i] == "-device"
    ensures Fitted(h, argv, i) == "-device" && Fitted(h, argv, i + 1) == argv[i + 1]
  {
    FlagsStay(h, argv, i);
  }

  lemma ReadOnlyAtIs(opts: seq<string>, path: string, key: string)
    requires Splittable(opts) && opts[|opts| - 1] != "" && '=' !in key && key != "path" && key != "readonly"
    ensures var r := ReadOnlyAt(opts, path);
      && Splittable(r)
      && OptGet(r, "path") == path && OptGet(r, "readonly") == "on" && OptGet(r, key) == OptGet(opts, key)
  {
    hide Splittable, OptSet, OptGet, Split;
    var set_ := OptSet(opts, "path", path);
    GetAfterSet(opts, "path", path);
    OthersAfterSet(opts, "path", path, key);
    SetIsSplittable(opts, "path", path);
    GetAfterSet(set_, "readonly", "on");
    OthersAfterSet(set_, "readonly", "on", key);
    OthersAfterSet(set_, "readonly", "on", "path");
    SetIsSplittable(set_, "readonly", "on");
  }

  /** A share whose host path is gone is read back, by key, as the placeholder
      under its tag, read-only, under the id its device refers to. Nothing else
      of the option string changes. A string that ends in a comma is one jm never
      writes. */
  lemma VanishedShareIsReplaced(h: Host, argv: Argv, value: string, key: string)
    requires FitShare(h, argv, value).Replace? && Split(value)[|Split(value)| - 1] != ""
    requires '=' !in key && key != "path" && key != "readonly"
    ensures var fit := FitShare(h, argv, value);
      var opts := Split(fit.value);
      && OptGet(opts, "path") == h.dir + "/guest/absent/" + fit.tag
      && OptGet(opts, "readonly") == "on"
      && OptGet(opts, key) == OptGet(Split(value), key)
  {
    var fit := FitShare(h, argv, value);
    SplitIsSplittable(value);
    ReadOnlyAtIs(Split(value), Placeholder(h, fit.tag), key);
    SplitOfJoin(ReadOnlyAt(Split(value), Placeholder(h, fit.tag)));
  }

  // ----- What is replaced, and by what -----

  /** The device line at i gives an fsdev its mount tag. */
  predicate TagsAt(argv: Argv, i: nat, id: string) {
    && 0 < i < |argv| && argv[i - 1] == "-device" && "virtio-9p" <= Split(argv[i])[0]
    && id != "" && OptGet(Split(argv[i]), "fsdev") == id && OptGet(Split(argv[i]), "mount_tag") != ""
  }

  lemma SameTagsAt(argv: Argv, i: nat, id: string)
    requires argv != [] && i < |argv| - 1
    ensures TagsAt(argv, i, id) <==> TagsAt(argv[..|argv| - 1], i, id)
  {
    hide Split, OptGet;
    var init := argv[..|argv| - 1];
    assert argv[i] == init[i] && (i > 0 ==> argv[i - 1] == init[i - 1]);
  }

  /** The tag of an fsdev is that of the last device line that gives it one. */
  predicate LastTag(argv: Argv, i: nat, id: string, tag: string) {
    && i < |argv| && TagsAt(argv, i, id) && OptGet(Split(argv[i]), "mount_tag") == tag
    && forall j :: i < j < |argv| ==> !TagsAt(argv, j, id)
  }

  lemma TagOfLast(argv: Argv, id: string)
    requires |argv| >= 2
    ensures TagOf(argv, id) ==
      if TagsAt(argv, |argv| - 1, id) then OptGet(Split(argv[|argv| - 1]), "mount_tag")
      else TagOf(argv[..|argv| - 1], id)
  {
    hide Split, OptGet;
  }

  lemma {:induction false} TagIsTheLastDevices(argv: Argv, id: string)
    ensures TagOf(argv, id) == "" <==> forall i :: 0 <= i < |argv| ==> !TagsAt(argv, i, id)
    ensures TagOf(argv, id) != "" ==> exists i: nat :: LastTag(argv, i, id, TagOf(argv, id))
    decreases |argv|
  {
    if |argv| >= 2 {
      var init, last := argv[..|argv| - 1], |argv| - 1;
      TagIsTheLastDevices(init, id);
      TagOfLast(argv, id);
      hide TagOf, Split, OptGet;
      assert TagsAt(argv, last, id) ==> OptGet(Split(argv[last]), "mount_tag") != "";
      hide TagsAt;
      forall i | 0 <= i < last ensures TagsAt(argv, i, id) <==> TagsAt(init, i, id) { SameTagsAt(argv, i, id); }
      if TagsAt(argv, last, id) {
        assert LastTag(argv, last, id, TagOf(argv, id));
      } else if TagOf(argv, id) != "" {
        var i: nat :| LastTag(init, i, id, TagOf(init, id));
        assert argv[i] == init[i] && LastTag(argv, i, id, TagOf(argv, id));
      }
    }
  }

  /** The part of a path after its last slash. */
  lemma {:induction false} BaseNameIsTheEnd(p: string)
    ensures '/' !in BaseName(p) && |BaseName(p)| <= |p| && p[|p| - |BaseName(p)|..] == BaseName(p)
    ensures |BaseName(p)| < |p| ==> p[|p| - |BaseName(p)| - 1] == '/'
  {
    if p != "" && p[|p| - 1] != '/' {
      var init := p[..|p| - 1];
      BaseNameIsTheEnd(init);
      var name := BaseName(init);
      assert BaseName(p) == name + [p[|p| - 1]];
      hide BaseName;
      assert p == init + [p[|p| - 1]];
      assert p[|init| - |name|..] == init[|init| - |name|..] + [p[|p| - 1]];
    }
  }

  /** A share is kept exactly while its path is there, or it has none; one that has
      gone is replaced, under its device's tag or its own id, exactly if that is a
      plain name and its placeholder can be made. */
  lemma SharesFitExactly(h: Host, argv: Argv, value: string)
    ensures var path, id := OptGet(Split(value), "path"), OptGet(Split(value), "id");
      var tag := if TagOf(argv, id) != "" then TagOf(argv, id) else id;
      && (FitShare(h, argv, value).Keep? <==> path == "" || h.exist(path))
      && (FitShare(h, argv, value).Replace? <==>
            path != "" && !h.exist(path) && h.makesDirs && tag != "" && '/' !in tag && '\\' !in tag)
      && (FitShare(h, argv, value).Replace? ==> FitShare(h, argv, value).tag == tag)
  {
  }

  predicate FirmwareGone(h: Host, value: string) {
    var opts := Split(value);
    && OptGet(opts, "if") == "pflash" && OptGet(opts, "readonly") == "on"
    && OptGet(opts, "file") != "" && !h.exist(OptGet(opts, "file"))
  }

  /** A firmware drive whose file has gone reads back as the file of that name in
      the firmware directory, if it is there, else as the code image in it, with
      every other option as saved. Any other drive is kept. */
  lemma FirmwareFitsExactly(h: Host, value: string, key: string)
    requires Split(value)[|Split(value)| - 1] != "" && '=' !in key && key != "file"
    ensures FitFirmware(h, value).Keep? <==> !FirmwareGone(h, value) || h.firmware == ""
    ensures !FitFirmware(h, value).Unusable?
    ensures FitFirmware(h, value).Replace? ==>
      var opts := Split(FitFirmware(h, value).value);
      var moved := h.firmware + "/" + BaseName(OptGet(Split(value), "file"));
      && OptGet(opts, "file") == (if h.exist(moved) then moved else h.firmware + "/edk2-aarch64-code.fd")
      && OptGet(opts, key) == OptGet(Split(value), key)
  {
    var opts := Split(value);
    var moved := h.firmware + "/" + BaseName(OptGet(opts, "file"));
    var file := if h.exist(moved) then moved else h.firmware + "/" + FirmwareCode;
    hide Split, OptGet, OptSet, BaseName;
    SetReadsBack(value, "file", file, key);
  }

  /** One option set in an option string: it reads back, and every other as before. */
  lemma SetReadsBack(value: string, key: string, v: string, other: string)
    requires Split(value)[|Split(value)| - 1] != "" && key != "" && ',' !in key && '=' !in key
    requires '=' !in other && other != key
    ensures var opts := Split(JoinAll(OptSet(Split(value), key, v)));
      OptGet(opts, key) == v && OptGet(opts, other) == OptGet(Split(value), other)
  {
    hide Splittable, OptSet, OptGet, Split, WellEscaped;
    var opts := Split(value);
    SplitIsSplittable(value);
    SetIsSplittable(opts, key, v);
    SplittableHasAny(OptSet(opts, key, v));
    SplitOfJoin(OptSet(opts, key, v));
    GetAfterSet(opts, key, v);
    OthersAfterSet(opts, key, v, other);
  }

  lemma SplittableHasAny(opts: seq<string>)
    requires Splittable(opts)
    ensures opts != []
  {
  }

  lemma SetIsSplittable(opts: seq<string>, key: string, value: string)
    requires Splittable(opts) && opts[|opts| - 1] != "" && key != "" && ',' !in key
    ensures var r := OptSet(opts, key, value); Splittable(r) && r[|r| - 1] != ""
  {
    hide Splittable, OptSet, WellEscaped, Escape, Present, StartsWithComma;
    var e := key + "=" + Escape(value);
    SetElementFits(key, value);
    var i := SetIsUpdateOrAppend(opts, key, value);
    assert opts != [] by { SplittableHasAny(opts); }
    if i < |opts| { UpdateFits(opts, i, e); } else { AppendFits(opts, e); }
  }

  // ----- The share devices, internal/backend/qemu/argv.go:190-217 -----

  datatype ShareDevice = ShareDevice(id: string, path: string, tag: string, readOnly: bool)

  const FirstSlot := 8
  const Slots := 32

  function HexDigit(d: nat): char
    requires d < 16
  {
    if d < 10 then '0' + d as char else 'a' + (d - 10) as char
  }

  function Hex(n: nat): string
    requires n < 256
  {
    if n < 16 then [HexDigit(n)] else [HexDigit(n / 16), HexDigit(n % 16)]
  }

  function FsdevOpts(d: ShareDevice, model: string): seq<string> {
    ["local", "id=" + d.id, "path=" + Escape(d.path), "security_model=" + model, "multidevs=remap"]
    + if d.readOnly then ["readonly=on"] else []
  }

  function DeviceOpts(d: ShareDevice, slot: nat): seq<string>
    requires slot < 256
  {
    ["virtio-9p-pci", "fsdev=" + d.id, "mount_tag=" + d.tag, "addr=0x" + Hex(slot)]
  }

  /** Each share's pair of lines, at the next slot. */
  method ShareArgs(ds: seq<ShareDevice>, model: string) returns (args: Argv)
    requires |ds| <= Slots - FirstSlot
    ensures |args| == 4 * |ds|
    ensures forall i :: 0 <= i < |ds| ==>
      && args[4 * i] == "-fsdev" && args[4 * i + 1] == Join(FsdevOpts(ds[i], model))
      && args[4 * i + 2] == "-device" && args[4 * i + 3] == Join(DeviceOpts(ds[i], FirstSlot + i))
  {
    args := [];
    var addr, i := FirstSlot, 0;
    while i < |ds|
      invariant 0 <= i <= |ds| && addr == FirstSlot + i && |args| == 4 * i
      invariant forall j :: 0 <= j < i ==>
        && args[4 * j] == "-fsdev" && args[4 * j + 1] == Join(FsdevOpts(ds[j], model))
        && args[4 * j + 2] == "-device" && args[4 * j + 3] == Join(DeviceOpts(ds[j], FirstSlot + j))
    {
      args := args + ["-fsdev", Join(FsdevOpts(ds[i], model)), "-device", Join(DeviceOpts(ds[i], addr))];
      addr := addr + 1;
      i := i + 1;
    }
  }

  function DigitValue(c: char): Option<nat> {
    if '0' <= c <= '9' then Some((c - '0') as nat)
    else if 'a' <= c <= 'f' then Some((c - 'a') as nat + 10)
    else None
  }

  /** What a hexadecimal numeral stands for. */
  function HexValue(s: string): Option<nat> {
    if s == "" then Some(0)
    else
      var high, low := HexValue(s[..|s| - 1]), DigitValue(s[|s| - 1]);
      if high.Some? && low.Some? then Some(high.value * 16 + low.value) else None
  }

  lemma HexReadsBack(n: nat)
    requires n < 256
    ensures HexValue(Hex(n)) == Some(n)
  {
    var s := Hex(n);
    if n >= 16 {
      assert s[..1] == [HexDigit(n / 16)] && s[..1][..0] == "";
      assert HexValue(s[..1]) == Some(n / 16);
    }
  }

  lemma {:induction false} EscapeOfPlain(v: string)
    requires ',' !in v
    ensures Escape(v) == v
  {
    if v != "" {
      EscapeOfPlain(v[1..]);
      assert v[..1] + v[1..] == v;
    }
  }

  lemma FirstCharDiffers(o: string, key: string)
    requires o != "" && key != "" && o[0] != key[0]
    ensures !HasKey(o, key)
  {
    assert (key + "=")[0] == key[0];
  }

  /** A list of plain elements, but for one with its commas doubled. */
  lemma PlainButOne(parts: seq<string>, k: nat)
    requires k < |parts| && WellEscaped(parts[k]) && parts[k] != "" && parts[k][0] != ','
    requires forall i :: 0 <= i < |parts| && i != k ==> parts[i] != "" && ',' !in parts[i]
    ensures Splittable(parts)
  {
    forall i | 0 <= i < |parts| && i != k ensures WellEscaped(parts[i]) { NoCommaIsOneElement(parts[i]); }
  }

  lemma DeviceOptsSplittable(d: ShareDevice, slot: nat)
    requires slot < 256 && ',' !in d.id && ',' !in d.tag
    ensures Splittable(DeviceOpts(d, slot))
  {
    var o := DeviceOpts(d, slot);
    NoCommaIsOneElement(o[1]);
    PlainButOne(o, 1);
  }

  lemma DeviceKeysDiffer(d: ShareDevice, slot: nat)
    requires slot < 256
    ensures var o := DeviceOpts(d, slot);
      && !HasKey(o[0], "fsdev") && !HasKey(o[0], "mount_tag") && !HasKey(o[1], "mount_tag")
      && !HasKey(o[0], "addr") && !HasKey(o[1], "addr") && !HasKey(o[2], "addr")
  {
    var o := DeviceOpts(d, slot);
    FirstCharDiffers(o[0], "fsdev");
    FirstCharDiffers(o[0], "mount_tag");
    FirstCharDiffers(o[1], "mount_tag");
    FirstCharDiffers(o[0], "addr");
    FirstCharDiffers(o[1], "addr");
    FirstCharDiffers(o[2], "addr");
  }

  /** A device line reads back, by key, as its fsdev, its tag and its slot. */
  lemma DeviceReadsBack(d: ShareDevice, slot: nat)
    requires slot < 256 && ',' !in d.id && ',' !in d.tag
    ensures var opts := Split(Join(DeviceOpts(d, slot)));
      && opts[0] == "virtio-9p-pci" && OptGet(opts, "fsdev") == d.id && OptGet(opts, "mount_tag") == d.tag
      && "0x" <= OptGet(opts, "addr") && HexValue(OptGet(opts, "addr")[2..]) == Some(slot)
  {
    HexReadsBack(slot);
    var o := DeviceOpts(d, slot);
    DeviceOptsSplittable(d, slot);
    SplitOfJoin(o);
    DeviceFields(o, d, slot);
  }

  lemma DeviceFields(o: seq<string>, d: ShareDevice, slot: nat)
    requires slot < 256 && ',' !in d.id && ',' !in d.tag && o == DeviceOpts(d, slot)
    ensures OptGet(o, "fsdev") == d.id && OptGet(o, "mount_tag") == d.tag && OptGet(o, "addr") == SlotText(slot)
  {
    DeviceKeysDiffer(d, slot);
    ReadsPlain(o, 1, "fsdev", d.id);
    ReadsPlain(o, 2, "mount_tag", d.tag);
    AddressElement(o[3], Hex(slot));
    ReadsPlain(o, 3, "addr", SlotText(slot));
  }

  function SlotText(slot: nat): (r: string)
    requires slot < 256
    ensures ',' !in r
  {
    "0x" + Hex(slot)
  }

  lemma AddressElement(e: string, digits: string)
    requires e == "addr=0x" + digits
    ensures e == "addr" + "=" + ("0x" + digits)
  {
  }

  lemma ReadsPlain(opts: seq<string>, i: nat, key: string, value: string)
    requires i < |opts| && opts[i] == key + "=" + value && ',' !in value
    requires forall j :: 0 <= j < i ==> !HasKey(opts[j], key)
    ensures OptGet(opts, key) == value
  {
    EscapeOfPlain(value);
    ReadsBack(opts, i, key, value);
  }

  lemma FsdevOptsSplittable(d: ShareDevice, model: string)
    requires ',' !in d.id && ',' !in model
    ensures Splittable(FsdevOpts(d, model))
  {
    var o := FsdevOpts(d, model);
    PathElement(o[2], d.path);
    PlainButOne(o, 2);
  }

  lemma PathElement(e: string, path: string)
    requires e == "path=" + Escape(path)
    ensures WellEscaped(e) && e != "" && e[0] == 'p'
  {
    assert ',' !in "path=";
    PlainThenEscaped("path=", path);
  }

  lemma FsdevKeysDiffer(d: ShareDevice, model: string)
    ensures var o := FsdevOpts(d, model);
      && !HasKey(o[0], "id") && !HasKey(o[0], "path") && !HasKey(o[1], "path")
      && (forall i :: 0 <= i < 3 ==> !HasKey(o[i], "security_model"))
      && (forall i :: 0 <= i < 4 ==> !HasKey(o[i], "multidevs"))
      && (forall i :: 0 <= i < 5 ==> !HasKey(o[i], "readonly"))
  {
    var o := FsdevOpts(d, model);
    FirstCharDiffers(o[0], "id");
    FirstCharDiffers(o[0], "path");
    FirstCharDiffers(o[1], "path");
    forall i | 0 <= i < 3 ensures !HasKey(o[i], "security_model") { FirstCharDiffers(o[i], "security_model"); }
    forall i | 0 <= i < 4 ensures !HasKey(o[i], "multidevs") { FirstCharDiffers(o[i], "multidevs"); }
    forall i | 0 <= i < 5 ensures !HasKey(o[i], "readonly") { FirstCharDiffers(o[i], "readonly"); }
  }

  lemma {:induction false} ReadsNothing(opts: seq<string>, key: string)
    requires forall i :: 0 <= i < |opts| ==> !HasKey(opts[i], key)
    ensures OptGet(opts, key) == ""
  {
    if opts != [] {
      assert !HasKey(opts[0], key);
      assert forall i :: 0 <= i < |opts[1..]| ==> opts[1..][i] == opts[i + 1];
      ReadsNothing(opts[1..], key);
    }
  }

  lemma FsdevFields(o: seq<string>, d: ShareDevice, model: string)
    requires ',' !in d.id && ',' !in model && o == FsdevOpts(d, model)
    ensures OptGet(o, "id") == d.id && OptGet(o, "path") == d.path && OptGet(o, "security_model") == model
    ensures OptGet(o, "readonly") == (if d.readOnly then "on" else "") && OptGet(o, "multidevs") == "remap"
  {
    hide OptGet, HasKey, Escape;
    FsdevKeysDiffer(d, model);
    assert o[2] == "path" + "=" + Escape(d.path);
    ReadsPlain(o, 1, "id", d.id);
    ReadsBack(o, 2, "path", d.path);
    assert o[3] == "security_model" + "=" + model;
    ReadsPlain(o, 3, "security_model", model);
    assert o[4] == "multidevs" + "=" + "remap";
    ReadsPlain(o, 4, "multidevs", "remap");
    if d.readOnly {
      assert o[5] == "readonly" + "=" + "on";
      ReadsPlain(o, 5, "readonly", "on");
    } else {
      ReadsNothing(o, "readonly");
    }
  }

  /** An fsdev line is of the local driver, and reads back as its id, the exact host path, whatever commas the
      path has, its security model, and read-only exactly for a read-only share. */
  lemma FsdevReadsBack(d: ShareDevice, model: string)
    requires ',' !in d.id && ',' !in model
    ensures var opts := Split(Join(FsdevOpts(d, model)));
      && OptGet(opts, "id") == d.id && OptGet(opts, "path") == d.path && OptGet(opts, "security_model") == model
      && OptGet(opts, "readonly") == (if d.readOnly then "on" else "")
      && opts[0] == "local" && OptGet(opts, "multidevs") == "remap"
  {
    FsdevOptsSplittable(d, model);
    SplitOfJoin(FsdevOpts(d, model));
    FsdevFields(FsdevOpts(d, model), d, model);
  }

  /** The slots of a machine's share devices, the configuration share and sixteen
      more at most, are all different and on the bus. */
  lemma SlotsAreDistinct(i: nat, j: nat)
    requires i < j < Slots - FirstSlot
    ensures SlotText(FirstSlot + i) != SlotText(FirstSlot + j)
  {
    if SlotText(FirstSlot + i) == SlotText(FirstSlot + j) {
      assert SlotText(FirstSlot + i)[2..] == Hex(FirstSlot + i);
      assert SlotText(FirstSlot + j)[2..] == Hex(FirstSlot + j);
      HexReadsBack(FirstSlot + i);
      HexReadsBack(FirstSlot + j);
    }
  }

  /** The first element under a key is what the key reads as. */
  lemma {:induction false} ReadsBack(opts: seq<string>, i: nat, key: string, value: string)
    requires i < |opts| && opts[i] == key + "=" + Escape(value)
    requires forall j :: 0 <= j < i ==> !HasKey(opts[j], key)
    ensures OptGet(opts, key) == value
  {
    if i > 0 {
      ReadsBack(opts[1..], i - 1, key, value);
    } else {
      assert opts[0][|key| + 1..] == Escape(value);
      UnescapeOfEscape(value);
    }
  }
}
