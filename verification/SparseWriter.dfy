/**
  The sparse writer: a byte stream written to a file with the runs of zeros left
  out as holes, and what the file reads afterwards.
 */
module SparseWriter {
  const BLOCK := 4096

  newtype Byte = x: int | 0 <= x < 256

  function Zeros(n: nat): (r: seq<Byte>)
    ensures |r| == n && forall i :: 0 <= i < n ==> r[i] == 0
  {
    seq(n, _ => 0)
  }

  predicate AllZero(s: seq<Byte>) { forall i :: 0 <= i < |s| ==> s[i] == 0 }

  /** A file read back whole: a write past its end leaves zeros in between. */
  function Written(file: seq<Byte>, at: nat, bytes: seq<Byte>): (r: seq<Byte>)
    requires |file| <= at
    ensures |r| == if bytes == [] then |file| else at + |bytes|
  {
    if bytes == [] then file else file + Zeros(at - |file|) + bytes
  }

  /** The whole filesystem blocks inside a range. */
  function FirstBlock(off: nat): (r: nat)
    ensures off <= r < off + BLOCK && r % BLOCK == 0
  {
    (off + BLOCK - 1) / BLOCK * BLOCK
  }

  function LastBlock(end: nat): (r: nat)
    ensures r <= end < r + BLOCK && r % BLOCK == 0
  {
    end / BLOCK * BLOCK
  }

  /** The range that is punched is made of exactly the whole blocks of the hole. */
  lemma PunchedRangeIsTheWholeBlocks(off: nat, n: nat, b: nat)
    ensures FirstBlock(off) <= b * BLOCK && (b + 1) * BLOCK <= LastBlock(off + n)
       <==> off <= b * BLOCK && (b + 1) * BLOCK <= off + n
  {
  }

  datatype Punch = Punch(start: nat, end: nat)

  function Punched(file: seq<Byte>, p: Punch): (r: seq<Byte>)
    ensures |r| == |file|
    ensures forall i :: 0 <= i < |file| ==> r[i] == if p.start <= i < p.end then 0 else file[i]
  {
    seq(|file|, i requires 0 <= i < |file| => if p.start <= i < p.end then 0 else file[i])
  }

  /** What of a hole is given back: its whole blocks, if it has any. */
  function GivenBack(at: nat, n: nat, refused: bool): seq<Punch> {
    var start, end := FirstBlock(at), LastBlock(at + n);
    if refused || end <= start then [] else [Punch(start, end)]
  }

  class Writer {
    /** The file and the position its next write goes to. */
    var file: seq<Byte>
    var position: nat
    var off: nat
    var pending: nat
    /** Every byte accepted so far, and every range given back. */
    ghost var stream: seq<Byte>
    ghost var punches: seq<Punch>

    ghost predicate Valid()
      reads this
    {
      && position == off == |file|
      && stream == file + Zeros(pending)
      && GivenBackOnlyZeros()
    }

    /** Each range given back is block-aligned and inside a run of zeros. */
    ghost predicate GivenBackOnlyZeros()
      reads this
    {
      forall i :: 0 <= i < |punches| ==>
        var p := punches[i];
        p.start < p.end <= |stream| && p.start % BLOCK == 0 && p.end % BLOCK == 0 && AllZero(stream[p.start..p.end])
    }

    constructor ()
      ensures Valid() && stream == [] && file == [] && punches == []
    {
      file, position, off, pending, stream, punches := [], 0, 0, 0, [], [];
    }

    method PunchHole(at: nat, n: nat, refused: bool)
      requires at + n <= |file| <= |stream|
      requires AllZero(file[at..at + n]) && AllZero(stream[at..at + n])
      requires GivenBackOnlyZeros()
      modifies this`file, this`punches
      ensures file == old(file) && GivenBackOnlyZeros()
      ensures punches == old(punches) + GivenBack(at, n, refused)
    {
      var start, end := FirstBlock(at), LastBlock(at + n);
      if end <= start || refused { return; }
      forall i | start <= i < end ensures file[i] == 0 && stream[i] == 0 {
        assert file[i] == file[at..at + n][i - at] && stream[i] == stream[at..at + n][i - at];
      }
      file := Punched(file, Punch(start, end));
      punches := punches + [Punch(start, end)];
    }

    /** One chunk. A failed seek or write leaves a prefix of the stream. */
    method WriteChunk(chunk: seq<Byte>, seeks: bool, takes: nat, refused: bool) returns (ok: bool)
      requires Valid() && chunk != []
      modifies this
      ensures ok ==> Valid() && stream == old(stream) + chunk
      ensures ok <==> AllZero(chunk) || ((old(pending) > 0 ==> seeks) && takes >= |chunk|)
      ensures !ok ==> file <= old(stream) + chunk && punches == old(punches)
      ensures ok ==> var given := if AllZero(chunk) then [] else GivenBack(old(off), old(pending), refused);
        punches == old(punches) + given
    {
      if AllZero(chunk) {
        assert Zeros(pending + |chunk|) == Zeros(pending) + chunk;
        pending, stream := pending + |chunk|, stream + chunk;
        ok := true;
        StillOnlyZeros(old(stream), stream, punches);
        return;
      }
      var holeOff, holeLen := 0, 0;
      if pending > 0 {
        if !seeks {
          return false;
        }
        position := off + pending;
        holeOff, holeLen := off, pending;
        off, pending := off + pending, 0;
      }
      var m := if takes < |chunk| then takes else |chunk|;
      file := Written(file, position, chunk[..m]);
      assert m > 0 ==> file == old(stream) + chunk[..m];
      position, off := position + m, off + m;
      if m < |chunk| {
        assert old(stream) + chunk[..m] <= old(stream) + chunk;
        return false;
      }
      assert chunk[..m] == chunk;
      stream := stream + chunk;
      StillOnlyZeros(old(stream), stream, punches);
      if holeLen > 0 { PunchHole(holeOff, holeLen, refused); }
      ok := true;
    }

    lemma StillOnlyZeros(before: seq<Byte>, now: seq<Byte>, ps: seq<Punch>)
      requires before <= now
      ensures forall i :: 0 <= i < |ps| && ps[i].start < ps[i].end <= |before| ==>
        now[ps[i].start..ps[i].end] == before[ps[i].start..ps[i].end]
    {
    }

    /** One call to Write, cut into blocks. */
    method Write(p: seq<Byte>, seeks: bool, takes: nat, refused: bool) returns (ok: bool)
      requires Valid()
      modifies this
      ensures ok ==> Valid() && stream == old(stream) + p
      ensures !ok ==> file <= old(stream) + p
      ensures seeks && takes >= BLOCK ==> ok
    {
      var i := 0;
      while i < |p|
        invariant 0 <= i <= |p|
        invariant Valid() && stream == old(stream) + p[..i]
      {
        var n := if |p| - i > BLOCK then BLOCK else |p| - i;
        var chunk := p[i..i + n];
        assert p[..i] + chunk == p[..i + n];
        assert old(stream) + p[..i] + chunk == old(stream) + p[..i + n];
        assert old(stream) + p[..i + n] <= old(stream) + p;
        ok := WriteChunk(chunk, seeks, takes, refused);
        if !ok { return; }
        i := i + n;
      }
      assert p[..i] == p;
      ok := true;
    }

    function Size(): nat
      reads this
    {
      off + pending
    }

    /** Close makes the trailing zeros part of the file. The file's position
        stays behind them, so nothing is to be written after it. */
    method Close(truncates: bool) returns (ok: bool)
      requires Valid()
      modifies this`file, this`off, this`pending
      ensures ok ==> file == stream && Size() == |stream| && GivenBackOnlyZeros()
      ensures ok <==> old(pending) == 0 || truncates
      ensures !ok || old(pending) == 0 ==> Valid()
    {
      if pending > 0 {
        if !truncates { return false; }
        file := file + Zeros(pending);
        off, pending := off + pending, 0;
      }
      ok := true;
    }
  }

  function Concat(parts: seq<seq<Byte>>): seq<Byte> {
    if parts == [] then [] else Concat(parts[..|parts| - 1]) + parts[|parts| - 1]
  }

  /** However a stream is split into writes, the file after the close is the
      stream byte for byte, and the size its length. */
  method CopySparse(parts: seq<seq<Byte>>, refused: bool) returns (w: Writer, size: nat)
    ensures fresh(w) && w.GivenBackOnlyZeros() && w.stream == Concat(parts)
    ensures w.file == Concat(parts) && size == |Concat(parts)|
  {
    w := new Writer();
    var i := 0;
    while i < |parts|
      invariant 0 <= i <= |parts|
      invariant fresh(w) && w.Valid() && w.stream == Concat(parts[..i])
    {
      assert parts[..i + 1][..i] == parts[..i];
      var ok := w.Write(parts[i], true, BLOCK, refused);
      i := i + 1;
    }
    assert parts[..i] == parts;
    var ok := w.Close(true);
    size := w.Size();
  }
}
