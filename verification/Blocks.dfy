/** The resampler as a browser feeds it: 128 samples a call. */
module Blocks {
  import opened Worklet

  const BLOCK: nat := 128

  predicate AllBlocks(chunks: seq<seq<real>>) {
    forall i | 0 <= i < |chunks| :: |chunks[i]| == BLOCK
  }

  lemma {:induction false} FlatLength(chunks: seq<seq<real>>)
    requires AllBlocks(chunks)
    ensures |Flat(chunks)| == BLOCK * |chunks|
    decreases |chunks|
  {
    if chunks != [] {
      FlatLength(chunks[..|chunks| - 1]);
    }
  }

  /** Position `j` of one pass still lies inside `m` blocks, and the next one lies more than a sample beyond them. */
  predicate Overruns(r: real, j: nat, m: nat) {
    j as real * r + 1.0 < (BLOCK * m) as real && (j + 1) as real * r >= (BLOCK * m) as real + 1.0
  }

  /** One pass over `m` blocks stops beyond them. */
  predicate StopsBeyond(r: real, m: nat)
    requires r > 0.0
  {
    Stop(BLOCK * m, 0.0, r).Floor > BLOCK * m
  }

  lemma BeyondIsOverrun(r: real, m: nat) returns (j: nat)
    requires r > 0.0 && StopsBeyond(r, m)
    ensures Overruns(r, j, m)
  {
    var n := BLOCK * m;
    var steps := |Positions(n, 0.0, r)|;
    PositionAt(n, 0.0, r, steps, steps as real * r);
    assert steps > 0;
    j := steps - 1;
    PositionAt(n, 0.0, r, j, j as real * r);
  }

  lemma OverrunIsBeyond(r: real, j: nat, m: nat)
    requires r > 0.0 && Overruns(r, j, m)
    ensures StopsBeyond(r, m)
  {
    var n := BLOCK * m;
    assert j as real * r >= 0.0;
    PositionAt(n, 0.0, r, j, j as real * r);
    PositionAt(n, 0.0, r, j + 1, (j + 1) as real * r);
  }

  lemma OneMoreChunk(chunks: seq<seq<real>>, last: seq<real>, r: real)
    requires r > 0.0
    ensures ProcessAll(chunks + [last], r) == Process(ProcessAll(chunks, r), last, r)
    ensures Flat(chunks + [last]) == Flat(chunks) + last
  {
    assert (chunks + [last])[..|chunks|] == chunks;
  }

  /* No overrun */

  lemma NothingTracks(r: real)
    requires r > 0.0
    ensures Tracks(ProcessAll([], r), Flat([]), r)
  {
    assert Stop(0, 0.0, r) == 0.0;
  }

  lemma BlockTracks(chunks: seq<seq<real>>, r: real)
    requires r > 0.0 && chunks != [] && AllBlocks(chunks) && !StopsBeyond(r, |chunks|)
    requires var front := chunks[..|chunks| - 1]; Tracks(ProcessAll(front, r), Flat(front), r)
    ensures Tracks(ProcessAll(chunks, r), Flat(chunks), r)
  {
    var front, last := chunks[..|chunks| - 1], chunks[|chunks| - 1];
    FlatLength(front);
    ProcessTracks(ProcessAll(front, r), Flat(front), last, r);
  }

  lemma {:induction false} BlocksTrack(chunks: seq<seq<real>>, r: real)
    requires r > 0.0 && AllBlocks(chunks)
    requires forall m: nat | m <= |chunks| :: !StopsBeyond(r, m)
    ensures Tracks(ProcessAll(chunks, r), Flat(chunks), r)
    decreases |chunks|
  {
    if chunks == [] {
      NothingTracks(r);
    } else {
      BlocksTrack(chunks[..|chunks| - 1], r);
      BlockTracks(chunks, r);
    }
  }

  /* An overrun */

  const RISE: seq<real> := [0.0] + seq(BLOCK - 1, _ => 1.0)

  function Silence(m: nat): (chunks: seq<seq<real>>)
    ensures |chunks| == m && AllBlocks(chunks)
  {
    seq(m, _ => Zeros(BLOCK))
  }

  lemma BeforeUnity(f: real)
    requires 0.0 <= f < 1.0
    ensures Quantize(f) < 0x7fff
  {
    assert f * 32767.0 < 32767.0;
  }

  /** From the start of the rise the stream hears it coming. */
  lemma HearsRise(f: real, r: real)
    requires 0.0 <= f < 1.0 && r > 0.0
    ensures var out := Emit(RISE, f, r); |out| > 0 && out[0] < 0x7fff
  {
    EmitFirst(RISE, f, r);
    assert f.Floor == 0 && Sample(RISE, f) == f;
    BeforeUnity(f);
  }

  /** More than a sample later it is over. */
  lemma RisenAlready(y: seq<real>, p: real, r: real)
    requires p.Floor > |y| && r > 0.0
    ensures var out := Emit(y + RISE, p, r); out == [] || out[0] == 0x7fff
  {
    var x := y + RISE;
    if Within(|x|, p) {
      EmitFirst(x, p, r);
      assert x[p.Floor] == 1.0 && x[p.Floor + 1] == 1.0;
      assert Sample(x, p) == 1.0;
    } else {
      assert Positions(|x|, p, r) == [];
    }
  }

  /** After an overrun the stream has nothing left, and its cursor is at the start of a block one pass has entered. */
  lemma LosesCount(s: Stream, y: seq<real>, r: real)
    requires r > 0.0 && s.cursor >= 0.0 && Reads(s, y, r) && Stop(|y|, 0.0, r).Floor > |y|
    ensures Process(s, RISE, r).out != Emit(y + RISE, 0.0, r)
  {
    var stop := Stop(|y|, 0.0, r);
    assert s.tail + RISE == RISE;
    HearsRise(stop - stop.Floor as real, r);
    EmitExtends(y, RISE, 0.0, r);
    RisenAlready(y, stop, r);
    Differ(Emit(y, 0.0, r), Emit(RISE, s.cursor, r), Emit(y + RISE, stop, r));
  }

  lemma Differ(a: seq<int>, b: seq<int>, c: seq<int>)
    requires b != [] && (c == [] || b[0] != c[0])
    ensures a + b != a + c
  {
    assert (a + b)[|a|] == b[0];
    if c != [] {
      assert (a + c)[|a|] == c[0];
    }
  }

  lemma RiseDisagrees(chunks: seq<seq<real>>, last: seq<real>, r: real)
    requires r > 0.0 && Tracks(ProcessAll(chunks, r), Flat(chunks), r)
    requires var y := Flat(chunks) + last; Stop(|y|, 0.0, r).Floor > |y|
    ensures !Agrees(chunks + [last] + [RISE], r)
  {
    ProcessReads(ProcessAll(chunks, r), Flat(chunks), last, r);
    OneMoreChunk(chunks, last, r);
    OneMoreChunk(chunks + [last], RISE, r);
    LosesCount(Process(ProcessAll(chunks, r), last, r), Flat(chunks) + last, r);
  }

  lemma {:induction false} FirstBeyond(r: real, m: nat) returns (first: nat)
    requires r > 0.0 && StopsBeyond(r, m)
    ensures StopsBeyond(r, first) && forall k: nat | k < first :: !StopsBeyond(r, k)
  {
    if k: nat :| k < m && StopsBeyond(r, k) {
      first := FirstBeyond(r, k);
    } else {
      first := m;
    }
  }

  lemma BeyondDisagrees(r: real, m: nat) returns (chunks: seq<seq<real>>)
    requires r > 0.0 && StopsBeyond(r, m)
    ensures AllBlocks(chunks) && !Agrees(chunks, r)
  {
    var first := FirstBeyond(r, m);
    assert first > 0;
    BlocksTrack(Silence(first - 1), r);
    FlatLength(Silence(first - 1));
    RiseDisagrees(Silence(first - 1), Zeros(BLOCK), r);
    chunks := Silence(first - 1) + [Zeros(BLOCK)] + [RISE];
  }

  /** The exact condition for streaming in blocks to equal one pass on every input: no position of one pass lies inside
      some number of blocks with the next one more than a sample beyond them. */
  lemma BlocksAreOneShotIff(r: real)
    requires r > 0.0
    ensures (forall chunks | AllBlocks(chunks) :: Agrees(chunks, r)) <==> (forall j, m: nat :: !Overruns(r, j, m))
  {
    if j, m: nat :| Overruns(r, j, m) {
      OverrunIsBeyond(r, j, m);
      var chunks := BeyondDisagrees(r, m);
      assert !Agrees(chunks, r);
    } else {
      forall m: nat ensures !StopsBeyond(r, m) {
        if StopsBeyond(r, m) {
          var j := BeyondIsOverrun(r, m);
        }
      }
      forall chunks | AllBlocks(chunks) ensures Agrees(chunks, r) {
        BlocksTrack(chunks, r);
      }
    }
  }

  /** A microphone at 48 kHz, at 44.1 kHz or at 96 kHz is resampled to 16 kHz wrongly: in the first block already, the
      last position is followed by one that lies more than a sample beyond. */
  lemma CommonRatesOverrun()
    ensures Overruns(Ratio(48_000, 16_000), 42, 1)
    ensures Overruns(Ratio(44_100, 16_000), 46, 1)
    ensures Overruns(Ratio(96_000, 16_000), 21, 1)
  {
  }

  lemma FirstBlockOverruns(r: real)
    requires r > 0.0 && StopsBeyond(r, 1)
    ensures !Agrees([Zeros(BLOCK), RISE], r)
  {
    ProcessTwo(Zeros(BLOCK), RISE, r);
    FlatTwo(Zeros(BLOCK), RISE);
    assert Stop(0, 0.0, r) == 0.0;
    assert [] + Zeros(BLOCK) == Zeros(BLOCK);
    ProcessReads(SILENT, [], Zeros(BLOCK), r);
    LosesCount(Process(SILENT, Zeros(BLOCK), r), Zeros(BLOCK), r);
  }

  /** So silence and then one block of a step come out wrong. */
  lemma CommonRatesDisagree(sampleRate: int)
    requires sampleRate == 48_000 || sampleRate == 44_100 || sampleRate == 96_000
    ensures !Agrees([Zeros(BLOCK), RISE], Ratio(sampleRate, 16_000))
  {
    var r := Ratio(sampleRate, 16_000);
    CommonRatesOverrun();
    OverrunIsBeyond(r, if sampleRate == 48_000 then 42 else if sampleRate == 44_100 then 46 else 21, 1);
    FirstBlockOverruns(r);
  }

  lemma FourFoldFits(j: nat, m: nat)
    ensures !Overruns(4.0, j, m)
  {
    if j < 32 * m {
      assert (j + 1) as real * 4.0 == (4 * (j + 1)) as real <= (BLOCK * m) as real;
    } else {
      assert j as real * 4.0 == (4 * j) as real >= (BLOCK * m) as real;
    }
  }

  /** Not every ratio above two fails: at four, a position lies exactly on the end of every block. */
  lemma FourFoldAgrees(chunks: seq<seq<real>>)
    requires AllBlocks(chunks)
    ensures Agrees(chunks, 4.0)
  {
    forall j, m: nat ensures !Overruns(4.0, j, m) {
      FourFoldFits(j, m);
    }
    BlocksAreOneShotIff(4.0);
  }
}
