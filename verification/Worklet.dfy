/** The resampler of the capture worklet, fed in chunks. */
module Worklet {

  /* Positions: a ratio apart, as long as they lie between two of `n` input samples */

  predicate Within(n: nat, p: real) {
    0.0 <= p && p + 1.0 < n as real
  }

  /** How many steps of `r` fit between a position and the end. */
  function Steps(n: nat, p: real, r: real): real
    requires r > 0.0
  {
    (n as real - p) / r
  }

  lemma OneStepLess(n: nat, p: real, r: real)
    requires r > 0.0
    ensures Steps(n, p + r, r) == Steps(n, p, r) - 1.0
    ensures p < n as real ==> Steps(n, p, r) > 0.0
  {
    assert Steps(n, p, r) * r == n as real - p;
    assert (n as real - (p + r)) / r == (n as real - p) / r - r / r;
  }

  function Positions(n: nat, p: real, r: real): seq<real>
    requires p >= 0.0 && r > 0.0
    decreases Steps(n, p, r)
  {
    OneStepLess(n, p, r);
    if Within(n, p) then [p] + Positions(n, p + r, r) else []
  }

  /** The first position that does not. */
  function Stop(n: nat, p: real, r: real): (stop: real)
    requires p >= 0.0 && r > 0.0
    ensures stop >= p && !Within(n, stop)
    ensures stop == p || stop < n as real - 1.0 + r
    decreases Steps(n, p, r)
  {
    OneStepLess(n, p, r);
    if Within(n, p) then Stop(n, p + r, r) else p
  }

  predicate AllWithin(n: nat, ps: seq<real>) {
    forall i | 0 <= i < |ps| :: Within(n, ps[i])
  }

  lemma {:induction false} PositionsWithin(n: nat, p: real, r: real)
    requires p >= 0.0 && r > 0.0
    ensures AllWithin(n, Positions(n, p, r))
    decreases |Positions(n, p, r)|
  {
    if Within(n, p) {
      PositionsWithin(n, p + r, r);
    }
  }

  /** `q` is `k` steps after `p`. */
  predicate StepsAfter(p: real, r: real, k: nat, q: real) {
    q == p + k as real * r
  }

  lemma OneStepFewer(p: real, r: real, k: nat, q: real)
    requires r > 0.0 && k > 0 && StepsAfter(p, r, k, q)
    ensures StepsAfter(p + r, r, k - 1, q) && q >= p + r
  {
    assert (k - 1) as real * r + r == k as real * r;
    assert (k - 1) as real * r >= 0.0;
  }

  /** The positions are the multiples of the ratio that lie inside the input. */
  lemma {:induction false} PositionAt(n: nat, p: real, r: real, k: nat, q: real)
    requires p >= 0.0 && r > 0.0 && StepsAfter(p, r, k, q)
    ensures k < |Positions(n, p, r)| <==> Within(n, q)
    ensures k < |Positions(n, p, r)| ==> Positions(n, p, r)[k] == q
    ensures k == |Positions(n, p, r)| ==> Stop(n, p, r) == q
    decreases k
  {
    if k > 0 {
      OneStepFewer(p, r, k, q);
      PositionAt(n, p + r, r, k - 1, q);
    }
  }

  /** A longer input has more positions at the end. */
  lemma {:induction false} PositionsExtend(n: nat, m: nat, p: real, r: real)
    requires p >= 0.0 && r > 0.0 && n <= m
    ensures Positions(m, p, r) == Positions(n, p, r) + Positions(m, Stop(n, p, r), r)
    ensures Stop(m, p, r) == Stop(m, Stop(n, p, r), r)
    decreases |Positions(n, p, r)|
  {
    if Within(n, p) {
      PositionsExtend(n, m, p + r, r);
    }
  }

  /** Positions in what is left after dropping `k` samples. */
  lemma {:induction false} PositionsShift(n: nat, k: nat, p: real, r: real)
    requires k <= n && p >= 0.0 && r > 0.0
    ensures var short, long := Positions(n - k, p, r), Positions(n, k as real + p, r);
            |short| == |long| && forall i | 0 <= i < |short| :: long[i] == k as real + short[i]
    ensures k as real + Stop(n - k, p, r) == Stop(n, k as real + p, r)
    decreases |Positions(n - k, p, r)|
  {
    if Within(n - k, p) {
      assert k as real + (p + r) == k as real + p + r;
      PositionsShift(n, k, p + r, r);
    }
  }

  /* Samples */

  /** Linear interpolation at a position between two samples. */
  function Sample(x: seq<real>, p: real): real
    requires Within(|x|, p)
  {
    var i := p.Floor;
    var frac := p - i as real;
    x[i] * (1.0 - frac) + x[i + 1] * frac
  }

  /** Storing into a 16-bit array drops the fraction. */
  function Truncate(v: real): int {
    if v < 0.0 then -((-v).Floor) else v.Floor
  }

  function Quantize(sample: real): (pcm: int)
    ensures -0x8000 <= pcm <= 0x7fff
  {
    var clamped := if sample < -1.0 then -1.0 else if sample > 1.0 then 1.0 else sample;
    if clamped < 0.0 then Truncate(clamped * 32768.0) else Truncate(clamped * 32767.0)
  }

  function Render(x: seq<real>, ps: seq<real>): (out: seq<int>)
    requires AllWithin(|x|, ps)
    ensures |out| == |ps| && forall k | 0 <= k < |ps| :: out[k] == Quantize(Sample(x, ps[k]))
  {
    seq(|ps|, k requires 0 <= k < |ps| => Quantize(Sample(x, ps[k])))
  }

  function Emit(x: seq<real>, p: real, r: real): seq<int>
    requires p >= 0.0 && r > 0.0
  {
    PositionsWithin(|x|, p, r);
    Render(x, Positions(|x|, p, r))
  }

  /* The level */

  function Magnitude(sample: real): (m: real)
    ensures 0.0 <= m <= 1.0
  {
    if sample < -1.0 || sample > 1.0 then 1.0 else if sample < 0.0 then -sample else sample
  }

  function Louder(a: real, b: real): real {
    if b > a then b else a
  }

  /** The peak after the samples from one position on. */
  function Loudest(x: seq<real>, p: real, r: real, peak: real): real
    requires p >= 0.0 && r > 0.0
    decreases Steps(|x|, p, r)
  {
    OneStepLess(|x|, p, r);
    if Within(|x|, p) then Loudest(x, p + r, r, Louder(peak, Magnitude(Sample(x, p)))) else peak
  }

  function Magnitudes(x: seq<real>, ps: seq<real>): seq<real>
    requires AllWithin(|x|, ps)
  {
    seq(|ps|, k requires 0 <= k < |ps| => Magnitude(Sample(x, ps[k])))
  }

  predicate IsLargest(ms: seq<real>, peak: real, largest: real) {
    largest >= peak && (forall m | m in ms :: m <= largest) && (largest == peak || largest in ms)
  }

  lemma LargestOfMore(m: real, rest: seq<real>, peak: real, largest: real)
    requires IsLargest(rest, Louder(peak, m), largest)
    ensures IsLargest([m] + rest, peak, largest)
  {
  }

  /** It is the largest magnitude among those samples and the peak before. */
  lemma {:induction false} LoudestIsLargest(x: seq<real>, p: real, r: real, peak: real)
    requires p >= 0.0 && r > 0.0
    ensures AllWithin(|x|, Positions(|x|, p, r))
    ensures IsLargest(Magnitudes(x, Positions(|x|, p, r)), peak, Loudest(x, p, r, peak))
    decreases Steps(|x|, p, r)
  {
    OneStepLess(|x|, p, r);
    PositionsWithin(|x|, p, r);
    if Within(|x|, p) {
      var m, rest := Magnitude(Sample(x, p)), Positions(|x|, p + r, r);
      LoudestIsLargest(x, p + r, r, Louder(peak, m));
      LargestOfMore(m, Magnitudes(x, rest), peak, Loudest(x, p + r, r, Louder(peak, m)));
      assert Magnitudes(x, [p] + rest) == [m] + Magnitudes(x, rest);
    }
  }

  /** `peak` since the last report, over so many input samples. */
  datatype Level = Level(peak: real, heard: nat, reports: seq<real>)

  /** What one call reports: the peak so far, once enough input has come in since the last report. */
  function Metered(l: Level, channel: seq<real>, loudest: real, every: real): Level {
    var heard := l.heard + |channel|;
    if channel == [] then l
    else if heard as real >= every then Level(0.0, 0, l.reports + [loudest])
    else Level(loudest, heard, l.reports)
  }

  lemma SampleExtends(x: seq<real>, more: seq<real>, p: real)
    requires Within(|x|, p)
    ensures Within(|x + more|, p) && Sample(x + more, p) == Sample(x, p)
  {
  }

  lemma SampleShifts(x: seq<real>, n: nat, p: real)
    requires n <= |x| && Within(|x| - n, p)
    ensures Within(|x|, n as real + p) && Sample(x[n..], p) == Sample(x, n as real + p)
  {
    assert (n as real + p).Floor == n + p.Floor;
  }

  lemma RenderExtends(x: seq<real>, more: seq<real>, ps: seq<real>)
    requires AllWithin(|x|, ps)
    ensures AllWithin(|x + more|, ps) && Render(x + more, ps) == Render(x, ps)
  {
    forall i | 0 <= i < |ps| ensures Within(|x + more|, ps[i]) && Sample(x + more, ps[i]) == Sample(x, ps[i]) {
      SampleExtends(x, more, ps[i]);
    }
  }

  lemma RenderShifts(x: seq<real>, n: nat, short: seq<real>, long: seq<real>)
    requires n <= |x| && AllWithin(|x| - n, short) && |short| == |long|
    requires forall i | 0 <= i < |short| :: long[i] == n as real + short[i]
    ensures AllWithin(|x|, long) && Render(x, long) == Render(x[n..], short)
  {
    forall i | 0 <= i < |short| ensures Within(|x|, long[i]) && Sample(x, long[i]) == Sample(x[n..], short[i]) {
      SampleShifts(x, n, short[i]);
    }
  }

  /** More input adds samples at the end. */
  lemma EmitExtends(x: seq<real>, more: seq<real>, p: real, r: real)
    requires p >= 0.0 && r > 0.0
    ensures Emit(x + more, p, r) == Emit(x, p, r) + Emit(x + more, Stop(|x|, p, r), r)
  {
    PositionsWithin(|x|, p, r);
    PositionsWithin(|x + more|, p, r);
    PositionsWithin(|x + more|, Stop(|x|, p, r), r);
    PositionsExtend(|x|, |x + more|, p, r);
    RenderExtends(x, more, Positions(|x|, p, r));
  }

  /** Dropping input already passed changes nothing. */
  lemma EmitShifts(x: seq<real>, n: nat, p: real, r: real)
    requires n <= |x| && p >= 0.0 && r > 0.0
    ensures Emit(x[n..], p, r) == Emit(x, n as real + p, r)
  {
    PositionsWithin(|x| - n, p, r);
    PositionsShift(|x|, n, p, r);
    RenderShifts(x, n, Positions(|x| - n, p, r), Positions(|x|, n as real + p, r));
  }

  /** Sample `k` of one pass interpolates the input at `k` times the ratio, and there is one for every such position. */
  lemma EmitAt(x: seq<real>, r: real, k: nat)
    requires r > 0.0
    ensures k < |Emit(x, 0.0, r)| <==> Within(|x|, k as real * r)
    ensures k < |Emit(x, 0.0, r)| ==> Emit(x, 0.0, r)[k] == Quantize(Sample(x, k as real * r))
  {
    PositionAt(|x|, 0.0, r, k, k as real * r);
  }

  /* The stream */

  datatype Stream = Stream(cursor: real, tail: seq<real>, out: seq<int>)

  const SILENT: Stream := Stream(0.0, [], [])

  function Drop(x: seq<real>, n: int): seq<real>
    requires n >= 0
  {
    if n <= |x| then x[n..] else []
  }

  function Process(s: Stream, channel: seq<real>, r: real): (t: Stream)
    requires s.cursor >= 0.0 && r > 0.0
    ensures t.cursor >= 0.0
  {
    if channel == [] then s
    else
      var merged := s.tail + channel;
      var stop := Stop(|merged|, s.cursor, r);
      Stream(stop - stop.Floor as real, Drop(merged, stop.Floor), s.out + Emit(merged, s.cursor, r))
  }

  function ProcessAll(chunks: seq<seq<real>>, r: real): (t: Stream)
    requires r > 0.0
    ensures t.cursor >= 0.0
  {
    if chunks == [] then SILENT else Process(ProcessAll(chunks[..|chunks| - 1], r), chunks[|chunks| - 1], r)
  }

  function Flat<T>(chunks: seq<seq<T>>): seq<T> {
    if chunks == [] then [] else Flat(chunks[..|chunks| - 1]) + chunks[|chunks| - 1]
  }

  /** The stream stands where one pass over everything heard so far would. */
  predicate Tracks(s: Stream, x: seq<real>, r: real)
    requires r > 0.0
  {
    var stop := Stop(|x|, 0.0, r);
    && stop.Floor <= |x| && s.tail == x[stop.Floor..] && s.cursor == stop - stop.Floor as real
    && s.out == Emit(x, 0.0, r)
  }

  /** One chunk: what it adds to the output of one pass is what the stream emits from where it stands. */
  lemma ChunkOutput(x: seq<real>, channel: seq<real>, r: real, n: nat, cursor: real)
    requires r > 0.0 && cursor >= 0.0 && n <= |x| && Stop(|x|, 0.0, r) == n as real + cursor
    ensures Emit(x + channel, 0.0, r) == Emit(x, 0.0, r) + Emit((x + channel)[n..], cursor, r)
  {
    EmitExtends(x, channel, 0.0, r);
    EmitShifts(x + channel, n, cursor, r);
  }

  /** And both stop at the same place. */
  lemma ChunkStop(before: nat, after: nat, r: real, n: nat, cursor: real)
    requires r > 0.0 && cursor >= 0.0 && n <= before <= after && Stop(before, 0.0, r) == n as real + cursor
    ensures Stop(after, 0.0, r) == n as real + Stop(after - n, cursor, r)
  {
    PositionsExtend(before, after, 0.0, r);
    PositionsShift(after, n, cursor, r);
  }

  lemma TracksFrom(t: Stream, y: seq<real>, r: real, n: nat, stop: real)
    requires r > 0.0 && stop >= 0.0 && Stop(|y|, 0.0, r) == n as real + stop
    requires n <= |y| && t == Stream(stop - stop.Floor as real, Drop(y[n..], stop.Floor), Emit(y, 0.0, r))
    ensures Reads(t, y, r)
  {
    FloorShifts(n, stop);
    if stop.Floor <= |y| - n {
      assert y[n..][stop.Floor..] == y[n + stop.Floor..];
    }
  }

  /** The stream has emitted what one pass would; its cursor is right only if that pass stops inside the input. */
  predicate Reads(s: Stream, x: seq<real>, r: real)
    requires r > 0.0
  {
    var stop := Stop(|x|, 0.0, r);
    s.tail == Drop(x, stop.Floor) && s.cursor == stop - stop.Floor as real && s.out == Emit(x, 0.0, r)
  }

  /** One more call emits what one pass would. */
  lemma ProcessReads(s: Stream, x: seq<real>, channel: seq<real>, r: real)
    requires r > 0.0 && Tracks(s, x, r)
    ensures Reads(Process(s, channel, r), x + channel, r)
  {
    if channel == [] {
      assert x + channel == x;
    } else {
      var n, y := Stop(|x|, 0.0, r).Floor, x + channel;
      ChunkOutput(x, channel, r, n, s.cursor);
      ChunkStop(|x|, |y|, r, n, s.cursor);
      assert s.tail + channel == y[n..];
      TracksFrom(Process(s, channel, r), y, r, n, Stop(|y| - n, s.cursor, r));
    }
  }

  /** And stays aligned with it unless the pass stops beyond all it was given. */
  lemma ProcessTracks(s: Stream, x: seq<real>, channel: seq<real>, r: real)
    requires r > 0.0 && Tracks(s, x, r) && Stop(|x + channel|, 0.0, r).Floor <= |x + channel|
    ensures Tracks(Process(s, channel, r), x + channel, r)
  {
    ProcessReads(s, x, channel, r);
  }

  lemma FloorShifts(n: int, x: real)
    ensures (n as real + x).Floor == n + x.Floor
  {
  }

  /** With steps of at most two, the reader never passes the end of a non-empty input. */
  lemma StopsInside(n: nat, r: real)
    requires 0.0 < r <= 2.0 && n > 0
    ensures Stop(n, 0.0, r).Floor <= n
  {
  }

  /** Streaming equals one pass over the whole input, for every ratio up to two and every split into chunks. */
  lemma {:induction false} StreamingIsOneShot(chunks: seq<seq<real>>, r: real)
    requires 0.0 < r <= 2.0
    ensures ProcessAll(chunks, r).out == Emit(Flat(chunks), 0.0, r)
    ensures Tracks(ProcessAll(chunks, r), Flat(chunks), r)
    decreases |chunks|
  {
    if chunks != [] {
      var front, last := chunks[..|chunks| - 1], chunks[|chunks| - 1];
      StreamingIsOneShot(front, r);
      if Flat(front) + last != [] {
        StopsInside(|Flat(front) + last|, r);
      }
      ProcessTracks(ProcessAll(front, r), Flat(front), last, r);
    }
  }

  /* Ratios above two */

  function Ratio(sampleRate: int, targetRate: int): (r: real)
    requires sampleRate > 0 && targetRate > 0
    ensures r > 0.0
  {
    sampleRate as real / targetRate as real
  }

  function Zeros(n: nat): (x: seq<real>)
    ensures |x| == n && forall i | 0 <= i < n :: x[i] == 0.0
  {
    seq(n, _ => 0.0)
  }

  const BLIP: seq<real> := [0.0, 1.0, 1.0]

  lemma RatioTimes(a: int, b: int)
    requires a > 0 && b > 0
    ensures b as real * Ratio(a, b) == a as real
  {
  }

  lemma Exceeds(r: real, d: real, e: real)
    requires d > 0.0 && e == d * r && e > 2.0 * d
    ensures r > 2.0
  {
    assert d * (r - 2.0) > 0.0;
  }

  lemma LastSteps(a: int, b: int, r: real)
    requires b > 0 && b as real * r == a as real
    ensures StepsAfter(0.0, r, b, a as real) && StepsAfter(0.0, r, b - 1, a as real - r)
  {
    assert (b - 1) as real == b as real - 1.0;
    assert (b as real - 1.0) * r == b as real * r - r;
  }

  /** A chunk one sample short of the next position: the reader has then moved past its end. */
  lemma Overrun(a: int, b: int, r: real)
    requires b > 0 && a > 2 * b && r > 2.0
    requires StepsAfter(0.0, r, b, a as real) && StepsAfter(0.0, r, b - 1, a as real - r)
    ensures |Positions(a - 1, 0.0, r)| == b && Stop(a - 1, 0.0, r) == a as real
  {
    PositionAt(a - 1, 0.0, r, b, a as real);
    PositionAt(a - 1, 0.0, r, b - 1, a as real - r);
  }

  lemma AboveTwo(a: int, b: int, r: real)
    requires b > 0 && a > 2 * b && b as real * r == a as real
    ensures r > 2.0
  {
    assert (2 * b) as real == 2.0 * b as real;
    Exceeds(r, b as real, a as real);
  }

  lemma QuantizeBlip(x: seq<real>, p: int, v: int)
    requires 0 <= p && p + 1 < |x| && x[p] == v as real && (v == 0 || v == 1)
    ensures Quantize(Sample(x, p as real)) == v * 0x7fff
  {
    assert (p as real).Floor == p;
    assert Sample(x, p as real) == x[p];
  }

  /** After the silence the stream has moved past its end, to where it believes the next chunk begins. */
  lemma SilenceOverruns(a: int, b: int)
    requires b > 0 && a > 2 * b
    ensures var first := Process(SILENT, Zeros(a - 1), Ratio(a, b));
            first.cursor == 0.0 && first.tail == [] && |first.out| == b
  {
    var r := Ratio(a, b);
    RatioTimes(a, b);
    AboveTwo(a, b, r);
    LastSteps(a, b, r);
    Overrun(a, b, r);
    assert [] + Zeros(a - 1) == Zeros(a - 1);
  }

  lemma BlipStartsSilent(r: real)
    requires r > 0.0
    ensures |Emit(BLIP, 0.0, r)| > 0 && Emit(BLIP, 0.0, r)[0] == 0
  {
    EmitAt(BLIP, r, 0);
    QuantizeBlip(BLIP, 0, 0);
  }

  lemma ProcessTwo(a: seq<real>, b: seq<real>, r: real)
    requires r > 0.0
    ensures ProcessAll([a, b], r) == Process(Process(SILENT, a, r), b, r)
  {
    assert [a, b][..1] == [a] && [a][..0] == [];
    assert ProcessAll([a], r) == Process(SILENT, a, r);
  }

  lemma StreamedBlip(a: int, b: int)
    requires b > 0 && a > 2 * b
    ensures var out := ProcessAll([Zeros(a - 1), BLIP], Ratio(a, b)).out; b < |out| && out[b] == 0
  {
    ProcessTwo(Zeros(a - 1), BLIP, Ratio(a, b));
    SilenceOverruns(a, b);
    BlipStartsSilent(Ratio(a, b));
    assert [] + BLIP == BLIP;
  }

  lemma WholeBlip(a: int, b: int)
    requires b > 0 && a > 2 * b
    ensures var out := Emit(Zeros(a - 1) + BLIP, 0.0, Ratio(a, b)); b < |out| && out[b] == 0x7fff
  {
    var x := Zeros(a - 1) + BLIP;
    RatioTimes(a, b);
    EmitAt(x, Ratio(a, b), b);
    QuantizeBlip(x, a, 1);
  }

  predicate Agrees(chunks: seq<seq<real>>, r: real)
    requires r > 0.0
  {
    ProcessAll(chunks, r).out == Emit(Flat(chunks), 0.0, r)
  }

  lemma RatioAtMostTwo(a: int, b: int)
    requires 0 < a <= 2 * b
    ensures Ratio(a, b) <= 2.0
  {
    assert (2 * b - a) as real / b as real >= 0.0;
  }

  lemma FlatTwo<T>(a: seq<T>, b: seq<T>)
    ensures Flat([a, b]) == a + b
  {
    assert [a, b][..1] == [a] && [a][..0] == [];
    assert Flat([a]) == [] + a == a;
  }

  /** Above twice the target rate, silence and then a blip comes out wrong. */
  lemma BlipDisagrees(a: int, b: int)
    requires b > 0 && a > 2 * b
    ensures !Agrees([Zeros(a - 1), BLIP], Ratio(a, b))
  {
    StreamedBlip(a, b);
    WholeBlip(a, b);
    FlatTwo(Zeros(a - 1), BLIP);
  }

  /** The exact condition for streaming to equal one pass however the input is split: at most twice the target rate. */
  lemma StreamingIsOneShotIff(sampleRate: int, targetRate: int)
    requires sampleRate > 0 && targetRate > 0
    ensures (forall chunks :: Agrees(chunks, Ratio(sampleRate, targetRate))) <==> sampleRate <= 2 * targetRate
  {
    if sampleRate <= 2 * targetRate {
      RatioAtMostTwo(sampleRate, targetRate);
      forall chunks ensures Agrees(chunks, Ratio(sampleRate, targetRate)) {
        StreamingIsOneShot(chunks, Ratio(sampleRate, targetRate));
      }
    } else {
      BlipDisagrees(sampleRate, targetRate);
    }
  }

  lemma EmitFirst(x: seq<real>, p: real, r: real)
    requires Within(|x|, p) && r > 0.0
    ensures Emit(x, p, r) == [Quantize(Sample(x, p))] + Emit(x, p + r, r)
  {
    PositionsWithin(|x|, p, r);
    PositionsWithin(|x|, p + r, r);
  }
}
