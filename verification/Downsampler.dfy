/** The audio processor itself: a frame buffer filled in place, and a cursor and tail carried from call to call. */
module WorkletObject {
  import opened Worklet

  class Pcm16Downsampler {
    const ratio: real
    const frameSamples: nat
    var cursor: real
    var tail: seq<real>
    var frame: array<int>
    var filled: nat
    const levelEvery: real
    var peak: real
    var sinceLevel: nat
    /** The frames and the levels posted to the main thread so far. */
    var posted: seq<seq<int>>
    var levels: seq<real>

    ghost predicate Valid()
      reads this
    {
      && ratio > 0.0 && cursor >= 0.0
      && frame.Length == frameSamples && filled < frameSamples
      && forall i | 0 <= i < |posted| :: |posted[i]| == frameSamples
    }

    /** Everything emitted: the frames posted, then the part of the next one that is filled. */
    ghost function Output(): seq<int>
      requires Valid()
      reads this, frame
    {
      Flat(posted) + frame[..filled]
    }

    ghost function State(): Stream
      requires Valid()
      reads this, frame
    {
      Stream(cursor, tail, Output())
    }

    ghost function Meter(): Level
      reads this
    {
      Level(peak, sinceLevel, levels)
    }

    constructor (sampleRate: int, targetRate: int, frameSamples: nat)
      requires sampleRate > 0 && targetRate > 0 && frameSamples > 0
      ensures Valid() && State() == SILENT && fresh(frame)
      ensures ratio == Ratio(sampleRate, targetRate) && this.frameSamples == frameSamples
      ensures Meter() == Level(0.0, 0, []) && levelEvery == sampleRate as real / 20.0
    {
      this.ratio, this.frameSamples, levelEvery :=
        Ratio(sampleRate, targetRate), frameSamples, sampleRate as real / 20.0;
      peak, sinceLevel, levels := 0.0, 0, [];
      cursor, tail, filled, posted := 0.0, [], 0, [];
      frame := new int[frameSamples];
    }

    /** Puts one sample into the frame and posts a copy of the frame when that fills it. */
    method Push(pcm: int)
      requires Valid()
      modifies this`filled, this`posted, frame
      ensures Valid() && frame == old(frame) && Output() == old(Output()) + [pcm]
    {
      frame[filled] := pcm;
      filled := filled + 1;
      assert frame[..filled] == old(frame[..filled]) + [pcm];
      if filled == frameSamples {
        ghost var before := posted;
        posted := posted + [frame[..]];
        filled := 0;
        assert posted[..|posted| - 1] == before && frame[..] == frame[..frameSamples];
      }
    }

    /** One output sample: interpolated, clamped, converted. */
    method Resample(merged: seq<real>, pos: real)
      requires Valid() && Within(|merged|, pos)
      modifies this`filled, this`posted, this`peak, frame
      ensures Valid() && frame == old(frame) && Output() == old(Output()) + [Quantize(Sample(merged, pos))]
      ensures peak == Louder(old(peak), Magnitude(Sample(merged, pos)))
    {
      var index := pos.Floor;
      var frac := pos - index as real;
      var sample := merged[index] * (1.0 - frac) + merged[index + 1] * frac;
      var clamped := if sample < -1.0 then -1.0 else if sample > 1.0 then 1.0 else sample;
      var magnitude := if clamped < 0.0 then -clamped else clamped;
      if magnitude > peak {
        peak := magnitude;
      }
      var pcm := if clamped < 0.0 then Truncate(clamped * 32768.0) else Truncate(clamped * 32767.0);
      assert sample == Sample(merged, pos) && pcm == Quantize(sample);
      Push(pcm);
    }

    /** Every output sample from one position on. */
    method ResampleFrom(merged: seq<real>, start: real) returns (pos: real)
      requires Valid() && start >= 0.0
      modifies this`filled, this`posted, this`peak, frame
      ensures Valid() && frame == old(frame)
      ensures pos == Stop(|merged|, start, ratio) && Output() == old(Output()) + Emit(merged, start, ratio)
      ensures peak == Loudest(merged, start, ratio, old(peak))
    {
      pos := start;
      ghost var before, all := Output(), Emit(merged, start, ratio);
      while pos + 1.0 < |merged| as real
        invariant Valid() && pos >= 0.0 && frame == old(frame)
        invariant Output() + Emit(merged, pos, ratio) == before + all
        invariant Stop(|merged|, pos, ratio) == Stop(|merged|, start, ratio)
        invariant Loudest(merged, pos, ratio, peak) == Loudest(merged, start, ratio, old(peak))
        decreases Steps(|merged|, pos, ratio)
      {
        EmitFirst(merged, pos, ratio);
        OneStepLess(|merged|, pos, ratio);
        Resample(merged, pos);
        pos := pos + ratio;
      }
    }

    method Process(channel: seq<real>)
      requires Valid()
      modifies this, frame
      ensures Valid() && frame == old(frame)
      ensures State() == Worklet.Process(old(State()), channel, ratio)
      ensures Meter() == Metered(old(Meter()), channel,
                                 Loudest(old(tail) + channel, old(cursor), ratio, old(peak)), levelEvery)
    {
      if |channel| == 0 {
        return;
      }
      var merged := tail + channel;
      var pos := ResampleFrom(merged, cursor);
      var consumed := pos.Floor;
      tail := if consumed <= |merged| then merged[consumed..] else [];
      cursor := pos - consumed as real;
      sinceLevel := sinceLevel + |channel|;
      if sinceLevel as real >= levelEvery {
        levels := levels + [peak];
        peak, sinceLevel := 0.0, 0;
      }
    }
  }
}
