/**
 * The streaming linear-interpolation resampler (`AudioResampler`).
 *
 * A call turns a batch of 16-bit input frames into floating-point output frames. Output
 * frame k is taken at the fractional input position p0 + k * ratio, where p0 is the
 * position carried over from the previous call and ratio = inputRate / outputRate; it
 * interpolates, channel by channel, between the two input frames that bracket that
 * position and scales the result by 1 / 32768.
 *
 * Floating point is modelled by `real`: the position, the rates and the output samples
 * are exact, and the `(int)` cast of the non-negative position is `Floor`.
 *
 * The pure part describes one call as the function `Run`; the class methods are proved
 * against it. `Process` is the call as the source writes it; `ProcessContinuous` is the
 * corrected call that uses the cached last frame, under which a stream can be cut into
 * batches anywhere without changing the output.
 */
module Resampler {
  import opened AudioMath

  /** Full-scale magnitude of a 16-bit sample: int16 values map into [-1, 32767/32768]. */
  const FULL_SCALE: real := 32768.0

  // ---------------------------------------------------------------------------
  // One call, as a function
  // ---------------------------------------------------------------------------

  /** Linear interpolation between two samples at fraction `frac` of the way from s0 to s1. */
  function Lerp(s0: int, s1: int, frac: real): real
  {
    s0 as real + (s1 - s0) as real * frac
  }

  /** The output frame between input frames f0 and f1, channel by channel, scaled to floating range. */
  function OutFrame(f0: seq<Int16>, f1: seq<Int16>, frac: real): (f: seq<real>)
    requires |f0| == |f1|
    ensures |f| == |f0|
  {
    seq(|f0|, c requires 0 <= c < |f0| => Lerp(f0[c], f1[c], frac) / FULL_SCALE)
  }

  /**
   * The frames a call emits when it starts at position p: while fewer than `cap` frames
   * are out and input frame Floor(p) + 1 exists, emit the frame interpolated at p and move
   * p forward by `ratio`.
   */
  function Run(frames: seq<seq<Int16>>, channels: int, p: real, ratio: real, cap: int): (out: seq<seq<real>>)
    requires Uniform(frames, channels) && p >= 0.0 && ratio >= 0.0
    ensures |out| <= if cap < 0 then 0 else cap
    ensures Uniform(out, channels)
    decreases if cap < 0 then 0 else cap
  {
    if cap <= 0 || p.Floor >= |frames| - 1 then []
    else
      var i := p.Floor;
      [OutFrame(frames[i], frames[i + 1], p - i as real)] + Run(frames, channels, p + ratio, ratio, cap - 1)
  }

  /** Input frames advanced per output frame. */
  function Ratio(inputRate: real, outputRate: int): (ratio: real)
    requires outputRate > 0
    ensures inputRate >= 0.0 ==> ratio >= 0.0
    ensures ratio * outputRate as real == inputRate
  {
    inputRate / outputRate as real
  }

  /** The position after k steps of `ratio` from p, accumulated one step at a time as the loop does. */
  function Advance(p: real, ratio: real, k: nat): (q: real)
    ensures ratio >= 0.0 ==> q >= p
    decreases k
  {
    if k == 0 then p else Advance(p, ratio, k - 1) + ratio
  }

  /** The position carried to the next call: moved past the n emitted frames, rebased on the next batch, clamped at 0. */
  function Carry(p: real, n: nat, ratio: real, inputFrames: int): (q: real)
    ensures q >= 0.0
    ensures q == 0.0 || q == Advance(p, ratio, n) - inputFrames as real
    ensures q >= Advance(p, ratio, n) - inputFrames as real
  {
    var moved := Advance(p, ratio, n) - inputFrames as real;
    if moved < 0.0 then 0.0 else moved
  }

  /** A frame of 16-bit samples, scaled to floating range. */
  function Scaled(f: seq<Int16>): (g: seq<real>)
    ensures |g| == |f|
  {
    seq(|f|, c requires 0 <= c < |f| => f[c] as real / FULL_SCALE)
  }

  function ScaledFrames(frames: seq<seq<Int16>>): (out: seq<seq<real>>)
    ensures |out| == |frames|
  {
    seq(|frames|, k requires 0 <= k < |frames| => Scaled(frames[k]))
  }

  // ---------------------------------------------------------------------------
  // What one call emits
  // ---------------------------------------------------------------------------

  /** An interpolated sample lies between the two samples it interpolates. */
  lemma LerpBetween(s0: int, s1: int, frac: real)
    requires 0.0 <= frac < 1.0
    ensures s0 <= s1 ==> s0 as real <= Lerp(s0, s1, frac) <= s1 as real
    ensures s1 <= s0 ==> s1 as real <= Lerp(s0, s1, frac) <= s0 as real
  {
    if s0 <= s1 {
      assert 0.0 <= (s1 - s0) as real * frac <= (s1 - s0) as real;
    } else {
      assert (s1 - s0) as real <= (s1 - s0) as real * frac <= 0.0;
    }
  }

  /**
   * Output frame k of a call is interpolated at position p + k * ratio between input frames
   * Floor(p + k * ratio) and Floor(p + k * ratio) + 1, and the latter always exists: the
   * call never reads past its last input frame.
   */
  lemma {:induction false} RunAt(frames: seq<seq<Int16>>, channels: int, p: real, ratio: real, cap: int, k: int)
    requires Uniform(frames, channels) && p >= 0.0 && ratio >= 0.0
    requires 0 <= k < |Run(frames, channels, p, ratio, cap)|
    ensures Advance(p, ratio, k) >= 0.0
    ensures 0 <= Advance(p, ratio, k).Floor && Advance(p, ratio, k).Floor + 1 < |frames|
    ensures var q := Advance(p, ratio, k); var i := q.Floor;
            Run(frames, channels, p, ratio, cap)[k] == OutFrame(frames[i], frames[i + 1], q - i as real)
    decreases k
  {
    if k > 0 {
      var out := Run(frames, channels, p, ratio, cap);
      var rest := Run(frames, channels, p + ratio, ratio, cap - 1);
      assert out == [out[0]] + rest;
      RunAt(frames, channels, p + ratio, ratio, cap - 1, k - 1);
      OneStepFurther(p, ratio, k - 1);
      assert out[k] == rest[k - 1];
    }
  }

  /** One step and then k more is k + 1 steps. */
  lemma {:induction false} OneStepFurther(p: real, ratio: real, k: nat)
    ensures Advance(p + ratio, ratio, k) == Advance(p, ratio, k + 1)
    decreases k
  {
    if k > 0 {
      OneStepFurther(p, ratio, k - 1);
    }
  }

  /** Accumulating k steps of `ratio` is exact in the reals: p + k * ratio. */
  lemma {:induction false} AdvanceLinear(p: real, ratio: real, k: nat)
    ensures Advance(p, ratio, k) == p + k as real * ratio
    decreases k
  {
    if k > 0 {
      AdvanceLinear(p, ratio, k - 1);
      assert (k - 1) as real * ratio + ratio == k as real * ratio;
    }
  }

  /**
   * A call stops only for a reason: either `cap` frames are out, or the next position has no
   * following input frame.
   */
  lemma {:induction false} RunStops(frames: seq<seq<Int16>>, channels: int, p: real, ratio: real, cap: int)
    requires Uniform(frames, channels) && p >= 0.0 && ratio >= 0.0
    ensures var n := |Run(frames, channels, p, ratio, cap)|;
            n == cap || (n < cap && Advance(p, ratio, n).Floor >= |frames| - 1) || (cap < 0 && n == 0)
    decreases if cap < 0 then 0 else cap
  {
    if cap > 0 && p.Floor < |frames| - 1 {
      RunStops(frames, channels, p + ratio, ratio, cap - 1);
      var n := |Run(frames, channels, p + ratio, ratio, cap - 1)|;
      OneStepFurther(p, ratio, n);
    }
  }

  /** Every sample a call emits from 16-bit input lies within [-1, 32767/32768]. */
  lemma RunSampleRange(frames: seq<seq<Int16>>, channels: int, p: real, ratio: real, cap: int, k: int, c: int)
    requires Uniform(frames, channels) && p >= 0.0 && ratio >= 0.0
    requires 0 <= k < |Run(frames, channels, p, ratio, cap)| && 0 <= c < channels
    ensures -1.0 <= Run(frames, channels, p, ratio, cap)[k][c] <= 32767.0 / FULL_SCALE
  {
    RunAt(frames, channels, p, ratio, cap, k);
    var q := Advance(p, ratio, k);
    var i := q.Floor;
    LerpBetween(frames[i][c], frames[i + 1][c], q - i as real);
  }

  /** With equal rates, starting on frame k, a call copies frames k, k + 1, ... up to but not including the last one. */
  lemma {:induction false} IdentityRun(frames: seq<seq<Int16>>, channels: int, k: int, cap: int)
    requires Uniform(frames, channels) && 0 <= k < |frames| && cap >= |frames| - 1 - k
    ensures Run(frames, channels, k as real, 1.0, cap) == ScaledFrames(frames[k..|frames| - 1])
    decreases |frames| - k
  {
    if k < |frames| - 1 {
      IdentityRun(frames, channels, k + 1, cap - 1);
      assert (k as real + 1.0) == (k + 1) as real;
      assert OutFrame(frames[k], frames[k + 1], 0.0) == Scaled(frames[k]);
      assert frames[k..|frames| - 1] == [frames[k]] + frames[k + 1..|frames| - 1];
    }
  }

  // ---------------------------------------------------------------------------
  // Cutting the input into batches
  // ---------------------------------------------------------------------------

  /** A call with room that has not reached the last input frame emits one frame, then carries on one step further. */
  lemma RunStep(frames: seq<seq<Int16>>, channels: int, p: real, ratio: real, cap: int)
    requires Uniform(frames, channels) && p >= 0.0 && ratio >= 0.0
    requires cap > 0 && p.Floor < |frames| - 1
    ensures 0 <= p.Floor && p.Floor + 1 < |frames|
    ensures Run(frames, channels, p, ratio, cap)
         == [OutFrame(frames[p.Floor], frames[p.Floor + 1], p - p.Floor as real)] + Run(frames, channels, p + ratio, ratio, cap - 1)
  {
  }

  /**
   * A call over a longer input first emits what the call over a prefix of it emits, then
   * continues from where that one stopped.
   */
  lemma {:induction false} RunPrefix(v: seq<seq<Int16>>, w: seq<seq<Int16>>, channels: int, p: real, ratio: real, cap: int)
    requires Uniform(w, channels) && 1 <= |v| <= |w| && v == w[..|v|] && p >= 0.0 && ratio >= 0.0
    ensures Uniform(v, channels)
    ensures var head := Run(v, channels, p, ratio, cap);
            Run(w, channels, p, ratio, cap) == head + Run(w, channels, Advance(p, ratio, |head|), ratio, cap - |head|)
    decreases if cap < 0 then 0 else cap
  {
    UniformSlice(w, 0, |v|, channels);
    if cap > 0 && p.Floor < |v| - 1 {
      var i := p.Floor;
      assert v[i] == w[i] && v[i + 1] == w[i + 1];
      assert Uniform(v, channels);
      RunPrefix(v, w, channels, p + ratio, ratio, cap - 1);
      PrefixStep(v, w, channels, p, ratio, cap);
    } else {
      assert Run(v, channels, p, ratio, cap) == [];
    }
  }

  /** The inductive step of RunPrefix: the claim one frame further on gives the claim here. */
  lemma PrefixStep(v: seq<seq<Int16>>, w: seq<seq<Int16>>, channels: int, p: real, ratio: real, cap: int)
    requires Uniform(w, channels) && Uniform(v, channels) && 1 <= |v| <= |w| && p >= 0.0 && ratio >= 0.0
    requires cap > 0 && p.Floor < |v| - 1 && v[p.Floor] == w[p.Floor] && v[p.Floor + 1] == w[p.Floor + 1]
    requires var tail := Run(v, channels, p + ratio, ratio, cap - 1);
             Run(w, channels, p + ratio, ratio, cap - 1)
             == tail + Run(w, channels, Advance(p + ratio, ratio, |tail|), ratio, cap - 1 - |tail|)
    ensures var head := Run(v, channels, p, ratio, cap);
            Run(w, channels, p, ratio, cap) == head + Run(w, channels, Advance(p, ratio, |head|), ratio, cap - |head|)
  {
    var i := p.Floor;
    var tail := Run(v, channels, p + ratio, ratio, cap - 1);
    var rest := Run(w, channels, Advance(p + ratio, ratio, |tail|), ratio, cap - 1 - |tail|);
    var f := OutFrame(w[i], w[i + 1], p - i as real);
    RunStep(v, channels, p, ratio, cap);
    RunStep(w, channels, p, ratio, cap);
    OneStepFurther(p, ratio, |tail|);
    AppendAssoc([f], tail, rest);
  }

  /** Moving the origin of the input forward by d whole frames, and the position back by d, changes nothing. */
  lemma {:induction false} RunShift(w: seq<seq<Int16>>, channels: int, p: real, ratio: real, cap: int, d: int)
    requires Uniform(w, channels) && 0 <= d <= |w| && d as real <= p && ratio >= 0.0
    ensures Uniform(w[d..], channels)
    ensures Run(w, channels, p, ratio, cap) == Run(w[d..], channels, p - d as real, ratio, cap)
    decreases if cap < 0 then 0 else cap
  {
    assert Uniform(w[d..], channels) by {
      forall k | 0 <= k < |w[d..]| ensures |w[d..][k]| == channels {
        assert w[d..][k] == w[d + k];
      }
    }
    var i := p.Floor;
    assert (p - d as real).Floor == i - d;
    if cap > 0 && i < |w| - 1 {
      assert w[d..][i - d] == w[i] && w[d..][i - d + 1] == w[i + 1];
      RunShift(w, channels, p + ratio, ratio, cap - 1, d);
      assert p + ratio - d as real == p - d as real + ratio;
    }
  }

  /**
   * A call over w that is not cut short while still inside the prefix v emits what the call over
   * v emits, then what a call emits over w from the last frame of v on, at the position reached
   * less the |v| - 1 frames skipped, which is not negative.
   */
  lemma SplitAt(v: seq<seq<Int16>>, w: seq<seq<Int16>>, channels: int, p: real, ratio: real, cap: int)
    requires Uniform(w, channels) && 1 <= |v| <= |w| && v == w[..|v|] && p >= 0.0 && ratio >= 0.0
    requires |Run(v, channels, p, ratio, cap)| < cap
    ensures var n := |Run(v, channels, p, ratio, cap)|;
            var q := Advance(p, ratio, n) - (|v| - 1) as real;
            && q >= 0.0
            && Run(w, channels, p, ratio, cap) == Run(v, channels, p, ratio, cap) + Run(w[|v| - 1..], channels, q, ratio, cap - n)
  {
    RunPrefix(v, w, channels, p, ratio, cap);
    var n := |Run(v, channels, p, ratio, cap)|;
    RunStops(v, channels, p, ratio, cap);
    RunShift(w, channels, Advance(p, ratio, n), ratio, cap - n, |v| - 1);
  }

  /**
   * The corrected streaming call interpolates over the cached last frame of the previous
   * batch followed by the new batch. Cutting a stream into two batches then emits exactly what
   * one call over the whole stream emits, provided the first call was not cut short by its
   * output capacity; and the carried position needs no clamping.
   */
  lemma StreamingSplit(last: seq<Int16>, a: seq<seq<Int16>>, b: seq<seq<Int16>>, channels: int, p: real, ratio: real, cap: int)
    requires |last| == channels && Uniform(a, channels) && Uniform(b, channels) && |a| >= 1
    requires p >= 0.0 && ratio >= 0.0
    requires |Run([last] + a, channels, p, ratio, cap)| < cap
    ensures var first := Run([last] + a, channels, p, ratio, cap);
            var q := Advance(p, ratio, |first|) - |a| as real;
            && q >= 0.0 && Carry(p, |first|, ratio, |a|) == q
            && Run([last] + a + b, channels, p, ratio, cap)
               == first + Run([a[|a| - 1]] + b, channels, q, ratio, cap - |first|)
  {
    var v := [last] + a;
    var w := v + b;
    UniformAppend([last], a, channels);
    UniformAppend(v, b, channels);
    JoinCuts(last, a, b);
    assert |v| - 1 == |a| && w[..|v|] == v && w[|v| - 1..] == [a[|a| - 1]] + b;
    SplitAt(v, w, channels, p, ratio, cap);
  }

  /**
   * As written, a call with equal rates at position 0 and room for the output emits
   * inputFrames - 1 frames, copies of input frames 0 .. inputFrames - 2, and carries position 0:
   * the last frame of every batch is never emitted.
   */
  lemma IdentityAsWritten(frames: seq<seq<Int16>>, channels: int, cap: int)
    requires Uniform(frames, channels) && |frames| >= 1 && cap >= |frames| - 1
    ensures Run(frames, channels, 0.0, 1.0, cap) == ScaledFrames(frames[..|frames| - 1])
    ensures Carry(0.0, |frames| - 1, 1.0, |frames|) == 0.0
  {
    IdentityRun(frames, channels, 0, cap);
    assert frames[0..|frames| - 1] == frames[..|frames| - 1];
    AdvanceLinear(0.0, 1.0, |frames| - 1);
  }

  /**
   * As written, two calls with equal rates over batches a and b emit one frame fewer than one
   * call over a + b: frame a[|a| - 1] is lost at the boundary.
   */
  lemma AsWrittenLosesBoundaryFrame(a: seq<seq<Int16>>, b: seq<seq<Int16>>, channels: int, cap: int)
    requires Uniform(a, channels) && Uniform(b, channels) && |a| >= 1 && |b| >= 1
    requires cap >= |a| + |b|
    ensures var first := Run(a, channels, 0.0, 1.0, cap);
            var q := Carry(0.0, |first|, 1.0, |a|);
            && q == 0.0
            && |first + Run(b, channels, q, 1.0, cap - |first|)| == |a| + |b| - 2
            && |Run(a + b, channels, 0.0, 1.0, cap)| == |a| + |b| - 1
  {
    IdentityAsWritten(a, channels, cap);
    IdentityAsWritten(b, channels, cap - (|a| - 1));
    UniformAppend(a, b, channels);
    IdentityAsWritten(a + b, channels, cap);
  }

  /**
   * Corrected, a call with equal rates at position 0 emits the cached frame followed by input
   * frames 0 .. inputFrames - 2 (inputFrames frames: one per input frame, delayed by one) and
   * carries position 0.
   */
  lemma IdentityContinuous(last: seq<Int16>, frames: seq<seq<Int16>>, channels: int, cap: int)
    requires |last| == channels && Uniform(frames, channels) && |frames| >= 1 && cap >= |frames|
    ensures Run([last] + frames, channels, 0.0, 1.0, cap) == [Scaled(last)] + ScaledFrames(frames[..|frames| - 1])
    ensures Carry(0.0, |frames|, 1.0, |frames|) == 0.0
  {
    var v := [last] + frames;
    UniformAppend([last], frames, channels);
    IdentityRun(v, channels, 0, cap);
    AdvanceLinear(0.0, 1.0, |frames|);
    assert v[0..|v| - 1] == [last] + frames[..|frames| - 1];
    assert ScaledFrames([last] + frames[..|frames| - 1]) == [Scaled(last)] + ScaledFrames(frames[..|frames| - 1]);
  }

  // ---------------------------------------------------------------------------
  // The resampler object
  // ---------------------------------------------------------------------------

  /** The first inputFrames frames of an interleaved batch (none when the count is negative). */
  function Batch(input: seq<Int16>, channels: nat, inputFrames: int): (frames: seq<seq<Int16>>)
    requires (if inputFrames < 0 then 0 else inputFrames) * channels <= |input|
    ensures Uniform(frames, channels) && |frames| == if inputFrames < 0 then 0 else inputFrames
  {
    Chunks(input, channels, if inputFrames < 0 then 0 else inputFrames)
  }

  /**
   * The per-channel loop of a call: output frame k becomes the frame between input frames i
   * and i + 1 at fraction `frac`; no other output element changes.
   */
  method InterpolateFrame(input: array<Int16>, ghost frames: seq<seq<Int16>>, channels: int, i: int, frac: real,
                          output: array<real>, k: int)
    requires channels > 0 && 0 <= i && i + 1 < |frames| && |frames| * channels <= input.Length
    requires frames == Chunks(input[..], channels, |frames|)
    requires 0 <= k && k * channels + channels <= output.Length
    modifies output
    ensures forall c :: 0 <= c < channels ==>
              output[Idx(k, c, channels)] == OutFrame(frames[i], frames[i + 1], frac)[c]
    ensures forall j :: 0 <= j < output.Length && !(k * channels <= j < k * channels + channels) ==>
              output[j] == old(output[j])
  {
    var f := OutFrame(frames[i], frames[i + 1], frac);
    var lo := k * channels;
    var ch := 0;
    while ch < channels
      invariant 0 <= ch <= channels
      invariant forall c :: 0 <= c < ch ==> output[Idx(k, c, channels)] == f[c]
      invariant forall j :: 0 <= j < output.Length && !(lo <= j < lo + ch) ==> output[j] == old(output[j])
    {
      ChunksAt(input[..], channels, |frames|, i, ch);
      ChunksAt(input[..], channels, |frames|, i + 1, ch);
      var sample0 := input[Idx(i, ch, channels)];
      var sample1 := input[Idx(i + 1, ch, channels)];
      // int16 operands are promoted to int before the subtraction
      var interpolated := Lerp(sample0 as int, sample1 as int, frac);
      assert f[ch] == interpolated / FULL_SCALE;
      output[Idx(k, ch, channels)] := interpolated / FULL_SCALE;
      ch := ch + 1;
    }
  }

  /**
   * The interpolation loop of a call over `frames` (the interleaved contents of `input`):
   * starting at position p, while fewer than outputCapacity frames are out and input frame
   * Floor(position) + 1 exists, emit the frame interpolated at the position and advance it
   * by `ratio`. Returns the number of frames emitted and the final position.
   */
  method Interpolate(input: array<Int16>, inputFrames: int, ghost frames: seq<seq<Int16>>, channels: int,
                     output: array<real>, outputCapacity: int, p: real, ratio: real)
    returns (outputFrames: int, position: real)
    requires |frames| == if inputFrames < 0 then 0 else inputFrames
    requires channels > 0 && |frames| * channels <= input.Length
    requires frames == Chunks(input[..], channels, |frames|)
    requires outputCapacity > 0 ==> outputCapacity * channels <= output.Length
    requires p >= 0.0 && ratio >= 0.0
    modifies output
    ensures outputFrames == |Run(frames, channels, p, ratio, outputCapacity)|
    ensures position == Advance(p, ratio, outputFrames)
    ensures outputFrames * channels <= output.Length
    ensures Chunks(output[..], channels, outputFrames) == Run(frames, channels, p, ratio, outputCapacity)
    ensures output[outputFrames * channels..] == old(output[outputFrames * channels..])
  {
    ghost var out := Run(frames, channels, p, ratio, outputCapacity);
    ghost var before := output[..];
    MulMono(|out|, if outputCapacity < 0 then 0 else outputCapacity, channels);
    outputFrames := 0;
    position := p;
    while outputFrames < outputCapacity
      invariant 0 <= outputFrames <= |out|
      invariant position == Advance(p, ratio, outputFrames)
      invariant WrittenUpTo(output[..], Overlay(before, out, channels), before, outputFrames * channels)
    {
      var inputIndex := position.Floor;
      if inputIndex >= inputFrames - 1 {
        break;
      }
      var frac := position - inputIndex as real;
      EmitFrame(input, frames, channels, inputIndex, frac, output, before, p, ratio, outputCapacity, outputFrames);
      AdvanceStep(p, ratio, outputFrames);
      outputFrames := outputFrames + 1;
      position := position + ratio;
    }
    RunEnd(frames, channels, p, ratio, outputCapacity, outputFrames);
    OverlayChunks(output[..], before, out, channels);
  }

  /**
   * Writes output frame k of the call starting at p, the frame between input frames i and
   * i + 1 at fraction frac where i and frac split the k-th position, into a buffer filled up
   * to frame k.
   */
  method EmitFrame(input: array<Int16>, ghost frames: seq<seq<Int16>>, channels: int, i: int, frac: real,
                   output: array<real>, ghost before: seq<real>, ghost p: real, ghost ratio: real,
                   ghost cap: int, k: int)
    requires channels > 0 && |frames| * channels <= input.Length
    requires frames == Chunks(input[..], channels, |frames|)
    requires p >= 0.0 && ratio >= 0.0 && 0 <= k < cap
    requires k <= |Run(frames, channels, p, ratio, cap)|
    requires |Run(frames, channels, p, ratio, cap)| * channels <= |before|
    requires i == Advance(p, ratio, k).Floor && i < |frames| - 1 && frac == Advance(p, ratio, k) - i as real
    requires WrittenUpTo(output[..], Overlay(before, Run(frames, channels, p, ratio, cap), channels), before, k * channels)
    modifies output
    ensures k < |Run(frames, channels, p, ratio, cap)|
    ensures WrittenUpTo(output[..], Overlay(before, Run(frames, channels, p, ratio, cap), channels), before, (k + 1) * channels)
  {
    ghost var out := Run(frames, channels, p, ratio, cap);
    RunNext(frames, channels, p, ratio, cap, k);
    ghost var f := OutFrame(frames[i], frames[i + 1], frac);
    assert out[k] == f;
    FrameEnd(k, |out|, channels);
    ghost var prev := output[..];
    InterpolateFrame(input, frames, channels, i, frac, output, k);
    ghost var cur := output[..];
    assert forall c :: 0 <= c < channels ==> cur[Idx(k, c, channels)] == f[c];
    OverlayStep(prev, cur, before, out, channels, k);
  }

  /** While the loop has neither filled the output nor run out of input, its next frame is the next frame of Run. */
  lemma RunNext(frames: seq<seq<Int16>>, channels: int, p: real, ratio: real, cap: int, k: int)
    requires Uniform(frames, channels) && p >= 0.0 && ratio >= 0.0
    requires 0 <= k < cap && k <= |Run(frames, channels, p, ratio, cap)|
    requires Advance(p, ratio, k).Floor < |frames| - 1
    ensures k < |Run(frames, channels, p, ratio, cap)|
    ensures var q := Advance(p, ratio, k); var i := q.Floor;
            0 <= i && Run(frames, channels, p, ratio, cap)[k] == OutFrame(frames[i], frames[i + 1], q - i as real)
  {
    RunStops(frames, channels, p, ratio, cap);
    RunAt(frames, channels, p, ratio, cap, k);
  }

  /** Once the loop has filled the output or run out of input, it has emitted exactly the frames of Run. */
  lemma RunEnd(frames: seq<seq<Int16>>, channels: int, p: real, ratio: real, cap: int, k: int)
    requires Uniform(frames, channels) && p >= 0.0 && ratio >= 0.0
    requires 0 <= k <= |Run(frames, channels, p, ratio, cap)|
    requires k >= cap || Advance(p, ratio, k).Floor >= |frames| - 1
    ensures k == |Run(frames, channels, p, ratio, cap)|
  {
    if k < |Run(frames, channels, p, ratio, cap)| {
      RunAt(frames, channels, p, ratio, cap, k);
    }
  }

  lemma AdvanceStep(p: real, ratio: real, k: nat)
    ensures Advance(p, ratio, k + 1) == Advance(p, ratio, k) + ratio
  {
  }

  /** Copies input frame i into the cache. */
  method CacheFrame(input: array<Int16>, ghost frames: seq<seq<Int16>>, channels: int, i: int, cache: array<Int16>)
    requires channels > 0 && 0 <= i < |frames| && |frames| * channels <= input.Length
    requires frames == Chunks(input[..], channels, |frames|)
    requires cache.Length == channels && cache != input
    modifies cache
    ensures cache[..] == frames[i]
  {
    var ch := 0;
    while ch < channels
      invariant 0 <= ch <= channels
      invariant forall c :: 0 <= c < ch ==> cache[c] == frames[i][c]
    {
      ChunksAt(input[..], channels, |frames|, i, ch);
      cache[ch] := input[i * channels + ch];
      ch := ch + 1;
    }
  }

  /** A fresh interleaved buffer holding frame `head` followed by the first n frames of `input`. */
  method Join(head: array<Int16>, input: array<Int16>, n: int, channels: int) returns (joined: array<Int16>)
    requires channels > 0 && head.Length == channels && 0 <= n && n * channels <= input.Length
    ensures fresh(joined) && joined.Length == (n + 1) * channels
    ensures joined[..] == head[..] + input[..n * channels]
  {
    Distrib(n, 1, channels);
    var m := n * channels;
    joined := new Int16[m + channels];
    var j := 0;
    while j < channels
      invariant 0 <= j <= channels
      invariant forall t :: 0 <= t < j ==> joined[t] == head[t]
    {
      joined[j] := head[j];
      j := j + 1;
    }
    while j < m + channels
      invariant channels <= j <= m + channels
      invariant forall t :: 0 <= t < channels ==> joined[t] == head[t]
      invariant forall t :: channels <= t < j ==> joined[t] == input[t - channels]
    {
      joined[j] := input[j - channels];
      j := j + 1;
    }
    assert joined[..] == head[..] + input[..m];
  }

  class AudioResampler {
    var initialized: bool
    var inputRate: real
    var outputRate: int
    var channels: int
    /** Fractional position in the input, relative to the current batch. */
    var position: real
    /** The last frame of the previous batch; null before Initialize and after Shutdown. */
    var lastFrame: array?<Int16>

    ghost predicate Valid()
      reads this
    {
      && position >= 0.0
      && (initialized ==> outputRate > 0 && channels > 0 && lastFrame != null && lastFrame.Length == channels)
    }

    constructor ()
      ensures Valid() && !initialized
      ensures inputRate == 0.0 && outputRate == 0 && channels == 0 && position == 0.0 && lastFrame == null
    {
      initialized := false;
      inputRate := 0.0;
      outputRate := 0;
      channels := 0;
      position := 0.0;
      lastFrame := null;
    }

    /**
     * Accepts only positive rates and a positive channel count; on success the position
     * starts at 0 and the cached frame is silence.
     */
    method Initialize(inRate: real, outRate: Int32, numChannels: Int32) returns (ok: bool)
      requires Valid()
      modifies this
      ensures Valid()
      ensures ok <==> inRate > 0.0 && outRate > 0 && numChannels > 0
      ensures !ok ==> unchanged(this)
      ensures ok ==> && initialized && inputRate == inRate && outputRate == outRate && channels == numChannels
                     && position == 0.0 && lastFrame != null && fresh(lastFrame)
                     && lastFrame[..] == seq(numChannels, _ => 0)
    {
      if inRate <= 0.0 || outRate <= 0 || numChannels <= 0 {
        return false;
      }
      inputRate := inRate;
      outputRate := outRate;
      channels := numChannels;
      position := 0.0;
      lastFrame := new Int16[numChannels](_ => 0);
      initialized := true;
      ok := true;
    }

    /** Drops the cached frame and returns to the uninitialised state at position 0. */
    method Shutdown()
      requires Valid()
      modifies this
      ensures Valid() && !initialized && position == 0.0 && lastFrame == null
      ensures inputRate == old(inputRate) && outputRate == old(outputRate) && channels == old(channels)
    {
      if lastFrame != null {
        lastFrame := null;
      }
      initialized := false;
      position := 0.0;
    }

    /** Whether Process will do any work; when it reports true, the object is ready to interpolate. */
    function IsInitialized(): (b: bool)
      reads this
      requires Valid()
      ensures b <==> initialized
      ensures b ==> outputRate > 0 && channels > 0 && lastFrame != null && lastFrame.Length == channels
    {
      initialized
    }

    /** Changes the input rate for later calls; nothing else, and no validation. */
    method SetInputRate(newInputRate: real)
      requires Valid()
      modifies this`inputRate
      ensures Valid() && inputRate == newInputRate
    {
      inputRate := newInputRate;
    }

    /**
     * One call as written: emits Run over the batch from the carried position, caches the
     * batch's last frame and carries the position past the batch, clamped at 0. Without
     * initialisation, input or output, or with an empty batch or no room, it does nothing.
     */
    method Process(input: array?<Int16>, inputFrames: Int32, output: array?<real>, outputCapacity: Int32) returns (n: int)
      requires Valid()
      requires initialized ==> inputRate >= 0.0
      requires input != null && inputFrames > 0 ==> inputFrames * channels <= input.Length
      requires output != null && outputCapacity > 0 ==> outputCapacity * channels <= output.Length
      requires input != lastFrame
      modifies this`position, output, lastFrame
      ensures Valid()
      ensures old(!initialized || input == null || output == null || inputFrames == 0 || outputCapacity == 0) ==>
                && n == 0 && position == old(position)
                && (output != null ==> unchanged(output)) && (lastFrame != null ==> unchanged(lastFrame))
      ensures old(initialized && input != null && output != null && inputFrames != 0 && outputCapacity != 0) ==>
                0 <= n && n * channels <= output.Length
      ensures old(initialized && input != null && output != null && inputFrames != 0 && outputCapacity != 0) ==>
                var frames := Batch(input[..], channels, inputFrames);
                var ratio := Ratio(old(inputRate), outputRate);
                var out := Run(frames, channels, old(position), ratio, outputCapacity);
                && n == |out|
                && Chunks(output[..], channels, n) == out
                && output[n * channels..] == old(output[n * channels..])
                && (inputFrames > 0 ==> lastFrame[..] == frames[inputFrames - 1])
                && (inputFrames < 0 ==> unchanged(lastFrame))
                && position == Carry(old(position), n, ratio, inputFrames)
    {
      if !initialized || input == null || output == null || inputFrames == 0 || outputCapacity == 0 {
        return 0;
      }
      var ratio := Ratio(inputRate, outputRate);
      ghost var p0 := position;
      ghost var frames := Batch(input[..], channels, inputFrames);
      var outputFrames;
      outputFrames, position := Interpolate(input, inputFrames, frames, channels, output, outputCapacity, position, ratio);
      if inputFrames > 0 {
        CacheFrame(input, frames, channels, inputFrames - 1, lastFrame);
      }
      position := position - inputFrames as real;
      if position < 0.0 {
        position := 0.0;
      }
      n := outputFrames;
      assert position == Carry(p0, n, ratio, inputFrames);
    }

    /**
     * One call corrected: the batch is interpolated behind the cached last frame of the
     * previous batch, so the interval between two batches is emitted like any other. Everything
     * else (degenerate cases, caching, carrying the position) is as in Process.
     */
    method ProcessContinuous(input: array?<Int16>, inputFrames: Int32, output: array?<real>, outputCapacity: Int32) returns (n: int)
      requires Valid()
      requires initialized ==> inputRate >= 0.0
      requires input != null && inputFrames > 0 ==> inputFrames * channels <= input.Length
      requires output != null && outputCapacity > 0 ==> outputCapacity * channels <= output.Length
      requires input != lastFrame
      modifies this`position, output, lastFrame
      ensures Valid()
      ensures old(!initialized || input == null || output == null || inputFrames == 0 || outputCapacity == 0) ==>
                && n == 0 && position == old(position)
                && (output != null ==> unchanged(output)) && (lastFrame != null ==> unchanged(lastFrame))
      ensures old(initialized && input != null && output != null && inputFrames != 0 && outputCapacity != 0) ==>
                0 <= n && n * channels <= output.Length
      ensures old(initialized && input != null && output != null && inputFrames != 0 && outputCapacity != 0) ==>
                var frames := Batch(input[..], channels, inputFrames);
                var ratio := Ratio(old(inputRate), outputRate);
                var out := Run([old(lastFrame[..])] + frames, channels, old(position), ratio, outputCapacity);
                && n == |out|
                && Chunks(output[..], channels, n) == out
                && output[n * channels..] == old(output[n * channels..])
                && (inputFrames > 0 ==> lastFrame[..] == frames[inputFrames - 1])
                && (inputFrames < 0 ==> unchanged(lastFrame))
                && position == Carry(old(position), n, ratio, inputFrames)
    {
      if !initialized || input == null || output == null || inputFrames == 0 || outputCapacity == 0 {
        return 0;
      }
      var ratio := Ratio(inputRate, outputRate);
      ghost var p0 := position;
      ghost var frames := Batch(input[..], channels, inputFrames);
      var count: int := if inputFrames < 0 then 0 else inputFrames;
      var joined := Join(lastFrame, input, count, channels);
      ghost var all := [lastFrame[..]] + frames;
      ChunksPrefix(input[..], input[..count * channels], channels, count);
      ChunksCons(lastFrame[..], input[..count * channels], channels, count);
      assert all == Chunks(joined[..], channels, count + 1);
      UniformAppend([lastFrame[..]], frames, channels);
      var outputFrames;
      outputFrames, position := Interpolate(joined, count + 1, all, channels, output, outputCapacity, position, ratio);
      if inputFrames > 0 {
        CacheFrame(input, frames, channels, inputFrames - 1, lastFrame);
      }
      position := position - inputFrames as real;
      if position < 0.0 {
        position := 0.0;
      }
      n := outputFrames;
      assert position == Carry(p0, n, ratio, inputFrames);
    }
  }
}
