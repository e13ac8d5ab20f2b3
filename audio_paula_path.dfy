/**
 * The decisions of the coordinator's legacy batched path (AudioLayer2::ProcessFromPaula), which
 * takes a whole block of Paula frames with the emulator's timing: which Paula rates it
 * accepts, how it nudges the resampler's input rate by the fill of the output ring, when it
 * restarts the resampler, and how much output room it reserves for the block.
 */
module PaulaPath {
  import opened Layer2
  import opened SampleFormat

  /** Paula rates outside [1000, 200000] Hz are ignored. */
  const MIN_PAULA_RATE: real := 1000.0
  const MAX_PAULA_RATE: real := 200000.0

  /** The output ring is steered toward a quarter full, with a dead band of 5 points either side. */
  const TARGET_FILL: real := 0.25
  const FILL_TOLERANCE: real := 0.05

  /** The factors the resampler's input rate is nudged by below and above the dead band. */
  const PITCH_DOWN: real := 0.9998
  const PITCH_UP: real := 1.0002

  /** A rate change of more than this many hertz restarts the resampler. */
  const RESTART_JUMP: real := 100.0

  /** Frames of output room reserved beyond the block's expected output. */
  const OUTPUT_MARGIN: int := 10

  /**
   * Paula's rate: emulator cycles per second over cycles per sample. None when there are no
   * cycles per sample, where the quotient has no finite value.
   */
  function PaulaRate(syncCyclesPerSec: real, cpuCyclesPerSample: real): (r: Option<real>)
    ensures r.Some? <==> cpuCyclesPerSample != 0.0
    ensures r.Some? ==> r.value * cpuCyclesPerSample == syncCyclesPerSec
  {
    if cpuCyclesPerSample == 0.0 then None else Some(syncCyclesPerSec / cpuCyclesPerSample)
  }

  predicate RateInBand(rate: real)
  {
    MIN_PAULA_RATE <= rate <= MAX_PAULA_RATE
  }

  /** The factor applied to Paula's rate for an output ring `fill` full. */
  function DriftAdjustment(fill: real): (d: real)
    ensures PITCH_DOWN <= d <= PITCH_UP
  {
    if fill < TARGET_FILL - FILL_TOLERANCE then PITCH_DOWN
    else if fill > TARGET_FILL + FILL_TOLERANCE then PITCH_UP
    else 1.0
  }

  /** The nudged rate lies between the rate pitched down and the rate pitched up. */
  lemma NudgeWithin(rate: real, fill: real)
    requires rate >= 0.0
    ensures rate * PITCH_DOWN <= rate * DriftAdjustment(fill) <= rate * PITCH_UP
  {
    MulLe(rate, PITCH_DOWN, DriftAdjustment(fill));
    MulLe(rate, DriftAdjustment(fill), PITCH_UP);
  }

  lemma CancelPositive(a: real, b: real, k: real)
    requires k > 0.0 && a * k == b * k
    ensures a == b
  {
    assert (a - b) * k == 0.0;
  }

  /**
   * The nudge steers the fill toward the target: below the dead band the resampler assumes a
   * slower Paula, so each Paula frame yields more host frames; above it, fewer; inside it,
   * exactly the measured ratio.
   */
  lemma DriftSteersFill(fill: real, rate: real, target: int)
    requires rate > 0.0 && target > 0
    ensures var e, e0 := OutputPerInput(target, rate * DriftAdjustment(fill)), OutputPerInput(target, rate);
            && (fill < TARGET_FILL - FILL_TOLERANCE ==> e > e0)
            && (fill > TARGET_FILL + FILL_TOLERANCE ==> e < e0)
            && (TARGET_FILL - FILL_TOLERANCE <= fill <= TARGET_FILL + FILL_TOLERANCE ==> e == e0)
  {
    var d := DriftAdjustment(fill);
    var e, e0 := OutputPerInput(target, rate * d), OutputPerInput(target, rate);
    assert (e * d) * rate == e0 * rate;
    CancelPositive(e * d, e0, rate);
    assert e0 > 0.0;
    assert e - e0 == e * (1.0 - d);
  }

  /**
   * The host frames a block of frameCount Paula frames is expected to yield at Paula's rate,
   * truncated toward zero as the C cast does.
   */
  function BlockOutput(frameCount: int, target: int, rate: real): (n: int)
    requires target > 0 && rate > 0.0
    ensures frameCount >= 0 ==> 0 <= n && n as real <= frameCount as real * OutputPerInput(target, rate) < n as real + 1.0
  {
    var x := (frameCount * target) as real / rate;
    assert x == frameCount as real * OutputPerInput(target, rate) by {
      var y := frameCount as real * OutputPerInput(target, rate);
      assert y * rate == frameCount as real * (OutputPerInput(target, rate) * rate);
      CancelPositive(x, y, rate);
    }
    TruncToZero(x)
  }

  /** What the legacy path does with one block it accepts. */
  datatype Plan = Plan(
    /** Paula's measured rate; it becomes the last rate after a restart. */
    paulaRate: real,
    /** The nudged rate the resampler is set to. */
    inputRate: real,
    /** Whether the resampler is shut down and initialised afresh. */
    restart: bool,
    /** The output room reserved for the block, in frames. */
    outputFrames: int)

  /**
   * The plan for a block of frameCount frames: None when the coordinator is not initialised,
   * there are no samples, the block is empty or Paula's rate is unknown or out of band.
   */
  function PlanBlock(initialized: bool, hasSamples: bool, frameCount: int, cpuCyclesPerSample: real,
                     syncCyclesPerSec: real, fill: real, lastPaulaRate: real, target: int): (p: Option<Plan>)
    requires initialized ==> target > 0
    ensures p.Some? <==> && initialized && hasSamples && frameCount != 0
                         && var r := PaulaRate(syncCyclesPerSec, cpuCyclesPerSample);
                            r.Some? && RateInBand(r.value)
    ensures p.Some? ==> var q := p.value;
                          && PaulaRate(syncCyclesPerSec, cpuCyclesPerSample) == Some(q.paulaRate)
                          && q.inputRate == q.paulaRate * DriftAdjustment(fill)
                          && q.paulaRate * PITCH_DOWN <= q.inputRate <= q.paulaRate * PITCH_UP
                          && (q.restart <==> q.paulaRate - lastPaulaRate > RESTART_JUMP
                                             || lastPaulaRate - q.paulaRate > RESTART_JUMP)
                          && q.outputFrames == BlockOutput(frameCount, target, q.paulaRate) + OUTPUT_MARGIN
  {
    if !initialized || !hasSamples || frameCount == 0 then None
    else
      match PaulaRate(syncCyclesPerSec, cpuCyclesPerSample)
      case None => None
      case Some(rate) =>
        if !RateInBand(rate) then None
        else Some(Accept(rate, frameCount, fill, lastPaulaRate, target))
  }

  /** The plan for a block at an accepted Paula rate. */
  function Accept(rate: real, frameCount: int, fill: real, lastPaulaRate: real, target: int): (q: Plan)
    requires target > 0 && RateInBand(rate)
    ensures q.paulaRate == rate && q.inputRate == rate * DriftAdjustment(fill)
    ensures rate * PITCH_DOWN <= q.inputRate <= rate * PITCH_UP
    ensures q.restart <==> rate - lastPaulaRate > RESTART_JUMP || lastPaulaRate - rate > RESTART_JUMP
    ensures q.outputFrames == BlockOutput(frameCount, target, rate) + OUTPUT_MARGIN
  {
    NudgeWithin(rate, fill);
    var jump := if rate >= lastPaulaRate then rate - lastPaulaRate else lastPaulaRate - rate;
    Plan(rate, rate * DriftAdjustment(fill), jump > RESTART_JUMP, BlockOutput(frameCount, target, rate) + OUTPUT_MARGIN)
  }
}
