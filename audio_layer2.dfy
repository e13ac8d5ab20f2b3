/**
 * The layer-2 coordinator of the audio bridge (`AudioLayer2`): Paula pushes one stereo frame
 * at a time into a small input ring together with a timing hint; the coordinator estimates
 * Paula's true sample rate from the hints, resamples batches of input frames to the host
 * rate and queues them in the output ring, from which the host audio callback pulls.
 *
 * This module holds the rate estimator (an outlier-rejecting exponential moving average),
 * the batch-size arithmetic, and the component-level steps (build, release, enqueue, one
 * resampling batch) over the verified ring buffers and resampler; module Coordinator holds
 * the `AudioLayer2` class that owns the components and sequences those steps.
 */
module Layer2 {
  import opened AudioMath
  import opened RingBuffer
  import opened Resampler

  // ---------------------------------------------------------------------------
  // Rate estimator
  // ---------------------------------------------------------------------------

  /** The running estimate of Paula's output rate; currentRate == 0 means "no estimate yet". */
  datatype RateMeasurement = RateMeasurement(currentRate: real, emaRate: real, sampleCount: nat)

  const NO_ESTIMATE: RateMeasurement := RateMeasurement(0.0, 0.0, 0)

  /** Weight of a new measurement in the moving average. */
  const ALPHA: real := 0.0001

  /** The rate one hint implies: emulator cycles per second over cycles per sample. */
  function InstantRate(syncbase: int, cyclesPerSample: real): (rate: real)
    requires cyclesPerSample > 0.0
    ensures rate * cyclesPerSample == syncbase as real
    ensures syncbase > 0 ==> rate > 0.0
  {
    syncbase as real / cyclesPerSample
  }

  /** A plausible rate lies within half and one and a half times the target rate. */
  predicate InBand(rate: real, target: int)
  {
    target as real * 0.5 <= rate <= target as real * 1.5
  }

  /** One step of the moving average towards `instant`. */
  function Ema(ema: real, instant: real): (e: real)
    ensures ema <= instant ==> ema <= e <= instant
    ensures instant <= ema ==> instant <= e <= ema
    ensures e - instant == (1.0 - ALPHA) * (ema - instant)
  {
    ALPHA * instant + (1.0 - ALPHA) * ema
  }

  /**
   * The estimate after one timing hint: a hint that is not positive or implies a rate out of
   * band is ignored; the first accepted rate seeds the estimate, later ones move the average.
   */
  function RateStep(m: RateMeasurement, syncbase: int, target: int, cyclesPerSample: real): (m': RateMeasurement)
  {
    if cyclesPerSample <= 0.0 then m
    else
      var instant := InstantRate(syncbase, cyclesPerSample);
      if !InBand(instant, target) then m
      else if m.currentRate == 0.0 then RateMeasurement(instant, instant, m.sampleCount + 1)
      else
        var e := Ema(m.emaRate, instant);
        RateMeasurement(e, e, m.sampleCount + 1)
  }

  /** Whether a hint is accepted by the estimator. */
  predicate Accepted(syncbase: int, target: int, cyclesPerSample: real)
  {
    cyclesPerSample > 0.0 && InBand(InstantRate(syncbase, cyclesPerSample), target)
  }

  /** The estimate is either absent, or an in-band rate that the average agrees with. */
  predicate Settled(m: RateMeasurement, target: int)
  {
    m.currentRate == 0.0 || (InBand(m.currentRate, target) && m.emaRate == m.currentRate)
  }

  /** A rejected hint changes nothing; an accepted one counts exactly once. */
  lemma RateStepCounts(m: RateMeasurement, syncbase: int, target: int, cyclesPerSample: real)
    ensures !Accepted(syncbase, target, cyclesPerSample) <==> RateStep(m, syncbase, target, cyclesPerSample) == m
    ensures Accepted(syncbase, target, cyclesPerSample) <==>
            RateStep(m, syncbase, target, cyclesPerSample).sampleCount == m.sampleCount + 1
  {
  }

  /**
   * With a positive target the estimator keeps its invariant: once an estimate exists it
   * stays within the band, and it never falls back to "no estimate".
   */
  lemma RateStepSettled(m: RateMeasurement, syncbase: int, target: int, cyclesPerSample: real)
    requires target > 0 && Settled(m, target)
    ensures var m' := RateStep(m, syncbase, target, cyclesPerSample);
            Settled(m', target) && (m.currentRate != 0.0 ==> m'.currentRate != 0.0)
  {
  }

  /** The first accepted hint sets the estimate to its own rate. */
  lemma FirstRateSeeds(m: RateMeasurement, syncbase: int, target: int, cyclesPerSample: real)
    requires m.currentRate == 0.0 && Accepted(syncbase, target, cyclesPerSample)
    ensures RateStep(m, syncbase, target, cyclesPerSample).currentRate == InstantRate(syncbase, cyclesPerSample)
  {
  }

  /** The estimate after the same hint is given n times. */
  function Repeat(m: RateMeasurement, syncbase: int, target: int, cyclesPerSample: real, n: nat): RateMeasurement
  {
    if n == 0 then m else RateStep(Repeat(m, syncbase, target, cyclesPerSample, n - 1), syncbase, target, cyclesPerSample)
  }

  /**
   * Fed one accepted rate over and over, an existing estimate moves towards that rate without
   * ever overshooting it, and every hint is counted.
   */
  lemma {:induction false} EmaApproaches(m: RateMeasurement, syncbase: int, target: int, cyclesPerSample: real, n: nat)
    requires syncbase > 0 && m.currentRate > 0.0 && m.emaRate == m.currentRate
    requires Accepted(syncbase, target, cyclesPerSample)
    ensures var r := InstantRate(syncbase, cyclesPerSample); var m' := Repeat(m, syncbase, target, cyclesPerSample, n);
            && m'.currentRate == m'.emaRate
            && (m.currentRate <= r ==> m.currentRate <= m'.currentRate <= r)
            && (r <= m.currentRate ==> r <= m'.currentRate <= m.currentRate)
            && m'.sampleCount == m.sampleCount + n
    decreases n
  {
    if n > 0 {
      EmaApproaches(m, syncbase, target, cyclesPerSample, n - 1);
    }
  }

  // ---------------------------------------------------------------------------
  // Batch arithmetic
  // ---------------------------------------------------------------------------

  /** Fewer input frames than this are left for a later call. */
  const MIN_BATCH: int := 16
  /** At most this many input frames are resampled per call. */
  const MAX_BATCH: int := 128
  /** Output headroom added to the expected frame count of a batch. */
  const OUTPUT_SLACK: int := 32

  /** The number of input frames one call consumes out of `available`. */
  function BatchSize(available: int): (n: int)
    requires available >= MIN_BATCH
    ensures MIN_BATCH <= n <= MAX_BATCH && n <= available
    ensures n == available || n == MAX_BATCH
  {
    if available > MAX_BATCH then MAX_BATCH else available
  }

  /** The rate the coordinator believes the input runs at: the estimate, or the target without one. */
  function AssumedInputRate(m: RateMeasurement, target: int): real
  {
    if m.currentRate > 0.0 then m.currentRate else target as real
  }

  /** Output frames per input frame at the assumed rate. */
  function OutputPerInput(target: int, inputRate: real): (r: real)
    requires inputRate > 0.0
    ensures r * inputRate == target as real
  {
    target as real / inputRate
  }

  /** The output room reserved for a batch of `read` frames: the truncated expected count plus the slack. */
  function ExpectedOutput(read: int, target: int, inputRate: real): (e: int)
    requires read >= 0 && target > 0 && inputRate > 0.0
    ensures e >= OUTPUT_SLACK
  {
    (read as real * OutputPerInput(target, inputRate)).Floor + OUTPUT_SLACK
  }

  lemma MulLe(a: real, b: real, c: real)
    requires a >= 0.0 && b <= c
    ensures a * b <= a * c
  {
    assert a * c - a * b == a * (c - b);
  }

  lemma RatioAtMostTwo(target: int, inputRate: real)
    requires target > 0 && inputRate >= target as real * 0.5
    ensures 0.0 < OutputPerInput(target, inputRate) <= 2.0
  {
    var r := OutputPerInput(target, inputRate);
    assert (r - 2.0) * inputRate == target as real - 2.0 * inputRate <= 0.0;
  }

  /**
   * While the estimator keeps its invariant, a batch never needs more than 2 * 128 + 32 = 288
   * output frames: the initial 2048-frame output scratch buffer is never grown.
   */
  lemma ExpectedOutputBound(read: int, target: int, m: RateMeasurement)
    requires target > 0 && Settled(m, target) && 0 <= read <= MAX_BATCH
    ensures var e := ExpectedOutput(read, target, AssumedInputRate(m, target));
            OUTPUT_SLACK <= e <= 2 * MAX_BATCH + OUTPUT_SLACK
  {
    var rate := AssumedInputRate(m, target);
    RatioAtMostTwo(target, rate);
    var r := OutputPerInput(target, rate);
    MulLe(read as real, r, 2.0);
  }

  // ---------------------------------------------------------------------------
  // The input queue
  // ---------------------------------------------------------------------------

  /** The frame Paula pushes: left and right, cut to the configured channel count. */
  function PushedFrame(left: Int16, right: Int16, channels: int): (f: seq<Int16>)
    requires 0 < channels <= 2
    ensures |f| == channels && f[0] == left && (channels == 2 ==> f[1] == right)
  {
    [left, right][..channels]
  }

  /**
   * The input queue after a push into a ring of `capacity` slots: the frame is appended, and
   * when the ring is full (capacity - 1 frames) the oldest frame is dropped first.
   */
  function Push<T>(q: seq<T>, f: T, capacity: int): (q': seq<T>)
    requires capacity >= 2 && |q| <= capacity - 1
    ensures 1 <= |q'| <= capacity - 1 && q'[|q'| - 1] == f
    ensures |q| < capacity - 1 ==> |q'| == |q| + 1 && q'[..|q|] == q
    ensures |q| == capacity - 1 ==> |q'| == |q| && q'[..|q| - 1] == q[1..]
  {
    if |q| < capacity - 1 then q + [f] else q[1..] + [f]
  }

  /**
   * The frames one resampling pass appends to an output ring holding o, of capacity
   * outCap, when the input queue is q: nothing below MIN_BATCH frames, otherwise the
   * conversion of the first BatchSize(|q|) frames, unless it is empty or does not fit.
   */
  ghost function Appended(cfg: Config, m: RateMeasurement, outCap: int, q: seq<seq<Int16>>, o: seq<seq<real>>,
                          head: seq<Int16>, start: real): (out: seq<seq<real>>)
    requires cfg.targetSampleRate > 0 && |head| == cfg.channels && Uniform(q, cfg.channels) && start >= 0.0
    ensures |q| < MIN_BATCH || Overran(cfg, m, outCap, q, o, head, start) ==> out == []
  {
    if |q| < MIN_BATCH then []
    else
      var out := Converted(cfg.targetSampleRate, cfg.channels, m, head, start, q[..BatchSize(|q|)]);
      if |out| <= outCap - 1 - |o| then out else []
  }

  /** Whether one resampling pass produces a non-empty conversion that the output ring cannot take. */
  ghost predicate Overran(cfg: Config, m: RateMeasurement, outCap: int, q: seq<seq<Int16>>, o: seq<seq<real>>,
                          head: seq<Int16>, start: real)
    requires cfg.targetSampleRate > 0 && |head| == cfg.channels && Uniform(q, cfg.channels) && start >= 0.0
  {
    && |q| >= MIN_BATCH
    && var out := Converted(cfg.targetSampleRate, cfg.channels, m, head, start, q[..BatchSize(|q|)]);
    && 0 < |out| && |out| > outCap - 1 - |o|
  }

  /**
   * The position the pass after one over queue q starts at: unchanged below MIN_BATCH frames,
   * otherwise carried past the batch by the frames its conversion emitted.
   */
  ghost function Resumed(cfg: Config, m: RateMeasurement, q: seq<seq<Int16>>, head: seq<Int16>, start: real): real
    requires cfg.targetSampleRate > 0 && |head| == cfg.channels && Uniform(q, cfg.channels) && start >= 0.0
  {
    if |q| < MIN_BATCH then start
    else
      var n := BatchSize(|q|);
      var out := Converted(cfg.targetSampleRate, cfg.channels, m, head, start, q[..n]);
      Carry(start, |out|, Ratio(AssumedInputRate(m, cfg.targetSampleRate), cfg.targetSampleRate), n)
  }

  /**
   * One resampling pass takes the input queue q to q2 and the head frame to head2: below
   * MIN_BATCH frames nothing moves; otherwise the first BatchSize(|q|) frames leave the
   * queue and the last of them becomes the head frame.
   */
  ghost predicate Consumed(q: seq<seq<Int16>>, head: seq<Int16>, q2: seq<seq<Int16>>, head2: seq<Int16>)
  {
    if |q| < MIN_BATCH then q2 == q && head2 == head
    else q2 == q[BatchSize(|q|)..] && head2 == q[BatchSize(|q|) - 1]
  }

  /**
   * One resampling pass over a queue of at least MIN_BATCH frames, stated through Consumed,
   * Appended and Overran (see ResampleBatch for the batch it takes).
   */
  method ResamplePass(cfg: Config, c: Components, m: RateMeasurement) returns (dropped: bool)
    requires Parts(cfg, c) && Settled(m, cfg.targetSampleRate)
    requires c.resampler.initialized && m.currentRate == 0.0 ==> c.resampler.inputRate == cfg.targetSampleRate as real
    requires |c.inputBuffer.Contents()| >= MIN_BATCH
    modifies c.inputBuffer, c.inputTempBuffer, c.resampler, c.resampler.lastFrame, c.tempBuffer
    modifies c.ringBuffer, c.ringBuffer.buffer
    ensures Parts(cfg, c) && c.resampler.initialized
    ensures c.inputBuffer.buffer == old(c.inputBuffer.buffer) && c.inputBuffer.capacity == old(c.inputBuffer.capacity)
    ensures c.ringBuffer.buffer == old(c.ringBuffer.buffer) && c.ringBuffer.capacity == old(c.ringBuffer.capacity)
    ensures c.resampler.lastFrame == old(c.resampler.lastFrame) || fresh(c.resampler.lastFrame)
    ensures c.resampler.inputRate == AssumedInputRate(m, cfg.targetSampleRate)
    ensures var q, o := old(c.inputBuffer.Contents()), old(c.ringBuffer.Contents());
            var h, st := old(HeadFrame(c.resampler, cfg.channels)), old(StartPosition(c.resampler));
            && Consumed(q, h, c.inputBuffer.Contents(), HeadFrame(c.resampler, cfg.channels))
            && c.ringBuffer.Contents() == o + Appended(cfg, m, c.ringBuffer.capacity, q, o, h, st)
            && (dropped <==> Overran(cfg, m, c.ringBuffer.capacity, q, o, h, st))
            && StartPosition(c.resampler) == Resumed(cfg, m, q, h, st)
  {
    c.ringBuffer.Occupancy();
    c.inputBuffer.Occupancy();
    dropped := ResampleBatch(cfg, c, m, BatchSize(c.inputBuffer.GetAvailableRead()));
  }

  // ---------------------------------------------------------------------------
  // The coordinator
  // ---------------------------------------------------------------------------

  datatype Config = Config(targetSampleRate: Int32, channels: Int32, ringBufferFrames: Int32)

  /** The debug counters the coordinator publishes. */
  datatype DebugVars = DebugVars(
    pushSampleCalls: nat,
    layer2Overruns: nat,
    resampleCalls: nat,
    estimatedPaulaRateHz: real,
    inputBufferFrames: int,
    outputBufferFrames: int)

  const ZERO_DEBUG: DebugVars := DebugVars(0, 0, 0, 0.0, 0, 0)

  /** The counters after Paula's frame is queued: the push, and an overrun when the oldest frame was evicted. */
  function Queued(d: DebugVars, evicted: bool): DebugVars
  {
    d.(pushSampleCalls := d.pushSampleCalls + 1, layer2Overruns := d.layer2Overruns + if evicted then 1 else 0)
  }

  /** The counters after an accepted timing hint: the new estimate and both queue lengths are published. */
  function Hinted(d: DebugVars, estimate: real, inputFrames: int, outputFrames: int): DebugVars
  {
    d.(estimatedPaulaRateHz := estimate, inputBufferFrames := inputFrames, outputBufferFrames := outputFrames)
  }

  /** The counters after a resampling pass: the call when a batch was taken, and an overrun when its output did not fit. */
  function Resampled(d: DebugVars, ran: bool, overran: bool): DebugVars
  {
    d.(resampleCalls := d.resampleCalls + (if ran then 1 else 0), layer2Overruns := d.layer2Overruns + if overran then 1 else 0)
  }

  /** The input ring is asked for 10 ms of frames, but at least 16. */
  function InputCapacity(target: int): (n: int)
    requires target > 0
    ensures n >= MIN_BATCH && (n == MIN_BATCH || n == target / 100)
  {
    if target / 100 < MIN_BATCH then MIN_BATCH else target / 100
  }

  /** Initial scratch capacities, in frames. */
  const INITIAL_OUTPUT_SCRATCH: int := 2048
  const INITIAL_INPUT_SCRATCH: int := 128

  /** Fills data[from..to] with silence, leaving the rest alone. */
  method ZeroFill(data: array<real>, from: int, to: int)
    requires 0 <= from <= to <= data.Length
    modifies data
    ensures data[..from] == old(data[..from]) && data[to..] == old(data[to..])
    ensures forall j :: from <= j < to ==> data[j] == 0.0
  {
    var j := from;
    while j < to
      invariant from <= j <= to
      invariant data[..from] == old(data[..from]) && data[to..] == old(data[to..])
      invariant forall t :: from <= t < j ==> data[t] == 0.0
    {
      data[j] := 0.0;
      j := j + 1;
    }
  }

  /** A fresh ring of at least `frames` frames (rounded up to a power of two), empty. */
  method NewRing<T>(frames: UInt32, channels: int, silence: T) returns (ring: AudioRingBuffer<T>)
    requires 0 < frames <= 0x8000_0000 && channels > 0
    ensures fresh(ring) && ring.Valid() && ring.buffer != null && fresh(ring.buffer)
    ensures ring.channels == channels && IsPow2(ring.capacity) && frames <= ring.capacity
    ensures ring.Contents() == []
  {
    ring := new AudioRingBuffer<T>();
    var _ := ring.Initialize(frames, channels, silence);
  }

  /**
   * Moves up to `requested` frames from the front of the output ring into `output`, then
   * fills the rest of the first `requested` frames with silence (see Pulled).
   */
  method Drain(ring: AudioRingBuffer<real>, output: array<real>, requested: int)
    requires ring.Valid() && ring.buffer != null && ring.channels > 0
    requires output != ring.buffer && 0 <= requested <= 0xFFFF_FFFF && requested * ring.channels <= output.Length
    modifies ring, output
    ensures ring.Valid() && ring.buffer == old(ring.buffer) && ring.capacity == old(ring.capacity)
    ensures ring.channels == old(ring.channels)
    ensures var q := old(ring.Contents());
            var got := if requested < |q| then requested else |q|;
            && Pulled(output[..], old(output[..]), q[..got], requested, ring.channels, 0.0)
            && ring.Contents() == q[got..]
  {
    ghost var before := output[..];
    ghost var queue := ring.Contents();
    var framesRead := ring.Read(output, requested);
    MulMono(framesRead, requested, ring.channels);
    if framesRead < requested {
      var samplesRead := framesRead * ring.channels;
      var samplesTotal := requested * ring.channels;
      ghost var read := output[..];
      ZeroFill(output, samplesRead, samplesTotal);
      ChunksPrefix(output[..], read, ring.channels, framesRead);
    }
    assert Pulled(output[..], before, queue[..framesRead], requested, ring.channels, 0.0);
  }

  /**
   * The output of a pull: the first |frames| frames of `out` are `frames`, the rest of the
   * requested frames are silence, and everything past them is as `before` had it.
   */
  ghost predicate Pulled<T>(out: seq<T>, before: seq<T>, frames: seq<seq<T>>, requested: int, channels: int, zero: T)
  {
    && channels > 0 && |frames| <= requested && |out| == |before|
    && |frames| * channels <= requested * channels <= |out|
    && Chunks(out, channels, |frames|) == frames
    && (forall j :: |frames| * channels <= j < requested * channels ==> out[j] == zero)
    && out[requested * channels..] == before[requested * channels..]
  }

  datatype Option<T> = None | Some(value: T)

  /**
   * The storage a running coordinator owns: the input ring of Paula frames, the output ring of
   * host frames, the resampler, and the output and input scratch buffers with their capacities
   * in frames.
   */
  datatype Components = Components(
    inputBuffer: AudioRingBuffer<Int16>,
    ringBuffer: AudioRingBuffer<real>,
    resampler: AudioResampler,
    tempBuffer: array<real>,
    tempBufferCapacity: int,
    inputTempBuffer: array<Int16>,
    inputTempCapacity: int)

  /** The most output frames one batch can reserve (see ExpectedOutputBound). */
  const MAX_EXPECTED_OUTPUT: int := 2 * MAX_BATCH + OUTPUT_SLACK

  /**
   * The components fit together: the configuration is positive, both rings are valid and
   * allocated with the configured channel count (the input ring holds at least one batch),
   * an initialised resampler converts to the target rate, the scratch buffers hold their
   * capacities in frames and are large enough for any batch, and no two share storage.
   */
  ghost predicate Parts(cfg: Config, c: Components)
    reads c.inputBuffer, c.ringBuffer, c.resampler
  {
    match c
    case Components(inputBuffer, ringBuffer, resampler, tempBuffer, tempBufferCapacity, inputTempBuffer, inputTempCapacity) =>
      && cfg.targetSampleRate > 0 && cfg.channels > 0 && cfg.ringBufferFrames > 0
      && inputBuffer.Valid() && inputBuffer.buffer != null
      && inputBuffer.channels == cfg.channels && inputBuffer.capacity >= MIN_BATCH
      && ringBuffer.Valid() && ringBuffer.buffer != null && ringBuffer.channels == cfg.channels
      && resampler.Valid()
      && (resampler.initialized ==>
            resampler.inputRate > 0.0 && resampler.channels == cfg.channels
            && resampler.outputRate == cfg.targetSampleRate)
      && MAX_EXPECTED_OUTPUT <= tempBufferCapacity && tempBuffer.Length == tempBufferCapacity * cfg.channels
      && MAX_BATCH <= inputTempCapacity && inputTempBuffer.Length == inputTempCapacity * cfg.channels
      && inputTempBuffer != inputBuffer.buffer && tempBuffer != ringBuffer.buffer
      && (resampler.lastFrame != null ==>
            resampler.lastFrame != inputTempBuffer && resampler.lastFrame != inputBuffer.buffer)
  }

  /**
   * The components Initialize builds for a valid configuration: an input ring of 10 ms (at
   * least 16 frames), the output ring, an uninitialised resampler and the two scratch buffers
   * of 2048 and 128 frames.
   */
  method Build(cfg: Config) returns (c: Components)
    requires cfg.targetSampleRate > 0 && cfg.channels > 0 && cfg.ringBufferFrames > 0
    ensures fresh(c.inputBuffer) && fresh(c.inputBuffer.buffer) && fresh(c.ringBuffer) && fresh(c.ringBuffer.buffer)
    ensures fresh(c.resampler) && fresh(c.tempBuffer) && fresh(c.inputTempBuffer)
    ensures Parts(cfg, c)
    ensures c.tempBufferCapacity == INITIAL_OUTPUT_SCRATCH && c.inputTempCapacity == INITIAL_INPUT_SCRATCH
    ensures IsPow2(c.inputBuffer.capacity) && InputCapacity(cfg.targetSampleRate) <= c.inputBuffer.capacity
    ensures IsPow2(c.ringBuffer.capacity) && cfg.ringBufferFrames <= c.ringBuffer.capacity
    ensures c.inputBuffer.Contents() == [] && c.ringBuffer.Contents() == []
    ensures !c.resampler.initialized && c.resampler.lastFrame == null
  {
    var inBuf := NewRing(InputCapacity(cfg.targetSampleRate), cfg.channels, 0 as Int16);
    var outBuf := NewRing(cfg.ringBufferFrames, cfg.channels, 0.0);
    var rs := new AudioResampler();
    var temp := new real[INITIAL_OUTPUT_SCRATCH * cfg.channels];
    var inTemp := new Int16[INITIAL_INPUT_SCRATCH * cfg.channels];
    c := Components(inBuf, outBuf, rs, temp, INITIAL_OUTPUT_SCRATCH, inTemp, INITIAL_INPUT_SCRATCH);
  }

  /** Shuts the rings and the resampler down; the scratch buffers are simply dropped. */
  method Release(c: Components)
    requires c.inputBuffer.Valid() && c.ringBuffer.Valid() && c.resampler.Valid()
    modifies c.inputBuffer, c.ringBuffer, c.resampler
    ensures c.inputBuffer.buffer == null && c.ringBuffer.buffer == null
    ensures !c.resampler.initialized && c.resampler.lastFrame == null
  {
    c.inputBuffer.Shutdown();
    c.ringBuffer.Shutdown();
    c.resampler.Shutdown();
  }

  /**
   * Pushes one frame into the input ring; when the ring is full the oldest frame is read
   * out and dropped first, and `dropped` reports it.
   */
  method Enqueue(ring: AudioRingBuffer<Int16>, left: Int16, right: Int16) returns (dropped: bool)
    requires ring.Valid() && ring.buffer != null && 0 < ring.channels <= 2 && ring.capacity >= 2
    modifies ring, ring.buffer
    ensures ring.Valid() && ring.buffer == old(ring.buffer) && ring.capacity == old(ring.capacity)
    ensures ring.channels == old(ring.channels)
    ensures dropped <==> |old(ring.Contents())| == ring.capacity - 1
    ensures ring.Contents() == Push(old(ring.Contents()), PushedFrame(left, right, ring.channels), ring.capacity)
  {
    ghost var f := PushedFrame(left, right, ring.channels);
    var stereo := new Int16[2];
    stereo[0], stereo[1] := left, right;
    assert Frame(stereo[..], ring.channels, 0) == f;
    assert Chunks(stereo[..], ring.channels, 1) == [f];
    var ok := WriteFrame(ring, stereo, f);
    dropped := !ok;
    if !ok {
      DropOldest(ring);
      ok := WriteFrame(ring, stereo, f);
    }
  }

  /** Writes one frame into the ring; fails, leaving the ring as it was, when the ring is full. */
  method WriteFrame(ring: AudioRingBuffer<Int16>, frame: array<Int16>, ghost f: seq<Int16>) returns (ok: bool)
    requires ring.Valid() && ring.buffer != null && ring.channels > 0 && frame != ring.buffer
    requires ring.channels <= frame.Length && Chunks(frame[..], ring.channels, 1) == [f]
    modifies ring, ring.buffer
    ensures ring.Valid() && ring.buffer == old(ring.buffer) && ring.capacity == old(ring.capacity)
    ensures ring.channels == old(ring.channels)
    ensures ok <==> |old(ring.Contents())| < ring.capacity - 1
    ensures ring.Contents() == if ok then old(ring.Contents()) + [f] else old(ring.Contents())
  {
    ring.Occupancy();
    ok := ring.Write(frame, 1);
  }

  /** Discards the oldest frame of a non-empty ring by reading it into a scratch frame. */
  method DropOldest(ring: AudioRingBuffer<Int16>)
    requires ring.Valid() && ring.buffer != null && 0 < ring.channels <= 2 && |ring.Contents()| > 0
    modifies ring
    ensures ring.Valid() && ring.buffer == old(ring.buffer) && ring.capacity == old(ring.capacity)
    ensures ring.channels == old(ring.channels)
    ensures ring.Contents() == old(ring.Contents())[1..]
  {
    var dummy := new Int16[2];
    var _ := ring.Read(dummy, 1);
  }

  /** The frame a resampler interpolates from at the start of a batch: its cached frame, or silence before first use. */
  ghost function HeadFrame(rs: AudioResampler, channels: int): seq<Int16>
    reads rs, rs.lastFrame
    requires rs.Valid() && channels >= 0
  {
    if rs.initialized then rs.lastFrame[..] else seq(channels, _ => 0)
  }

  /** The position a resampler starts a batch at: its carried position, or 0 before first use. */
  ghost function StartPosition(rs: AudioResampler): real
    reads rs
    requires rs.Valid()
  {
    if rs.initialized then rs.position else 0.0
  }

  /**
   * The host frames one batch turns into: the batch, preceded by the frame carried over,
   * resampled from the assumed input rate to the target rate from position p, at most as
   * many as the room reserved for the batch.
   */
  ghost function Converted(target: int, channels: nat, m: RateMeasurement, head: seq<Int16>, p: real,
                           batch: seq<seq<Int16>>): seq<seq<real>>
    requires target > 0 && |head| == channels && Uniform(batch, channels) && p >= 0.0
  {
    var rate := AssumedInputRate(m, target);
    UniformAppend([head], batch, channels);
    Run([head] + batch, channels, p, Ratio(rate, target), ExpectedOutput(|batch|, target, rate))
  }

  /**
   * The host frames one batch turns into with the resampler call as the coordinator's pass is
   * written (AudioResampler::Process over the batch alone): the frame carried over from the
   * previous batch takes no part.
   */
  ghost function ConvertedAsWritten(target: int, channels: int, m: RateMeasurement, p: real,
                                    batch: seq<seq<Int16>>): seq<seq<real>>
    requires target > 0 && Uniform(batch, channels) && p >= 0.0
  {
    var rate := AssumedInputRate(m, target);
    Run(batch, channels, p, Ratio(rate, target), ExpectedOutput(|batch|, target, rate))
  }

  /** Appended with the conversion as the pass is written. */
  ghost function AppendedAsWritten(cfg: Config, m: RateMeasurement, outCap: int, q: seq<seq<Int16>>,
                                   o: seq<seq<real>>, start: real): seq<seq<real>>
    requires cfg.targetSampleRate > 0 && Uniform(q, cfg.channels) && start >= 0.0
  {
    if |q| < MIN_BATCH then []
    else
      var out := ConvertedAsWritten(cfg.targetSampleRate, cfg.channels, m, start, q[..BatchSize(|q|)]);
      if |out| <= outCap - 1 - |o| then out else []
  }

  /** With no estimate, or an estimate equal to the target, input and output run at the same rate. */
  lemma EqualRates(target: int, m: RateMeasurement, n: nat)
    requires target > 0 && AssumedInputRate(m, target) == target as real
    ensures Ratio(AssumedInputRate(m, target), target) == 1.0
    ensures ExpectedOutput(n, target, AssumedInputRate(m, target)) == n + OUTPUT_SLACK
  {
  }

  /**
   * At equal rates from position 0, where the steady state keeps the position, a batch of n
   * frames turns into n - 1 host frames as the pass is written, and into n host frames
   * (the carried frame, then all but the batch's last) with the carried frame used.
   */
  lemma AsWrittenBatchDropsFrame(target: int, channels: int, m: RateMeasurement, head: seq<Int16>,
                                 batch: seq<seq<Int16>>)
    requires target > 0 && AssumedInputRate(m, target) == target as real
    requires |head| == channels && Uniform(batch, channels) && |batch| >= 1
    ensures ConvertedAsWritten(target, channels, m, 0.0, batch) == ScaledFrames(batch[..|batch| - 1])
    ensures Carry(0.0, |batch| - 1, 1.0, |batch|) == 0.0
    ensures Converted(target, channels, m, head, 0.0, batch) == [Scaled(head)] + ScaledFrames(batch[..|batch| - 1])
    ensures Carry(0.0, |batch|, 1.0, |batch|) == 0.0
  {
    EqualRates(target, m, |batch|);
    var cap := ExpectedOutput(|batch|, target, AssumedInputRate(m, target));
    IdentityAsWritten(batch, channels, cap);
    UniformAppend([head], batch, channels);
    IdentityContinuous(head, batch, channels, cap);
  }

  /**
   * The coordinator's pass as written under-feeds the output ring: at equal rates, with room
   * for the batch, it appends one host frame fewer than the batch it takes out of the input
   * queue, where the corrected pass appends exactly as many.
   */
  lemma AsWrittenPassUnderfeeds(cfg: Config, m: RateMeasurement, outCap: int, q: seq<seq<Int16>>,
                                o: seq<seq<real>>, head: seq<Int16>)
    requires cfg.targetSampleRate > 0 && AssumedInputRate(m, cfg.targetSampleRate) == cfg.targetSampleRate as real
    requires |head| == cfg.channels && Uniform(q, cfg.channels) && |q| >= MIN_BATCH
    requires BatchSize(|q|) <= outCap - 1 - |o|
    ensures |AppendedAsWritten(cfg, m, outCap, q, o, 0.0)| == BatchSize(|q|) - 1
    ensures |Appended(cfg, m, outCap, q, o, head, 0.0)| == BatchSize(|q|)
  {
    var batch := q[..BatchSize(|q|)];
    AsWrittenBatchDropsFrame(cfg.targetSampleRate, cfg.channels, m, head, batch);
  }

  /**
   * Readies the resampler for a batch: on first use it is initialised at the assumed input
   * rate, to the target rate and channel count; afterwards it is retuned to the estimate,
   * when there is one.
   */
  method PrepareResampler(rs: AudioResampler, cfg: Config, m: RateMeasurement)
    requires rs.Valid() && cfg.targetSampleRate > 0 && cfg.channels > 0
    requires rs.initialized ==>
               rs.inputRate > 0.0 && rs.channels == cfg.channels && rs.outputRate == cfg.targetSampleRate
    requires Settled(m, cfg.targetSampleRate)
    requires rs.initialized && m.currentRate == 0.0 ==> rs.inputRate == cfg.targetSampleRate as real
    modifies rs
    ensures rs.Valid() && rs.initialized && rs.channels == cfg.channels && rs.outputRate == cfg.targetSampleRate
    ensures rs.inputRate == AssumedInputRate(m, cfg.targetSampleRate)
    ensures rs.lastFrame[..] == old(HeadFrame(rs, cfg.channels)) && rs.position == old(StartPosition(rs))
    ensures rs.lastFrame == old(rs.lastFrame) || fresh(rs.lastFrame)
  {
    if !rs.IsInitialized() {
      var _ := rs.Initialize(AssumedInputRate(m, cfg.targetSampleRate), cfg.targetSampleRate, cfg.channels);
    } else if m.currentRate > 0.0 {
      rs.SetInputRate(m.currentRate);
    }
  }

  /** Moves the n oldest frames of the input ring to the front of the input scratch buffer. */
  method TakeBatch(cfg: Config, c: Components, n: int)
    requires Parts(cfg, c) && MIN_BATCH <= n <= MAX_BATCH && n <= |c.inputBuffer.Contents()|
    modifies c.inputBuffer, c.inputTempBuffer
    ensures Parts(cfg, c) && n * cfg.channels <= c.inputTempBuffer.Length
    ensures c.inputBuffer.buffer == old(c.inputBuffer.buffer) && c.inputBuffer.capacity == old(c.inputBuffer.capacity)
    ensures c.inputBuffer.Contents() == old(c.inputBuffer.Contents())[n..]
    ensures Batch(c.inputTempBuffer[..], cfg.channels, n) == old(c.inputBuffer.Contents())[..n]
  {
    MulMono(n, c.inputTempCapacity, cfg.channels);
    var read := c.inputBuffer.Read(c.inputTempBuffer, n);
  }

  /**
   * Converts the batch of n frames at the front of the input scratch buffer: the resampler,
   * readied by PrepareResampler, turns it into `produced` host frames at the front of the
   * output scratch buffer.
   */
  method ConvertBatch(cfg: Config, c: Components, m: RateMeasurement, n: int, ghost batch: seq<seq<Int16>>)
      returns (produced: int)
    requires Parts(cfg, c) && Settled(m, cfg.targetSampleRate)
    requires c.resampler.initialized && m.currentRate == 0.0 ==> c.resampler.inputRate == cfg.targetSampleRate as real
    requires MIN_BATCH <= n <= MAX_BATCH && n * cfg.channels <= c.inputTempBuffer.Length
    requires Batch(c.inputTempBuffer[..], cfg.channels, n) == batch
    modifies c.resampler, c.resampler.lastFrame, c.tempBuffer
    ensures Parts(cfg, c) && c.resampler.initialized
    ensures c.resampler.lastFrame == old(c.resampler.lastFrame) || fresh(c.resampler.lastFrame)
    ensures c.resampler.inputRate == AssumedInputRate(m, cfg.targetSampleRate)
    ensures c.resampler.lastFrame[..] == batch[n - 1]
    ensures var out := Converted(cfg.targetSampleRate, cfg.channels, m, old(HeadFrame(c.resampler, cfg.channels)),
                                 old(StartPosition(c.resampler)), batch);
            && produced == |out| && produced <= MAX_EXPECTED_OUTPUT && produced * cfg.channels <= c.tempBuffer.Length
            && Chunks(c.tempBuffer[..], cfg.channels, produced) == out
            && c.resampler.position
               == Carry(old(StartPosition(c.resampler)), |out|,
                        Ratio(AssumedInputRate(m, cfg.targetSampleRate), cfg.targetSampleRate), n)
  {
    PrepareResampler(c.resampler, cfg, m);
    var rate := AssumedInputRate(m, cfg.targetSampleRate);
    ExpectedOutputBound(n, cfg.targetSampleRate, m);
    var expected := ExpectedOutput(n, cfg.targetSampleRate, rate);
    MulMono(expected, c.tempBufferCapacity, cfg.channels);
    produced := c.resampler.ProcessContinuous(c.inputTempBuffer, n, c.tempBuffer, expected);
  }

  /**
   * Appends the first `produced` frames of the output scratch buffer to the output ring, or
   * drops them all (`dropped`) when they do not fit; nothing is written when there are none.
   */
  method Deliver(cfg: Config, c: Components, produced: int, ghost out: seq<seq<real>>) returns (dropped: bool)
    requires Parts(cfg, c) && 0 <= produced <= MAX_EXPECTED_OUTPUT && produced * cfg.channels <= c.tempBuffer.Length
    requires Chunks(c.tempBuffer[..], cfg.channels, produced) == out
    modifies c.ringBuffer, c.ringBuffer.buffer
    ensures Parts(cfg, c)
    ensures c.ringBuffer.buffer == old(c.ringBuffer.buffer) && c.ringBuffer.capacity == old(c.ringBuffer.capacity)
    ensures dropped <==> 0 < produced && produced > old(c.ringBuffer.GetAvailableWrite())
    ensures c.ringBuffer.Contents() == if 0 < produced && !dropped then old(c.ringBuffer.Contents()) + out
                                       else old(c.ringBuffer.Contents())
  {
    dropped := false;
    if produced > 0 {
      var ok := c.ringBuffer.Write(c.tempBuffer, produced);
      dropped := !ok;
    }
  }

  /**
   * One batch through the pipeline: TakeBatch, ConvertBatch, then Deliver.
   */
  method ResampleBatch(cfg: Config, c: Components, m: RateMeasurement, n: int) returns (dropped: bool)
    requires Parts(cfg, c) && Settled(m, cfg.targetSampleRate)
    requires c.resampler.initialized && m.currentRate == 0.0 ==> c.resampler.inputRate == cfg.targetSampleRate as real
    requires MIN_BATCH <= n <= MAX_BATCH && n <= |c.inputBuffer.Contents()|
    modifies c.inputBuffer, c.inputTempBuffer, c.resampler, c.resampler.lastFrame, c.tempBuffer
    modifies c.ringBuffer, c.ringBuffer.buffer
    ensures Parts(cfg, c) && c.resampler.initialized
    ensures c.inputBuffer.buffer == old(c.inputBuffer.buffer) && c.inputBuffer.capacity == old(c.inputBuffer.capacity)
    ensures c.ringBuffer.buffer == old(c.ringBuffer.buffer) && c.ringBuffer.capacity == old(c.ringBuffer.capacity)
    ensures c.resampler.lastFrame == old(c.resampler.lastFrame) || fresh(c.resampler.lastFrame)
    ensures c.resampler.inputRate == AssumedInputRate(m, cfg.targetSampleRate)
    ensures c.inputBuffer.Contents() == old(c.inputBuffer.Contents())[n..]
    ensures c.resampler.lastFrame[..] == old(c.inputBuffer.Contents())[n - 1]
    ensures var out := Converted(cfg.targetSampleRate, cfg.channels, m, old(HeadFrame(c.resampler, cfg.channels)),
                                 old(StartPosition(c.resampler)), old(c.inputBuffer.Contents())[..n]);
            && (dropped <==> 0 < |out| && |out| > old(c.ringBuffer.GetAvailableWrite()))
            && c.ringBuffer.Contents() == (if 0 < |out| && !dropped then old(c.ringBuffer.Contents()) + out
                                           else old(c.ringBuffer.Contents()))
            && c.resampler.position
               == Carry(old(StartPosition(c.resampler)), |out|,
                        Ratio(AssumedInputRate(m, cfg.targetSampleRate), cfg.targetSampleRate), n)
  {
    ghost var batch := c.inputBuffer.Contents()[..n];
    TakeBatch(cfg, c, n);
    var produced := ConvertBatch(cfg, c, m, n, batch);
    dropped := Deliver(cfg, c, produced, Chunks(c.tempBuffer[..], cfg.channels, produced));
  }
}

/**
 * The `AudioLayer2` object: its configuration, rate estimate and debug counters, and the
 * components it owns, with the public operations Initialize, Shutdown, PushSample,
 * UpdateRateMeasurement, ResampleInputToOutput, PullSamples and GetBufferFillPercent.
 */
module Coordinator {
  import opened AudioMath
  import opened RingBuffer
  import opened Resampler
  import opened Layer2

  class AudioLayer2 {
    /** Emulator cycles per second (the emulator's `syncbase`). */
    const syncbase: int
    var initialized: bool
    var config: Config
    /** The rings, the resampler and the scratch buffers; None before Initialize and after Shutdown. */
    var components: Option<Components>
    var rate: RateMeasurement
    var debug: DebugVars
    ghost var Repr: set<object>

    /**
     * The components exist, belong to this coordinator and fit together, and while no rate
     * estimate exists an initialised resampler runs at the target rate.
     */
    ghost predicate Ready()
      reads this, Repr
    {
      && components.Some?
      && var c := components.value;
      && {c.inputBuffer, c.ringBuffer, c.resampler, c.tempBuffer, c.inputTempBuffer} <= Repr
      && c.inputBuffer.buffer in Repr && c.ringBuffer.buffer in Repr
      && (c.resampler.lastFrame != null ==> c.resampler.lastFrame in Repr)
      && Parts(config, c)
      && (c.resampler.initialized && rate.currentRate == 0.0 ==>
            c.resampler.inputRate == config.targetSampleRate as real)
    }

    ghost predicate Valid()
      reads this, Repr
    {
      && this in Repr
      && syncbase > 0
      && (initialized <==> components.Some?)
      && (initialized ==> Ready() && Settled(rate, config.targetSampleRate))
    }

    /** Frames waiting in the input ring, oldest first. */
    ghost function InputQueue(): seq<seq<Int16>>
      reads this, Repr
      requires Valid() && initialized
    {
      components.value.inputBuffer.Contents()
    }

    /** Frames waiting in the output ring, oldest first. */
    ghost function OutputQueue(): seq<seq<real>>
      reads this, Repr
      requires Valid() && initialized
    {
      components.value.ringBuffer.Contents()
    }

    /** The frame the next batch is interpolated from. */
    ghost function Head(): seq<Int16>
      reads this, Repr
      requires Valid() && initialized
    {
      HeadFrame(components.value.resampler, config.channels)
    }

    /** The position the next batch starts at. */
    ghost function Start(): real
      reads this, Repr
      requires Valid() && initialized
    {
      StartPosition(components.value.resampler)
    }

    constructor (syncbase: int)
      requires syncbase > 0
      ensures Valid() && fresh(Repr) && !initialized
      ensures this.syncbase == syncbase && config == Config(0, 0, 0)
      ensures rate == NO_ESTIMATE && debug == ZERO_DEBUG
    {
      this.syncbase := syncbase;
      initialized := false;
      config := Config(0, 0, 0);
      components := None;
      rate := NO_ESTIMATE;
      debug := ZERO_DEBUG;
      Repr := {this};
    }

    /**
     * Shuts a running coordinator down, takes the configuration and forgets the rate
     * estimate; when the configuration is valid, builds the components (see Build).
     */
    method Initialize(cfg: Config) returns (ok: bool)
      requires Valid()
      modifies Repr
      ensures Valid() && fresh(Repr - old(Repr))
      ensures config == cfg && rate == NO_ESTIMATE && debug == old(debug)
      ensures ok <==> cfg.targetSampleRate > 0 && cfg.channels > 0 && cfg.ringBufferFrames > 0
      ensures initialized == ok
      ensures ok ==> var c := components.value;
                     && IsPow2(c.inputBuffer.capacity) && InputCapacity(cfg.targetSampleRate) <= c.inputBuffer.capacity
                     && IsPow2(c.ringBuffer.capacity) && cfg.ringBufferFrames <= c.ringBuffer.capacity
                     && InputQueue() == [] && OutputQueue() == [] && !c.resampler.initialized
                     && c.tempBufferCapacity == INITIAL_OUTPUT_SCRATCH && c.inputTempCapacity == INITIAL_INPUT_SCRATCH
    {
      if initialized {
        Shutdown();
      }
      config := cfg;
      rate := NO_ESTIMATE;
      if cfg.targetSampleRate <= 0 || cfg.channels <= 0 || cfg.ringBufferFrames <= 0 {
        return false;
      }
      Attach();
      ok := true;
    }

    /** Builds the components for the stored, valid configuration and marks the coordinator initialised. */
    method Attach()
      requires Valid() && !initialized && rate == NO_ESTIMATE
      requires config.targetSampleRate > 0 && config.channels > 0 && config.ringBufferFrames > 0
      modifies this
      ensures Valid() && fresh(Repr - old(Repr)) && initialized
      ensures config == old(config) && rate == NO_ESTIMATE && debug == old(debug)
      ensures var c := components.value;
                && IsPow2(c.inputBuffer.capacity) && InputCapacity(config.targetSampleRate) <= c.inputBuffer.capacity
                && IsPow2(c.ringBuffer.capacity) && config.ringBufferFrames <= c.ringBuffer.capacity
                && InputQueue() == [] && OutputQueue() == [] && !c.resampler.initialized
                && c.tempBufferCapacity == INITIAL_OUTPUT_SCRATCH && c.inputTempCapacity == INITIAL_INPUT_SCRATCH
    {
      var c := Build(config);
      components := Some(c);
      Repr := Repr + {c.inputBuffer, c.inputBuffer.buffer, c.ringBuffer, c.ringBuffer.buffer, c.resampler,
                      c.tempBuffer, c.inputTempBuffer};
      initialized := true;
    }

    /** Releases every component and returns to the uninitialised state; a no-op when not initialised. */
    method Shutdown()
      requires Valid()
      modifies Repr
      ensures Valid() && fresh(Repr - old(Repr))
      ensures !initialized && config == old(config) && rate == old(rate) && debug == old(debug)
      ensures !old(initialized) ==> unchanged(this)
    {
      if !initialized {
        return;
      }
      Release(components.value);
      components := None;
      initialized := false;
    }

    /** Occupancy of the output ring as a fraction of its capacity; 0 when not initialised. */
    function GetBufferFillPercent(): (f: real)
      reads this, Repr
      requires Valid()
      ensures 0.0 <= f < 1.0
      ensures !initialized ==> f == 0.0
      ensures initialized ==> f * components.value.ringBuffer.capacity as real == |OutputQueue()| as real
    {
      if !initialized then 0.0 else components.value.ringBuffer.GetFillPercent()
    }

    /**
     * Hands the host requestedFrames frames: as many as the output ring holds, oldest first,
     * then silence. Returns 0 without initialisation or output, requestedFrames otherwise.
     */
    method PullSamples(output: array?<real>, requestedFrames: int) returns (n: int)
      requires Valid()
      requires output != null ==> output !in Repr && 0 <= requestedFrames <= 0xFFFF_FFFF
      requires output != null && initialized ==> requestedFrames * config.channels <= output.Length
      modifies Repr, output
      ensures Valid() && fresh(Repr - old(Repr))
      ensures initialized == old(initialized) && config == old(config) && rate == old(rate) && debug == old(debug)
      ensures components == old(components) && Repr == old(Repr)
      ensures initialized ==>
                && InputQueue() == old(InputQueue()) && Head() == old(Head()) && Start() == old(Start())
                && components.value.inputBuffer.capacity == old(components.value.inputBuffer.capacity)
                && components.value.ringBuffer.capacity == old(components.value.ringBuffer.capacity)
      ensures !initialized || output == null ==> n == 0 && unchanged(this) && (output != null ==> unchanged(output))
      ensures initialized && output != null ==>
                var got := if requestedFrames < |old(OutputQueue())| then requestedFrames else |old(OutputQueue())|;
                && n == requestedFrames
                && Pulled(output[..], old(output[..]), old(OutputQueue())[..got], requestedFrames, config.channels, 0.0)
                && OutputQueue() == old(OutputQueue())[got..]
    {
      if !initialized || output == null {
        return 0;
      }
      Drain(components.value.ringBuffer, output, requestedFrames);
      n := requestedFrames;
    }

    /**
     * Folds one timing hint into the rate estimate (see RateStep); an accepted hint also
     * publishes the estimate and both queue lengths in the debug counters.
     */
    method UpdateRateMeasurement(cyclesPerSample: real)
      requires Valid()
      modifies this`rate, this`debug
      ensures Valid()
      ensures rate == RateStep(old(rate), syncbase, config.targetSampleRate, cyclesPerSample)
      ensures var accepted := Accepted(syncbase, config.targetSampleRate, cyclesPerSample);
              && (initialized ==>
                    debug == if accepted then Hinted(old(debug), rate.currentRate, |InputQueue()|, |OutputQueue()|)
                             else old(debug))
              && (!initialized ==>
                    debug == if accepted then old(debug).(estimatedPaulaRateHz := rate.currentRate) else old(debug))
    {
      if cyclesPerSample <= 0.0 {
        return;
      }
      var instantRate := InstantRate(syncbase, cyclesPerSample);
      if !InBand(instantRate, config.targetSampleRate) {
        return;
      }
      if initialized {
        RateStepSettled(rate, syncbase, config.targetSampleRate, cyclesPerSample);
      }
      rate := RateStep(rate, syncbase, config.targetSampleRate, cyclesPerSample);
      if initialized {
        var c := components.value;
        c.inputBuffer.Occupancy();
        c.ringBuffer.Occupancy();
        debug := Hinted(debug, rate.currentRate, c.inputBuffer.GetAvailableRead() as int,
                        c.ringBuffer.GetAvailableRead() as int);
      } else {
        debug := debug.(estimatedPaulaRateHz := rate.currentRate);
      }
    }

    /**
     * Once the input ring holds at least 16 frames, resamples a batch of up to 128 of them
     * into the output ring (see ResampleBatch) and counts the call, and an overrun when the
     * output ring had no room for the result.
     */
    method ResampleInputToOutput()
      requires Valid()
      modifies Repr
      ensures Valid() && fresh(Repr - old(Repr))
      ensures initialized == old(initialized) && config == old(config) && rate == old(rate)
      ensures components == old(components)
      ensures components.Some? ==> components.value.ringBuffer.capacity == old(components.value.ringBuffer.capacity)
      ensures !initialized ==> debug == old(debug)
      ensures initialized ==>
                var q, o, h, st := old(InputQueue()), old(OutputQueue()), old(Head()), old(Start());
                var cap := components.value.ringBuffer.capacity;
                && Consumed(q, h, InputQueue(), Head())
                && OutputQueue() == o + Appended(config, rate, cap, q, o, h, st)
                && Start() == Resumed(config, rate, q, h, st)
                && debug == Resampled(old(debug), |q| >= MIN_BATCH, Overran(config, rate, cap, q, o, h, st))
    {
      if !initialized {
        return;
      }
      var available := components.value.inputBuffer.GetAvailableRead();
      components.value.inputBuffer.Occupancy();
      if available < MIN_BATCH {
        return;
      }
      ProcessBatch();
    }

    /**
     * Counts the call and resamples the n oldest input frames into the output ring (see
     * ResampleBatch), counting an overrun when the output ring has no room for the result.
     */
    method ProcessBatch()
      requires Valid() && initialized && |InputQueue()| >= MIN_BATCH
      modifies Repr
      ensures Valid() && fresh(Repr - old(Repr))
      ensures initialized && config == old(config) && rate == old(rate) && components == old(components)
      ensures components.value.ringBuffer.capacity == old(components.value.ringBuffer.capacity)
      ensures var q, o, h, st := old(InputQueue()), old(OutputQueue()), old(Head()), old(Start());
              var cap := components.value.ringBuffer.capacity;
              && Consumed(q, h, InputQueue(), Head())
              && OutputQueue() == o + Appended(config, rate, cap, q, o, h, st)
              && Start() == Resumed(config, rate, q, h, st)
              && debug == Resampled(old(debug), true, Overran(config, rate, cap, q, o, h, st))
    {
      var c := components.value;
      var dropped := ResamplePass(config, c, rate);
      Repr := Repr + {c.resampler.lastFrame};
      debug := Resampled(debug, true, dropped);
    }

    /**
     * Takes one stereo frame from Paula with its timing hint: the frame is queued (dropping
     * the oldest queued frame when the input ring is full, which counts an overrun), the
     * hint updates the rate estimate, and a batch is resampled when enough frames wait.
     * Does nothing when not initialised.
     */
    method PushSample(left: Int16, right: Int16, cyclesPerSample: real)
      requires Valid()
      requires initialized ==> config.channels <= 2
      modifies Repr
      ensures Valid() && fresh(Repr - old(Repr))
      ensures initialized == old(initialized) && config == old(config)
      ensures !old(initialized) ==> rate == old(rate) && debug == old(debug)
      ensures old(initialized) ==>
                var o, h, st := old(OutputQueue()), old(Head()), old(Start());
                var q := Push(old(InputQueue()), PushedFrame(left, right, config.channels),
                              old(components.value.inputBuffer.capacity));
                var cap := old(components.value.ringBuffer.capacity);
                var queued := Queued(old(debug), |old(InputQueue())| == old(components.value.inputBuffer.capacity) - 1);
                var hinted := if Accepted(syncbase, config.targetSampleRate, cyclesPerSample)
                              then Hinted(queued, rate.currentRate, |q|, |o|) else queued;
                && rate == RateStep(old(rate), syncbase, config.targetSampleRate, cyclesPerSample)
                && components == old(components)
                && Consumed(q, h, InputQueue(), Head())
                && OutputQueue() == o + Appended(config, rate, cap, q, o, h, st)
                && Start() == Resumed(config, rate, q, h, st)
                && debug == Resampled(hinted, |q| >= MIN_BATCH, Overran(config, rate, cap, q, o, h, st))
    {
      if !initialized {
        return;
      }
      TakeSample(left, right, cyclesPerSample);
      ResampleInputToOutput();
    }

    /** The part of PushSample before resampling: the frame is queued (see QueueFrame) and the hint measured. */
    method TakeSample(left: Int16, right: Int16, cyclesPerSample: real)
      requires Valid() && initialized && config.channels <= 2
      modifies Repr
      ensures Valid() && Repr == old(Repr)
      ensures initialized && config == old(config) && components == old(components)
      ensures InputQueue() == Push(old(InputQueue()), PushedFrame(left, right, config.channels),
                                   old(components.value.inputBuffer.capacity))
      ensures OutputQueue() == old(OutputQueue()) && Head() == old(Head()) && Start() == old(Start())
      ensures components.value.ringBuffer.capacity == old(components.value.ringBuffer.capacity)
      ensures rate == RateStep(old(rate), syncbase, config.targetSampleRate, cyclesPerSample)
      ensures var queued := Queued(old(debug), |old(InputQueue())| == old(components.value.inputBuffer.capacity) - 1);
              debug == if Accepted(syncbase, config.targetSampleRate, cyclesPerSample)
                       then Hinted(queued, rate.currentRate, |InputQueue()|, |OutputQueue()|)
                       else queued
    {
      QueueFrame(left, right);
      ghost var queued, head, start, output := InputQueue(), Head(), Start(), OutputQueue();
      UpdateRateMeasurement(cyclesPerSample);
      assert InputQueue() == queued && Head() == head && Start() == start && OutputQueue() == output;
    }

    /**
     * Counts the push and appends one frame to the input ring; when the ring is full the
     * oldest frame is evicted first (see Enqueue) and an overrun is counted.
     */
    method QueueFrame(left: Int16, right: Int16)
      requires Valid() && initialized && config.channels <= 2
      modifies Repr
      ensures Valid() && Repr == old(Repr)
      ensures initialized && config == old(config) && rate == old(rate) && components == old(components)
      ensures components.value.inputBuffer.capacity == old(components.value.inputBuffer.capacity)
      ensures |old(InputQueue())| < components.value.inputBuffer.capacity
      ensures var q, cap := old(InputQueue()), components.value.inputBuffer.capacity;
              var evicted := |q| == cap - 1;
              && InputQueue() == Push(q, PushedFrame(left, right, config.channels), cap)
              && debug == Queued(old(debug), evicted)
      ensures OutputQueue() == old(OutputQueue()) && Head() == old(Head()) && Start() == old(Start())
      ensures components.value.ringBuffer.capacity == old(components.value.ringBuffer.capacity)
    {
      components.value.inputBuffer.Occupancy();
      var dropped := Enqueue(components.value.inputBuffer, left, right);
      debug := Queued(debug, dropped);
    }
  }
}
