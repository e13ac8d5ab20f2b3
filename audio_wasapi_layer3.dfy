/**
 * The WASAPI sink (`AudioWASAPILayer3`): on every device pull event it asks the coordinator
 * for as many frames as the device buffer has room for, converts the floating-point frames
 * to the device's 16- or 32-bit integer format and hands them over.
 *
 * The COM interfaces are modelled by whether the sink holds them; the device's current
 * padding, which the source queries from the audio client, is a parameter. The copy into
 * the device buffer is not modelled: the frames handed over are the first frames of the
 * conversion buffer.
 */
module Layer3 {
  import opened AudioMath
  import opened Resampler
  import opened Layer2
  import opened Coordinator
  import opened SampleFormat

  // ---------------------------------------------------------------------------
  // The sink
  // ---------------------------------------------------------------------------

  datatype SinkStats = SinkStats(totalFramesWritten: nat, totalPullEvents: nat, underruns: nat, avgLatencyMs: real)

  const ZERO_SINK_STATS := SinkStats(0, 0, 0, 0.0)

  /** The device format Initialize settles on: 16 or 32 bits, and 16 for anything else. */
  function DeviceBits(bitsPerSample: int): (bits: int)
    ensures bits == 16 || bits == 32
    ensures bits == bitsPerSample <==> bitsPerSample == 16 || bitsPerSample == 32
  {
    if bitsPerSample == 32 then 32 else 16
  }

  /** Unsigned 32-bit subtraction: wraps around when b exceeds a. */
  function SubU32(a: UInt32, b: UInt32): (d: UInt32)
    ensures b <= a ==> d + b == a
    ensures a < b ==> d + b == a + UINT32_MODULUS
  {
    (a - b) % UINT32_MODULUS
  }

  /**
   * The outcome of pulling n frames from a coordinator whose output queue held q: the float
   * buffer `out` (formerly `before`) holds the frames it delivered, padded with silence, the
   * queue lost them, and the first n frames are converted into the conversion buffer of the
   * device's sample width.
   */
  ghost predicate Delivered(layer2: AudioLayer2, q: seq<seq<real>>, out: seq<real>, before: seq<real>,
                            c16: array?<Int16>, c32: array?<Int32>, width: int, channels: int, n: nat)
    reads layer2, layer2.Repr, c16, c32
    requires layer2.Valid() && layer2.initialized
  {
    var got := if n < |q| then n else |q|;
    && Pulled(out, before, q[..got], n, channels, 0.0)
    && layer2.OutputQueue() == q[got..]
    && (width == 16 ==> c16 != null && forall i :: 0 <= i < n * channels && i < c16.Length && i < |out| ==>
                                                     c16[i] == ToInt16(out[i]))
    && (width == 32 ==> c32 != null && forall i :: 0 <= i < n * channels && i < c32.Length && i < |out| ==>
                                                     c32[i] == ToInt32(out[i]))
  }

  class AudioWASAPILayer3 {
    var initialized: bool
    /** Whether the sink holds the device, audio-client and render-client interfaces. */
    var device: bool
    var audioClient: bool
    var renderClient: bool
    var sampleRate: int
    var channels: int
    var bits: int
    var bufferFrameCount: UInt32
    /** Frames pulled from the coordinator: interleaved floating-point samples; null when released. */
    var tempBuffer: array?<real>
    /** The conversion buffer, in whichever width `bits` selects; the other one stays null. */
    var convert16: array?<Int16>
    var convert32: array?<Int32>
    var tempBufferCapacity: int
    var stats: SinkStats

    /** The sink owns none of the coordinator's objects. */
    ghost predicate Apart(layer2: AudioLayer2)
      reads this, layer2
    {
      && this !in layer2.Repr && tempBuffer !in layer2.Repr
      && convert16 !in layer2.Repr && convert32 !in layer2.Repr
    }

    ghost predicate Valid()
      reads this
    {
      && (initialized ==>
            && device && audioClient && renderClient
            && sampleRate > 0 && channels > 0 && 0 < bufferFrameCount < 0x4000_0000
            && tempBufferCapacity == 2 * bufferFrameCount
            && tempBuffer != null && tempBuffer.Length == tempBufferCapacity * channels
            && (bits == 16 ==> convert16 != null && convert16.Length == tempBuffer.Length && convert32 == null)
            && (bits == 32 ==> convert32 != null && convert32.Length == tempBuffer.Length && convert16 == null)
            && (bits == 16 || bits == 32))
      && (!initialized ==>
            && tempBufferCapacity == 0 && !device && !audioClient && !renderClient
            && tempBuffer == null && convert16 == null && convert32 == null)
    }

    constructor ()
      ensures Valid() && !initialized
      ensures sampleRate == 0 && channels == 0 && bits == 0 && bufferFrameCount == 0
      ensures stats == ZERO_SINK_STATS
    {
      initialized := false;
      device, audioClient, renderClient := false, false, false;
      sampleRate, channels, bits, bufferFrameCount := 0, 0, 0, 0;
      tempBuffer, convert16, convert32 := null, null, null;
      tempBufferCapacity := 0;
      stats := ZERO_SINK_STATS;
    }

    /**
     * Shuts a running sink down, then validates the arguments: all three interfaces, a
     * positive rate and channel count and a non-empty device buffer. On success it takes the
     * configuration (the bit depth through DeviceBits), allocates zeroed buffers of twice the
     * device buffer and resets the statistics.
     */
    method Initialize(device: bool, audioClient: bool, renderClient: bool, rate: int, numChannels: int,
                      bitsPerSample: int, bufferFrames: UInt32) returns (ok: bool)
      requires Valid()
      requires bufferFrames < 0x4000_0000
      modifies this
      ensures Valid()
      ensures ok <==> device && audioClient && renderClient && rate > 0 && numChannels > 0 && bufferFrames > 0
      ensures initialized == ok
      ensures !ok ==> stats == old(stats) && sampleRate == old(sampleRate) && channels == old(channels)
                      && bits == old(bits) && bufferFrameCount == old(bufferFrameCount)
      ensures ok ==> && sampleRate == rate && channels == numChannels && bits == DeviceBits(bitsPerSample)
                     && bufferFrameCount == bufferFrames && tempBufferCapacity == 2 * bufferFrames
                     && stats == ZERO_SINK_STATS
                     && fresh(tempBuffer) && (bits == 16 ==> fresh(convert16)) && (bits == 32 ==> fresh(convert32))
                     && (forall i :: 0 <= i < tempBuffer.Length ==> tempBuffer[i] == 0.0)
                     && (bits == 16 ==> forall i :: 0 <= i < convert16.Length ==> convert16[i] == 0)
                     && (bits == 32 ==> forall i :: 0 <= i < convert32.Length ==> convert32[i] == 0)
    {
      if initialized {
        Shutdown();
      }
      if !device || !audioClient || !renderClient {
        return false;
      }
      if rate <= 0 || numChannels <= 0 || bufferFrames == 0 {
        return false;
      }
      this.device, this.audioClient, this.renderClient := true, true, true;
      sampleRate := rate;
      channels := numChannels;
      bits := bitsPerSample;
      bufferFrameCount := bufferFrames;
      Allocate();
      stats := ZERO_SINK_STATS;
      initialized := true;
      ok := true;
    }

    /** Sizes and allocates the zeroed buffers for the stored configuration, settling the bit depth. */
    method Allocate()
      requires channels > 0 && 0 < bufferFrameCount < 0x4000_0000
      modifies this
      ensures initialized == old(initialized) && stats == old(stats)
      ensures device == old(device) && audioClient == old(audioClient) && renderClient == old(renderClient)
      ensures sampleRate == old(sampleRate) && channels == old(channels) && bufferFrameCount == old(bufferFrameCount)
      ensures bits == DeviceBits(old(bits)) && tempBufferCapacity == 2 * bufferFrameCount
      ensures fresh(tempBuffer) && tempBuffer.Length == tempBufferCapacity * channels
      ensures bits == 16 ==> fresh(convert16) && convert16.Length == tempBuffer.Length && convert32 == null
      ensures bits == 32 ==> fresh(convert32) && convert32.Length == tempBuffer.Length && convert16 == null
      ensures forall i :: 0 <= i < tempBuffer.Length ==> tempBuffer[i] == 0.0
      ensures bits == 16 ==> forall i :: 0 <= i < convert16.Length ==> convert16[i] == 0
      ensures bits == 32 ==> forall i :: 0 <= i < convert32.Length ==> convert32[i] == 0
    {
      tempBufferCapacity := bufferFrameCount * 2;
      var samples := tempBufferCapacity * channels;
      tempBuffer := new real[samples](_ => 0.0);
      if bits != 32 {
        bits := 16;
        convert16, convert32 := new Int16[samples](_ => 0), null;
      } else {
        convert16, convert32 := null, new Int32[samples](_ => 0);
      }
    }

    /** Releases the buffers and the interfaces; the configuration and the statistics stay. */
    method Shutdown()
      requires Valid()
      modifies this
      ensures Valid() && !initialized
      ensures stats == old(stats) && sampleRate == old(sampleRate) && channels == old(channels)
      ensures bits == old(bits) && bufferFrameCount == old(bufferFrameCount)
      ensures !old(initialized) ==> unchanged(this)
    {
      if !initialized {
        return;
      }
      tempBuffer, convert16, convert32 := null, null, null;
      device, audioClient, renderClient := false, false, false;
      tempBufferCapacity := 0;
      initialized := false;
    }

    /** Free frames in the device buffer holding `padding` queued frames; 0 when not initialised. */
    function GetAvailableFrames(padding: UInt32): (n: UInt32)
      reads this
      ensures !initialized || !audioClient ==> n == 0
      ensures initialized && audioClient && padding <= bufferFrameCount ==> n + padding == bufferFrameCount
    {
      if !initialized || !audioClient then 0 else SubU32(bufferFrameCount, padding)
    }

    /** The frames a pull event requests: the free device frames, at most the buffer capacity. */
    function Budget(padding: UInt32): (n: int)
      reads this
      requires Valid() && initialized
      ensures 0 <= n <= tempBufferCapacity && n <= GetAvailableFrames(padding)
      ensures n == 0 <==> GetAvailableFrames(padding) == 0
      ensures n < GetAvailableFrames(padding) ==> n == tempBufferCapacity
    {
      var avail := GetAvailableFrames(padding);
      if avail > tempBufferCapacity then tempBufferCapacity else avail
    }

    /**
     * One device pull event. Without initialisation or a coordinator it does nothing and
     * fails. Otherwise the event is counted; with no free device frames it succeeds at once;
     * else it pulls Budget(padding) frames from the coordinator. A pull that yields no frames
     * is an underrun and fails; otherwise the frames are converted to the device format and
     * counted as written.
     */
    method OnPullEvent(layer2: AudioLayer2?, padding: UInt32) returns (ok: bool)
      requires Valid()
      requires layer2 != null ==> layer2.Valid() && Apart(layer2)
      requires layer2 != null && initialized && layer2.initialized ==> layer2.config.channels == channels
      modifies this`stats, tempBuffer, convert16, convert32
      modifies if layer2 == null then {} else layer2.Repr
      ensures Valid()
      ensures initialized == old(initialized) && channels == old(channels) && bits == old(bits)
      ensures bufferFrameCount == old(bufferFrameCount) && tempBufferCapacity == old(tempBufferCapacity)
      ensures tempBuffer == old(tempBuffer) && convert16 == old(convert16) && convert32 == old(convert32)
      ensures layer2 != null ==> && layer2.Valid() && fresh(layer2.Repr - old(layer2.Repr))
                                 && layer2.initialized == old(layer2.initialized)
                                 && layer2.config == old(layer2.config) && layer2.components == old(layer2.components)
                                 && layer2.Repr == old(layer2.Repr)
      ensures layer2 != null && layer2.initialized ==>
                && layer2.InputQueue() == old(layer2.InputQueue()) && layer2.Head() == old(layer2.Head())
                && layer2.Start() == old(layer2.Start())
      ensures !initialized || layer2 == null ==> !ok && stats == old(stats)
      ensures initialized && layer2 != null ==>
                var n := old(Budget(padding));
                var counted := old(stats).(totalPullEvents := old(stats.totalPullEvents) + 1);
                && (n == 0 ==> ok && stats == counted && unchanged(layer2))
                && (n > 0 && !old(layer2.initialized) ==>
                      !ok && stats == counted.(underruns := counted.underruns + 1) && unchanged(layer2))
                && (n > 0 && old(layer2.initialized) ==>
                      && ok && stats == counted.(totalFramesWritten := counted.totalFramesWritten + n)
                      && Delivered(layer2, old(layer2.OutputQueue()), tempBuffer[..], old(tempBuffer[..]),
                                   convert16, convert32, bits, channels, n))
    {
      if !initialized || layer2 == null {
        return false;
      }
      var counted := stats.(totalPullEvents := stats.totalPullEvents + 1);
      var availFrames := SubU32(bufferFrameCount, padding);
      if availFrames == 0 {
        stats := counted;
        return true;
      }
      if availFrames > tempBufferCapacity {
        availFrames := tempBufferCapacity;
      }
      ok := Serve(layer2, availFrames, counted);
    }

    /**
     * The rest of a pull event, once its n frames are known: pulls and converts them, and adds
     * to the statistics `counted` (which count the event) an underrun when the pull yields no
     * frames, or else the n frames written.
     */
    method Serve(layer2: AudioLayer2, n: int, counted: SinkStats) returns (ok: bool)
      requires Valid() && initialized && layer2.Valid() && Apart(layer2)
      requires layer2.initialized ==> layer2.config.channels == channels
      requires 0 < n <= tempBufferCapacity
      modifies this`stats, tempBuffer, convert16, convert32, layer2.Repr
      ensures layer2.Valid() && fresh(layer2.Repr - old(layer2.Repr))
      ensures layer2.initialized == old(layer2.initialized) && ok == layer2.initialized
      ensures layer2.config == old(layer2.config) && layer2.components == old(layer2.components) && layer2.Repr == old(layer2.Repr)
      ensures layer2.initialized ==>
                && layer2.InputQueue() == old(layer2.InputQueue()) && layer2.Head() == old(layer2.Head())
                && layer2.Start() == old(layer2.Start())
      ensures !layer2.initialized ==> stats == counted.(underruns := counted.underruns + 1) && unchanged(layer2)
      ensures layer2.initialized ==>
                && stats == counted.(totalFramesWritten := counted.totalFramesWritten + n)
                && Delivered(layer2, old(layer2.OutputQueue()), tempBuffer[..], old(tempBuffer[..]),
                             convert16, convert32, bits, channels, n)
    {
      var pulledFrames := PullAndConvert(layer2, n);
      if pulledFrames == 0 {
        stats := counted.(underruns := counted.underruns + 1);
        return false;
      }
      stats := counted.(totalFramesWritten := counted.totalFramesWritten + pulledFrames);
      ok := true;
    }

    /**
     * Pulls n frames from the coordinator into the float buffer and, when it delivers any,
     * converts them into the conversion buffer of the device's width.
     */
    method PullAndConvert(layer2: AudioLayer2, n: int) returns (pulled: int)
      requires Valid() && initialized && layer2.Valid() && Apart(layer2)
      requires layer2.initialized ==> layer2.config.channels == channels
      requires 0 < n <= tempBufferCapacity
      modifies tempBuffer, convert16, convert32, layer2.Repr
      ensures layer2.Valid() && fresh(layer2.Repr - old(layer2.Repr))
      ensures layer2.initialized == old(layer2.initialized)
      ensures layer2.config == old(layer2.config) && layer2.components == old(layer2.components) && layer2.Repr == old(layer2.Repr)
      ensures layer2.initialized ==>
                && layer2.InputQueue() == old(layer2.InputQueue()) && layer2.Head() == old(layer2.Head())
                && layer2.Start() == old(layer2.Start())
      ensures !layer2.initialized ==> pulled == 0 && unchanged(layer2)
      ensures layer2.initialized ==>
                && pulled == n
                && Delivered(layer2, old(layer2.OutputQueue()), tempBuffer[..], old(tempBuffer[..]),
                             convert16, convert32, bits, channels, n)
    {
      MulMono(n, tempBufferCapacity, channels);
      pulled := layer2.PullSamples(tempBuffer, n);
      if pulled == 0 {
        return;
      }
      ghost var pulledSamples := tempBuffer[..];
      if bits == 16 {
        ConvertFloatToInt16(tempBuffer, convert16, pulled);
      } else {
        ConvertFloatToInt32(tempBuffer, convert32, pulled);
      }
      assert tempBuffer[..] == pulledSamples;
    }

    /** Converts the first frameCount frames to 16-bit device samples, element by element. */
    method ConvertFloatToInt16(input: array<real>, output: array<Int16>, frameCount: int)
      requires 0 <= frameCount && 0 <= channels
      requires frameCount * channels <= input.Length && frameCount * channels <= output.Length
      modifies output
      ensures forall i :: 0 <= i < frameCount * channels ==> output[i] == ToInt16(input[i])
      ensures forall i :: frameCount * channels <= i < output.Length ==> output[i] == old(output[i])
    {
      var sampleCount := frameCount * channels;
      var i := 0;
      while i < sampleCount
        invariant 0 <= i <= sampleCount
        invariant forall j :: 0 <= j < i ==> output[j] == ToInt16(input[j])
        invariant forall j :: sampleCount <= j < output.Length ==> output[j] == old(output[j])
      {
        var sample := input[i];
        if sample > 1.0 { sample := 1.0; }
        if sample < -1.0 { sample := -1.0; }
        output[i] := TruncToZero(sample * 32767.0);
        i := i + 1;
      }
    }

    /** Converts the first frameCount frames to 32-bit device samples, element by element. */
    method ConvertFloatToInt32(input: array<real>, output: array<Int32>, frameCount: int)
      requires 0 <= frameCount && 0 <= channels
      requires frameCount * channels <= input.Length && frameCount * channels <= output.Length
      modifies output
      ensures forall i :: 0 <= i < frameCount * channels ==> output[i] == ToInt32(input[i])
      ensures forall i :: frameCount * channels <= i < output.Length ==> output[i] == old(output[i])
    {
      var sampleCount := frameCount * channels;
      var i := 0;
      while i < sampleCount
        invariant 0 <= i <= sampleCount
        invariant forall j :: 0 <= j < i ==> output[j] == ToInt32(input[j])
        invariant forall j :: sampleCount <= j < output.Length ==> output[j] == old(output[j])
      {
        var sample := input[i];
        if sample > 1.0 { sample := 1.0; }
        if sample < -1.0 { sample := -1.0; }
        output[i] := TruncToZero(sample * 2147483647.0);
        i := i + 1;
      }
    }
  }
}
