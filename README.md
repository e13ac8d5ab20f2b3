# WinUAE rate-adaptive audio bridge, modelled in Dafny

This project models the audio path that carries samples from the emulated Amiga (Paula) to
the Windows audio device, in `od-win32/sounddep/`:

- **`AudioRingBuffer<T>`** is a power-of-two ring of interleaved frames with one slot kept
  free. Its cursors are masked 32-bit counters, and it keeps overrun and underrun counters.
  Writes are all-or-nothing; reads may be short.
- **`AudioResampler`** is a streaming linear-interpolation resampler. It turns batches of
  16-bit frames into floating-point frames at the ratio `inputRate / outputRate` and
  carries a fractional position from one batch to the next.
- **`AudioLayer2`** is the coordinator:
  - Paula pushes one stereo frame at a time into a 10 ms input ring.
  - Each push feeds the timing hint into an exponential moving average of Paula's true
    rate, with outliers rejected.
  - Once 16 frames wait, a batch of at most 128 is resampled at the estimated rate into
    the output ring.
  - The host pulls from the output ring, and a shortfall is padded with silence.
  - A legacy block-at-a-time path (`ProcessFromPaula`) chooses a rate, a drift nudge and
    an output room for each block.
- **`AudioWASAPILayer3`** is the WASAPI sink. On each device pull event it asks the
  coordinator for as many frames as the device buffer has free, converts them to 16- or
  32-bit integers and hands them over.

Files and modules:

| file | module | contents |
|---|---|---|
| `audio_math.dfy` | `AudioMath` | powers of two, 32-bit wrap-around, interleaved frame indexing (`Idx`, `Chunks`, `Overlay`) |
| `audio_ringbuffer.dfy` | `RingBuffer` | cursor arithmetic, the ring as a queue of slots (`Queue`, `WriteSlots`), the class `AudioRingBuffer` |
| `audio_resampler.dfy` | `Resampler` | one call as the function `Run`, its lemmas, the class `AudioResampler` |
| `audio_layer2.dfy` | `Layer2`, `Coordinator` | rate estimator, batch sizing, the pipeline steps; the class `AudioLayer2` |
| `audio_paula_path.dfy` | `PaulaPath` | the decisions of the legacy block path |
| `audio_sample_format.dfy` | `SampleFormat` | float-to-integer device sample conversion |
| `audio_wasapi_layer3.dfy` | `Layer3` | the class `AudioWASAPILayer3` |

How the code is modelled:

- Each class whose fields change becomes a Dafny `class` with a `Valid()` invariant.
- A buffer that the source frees and sets to `nullptr` is an `array?` field that becomes
  `null`.
- Every method is proved against a pure specification:
  - the ring's live frames are `Contents()`, a queue of frames;
  - a resampler call is `Run`;
  - the coordinator's queues are `InputQueue()` and `OutputQueue()`, and one resampling
    pass is stated through `Consumed`, `Appended` and `Overran`.
- `float` and `double` are `real`, and the C `(int)` cast is truncation toward zero.
- 32-bit unsigned arithmetic is written out modulo 2^32.
- The emulator's `syncbase` is a constructor parameter of the coordinator.
- The global `g_audioDebugVars` counters are the coordinator's `debug` field.
- The device padding, which the sink queries through COM, is a parameter of
  `OnPullEvent`.

## Model

| member | source | states |
|---|---|---|
| AudioMath.WrapThenReduce | od-win32/sounddep/audio_ringbuffer.h:126 | wrapping a cursor difference modulo 2^32 before masking with a power-of-two capacity gives the plain remainder |
| RingBuffer.AvailRead | od-win32/sounddep/audio_ringbuffer.h:194-198 | frames readable: in [0, capacity), and advancing the read cursor by them reaches the write cursor |
| RingBuffer.AvailWrite | od-win32/sounddep/audio_ringbuffer.h:201-205 | free slots: in [0, capacity), and advancing the write cursor by them plus one reaches the read cursor |
| RingBuffer.AvailableAddsUp | od-win32/sounddep/audio_ringbuffer.h:194-205 | readable frames plus free slots always equal capacity - 1 (one slot stays empty) |
| RingBuffer.WriteAppends | od-win32/sounddep/audio_ringbuffer.h:137-147 | FIFO on the writer side: storing frames at the write cursor appends them after the queued frames |
| RingBuffer.ReadDropsFront | od-win32/sounddep/audio_ringbuffer.h:173-183 | FIFO on the reader side: advancing the read cursor by n drops exactly the n oldest frames, and those are the first n of the queue |
| RingBuffer.WriteEffect | od-win32/sounddep/audio_ringbuffer.h:137-149 | Write's copy loop and cursor update take the queue to the old queue followed by the written frames |
| RingBuffer.ReadEffect | od-win32/sounddep/audio_ringbuffer.h:173-183 | Read's copy loop hands out the oldest n frames, and the cursor update removes exactly them |
| RingBuffer.AudioRingBuffer.Occupancy | od-win32/sounddep/audio_ringbuffer.h:194-205 | the live queue's length is GetAvailableRead, and with GetAvailableWrite it fills all but one slot |
| RingBuffer.AudioRingBuffer.constructor | od-win32/sounddep/audio_ringbuffer.h:68-78 | no storage, zero cursors, capacity, mask and channels, zero counters |
| RingBuffer.AudioRingBuffer.NextPowerOf2 | od-win32/sounddep/audio_ringbuffer.h:223-237 | the least power of two not below n (1 for 0, n itself for a power of two) |
| RingBuffer.AudioRingBuffer.Initialize | od-win32/sounddep/audio_ringbuffer.h:85-107 | capacity is the least power of two not below the request, mask capacity - 1, storage zeroed, cursors and counters reset, queue empty |
| RingBuffer.AudioRingBuffer.Shutdown | od-win32/sounddep/audio_ringbuffer.h:109-116 | storage released and capacity 0; the mask, cursors and counters are kept |
| RingBuffer.AudioRingBuffer.ResetStats | od-win32/sounddep/audio_ringbuffer.h:215-220 | all four counters are zero |
| RingBuffer.AudioRingBuffer.GetFillPercent | od-win32/sounddep/audio_ringbuffer.h:208-212 | 0 without storage; otherwise fill * capacity = readable frames, so 0 <= fill < 1 |
| RingBuffer.AudioRingBuffer.Write | od-win32/sounddep/audio_ringbuffer.h:118-151 | succeeds iff there is storage, data and 0 < frameCount <= free slots; success appends the frames to the queue and counts them; a lack of room writes nothing and counts one overrun |
| RingBuffer.AudioRingBuffer.Read | od-win32/sounddep/audio_ringbuffer.h:153-192 | returns min(frameCount, readable); the caller's first n frames are the n oldest, which leave the queue; an underrun is counted iff fewer than requested were available |
| Resampler.Ratio | od-win32/sounddep/audio_resampler.cpp:67 | input frames per output frame: ratio * outputRate = inputRate |
| Resampler.Carry | od-win32/sounddep/audio_resampler.cpp:109-112 | the carried position is never negative, and it is either 0 or the advanced position rebased on the next batch |
| Resampler.LerpBetween | od-win32/sounddep/audio_resampler.cpp:89 | an interpolated sample lies between the two samples it interpolates |
| Resampler.RunAt | od-win32/sounddep/audio_resampler.cpp:71-99 | output frame k is interpolated at p + k * ratio between the two input frames bracketing it, and the call never reads past its last input frame |
| Resampler.AdvanceLinear | od-win32/sounddep/audio_resampler.cpp:98 | k accumulated steps of ratio put the position at p + k * ratio |
| Resampler.RunStops | od-win32/sounddep/audio_resampler.cpp:71-78 | a call stops only when the output is full or the next position has no following input frame |
| Resampler.RunSampleRange | od-win32/sounddep/audio_resampler.cpp:89-92 | every output sample lies in [-1, 32767/32768] |
| Resampler.IdentityRun | od-win32/sounddep/audio_resampler.cpp:71-99 | with equal rates a call starting on frame k copies frames k up to, but not including, the last one |
| Resampler.RunPrefix | od-win32/sounddep/audio_resampler.cpp:71-99 | a call over a longer input first emits what the call over its prefix emits, then continues from there |
| Resampler.RunShift | od-win32/sounddep/audio_resampler.cpp:73-86 | shifting the input origin and the position by the same whole number of frames changes nothing |
| Resampler.SplitAt | od-win32/sounddep/audio_resampler.cpp:71-112 | a call over w, not cut short inside its prefix v, is the call over v followed by a call from v's last frame at the rebased, non-negative position |
| Resampler.Interpolate | od-win32/sounddep/audio_resampler.cpp:69-99 | the loop emits exactly the frames of Run into the output, leaves the rest of it alone and ends at Advance(p, ratio, n) |
| Resampler.InterpolateFrame | od-win32/sounddep/audio_resampler.cpp:84-93 | the channel loop writes output frame k as the interpolated frame and changes no other element |
| Resampler.CacheFrame | od-win32/sounddep/audio_resampler.cpp:102-107 | the cache holds the batch's last frame |
| Resampler.AudioResampler.constructor | od-win32/sounddep/audio_resampler.cpp:12-20 | not initialised, zero rates, channels and position, no cached frame |
| Resampler.AudioResampler.Initialize | od-win32/sounddep/audio_resampler.cpp:26-44 | succeeds iff both rates and the channel count are positive; then position 0 and a silent cached frame; a failure changes nothing |
| Resampler.AudioResampler.Shutdown | od-win32/sounddep/audio_resampler.cpp:46-54 | cached frame dropped, not initialised, position 0; rates and channels kept |
| Resampler.AudioResampler.IsInitialized | od-win32/sounddep/audio_resampler.h:24 | true exactly when initialised, and then the object is ready to interpolate |
| Resampler.AudioResampler.SetInputRate | od-win32/sounddep/audio_resampler.h:27 | sets the input rate without validation, nothing else |
| Resampler.AudioResampler.Process | od-win32/sounddep/audio_resampler.cpp:56-115 | degenerate calls do nothing; otherwise the output holds Run over the batch, the last frame is cached and the position is carried past the batch |
| Resampler.AudioResampler.ProcessContinuous | od-win32/sounddep/audio_resampler.cpp:56-115 | as Process, but interpolating over the cached last frame followed by the batch |
| Resampler.StreamingSplit | od-win32/sounddep/audio_resampler.h:29-40 | with ProcessContinuous, two batches emit exactly what one call over the whole stream emits, and the carried position needs no clamping |
| Resampler.AsWrittenLosesBoundaryFrame | od-win32/sounddep/audio_resampler.cpp:102-112 | as written, two identity-rate calls emit one frame fewer than one call over both batches |
| Resampler.IdentityAsWritten | od-win32/sounddep/audio_resampler.cpp:71-112 | as written, an identity-rate call emits inputFrames - 1 frames and carries position 0 |
| Resampler.IdentityContinuous | od-win32/sounddep/audio_resampler.cpp:71-112 | corrected, an identity-rate call emits one frame per input frame, delayed by one |
| Layer2.InstantRate | od-win32/sounddep/audio_layer2.cpp:217-219 | the rate a positive timing hint implies: rate * cycles per sample = syncbase, positive for a positive syncbase |
| Layer2.Ema | od-win32/sounddep/audio_layer2.cpp:232-240 | the moving average lies between the old average and the new rate |
| Layer2.RateStepCounts | od-win32/sounddep/audio_layer2.cpp:215-243 | an accepted hint counts one sample; a rejected one changes nothing |
| Layer2.RateStepSettled | od-win32/sounddep/audio_layer2.cpp:221-240 | the estimate is either absent or within [50%, 150%] of the target, and stays so |
| Layer2.FirstRateSeeds | od-win32/sounddep/audio_layer2.cpp:234-236 | the first accepted hint sets the estimate to the instant rate |
| Layer2.EmaApproaches | od-win32/sounddep/audio_layer2.cpp:239-240 | repeated hints of one rate move the estimate monotonically toward that rate |
| Layer2.BatchSize | od-win32/sounddep/audio_layer2.cpp:265-273 | between 16 and 128 frames, all waiting frames up to 128 |
| Layer2.OutputPerInput | od-win32/sounddep/audio_layer2.cpp:307 | output frames per input frame, times the input rate, is the target rate |
| Layer2.ExpectedOutput | od-win32/sounddep/audio_layer2.cpp:304-308 | the room reserved for a batch includes the 32-frame slack |
| Layer2.ExpectedOutputBound | od-win32/sounddep/audio_layer2.cpp:304-315 | with a settled estimate a batch needs at most 2 * 128 + 32 frames, so the 2048-frame scratch buffer is never grown |
| Layer2.PushedFrame | od-win32/sounddep/audio_layer2.cpp:200 | the frame pushed is left and right, cut to the channel count |
| Layer2.Push | od-win32/sounddep/audio_layer2.cpp:202-209 | the frame is appended to the input queue, after dropping the oldest frame when the ring is full |
| Layer2.Appended | od-win32/sounddep/audio_layer2.cpp:262-335 | a pass appends nothing below 16 frames or on overrun, otherwise the conversion of the batch |
| Layer2.AsWrittenBatchDropsFrame | od-win32/sounddep/audio_layer2.cpp:317-322 | at equal rates from position 0, `Process` over a batch of n frames yields its first n - 1 frames, the call with the carried frame yields n |
| Layer2.AsWrittenPassUnderfeeds | od-win32/sounddep/audio_layer2.cpp:262-334 | at equal rates with room, the pass as written appends one frame fewer than the batch it consumes; the corrected pass appends exactly the batch size |
| Layer2.EqualRates | od-win32/sounddep/audio_layer2.cpp:304-308 | with no estimate, or one equal to the target, the ratio is 1 and the reserved room is the batch size plus 32 |
| Layer2.ResamplePass | od-win32/sounddep/audio_layer2.cpp:265-334 | one pass over at least 16 frames consumes the batch, appends Appended to the output queue, reports Overran and leaves the resampler at the carried position Resumed |
| Layer2.InputCapacity | od-win32/sounddep/audio_layer2.cpp:89-92 | the input ring asks for 10 ms of frames, at least 16 |
| Layer2.Drain | od-win32/sounddep/audio_layer2.cpp:473-481 | the host buffer receives the queued frames, oldest first, then silence up to the requested count |
| Layer2.Build | od-win32/sounddep/audio_layer2.cpp:88-142 | creates both rings (power-of-two capacities at least the requests), a fresh resampler and the 2048- and 128-frame scratch buffers |
| Layer2.ZeroFill | od-win32/sounddep/audio_layer2.cpp:475-481 | the frames from the end of the read to the requested count are silence, and nothing else changes |
| Layer2.NewRing | od-win32/sounddep/audio_layer2.cpp:93-108 | a fresh, empty ring of the channel count with a power-of-two capacity at least the request |
| Layer2.Release | od-win32/sounddep/audio_layer2.cpp:156-182 | both rings lose their storage and the resampler is shut down |
| Layer2.Enqueue | od-win32/sounddep/audio_layer2.cpp:202-209 | appends a frame to the input ring, evicting the oldest when full, and reports the eviction |
| Layer2.WriteFrame | od-win32/sounddep/audio_layer2.cpp:202-208 | one frame is appended iff the ring has room, otherwise the ring is unchanged |
| Layer2.DropOldest | od-win32/sounddep/audio_layer2.cpp:206-207 | the oldest queued frame is removed |
| Layer2.PrepareResampler | od-win32/sounddep/audio_layer2.cpp:288-302 | initialises the resampler at the assumed rate on first use, or retunes it to the estimate |
| Layer2.TakeBatch | od-win32/sounddep/audio_layer2.cpp:277-286 | moves the n oldest input frames into the scratch buffer and out of the input ring |
| Layer2.ConvertBatch | od-win32/sounddep/audio_layer2.cpp:288-322 | the scratch output holds the conversion of the batch behind the head frame, within the reserved room |
| Layer2.Deliver | od-win32/sounddep/audio_layer2.cpp:324-334 | appends the produced frames to the output ring, or drops them all when they do not fit |
| Layer2.ResampleBatch | od-win32/sounddep/audio_layer2.cpp:277-334 | take, convert and deliver: the input queue loses the batch, the output queue gains its conversion unless it overran |
| Coordinator.AudioLayer2.constructor | od-win32/sounddep/audio_layer2.cpp:50-67 | not initialised, zero configuration, no estimate, zero counters |
| Coordinator.AudioLayer2.Initialize | od-win32/sounddep/audio_layer2.cpp:73-151 | shuts down first, stores the configuration and clears the estimate; succeeds iff rate, channels and ring size are positive, and then both queues are empty |
| Coordinator.AudioLayer2.Attach | od-win32/sounddep/audio_layer2.cpp:88-144 | builds the components for a valid configuration: empty queues, capacities as requested, coordinator initialised |
| Coordinator.AudioLayer2.Shutdown | od-win32/sounddep/audio_layer2.cpp:153-189 | releases every component; a no-op when not initialised |
| Coordinator.AudioLayer2.PushSample | od-win32/sounddep/audio_layer2.cpp:195-213 | queues the frame by Push, updates the estimate by RateStep and runs one resampling pass on the new queue; the counters end as Resampled(Hinted(Queued(...))): push and eviction, then the published estimate and queue lengths of an accepted hint, then the pass and its overrun; the components stay, and the next pass starts at Resumed; nothing when not initialised |
| Coordinator.AudioLayer2.TakeSample | od-win32/sounddep/audio_layer2.cpp:196-211 | the frame is queued by Push and the estimate follows RateStep; the output queue is untouched; the counters record the push and any eviction, and an accepted hint publishes the estimate and both queue lengths |
| Coordinator.AudioLayer2.QueueFrame | od-win32/sounddep/audio_layer2.cpp:198-209 | counts the push and queues the frame by Push, counting an overrun exactly when the ring was full |
| Coordinator.AudioLayer2.UpdateRateMeasurement | od-win32/sounddep/audio_layer2.cpp:215-260 | the estimate follows RateStep; a rejected hint leaves the counters alone, an accepted one publishes the estimate and, when initialised, both queue lengths |
| Coordinator.AudioLayer2.ResampleInputToOutput | od-win32/sounddep/audio_layer2.cpp:262-335 | below 16 waiting frames nothing changes; otherwise a batch is consumed, its conversion appended unless it overran, the next pass starts at the carried position Resumed, and the call and any overrun are counted |
| Coordinator.AudioLayer2.ProcessBatch | od-win32/sounddep/audio_layer2.cpp:270-334 | with at least 16 waiting frames: consumes a batch, appends its conversion unless it overran, carries the position to Resumed, counts the call and any overrun |
| Coordinator.AudioLayer2.PullSamples | od-win32/sounddep/audio_layer2.cpp:470-492 | returns 0 without initialisation or buffer; otherwise the requested count, with the queued frames first, then silence; the input queue, head frame, position, components and configuration are untouched |
| Coordinator.AudioLayer2.GetBufferFillPercent | od-win32/sounddep/audio_layer2.cpp:494-497 | 0 when not initialised; otherwise the output queue length over the ring capacity, below 1 |
| PaulaPath.PaulaRate | od-win32/sounddep/audio_layer2.cpp:356 | Paula's rate times cycles per sample is cycles per second |
| PaulaPath.DriftAdjustment | od-win32/sounddep/audio_layer2.cpp:370-375 | the nudge factor lies in [0.9998, 1.0002] |
| PaulaPath.DriftSteersFill | od-win32/sounddep/audio_layer2.cpp:370-385 | below the fill band each Paula frame yields more host frames, above it fewer, inside it the measured ratio |
| PaulaPath.BlockOutput | od-win32/sounddep/audio_layer2.cpp:397 | a block's expected output, truncated, is within one frame of frameCount * target / rate |
| PaulaPath.NudgeWithin | od-win32/sounddep/audio_layer2.cpp:374-385 | the rate handed to the resampler lies between Paula's rate times 0.9998 and times 1.0002 |
| PaulaPath.Accept | od-win32/sounddep/audio_layer2.cpp:370-397 | for a rate in band: the resampler gets the nudged rate, restarts iff the rate moved more than 100 Hz, and the block reserves its expected output plus 10 frames |
| PaulaPath.PlanBlock | od-win32/sounddep/audio_layer2.cpp:350-397 | any target rate without initialisation, where nothing is done; a block is handled iff initialised, with samples, non-empty and with a rate in [1000, 200000] Hz; the resampler gets the nudged rate and restarts iff the rate moved more than 100 Hz |
| SampleFormat.TruncToZero | od-win32/sounddep/audio_wasapi_layer3.cpp:266 | the C cast: the result is within one of the value, on the zero side |
| SampleFormat.Quantize | od-win32/sounddep/audio_wasapi_layer3.cpp:259-267 | a converted sample lies in [-full, full] |
| SampleFormat.ClampNearest | od-win32/sounddep/audio_wasapi_layer3.cpp:261-263 | the clamped sample is the nearest point of [-1, 1] |
| SampleFormat.QuantizeMonotone | od-win32/sounddep/audio_wasapi_layer3.cpp:259-267 | a louder sample never converts to a smaller device sample |
| SampleFormat.QuantizeOdd | od-win32/sounddep/audio_wasapi_layer3.cpp:259-267 | negating a sample negates its device sample |
| SampleFormat.QuantizeSaturates | od-win32/sounddep/audio_wasapi_layer3.cpp:261-266 | everything at or beyond full scale gives the extreme device value |
| SampleFormat.ToInt16 | od-win32/sounddep/audio_wasapi_layer3.cpp:266 | a 16-bit device sample in [-32767, 32767] |
| SampleFormat.ToInt32 | od-win32/sounddep/audio_wasapi_layer3.cpp:281 | a 32-bit device sample in [-2147483647, 2147483647] |
| SampleFormat.NearestFloat | od-win32/sounddep/audio_wasapi_layer3.cpp:281 | an integer of [2^30, 2^31] as a float: a multiple of 128 within 64 of it, itself when already a multiple |
| SampleFormat.ToInt32AsWritten | od-win32/sounddep/audio_wasapi_layer3.cpp:281 | the cast as written lies in [-2^31, 2^31], one beyond int32 at the top |
| SampleFormat.FullScaleOverflowsInt32 | od-win32/sounddep/audio_wasapi_layer3.cpp:276-281 | the literal is the float 2^31, and a sample of 1.0 or more converts to 2^31 as written but to 2147483647 corrected |
| SampleFormat.AsWrittenInt32InRange | od-win32/sounddep/audio_wasapi_layer3.cpp:276-281 | samples in [-1, 32767/32768], all the resampler emits, stay within int32 even as written |
| SampleFormat.SampleRoundTrip | od-win32/sounddep/audio_wasapi_layer3.cpp:266 | a 16-bit sample passed through the resampler's 1/32768 scale and the sink's 32767 scale comes back one step closer to zero |
| Layer3.DeviceBits | od-win32/sounddep/audio_wasapi_layer3.cpp:85-93 | 16 or 32 bits are kept, anything else falls back to 16 |
| Layer3.SubU32 | od-win32/sounddep/audio_wasapi_layer3.cpp:169 | unsigned 32-bit subtraction, wrapping when the padding exceeds the buffer |
| Layer3.AudioWASAPILayer3.constructor | od-win32/sounddep/audio_wasapi_layer3.cpp:17-32 | not initialised, zero configuration and statistics, no buffers |
| Layer3.AudioWASAPILayer3.Initialize | od-win32/sounddep/audio_wasapi_layer3.cpp:39-120 | succeeds iff all three interfaces are present, rate and channels are positive and the buffer is non-empty; then zeroed buffers of twice the device buffer, bits by DeviceBits, statistics reset |
| Layer3.AudioWASAPILayer3.Allocate | od-win32/sounddep/audio_wasapi_layer3.cpp:74-104 | float and conversion buffers of 2 * bufferFrames * channels samples, zeroed, conversion width by DeviceBits |
| Layer3.AudioWASAPILayer3.Shutdown | od-win32/sounddep/audio_wasapi_layer3.cpp:122-149 | releases buffers and interfaces, keeps configuration and statistics; a no-op when not initialised |
| Layer3.AudioWASAPILayer3.GetAvailableFrames | od-win32/sounddep/audio_wasapi_layer3.cpp:244-253 | 0 without initialisation or client; otherwise free frames plus padding is the buffer size |
| Layer3.AudioWASAPILayer3.Budget | od-win32/sounddep/audio_wasapi_layer3.cpp:169-179 | the free device frames, clamped to the float buffer's capacity |
| Layer3.AudioWASAPILayer3.OnPullEvent | od-win32/sounddep/audio_wasapi_layer3.cpp:151-242 | fails without initialisation or coordinator; counts the event; succeeds at once with no free frames; an uninitialised coordinator is an underrun; else the budget is pulled, converted and counted as written; the coordinator's configuration and input side are untouched |
| Layer3.AudioWASAPILayer3.Serve | od-win32/sounddep/audio_wasapi_layer3.cpp:182-225 | adds an underrun when the pull yields nothing, or else the frames written, and delivers them; the coordinator's configuration and input side are untouched |
| Layer3.AudioWASAPILayer3.PullAndConvert | od-win32/sounddep/audio_wasapi_layer3.cpp:182-204 | the float buffer receives the queued frames then silence, and the conversion buffer their device samples; the coordinator's configuration and input side are untouched |
| Layer3.AudioWASAPILayer3.ConvertFloatToInt16 | od-win32/sounddep/audio_wasapi_layer3.cpp:255-268 | every converted sample is ToInt16 of its input; the rest of the output is untouched |
| Layer3.AudioWASAPILayer3.ConvertFloatToInt32 | od-win32/sounddep/audio_wasapi_layer3.cpp:270-283 | every converted sample is ToInt32 of its input; the rest of the output is untouched |

## Left out

- Atomics and memory ordering of the ring cursors. The ring is modelled sequentially: each
  load or store is a plain field access, so concurrent producer and consumer interleavings
  are not modelled.
- Logging (`AudioLog`, `write_log`), the log rate limiters and the tick-count-driven
  periodic blocks. These cover the rate log every 10000 samples, the sink's `avgLatencyMs`
  update and `lastStatsTime`, and the coordinator's `lastLogTime`.
- Floating point: `float` and `double` are exact reals. Rounding of the interpolation, of
  the `1/32768` scaling and of the moving average is not modelled. The one rounding that
  changes a result, `2147483647.0f` becoming 2^31, is modelled (see Findings).
- Allocation failure. `new` never returns null in the model, so the failure branches after
  the allocations in the ring buffer, resampler, coordinator and sink are not modelled.
- The 64-bit wrap-around of the statistics counters; they are unbounded naturals.
- COM calls. `GetCurrentPadding` is a parameter of `OnPullEvent`, and its failure branch
  is not modelled. `GetBuffer`, the `memcpy` into the device buffer and `ReleaseBuffer`
  with their failure branches are not modelled; neither is the silence written to the
  device on an underrun. The frames handed over are the first frames of the conversion
  buffer.
- `GetStats`, `GetBufferFrameCount` and the other plain field getters carry no contract.
- The destructors only call `Shutdown`, which is modelled.
- `ProcessFromPaula` is modelled only in its decisions (`PaulaPath.PlanBlock`). These are
  the rate band, the drift nudge, the restart condition and the output room. Not modelled:
  the resampling, the ring write, the scratch-buffer growth and the mirroring of the
  ring's counters into the debug block (`paulaActualRate`, `paulaFramesGenerated`,
  `totalProcessCalls` and the others).
- PaulaPath.PaulaRate: zero cycles per sample is treated as an unusable rate. In IEEE
  arithmetic `x / 0.0` is infinite and rejected by the band check, but `0.0 / 0.0` is NaN,
  which passes both comparisons of the band check.
- PaulaPath.DriftAdjustment: the band edges `0.25 - 0.05f` and `0.25 + 0.05f` are the
  reals 0.2 and 0.3, not their float-rounded values.
- PaulaPath.BlockOutput: `frameCount * targetSampleRate` is an `int` product in the source
  and can overflow for very large blocks. The model multiplies unbounded integers.
- RingBuffer.AudioRingBuffer.Initialize: requires capacityFrames <= 2^31, because beyond
  it the doubling loop of `NextPowerOf2` never ends. The `uint32_t` product
  `capacity * channels` is assumed not to overflow. The requested channel count must be
  positive (the coordinator always passes a validated one).
- RingBuffer.AudioRingBuffer.Write and RingBuffer.AudioRingBuffer.Read: the caller's
  buffer must hold frameCount frames and must not be the ring's own storage. The source
  cannot check either condition.
- Layer3.AudioWASAPILayer3.Initialize: requires bufferFrames < 2^30, so that
  `bufferFrameCount * 2 * channels` stays a valid array length.
- Layer3.AudioWASAPILayer3.OnPullEvent: requires the coordinator's channel count to equal
  the sink's, which is how the two are configured. It also requires the sink to own none
  of the coordinator's objects.
- Layer3.AudioWASAPILayer3.OnPullEvent: an underrun is counted only when the coordinator
  is uninitialised. An initialised coordinator's `PullSamples` always returns the
  requested count, padding with silence.
- Coordinator.AudioLayer2.PushSample: requires a channel count of at most 2. The source
  writes a two-sample stereo array for every frame, which reads past it for more channels.
- Coordinator.AudioLayer2.PullSamples: requires the requested count to fit a `uint32_t`
  and the buffer to hold that many frames.
- The rate band is 50% to 150% of the target rate, as in
  `od-win32/sounddep/audio_layer2.cpp:221-223`.
- The coordinator uses the corrected resampler call
  (`Resampler.AudioResampler.ProcessContinuous`); see Findings. The source calls
  `Process` over the batch alone (`od-win32/sounddep/audio_layer2.cpp:317-322`). The
  pass as written is `Layer2.AppendedAsWritten`, and `Layer2.AsWrittenPassUnderfeeds`
  shows what it loses. The members below therefore append the corrected conversion,
  not the one the source produces.
- Layer2.Appended: the conversion behind the carried frame (ProcessContinuous), not
  `Process` over the batch alone. At equal rates the source appends one frame fewer per
  batch (`Layer2.AsWrittenPassUnderfeeds`).
- Layer2.Converted: the batch is preceded by the carried frame, unlike the `Process` call
  at `od-win32/sounddep/audio_layer2.cpp:317`; `Layer2.ConvertedAsWritten` is the call as
  written and `Layer2.AsWrittenBatchDropsFrame` compares the two.
- Layer2.ResamplePass: appends `Layer2.Appended`, the corrected conversion; the source's
  pass is `Layer2.AppendedAsWritten`.
- Layer2.ConvertBatch: converts with `ProcessContinuous`, where the source calls
  `Process` (`od-win32/sounddep/audio_layer2.cpp:317`).
- Layer2.ResampleBatch: the output queue gains the corrected conversion; the source's
  is `Layer2.AppendedAsWritten`.
- Coordinator.AudioLayer2.ProcessBatch: appends `Layer2.Appended`, the corrected
  conversion, not `Layer2.AppendedAsWritten`.
- Coordinator.AudioLayer2.ResampleInputToOutput: appends `Layer2.Appended`, the corrected
  conversion, not `Layer2.AppendedAsWritten`.
- Coordinator.AudioLayer2.PushSample: the pass it runs appends `Layer2.Appended`, the
  corrected conversion, not `Layer2.AppendedAsWritten`.
- SampleFormat.ToInt32: scales by the integer 2147483647, the evidently intended value.
  The source's literal `2147483647.0f` is the float 2^31; that conversion is
  `SampleFormat.ToInt32AsWritten`, see Findings. Samples from the resampler lie in
  [-1, 32767/32768] (`Resampler.RunSampleRange`), where the two stay within int32
  (`SampleFormat.AsWrittenInt32InRange`).
- Layer3.AudioWASAPILayer3.ConvertFloatToInt32: every sample is `SampleFormat.ToInt32`
  of its input, the corrected scale; see `SampleFormat.ToInt32` above.
- Resampler.AudioResampler.Process: requires a non-negative input rate once initialised.
  The source does not check it, but every caller meets it: the coordinator passes its
  estimate, which is positive, or the target rate, and the batched Paula path passes at
  least 1000 * 0.9998 Hz.
- Resampler.AudioResampler.ProcessContinuous: the same non-negative input rate
  requirement as `Process`, met by the coordinator for the same reason.

## Findings

| source | as written | input that shows it | evidently intended | confidence | as-written member | corrected member |
|---|---|---|---|---|---|---|
| od-win32/sounddep/audio_resampler.cpp:102-112 | each call interpolates only within its own batch. It then subtracts inputFrames from the position and clamps at 0. The cached `lastFrame` is never read, so the interval between the last frame of one batch and the first frame of the next is never emitted. | equal rates (ratio 1), position 0, two batches a and b: the two calls emit \|a\| + \|b\| - 2 frames, one call over a + b emits \|a\| + \|b\| - 1, and frame a[\|a\| - 1] is never output | interpolate from the cached last frame of the previous batch. A stream cut into batches then gives the same output as one call over the whole stream, and identity rates give one output frame per input frame | not executed | Resampler.AsWrittenLosesBoundaryFrame | Resampler.StreamingSplit |
| od-win32/sounddep/audio_wasapi_layer3.cpp:281 | `(int32_t)(sample * 2147483647.0f)`: the literal rounds to the float 2^31, so a clamped sample of 1.0 scales to 2^31, one past the largest int32 value, and the cast overflows | a sample of 1.0 or more reaching `ConvertFloatToInt32` | scale by 2147483647, so full scale gives the largest int32 value | not executed | SampleFormat.FullScaleOverflowsInt32 | SampleFormat.ToInt32 |
