/**
 * The single-producer / single-consumer ring buffer of interleaved frames
 * (`AudioRingBuffer<T>`), modelled sequentially: each atomic load or store of a cursor
 * is a plain field read or write.
 *
 * The storage holds `capacity` slots of `channels` samples each. The live frames are the
 * slots from `readPos` (inclusive) forward to `writePos` (exclusive), modulo the capacity;
 * one slot always stays empty so that a full buffer differs from an empty one.
 *
 * The pure part of the module describes the storage as a sequence of slots and the live
 * region as a queue over them; the class methods are proved against it.
 */
module RingBuffer {
  import opened AudioMath

  // ---------------------------------------------------------------------------
  // Cursor arithmetic
  // ---------------------------------------------------------------------------

  /** Frames available to the reader: (w - r) reduced modulo the capacity. */
  function AvailRead(w: int, r: int, capacity: int): (n: int)
    requires capacity > 0 && 0 <= w < capacity && 0 <= r < capacity
    ensures 0 <= n < capacity
    ensures (r + n) % capacity == w
  {
    ModNear(w - r, capacity);
    ModNear(r + (w - r) % capacity, capacity);
    (w - r) % capacity
  }

  /** Free slots available to the writer: (r - w - 1) reduced modulo the capacity. */
  function AvailWrite(w: int, r: int, capacity: int): (n: int)
    requires capacity > 0 && 0 <= w < capacity && 0 <= r < capacity
    ensures 0 <= n < capacity
    ensures (w + n + 1) % capacity == r
  {
    ModNear(r - w - 1, capacity);
    ModNear(w + (r - w - 1) % capacity + 1, capacity);
    (r - w - 1) % capacity
  }

  /** Distance from cursor w forward to slot s. */
  function Ahead(s: int, w: int, capacity: int): int
    requires capacity > 0
  {
    (s - w) % capacity
  }

  /** Whatever the cursors, live frames and free slots add up to capacity - 1. */
  lemma AvailableAddsUp(w: int, r: int, capacity: int)
    requires capacity > 0 && 0 <= w < capacity && 0 <= r < capacity
    ensures AvailRead(w, r, capacity) + AvailWrite(w, r, capacity) == capacity - 1
  {
    ModNear(w - r, capacity);
    ModNear(r - w - 1, capacity);
  }

  /** A cursor advanced by fewer than `capacity` frames is `Ahead` of its old value by exactly that many. */
  lemma AheadOfAdvance(w: int, i: int, capacity: int)
    requires capacity > 0 && 0 <= w < capacity && 0 <= i < capacity
    ensures 0 <= (w + i) % capacity < capacity
    ensures Ahead((w + i) % capacity, w, capacity) == i
  {
    ModNear(w + i, capacity);
    ModNear((w + i) % capacity - w, capacity);
  }

  /** Ahead(., w) is one-to-one on the slots. */
  lemma AheadInjective(s: int, s': int, w: int, capacity: int)
    requires capacity > 0 && 0 <= w < capacity && 0 <= s < capacity && 0 <= s' < capacity
    requires Ahead(s, w, capacity) == Ahead(s', w, capacity)
    ensures s == s'
  {
    ModNear(s - w, capacity);
    ModNear(s' - w, capacity);
  }

  // ---------------------------------------------------------------------------
  // Slots and the live queue
  // ---------------------------------------------------------------------------

  /** The live frames: `len` slots starting at cursor r, wrapping around. */
  function Queue<T>(slots: seq<seq<T>>, r: int, len: int): (q: seq<seq<T>>)
    requires 0 <= r < |slots| && 0 <= len <= |slots|
    ensures |q| == len
  {
    seq(len, i requires 0 <= i < len => slots[(r + i) % |slots|])
  }

  /** The slots after storing `frames` at cursor w, w + 1, ... (wrapping); every other slot keeps its frame. */
  function WriteSlots<T>(slots: seq<seq<T>>, w: int, frames: seq<seq<T>>): (s': seq<seq<T>>)
    requires 0 <= w < |slots| && |frames| < |slots|
    ensures |s'| == |slots|
  {
    seq(|slots|, s requires 0 <= s < |slots| =>
      var d := Ahead(s, w, |slots|);
      if d < |frames| then frames[d] else slots[s])
  }

  /**
   * FIFO, writer side: storing frames at the write cursor of a queue that has room for
   * them appends them to the queue, after every frame already in it.
   */
  lemma {:induction false} WriteAppends<T>(slots: seq<seq<T>>, r: int, len: int, frames: seq<seq<T>>)
    requires 0 <= r < |slots| && 0 <= len && len + |frames| < |slots|
    ensures Queue(WriteSlots(slots, (r + len) % |slots|, frames), r, len + |frames|)
         == Queue(slots, r, len) + frames
  {
    var cap := |slots|;
    ModNear(r + len, cap);
    var w := (r + len) % cap;
    var after := WriteSlots(slots, w, frames);
    var lhs := Queue(after, r, len + |frames|);
    var rhs := Queue(slots, r, len) + frames;
    forall i | 0 <= i < len + |frames|
      ensures lhs[i] == rhs[i]
    {
      ModNear(r + i, cap);
      var s := (r + i) % cap;
      ModNear(s - w, cap);
      if i < len {
        assert Ahead(s, w, cap) >= |frames|;
      } else {
        assert Ahead(s, w, cap) == i - len;
      }
    }
  }

  /** FIFO, reader side: advancing the read cursor by n drops exactly the n oldest frames. */
  lemma {:induction false} ReadDropsFront<T>(slots: seq<seq<T>>, r: int, len: int, n: int)
    requires 0 <= r < |slots| && 0 <= n <= len <= |slots|
    ensures 0 <= (r + n) % |slots| < |slots|
    ensures Queue(slots, (r + n) % |slots|, len - n) == Queue(slots, r, len)[n..]
    ensures Queue(slots, r, n) == Queue(slots, r, len)[..n]
  {
    var cap := |slots|;
    var r' := (r + n) % cap;
    ModShift(r + n, (r + n) / cap, cap);
    forall k | n <= k < len
      ensures Queue(slots, r', len - n)[k - n] == Queue(slots, r, len)[k]
    {
      ModDecomposition(r + n, cap);
      ModShift(r' + (k - n) + cap * ((r + n) / cap), (r + n) / cap, cap);
      assert r' + (k - n) + cap * ((r + n) / cap) == r + k;
    }
  }

  // ---------------------------------------------------------------------------
  // The element-level effect of the copy loops
  // ---------------------------------------------------------------------------

  /**
   * Storage after Write's copy loop: element j belongs to slot j / channels; if that slot
   * is among the first n after cursor w, it receives the matching sample of `src`.
   */
  function WriteFlat<T>(buf: seq<T>, src: seq<T>, w: int, n: int, capacity: int, channels: int): (b': seq<T>)
    requires capacity > 0 && channels > 0 && |buf| == capacity * channels
    requires 0 <= w < capacity && 0 <= n < capacity && n * channels <= |src|
    ensures |b'| == |buf|
  {
    seq(|buf|, j requires 0 <= j < |buf| =>
      FrameOfIndex(j, channels, capacity);
      ModNear(j / channels - w, capacity);
      var d := Ahead(j / channels, w, capacity);
      if d < n then (IdxBounds(d, j % channels, channels, n); src[Idx(d, j % channels, channels)]) else buf[j])
  }

  /** Caller's buffer after Read's copy loop: its first n frames are the n slots from cursor r. */
  function ReadFlat<T>(dst: seq<T>, buf: seq<T>, r: int, n: int, capacity: int, channels: int): (d': seq<T>)
    requires capacity > 0 && channels > 0 && |buf| == capacity * channels
    requires 0 <= r < capacity && 0 <= n <= capacity && n * channels <= |dst|
    ensures |d'| == |dst|
  {
    seq(|dst|, j requires 0 <= j < |dst| =>
      if j < n * channels then
        FrameOfIndex(j, channels, n);
        ModNear(r + j / channels, capacity);
        IdxBounds((r + j / channels) % capacity, j % channels, channels, capacity);
        buf[Idx((r + j / channels) % capacity, j % channels, channels)]
      else dst[j])
  }

  /** Seen slot by slot, Write's copy loop stores the frames of `src` as WriteSlots says. */
  lemma WriteFlatSlots<T>(buf: seq<T>, src: seq<T>, w: int, n: int, capacity: int, channels: int)
    requires capacity > 0 && channels > 0 && |buf| == capacity * channels
    requires 0 <= w < capacity && 0 <= n < capacity && n * channels <= |src|
    ensures Chunks(WriteFlat(buf, src, w, n, capacity, channels), channels, capacity)
         == WriteSlots(Chunks(buf, channels, capacity), w, Chunks(src, channels, n))
  {
    var after := WriteFlat(buf, src, w, n, capacity, channels);
    var expected := WriteSlots(Chunks(buf, channels, capacity), w, Chunks(src, channels, n));
    forall s, c | 0 <= s < capacity && 0 <= c < channels
      ensures Idx(s, c, channels) < |after| && after[Idx(s, c, channels)] == expected[s][c]
    {
      WriteFlatAt(buf, src, w, n, capacity, channels, s, c);
    }
    ChunksExt(after, expected, channels, capacity);
  }

  /** Sample c of slot s after WriteFlat is sample c of slot s after WriteSlots. */
  lemma WriteFlatAt<T>(buf: seq<T>, src: seq<T>, w: int, n: int, capacity: int, channels: int, s: int, c: int)
    requires capacity > 0 && channels > 0 && |buf| == capacity * channels
    requires 0 <= w < capacity && 0 <= n < capacity && n * channels <= |src|
    requires 0 <= s < capacity && 0 <= c < channels
    ensures Idx(s, c, channels) < |buf|
    ensures WriteFlat(buf, src, w, n, capacity, channels)[Idx(s, c, channels)]
         == WriteSlots(Chunks(buf, channels, capacity), w, Chunks(src, channels, n))[s][c]
  {
    IdxBounds(s, c, channels, capacity);
    IdxDivMod(s, c, channels);
    ChunksAt(buf, channels, capacity, s, c);
    ModNear(s - w, capacity);
    var d := Ahead(s, w, capacity);
    if d < n {
      ChunksAt(src, channels, n, d, c);
    }
  }

  /** Seen frame by frame, Read's copy loop hands out the n oldest live frames. */
  lemma ReadFlatFrames<T>(dst: seq<T>, buf: seq<T>, r: int, n: int, capacity: int, channels: int)
    requires capacity > 0 && channels > 0 && |buf| == capacity * channels
    requires 0 <= r < capacity && 0 <= n <= capacity && n * channels <= |dst|
    ensures Chunks(ReadFlat(dst, buf, r, n, capacity, channels), channels, n)
         == Queue(Chunks(buf, channels, capacity), r, n)
    ensures ReadFlat(dst, buf, r, n, capacity, channels)[n * channels..] == dst[n * channels..]
  {
    var after := ReadFlat(dst, buf, r, n, capacity, channels);
    var expected := Queue(Chunks(buf, channels, capacity), r, n);
    forall k, c | 0 <= k < n && 0 <= c < channels
      ensures Idx(k, c, channels) < |after| && after[Idx(k, c, channels)] == expected[k][c]
    {
      IdxBounds(k, c, channels, n);
      IdxDivMod(k, c, channels);
      ModNear(r + k, capacity);
      ChunksAt(buf, channels, capacity, (r + k) % capacity, c);
    }
    ChunksExt(after, expected, channels, n);
  }

  /**
   * Write's effect on the live queue: after the copy loop stores n frames of `src` at
   * cursor w and the cursor advances by n, the queue is the old queue followed by those frames.
   */
  lemma WriteEffect<T>(before: seq<T>, src: seq<T>, w: int, r: int, n: int, capacity: int, channels: int)
    requires capacity > 0 && channels > 0 && |before| == capacity * channels
    requires 0 <= w < capacity && 0 <= r < capacity && n * channels <= |src|
    requires 0 <= n <= AvailWrite(w, r, capacity)
    ensures 0 <= (w + n) % capacity < capacity
    ensures AvailRead((w + n) % capacity, r, capacity) == AvailRead(w, r, capacity) + n
    ensures Queue(Chunks(WriteFlat(before, src, w, n, capacity, channels), channels, capacity), r,
                  AvailRead((w + n) % capacity, r, capacity))
         == Queue(Chunks(before, channels, capacity), r, AvailRead(w, r, capacity)) + Chunks(src, channels, n)
  {
    var len := AvailRead(w, r, capacity);
    AdvanceWriter(w, r, n, capacity);
    assert w == (r + len) % capacity;
    var frames := Chunks(src, channels, n);
    var slots := Chunks(before, channels, capacity);
    WriteFlatSlots(before, src, w, n, capacity, channels);
    WriteAppends(slots, r, len, frames);
  }

  /** Advancing the write cursor by n free slots makes n more frames available to the reader. */
  lemma AdvanceWriter(w: int, r: int, n: int, capacity: int)
    requires capacity > 0 && 0 <= w < capacity && 0 <= r < capacity
    requires 0 <= n <= AvailWrite(w, r, capacity)
    ensures 0 <= (w + n) % capacity < capacity
    ensures AvailRead((w + n) % capacity, r, capacity) == AvailRead(w, r, capacity) + n
  {
    AvailableAddsUp(w, r, capacity);
    ModNear(w + n, capacity);
    ModNear(w - r, capacity);
    ModNear((w + n) % capacity - r, capacity);
  }

  /**
   * Read's effect on the live queue: after the copy loop hands out n of the len live frames
   * and the cursor advances by n, the queue has lost exactly its n oldest frames.
   */
  lemma ReadEffect<T>(buf: seq<T>, w: int, r: int, n: int, capacity: int, channels: int)
    requires capacity > 0 && channels > 0 && |buf| == capacity * channels
    requires 0 <= w < capacity && 0 <= r < capacity && 0 <= n <= AvailRead(w, r, capacity)
    ensures 0 <= (r + n) % capacity < capacity
    ensures AvailRead(w, (r + n) % capacity, capacity) == AvailRead(w, r, capacity) - n
    ensures Queue(Chunks(buf, channels, capacity), (r + n) % capacity, AvailRead(w, (r + n) % capacity, capacity))
         == Queue(Chunks(buf, channels, capacity), r, AvailRead(w, r, capacity))[n..]
    ensures Queue(Chunks(buf, channels, capacity), r, n)
         == Queue(Chunks(buf, channels, capacity), r, AvailRead(w, r, capacity))[..n]
  {
    var len := AvailRead(w, r, capacity);
    AdvanceReader(w, r, n, capacity);
    ReadDropsFront(Chunks(buf, channels, capacity), r, len, n);
  }

  /** Advancing the read cursor by n live frames leaves n fewer available to the reader. */
  lemma AdvanceReader(w: int, r: int, n: int, capacity: int)
    requires capacity > 0 && 0 <= w < capacity && 0 <= r < capacity
    requires 0 <= n <= AvailRead(w, r, capacity)
    ensures 0 <= (r + n) % capacity < capacity
    ensures AvailRead(w, (r + n) % capacity, capacity) == AvailRead(w, r, capacity) - n
  {
    ModNear(r + n, capacity);
    ModNear(w - r, capacity);
    ModNear(w - (r + n) % capacity, capacity);
  }

  /** A fill count below capacity is a fraction in [0, 1) that scales back to the count. */
  lemma FractionBelowOne(a: nat, b: nat)
    requires a < b
    ensures 0.0 <= a as real / b as real < 1.0
    ensures (a as real / b as real) * (b as real) == a as real
  {
  }

  // ---------------------------------------------------------------------------
  // The buffer object
  // ---------------------------------------------------------------------------

  /** The source's `Stats` struct (64-bit wrap-around is not modelled). */
  datatype Stats = Stats(totalWritten: nat, totalRead: nat, overruns: nat, underruns: nat)

  const ZERO_STATS: Stats := Stats(0, 0, 0, 0)

  class AudioRingBuffer<T> {
    var writePos: nat
    var readPos: nat
    /** Interleaved storage; null before Initialize and after Shutdown. */
    var buffer: array?<T>
    /** Frames; always a power of two while storage exists, 0 otherwise. */
    var capacity: nat
    var capacityMask: nat
    var channels: int
    var stats: Stats

    ghost predicate Valid()
      reads this
    {
      && IsPow2(capacityMask + 1) && capacityMask + 1 <= 0x8000_0000
      && writePos <= capacityMask && readPos <= capacityMask
      && (buffer == null ==> capacity == 0)
      && (buffer != null ==> capacity == capacityMask + 1 && channels > 0 && buffer.Length == capacity * channels)
    }

    /** The storage seen as `capacity` slots of one frame each. */
    ghost function Slots(): seq<seq<T>>
      reads this, buffer
      requires Valid() && buffer != null
    {
      Chunks(buffer[..], channels, capacity)
    }

    /** The live frames, oldest first. */
    ghost function Contents(): seq<seq<T>>
      reads this, buffer
      requires Valid() && buffer != null
    {
      Queue(Slots(), readPos, AvailRead(writePos, readPos, capacity))
    }

    /** The live frames are the frames available to the reader; with the free slots they fill all but one slot. */
    lemma Occupancy()
      requires Valid() && buffer != null
      ensures |Contents()| == GetAvailableRead()
      ensures |Contents()| + GetAvailableWrite() == capacity - 1
    {
      AvailableAddsUp(writePos, readPos, capacity);
    }

    constructor ()
      ensures Valid()
      ensures buffer == null && capacity == 0 && capacityMask == 0 && channels == 0
      ensures writePos == 0 && readPos == 0 && stats == ZERO_STATS
    {
      writePos, readPos := 0, 0;
      buffer := null;
      capacity, capacityMask, channels := 0, 0, 0;
      stats := ZERO_STATS;
    }

    /**
     * Least power of two that is at least n (1 for n = 0). The doubling loop only
     * terminates when a power of two at least n fits in 32 bits, hence n <= 2^31.
     */
    static method NextPowerOf2(n: UInt32) returns (p: UInt32)
      requires n <= 0x8000_0000
      ensures IsPow2(p) && n <= p && p <= 0x8000_0000
      ensures forall q :: IsPow2(q) && n <= q ==> p <= q
    {
      if n == 0 {
        TwoTo32IsPow2();
        return 1;
      }
      // the bit test (n & (n - 1)) == 0 holds for n > 0 exactly when n is a power of two
      TwoTo32IsPow2();
      if IsPow2(n) {
        return n;
      }
      var power := 1;
      while power < n
        invariant IsPow2(power) && power <= 0x8000_0000
        invariant power == 1 || power < 2 * n
      {
        Pow2Gap(power, 0x8000_0000);
        power := power * 2;
      }
      forall q | IsPow2(q) && n <= q
        ensures power <= q
      {
        if q < power {
          Pow2Gap(q, power);
        }
      }
      return power;
    }

    /**
     * Rounds the capacity up to a power of two, allocates zeroed storage (`silence` is the
     * zero of T) and resets both cursors and the counters.
     */
    method Initialize(capacityFrames: UInt32, numChannels: int, silence: T) returns (ok: bool)
      requires Valid()
      requires capacityFrames <= 0x8000_0000 && numChannels > 0
      modifies this
      ensures Valid() && ok
      ensures buffer != null && fresh(buffer)
      ensures IsPow2(capacity) && capacityFrames <= capacity
      ensures forall q :: IsPow2(q) && capacityFrames <= q ==> capacity <= q
      ensures capacityMask == capacity - 1 && channels == numChannels
      ensures writePos == 0 && readPos == 0 && stats == ZERO_STATS
      ensures forall j :: 0 <= j < buffer.Length ==> buffer[j] == silence
      ensures Contents() == []
    {
      var cap := NextPowerOf2(capacityFrames);
      capacity := cap;
      capacityMask := cap - 1;
      channels := numChannels;
      var totalSamples := cap * numChannels;
      buffer := new T[totalSamples](_ => silence);
      writePos := 0;
      readPos := 0;
      ResetStats();
      assert AvailRead(0, 0, cap) == 0;
      assert Contents() == [];
      ok := true;
    }

    /** Releases the storage. The mask and the cursors keep their values. */
    method Shutdown()
      requires Valid()
      modifies this
      ensures Valid()
      ensures buffer == null && capacity == 0
      ensures capacityMask == old(capacityMask) && channels == old(channels)
      ensures writePos == old(writePos) && readPos == old(readPos) && stats == old(stats)
    {
      if buffer != null {
        buffer := null;
      }
      capacity := 0;
    }

    method ResetStats()
      modifies this`stats
      ensures stats == ZERO_STATS
    {
      stats := Stats(0, 0, 0, 0);
    }

    function GetStats(): Stats
      reads this
    {
      stats
    }

    function GetAvailableRead(): UInt32
      reads this
      requires Valid()
    {
      AvailRead(writePos, readPos, capacityMask + 1)
    }

    function GetAvailableWrite(): UInt32
      reads this
      requires Valid()
    {
      AvailWrite(writePos, readPos, capacityMask + 1)
    }

    /** Occupancy as a fraction of the capacity; 0 when there is no storage. */
    function GetFillPercent(): (f: real)
      reads this
      requires Valid()
      ensures capacity == 0 ==> f == 0.0
      ensures capacity > 0 ==> f * (capacity as real) == GetAvailableRead() as real
      ensures 0.0 <= f < 1.0
    {
      if capacity == 0 then 0.0
      else FractionBelowOne(GetAvailableRead(), capacity); GetAvailableRead() as real / capacity as real
    }

    /** Write's copy loop: the frames of `data` go to storage frames w, w + 1, ... (wrapping). */
    static method CopyIn(buf: array<T>, data: array<T>, wPos: int, frameCount: int, cap: int, samplesPerFrame: int)
      requires data != buf && cap > 0 && samplesPerFrame > 0 && buf.Length == cap * samplesPerFrame
      requires 0 <= wPos < cap && 0 <= frameCount < cap && frameCount * samplesPerFrame <= data.Length
      modifies buf
      ensures buf[..] == WriteFlat(old(buf[..]), data[..], wPos, frameCount, cap, samplesPerFrame)
    {
      ghost var before := buf[..];
      ghost var src := data[..];
      ghost var target := WriteFlat(before, src, wPos, frameCount, cap, samplesPerFrame);
      var i := 0;
      while i < frameCount
        modifies buf
        invariant 0 <= i <= frameCount
        invariant forall j :: 0 <= j < buf.Length ==>
                    buf[j] == if Ahead(j / samplesPerFrame, wPos, cap) < i then target[j] else before[j]
      {
        AheadOfAdvance(wPos, i, cap);
        var frameIdx := (wPos + i) % cap;
        var bufferOffset := frameIdx * samplesPerFrame;
        var ch := 0;
        while ch < samplesPerFrame
          modifies buf
          invariant 0 <= ch <= samplesPerFrame
          invariant forall j :: 0 <= j < buf.Length ==>
                      buf[j] == if Ahead(j / samplesPerFrame, wPos, cap) < i || bufferOffset <= j < bufferOffset + ch
                                then target[j] else before[j]
        {
          IdxBounds(frameIdx, ch, samplesPerFrame, cap);
          IdxBounds(i, ch, samplesPerFrame, frameCount);
          IdxDivMod(frameIdx, ch, samplesPerFrame);
          buf[bufferOffset + ch] := data[i * samplesPerFrame + ch];
          ch := ch + 1;
        }
        forall j | 0 <= j < buf.Length
          ensures (Ahead(j / samplesPerFrame, wPos, cap) < i || bufferOffset <= j < bufferOffset + samplesPerFrame)
              <==> Ahead(j / samplesPerFrame, wPos, cap) < i + 1
        {
          FrameRange(j, frameIdx, samplesPerFrame);
          FrameOfIndex(j, samplesPerFrame, cap);
          ModNear(j / samplesPerFrame - wPos, cap);
          if Ahead(j / samplesPerFrame, wPos, cap) == i {
            AheadInjective(j / samplesPerFrame, frameIdx, wPos, cap);
          }
        }
        i := i + 1;
      }
      forall j | 0 <= j < buf.Length
        ensures buf[j] == target[j]
      {
        FrameOfIndex(j, samplesPerFrame, cap);
        ModNear(j / samplesPerFrame - wPos, cap);
      }
      assert buf[..] == target;
    }

    /**
     * All-or-nothing write of frameCount frames from `data`. Without storage, without
     * data or with nothing to write it does nothing; without room for every frame it
     * writes none and counts an overrun.
     */
    method Write(data: array?<T>, frameCount: UInt32) returns (ok: bool)
      requires Valid()
      requires data != null ==> data != buffer && frameCount * channels <= data.Length
      modifies this, buffer
      ensures Valid()
      ensures buffer == old(buffer) && capacity == old(capacity) && capacityMask == old(capacityMask)
      ensures channels == old(channels) && readPos == old(readPos)
      ensures ok <==> old(buffer != null && data != null && 0 < frameCount <= GetAvailableWrite())
      ensures old(buffer == null || data == null || frameCount == 0) ==> unchanged(this) && (buffer != null ==> unchanged(buffer))
      ensures old(buffer != null && data != null && frameCount > 0) && !ok ==>
                stats == old(stats).(overruns := old(stats).overruns + 1) && writePos == old(writePos) && unchanged(buffer)
      ensures ok ==> writePos == (old(writePos) + frameCount) % capacity
      ensures ok ==> stats == old(stats).(totalWritten := old(stats).totalWritten + frameCount)
      ensures ok ==> Slots() == WriteSlots(old(Slots()), old(writePos), Chunks(data[..], channels, frameCount))
      ensures ok ==> Contents() == old(Contents()) + Chunks(data[..], channels, frameCount)
      ensures !ok && buffer != null ==> Contents() == old(Contents())
    {
      if buffer == null || data == null || frameCount == 0 {
        return false;
      }
      var wPos := writePos;
      var rPos := readPos;
      var cap := capacityMask + 1;
      var available := AvailWrite(wPos, rPos, cap);
      if frameCount > available {
        stats := stats.(overruns := stats.overruns + 1);
        return false;
      }
      var buf := buffer;
      var samplesPerFrame := channels;
      ghost var before := buf[..];
      ghost var src := data[..];
      ghost var frames := Chunks(src, samplesPerFrame, frameCount);
      ghost var oldSlots := Slots();
      ghost var oldContents := Contents();
      CopyIn(buf, data, wPos, frameCount, cap, samplesPerFrame);
      WriteFlatSlots(before, src, wPos, frameCount, cap, samplesPerFrame);
      WriteEffect(before, src, wPos, rPos, frameCount, cap, samplesPerFrame);
      writePos := (wPos + frameCount) % cap;
      stats := stats.(totalWritten := stats.totalWritten + frameCount);
      assert Slots() == WriteSlots(oldSlots, wPos, frames);
      assert Contents() == oldContents + frames;
      ok := true;
    }

    /** Read's copy loop: frames r, r + 1, ... (wrapping) of the storage go to the front of `data`. */
    static method CopyOut(buf: array<T>, data: array<T>, rPos: int, toRead: int, frameCount: int, cap: int, samplesPerFrame: int)
      requires data != buf && cap > 0 && samplesPerFrame > 0 && buf.Length == cap * samplesPerFrame
      requires 0 <= rPos < cap && 0 <= toRead <= frameCount && toRead <= cap && frameCount * samplesPerFrame <= data.Length
      modifies data
      ensures toRead * samplesPerFrame <= data.Length
      ensures Chunks(data[..], samplesPerFrame, toRead) == Queue(Chunks(buf[..], samplesPerFrame, cap), rPos, toRead)
      ensures data[toRead * samplesPerFrame..] == old(data[toRead * samplesPerFrame..])
    {
      ghost var before := data[..];
      ghost var target := ReadFlat(before, buf[..], rPos, toRead, cap, samplesPerFrame);
      MulMono(toRead, frameCount, samplesPerFrame);
      var i := 0;
      while i < toRead
        modifies data
        invariant 0 <= i <= toRead
        invariant forall j :: 0 <= j < data.Length ==>
                    data[j] == if j < i * samplesPerFrame then target[j] else before[j]
      {
        ModNear(rPos + i, cap);
        var frameIdx := (rPos + i) % cap;
        var bufferOffset := frameIdx * samplesPerFrame;
        var ch := 0;
        while ch < samplesPerFrame
          modifies data
          invariant 0 <= ch <= samplesPerFrame
          invariant forall j :: 0 <= j < data.Length ==>
                      data[j] == if j < i * samplesPerFrame + ch then target[j] else before[j]
        {
          IdxBounds(frameIdx, ch, samplesPerFrame, cap);
          IdxBounds(i, ch, samplesPerFrame, toRead);
          IdxDivMod(i, ch, samplesPerFrame);
          data[i * samplesPerFrame + ch] := buf[bufferOffset + ch];
          ch := ch + 1;
        }
        assert (i + 1) * samplesPerFrame == i * samplesPerFrame + samplesPerFrame;
        i := i + 1;
      }
      assert data[..] == target;
      ReadFlatFrames(before, buf[..], rPos, toRead, cap, samplesPerFrame);
    }

    /**
     * Reads up to frameCount frames, oldest first, into `data`; a short read is normal.
     * Counts an underrun whenever fewer frames than requested were available.
     */
    method Read(data: array?<T>, frameCount: UInt32) returns (n: UInt32)
      requires Valid()
      requires data != null ==> data != buffer && frameCount * channels <= data.Length
      modifies this, data
      ensures Valid()
      ensures buffer == old(buffer) && capacity == old(capacity) && capacityMask == old(capacityMask)
      ensures channels == old(channels) && writePos == old(writePos)
      ensures old(buffer == null || data == null || frameCount == 0) ==>
                n == 0 && unchanged(this) && (data != null ==> unchanged(data))
      ensures old(buffer != null && data != null && frameCount > 0) ==>
                && n == (if frameCount < old(GetAvailableRead()) then frameCount else old(GetAvailableRead()))
                && readPos == (old(readPos) + n) % capacity
                && stats == old(stats).(totalRead := old(stats).totalRead + n,
                                        underruns := old(stats).underruns + (if n < frameCount then 1 else 0))
                && Chunks(data[..], channels, n) == old(Contents())[..n]
                && data[n * channels..] == old(data[n * channels..])
                && Contents() == old(Contents())[n..]
    {
      if buffer == null || data == null || frameCount == 0 {
        return 0;
      }
      var wPos := writePos;
      var rPos := readPos;
      var cap := capacityMask + 1;
      var available := AvailRead(wPos, rPos, cap);
      if available == 0 {
        stats := stats.(underruns := stats.underruns + 1);
        ReadDropsFront(Slots(), rPos, 0, 0);
        ModNear(rPos, cap);
        return 0;
      }
      var toRead := if frameCount < available then frameCount else available;
      var buf := buffer;
      var samplesPerFrame := channels;
      ghost var slots := Slots();
      ghost var oldContents := Contents();
      CopyOut(buf, data, rPos, toRead, frameCount, cap, samplesPerFrame);
      ReadEffect(buf[..], wPos, rPos, toRead, cap, samplesPerFrame);
      readPos := (rPos + toRead) % cap;
      stats := stats.(totalRead := stats.totalRead + toRead);
      if toRead < frameCount {
        stats := stats.(underruns := stats.underruns + 1);
      }
      assert Slots() == slots;
      assert Contents() == oldContents[toRead..];
      n := toRead;
    }
  }
}
