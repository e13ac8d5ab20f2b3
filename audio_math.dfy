/**
 * Shared arithmetic for the audio bridge: fixed-width integer ranges, powers of two,
 * modular cursor arithmetic, and the interleaved frame layout (frame k, channel c lives
 * at element k * channels + c).
 */
module AudioMath {

  /** The range of the C `int16_t` / `uae_s16` sample type. */
  type Int16 = x: int | -32768 <= x <= 32767

  /** The range of the C `int` (32-bit) type. */
  type Int32 = x: int | -0x8000_0000 <= x <= 0x7FFF_FFFF

  /** The range of the C `uint32_t` type. */
  type UInt32 = x: int | 0 <= x <= 0xFFFF_FFFF

  const UINT32_MODULUS: int := 0x1_0000_0000

  /** n is 1, 2, 4, 8, ... */
  predicate IsPow2(n: int)
    decreases if n < 0 then 0 else n
  {
    n == 1 || (n >= 2 && n % 2 == 0 && IsPow2(n / 2))
  }

  /** Among powers of two, a smaller one is at most half the larger one. */
  lemma {:induction false} Pow2Gap(a: int, b: int)
    requires IsPow2(a) && IsPow2(b) && a < b
    ensures 2 * a <= b
    decreases b
  {
    if a == 1 {
    } else {
      assert b != 1;
      Pow2Gap(a / 2, b / 2);
    }
  }

  /** Every power of two not above 2^32 divides 2^32 exactly. */
  lemma {:induction false} Pow2Divides(m: int, k: int)
    requires IsPow2(m) && k >= 1 && IsPow2(k) && m <= k
    ensures k % m == 0
    decreases k
  {
    if m == k {
      ModUnique(k, 1, 0, m);
    } else {
      Pow2Gap(m, k);
      assert k != 1;
      var h := k / 2;
      assert k == 2 * h;
      Pow2Divides(m, h);
      var q := h / m;
      assert h == m * q + h % m;
      assert k == m * (2 * q);
      ModUnique(k, 2 * q, 0, m);
    }
  }

  lemma TwoTo32IsPow2()
    ensures IsPow2(0x8000_0000) && IsPow2(UINT32_MODULUS)
  {
    assert IsPow2(0x1);
    assert IsPow2(0x2);
    assert IsPow2(0x4);
    assert IsPow2(0x8);
    assert IsPow2(0x10);
    assert IsPow2(0x20);
    assert IsPow2(0x40);
    assert IsPow2(0x80);
    assert IsPow2(0x100);
    assert IsPow2(0x200);
    assert IsPow2(0x400);
    assert IsPow2(0x800);
    assert IsPow2(0x1000);
    assert IsPow2(0x2000);
    assert IsPow2(0x4000);
    assert IsPow2(0x8000);
    assert IsPow2(0x1_0000);
    assert IsPow2(0x2_0000);
    assert IsPow2(0x4_0000);
    assert IsPow2(0x8_0000);
    assert IsPow2(0x10_0000);
    assert IsPow2(0x20_0000);
    assert IsPow2(0x40_0000);
    assert IsPow2(0x80_0000);
    assert IsPow2(0x100_0000);
    assert IsPow2(0x200_0000);
    assert IsPow2(0x400_0000);
    assert IsPow2(0x800_0000);
    assert IsPow2(0x1000_0000);
    assert IsPow2(0x2000_0000);
    assert IsPow2(0x4000_0000);
    assert IsPow2(0x8000_0000);
  }

  /**
   * Cursor arithmetic in the source is done on `uint32_t` (wrapping modulo 2^32) and then
   * reduced with the mask `capacity - 1`. Because the capacity is a power of two not above
   * 2^32, wrapping first changes nothing: the result is the plain (Euclidean) remainder.
   */
  lemma WrapThenReduce(x: int, m: int)
    requires IsPow2(m) && m <= UINT32_MODULUS
    ensures (x % UINT32_MODULUS) % m == x % m
  {
    var q := UINT32_MODULUS / m;
    assert UINT32_MODULUS == m * q by {
      TwoTo32IsPow2();
      Pow2Divides(m, UINT32_MODULUS);
      ModDecomposition(UINT32_MODULUS, m);
    }
    var w := x / UINT32_MODULUS;
    assert x % UINT32_MODULUS == x - UINT32_MODULUS * w by {
      ModDecomposition(x, UINT32_MODULUS);
    }
    assert UINT32_MODULUS * w == m * (q * w) by {
      MulAssoc(m, q, w);
    }
    ModShift(x, q * w, m);
  }

  lemma ModDecomposition(x: int, m: int)
    requires m > 0
    ensures x == m * (x / m) + x % m
  {
  }

  lemma MulAssoc(a: int, b: int, c: int)
    ensures (a * b) * c == a * (b * c)
  {
  }

  lemma ModShift(x: int, j: int, m: int)
    requires m > 0
    ensures (x - m * j) % m == x % m
  {
    var d := x / m;
    assert x == m * d + x % m;
    assert x - m * j == m * (d - j) + x % m;
    ModUnique(x - m * j, d - j, x % m, m);
  }

  /** Euclidean division is determined by any decomposition with a remainder in range. */
  lemma ModUnique(x: int, q: int, r: int, m: int)
    requires m > 0 && 0 <= r < m && x == m * q + r
    ensures x % m == r && x / m == q
  {
    var q' := x / m;
    var r' := x % m;
    assert x == m * q' + r';
    if q' < q {
      assert m * q - m * q' == m * (q - q');
      MulAtLeast(m, q - q');
    } else if q' > q {
      assert m * q' - m * q == m * (q' - q);
      MulAtLeast(m, q' - q);
    }
  }

  lemma MulAtLeast(m: int, k: int)
    requires m > 0 && k >= 1
    ensures m * k >= m
  {
  }

  /**
   * The one fact about `%` the ring buffer needs: for a value within one modulus of the
   * range [0, m), the remainder is obtained by adding or subtracting m at most once.
   */
  lemma ModNear(x: int, m: int)
    requires m > 0 && -m <= x < 2 * m
    ensures x % m == if x < 0 then x + m else if x < m then x else x - m
  {
    if x < 0 {
      ModUnique(x, -1, x + m, m);
    } else if x < m {
      ModUnique(x, 0, x, m);
    } else {
      ModUnique(x, 1, x - m, m);
    }
  }

  // ---------------------------------------------------------------------------
  // Interleaved frames
  // ---------------------------------------------------------------------------

  /** Element index of channel c of frame k in an interleaved buffer. */
  function Idx(k: int, c: int, channels: int): int
  {
    k * channels + c
  }

  lemma IdxBounds(k: int, c: int, channels: int, n: int)
    requires 0 <= k < n && 0 <= c < channels
    ensures 0 <= Idx(k, c, channels) < n * channels
    ensures Idx(k, c, channels) < (k + 1) * channels <= n * channels
  {
    MulNonneg(k, channels);
    Distrib(k, 1, channels);
    Distrib(k + 1, n - k - 1, channels);
    MulNonneg(n - k - 1, channels);
  }

  lemma MulNonneg(a: int, b: int)
    requires a >= 0 && b >= 0
    ensures a * b >= 0
  {
  }

  lemma Distrib(a: int, b: int, c: int)
    ensures (a + b) * c == a * c + b * c
  {
  }

  /** Element Idx(k, c) belongs to frame k, channel c. */
  lemma IdxDivMod(k: int, c: int, channels: int)
    requires 0 <= c < channels
    ensures Idx(k, c, channels) / channels == k && Idx(k, c, channels) % channels == c
  {
    ModUnique(Idx(k, c, channels), k, c, channels);
  }

  /** Element j of an interleaved buffer of n frames belongs to one of those frames. */
  lemma FrameOfIndex(j: int, channels: int, n: int)
    requires channels > 0 && 0 <= j < n * channels
    ensures 0 <= j / channels < n && 0 <= j % channels < channels
    ensures j == Idx(j / channels, j % channels, channels)
  {
    var k := j / channels;
    assert j == channels * k + j % channels;
    if k >= n {
      MulMono(n, k, channels);
      assert false;
    }
  }

  /** The elements of frame k are exactly those whose index lies in [k * channels, k * channels + channels). */
  lemma FrameRange(j: int, k: int, channels: int)
    requires channels > 0
    ensures (j / channels == k) <==> (k * channels <= j < k * channels + channels)
  {
    if k * channels <= j < k * channels + channels {
      ModUnique(j, k, j - k * channels, channels);
    } else {
      var q := j / channels;
      assert j == channels * q + j % channels;
      if q == k {
        assert false;
      }
    }
  }

  lemma MulMono(a: int, b: int, channels: int)
    requires 0 <= a <= b && channels >= 0
    ensures a * channels <= b * channels
  {
    assert b * channels - a * channels == (b - a) * channels;
  }

  /** Frame k of n lies inside the first n * channels elements. */
  lemma FrameEnd(k: int, n: int, channels: int)
    requires 0 <= k < n && channels >= 0
    ensures 0 <= k * channels && k * channels + channels <= n * channels
  {
    assert n * channels - (k * channels + channels) == (n - k - 1) * channels;
    assert (n - k - 1) * channels >= 0;
  }

  /** Frame k of an interleaved sample sequence. */
  function Frame<T>(s: seq<T>, channels: nat, k: nat): (f: seq<T>)
    requires k * channels + channels <= |s|
    ensures |f| == channels
  {
    s[k * channels .. k * channels + channels]
  }

  /**
   * The first n frames of an interleaved sample sequence, as a sequence of frames
   * of `channels` samples each.
   */
  function Chunks<T>(s: seq<T>, channels: nat, n: nat): (frames: seq<seq<T>>)
    requires n * channels <= |s|
    ensures |frames| == n
    ensures forall k :: 0 <= k < n ==> |frames[k]| == channels
  {
    seq(n, k requires 0 <= k < n => (FrameEnd(k, n, channels); Frame(s, channels, k)))
  }

  /** Sample c of frame k of Chunks(s, channels, n) is element Idx(k, c) of s. */
  lemma ChunksAt<T>(s: seq<T>, channels: nat, n: nat, k: int, c: int)
    requires n * channels <= |s| && 0 <= k < n && 0 <= c < channels
    ensures Idx(k, c, channels) < |s|
    ensures Chunks(s, channels, n)[k][c] == s[Idx(k, c, channels)]
  {
    IdxBounds(k, c, channels, n);
    FrameEnd(k, n, channels);
    assert Chunks(s, channels, n)[k] == Frame(s, channels, k);
  }

  /** Two interleaved sequences agree on their first n frames iff they agree element-wise. */
  lemma ChunksExt<T>(s: seq<T>, frames: seq<seq<T>>, channels: nat, n: nat)
    requires n * channels <= |s| && |frames| == n
    requires forall k :: 0 <= k < n ==> |frames[k]| == channels
    requires forall k, c :: 0 <= k < n && 0 <= c < channels ==> Idx(k, c, channels) < |s| && s[Idx(k, c, channels)] == frames[k][c]
    ensures Chunks(s, channels, n) == frames
  {
    var ch := Chunks(s, channels, n);
    forall k | 0 <= k < n
      ensures ch[k] == frames[k]
    {
      forall c | 0 <= c < channels
        ensures ch[k][c] == frames[k][c]
      {
        ChunksAt(s, channels, n, k, c);
      }
    }
  }

  /** Every frame of the sequence has `channels` samples. */
  predicate Uniform<T>(frames: seq<seq<T>>, channels: int)
  {
    forall k :: 0 <= k < |frames| ==> |frames[k]| == channels
  }

  /** Joining or slicing sequences of frames of one width keeps that width. */
  lemma UniformAppend<T>(a: seq<seq<T>>, b: seq<seq<T>>, channels: int)
    requires Uniform(a, channels) && Uniform(b, channels)
    ensures Uniform(a + b, channels)
  {
    forall k | 0 <= k < |a + b| ensures |(a + b)[k]| == channels {
      if k >= |a| {
        assert (a + b)[k] == b[k - |a|];
      }
    }
  }

  /** Concatenation is associative (stated once, for any element type). */
  lemma AppendAssoc<T>(a: seq<T>, b: seq<T>, c: seq<T>)
    ensures a + (b + c) == (a + b) + c
  {
  }

  /** The cached frame followed by batches a and b, cut at the end of a and at the last frame of a. */
  lemma JoinCuts<T>(last: T, a: seq<T>, b: seq<T>)
    requires |a| >= 1
    ensures ([last] + a + b)[..|a| + 1] == [last] + a
    ensures ([last] + a + b)[|a|..] == [a[|a| - 1]] + b
  {
    var w := [last] + a + b;
    assert w[|a|] == a[|a| - 1];
    assert w[|a| + 1..] == b;
  }

  lemma UniformSlice<T>(a: seq<seq<T>>, lo: int, hi: int, channels: int)
    requires Uniform(a, channels) && 0 <= lo <= hi <= |a|
    ensures Uniform(a[lo..hi], channels)
  {
    forall k | 0 <= k < hi - lo ensures |a[lo..hi][k]| == channels {
      assert a[lo..hi][k] == a[lo + k];
    }
  }

  /**
   * An interleaved buffer whose first |frames| frames are replaced by `frames`; every later
   * element is taken from `base`.
   */
  function Overlay<T>(base: seq<T>, frames: seq<seq<T>>, channels: int): (s: seq<T>)
    requires channels > 0 && Uniform(frames, channels) && |frames| * channels <= |base|
    ensures |s| == |base|
  {
    seq(|base|, j requires 0 <= j < |base| =>
      if j < |frames| * channels then
        FrameOfIndex(j, channels, |frames|);
        frames[j / channels][j % channels]
      else base[j])
  }

  /** `s` holds `target` below position `m` and still holds `base` from `m` on: the state of a buffer being filled from the front. */
  ghost predicate WrittenUpTo<T>(s: seq<T>, target: seq<T>, base: seq<T>, m: int)
  {
    |s| == |target| == |base| &&
    forall j :: 0 <= j < |s| ==> s[j] == if j < m then target[j] else base[j]
  }

  /** Writing frame k of `frames` into a buffer filled up to frame k leaves it filled up to frame k + 1. */
  lemma OverlayStep<T>(prev: seq<T>, cur: seq<T>, base: seq<T>, frames: seq<seq<T>>, channels: int, k: int)
    requires channels > 0 && Uniform(frames, channels) && |frames| * channels <= |base| && 0 <= k < |frames|
    requires |cur| == |prev| && k * channels + channels <= |cur|
    requires WrittenUpTo(prev, Overlay(base, frames, channels), base, k * channels)
    requires forall c :: 0 <= c < channels ==> cur[Idx(k, c, channels)] == frames[k][c]
    requires forall j :: 0 <= j < |cur| && !(k * channels <= j < k * channels + channels) ==> cur[j] == prev[j]
    ensures WrittenUpTo(cur, Overlay(base, frames, channels), base, (k + 1) * channels)
  {
    var target := Overlay(base, frames, channels);
    var lo := k * channels;
    assert (k + 1) * channels == lo + channels;
    MulMono(k + 1, |frames|, channels);
    forall j | 0 <= j < |cur|
      ensures cur[j] == if j < lo + channels then target[j] else base[j]
    {
      if j < lo || lo + channels <= j {
        assert cur[j] == prev[j];
      } else {
        var c := j - lo;
        assert j == Idx(k, c, channels);
        IdxDivMod(k, c, channels);
        assert target[j] == frames[k][c];
      }
    }
  }

  /**
   * A buffer filled with all of `frames` from the front, read back frame by frame, yields the
   * frames written, and still holds `base` behind them.
   */
  lemma OverlayChunks<T>(s: seq<T>, base: seq<T>, frames: seq<seq<T>>, channels: int)
    requires channels > 0 && Uniform(frames, channels) && |frames| * channels <= |base|
    requires WrittenUpTo(s, Overlay(base, frames, channels), base, |frames| * channels)
    ensures |frames| * channels <= |s|
    ensures Chunks(s, channels, |frames|) == frames
    ensures s[|frames| * channels..] == base[|frames| * channels..]
  {
    forall k, c | 0 <= k < |frames| && 0 <= c < channels
      ensures Idx(k, c, channels) < |s| && s[Idx(k, c, channels)] == frames[k][c]
    {
      IdxBounds(k, c, channels, |frames|);
      IdxDivMod(k, c, channels);
    }
    ChunksExt(s, frames, channels, |frames|);
  }

  /** A frame placed in front of an interleaved sequence becomes its first frame. */
  lemma ChunksCons<T>(f: seq<T>, s: seq<T>, channels: nat, n: nat)
    requires |f| == channels && n * channels <= |s|
    ensures (n + 1) * channels <= |f + s|
    ensures Chunks(f + s, channels, n + 1) == [f] + Chunks(s, channels, n)
  {
    Distrib(n, 1, channels);
    var t := f + s;
    var lhs := Chunks(t, channels, n + 1);
    var rhs := [f] + Chunks(s, channels, n);
    forall k | 0 <= k < n + 1
      ensures lhs[k] == rhs[k]
    {
      FrameEnd(k, n + 1, channels);
      assert lhs[k] == t[k * channels .. k * channels + channels];
      if k == 0 {
        assert t[..channels] == f;
      } else {
        FrameEnd(k - 1, n, channels);
        Distrib(k - 1, 1, channels);
        assert rhs[k] == s[(k - 1) * channels .. (k - 1) * channels + channels];
      }
    }
  }

  /** Chunks only looks at the first n * channels elements. */
  lemma ChunksPrefix<T>(s: seq<T>, t: seq<T>, channels: nat, n: nat)
    requires n * channels <= |s| && n * channels <= |t|
    requires s[..n * channels] == t[..n * channels]
    ensures Chunks(s, channels, n) == Chunks(t, channels, n)
  {
    var a := Chunks(s, channels, n);
    forall k, c | 0 <= k < n && 0 <= c < channels
      ensures Idx(k, c, channels) < |t| && t[Idx(k, c, channels)] == a[k][c]
    {
      ChunksAt(s, channels, n, k, c);
      ChunksAt(t, channels, n, k, c);
      IdxBounds(k, c, channels, n);
      var i := Idx(k, c, channels);
      assert s[i] == s[..n * channels][i] == t[..n * channels][i] == t[i];
    }
    ChunksExt(t, a, channels, n);
  }
}
