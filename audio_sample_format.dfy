/**
 * The sample conversion of the WASAPI sink: a floating-point sample of nominal range [-1, 1]
 * becomes a 16- or 32-bit device sample by clamping, scaling by the largest positive value
 * of the format and the C cast, which truncates toward zero.
 */
module SampleFormat {
  import opened AudioMath
  import opened Resampler

  /** The C cast of a floating-point value to an integer type: the fraction is dropped, toward zero. */
  function TruncToZero(y: real): (r: int)
    ensures 0.0 <= y ==> 0 <= r && r as real <= y < r as real + 1.0
    ensures y < 0.0 ==> r <= 0 && r as real - 1.0 < y <= r as real
  {
    if y >= 0.0 then y.Floor else -((-y).Floor)
  }

  /** The sample limited to the full-scale range [-1, 1]. */
  function Clamp(x: real): (y: real)
    ensures -1.0 <= y <= 1.0
    ensures -1.0 <= x <= 1.0 ==> y == x
  {
    if x > 1.0 then 1.0 else if x < -1.0 then -1.0 else x
  }

  /** A sample as a device integer of full scale `full`: clamped, scaled and truncated. */
  function Quantize(x: real, full: nat): (r: int)
    ensures -(full as int) <= r <= full
  {
    var y := Clamp(x) * (full as real);
    ScaleWithin(Clamp(x), full as real);
    assert -(full as real) <= y <= full as real;
    TruncToZero(y)
  }

  /** Scaling a value of [-1, 1] by k >= 0 stays within [-k, k]. */
  lemma ScaleWithin(c: real, k: real)
    requires -1.0 <= c <= 1.0 && 0.0 <= k
    ensures -k <= c * k <= k
  {
    assert (1.0 - c) * k >= 0.0 && (1.0 + c) * k >= 0.0;
  }

  /** Conversion to a 16-bit device sample; the range is symmetric, so -32768 is never produced. */
  function ToInt16(x: real): (r: Int16)
    ensures -32767 <= r <= 32767
  {
    Quantize(x, 32767)
  }

  /** Conversion to a 32-bit device sample, over the reals (see the float note in the README). */
  function ToInt32(x: real): (r: Int32)
    ensures -0x7FFF_FFFF <= r <= 0x7FFF_FFFF
  {
    Quantize(x, 0x7FFF_FFFF)
  }

  /**
   * The single-precision value of an integer n of [2^30, 2^31]. Floats there lie 128 apart,
   * so n rounds to the nearest multiple of 128, a tie going to the even multiple.
   */
  function NearestFloat(n: int): (f: int)
    requires 0x4000_0000 <= n <= 0x8000_0000
    ensures f % 128 == 0 && n - 64 <= f <= n + 64
    ensures n % 128 == 0 ==> f == n
  {
    var lo := n / 128 * 128;
    var rem := n - lo;
    if rem < 64 || (rem == 64 && (n / 128) % 2 == 0) then lo else lo + 128
  }

  /**
   * The 32-bit conversion as written: the literal 2147483647.0f is the float 2^31, so the
   * scale is 2^31 rather than the largest int32 value. A float sample times 2^31 is exact.
   */
  function ToInt32AsWritten(x: real): (r: int)
    ensures -0x8000_0000 <= r <= 0x8000_0000
  {
    Quantize(x, NearestFloat(0x7FFF_FFFF))
  }

  /**
   * A full-scale sample overflows the cast as written: it scales to 2^31, one past the
   * largest int32 value, where the conversion to the largest int32 value stays in range.
   */
  lemma FullScaleOverflowsInt32(x: real)
    requires x >= 1.0
    ensures NearestFloat(0x7FFF_FFFF) == 0x8000_0000
    ensures ToInt32AsWritten(x) == 0x8000_0000 > 0x7FFF_FFFF
    ensures ToInt32(x) == 0x7FFF_FFFF
  {
    assert NearestFloat(0x7FFF_FFFF) == 0x8000_0000;
    QuantizeSaturates(x, 0x8000_0000);
    QuantizeSaturates(x, 0x7FFF_FFFF);
  }

  /**
   * Samples that come out of the resampler from 16-bit input, [-1, 32767/32768], stay
   * within int32 even with the scale as written: the overflow needs a louder sample.
   */
  lemma AsWrittenInt32InRange(x: real)
    requires -1.0 <= x <= 32767.0 / 32768.0
    ensures -0x8000_0000 <= ToInt32AsWritten(x) <= 0x7FFF_FFFF
  {
    assert NearestFloat(0x7FFF_FFFF) == 0x8000_0000;
    var loudest := 32767.0 / 32768.0;
    QuantizeMonotone(x, loudest, 0x8000_0000);
    assert Clamp(loudest) * (0x8000_0000 as real) == 2147418112.0;
  }

  /** Nearest point: no value in [-1, 1] is closer to x than Clamp(x). */
  lemma ClampNearest(x: real, z: real)
    requires -1.0 <= z <= 1.0
    ensures (if x >= Clamp(x) then x - Clamp(x) else Clamp(x) - x) <= (if x >= z then x - z else z - x)
  {
  }

  /** Truncation toward zero never decreases when its argument grows. */
  lemma TruncMonotone(a: real, b: real)
    requires a <= b
    ensures TruncToZero(a) <= TruncToZero(b)
  {
    var ra, rb := TruncToZero(a), TruncToZero(b);
    if 0.0 <= a {
      // both are floors
      assert (ra as real) <= b;
    } else if b < 0.0 {
      assert a <= rb as real;
    }
  }

  /** Louder input never gives a smaller device sample. */
  lemma QuantizeMonotone(x: real, y: real, full: nat)
    requires x <= y
    ensures Quantize(x, full) <= Quantize(y, full)
  {
    var a, b := Clamp(x) * (full as real), Clamp(y) * (full as real);
    assert Clamp(x) <= Clamp(y);
    MulMonoReal(Clamp(x), Clamp(y), full as real);
    TruncMonotone(a, b);
    assert Quantize(x, full) == TruncToZero(a) && Quantize(y, full) == TruncToZero(b);
  }

  lemma MulMonoReal(a: real, b: real, k: real)
    requires a <= b && 0.0 <= k
    ensures a * k <= b * k
  {
    assert (b - a) * k >= 0.0;
  }

  /** The conversion is odd: a sample and its negation give opposite device samples. */
  lemma QuantizeOdd(x: real, full: nat)
    ensures Quantize(-x, full) == -Quantize(x, full)
  {
    assert Clamp(-x) == -Clamp(x);
    var y := Clamp(x) * (full as real);
    assert Clamp(-x) * (full as real) == -y;
  }

  /** Everything at or beyond full scale maps to the extreme device value. */
  lemma QuantizeSaturates(x: real, full: nat)
    ensures x >= 1.0 ==> Quantize(x, full) == full
    ensures x <= -1.0 ==> Quantize(x, full) == -(full as int)
  {
  }

  /**
   * A 16-bit sample the resampler passes through unchanged (scaled by 1 / 32768) comes back
   * from the 16-bit conversion one step closer to zero: the scales 32768 and 32767 differ.
   */
  lemma SampleRoundTrip(s: Int16)
    ensures ToInt16(s as real / FULL_SCALE) == if s > 0 then s - 1 else if s < 0 then s + 1 else 0
  {
    var x := s as real / FULL_SCALE;
    assert -1.0 <= x < 1.0;
    var y := x * 32767.0;
    assert y == s as real - x;
    if s > 0 {
      assert 0.0 < x < 1.0;
      assert (s - 1) as real < y < s as real;
    } else if s < 0 {
      assert -1.0 <= x < 0.0;
      assert s as real < y <= (s + 1) as real;
      if s == -32768 {
        assert y == -32767.0;
      } else {
        assert y < (s + 1) as real;
      }
    }
  }
}
