/** The internal resolution `(int)(x * SCALE)` with `SCALE == 0.5f`, written out the
    way IEEE-754 single precision evaluates it: the `int` is first converted to the
    nearest `float` (ties to even, 24-bit significand), the product with 0.5 is exact,
    and the cast back to `int` truncates toward zero. */
module Scale {
  import opened GlTrace

  /** 2^24: every integer of smaller magnitude is a `float` exactly. */
  const ExactLimit: int := 0x100_0000

  /** The spacing of single-precision floats in the binade that holds `m`. */
  function Ulp(m: nat): nat {
    if m < ExactLimit then 1 else 2 * Ulp(m / 2)
  }

  /** Below 2^24 the spacing is 1; above, it is at most `m / 2^23`. */
  lemma {:induction false} UlpBounds(m: nat)
    ensures Ulp(m) >= 1
    ensures m < ExactLimit ==> Ulp(m) == 1
    ensures m >= ExactLimit ==> Ulp(m) * 0x80_0000 <= m
  {
    if m >= ExactLimit {
      UlpBounds(m / 2);
    }
  }

  /** Rounding to a 24-bit significand, ties to even, of the value `m + g/2 + e` where
      `g` is the guard bit (`guard`) and `0 < e < 1/2` is present only when bits below
      the guard bit were discarded (`sticky`): each step up a binade halves `m`, moving
      its low bit into the guard bit and the old guard bit into the sticky bit. */
  function RoundBits(m: nat, guard: bool, sticky: bool): nat
    decreases m
  {
    if m < ExactLimit then
      (if guard && (sticky || m % 2 == 1) then m + 1 else m)
    else
      2 * RoundBits(m / 2, m % 2 == 1, guard || sticky)
  }

  /** The rounded value lies within half an ulp of `m + g/2 + e`, and a value that
      needs no rounding is returned unchanged. */
  lemma {:induction false} RoundBitsBounds(m: nat, guard: bool, sticky: bool)
    ensures 2 * RoundBits(m, guard, sticky) <= 2 * m + (if guard then 1 else 0) + Ulp(m)
    ensures 2 * m + (if guard then 1 else 0) + (if sticky then 1 else 0)
            <= 2 * RoundBits(m, guard, sticky) + Ulp(m)
    ensures m < ExactLimit && !guard ==> RoundBits(m, guard, sticky) == m
    decreases m
  {
    if m >= ExactLimit {
      RoundBitsBounds(m / 2, m % 2 == 1, guard || sticky);
    }
  }

  /** `(int)(y * 0.5f)`: `y` converted to the nearest `float` (`RoundBits` with no
      guard or sticky bit), halved exactly, and truncated toward zero. Rounding to
      nearest and truncation toward zero are both symmetric, so a negative `y` is the
      mirror of `-y`. No clamping: 0 and 1 both give 0. */
  function FloatHalf(y: int): int
    decreases if y < 0 then 1 else 0
  {
    if y < 0 then -FloatHalf(-y) else RoundBits(y, false, false) / 2
  }

  /** The internal resolution `(int)(x * SCALE)` of a surface size `x`, with
      `SCALE == 0.5f`. */
  function ScaleHalf(x: Int32): Int32 {
    ScaleHalfSpec(x);
    FloatHalf(x)
  }

  /** Below 2^24 in magnitude the internal resolution is exact halving toward zero;
      it always lies between 0 and the size, and a surface wider than 100 pixels gets
      an internal resolution of at least 50. */
  lemma ScaleHalfSpec(x: int)
    ensures 0 <= x < ExactLimit ==> FloatHalf(x) == x / 2
    ensures -ExactLimit < x < 0 ==> FloatHalf(x) == -((-x) / 2)
    ensures x >= 0 ==> 0 <= FloatHalf(x) <= x
    ensures x <= 0 ==> x <= FloatHalf(x) <= 0
    ensures x > 100 ==> FloatHalf(x) >= 50
    decreases if x < 0 then 1 else 0
  {
    if x < 0 {
      ScaleHalfSpec(-x);
    } else {
      RoundBitsBounds(x, false, false);
      UlpBounds(x);
    }
  }

  /** Above 2^24 the conversion to `float` rounds, so the result differs from `x / 2`. */
  lemma LargeWidthRounds()
    ensures ScaleHalf(16777219) == 8388610 != 16777219 / 2
  {
  }
}
