/** Fields and values of the IEEE 754-2008 binary64 interchange format
    (section 3.4 of IEEE 754-2008): one sign bit, an 11-bit exponent field
    biased by 1023, and a 52-bit trailing significand (fraction) field. */
module Binary64 {

  const SIGN_MASK: bv64 := 0x8000_0000_0000_0000
  const EXPONENT_MASK: bv64 := 0x7FF0_0000_0000_0000
  const FRACTION_MASK: bv64 := 0x000F_FFFF_FFFF_FFFF
  const BIAS: int := 1023
  /** 2^52: the fraction field counts units of 2^-52. */
  const FRACTION_SCALE: real := 4503599627370496.0

  /** Bit pattern of +infinity: exponent field all ones, fraction zero. */
  const POSITIVE_INFINITY: bv64 := 0x7FF0_0000_0000_0000

  /** The sign bit (bit 63). */
  predicate SignBit(x: bv64) {
    x & SIGN_MASK != 0
  }

  /** The biased exponent field (bits 62..52), as a bit pattern. */
  function BiasedExponent(x: bv64): (b: bv32)
    ensures b < 2048
  {
    ((x >> 52) & 0x7FF) as bv32
  }

  /** The biased exponent field as a number. */
  function ExponentField(x: bv64): (e: nat)
    ensures e < 2048
  {
    BiasedExponent(x) as nat
  }

  /** The fraction field (bits 51..0). */
  function FractionField(x: bv64): (f: nat)
    ensures f < 0x10_0000_0000_0000
  {
    (x & FRACTION_MASK) as nat
  }

  /** A normal number: exponent field neither all zeros nor all ones. */
  predicate IsNormal(x: bv64) {
    1 <= ExponentField(x) <= 2046
  }

  /** `v` multiplied by 2^n, one doubling or halving at a time. */
  ghost function Scale(v: real, n: int): real
    decreases if n < 0 then -n else n
  {
    if n == 0 then v
    else if n > 0 then 2.0 * Scale(v, n - 1)
    else Scale(v, n + 1) / 2.0
  }

  /** 2 raised to an integer power. */
  ghost function Pow2(n: int): real {
    Scale(1.0, n)
  }

  lemma ScaleSucc(v: real, n: int)
    ensures Scale(v, n + 1) == 2.0 * Scale(v, n)
  {
    if n < 0 && n + 1 < 0 {
      assert Scale(v, n) == Scale(v, n + 1) / 2.0;
    }
  }

  lemma {:induction false} ScaleAddNonNegative(v: real, a: int, b: nat)
    ensures Scale(Scale(v, a), b) == Scale(v, a + b)
  {
    if b > 0 {
      ScaleAddNonNegative(v, a, b - 1);
      ScaleSucc(v, a + b - 1);
    }
  }

  lemma {:induction false} ScaleAddNegative(v: real, a: int, b: int)
    requires b < 0
    ensures Scale(Scale(v, a), b) == Scale(v, a + b)
    decreases -b
  {
    if b < -1 {
      ScaleAddNegative(v, a, b + 1);
    }
    ScaleSucc(v, a + b);
  }

  /** Scaling by 2^a and then by 2^b is scaling by 2^(a+b). */
  lemma ScaleAdd(v: real, a: int, b: int)
    ensures Scale(Scale(v, a), b) == Scale(v, a + b)
  {
    if b >= 0 {
      ScaleAddNonNegative(v, a, b);
    } else {
      ScaleAddNegative(v, a, b);
    }
  }

  /** The significand of a normal number: 1 + fraction / 2^52. */
  function Significand(x: bv64): real {
    1.0 + FractionField(x) as real / FRACTION_SCALE
  }

  /** The magnitude a normal bit pattern encodes: (1 + fraction / 2^52) * 2^(exponent - 1023). */
  ghost function Magnitude(x: bv64): real {
    Scale(Significand(x), ExponentField(x) - BIAS)
  }

  /** The real number a normal binary64 bit pattern encodes: its magnitude,
      negated when the sign bit is set. */
  ghost function NormalValue(x: bv64): real
    requires IsNormal(x)
  {
    if SignBit(x) then -Magnitude(x) else Magnitude(x)
  }

  /** The significand lies in [1, 2). */
  lemma SignificandRange(x: bv64)
    ensures 1.0 <= Significand(x) < 2.0
  {
  }

  /** Scaling keeps a positive number positive. */
  lemma {:induction false} ScalePositive(v: real, n: int)
    requires v > 0.0
    ensures Scale(v, n) > 0.0
    decreases if n < 0 then -n else n
  {
    if n > 0 {
      ScalePositive(v, n - 1);
    } else if n < 0 {
      ScalePositive(v, n + 1);
    }
  }

  lemma {:induction false} ScaleNegate(v: real, n: int)
    ensures Scale(-v, n) == -Scale(v, n)
    decreases if n < 0 then -n else n
  {
    if n > 0 {
      ScaleNegate(v, n - 1);
    } else if n < 0 {
      ScaleNegate(v, n + 1);
    }
  }

  /** Every normal number has a positive magnitude. */
  lemma MagnitudePositive(x: bv64)
    ensures Magnitude(x) > 0.0
  {
    ScalePositive(Significand(x), ExponentField(x) - BIAS);
  }

  /** Two normal numbers with the same sign and fraction whose exponent
      fields differ by `k` differ in value by the factor 2^k. */
  lemma ScaledValue(m: bv64, x: bv64, k: int)
    requires IsNormal(m) && IsNormal(x)
    requires SignBit(m) == SignBit(x) && FractionField(m) == FractionField(x)
    requires ExponentField(x) == ExponentField(m) + k
    ensures Scale(NormalValue(m), k) == NormalValue(x)
  {
    ScaleAdd(Significand(x), ExponentField(m) - BIAS, k);
    if SignBit(x) {
      ScaleNegate(Magnitude(m), k);
    }
  }

  /** A positive normal number with a zero fraction: exactly 2^(field - 1023). */
  predicate IsPowerOfTwo(b: bv64) {
    IsNormal(b) && !SignBit(b) && FractionField(b) == 0
  }

  /** The value of such a pattern is the power of two its exponent field names. */
  lemma PowerOfTwoValue(b: bv64)
    requires IsPowerOfTwo(b)
    ensures NormalValue(b) == Pow2(ExponentField(b) - BIAS)
  {
    assert Significand(b) == 1.0;
  }
}
