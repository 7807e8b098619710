/** frexp, ldexp and copysign: direct surgery on the binary64 fields
    (section 3.4 of IEEE 754-2008), and the value each operation gives
    normal numbers (frexp and ldexp as in sections 7.12.6.4 and 7.12.6.6 of
    ISO/IEC 9899:1999, copysign as in section 5.5.1 of IEEE 754-2008). */
module VsxExponent {
  import opened Binary64
  import opened VsxIntrinsics
  import opened VsxTypes

  /** The bit pattern of 0.5: sign clear, exponent field 1022, fraction zero. */
  const HALF: bv64 := 0x3FE0_0000_0000_0000

  /** The bit pattern of -0.5. */
  const MINUS_HALF: bv64 := 0xBFE0_0000_0000_0000

  /** The bit pattern of the int32_t value -1022. */
  const MINUS_1022: bv32 := 0xFFFF_FC02

  // ---------------------------------------------------------------------
  // Small facts relating a 32-bit word to its value

  lemma AtMost1023(w: bv32)
    requires w as int <= 1023
    ensures w <= 1023
  {
  }

  lemma AtMost1021(w: bv32)
    requires w as int <= 1021
    ensures w <= 1021
  {
  }

  lemma Plus1023(w: bv32)
    requires w <= 1023
    ensures (w + 1023) as int == w as int + 1023
  {
  }

  lemma From1022(w: bv32)
    requires w <= 1022
    ensures (1022 - w) as int == 1022 - w as int
  {
  }

  lemma From1021(w: bv32)
    requires w <= 1021
    ensures (1021 - w) as int == 1021 - w as int
  {
  }

  lemma Minus1022(w: bv32)
    requires 1022 <= w < 2048
    ensures (w - 1022) as int == w as int - 1022
  {
  }

  /** Adding the bias 1023 to an int32_t in [-1022, 1023] does not wrap. */
  lemma AddBias(e: bv32)
    requires -1022 <= Signed(e) <= 1023
    ensures (e + 1023) as int == Signed(e) + 1023
  {
    if e < 0x8000_0000 {
      AtMost1023(e);
      Plus1023(e);
    } else {
      var n := !e;
      AtMost1021(n);
      assert e + 1023 == 1022 - n;
      From1022(n);
    }
  }

  /** Subtracting 1022 from an 11-bit field gives its value minus 1022 as an int32_t. */
  lemma SubtractBias(w: bv32)
    requires w < 2048
    ensures Signed(w - 1022) == w as int - 1022
  {
    if w < 1022 {
      assert !(w - 1022) == 1021 - w;
      From1021(w);
    } else {
      Minus1022(w);
    }
  }

  // ---------------------------------------------------------------------
  // frexp

  /** One lane of the mantissa frexp returns. */
  function FrexpMantissa(x: bv64): bv64 {
    (x & !EXPONENT_MASK) | HALF
  }

  /** One lane of the exponent frexp returns. */
  function FrexpExponent(x: bv64): bv32 {
    (Hi(x & EXPONENT_MASK) >> 20) - 1022
  }

  /** The mantissa keeps the sign and the fraction and has the exponent field of 0.5. */
  lemma FrexpMantissaFields(x: bv64)
    ensures SignBit(FrexpMantissa(x)) == SignBit(x)
    ensures FractionField(FrexpMantissa(x)) == FractionField(x)
    ensures ExponentField(FrexpMantissa(x)) == 1022
  {
    assert FrexpMantissa(x) & FRACTION_MASK == x & FRACTION_MASK;
    assert BiasedExponent(FrexpMantissa(x)) == 1022;
  }

  /** The exponent is the biased exponent field less 1022, as an int32_t. */
  lemma FrexpExponentValue(x: bv64)
    ensures Signed(FrexpExponent(x)) == ExponentField(x) - 1022
  {
    assert FrexpExponent(x) == BiasedExponent(x) - 1022;
    SubtractBias(BiasedExponent(x));
  }

  /** frexp: the exponent field of each lane is moved into an integer
      register and replaced by that of 0.5. The exponent of lane k lands in
      word 2k; words 1 and 3 hold the cleared low halves less the bias. */
  method Frexp(value: SimdDouble) returns (r: SimdDouble, exponent: SimdDInt32)
    ensures r.simdInternal == Vec2x64(FrexpMantissa(value.simdInternal.d0), FrexpMantissa(value.simdInternal.d1))
    ensures exponent.simdInternal == Vec4x32(FrexpExponent(value.simdInternal.d0), MINUS_1022,
                                             FrexpExponent(value.simdInternal.d1), MINUS_1022)
  {
    var exponentMask := Splats2(EXPONENT_MASK);
    var exponentBias := Splats4(1022);
    var half := Splats2(HALF);
    var iExponent := AsWords(And2(value.simdInternal, exponentMask));
    // The field sits in the high word of each lane: shift it down by 52 - 32
    // bits, then swap the words of each pair to bring it to word 2k.
    iExponent := Sr4(iExponent, Splats4(20));
    iExponent := Perm4(iExponent, iExponent, 1, 0, 3, 2);
    iExponent := Sub4(iExponent, exponentBias);
    exponent := SimdDInt32(iExponent);
    r := SimdDouble(Or2(Andc2(value.simdInternal, exponentMask), half));
    FrexpExponentWords(value.simdInternal);
    FrexpMantissaLanes(value.simdInternal);
  }

  /** The word pipeline of frexp, on a whole register. */
  function FrexpExponentPipeline(v: Vec2x64): Vec4x32 {
    var fields := Sr4(AsWords(And2(v, Splats2(EXPONENT_MASK))), Splats4(20));
    Sub4(Perm4(fields, fields, 1, 0, 3, 2), Splats4(1022))
  }

  lemma FrexpExponentWord0(v: Vec2x64)
    ensures FrexpExponentPipeline(v).e0 == FrexpExponent(v.d0)
  {
  }

  lemma FrexpExponentWord1(v: Vec2x64)
    ensures FrexpExponentPipeline(v).e1 == MINUS_1022
  {
  }

  lemma FrexpExponentWord2(v: Vec2x64)
    ensures FrexpExponentPipeline(v).e2 == FrexpExponent(v.d1)
  {
  }

  lemma FrexpExponentWord3(v: Vec2x64)
    ensures FrexpExponentPipeline(v).e3 == MINUS_1022
  {
  }

  lemma FrexpExponentWords(v: Vec2x64)
    ensures FrexpExponentPipeline(v) == Vec4x32(FrexpExponent(v.d0), MINUS_1022, FrexpExponent(v.d1), MINUS_1022)
  {
    FrexpExponentWord0(v);
    FrexpExponentWord1(v);
    FrexpExponentWord2(v);
    FrexpExponentWord3(v);
  }

  lemma FrexpMantissaLanes(v: Vec2x64)
    ensures Or2(Andc2(v, Splats2(EXPONENT_MASK)), Splats2(HALF)) == Vec2x64(FrexpMantissa(v.d0), FrexpMantissa(v.d1))
  {
  }

  ghost function Abs(v: real): real {
    if v < 0.0 then -v else v
  }

  /** For a normal lane, frexp agrees with the C library: the mantissa times
      2 to the exponent is the input, and the mantissa's magnitude lies in
      [0.5, 1). */
  lemma FrexpMatchesC99(x: bv64)
    requires IsNormal(x)
    ensures IsNormal(FrexpMantissa(x))
    ensures Scale(NormalValue(FrexpMantissa(x)), Signed(FrexpExponent(x))) == NormalValue(x)
    ensures 0.5 <= Abs(NormalValue(FrexpMantissa(x))) < 1.0
  {
    var m := FrexpMantissa(x);
    FrexpMantissaFields(x);
    FrexpExponentValue(x);
    ScaledValue(m, x, ExponentField(x) - 1022);
    SignificandRange(m);
    assert Scale(Significand(m), -1) == Significand(m) / 2.0;
  }

  /** A zero lane of either sign gives a mantissa of 0.5 with that sign and
      the exponent -1022, where the C library gives zero and exponent 0. */
  lemma FrexpOfZero()
    ensures FrexpMantissa(0) == HALF && Signed(FrexpExponent(0)) == -1022
    ensures FrexpMantissa(SIGN_MASK) == MINUS_HALF && Signed(FrexpExponent(SIGN_MASK)) == -1022
  {
  }

  /** An infinite lane gives 0.5 and the exponent 1025, where the C library
      returns the infinity. */
  lemma FrexpOfInfinity()
    ensures FrexpMantissa(POSITIVE_INFINITY) == HALF && Signed(FrexpExponent(POSITIVE_INFINITY)) == 1025
  {
  }

  // ---------------------------------------------------------------------
  // ldexp

  /** One lane of the factor ldexp multiplies by: the int32_t `e` plus 1023,
      shifted into the exponent field of the high word, low word zero. */
  function LdexpMultiplier(e: bv32): bv64 {
    Join(0, (e + 1023) << 20)
  }

  lemma MultiplierBits(e: bv32)
    requires e + 1023 < 2048
    ensures BiasedExponent(LdexpMultiplier(e)) == e + 1023
    ensures LdexpMultiplier(e) & SIGN_MASK == 0
    ensures LdexpMultiplier(e) & FRACTION_MASK == 0
  {
  }

  /** For -1022 <= e <= 1023 the multiplier is a power of two with exponent field e + 1023. */
  lemma LdexpMultiplierFields(e: bv32)
    requires -1022 <= Signed(e) <= 1023
    ensures IsPowerOfTwo(LdexpMultiplier(e))
    ensures ExponentField(LdexpMultiplier(e)) - BIAS == Signed(e)
  {
    AddBias(e);
    MultiplierBits(e);
  }

  /** For -1022 <= e <= 1023 the multiplier is exactly 2^e. */
  lemma LdexpMultiplierIsPowerOfTwo(e: bv32)
    requires -1022 <= Signed(e) <= 1023
    ensures IsNormal(LdexpMultiplier(e))
    ensures NormalValue(LdexpMultiplier(e)) == Pow2(Signed(e))
  {
    LdexpMultiplierFields(e);
    PowerOfTwoValue(LdexpMultiplier(e));
  }

  /** Just outside that range the field wraps: e = 1024 gives the bits of
      +infinity and e = -1023 gives +0.0. */
  lemma LdexpMultiplierOutOfRange()
    ensures Signed(1024) == 1024 && LdexpMultiplier(1024) == POSITIVE_INFINITY
    ensures Signed(0xFFFF_FC01) == -1023 && LdexpMultiplier(0xFFFF_FC01) == 0
  {
  }

  /** ldexp: each lane multiplied by the power of two built from the integer
      in word 2k; words 1 and 3 of the exponent are never read. */
  function Ldexp(fpu: Fpu, value: SimdDouble, exponent: SimdDInt32): (r: SimdDouble)
    ensures r.simdInternal.d0 == fpu.mul(value.simdInternal.d0, LdexpMultiplier(exponent.simdInternal.e0))
    ensures r.simdInternal.d1 == fpu.mul(value.simdInternal.d1, LdexpMultiplier(exponent.simdInternal.e2))
  {
    var exponentBias := Splats4(1023);
    var biased := Add4(exponent.simdInternal, exponentBias);
    var shifted := Sl4(biased, Splats4(20));
    // The biased exponent goes to the high word of each lane, zeros to the low word.
    var placed := Perm4(shifted, Splats4(0), 4, 0, 4, 2);
    LdexpMultiplierLanes(exponent.simdInternal);
    SimdDouble(Map2(fpu.mul, value.simdInternal, AsLanes(placed)))
  }

  /** The word pipeline of ldexp's multiplier, on a whole register. */
  function LdexpMultiplierPipeline(e: Vec4x32): Vec2x64 {
    var shifted := Sl4(Add4(e, Splats4(1023)), Splats4(20));
    AsLanes(Perm4(shifted, Splats4(0), 4, 0, 4, 2))
  }

  lemma LdexpMultiplierLane0(e: Vec4x32)
    ensures LdexpMultiplierPipeline(e).d0 == LdexpMultiplier(e.e0)
  {
  }

  lemma LdexpMultiplierLane1(e: Vec4x32)
    ensures LdexpMultiplierPipeline(e).d1 == LdexpMultiplier(e.e2)
  {
  }

  lemma LdexpMultiplierLanes(e: Vec4x32)
    ensures LdexpMultiplierPipeline(e) == Vec2x64(LdexpMultiplier(e.e0), LdexpMultiplier(e.e2))
  {
    LdexpMultiplierLane0(e);
    LdexpMultiplierLane1(e);
  }

  /** Multiplying by 2^n is scaling by 2^n. */
  lemma {:induction false} ScaleIsProduct(v: real, n: int)
    ensures v * Pow2(n) == Scale(v, n)
    decreases if n < 0 then -n else n
  {
    if n > 0 {
      ScaleIsProduct(v, n - 1);
      ScaleAdd(1.0, n - 1, 1);
      ScaleAdd(v, n - 1, 1);
    } else if n < 0 {
      ScaleIsProduct(v, n + 1);
      ScaleAdd(1.0, n + 1, -1);
      ScaleAdd(v, n + 1, -1);
    }
  }

  /** The product of a value and a power-of-two pattern is the value scaled
      by that power: the real-number meaning of `ScalesExactly` below. */
  lemma ProductByPowerOfTwo(v: real, b: bv64)
    requires IsPowerOfTwo(b)
    ensures v * NormalValue(b) == Scale(v, ExponentField(b) - BIAS)
  {
    PowerOfTwoValue(b);
    ScaleIsProduct(v, ExponentField(b) - BIAS);
  }

  /** The floating-point unit multiplies exactly by a power of two whenever
      the exact product is itself a normal number, as a correctly rounded
      multiplication does (sections 4.3 and 5.4.1 of IEEE 754-2008); by
      `ProductByPowerOfTwo` the exact product is the scaled value. */
  ghost predicate ScalesExactly(fpu: Fpu) {
    forall a: bv64, b: bv64, c: bv64 ::
      IsNormal(a) && IsPowerOfTwo(b) && IsNormal(c)
      && Scale(NormalValue(a), ExponentField(b) - BIAS) == NormalValue(c)
      ==> fpu.mul(a, b) == c
  }

  /** The exponent frexp gives a lane with exponent field at most 2045 is
      one ldexp turns back into an exact power of two. */
  lemma FrexpExponentInRange(x: bv64)
    requires IsNormal(x) && ExponentField(x) <= 2045
    ensures -1022 <= Signed(FrexpExponent(x)) <= 1023
  {
    FrexpExponentValue(x);
  }

  /** On such a lane the multiplier is the power of two 2^exponent. */
  lemma FrexpMultiplier(x: bv64)
    requires IsNormal(x) && ExponentField(x) <= 2045
    ensures IsPowerOfTwo(LdexpMultiplier(FrexpExponent(x)))
    ensures ExponentField(LdexpMultiplier(FrexpExponent(x))) - BIAS == Signed(FrexpExponent(x))
  {
    FrexpExponentInRange(x);
    LdexpMultiplierFields(FrexpExponent(x));
  }

  /** ldexp undoes frexp on one lane whose exponent field is at most 2045. */
  lemma LdexpInvertsFrexpLane(fpu: Fpu, x: bv64)
    requires ScalesExactly(fpu)
    requires IsNormal(x) && ExponentField(x) <= 2045
    ensures fpu.mul(FrexpMantissa(x), LdexpMultiplier(FrexpExponent(x))) == x
  {
    FrexpMultiplier(x);
    FrexpMatchesC99(x);
    ExactScaling(fpu, FrexpMantissa(x), LdexpMultiplier(FrexpExponent(x)), x);
  }

  lemma ExactScaling(fpu: Fpu, a: bv64, b: bv64, c: bv64)
    requires ScalesExactly(fpu)
    requires IsNormal(a) && IsPowerOfTwo(b) && IsNormal(c)
    requires Scale(NormalValue(a), ExponentField(b) - BIAS) == NormalValue(c)
    ensures fpu.mul(a, b) == c
  {
  }

  /** The frexp/ldexp round trip on a whole register, for lanes whose
      exponent field is at most 2045. */
  lemma LdexpInvertsFrexp(fpu: Fpu, value: SimdDouble)
    requires ScalesExactly(fpu)
    requires IsNormal(value.simdInternal.d0) && ExponentField(value.simdInternal.d0) <= 2045
    requires IsNormal(value.simdInternal.d1) && ExponentField(value.simdInternal.d1) <= 2045
    ensures Ldexp(fpu,
                  SimdDouble(Vec2x64(FrexpMantissa(value.simdInternal.d0), FrexpMantissa(value.simdInternal.d1))),
                  SimdDInt32(Vec4x32(FrexpExponent(value.simdInternal.d0), MINUS_1022,
                                     FrexpExponent(value.simdInternal.d1), MINUS_1022)))
            == value
  {
    LdexpInvertsFrexpLane(fpu, value.simdInternal.d0);
    LdexpInvertsFrexpLane(fpu, value.simdInternal.d1);
  }

  /** In the largest binade (exponent field 2046) frexp returns the exponent
      1024, for which the multiplier is +infinity: the round trip then
      multiplies a finite mantissa by infinity. */
  lemma LdexpFrexpLargestBinade(x: bv64)
    requires ExponentField(x) == 2046
    ensures FrexpExponent(x) == 1024
    ensures LdexpMultiplier(FrexpExponent(x)) == POSITIVE_INFINITY
  {
    assert BiasedExponent(x) == 2046;
  }

  // ---------------------------------------------------------------------
  // ldexp with the exponent 1024 split in two

  /** One lane of ldexp that multiplies by 2^1023 and then by 2 when the
      exponent is 1024, the one exponent frexp returns for a normal number
      that the single multiplier cannot represent. */
  function LdexpSplitLane(fpu: Fpu, v: bv64, e: bv32): (r: bv64)
    ensures e != 1024 ==> r == fpu.mul(v, LdexpMultiplier(e))
  {
    if e == 1024 then fpu.mul(fpu.mul(v, LdexpMultiplier(1023)), LdexpMultiplier(1))
    else fpu.mul(v, LdexpMultiplier(e))
  }

  /** ldexp with the split: it agrees with `Ldexp` on every lane whose
      exponent is not 1024. */
  function LdexpSplit(fpu: Fpu, value: SimdDouble, exponent: SimdDInt32): (r: SimdDouble)
    ensures exponent.simdInternal.e0 != 1024 ==> r.simdInternal.d0 == Ldexp(fpu, value, exponent).simdInternal.d0
    ensures exponent.simdInternal.e2 != 1024 ==> r.simdInternal.d1 == Ldexp(fpu, value, exponent).simdInternal.d1
  {
    SimdDouble(Vec2x64(LdexpSplitLane(fpu, value.simdInternal.d0, exponent.simdInternal.e0),
                       LdexpSplitLane(fpu, value.simdInternal.d1, exponent.simdInternal.e2)))
  }

  /** `x` with the exponent field 2045, one binade below the largest. */
  function BelowLargestBinade(x: bv64): bv64 {
    (x & !EXPONENT_MASK) | 0x7FD0_0000_0000_0000
  }

  lemma BelowLargestBinadeFields(x: bv64)
    ensures SignBit(BelowLargestBinade(x)) == SignBit(x)
    ensures FractionField(BelowLargestBinade(x)) == FractionField(x)
    ensures ExponentField(BelowLargestBinade(x)) == 2045
  {
    assert BelowLargestBinade(x) & FRACTION_MASK == x & FRACTION_MASK;
    assert BiasedExponent(BelowLargestBinade(x)) == 2045;
  }

  /** With the split, ldexp undoes frexp on a lane of the largest binade:
      the mantissa is scaled to the binade below, then doubled. */
  lemma LdexpSplitInvertsFrexpLargest(fpu: Fpu, x: bv64)
    requires ScalesExactly(fpu)
    requires IsNormal(x) && ExponentField(x) == 2046
    ensures LdexpSplitLane(fpu, FrexpMantissa(x), FrexpExponent(x)) == x
  {
    var m := FrexpMantissa(x);
    var c := BelowLargestBinade(x);
    LdexpFrexpLargestBinade(x);
    FrexpMantissaFields(x);
    BelowLargestBinadeFields(x);
    LdexpMultiplierFields(1023);
    LdexpMultiplierFields(1);
    ScaledValue(m, c, 1023);
    ExactScaling(fpu, m, LdexpMultiplier(1023), c);
    ScaledValue(c, x, 1);
    ExactScaling(fpu, c, LdexpMultiplier(1), x);
  }

  /** With the split, ldexp undoes frexp on every normal lane. */
  lemma LdexpSplitInvertsFrexpLane(fpu: Fpu, x: bv64)
    requires ScalesExactly(fpu)
    requires IsNormal(x)
    ensures LdexpSplitLane(fpu, FrexpMantissa(x), FrexpExponent(x)) == x
  {
    if ExponentField(x) == 2046 {
      LdexpSplitInvertsFrexpLargest(fpu, x);
    } else {
      FrexpExponentInRange(x);
      LdexpInvertsFrexpLane(fpu, x);
    }
  }

  /** The frexp/ldexp round trip on a whole register, for all normal lanes. */
  lemma LdexpSplitInvertsFrexp(fpu: Fpu, value: SimdDouble)
    requires ScalesExactly(fpu)
    requires IsNormal(value.simdInternal.d0) && IsNormal(value.simdInternal.d1)
    ensures LdexpSplit(fpu,
                       SimdDouble(Vec2x64(FrexpMantissa(value.simdInternal.d0), FrexpMantissa(value.simdInternal.d1))),
                       SimdDInt32(Vec4x32(FrexpExponent(value.simdInternal.d0), MINUS_1022,
                                          FrexpExponent(value.simdInternal.d1), MINUS_1022)))
            == value
  {
    LdexpSplitInvertsFrexpLane(fpu, value.simdInternal.d0);
    LdexpSplitInvertsFrexpLane(fpu, value.simdInternal.d1);
  }

  // ---------------------------------------------------------------------
  // copysign

  /** One lane of copysign: the magnitude bits of `x` with the sign bit of `y`. */
  function CopysignLane(x: bv64, y: bv64): (r: bv64)
    ensures SignBit(r) == SignBit(y)
    ensures r & !SIGN_MASK == x & !SIGN_MASK
  {
    (x & !SIGN_MASK) | (y & SIGN_MASK)
  }

  /** copysign(x, y) lane by lane (xvcpsgndp with `y` as the sign source). */
  function Copysign(x: SimdDouble, y: SimdDouble): (r: SimdDouble)
    ensures SignBit(r.simdInternal.d0) == SignBit(y.simdInternal.d0)
    ensures SignBit(r.simdInternal.d1) == SignBit(y.simdInternal.d1)
    ensures r.simdInternal.d0 & !SIGN_MASK == x.simdInternal.d0 & !SIGN_MASK
    ensures r.simdInternal.d1 & !SIGN_MASK == x.simdInternal.d1 & !SIGN_MASK
  {
    SimdDouble(Vec2x64(CopysignLane(x.simdInternal.d0, y.simdInternal.d0),
                       CopysignLane(x.simdInternal.d1, y.simdInternal.d1)))
  }

  /** copysign keeps the exponent and fraction fields of `x`. */
  lemma CopysignFields(x: bv64, y: bv64)
    ensures ExponentField(CopysignLane(x, y)) == ExponentField(x)
    ensures FractionField(CopysignLane(x, y)) == FractionField(x)
  {
    var r := CopysignLane(x, y);
    assert BiasedExponent(r) == BiasedExponent(x);
    assert r & FRACTION_MASK == x & FRACTION_MASK;
  }

  /** For normal numbers copysign keeps the magnitude of `x` and takes the sign of `y`. */
  lemma CopysignValue(x: bv64, y: bv64)
    requires IsNormal(x)
    ensures IsNormal(CopysignLane(x, y))
    ensures Abs(NormalValue(CopysignLane(x, y))) == Abs(NormalValue(x))
    ensures NormalValue(CopysignLane(x, y)) < 0.0 <==> SignBit(y)
  {
    CopysignFields(x, y);
    assert Magnitude(CopysignLane(x, y)) == Magnitude(x);
    MagnitudePositive(x);
  }
}
