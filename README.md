# VSX double-precision SIMD backend: a bit-level model

This project models the POWER VSX double-precision backend of the GROMACS
SIMD layer (`impl_ibm_vsx_simd_double.h`) at the level of register bits,
and proves what the backend's bit manipulation does.

- **Registers.** A `SimdDouble` is two binary64 lanes. A `SimdDInt32` is
  four 32-bit words in which integer k lives in word 2k. The loads also copy
  it into word 2k + 1 (the "0011" or pair layout). `SimdDBool` and
  `SimdDIBool` are masks: each lane or word is all ones or all zeros.
- **Little-endian element order.** The model follows gcc on little-endian
  POWER. Lane k of a `SimdDouble` is words 2k (low half) and 2k + 1 (high
  half) of the same register read as words. Permute tables are modelled by
  their effect on whole words.
- **Hardware floating point is a parameter.** The floating-point unit is the
  `Fpu` datatype: one uninterpreted function per instruction (add,
  multiply, compares, conversions and so on). So every operation whose
  result depends on IEEE arithmetic is stated in terms of those functions,
  and the proofs cover only the bit routing around them.
- **Memory.** Caller memory is a Dafny array, and a pointer is an index into it.
- **Binary64 fields.** The encoding follows section 3.4 of IEEE 754-2008.
  `Binary64` defines the sign bit, the 11-bit exponent field biased by
  1023 and the 52-bit fraction. It also gives the real value of a normal
  number, used to state `frexp`, `ldexp` and `copysign` numerically.

Modules: `Binary64`, `VsxIntrinsics` (the AltiVec/VSX intrinsics on
`Vec2x64`/`Vec4x32` and the `Fpu`), `VsxTypes`, `VsxMemory`, `VsxBitwise`,
`VsxArithmetic`, `VsxLogic`, `VsxExponent`, `VsxConvert`.

## Model

| member | source | states |
|---|---|---|
| VsxTypes.SplatD | src/gromacs/simd/impl_ibm_vsx/impl_ibm_vsx_simd_double.h:54 | the double constructor puts the scalar in both lanes |
| VsxTypes.SplatDI | src/gromacs/simd/impl_ibm_vsx/impl_ibm_vsx_simd_double.h:68 | the int constructor gives the pair layout with the scalar in both data words |
| VsxTypes.DBoolOf | src/gromacs/simd/impl_ibm_vsx/impl_ibm_vsx_simd_double.h:81 | SimdDBool(bool) is a canonical mask whose every lane has the given truth |
| VsxTypes.DIBoolOf | src/gromacs/simd/impl_ibm_vsx/impl_ibm_vsx_simd_double.h:94 | SimdDIBool(bool) is canonical, in the pair layout, every word of the given truth |
| VsxMemory.Load | src/gromacs/simd/impl_ibm_vsx/impl_ibm_vsx_simd_double.h:116-122 | lane 0 is m[0] and lane 1 is m[1] |
| VsxMemory.Store | src/gromacs/simd/impl_ibm_vsx/impl_ibm_vsx_simd_double.h:124-128 | exactly m[0] and m[1] change, to the lanes; load then gives the register back |
| VsxMemory.LoadU | src/gromacs/simd/impl_ibm_vsx/impl_ibm_vsx_simd_double.h:130-142 | the gcc path reads the same two doubles as load |
| VsxMemory.StoreU | src/gromacs/simd/impl_ibm_vsx/impl_ibm_vsx_simd_double.h:144-152 | the gcc path writes the same two elements as store and nothing else |
| VsxMemory.SetZeroD | src/gromacs/simd/impl_ibm_vsx/impl_ibm_vsx_simd_double.h:154-160 | both lanes are all-zero bits |
| VsxMemory.LoadDI | src/gromacs/simd/impl_ibm_vsx/impl_ibm_vsx_simd_double.h:162-172 | the result is in the pair layout, with m[0] in word 0 and m[1] in word 2 |
| VsxMemory.StoreDI | src/gromacs/simd/impl_ibm_vsx/impl_ibm_vsx_simd_double.h:174-180 | words 0 and 2 go to m[0] and m[1], nothing else changes; a pair-layout register is given back by loadDI |
| VsxMemory.CopyViaRegister | src/gromacs/simd/impl_ibm_vsx/impl_ibm_vsx_simd_double.h:162-180 | store(p, loadDI(m)) sets p[0] = m[0] and p[1] = m[1] and nothing else, even when p and m alias |
| VsxMemory.LoadUDI | src/gromacs/simd/impl_ibm_vsx/impl_ibm_vsx_simd_double.h:182-186 | the same layout as loadDI |
| VsxMemory.StoreUDI | src/gromacs/simd/impl_ibm_vsx/impl_ibm_vsx_simd_double.h:188-192 | the same two writes as store(int32_t*) |
| VsxMemory.SetZeroDI | src/gromacs/simd/impl_ibm_vsx/impl_ibm_vsx_simd_double.h:194-200 | pair layout holding two zeros |
| VsxMemory.Extract | src/gromacs/simd/impl_ibm_vsx/impl_ibm_vsx_simd_double.h:202-208 | an even index reads word 0 and an odd index word 2, so extract only ever reads a data word |
| VsxMemory.ExtractAfterLoad | src/gromacs/simd/impl_ibm_vsx/impl_ibm_vsx_simd_double.h:162-208 | extract<i>(loadDI(m)) == m[i] for i in {0, 1} |
| VsxBitwise.AndNotSplitsSecond | src/gromacs/simd/impl_ibm_vsx/impl_ibm_vsx_simd_double.h:210-224 | andNot(a, b) shares no bit with a (the first operand is the complemented one) |
| VsxBitwise.AndNotJoinsSecond | src/gromacs/simd/impl_ibm_vsx/impl_ibm_vsx_simd_double.h:210-232 | andNot(a, b) OR (a & b) rebuilds b |
| VsxBitwise.AndNotOperandOrder | src/gromacs/simd/impl_ibm_vsx/impl_ibm_vsx_simd_double.h:218-224 | andNot is not symmetric: andNot(0, ~0) is ~0 but andNot(~0, 0) is 0 |
| VsxBitwise.XorSelfInverse | src/gromacs/simd/impl_ibm_vsx/impl_ibm_vsx_simd_double.h:234-240 | applying ^ b twice gives the register back |
| VsxBitwise.AndDI | src/gromacs/simd/impl_ibm_vsx/impl_ibm_vsx_simd_double.h:595-601 | & on integer registers keeps the pair layout |
| VsxBitwise.AndNotDI | src/gromacs/simd/impl_ibm_vsx/impl_ibm_vsx_simd_double.h:603-609 | andNot on integer registers keeps the pair layout |
| VsxBitwise.OrDI | src/gromacs/simd/impl_ibm_vsx/impl_ibm_vsx_simd_double.h:611-617 | \| on integer registers keeps the pair layout |
| VsxBitwise.XorDI | src/gromacs/simd/impl_ibm_vsx/impl_ibm_vsx_simd_double.h:619-625 | ^ on integer registers keeps the pair layout |
| VsxBitwise.AndNotSplitsSecondDI | src/gromacs/simd/impl_ibm_vsx/impl_ibm_vsx_simd_double.h:595-609 | the integer andNot(a, b) shares no bit with a |
| VsxBitwise.AndNotJoinsSecondDI | src/gromacs/simd/impl_ibm_vsx/impl_ibm_vsx_simd_double.h:595-617 | the integer andNot(a, b) OR (a & b) rebuilds b |
| VsxBitwise.XorSelfInverseDI | src/gromacs/simd/impl_ibm_vsx/impl_ibm_vsx_simd_double.h:619-625 | the integer ^ b applied twice gives the register back |
| VsxArithmetic.MaskAdd | src/gromacs/simd/impl_ibm_vsx/impl_ibm_vsx_simd_double.h:322-328 | a true lane is a + b; a false lane is a + (+0.0) |
| VsxArithmetic.MaskzMul | src/gromacs/simd/impl_ibm_vsx/impl_ibm_vsx_simd_double.h:330-338 | a true lane is the product; a false lane is all-zero bits whatever the inputs |
| VsxArithmetic.MaskzFma | src/gromacs/simd/impl_ibm_vsx/impl_ibm_vsx_simd_double.h:340-348 | a true lane is a*b+c; a false lane is all-zero bits |
| VsxArithmetic.MaskzRsqrt | src/gromacs/simd/impl_ibm_vsx/impl_ibm_vsx_simd_double.h:350-359 | release path: a true lane is the estimate; a false lane is all-zero bits |
| VsxArithmetic.MaskzRcp | src/gromacs/simd/impl_ibm_vsx/impl_ibm_vsx_simd_double.h:361-370 | release path: a true lane is the estimate; a false lane is all-zero bits |
| VsxArithmetic.Reduce | src/gromacs/simd/impl_ibm_vsx/impl_ibm_vsx_simd_double.h:471-484 | adding the lane-swapped copy and extracting element 0 gives lane 0 + lane 1 |
| VsxArithmetic.AddDI | src/gromacs/simd/impl_ibm_vsx/impl_ibm_vsx_simd_double.h:627-633 | integer + keeps the pair layout |
| VsxArithmetic.SubDI | src/gromacs/simd/impl_ibm_vsx/impl_ibm_vsx_simd_double.h:635-641 | integer - keeps the pair layout |
| VsxArithmetic.MulDI | src/gromacs/simd/impl_ibm_vsx/impl_ibm_vsx_simd_double.h:643-649 | integer * keeps the pair layout |
| VsxArithmetic.AddMulCommute | src/gromacs/simd/impl_ibm_vsx/impl_ibm_vsx_simd_double.h:627-649 | integer + and * do not depend on operand order |
| VsxArithmetic.AddWraps | src/gromacs/simd/impl_ibm_vsx/impl_ibm_vsx_simd_double.h:627-633 | the words wrap modulo 2^32: INT32_MAX + 1 is INT32_MIN |
| VsxArithmetic.SubUndoesAdd | src/gromacs/simd/impl_ibm_vsx/impl_ibm_vsx_simd_double.h:627-641 | for all a and b, (a + b) - b == a and (a - b) + b == a in every word, overflow included |
| VsxArithmetic.SubUndoesAdd32 | src/gromacs/simd/impl_ibm_vsx/impl_ibm_vsx_simd_double.h:627-641 | one word of the same: 32-bit subtraction and addition undo each other modulo 2^32 |
| VsxArithmetic.MulDistributes | src/gromacs/simd/impl_ibm_vsx/impl_ibm_vsx_simd_double.h:627-649 | for all a, b and c, a * (b + c) == a * b + a * c in every word, keeping the low 32 bits |
| VsxArithmetic.MulDistributes32 | src/gromacs/simd/impl_ibm_vsx/impl_ibm_vsx_simd_double.h:627-649 | one word of the same, on the 32-bit wrapping multiply and add |
| VsxArithmetic.ShiftLeftDI | src/gromacs/simd/impl_ibm_vsx/impl_ibm_vsx_simd_double.h:579-585 | << keeps the pair layout |
| VsxArithmetic.ShiftRightDI | src/gromacs/simd/impl_ibm_vsx/impl_ibm_vsx_simd_double.h:587-593 | >> keeps the pair layout |
| VsxArithmetic.ShiftRightIsLogical | src/gromacs/simd/impl_ibm_vsx/impl_ibm_vsx_simd_double.h:587-593 | >> is logical: by any count that is not a multiple of 32 the result is non-negative |
| VsxArithmetic.ShiftCountIsModular | src/gromacs/simd/impl_ibm_vsx/impl_ibm_vsx_simd_double.h:579-593 | only the low five bits of the count are used, so shifting by 32 changes nothing |
| VsxArithmetic.NegativeShiftCount | src/gromacs/simd/impl_ibm_vsx/impl_ibm_vsx_simd_double.h:587-593 | the int count is cast to unsigned, so >> -1 is >> 31 |
| VsxLogic.EqD | src/gromacs/simd/impl_ibm_vsx/impl_ibm_vsx_simd_double.h:486-492 | canonical mask, lane k true iff the FPU compares the lanes equal |
| VsxLogic.NeD | src/gromacs/simd/impl_ibm_vsx/impl_ibm_vsx_simd_double.h:494-501 | OR through the word view equals OR of the "greater" and "less" lane masks |
| VsxLogic.NeDLanes | src/gromacs/simd/impl_ibm_vsx/impl_ibm_vsx_simd_double.h:494-501 | != is a canonical mask, lane true iff greater or less |
| VsxLogic.NeIsNotEq | src/gromacs/simd/impl_ibm_vsx/impl_ibm_vsx_simd_double.h:486-501 | on an ordered lane, != is the negation of == |
| VsxLogic.NeOnUnorderedLane | src/gromacs/simd/impl_ibm_vsx/impl_ibm_vsx_simd_double.h:486-501 | on an unordered lane (a NaN) both != and == are false |
| VsxLogic.LtD | src/gromacs/simd/impl_ibm_vsx/impl_ibm_vsx_simd_double.h:503-509 | canonical mask, lane true iff the FPU compares less |
| VsxLogic.LeD | src/gromacs/simd/impl_ibm_vsx/impl_ibm_vsx_simd_double.h:511-517 | canonical mask, lane true iff the FPU compares less or equal |
| VsxLogic.TestBitsD | src/gromacs/simd/impl_ibm_vsx/impl_ibm_vsx_simd_double.h:519-525 | the POWER8 testBits gives a canonical mask |
| VsxLogic.TestBitsDLanes | src/gromacs/simd/impl_ibm_vsx/impl_ibm_vsx_simd_double.h:519-525 | a POWER8 testBits lane is true iff some bit of the lane is set |
| VsxLogic.TestBitsDByCompare | src/gromacs/simd/impl_ibm_vsx/impl_ibm_vsx_simd_double.h:526-530 | the non-POWER8 testBits gives a canonical mask, lane true iff the lane does not compare equal to 0.0 |
| VsxLogic.TestBitsOfNegativeZero | src/gromacs/simd/impl_ibm_vsx/impl_ibm_vsx_simd_double.h:519-530 | the two testBits branches disagree on -0.0: true with POWER8, false without |
| VsxLogic.AndB | src/gromacs/simd/impl_ibm_vsx/impl_ibm_vsx_simd_double.h:533-539 | && through the word view is AND of the lanes |
| VsxLogic.AndBOfMasks | src/gromacs/simd/impl_ibm_vsx/impl_ibm_vsx_simd_double.h:533-539 | on canonical masks && is canonical and lane-wise conjunction |
| VsxLogic.OrB | src/gromacs/simd/impl_ibm_vsx/impl_ibm_vsx_simd_double.h:541-547 | \|\| through the word view is OR of the lanes |
| VsxLogic.OrBOfMasks | src/gromacs/simd/impl_ibm_vsx/impl_ibm_vsx_simd_double.h:541-547 | on canonical masks \|\| is canonical and lane-wise disjunction |
| VsxLogic.AnyTrueD | src/gromacs/simd/impl_ibm_vsx/impl_ibm_vsx_simd_double.h:549-553 | true iff some word is nonzero, which is iff some lane is nonzero; on canonical masks iff some lane is true |
| VsxLogic.AnyTrueOfConstant | src/gromacs/simd/impl_ibm_vsx/impl_ibm_vsx_simd_double.h:549-553 | anyTrue(SimdDBool(false)) is false and anyTrue(SimdDBool(true)) is true |
| VsxLogic.SelectByMaskD | src/gromacs/simd/impl_ibm_vsx/impl_ibm_vsx_simd_double.h:555-561 | a true lane keeps a, a false lane is all-zero bits |
| VsxLogic.SelectByNotMaskD | src/gromacs/simd/impl_ibm_vsx/impl_ibm_vsx_simd_double.h:563-569 | a true lane is all-zero bits, a false lane keeps a |
| VsxLogic.SelectionsJoin | src/gromacs/simd/impl_ibm_vsx/impl_ibm_vsx_simd_double.h:555-569 | for any mask, selectByMask OR selectByNotMask is a |
| VsxLogic.SelectionsAreDisjoint | src/gromacs/simd/impl_ibm_vsx/impl_ibm_vsx_simd_double.h:555-569 | for any mask, selectByMask AND selectByNotMask is zero |
| VsxLogic.BlendD | src/gromacs/simd/impl_ibm_vsx/impl_ibm_vsx_simd_double.h:571-577 | a true lane of sel takes b, a false lane takes a |
| VsxLogic.BlendIsSelections | src/gromacs/simd/impl_ibm_vsx/impl_ibm_vsx_simd_double.h:555-577 | blend(a, b, sel) is bitwise (a & ~sel) \| (b & sel) |
| VsxLogic.BlendByConstant | src/gromacs/simd/impl_ibm_vsx/impl_ibm_vsx_simd_double.h:571-577 | blend(a, b, SimdDBool(true)) == b and blend(a, b, SimdDBool(false)) == a |
| VsxLogic.EqDI | src/gromacs/simd/impl_ibm_vsx/impl_ibm_vsx_simd_double.h:651-657 | canonical mask, pair layout kept, data word true iff the words are equal |
| VsxLogic.TestBitsDI | src/gromacs/simd/impl_ibm_vsx/impl_ibm_vsx_simd_double.h:659-665 | canonical mask, pair layout kept, data word true iff nonzero |
| VsxLogic.LtDI | src/gromacs/simd/impl_ibm_vsx/impl_ibm_vsx_simd_double.h:667-673 | integer < gives a canonical mask and keeps the pair layout |
| VsxLogic.LtDIWords | src/gromacs/simd/impl_ibm_vsx/impl_ibm_vsx_simd_double.h:667-673 | a data word is true iff the first operand is less as a two's-complement integer |
| VsxLogic.LtIsSigned | src/gromacs/simd/impl_ibm_vsx/impl_ibm_vsx_simd_double.h:667-673 | the compare is signed: -1 < 0 holds and 0 < -1 does not |
| VsxLogic.AndIB | src/gromacs/simd/impl_ibm_vsx/impl_ibm_vsx_simd_double.h:675-681 | && on integer masks keeps the pair layout |
| VsxLogic.AndIBOfMasks | src/gromacs/simd/impl_ibm_vsx/impl_ibm_vsx_simd_double.h:675-681 | on canonical masks && is canonical and word-wise conjunction |
| VsxLogic.OrIB | src/gromacs/simd/impl_ibm_vsx/impl_ibm_vsx_simd_double.h:683-689 | \|\| on integer masks keeps the pair layout |
| VsxLogic.OrIBOfMasks | src/gromacs/simd/impl_ibm_vsx/impl_ibm_vsx_simd_double.h:683-689 | on canonical masks \|\| is canonical and word-wise disjunction |
| VsxLogic.AnyTrueDI | src/gromacs/simd/impl_ibm_vsx/impl_ibm_vsx_simd_double.h:691-695 | true iff some word is nonzero; for a canonical pair-layout mask iff some data word is true |
| VsxLogic.AnyTrueOfConstantDI | src/gromacs/simd/impl_ibm_vsx/impl_ibm_vsx_simd_double.h:691-695 | anyTrue(SimdDIBool(false)) is false and anyTrue(SimdDIBool(true)) is true |
| VsxLogic.SelectByMaskDI | src/gromacs/simd/impl_ibm_vsx/impl_ibm_vsx_simd_double.h:697-703 | a true data word keeps a, a false one is zero; pair layout kept |
| VsxLogic.SelectByNotMaskDI | src/gromacs/simd/impl_ibm_vsx/impl_ibm_vsx_simd_double.h:705-711 | a true data word is zero, a false one keeps a; pair layout kept |
| VsxLogic.BlendDI | src/gromacs/simd/impl_ibm_vsx/impl_ibm_vsx_simd_double.h:713-719 | a true data word of sel takes b, a false one takes a; pair layout kept |
| VsxLogic.CvtB2IB | src/gromacs/simd/impl_ibm_vsx/impl_ibm_vsx_simd_double.h:768-774 | a canonical lane mask becomes a canonical word mask in the pair layout with the same truths |
| VsxLogic.CvtIB2B | src/gromacs/simd/impl_ibm_vsx/impl_ibm_vsx_simd_double.h:776-782 | a canonical word mask in the pair layout becomes a canonical lane mask with the same truths |
| VsxLogic.MaskWidthRoundTrip | src/gromacs/simd/impl_ibm_vsx/impl_ibm_vsx_simd_double.h:768-782 | cvtIB2B(cvtB2IB(a)) == a |
| VsxLogic.MaskWidthRoundTripDI | src/gromacs/simd/impl_ibm_vsx/impl_ibm_vsx_simd_double.h:768-782 | cvtB2IB(cvtIB2B(a)) == a |
| VsxLogic.CvtIB2BNeedsPairLayout | src/gromacs/simd/impl_ibm_vsx/impl_ibm_vsx_simd_double.h:776-782 | a canonical word mask outside the pair layout does not become a canonical lane mask |
| VsxExponent.FrexpMantissaFields | src/gromacs/simd/impl_ibm_vsx/impl_ibm_vsx_simd_double.h:442-444 | the mantissa keeps sign and fraction and gets the exponent field 1022 (that of 0.5) |
| VsxExponent.FrexpExponentValue | src/gromacs/simd/impl_ibm_vsx/impl_ibm_vsx_simd_double.h:430-439 | the exponent is the biased exponent field minus 1022, as an int32 |
| VsxExponent.Frexp | src/gromacs/simd/impl_ibm_vsx/impl_ibm_vsx_simd_double.h:421-445 | the mantissa lanes are as above; words 0 and 2 of the exponent hold the lanes' exponents and words 1 and 3 hold -1022 |
| VsxExponent.FrexpMatchesC99 | src/gromacs/simd/impl_ibm_vsx/impl_ibm_vsx_simd_double.h:421-445 | for a normal lane, mantissa * 2^exponent is the input and the mantissa's magnitude is in [0.5, 1), as in C99 frexp |
| VsxExponent.FrexpOfZero | src/gromacs/simd/impl_ibm_vsx/impl_ibm_vsx_simd_double.h:421-445 | +0.0 and -0.0 give mantissa +0.5 / -0.5 and exponent -1022 |
| VsxExponent.FrexpOfInfinity | src/gromacs/simd/impl_ibm_vsx/impl_ibm_vsx_simd_double.h:421-445 | +infinity gives mantissa 0.5 and exponent 1025 |
| VsxExponent.LdexpMultiplierFields | src/gromacs/simd/impl_ibm_vsx/impl_ibm_vsx_simd_double.h:458-464 | for -1022 <= e <= 1023 the multiplier is a positive power of two whose unbiased exponent is e |
| VsxExponent.LdexpMultiplierIsPowerOfTwo | src/gromacs/simd/impl_ibm_vsx/impl_ibm_vsx_simd_double.h:458-464 | for -1022 <= e <= 1023 the multiplier's value is exactly 2^e |
| VsxExponent.LdexpMultiplierOutOfRange | src/gromacs/simd/impl_ibm_vsx/impl_ibm_vsx_simd_double.h:458-464 | e = 1024 gives the bits of +infinity and e = -1023 gives +0.0 |
| VsxExponent.Ldexp | src/gromacs/simd/impl_ibm_vsx/impl_ibm_vsx_simd_double.h:447-469 | lane k is multiplied by the multiplier built from word 2k; words 1 and 3 are never read |
| VsxExponent.LdexpInvertsFrexp | src/gromacs/simd/impl_ibm_vsx/impl_ibm_vsx_simd_double.h:421-469 | ldexp(frexp(x)) == x bit for bit for normal lanes with exponent field at most 2045, given an exact power-of-two multiply |
| VsxExponent.LdexpFrexpLargestBinade | src/gromacs/simd/impl_ibm_vsx/impl_ibm_vsx_simd_double.h:421-469 | for exponent field 2046 frexp's exponent is 1024, and for it the ldexp multiplier is +infinity |
| VsxExponent.LdexpSplitLane | src/gromacs/simd/impl_ibm_vsx/impl_ibm_vsx_simd_double.h:448-469 | the corrected ldexp lane: for every exponent other than 1024 it multiplies by the same factor as ldexp |
| VsxExponent.LdexpSplit | src/gromacs/simd/impl_ibm_vsx/impl_ibm_vsx_simd_double.h:448-469 | the corrected ldexp agrees with ldexp on every lane whose exponent is not 1024 |
| VsxExponent.LdexpSplitInvertsFrexpLargest | src/gromacs/simd/impl_ibm_vsx/impl_ibm_vsx_simd_double.h:421-469 | with the split, ldexp(frexp(x)) == x for normal x in the largest binade |
| VsxExponent.LdexpSplitInvertsFrexpLane | src/gromacs/simd/impl_ibm_vsx/impl_ibm_vsx_simd_double.h:421-469 | with the split, ldexp(frexp(x)) == x for every normal lane, given an exact power-of-two multiply |
| VsxExponent.LdexpSplitInvertsFrexp | src/gromacs/simd/impl_ibm_vsx/impl_ibm_vsx_simd_double.h:421-469 | with the split, ldexp(frexp(x)) == x bit for bit on registers whose lanes are both normal |
| VsxExponent.CopysignLane | src/gromacs/simd/impl_ibm_vsx/impl_ibm_vsx_simd_double.h:820-834 | the result has the sign bit of y and every other bit of x |
| VsxExponent.Copysign | src/gromacs/simd/impl_ibm_vsx/impl_ibm_vsx_simd_double.h:820-834 | each lane of the result has the sign bit of the same lane of y and every other bit of the same lane of x |
| VsxExponent.CopysignFields | src/gromacs/simd/impl_ibm_vsx/impl_ibm_vsx_simd_double.h:820-834 | copysign keeps the exponent and fraction fields of x |
| VsxExponent.CopysignValue | src/gromacs/simd/impl_ibm_vsx/impl_ibm_vsx_simd_double.h:820-834 | for normal x the value has the magnitude of x and is negative iff y's sign bit is set |
| VsxConvert.CvttR2I | src/gromacs/simd/impl_ibm_vsx/impl_ibm_vsx_simd_double.h:721-740 | after the word swap the truncated integer of lane k is in word 2k; pair layout when the instruction fills both words |
| VsxConvert.CvtR2I | src/gromacs/simd/impl_ibm_vsx/impl_ibm_vsx_simd_double.h:741-745 | word 2k is the rounded lane k converted to an integer |
| VsxConvert.CvtI2R | src/gromacs/simd/impl_ibm_vsx/impl_ibm_vsx_simd_double.h:747-766 | lane k is the conversion of data word 2k; words 1 and 3 are never read |
| VsxConvert.IntegerRoundTrip | src/gromacs/simd/impl_ibm_vsx/impl_ibm_vsx_simd_double.h:721-766 | cvttR2I(cvtI2R(i)) gives back both data words when the converters are exact on them |
| VsxConvert.IntegralRoundTrip | src/gromacs/simd/impl_ibm_vsx/impl_ibm_vsx_simd_double.h:721-766 | cvtI2R(cvttR2I(x)) == x for lanes that hold integers |
| VsxConvert.CvtF2DD | src/gromacs/simd/impl_ibm_vsx/impl_ibm_vsx_simd_double.h:784-798 | float lanes 0 and 1 widened into d0 and lanes 2 and 3 into d1, in order |
| VsxConvert.CvtDD2F | src/gromacs/simd/impl_ibm_vsx/impl_ibm_vsx_simd_double.h:800-818 | the merge chain takes word 2k of both narrowings, giving lane order d0 lane 0, d0 lane 1, d1 lane 0, d1 lane 1 from the words beside xvcvdpsp's results; when xvcvdpsp fills both words of each doubleword these are the four narrowed lanes in that order |
| VsxConvert.NarrowUndoesWiden | src/gromacs/simd/impl_ibm_vsx/impl_ibm_vsx_simd_double.h:784-818 | cvtDD2F of cvtF2DD's outputs reproduces every lane of f in order, given narrow(widen(w)) == w on each lane and that xvcvdpsp fills both words |
| VsxConvert.FloatRoundTrip | src/gromacs/simd/impl_ibm_vsx/impl_ibm_vsx_simd_double.h:784-818 | the same round trip through the cvtF2DD method, under the same per-lane facts |

## Left out

- Floating-point numerics: add, subtract, multiply, negate, fma/fms/fnma/fnms, rsqrt/rcp estimates, abs, max, min, round, trunc, the compares and the numeric side of the conversions are hardware IEEE behaviour. They are uninterpreted fields of `Fpu`, and their wrappers (`VsxArithmetic.Add` and the like, lines 242-419) carry no contract of their own.
- `VsxBitwise.AndD`, `AndNotD`, `OrD`, `XorD` (lines 210-240) have no contract of their own. Their meaning is stated by the split/join/xor lemmas above.
- The xlc paths (`vec_xlw4`/`vec_xstw4`, `vec_cts`, `vec_ctd`, `vec_cvf`) and the big-endian permute tables are not modelled. Only gcc on little-endian POWER is. The xlc branch of `loadU` (line 136) lacks the semicolon after its return statement.
- The inline-asm instructions are modelled by which words they read and write. `xvcvdpsxws` and `xvcvsxwdp` use the odd words, which the word swap around them accounts for. `xvcvdpsp` is taken to put lane k in word 2k + 1, the most significant word of the doubleword, as the other conversions do. The "0x1x" comments at lines 809-810 describe the xlc `vec_cvf` branch, not the gcc instruction. `xvcvspdp` reads the odd words; its input is duplicated ("0011", "2233"), so reading the even words would give the same result. The contents of the words an instruction leaves beside its results are the `Fpu` fields `toInt32Pad` and `narrowPad`.
- The debug-only sanitising in `maskzRsqrt`/`maskzRcp` (lines 353-355, 364-366) is not modelled; only the release path is.
- Alignment of `load`/`store` and the pointer punning are not modelled. A pointer is an array index, and an unaligned access behaves like an aligned one.
- `SimdFloat` is defined outside this file. It is modelled only as four 32-bit words. `config.h`, `impl_ibm_vsx_definitions.h` and `include/grompp.h` are not part of this model.
- VsxExponent.LdexpInvertsFrexp: the round trip is proved only for normal lanes whose exponent field is at most 2045, not for every normal number. In the largest binade (field 2046), frexp returns the exponent 1024 and ldexp's multiplier becomes +infinity (`LdexpFrexpLargestBinade`), so as written the round trip does not hold there. The corrected `LdexpSplit` covers every normal lane (see Findings). The proof also takes as a hypothesis (`ScalesExactly`) that the hardware multiply is exact when scaling a normal number by a power of two to another normal number. IEEE 754 correct rounding guarantees that, but the `Fpu` parameter does not model it.
- frexp and ldexp do not treat zero, subnormals, infinities or NaN the way C99's `frexp`/`ldexp` do. The model follows the code (`FrexpOfZero`, `FrexpOfInfinity`, `LdexpMultiplierOutOfRange`), and the numeric value is stated only for normal numbers.
- VsxArithmetic.MaskAdd: a false lane is stated as `a + (+0.0)`, not as `a`. They differ for a = -0.0 under round-to-nearest.
- VsxLogic.NeD: `!=` is "greater OR less", so it is false on unordered (NaN) lanes, unlike IEEE `!=`. The model follows the code (`NeOnUnorderedLane`).
- VsxConvert.CvtDD2F: the lanes come out narrowed and in order only when xvcvdpsp writes its result into both words of each doubleword (`FillsBothWords`). Otherwise the result is the contents of the neighbouring words (`narrowPad`). `NarrowUndoesWiden` and `FloatRoundTrip` take that as a hypothesis.
- VsxArithmetic.MulDI: the product is related to the other word operations (commutativity and distributivity over +). Its link to the signed product of the two integers modulo 2^32 is not stated; that needs bit-vector-to-integer reasoning on products, which the solver does not finish in time.

## Findings

| source | as written | input that shows it | evidently intended | confidence | as-written member | corrected member |
|---|---|---|---|---|---|---|
| src/gromacs/simd/impl_ibm_vsx/impl_ibm_vsx_simd_double.h:448-469 | ldexp builds 2^e in one multiplier, so for e = 1024 the biased field 2047 gives +infinity | x = 0x7FEF_FFFF_FFFF_FFFF (the largest finite double): frexp gives the exponent 1024, and ldexp multiplies the mantissa by +infinity | ldexp(frexp(x)) == x for every normal x | not executed; medium, since the exponent 1024 may lie outside ldexp's intended argument range | VsxExponent.LdexpFrexpLargestBinade | VsxExponent.LdexpSplitInvertsFrexp |
