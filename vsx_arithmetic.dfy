/** Arithmetic on SimdDouble and SimdDInt32. The floating-point operations
    apply one instruction of the `Fpu` to each lane; the masked variants and
    `reduce` are modelled down to the bits the masks and permutations move.
    Integer arithmetic is on 32-bit words and wraps modulo 2^32. */
module VsxArithmetic {
  import opened Binary64
  import opened VsxIntrinsics
  import opened VsxTypes

  // ---------------------------------------------------------------------
  // Floating point, one instruction per lane

  /** operator+ (vec_add) */
  function Add(fpu: Fpu, a: SimdDouble, b: SimdDouble): SimdDouble {
    SimdDouble(Map2(fpu.add, a.simdInternal, b.simdInternal))
  }

  /** operator- (vec_sub) */
  function Sub(fpu: Fpu, a: SimdDouble, b: SimdDouble): SimdDouble {
    SimdDouble(Map2(fpu.sub, a.simdInternal, b.simdInternal))
  }

  /** unary operator- */
  function Neg(fpu: Fpu, x: SimdDouble): SimdDouble {
    SimdDouble(Map1(fpu.neg, x.simdInternal))
  }

  /** operator* (vec_mul) */
  function Mul(fpu: Fpu, a: SimdDouble, b: SimdDouble): SimdDouble {
    SimdDouble(Map2(fpu.mul, a.simdInternal, b.simdInternal))
  }

  /** fma: a * b + c (vec_madd) */
  function Fma(fpu: Fpu, a: SimdDouble, b: SimdDouble, c: SimdDouble): SimdDouble {
    SimdDouble(Map3(fpu.madd, a.simdInternal, b.simdInternal, c.simdInternal))
  }

  /** fms: a * b - c (vec_msub) */
  function Fms(fpu: Fpu, a: SimdDouble, b: SimdDouble, c: SimdDouble): SimdDouble {
    SimdDouble(Map3(fpu.msub, a.simdInternal, b.simdInternal, c.simdInternal))
  }

  /** fnma: -(a * b) + c, issued as vec_nmsub */
  function Fnma(fpu: Fpu, a: SimdDouble, b: SimdDouble, c: SimdDouble): SimdDouble {
    SimdDouble(Map3(fpu.nmsub, a.simdInternal, b.simdInternal, c.simdInternal))
  }

  /** fnms: -(a * b) - c, issued as vec_nmadd */
  function Fnms(fpu: Fpu, a: SimdDouble, b: SimdDouble, c: SimdDouble): SimdDouble {
    SimdDouble(Map3(fpu.nmadd, a.simdInternal, b.simdInternal, c.simdInternal))
  }

  /** rsqrt: the hardware estimate (vec_rsqrte) */
  function Rsqrt(fpu: Fpu, x: SimdDouble): SimdDouble {
    SimdDouble(Map1(fpu.rsqrte, x.simdInternal))
  }

  /** rcp: the hardware estimate (vec_re) */
  function Rcp(fpu: Fpu, x: SimdDouble): SimdDouble {
    SimdDouble(Map1(fpu.re, x.simdInternal))
  }

  /** abs (vec_abs) */
  function Abs(fpu: Fpu, x: SimdDouble): SimdDouble {
    SimdDouble(Map1(fpu.abs, x.simdInternal))
  }

  /** max (vec_max) */
  function Max(fpu: Fpu, a: SimdDouble, b: SimdDouble): SimdDouble {
    SimdDouble(Map2(fpu.max, a.simdInternal, b.simdInternal))
  }

  /** min (vec_min) */
  function Min(fpu: Fpu, a: SimdDouble, b: SimdDouble): SimdDouble {
    SimdDouble(Map2(fpu.min, a.simdInternal, b.simdInternal))
  }

  /** round: to nearest, ties away from zero (xvrdpi) */
  function Round(fpu: Fpu, x: SimdDouble): SimdDouble {
    SimdDouble(Map1(fpu.round, x.simdInternal))
  }

  /** trunc (vec_trunc) */
  function Trunc(fpu: Fpu, x: SimdDouble): SimdDouble {
    SimdDouble(Map1(fpu.trunc, x.simdInternal))
  }

  // ---------------------------------------------------------------------
  // Masked operations

  /** maskAdd: `b` is ANDed with the mask before the add, so a true lane
      adds `b` and a false lane adds +0.0 (all-zero bits). */
  function MaskAdd(fpu: Fpu, a: SimdDouble, b: SimdDouble, m: SimdDBool): (r: SimdDouble)
    ensures m.simdInternal.d0 == ALL_ONES_64 ==> r.simdInternal.d0 == fpu.add(a.simdInternal.d0, b.simdInternal.d0)
    ensures m.simdInternal.d1 == ALL_ONES_64 ==> r.simdInternal.d1 == fpu.add(a.simdInternal.d1, b.simdInternal.d1)
    ensures m.simdInternal.d0 == 0 ==> r.simdInternal.d0 == fpu.add(a.simdInternal.d0, 0)
    ensures m.simdInternal.d1 == 0 ==> r.simdInternal.d1 == fpu.add(a.simdInternal.d1, 0)
  {
    AndWithMask64(b.simdInternal.d0, m.simdInternal.d0);
    AndWithMask64(b.simdInternal.d1, m.simdInternal.d1);
    SimdDouble(Map2(fpu.add, a.simdInternal, And2(b.simdInternal, m.simdInternal)))
  }

  /** maskzMul: the product ANDed with the mask; a false lane is all zeros. */
  function MaskzMul(fpu: Fpu, a: SimdDouble, b: SimdDouble, m: SimdDBool): (r: SimdDouble)
    ensures m.simdInternal.d0 == ALL_ONES_64 ==> r.simdInternal.d0 == fpu.mul(a.simdInternal.d0, b.simdInternal.d0)
    ensures m.simdInternal.d1 == ALL_ONES_64 ==> r.simdInternal.d1 == fpu.mul(a.simdInternal.d1, b.simdInternal.d1)
    ensures m.simdInternal.d0 == 0 ==> r.simdInternal.d0 == 0
    ensures m.simdInternal.d1 == 0 ==> r.simdInternal.d1 == 0
  {
    var prod := Mul(fpu, a, b);
    AndWithMask64(prod.simdInternal.d0, m.simdInternal.d0);
    AndWithMask64(prod.simdInternal.d1, m.simdInternal.d1);
    SimdDouble(And2(prod.simdInternal, m.simdInternal))
  }

  /** maskzFma: a * b + c ANDed with the mask. */
  function MaskzFma(fpu: Fpu, a: SimdDouble, b: SimdDouble, c: SimdDouble, m: SimdDBool): (r: SimdDouble)
    ensures m.simdInternal.d0 == ALL_ONES_64 ==> r.simdInternal.d0 == fpu.madd(a.simdInternal.d0, b.simdInternal.d0, c.simdInternal.d0)
    ensures m.simdInternal.d1 == ALL_ONES_64 ==> r.simdInternal.d1 == fpu.madd(a.simdInternal.d1, b.simdInternal.d1, c.simdInternal.d1)
    ensures m.simdInternal.d0 == 0 ==> r.simdInternal.d0 == 0
    ensures m.simdInternal.d1 == 0 ==> r.simdInternal.d1 == 0
  {
    var prod := Fma(fpu, a, b, c);
    AndWithMask64(prod.simdInternal.d0, m.simdInternal.d0);
    AndWithMask64(prod.simdInternal.d1, m.simdInternal.d1);
    SimdDouble(And2(prod.simdInternal, m.simdInternal))
  }

  /** maskzRsqrt (release build): the estimate ANDed with the mask. */
  function MaskzRsqrt(fpu: Fpu, x: SimdDouble, m: SimdDBool): (r: SimdDouble)
    ensures m.simdInternal.d0 == ALL_ONES_64 ==> r.simdInternal.d0 == fpu.rsqrte(x.simdInternal.d0)
    ensures m.simdInternal.d1 == ALL_ONES_64 ==> r.simdInternal.d1 == fpu.rsqrte(x.simdInternal.d1)
    ensures m.simdInternal.d0 == 0 ==> r.simdInternal.d0 == 0
    ensures m.simdInternal.d1 == 0 ==> r.simdInternal.d1 == 0
  {
    var estimate := Map1(fpu.rsqrte, x.simdInternal);
    AndWithMask64(estimate.d0, m.simdInternal.d0);
    AndWithMask64(estimate.d1, m.simdInternal.d1);
    SimdDouble(And2(estimate, m.simdInternal))
  }

  /** maskzRcp (release build): the estimate ANDed with the mask. */
  function MaskzRcp(fpu: Fpu, x: SimdDouble, m: SimdDBool): (r: SimdDouble)
    ensures m.simdInternal.d0 == ALL_ONES_64 ==> r.simdInternal.d0 == fpu.re(x.simdInternal.d0)
    ensures m.simdInternal.d1 == ALL_ONES_64 ==> r.simdInternal.d1 == fpu.re(x.simdInternal.d1)
    ensures m.simdInternal.d0 == 0 ==> r.simdInternal.d0 == 0
    ensures m.simdInternal.d1 == 0 ==> r.simdInternal.d1 == 0
  {
    var estimate := Map1(fpu.re, x.simdInternal);
    AndWithMask64(estimate.d0, m.simdInternal.d0);
    AndWithMask64(estimate.d1, m.simdInternal.d1);
    SimdDouble(And2(estimate, m.simdInternal))
  }

  // ---------------------------------------------------------------------
  // reduce

  /** reduce: the register plus its lane-swapped copy holds d0 + d1 in lane
      0, which is extracted. */
  function Reduce(fpu: Fpu, x: SimdDouble): (r: bv64)
    ensures r == fpu.add(x.simdInternal.d0, x.simdInternal.d1)
  {
    var sum := Map2(fpu.add, x.simdInternal, SwapLanes(x.simdInternal));
    sum.d0
  }

  // ---------------------------------------------------------------------
  // Integer arithmetic, modulo 2^32 in each word

  /** operator+ on SimdDInt32 */
  function AddDI(a: SimdDInt32, b: SimdDInt32): (r: SimdDInt32)
    ensures a.PairLayout() && b.PairLayout() ==> r.PairLayout()
  {
    SimdDInt32(Add4(a.simdInternal, b.simdInternal))
  }

  /** operator- on SimdDInt32 */
  function SubDI(a: SimdDInt32, b: SimdDInt32): (r: SimdDInt32)
    ensures a.PairLayout() && b.PairLayout() ==> r.PairLayout()
  {
    SimdDInt32(Sub4(a.simdInternal, b.simdInternal))
  }

  /** operator* on SimdDInt32: the low 32 bits of each product */
  function MulDI(a: SimdDInt32, b: SimdDInt32): (r: SimdDInt32)
    ensures a.PairLayout() && b.PairLayout() ==> r.PairLayout()
  {
    SimdDInt32(Mul4(a.simdInternal, b.simdInternal))
  }

  /** Addition and multiplication do not depend on operand order. */
  lemma AddMulCommute(a: SimdDInt32, b: SimdDInt32)
    ensures AddDI(a, b) == AddDI(b, a)
    ensures MulDI(a, b) == MulDI(b, a)
  {
  }

  /** Subtraction undoes addition in every word, overflow or not. */
  lemma SubUndoesAdd(a: SimdDInt32, b: SimdDInt32)
    ensures SubDI(AddDI(a, b), b) == a
    ensures AddDI(SubDI(a, b), b) == a
  {
    var x, y := a.simdInternal, b.simdInternal;
    SubUndoesAdd32(x.e0, y.e0);
    SubUndoesAdd32(x.e1, y.e1);
    SubUndoesAdd32(x.e2, y.e2);
    SubUndoesAdd32(x.e3, y.e3);
  }

  lemma SubUndoesAdd32(x: bv32, y: bv32)
    ensures Sub32(Add32(x, y), y) == x
    ensures Add32(Sub32(x, y), y) == x
  {
    AddWord(x, y);
    SubWord(x + y, y);
    SubWord(x, y);
    AddWord(x - y, y);
    Wraparound32(x, y);
  }

  lemma AddWord(x: bv32, y: bv32)
    ensures Add32(x, y) == x + y
  {
  }

  lemma SubWord(x: bv32, y: bv32)
    ensures Sub32(x, y) == x - y
  {
  }

  lemma MulWord(x: bv32, y: bv32)
    ensures Mul32(x, y) == x * y
  {
  }

  lemma Wraparound32(x: bv32, y: bv32)
    ensures (x + y) - y == x && (x - y) + y == x
  {
  }

  /** Multiplication distributes over addition word by word, since both
      keep only the low 32 bits. */
  lemma MulDistributes(a: SimdDInt32, b: SimdDInt32, c: SimdDInt32)
    ensures MulDI(a, AddDI(b, c)) == AddDI(MulDI(a, b), MulDI(a, c))
  {
    var x, y, z := a.simdInternal, b.simdInternal, c.simdInternal;
    MulDistributes32(x.e0, y.e0, z.e0);
    MulDistributes32(x.e1, y.e1, z.e1);
    MulDistributes32(x.e2, y.e2, z.e2);
    MulDistributes32(x.e3, y.e3, z.e3);
  }

  lemma MulDistributes32(x: bv32, y: bv32, z: bv32)
    ensures Mul32(x, Add32(y, z)) == Add32(Mul32(x, y), Mul32(x, z))
  {
    AddWord(y, z);
    MulWord(x, y);
    MulWord(x, z);
    MulWord(x, y + z);
    AddWord(x * y, x * z);
    Distributes32(x, y, z);
  }

  lemma Distributes32(x: bv32, y: bv32, z: bv32)
    ensures x * (y + z) == x * y + x * z
  {
  }

  /** The words wrap: INT32_MAX + 1 is INT32_MIN. */
  lemma AddWraps()
    ensures Signed(AddDI(SplatDI(0x7FFF_FFFF), SplatDI(1)).simdInternal.e0) == -0x8000_0000
  {
  }

  // ---------------------------------------------------------------------
  // Shifts: the int count is splatted and each word shifts by its low five bits

  /** operator<<(SimdDInt32, int): `n` is the count's two's-complement bit pattern. */
  function ShiftLeftDI(a: SimdDInt32, n: bv32): (r: SimdDInt32)
    ensures a.PairLayout() ==> r.PairLayout()
  {
    SimdDInt32(Sl4(a.simdInternal, Splats4(n)))
  }

  /** operator>>(SimdDInt32, int): vec_sr, a logical shift that fills with zeros. */
  function ShiftRightDI(a: SimdDInt32, n: bv32): (r: SimdDInt32)
    ensures a.PairLayout() ==> r.PairLayout()
  {
    SimdDInt32(Sr4(a.simdInternal, Splats4(n)))
  }

  /** `>>` does not keep the sign: by any count other than a multiple of 32
      every word of the result is non-negative. */
  lemma ShiftRightIsLogical(a: SimdDInt32, n: bv32)
    requires ShiftCount(n) != 0
    ensures Signed(ShiftRightDI(a, n).simdInternal.e0) >= 0
    ensures Signed(ShiftRightDI(a, n).simdInternal.e2) >= 0
  {
  }

  /** Only the low five bits of the count matter: shifting by 32 changes nothing. */
  lemma ShiftCountIsModular(a: SimdDInt32)
    ensures ShiftLeftDI(a, 32) == a && ShiftRightDI(a, 32) == a
  {
    var x := a.simdInternal;
    ShiftBy32(x.e0);
    ShiftBy32(x.e1);
    ShiftBy32(x.e2);
    ShiftBy32(x.e3);
  }

  lemma ShiftBy32(x: bv32)
    ensures Shl32(x, 32) == x && Shr32(x, 32) == x
  {
  }

  /** A negative count shifts by its low five bits: `>> -1` is `>> 31`. */
  lemma NegativeShiftCount(a: SimdDInt32)
    ensures ShiftRightDI(a, 0xFFFF_FFFF) == ShiftRightDI(a, 31)
  {
  }
}
