/** The bitwise operators on SimdDouble and SimdDInt32: `&`, `|`, `^` and
    `andNot`, which complements its FIRST operand. */
module VsxBitwise {
  import opened VsxIntrinsics
  import opened VsxTypes

  // ---------------------------------------------------------------------
  // SimdDouble

  /** operator&: a bit of a lane is set iff it is set in both operands. */
  function AndD(a: SimdDouble, b: SimdDouble): SimdDouble
  {
    SimdDouble(And2(a.simdInternal, b.simdInternal))
  }

  /** andNot(a, b) is vec_andc(b, a): the bits of `b` that are clear in `a`. */
  function AndNotD(a: SimdDouble, b: SimdDouble): SimdDouble
  {
    SimdDouble(Andc2(b.simdInternal, a.simdInternal))
  }

  /** operator|: a bit of a lane is set iff it is set in either operand. */
  function OrD(a: SimdDouble, b: SimdDouble): SimdDouble
  {
    SimdDouble(Or2(a.simdInternal, b.simdInternal))
  }

  /** operator^: a bit of a lane is set iff the operands differ there. */
  function XorD(a: SimdDouble, b: SimdDouble): SimdDouble
  {
    SimdDouble(Xor2(a.simdInternal, b.simdInternal))
  }

  /** andNot splits `b` by `a`: its result shares no bit with `a`, and together
      with `a & b` it makes up `b` exactly. */
  lemma AndNotSplitsSecond(a: SimdDouble, b: SimdDouble)
    ensures AndD(AndNotD(a, b), a) == SplatD(0)
  {
    AndNotSplits64(a.simdInternal.d0, b.simdInternal.d0);
    AndNotSplits64(a.simdInternal.d1, b.simdInternal.d1);
  }

  lemma AndNotJoinsSecond(a: SimdDouble, b: SimdDouble)
    ensures OrD(AndNotD(a, b), AndD(a, b)) == b
  {
    AndNotJoins64(a.simdInternal.d0, b.simdInternal.d0);
    AndNotJoins64(a.simdInternal.d1, b.simdInternal.d1);
  }

  lemma AndNotSplits64(x: bv64, y: bv64)
    ensures And64(Andc64(y, x), x) == 0
  {
  }

  lemma AndNotJoins64(x: bv64, y: bv64)
    ensures Or64(Andc64(y, x), And64(x, y)) == y
  {
  }

  /** andNot is not symmetric: exchanging the operands complements the other one. */
  lemma AndNotOperandOrder()
    ensures AndNotD(SplatD(0), SplatD(0xFFFF_FFFF_FFFF_FFFF)) == SplatD(0xFFFF_FFFF_FFFF_FFFF)
    ensures AndNotD(SplatD(0xFFFF_FFFF_FFFF_FFFF), SplatD(0)) == SplatD(0)
  {
  }

  /** Applying `^ b` twice gives the register back. */
  lemma XorSelfInverse(a: SimdDouble, b: SimdDouble)
    ensures XorD(XorD(a, b), b) == a
  {
    XorTwice64(a.simdInternal.d0, b.simdInternal.d0);
    XorTwice64(a.simdInternal.d1, b.simdInternal.d1);
  }

  lemma XorTwice64(x: bv64, y: bv64)
    ensures Xor64(Xor64(x, y), y) == x
  {
  }

  // ---------------------------------------------------------------------
  // SimdDInt32

  /** operator& on the integer register; two registers in the pair layout give one. */
  function AndDI(a: SimdDInt32, b: SimdDInt32): (r: SimdDInt32)
    ensures a.PairLayout() && b.PairLayout() ==> r.PairLayout()
  {
    SimdDInt32(And4(a.simdInternal, b.simdInternal))
  }

  /** andNot(a, b) on the integer register: vec_andc(b, a), `~a & b`. */
  function AndNotDI(a: SimdDInt32, b: SimdDInt32): (r: SimdDInt32)
    ensures a.PairLayout() && b.PairLayout() ==> r.PairLayout()
  {
    SimdDInt32(Andc4(b.simdInternal, a.simdInternal))
  }

  /** operator| on the integer register. */
  function OrDI(a: SimdDInt32, b: SimdDInt32): (r: SimdDInt32)
    ensures a.PairLayout() && b.PairLayout() ==> r.PairLayout()
  {
    SimdDInt32(Or4(a.simdInternal, b.simdInternal))
  }

  /** operator^ on the integer register. */
  function XorDI(a: SimdDInt32, b: SimdDInt32): (r: SimdDInt32)
    ensures a.PairLayout() && b.PairLayout() ==> r.PairLayout()
  {
    SimdDInt32(Xor4(a.simdInternal, b.simdInternal))
  }

  /** The same split for integers: `andNot(a, b)` and `a & b` partition `b`. */
  lemma AndNotSplitsSecondDI(a: SimdDInt32, b: SimdDInt32)
    ensures AndDI(AndNotDI(a, b), a) == SplatDI(0)
  {
    var x, y := a.simdInternal, b.simdInternal;
    AndNotSplits32(x.e0, y.e0);
    AndNotSplits32(x.e1, y.e1);
    AndNotSplits32(x.e2, y.e2);
    AndNotSplits32(x.e3, y.e3);
  }

  lemma AndNotJoinsSecondDI(a: SimdDInt32, b: SimdDInt32)
    ensures OrDI(AndNotDI(a, b), AndDI(a, b)) == b
  {
    var x, y := a.simdInternal, b.simdInternal;
    AndNotJoins32(x.e0, y.e0);
    AndNotJoins32(x.e1, y.e1);
    AndNotJoins32(x.e2, y.e2);
    AndNotJoins32(x.e3, y.e3);
  }

  lemma XorSelfInverseDI(a: SimdDInt32, b: SimdDInt32)
    ensures XorDI(XorDI(a, b), b) == a
  {
    var x, y := a.simdInternal, b.simdInternal;
    XorTwice32(x.e0, y.e0);
    XorTwice32(x.e1, y.e1);
    XorTwice32(x.e2, y.e2);
    XorTwice32(x.e3, y.e3);
  }

  lemma AndNotSplits32(x: bv32, y: bv32)
    ensures And32(Andc32(y, x), x) == 0
  {
  }

  lemma AndNotJoins32(x: bv32, y: bv32)
    ensures Or32(Andc32(y, x), And32(x, y)) == y
  {
  }

  lemma XorTwice32(x: bv32, y: bv32)
    ensures Xor32(Xor32(x, y), y) == x
  {
  }
}
