/** The four register types of the double-precision VSX backend, and the
    single-precision register it converts to and from. Each wraps one
    128-bit register (`simdInternal_`). */
module VsxTypes {
  import opened VsxIntrinsics

  /** Two binary64 lanes. */
  datatype SimdDouble = SimdDouble(simdInternal: Vec2x64)

  /** Four 32-bit words; an integer lane k is carried in word 2k, and the
      loads fill word 2k+1 with the same value (the "0011" layout). */
  datatype SimdDInt32 = SimdDInt32(simdInternal: Vec4x32) {
    /** The "0011" layout: each integer is duplicated into a word pair. */
    predicate PairLayout() {
      simdInternal.e0 == simdInternal.e1 && simdInternal.e2 == simdInternal.e3
    }
  }

  /** A mask over the two binary64 lanes. */
  datatype SimdDBool = SimdDBool(simdInternal: Vec2x64) {
    /** Every lane is all ones or all zeros. */
    predicate Canonical() {
      (simdInternal.d0 == 0 || simdInternal.d0 == ALL_ONES_64)
      && (simdInternal.d1 == 0 || simdInternal.d1 == ALL_ONES_64)
    }

    predicate LaneTrue(k: nat)
      requires k < 2
    {
      simdInternal.Lane(k) == ALL_ONES_64
    }
  }

  /** A mask over the four words of a SimdDInt32. */
  datatype SimdDIBool = SimdDIBool(simdInternal: Vec4x32) {
    /** Every word is all ones or all zeros. */
    predicate Canonical() {
      && (simdInternal.e0 == 0 || simdInternal.e0 == ALL_ONES_32)
      && (simdInternal.e1 == 0 || simdInternal.e1 == ALL_ONES_32)
      && (simdInternal.e2 == 0 || simdInternal.e2 == ALL_ONES_32)
      && (simdInternal.e3 == 0 || simdInternal.e3 == ALL_ONES_32)
    }

    predicate WordTrue(i: nat)
      requires i < 4
    {
      simdInternal.Elem(i) == ALL_ONES_32
    }

    /** Both words of each pair hold the same value. */
    predicate PairLayout() {
      simdInternal.e0 == simdInternal.e1 && simdInternal.e2 == simdInternal.e3
    }
  }

  /** Four binary32 lanes (the single-precision register, defined outside this backend). */
  datatype SimdFloat = SimdFloat(simdInternal: Vec4x32)

  /** SimdDouble(double): the scalar in both lanes. */
  function SplatD(d: bv64): (r: SimdDouble)
    ensures r.simdInternal.d0 == d && r.simdInternal.d1 == d
  {
    SimdDouble(Splats2(d))
  }

  /** SimdDInt32(std::int32_t): the scalar in all four words. */
  function SplatDI(i: bv32): (r: SimdDInt32)
    ensures r.PairLayout() && r.simdInternal.e0 == i && r.simdInternal.e2 == i
  {
    SimdDInt32(Splats4(i))
  }

  /** SimdDBool(bool): every lane all ones for true, all zeros for false. */
  function DBoolOf(b: bool): (r: SimdDBool)
    ensures r.Canonical()
    ensures r.LaneTrue(0) == b && r.LaneTrue(1) == b
  {
    SimdDBool(Splats2(if b then 0xFFFF_FFFF_FFFF_FFFF else 0))
  }

  /** SimdDIBool(bool): every word all ones for true, all zeros for false. */
  function DIBoolOf(b: bool): (r: SimdDIBool)
    ensures r.Canonical() && r.PairLayout()
    ensures forall i :: 0 <= i < 4 ==> r.WordTrue(i) == b
  {
    SimdDIBool(Splats4(if b then 0xFFFF_FFFF else 0))
  }
}
