/** Comparisons, masks and selection. A vector compare writes an all-ones
    or all-zeros lane (or word); the mask operators combine masks bit by bit,
    and selection ANDs a register with a mask or its complement. */
module VsxLogic {
  import opened Binary64
  import opened VsxIntrinsics
  import opened VsxTypes
  import opened VsxBitwise

  // ---------------------------------------------------------------------
  // Facts about compare results

  /** A canonical SimdDBool is the compare result of its own lane truths. */
  lemma CanonicalLanes(m: SimdDBool)
    ensures m.Canonical() ==>
      m.simdInternal == Vec2x64(CompareLane64(m.LaneTrue(0)), CompareLane64(m.LaneTrue(1)))
  {
  }

  /** A canonical SimdDIBool is the compare result of its own word truths. */
  lemma CanonicalWords(m: SimdDIBool)
    ensures m.Canonical() ==>
      m.simdInternal == Vec4x32(CompareWord(m.WordTrue(0)), CompareWord(m.WordTrue(1)),
                                CompareWord(m.WordTrue(2)), CompareWord(m.WordTrue(3)))
  {
  }

  /** A compare lane is a mask, all ones exactly when the compare holds. */
  lemma CompareLaneMeaning(p: bool)
    ensures CompareLane64(p) == 0 || CompareLane64(p) == ALL_ONES_64
    ensures CompareLane64(p) == ALL_ONES_64 <==> p
  {
  }

  /** The same for a compare word. */
  lemma CompareWordMeaning(p: bool)
    ensures CompareWord(p) == 0 || CompareWord(p) == ALL_ONES_32
    ensures CompareWord(p) == ALL_ONES_32 <==> p
  {
  }

  lemma PositiveIsNonzero64(x: bv64)
    ensures x > 0 <==> x != 0
  {
  }

  lemma PositiveIsNonzero32(x: bv32)
    ensures x > 0 <==> x != 0
  {
  }

  lemma OrOfCompares(p: bool, q: bool)
    ensures Or64(CompareLane64(p), CompareLane64(q)) == CompareLane64(p || q)
  {
  }

  lemma AndOfCompares(p: bool, q: bool)
    ensures And64(CompareLane64(p), CompareLane64(q)) == CompareLane64(p && q)
  {
  }

  lemma OrOfCompareWords(p: bool, q: bool)
    ensures Or32(CompareWord(p), CompareWord(q)) == CompareWord(p || q)
  {
  }

  lemma AndOfCompareWords(p: bool, q: bool)
    ensures And32(CompareWord(p), CompareWord(q)) == CompareWord(p && q)
  {
  }

  /** Both halves of a compare lane are the compare word, and joining two
      equal compare words gives the compare lane. */
  lemma HalvesOfCompare(p: bool)
    ensures Lo(CompareLane64(p)) == CompareWord(p) && Hi(CompareLane64(p)) == CompareWord(p)
    ensures Join(CompareWord(p), CompareWord(p)) == CompareLane64(p)
  {
  }

  lemma NorZeroOfCompare(p: bool)
    ensures Nor32(CompareWord(p), 0) == CompareWord(!p)
  {
  }

  /** A lane is nonzero iff one of its halves is. */
  lemma NonzeroHalves(x: bv64)
    ensures x != 0 <==> Lo(x) != 0 || Hi(x) != 0
  {
  }

  /** OR through the word view is OR on the lanes. */
  lemma OrViaWords(x: Vec2x64, y: Vec2x64)
    ensures AsLanes(Or4(AsWords(x), AsWords(y))) == Or2(x, y)
  {
    OrIgnoresLaneWidth(x, y);
    LanesOfWords(Or2(x, y));
  }

  /** AND through the word view is AND on the lanes. */
  lemma AndViaWords(x: Vec2x64, y: Vec2x64)
    ensures AsLanes(And4(AsWords(x), AsWords(y))) == And2(x, y)
  {
    AndIgnoresLaneWidth(x, y);
    LanesOfWords(And2(x, y));
  }

  // ---------------------------------------------------------------------
  // SimdDouble comparisons

  /** operator== (vec_cmpeq) */
  function EqD(fpu: Fpu, a: SimdDouble, b: SimdDouble): (r: SimdDBool)
    ensures r.Canonical()
    ensures r.LaneTrue(0) <==> fpu.cmpeq(a.simdInternal.d0, b.simdInternal.d0)
    ensures r.LaneTrue(1) <==> fpu.cmpeq(a.simdInternal.d1, b.simdInternal.d1)
  {
    SimdDBool(Compare2(fpu.cmpeq, a.simdInternal, b.simdInternal))
  }

  /** operator!=: "greater" OR "less", combined through the word view,
      which is the same as OR of the lane masks. */
  function NeD(fpu: Fpu, a: SimdDouble, b: SimdDouble): (r: SimdDBool)
    ensures r.simdInternal == Or2(Compare2(fpu.cmpgt, a.simdInternal, b.simdInternal), Compare2(fpu.cmplt, a.simdInternal, b.simdInternal))
  {
    var gt := Compare2(fpu.cmpgt, a.simdInternal, b.simdInternal);
    var lt := Compare2(fpu.cmplt, a.simdInternal, b.simdInternal);
    OrViaWords(gt, lt);
    SimdDBool(AsLanes(Or4(AsWords(gt), AsWords(lt))))
  }

  /** A lane of `!=` is true iff that lane compares greater or less; a lane
      where neither holds (an unordered pair) is false. */
  lemma NeDLanes(fpu: Fpu, a: SimdDouble, b: SimdDouble)
    ensures NeD(fpu, a, b).Canonical()
    ensures NeD(fpu, a, b).LaneTrue(0) <==> fpu.cmpgt(a.simdInternal.d0, b.simdInternal.d0) || fpu.cmplt(a.simdInternal.d0, b.simdInternal.d0)
    ensures NeD(fpu, a, b).LaneTrue(1) <==> fpu.cmpgt(a.simdInternal.d1, b.simdInternal.d1) || fpu.cmplt(a.simdInternal.d1, b.simdInternal.d1)
  {
    var p0 := fpu.cmpgt(a.simdInternal.d0, b.simdInternal.d0);
    var q0 := fpu.cmplt(a.simdInternal.d0, b.simdInternal.d0);
    var p1 := fpu.cmpgt(a.simdInternal.d1, b.simdInternal.d1);
    var q1 := fpu.cmplt(a.simdInternal.d1, b.simdInternal.d1);
    OrOfCompares(p0, q0);
    OrOfCompares(p1, q1);
    CompareLaneMeaning(p0 || q0);
    CompareLaneMeaning(p1 || q1);
  }

  /** operator< (vec_cmplt) */
  function LtD(fpu: Fpu, a: SimdDouble, b: SimdDouble): (r: SimdDBool)
    ensures r.Canonical()
    ensures r.LaneTrue(0) <==> fpu.cmplt(a.simdInternal.d0, b.simdInternal.d0)
    ensures r.LaneTrue(1) <==> fpu.cmplt(a.simdInternal.d1, b.simdInternal.d1)
  {
    SimdDBool(Compare2(fpu.cmplt, a.simdInternal, b.simdInternal))
  }

  /** operator<= (vec_cmple) */
  function LeD(fpu: Fpu, a: SimdDouble, b: SimdDouble): (r: SimdDBool)
    ensures r.Canonical()
    ensures r.LaneTrue(0) <==> fpu.cmple(a.simdInternal.d0, b.simdInternal.d0)
    ensures r.LaneTrue(1) <==> fpu.cmple(a.simdInternal.d1, b.simdInternal.d1)
  {
    SimdDBool(Compare2(fpu.cmple, a.simdInternal, b.simdInternal))
  }

  /** Exactly one of "equal", "greater" and "less" holds for an ordered pair. */
  predicate Ordered(fpu: Fpu, x: bv64, y: bv64) {
    (fpu.cmpeq(x, y) && !fpu.cmpgt(x, y) && !fpu.cmplt(x, y))
    || (!fpu.cmpeq(x, y) && fpu.cmpgt(x, y) && !fpu.cmplt(x, y))
    || (!fpu.cmpeq(x, y) && !fpu.cmpgt(x, y) && fpu.cmplt(x, y))
  }

  /** On an ordered lane `!=` is the negation of `==`. */
  lemma NeIsNotEq(fpu: Fpu, a: SimdDouble, b: SimdDouble, k: nat)
    requires k < 2
    requires Ordered(fpu, a.simdInternal.Lane(k), b.simdInternal.Lane(k))
    ensures NeD(fpu, a, b).LaneTrue(k) <==> !EqD(fpu, a, b).LaneTrue(k)
  {
    NeDLanes(fpu, a, b);
    if k == 0 {
      assert Ordered(fpu, a.simdInternal.d0, b.simdInternal.d0);
    } else {
      assert Ordered(fpu, a.simdInternal.d1, b.simdInternal.d1);
    }
  }

  /** On an unordered lane (neither equal, greater nor less, as with a NaN)
      `!=` and `==` are both false. */
  lemma NeOnUnorderedLane(fpu: Fpu, a: SimdDouble, b: SimdDouble, k: nat)
    requires k < 2
    requires !fpu.cmpeq(a.simdInternal.Lane(k), b.simdInternal.Lane(k))
    requires !fpu.cmpgt(a.simdInternal.Lane(k), b.simdInternal.Lane(k))
    requires !fpu.cmplt(a.simdInternal.Lane(k), b.simdInternal.Lane(k))
    ensures !NeD(fpu, a, b).LaneTrue(k) && !EqD(fpu, a, b).LaneTrue(k)
  {
    NeDLanes(fpu, a, b);
  }

  // ---------------------------------------------------------------------
  // testBits on SimdDouble

  /** testBits with POWER8 vector instructions: the lanes compared as
      unsigned 64-bit integers with zero, so a lane is true iff any bit is set. */
  function TestBitsD(a: SimdDouble): (r: SimdDBool)
    ensures r.Canonical()
  {
    CompareLaneMeaning(a.simdInternal.d0 > 0);
    CompareLaneMeaning(a.simdInternal.d1 > 0);
    SimdDBool(CmpGtU2(a.simdInternal, Splats2(0)))
  }

  /** A lane of testBits is true iff some bit of it is set. */
  lemma TestBitsDLanes(a: SimdDouble)
    ensures TestBitsD(a).LaneTrue(0) <==> a.simdInternal.d0 != 0
    ensures TestBitsD(a).LaneTrue(1) <==> a.simdInternal.d1 != 0
  {
    PositiveIsNonzero64(a.simdInternal.d0);
    PositiveIsNonzero64(a.simdInternal.d1);
    CompareLaneMeaning(a.simdInternal.d0 > 0);
    CompareLaneMeaning(a.simdInternal.d1 > 0);
  }

  /** testBits without POWER8: NOT of a floating-point compare with 0.0. */
  function TestBitsDByCompare(fpu: Fpu, a: SimdDouble): (r: SimdDBool)
    ensures r.Canonical()
    ensures r.LaneTrue(0) <==> !fpu.cmpeq(a.simdInternal.d0, 0)
    ensures r.LaneTrue(1) <==> !fpu.cmpeq(a.simdInternal.d1, 0)
  {
    var p0 := fpu.cmpeq(a.simdInternal.d0, 0);
    var p1 := fpu.cmpeq(a.simdInternal.d1, 0);
    var eq := Compare2(fpu.cmpeq, a.simdInternal, Splats2(0));
    HalvesOfCompare(p0);
    HalvesOfCompare(p1);
    HalvesOfCompare(!p0);
    HalvesOfCompare(!p1);
    NorZeroOfCompare(p0);
    NorZeroOfCompare(p1);
    SimdDBool(AsLanes(Nor4(AsWords(eq), Splats4(0))))
  }

  /** The two branches disagree on -0.0: its sign bit is set, so the POWER8
      test is true, while a unit that compares -0.0 equal to +0.0 (as IEEE
      754 requires) makes the other branch false. */
  lemma TestBitsOfNegativeZero(fpu: Fpu)
    requires fpu.cmpeq(SIGN_MASK, 0)
    ensures TestBitsD(SplatD(SIGN_MASK)).LaneTrue(0)
    ensures !TestBitsDByCompare(fpu, SplatD(SIGN_MASK)).LaneTrue(0)
  {
    TestBitsDLanes(SplatD(SIGN_MASK));
  }

  // ---------------------------------------------------------------------
  // SimdDBool operators

  /** operator&& on SimdDBool: AND through the word view, which is AND of
      the lanes; on canonical masks it is lane-wise conjunction. */
  function AndB(a: SimdDBool, b: SimdDBool): (r: SimdDBool)
    ensures r.simdInternal == And2(a.simdInternal, b.simdInternal)
  {
    AndViaWords(a.simdInternal, b.simdInternal);
    SimdDBool(AsLanes(And4(AsWords(a.simdInternal), AsWords(b.simdInternal))))
  }

  /** On canonical masks the result is canonical and lane-wise conjunction. */
  lemma AndBOfMasks(a: SimdDBool, b: SimdDBool)
    requires a.Canonical() && b.Canonical()
    ensures AndB(a, b).Canonical()
    ensures AndB(a, b).LaneTrue(0) <==> a.LaneTrue(0) && b.LaneTrue(0)
    ensures AndB(a, b).LaneTrue(1) <==> a.LaneTrue(1) && b.LaneTrue(1)
  {
    CanonicalLanes(a);
    CanonicalLanes(b);
    AndOfCompares(a.LaneTrue(0), b.LaneTrue(0));
    AndOfCompares(a.LaneTrue(1), b.LaneTrue(1));
  }

  /** operator|| on SimdDBool: OR through the word view. */
  function OrB(a: SimdDBool, b: SimdDBool): (r: SimdDBool)
    ensures r.simdInternal == Or2(a.simdInternal, b.simdInternal)
  {
    OrViaWords(a.simdInternal, b.simdInternal);
    SimdDBool(AsLanes(Or4(AsWords(a.simdInternal), AsWords(b.simdInternal))))
  }

  /** On canonical masks the result is canonical and lane-wise disjunction. */
  lemma OrBOfMasks(a: SimdDBool, b: SimdDBool)
    requires a.Canonical() && b.Canonical()
    ensures OrB(a, b).Canonical()
    ensures OrB(a, b).LaneTrue(0) <==> a.LaneTrue(0) || b.LaneTrue(0)
    ensures OrB(a, b).LaneTrue(1) <==> a.LaneTrue(1) || b.LaneTrue(1)
  {
    CanonicalLanes(a);
    CanonicalLanes(b);
    OrOfCompares(a.LaneTrue(0), b.LaneTrue(0));
    OrOfCompares(a.LaneTrue(1), b.LaneTrue(1));
  }

  /** anyTrue: some 32-bit word differs from zero, which is some lane being
      nonzero; on a canonical mask, some lane being true. */
  function AnyTrueD(a: SimdDBool): (r: bool)
    ensures r <==> a.simdInternal.d0 != 0 || a.simdInternal.d1 != 0
    ensures a.Canonical() ==> (r <==> a.LaneTrue(0) || a.LaneTrue(1))
  {
    NonzeroHalves(a.simdInternal.d0);
    NonzeroHalves(a.simdInternal.d1);
    AnyNe4(AsWords(a.simdInternal), Splats4(0))
  }

  lemma AnyTrueOfConstant()
    ensures !AnyTrueD(DBoolOf(false))
    ensures AnyTrueD(DBoolOf(true))
  {
  }

  // ---------------------------------------------------------------------
  // Selection on SimdDouble

  /** selectByMask: `a` where the mask is true, +0.0 (all zeros) elsewhere. */
  function SelectByMaskD(a: SimdDouble, m: SimdDBool): (r: SimdDouble)
    ensures m.simdInternal.d0 == ALL_ONES_64 ==> r.simdInternal.d0 == a.simdInternal.d0
    ensures m.simdInternal.d1 == ALL_ONES_64 ==> r.simdInternal.d1 == a.simdInternal.d1
    ensures m.simdInternal.d0 == 0 ==> r.simdInternal.d0 == 0
    ensures m.simdInternal.d1 == 0 ==> r.simdInternal.d1 == 0
  {
    AndWithMask64(a.simdInternal.d0, m.simdInternal.d0);
    AndWithMask64(a.simdInternal.d1, m.simdInternal.d1);
    SimdDouble(And2(a.simdInternal, m.simdInternal))
  }

  /** selectByNotMask: `a` where the mask is false, all zeros elsewhere. */
  function SelectByNotMaskD(a: SimdDouble, m: SimdDBool): (r: SimdDouble)
    ensures m.simdInternal.d0 == ALL_ONES_64 ==> r.simdInternal.d0 == 0
    ensures m.simdInternal.d1 == ALL_ONES_64 ==> r.simdInternal.d1 == 0
    ensures m.simdInternal.d0 == 0 ==> r.simdInternal.d0 == a.simdInternal.d0
    ensures m.simdInternal.d1 == 0 ==> r.simdInternal.d1 == a.simdInternal.d1
  {
    AndcWithMask64(a.simdInternal.d0, m.simdInternal.d0);
    AndcWithMask64(a.simdInternal.d1, m.simdInternal.d1);
    SimdDouble(Andc2(a.simdInternal, m.simdInternal))
  }

  lemma MaskSplits64(x: bv64, m: bv64)
    ensures Or64(And64(x, m), Andc64(x, m)) == x
  {
  }

  lemma MaskSeparates64(x: bv64, m: bv64)
    ensures And64(And64(x, m), Andc64(x, m)) == 0
  {
  }

  /** For any mask, canonical or not, the two selections split `a`: their OR
      is `a` ... */
  lemma SelectionsJoin(a: SimdDouble, m: SimdDBool)
    ensures OrD(SelectByMaskD(a, m), SelectByNotMaskD(a, m)) == a
  {
    MaskSplits64(a.simdInternal.d0, m.simdInternal.d0);
    MaskSplits64(a.simdInternal.d1, m.simdInternal.d1);
  }

  /** ... and they share no set bit. */
  lemma SelectionsAreDisjoint(a: SimdDouble, m: SimdDBool)
    ensures AndD(SelectByMaskD(a, m), SelectByNotMaskD(a, m)) == SplatD(0)
  {
    MaskSeparates64(a.simdInternal.d0, m.simdInternal.d0);
    MaskSeparates64(a.simdInternal.d1, m.simdInternal.d1);
  }

  /** blend (vec_sel): a true lane of `sel` takes `b`, a false lane `a`. */
  function BlendD(a: SimdDouble, b: SimdDouble, sel: SimdDBool): (r: SimdDouble)
    ensures sel.simdInternal.d0 == ALL_ONES_64 ==> r.simdInternal.d0 == b.simdInternal.d0
    ensures sel.simdInternal.d1 == ALL_ONES_64 ==> r.simdInternal.d1 == b.simdInternal.d1
    ensures sel.simdInternal.d0 == 0 ==> r.simdInternal.d0 == a.simdInternal.d0
    ensures sel.simdInternal.d1 == 0 ==> r.simdInternal.d1 == a.simdInternal.d1
  {
    SelWithMask64(a.simdInternal.d0, b.simdInternal.d0, sel.simdInternal.d0);
    SelWithMask64(a.simdInternal.d1, b.simdInternal.d1, sel.simdInternal.d1);
    SimdDouble(Sel2(a.simdInternal, b.simdInternal, sel.simdInternal))
  }

  /** Bit for bit, blend is selectByNotMask of `a` OR selectByMask of `b`. */
  lemma BlendIsSelections(a: SimdDouble, b: SimdDouble, sel: SimdDBool)
    ensures BlendD(a, b, sel) == OrD(SelectByNotMaskD(a, sel), SelectByMaskD(b, sel))
  {
  }

  lemma BlendByConstant(a: SimdDouble, b: SimdDouble)
    ensures BlendD(a, b, DBoolOf(true)) == b
    ensures BlendD(a, b, DBoolOf(false)) == a
  {
  }

  // ---------------------------------------------------------------------
  // SimdDInt32 comparisons and SimdDIBool operators

  /** operator== on SimdDInt32: word-wise equality of the bits. */
  function EqDI(a: SimdDInt32, b: SimdDInt32): (r: SimdDIBool)
    ensures r.Canonical()
    ensures a.PairLayout() && b.PairLayout() ==> r.PairLayout()
    ensures r.WordTrue(0) <==> a.simdInternal.e0 == b.simdInternal.e0
    ensures r.WordTrue(2) <==> a.simdInternal.e2 == b.simdInternal.e2
  {
    SimdDIBool(CmpEq4(a.simdInternal, b.simdInternal))
  }

  /** testBits on SimdDInt32: the words compared as unsigned with zero. */
  function TestBitsDI(a: SimdDInt32): (r: SimdDIBool)
    ensures r.Canonical()
    ensures a.PairLayout() ==> r.PairLayout()
    ensures r.WordTrue(0) <==> a.simdInternal.e0 != 0
    ensures r.WordTrue(2) <==> a.simdInternal.e2 != 0
  {
    CompareWordMeaning(a.simdInternal.e0 > 0);
    CompareWordMeaning(a.simdInternal.e1 > 0);
    CompareWordMeaning(a.simdInternal.e2 > 0);
    CompareWordMeaning(a.simdInternal.e3 > 0);
    PositiveIsNonzero32(a.simdInternal.e0);
    PositiveIsNonzero32(a.simdInternal.e2);
    SimdDIBool(CmpGtU4(a.simdInternal, Splats4(0)))
  }

  /** operator< on SimdDInt32: a signed comparison of the words. */
  function LtDI(a: SimdDInt32, b: SimdDInt32): (r: SimdDIBool)
    ensures r.Canonical()
    ensures a.PairLayout() && b.PairLayout() ==> r.PairLayout()
  {
    CompareWordMeaning(Signed(a.simdInternal.e0) < Signed(b.simdInternal.e0));
    CompareWordMeaning(Signed(a.simdInternal.e1) < Signed(b.simdInternal.e1));
    CompareWordMeaning(Signed(a.simdInternal.e2) < Signed(b.simdInternal.e2));
    CompareWordMeaning(Signed(a.simdInternal.e3) < Signed(b.simdInternal.e3));
    SimdDIBool(CmpLtS4(a.simdInternal, b.simdInternal))
  }

  /** A data word is true iff the first operand is less, read as two's complement. */
  lemma LtDIWords(a: SimdDInt32, b: SimdDInt32)
    ensures LtDI(a, b).WordTrue(0) <==> Signed(a.simdInternal.e0) < Signed(b.simdInternal.e0)
    ensures LtDI(a, b).WordTrue(2) <==> Signed(a.simdInternal.e2) < Signed(b.simdInternal.e2)
  {
    CompareWordMeaning(Signed(a.simdInternal.e0) < Signed(b.simdInternal.e0));
    CompareWordMeaning(Signed(a.simdInternal.e2) < Signed(b.simdInternal.e2));
  }

  /** The comparison is signed: -1 is less than 0 although its bits, read
      unsigned, are the largest word. */
  lemma LtIsSigned()
    ensures LtDI(SplatDI(0xFFFF_FFFF), SplatDI(0)).WordTrue(0)
    ensures !LtDI(SplatDI(0), SplatDI(0xFFFF_FFFF)).WordTrue(0)
  {
  }

  /** operator&& on SimdDIBool */
  function AndIB(a: SimdDIBool, b: SimdDIBool): (r: SimdDIBool)
    ensures a.PairLayout() && b.PairLayout() ==> r.PairLayout()
  {
    SimdDIBool(And4(a.simdInternal, b.simdInternal))
  }

  /** On canonical masks the result is canonical and word-wise conjunction. */
  lemma AndIBOfMasks(a: SimdDIBool, b: SimdDIBool)
    requires a.Canonical() && b.Canonical()
    ensures AndIB(a, b).Canonical()
    ensures AndIB(a, b).WordTrue(0) <==> a.WordTrue(0) && b.WordTrue(0)
    ensures AndIB(a, b).WordTrue(2) <==> a.WordTrue(2) && b.WordTrue(2)
  {
    CanonicalWords(a);
    CanonicalWords(b);
    AndOfCompareWords(a.WordTrue(0), b.WordTrue(0));
    AndOfCompareWords(a.WordTrue(1), b.WordTrue(1));
    AndOfCompareWords(a.WordTrue(2), b.WordTrue(2));
    AndOfCompareWords(a.WordTrue(3), b.WordTrue(3));
  }

  /** operator|| on SimdDIBool */
  function OrIB(a: SimdDIBool, b: SimdDIBool): (r: SimdDIBool)
    ensures a.PairLayout() && b.PairLayout() ==> r.PairLayout()
  {
    SimdDIBool(Or4(a.simdInternal, b.simdInternal))
  }

  /** On canonical masks the result is canonical and word-wise disjunction. */
  lemma OrIBOfMasks(a: SimdDIBool, b: SimdDIBool)
    requires a.Canonical() && b.Canonical()
    ensures OrIB(a, b).Canonical()
    ensures OrIB(a, b).WordTrue(0) <==> a.WordTrue(0) || b.WordTrue(0)
    ensures OrIB(a, b).WordTrue(2) <==> a.WordTrue(2) || b.WordTrue(2)
  {
    CanonicalWords(a);
    CanonicalWords(b);
    OrOfCompareWords(a.WordTrue(0), b.WordTrue(0));
    OrOfCompareWords(a.WordTrue(1), b.WordTrue(1));
    OrOfCompareWords(a.WordTrue(2), b.WordTrue(2));
    OrOfCompareWords(a.WordTrue(3), b.WordTrue(3));
  }

  /** anyTrue on SimdDIBool: some word is nonzero; for a canonical mask in
      the pair layout, some data word is true. */
  function AnyTrueDI(a: SimdDIBool): (r: bool)
    ensures r <==> a.simdInternal.e0 != 0 || a.simdInternal.e1 != 0 || a.simdInternal.e2 != 0 || a.simdInternal.e3 != 0
    ensures a.Canonical() && a.PairLayout() ==> (r <==> a.WordTrue(0) || a.WordTrue(2))
  {
    AnyNe4(a.simdInternal, Splats4(0))
  }

  lemma AnyTrueOfConstantDI()
    ensures !AnyTrueDI(DIBoolOf(false))
    ensures AnyTrueDI(DIBoolOf(true))
  {
  }

  /** selectByMask on SimdDInt32 */
  function SelectByMaskDI(a: SimdDInt32, m: SimdDIBool): (r: SimdDInt32)
    ensures a.PairLayout() && m.PairLayout() ==> r.PairLayout()
    ensures m.simdInternal.e0 == ALL_ONES_32 ==> r.simdInternal.e0 == a.simdInternal.e0
    ensures m.simdInternal.e2 == ALL_ONES_32 ==> r.simdInternal.e2 == a.simdInternal.e2
    ensures m.simdInternal.e0 == 0 ==> r.simdInternal.e0 == 0
    ensures m.simdInternal.e2 == 0 ==> r.simdInternal.e2 == 0
  {
    AndWithMask32(a.simdInternal.e0, m.simdInternal.e0);
    AndWithMask32(a.simdInternal.e2, m.simdInternal.e2);
    SimdDInt32(And4(a.simdInternal, m.simdInternal))
  }

  /** selectByNotMask on SimdDInt32 */
  function SelectByNotMaskDI(a: SimdDInt32, m: SimdDIBool): (r: SimdDInt32)
    ensures a.PairLayout() && m.PairLayout() ==> r.PairLayout()
    ensures m.simdInternal.e0 == ALL_ONES_32 ==> r.simdInternal.e0 == 0
    ensures m.simdInternal.e2 == ALL_ONES_32 ==> r.simdInternal.e2 == 0
    ensures m.simdInternal.e0 == 0 ==> r.simdInternal.e0 == a.simdInternal.e0
    ensures m.simdInternal.e2 == 0 ==> r.simdInternal.e2 == a.simdInternal.e2
  {
    AndcWithMask32(a.simdInternal.e0, m.simdInternal.e0);
    AndcWithMask32(a.simdInternal.e2, m.simdInternal.e2);
    SimdDInt32(Andc4(a.simdInternal, m.simdInternal))
  }

  /** blend on SimdDInt32: a true word of `sel` takes `b`, a false word `a`. */
  function BlendDI(a: SimdDInt32, b: SimdDInt32, sel: SimdDIBool): (r: SimdDInt32)
    ensures a.PairLayout() && b.PairLayout() && sel.PairLayout() ==> r.PairLayout()
    ensures sel.simdInternal.e0 == ALL_ONES_32 ==> r.simdInternal.e0 == b.simdInternal.e0
    ensures sel.simdInternal.e2 == ALL_ONES_32 ==> r.simdInternal.e2 == b.simdInternal.e2
    ensures sel.simdInternal.e0 == 0 ==> r.simdInternal.e0 == a.simdInternal.e0
    ensures sel.simdInternal.e2 == 0 ==> r.simdInternal.e2 == a.simdInternal.e2
  {
    SelWithMask32(a.simdInternal.e0, b.simdInternal.e0, sel.simdInternal.e0);
    SelWithMask32(a.simdInternal.e2, b.simdInternal.e2, sel.simdInternal.e2);
    SimdDInt32(Sel4(a.simdInternal, b.simdInternal, sel.simdInternal))
  }

  // ---------------------------------------------------------------------
  // Reinterpreting masks between the two widths

  /** cvtB2IB: the same bits read as words. A canonical lane mask becomes a
      canonical word mask in the pair layout, lane k in words 2k and 2k + 1. */
  function CvtB2IB(a: SimdDBool): (r: SimdDIBool)
    ensures a.Canonical() ==> r.Canonical() && r.PairLayout()
    ensures a.Canonical() ==> (r.WordTrue(0) <==> a.LaneTrue(0)) && (r.WordTrue(2) <==> a.LaneTrue(1))
  {
    CanonicalLanes(a);
    HalvesOfCompare(a.LaneTrue(0));
    HalvesOfCompare(a.LaneTrue(1));
    SimdDIBool(AsWords(a.simdInternal))
  }

  /** cvtIB2B: the same bits read as lanes. A canonical word mask in the pair
      layout becomes a canonical lane mask. */
  function CvtIB2B(a: SimdDIBool): (r: SimdDBool)
    ensures a.Canonical() && a.PairLayout() ==> r.Canonical()
    ensures a.Canonical() && a.PairLayout() ==> (r.LaneTrue(0) <==> a.WordTrue(0)) && (r.LaneTrue(1) <==> a.WordTrue(2))
  {
    CanonicalWords(a);
    HalvesOfCompare(a.WordTrue(0));
    HalvesOfCompare(a.WordTrue(2));
    SimdDBool(AsLanes(a.simdInternal))
  }

  /** The two reinterpretations undo each other. */
  lemma MaskWidthRoundTrip(a: SimdDBool)
    ensures CvtIB2B(CvtB2IB(a)) == a
  {
    LanesOfWords(a.simdInternal);
  }

  lemma MaskWidthRoundTripDI(a: SimdDIBool)
    ensures CvtB2IB(CvtIB2B(a)) == a
  {
    WordsOfLanes(a.simdInternal);
  }

  /** Without the pair layout the lane view is not a mask: a word mask true
      only in word 0 reads as a lane holding 2^32 - 1. */
  lemma CvtIB2BNeedsPairLayout()
    ensures SimdDIBool(Vec4x32(ALL_ONES_32, 0, 0, 0)).Canonical()
    ensures !CvtIB2B(SimdDIBool(Vec4x32(ALL_ONES_32, 0, 0, 0))).Canonical()
  {
  }
}
