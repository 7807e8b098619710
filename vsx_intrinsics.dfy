/** The 128-bit VSX register and the AltiVec/VSX intrinsics the double
    precision backend is written with, at the level of bits.

    The model follows the little-endian (ppc64le) element order that the
    comments of the backend use: in a register read as four 32-bit words
    e0..e3 and as two 64-bit lanes d0, d1, lane k occupies words 2k (low
    half) and 2k+1 (high half). Permutation tables are given per 32-bit word
    (the byte index of the table divided by four), which is how every table
    in the backend moves data.

    Floating-point instructions are not modelled numerically: they are the
    fields of an `Fpu` value that every floating-point operation takes as a
    parameter. */
module VsxIntrinsics {

  /** A register read as two 64-bit lanes (`__vector double`, `__vector bool long long`). */
  datatype Vec2x64 = Vec2x64(d0: bv64, d1: bv64) {
    function Lane(k: nat): bv64
      requires k < 2
    {
      if k == 0 then d0 else d1
    }
  }

  /** A register read as four 32-bit words (`__vector signed int`, `__vector float`, `__vector bool int`). */
  datatype Vec4x32 = Vec4x32(e0: bv32, e1: bv32, e2: bv32, e3: bv32) {
    function Elem(i: nat): bv32
      requires i < 4
    {
      match i
      case 0 => e0
      case 1 => e1
      case 2 => e2
      case _ => e3
    }
  }

  const ALL_ONES_64: bv64 := 0xFFFF_FFFF_FFFF_FFFF
  const ALL_ONES_32: bv32 := 0xFFFF_FFFF

  // ---------------------------------------------------------------------
  // Halves of a 64-bit lane and reinterpret_cast between the two views

  function Lo(x: bv64): bv32 {
    (x & 0xFFFF_FFFF) as bv32
  }

  function Hi(x: bv64): bv32 {
    (x >> 32) as bv32
  }

  /** The 64-bit lane whose low half is `lo` and whose high half is `hi`. */
  function Join(lo: bv32, hi: bv32): (x: bv64)
  {
    ((hi as bv64) << 32) | (lo as bv64)
  }

  /** A lane is the join of its halves. */
  lemma JoinHalves(x: bv64)
    ensures Join(Lo(x), Hi(x)) == x
  {
  }

  /** The halves of a join are the words joined. */
  lemma HalvesOfJoin(lo: bv32, hi: bv32)
    ensures Lo(Join(lo, hi)) == lo && Hi(Join(lo, hi)) == hi
  {
  }

  /** reinterpret_cast of a doubleword register to a word register. */
  function AsWords(v: Vec2x64): (w: Vec4x32)
  {
    Vec4x32(Lo(v.d0), Hi(v.d0), Lo(v.d1), Hi(v.d1))
  }

  /** reinterpret_cast of a word register to a doubleword register. */
  function AsLanes(w: Vec4x32): (v: Vec2x64)
  {
    Vec2x64(Join(w.e0, w.e1), Join(w.e2, w.e3))
  }

  /** Reinterpreting in either direction and back is the identity. */
  lemma LanesOfWords(v: Vec2x64)
    ensures AsLanes(AsWords(v)) == v
  {
    JoinHalves(v.d0);
    JoinHalves(v.d1);
  }

  lemma WordsOfLanes(w: Vec4x32)
    ensures AsWords(AsLanes(w)) == w
  {
    HalvesOfJoin(w.e0, w.e1);
    HalvesOfJoin(w.e2, w.e3);
  }

  // ---------------------------------------------------------------------
  // One lane or word of each intrinsic. Registers apply these element by
  // element, so that a fact about one element carries over to a register
  // by congruence.

  function And64(x: bv64, y: bv64): bv64 { x & y }
  function Andc64(x: bv64, y: bv64): bv64 { x & !y }
  function Or64(x: bv64, y: bv64): bv64 { x | y }
  function Xor64(x: bv64, y: bv64): bv64 { x ^ y }

  function And32(x: bv32, y: bv32): bv32 { x & y }
  function Andc32(x: bv32, y: bv32): bv32 { x & !y }
  function Or32(x: bv32, y: bv32): bv32 { x | y }
  function Xor32(x: bv32, y: bv32): bv32 { x ^ y }
  function Nor32(x: bv32, y: bv32): bv32 { !(x | y) }
  /** Addition modulo 2^32. */
  function Add32(x: bv32, y: bv32): bv32 { x + y }
  /** Subtraction modulo 2^32. */
  function Sub32(x: bv32, y: bv32): bv32 { x - y }
  /** The low 32 bits of the product. */
  function Mul32(x: bv32, y: bv32): bv32 { x * y }

  /** The shift distance a word shift takes from its count word: the low five bits. */
  function ShiftCount(c: bv32): (n: bv32)
    ensures n < 32
  {
    c & 31
  }

  /** vec_sl on one word */
  function Shl32(x: bv32, c: bv32): bv32 { x << ShiftCount(c) }

  /** vec_sr on one word: zeros are shifted in */
  function Shr32(x: bv32, c: bv32): bv32 { x >> ShiftCount(c) }

  // ---------------------------------------------------------------------
  // Bitwise intrinsics on the doubleword view

  function Splats2(x: bv64): Vec2x64 {
    Vec2x64(x, x)
  }

  /** vec_and */
  function And2(a: Vec2x64, b: Vec2x64): Vec2x64 {
    Vec2x64(And64(a.d0, b.d0), And64(a.d1, b.d1))
  }

  /** vec_andc: the bits of `a` that are clear in `b` */
  function Andc2(a: Vec2x64, b: Vec2x64): Vec2x64 {
    Vec2x64(Andc64(a.d0, b.d0), Andc64(a.d1, b.d1))
  }

  /** vec_or */
  function Or2(a: Vec2x64, b: Vec2x64): Vec2x64 {
    Vec2x64(Or64(a.d0, b.d0), Or64(a.d1, b.d1))
  }

  /** vec_xor */
  function Xor2(a: Vec2x64, b: Vec2x64): Vec2x64 {
    Vec2x64(Xor64(a.d0, b.d0), Xor64(a.d1, b.d1))
  }

  /** vec_sel: each bit from `b` where the bit of `m` is set, otherwise from `a` */
  function Sel2(a: Vec2x64, b: Vec2x64, m: Vec2x64): Vec2x64 {
    Or2(Andc2(a, m), And2(b, m))
  }

  /** vec_perm with the table { 8..15, 0..7 }: the two doublewords exchanged */
  function SwapLanes(a: Vec2x64): Vec2x64 {
    Vec2x64(a.d1, a.d0)
  }

  /** The all-ones or all-zeros lane a vector compare produces. */
  function CompareLane64(b: bool): bv64 {
    if b then ALL_ONES_64 else 0
  }

  // ---------------------------------------------------------------------
  // Intrinsics on the word view

  function Splats4(x: bv32): Vec4x32 {
    Vec4x32(x, x, x, x)
  }

  function And4(a: Vec4x32, b: Vec4x32): Vec4x32 {
    Vec4x32(And32(a.e0, b.e0), And32(a.e1, b.e1), And32(a.e2, b.e2), And32(a.e3, b.e3))
  }

  function Andc4(a: Vec4x32, b: Vec4x32): Vec4x32 {
    Vec4x32(Andc32(a.e0, b.e0), Andc32(a.e1, b.e1), Andc32(a.e2, b.e2), Andc32(a.e3, b.e3))
  }

  function Or4(a: Vec4x32, b: Vec4x32): Vec4x32 {
    Vec4x32(Or32(a.e0, b.e0), Or32(a.e1, b.e1), Or32(a.e2, b.e2), Or32(a.e3, b.e3))
  }

  function Xor4(a: Vec4x32, b: Vec4x32): Vec4x32 {
    Vec4x32(Xor32(a.e0, b.e0), Xor32(a.e1, b.e1), Xor32(a.e2, b.e2), Xor32(a.e3, b.e3))
  }

  function Sel4(a: Vec4x32, b: Vec4x32, m: Vec4x32): Vec4x32 {
    Or4(Andc4(a, m), And4(b, m))
  }

  /** vec_add on words: addition modulo 2^32 */
  function Add4(a: Vec4x32, b: Vec4x32): Vec4x32 {
    Vec4x32(Add32(a.e0, b.e0), Add32(a.e1, b.e1), Add32(a.e2, b.e2), Add32(a.e3, b.e3))
  }

  /** vec_sub on words: subtraction modulo 2^32 */
  function Sub4(a: Vec4x32, b: Vec4x32): Vec4x32 {
    Vec4x32(Sub32(a.e0, b.e0), Sub32(a.e1, b.e1), Sub32(a.e2, b.e2), Sub32(a.e3, b.e3))
  }

  /** `*` on `__vector signed int`: the low 32 bits of each product */
  function Mul4(a: Vec4x32, b: Vec4x32): Vec4x32 {
    Vec4x32(Mul32(a.e0, b.e0), Mul32(a.e1, b.e1), Mul32(a.e2, b.e2), Mul32(a.e3, b.e3))
  }

  /** vec_sl: each word shifted left by the low five bits of its count word */
  function Sl4(a: Vec4x32, c: Vec4x32): Vec4x32 {
    Vec4x32(Shl32(a.e0, c.e0), Shl32(a.e1, c.e1), Shl32(a.e2, c.e2), Shl32(a.e3, c.e3))
  }

  /** vec_sr: each word shifted right, filling with zeros, by the low five bits of its count word */
  function Sr4(a: Vec4x32, c: Vec4x32): Vec4x32 {
    Vec4x32(Shr32(a.e0, c.e0), Shr32(a.e1, c.e1), Shr32(a.e2, c.e2), Shr32(a.e3, c.e3))
  }

  /** Word `i` of the eight-word concatenation of `a` and `b`. */
  function Pick(a: Vec4x32, b: Vec4x32, i: nat): bv32
    requires i < 8
  {
    if i < 4 then a.Elem(i) else b.Elem(i - 4)
  }

  /** vec_perm with a table that moves whole words: result word j is word sj of `a` ++ `b`. */
  function Perm4(a: Vec4x32, b: Vec4x32, s0: nat, s1: nat, s2: nat, s3: nat): Vec4x32
    requires s0 < 8 && s1 < 8 && s2 < 8 && s3 < 8
  {
    Vec4x32(Pick(a, b, s0), Pick(a, b, s1), Pick(a, b, s2), Pick(a, b, s3))
  }

  /** vec_mergeh: the first halves interleaved, [a0, b0, a1, b1] */
  function MergeH4(a: Vec4x32, b: Vec4x32): Vec4x32 {
    Vec4x32(a.e0, b.e0, a.e1, b.e1)
  }

  /** vec_mergel: the second halves interleaved, [a2, b2, a3, b3] */
  function MergeL4(a: Vec4x32, b: Vec4x32): Vec4x32 {
    Vec4x32(a.e2, b.e2, a.e3, b.e3)
  }

  /** vec_extract on words: the element index is taken modulo four (the
      hardware keeps its low two bits, which for a negative index is the
      Euclidean remainder). */
  function VecExtract4(w: Vec4x32, i: int): bv32 {
    w.Elem(i % 4)
  }

  /** vec_any_ne */
  predicate AnyNe4(a: Vec4x32, b: Vec4x32) {
    a.e0 != b.e0 || a.e1 != b.e1 || a.e2 != b.e2 || a.e3 != b.e3
  }

  /** The all-ones or all-zeros word a vector compare produces. */
  function CompareWord(b: bool): bv32 {
    if b then ALL_ONES_32 else 0
  }

  /** vec_cmpgt on `__vector unsigned long long` */
  function CmpGtU2(a: Vec2x64, b: Vec2x64): Vec2x64 {
    Vec2x64(CompareLane64(a.d0 > b.d0), CompareLane64(a.d1 > b.d1))
  }

  /** vec_cmpeq on words */
  function CmpEq4(a: Vec4x32, b: Vec4x32): Vec4x32 {
    Vec4x32(CompareWord(a.e0 == b.e0), CompareWord(a.e1 == b.e1),
            CompareWord(a.e2 == b.e2), CompareWord(a.e3 == b.e3))
  }

  /** vec_cmplt on `__vector signed int`: a signed comparison */
  function CmpLtS4(a: Vec4x32, b: Vec4x32): Vec4x32 {
    Vec4x32(CompareWord(Signed(a.e0) < Signed(b.e0)), CompareWord(Signed(a.e1) < Signed(b.e1)),
            CompareWord(Signed(a.e2) < Signed(b.e2)), CompareWord(Signed(a.e3) < Signed(b.e3)))
  }

  /** vec_cmpgt on `__vector unsigned int`: an unsigned comparison */
  function CmpGtU4(a: Vec4x32, b: Vec4x32): Vec4x32 {
    Vec4x32(CompareWord(a.e0 > b.e0), CompareWord(a.e1 > b.e1),
            CompareWord(a.e2 > b.e2), CompareWord(a.e3 > b.e3))
  }

  /** vec_nor on words */
  function Nor4(a: Vec4x32, b: Vec4x32): Vec4x32 {
    Vec4x32(Nor32(a.e0, b.e0), Nor32(a.e1, b.e1), Nor32(a.e2, b.e2), Nor32(a.e3, b.e3))
  }

  /** Signed value of a word read as a two's-complement `int32_t`. */
  function Signed(w: bv32): int
  {
    if w < 0x8000_0000 then w as int else -((!w) as int) - 1
  }

  // ---------------------------------------------------------------------
  // Bitwise operations do not depend on the lane width

  /** ANDing with an all-ones lane keeps it; with a zero lane clears it. */
  lemma AndWithMask64(x: bv64, m: bv64)
    ensures m == ALL_ONES_64 ==> And64(x, m) == x
    ensures m == 0 ==> And64(x, m) == 0
  {
  }

  /** ANDing with the complement of an all-ones lane clears it; of a zero lane keeps it. */
  lemma AndcWithMask64(x: bv64, m: bv64)
    ensures m == ALL_ONES_64 ==> Andc64(x, m) == 0
    ensures m == 0 ==> Andc64(x, m) == x
  {
  }

  /** vec_sel by an all-ones lane picks the second operand, by a zero lane the first. */
  lemma SelWithMask64(x: bv64, y: bv64, m: bv64)
    ensures m == ALL_ONES_64 ==> Or64(Andc64(x, m), And64(y, m)) == y
    ensures m == 0 ==> Or64(Andc64(x, m), And64(y, m)) == x
  {
  }

  lemma AndWithMask32(x: bv32, m: bv32)
    ensures m == ALL_ONES_32 ==> And32(x, m) == x
    ensures m == 0 ==> And32(x, m) == 0
  {
  }

  lemma AndcWithMask32(x: bv32, m: bv32)
    ensures m == ALL_ONES_32 ==> Andc32(x, m) == 0
    ensures m == 0 ==> Andc32(x, m) == x
  {
  }

  lemma SelWithMask32(x: bv32, y: bv32, m: bv32)
    ensures m == ALL_ONES_32 ==> Or32(Andc32(x, m), And32(y, m)) == y
    ensures m == 0 ==> Or32(Andc32(x, m), And32(y, m)) == x
  {
  }

  lemma AndHalves(x: bv64, y: bv64)
    ensures Lo(And64(x, y)) == And32(Lo(x), Lo(y)) && Hi(And64(x, y)) == And32(Hi(x), Hi(y))
  {
  }

  lemma AndcHalves(x: bv64, y: bv64)
    ensures Lo(Andc64(x, y)) == Andc32(Lo(x), Lo(y)) && Hi(Andc64(x, y)) == Andc32(Hi(x), Hi(y))
  {
  }

  lemma OrHalves(x: bv64, y: bv64)
    ensures Lo(Or64(x, y)) == Or32(Lo(x), Lo(y)) && Hi(Or64(x, y)) == Or32(Hi(x), Hi(y))
  {
  }

  lemma AndIgnoresLaneWidth(a: Vec2x64, b: Vec2x64)
    ensures AsWords(And2(a, b)) == And4(AsWords(a), AsWords(b))
  {
    AndHalves(a.d0, b.d0);
    AndHalves(a.d1, b.d1);
  }

  lemma AndcIgnoresLaneWidth(a: Vec2x64, b: Vec2x64)
    ensures AsWords(Andc2(a, b)) == Andc4(AsWords(a), AsWords(b))
  {
    AndcHalves(a.d0, b.d0);
    AndcHalves(a.d1, b.d1);
  }

  lemma OrIgnoresLaneWidth(a: Vec2x64, b: Vec2x64)
    ensures AsWords(Or2(a, b)) == Or4(AsWords(a), AsWords(b))
  {
    OrHalves(a.d0, b.d0);
    OrHalves(a.d1, b.d1);
  }

  // ---------------------------------------------------------------------
  // The floating-point unit

  /** The floating-point instructions of the VSX unit on binary64 and
      binary32 bit patterns, named after the intrinsics that issue them.
      Their numeric behaviour is not part of this model. */
  datatype Fpu = Fpu(
    add: (bv64, bv64) -> bv64,            // vec_add
    sub: (bv64, bv64) -> bv64,            // vec_sub
    mul: (bv64, bv64) -> bv64,            // vec_mul
    neg: bv64 -> bv64,                    // unary minus
    madd: (bv64, bv64, bv64) -> bv64,     // vec_madd:  a*b+c
    msub: (bv64, bv64, bv64) -> bv64,     // vec_msub:  a*b-c
    nmsub: (bv64, bv64, bv64) -> bv64,    // vec_nmsub: -(a*b-c)
    nmadd: (bv64, bv64, bv64) -> bv64,    // vec_nmadd: -(a*b+c)
    rsqrte: bv64 -> bv64,                 // vec_rsqrte
    re: bv64 -> bv64,                     // vec_re
    abs: bv64 -> bv64,                    // vec_abs
    max: (bv64, bv64) -> bv64,            // vec_max
    min: (bv64, bv64) -> bv64,            // vec_min
    round: bv64 -> bv64,                  // xvrdpi / vec_round
    trunc: bv64 -> bv64,                  // vec_trunc
    cmpeq: (bv64, bv64) -> bool,          // vec_cmpeq
    cmpgt: (bv64, bv64) -> bool,          // vec_cmpgt
    cmplt: (bv64, bv64) -> bool,          // vec_cmplt
    cmple: (bv64, bv64) -> bool,          // vec_cmple
    toInt32: bv64 -> bv32,                // xvcvdpsxws: truncating conversion
    toInt32Pad: bv64 -> bv32,             //   and the word it leaves beside the result
    fromInt32: bv32 -> bv64,              // xvcvsxwdp
    widen: bv32 -> bv64,                  // xvcvspdp: binary32 to binary64
    narrow: bv64 -> bv32,                 // xvcvdpsp: binary64 to binary32
    narrowPad: bv64 -> bv32               //   and the word it leaves beside the result
  )

  function Map1(f: bv64 -> bv64, a: Vec2x64): Vec2x64 {
    Vec2x64(f(a.d0), f(a.d1))
  }

  function Map2(f: (bv64, bv64) -> bv64, a: Vec2x64, b: Vec2x64): Vec2x64 {
    Vec2x64(f(a.d0, b.d0), f(a.d1, b.d1))
  }

  function Map3(f: (bv64, bv64, bv64) -> bv64, a: Vec2x64, b: Vec2x64, c: Vec2x64): Vec2x64 {
    Vec2x64(f(a.d0, b.d0, c.d0), f(a.d1, b.d1, c.d1))
  }

  function Compare2(f: (bv64, bv64) -> bool, a: Vec2x64, b: Vec2x64): Vec2x64 {
    Vec2x64(CompareLane64(f(a.d0, b.d0)), CompareLane64(f(a.d1, b.d1)))
  }
}
