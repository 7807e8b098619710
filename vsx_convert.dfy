/** Conversions between binary64 lanes, 32-bit integers and binary32 lanes.
    The conversion instructions themselves are fields of `Fpu`; what is
    modelled here is which word each instruction reads and writes and how
    the surrounding permutes and merges route the lanes. */
module VsxConvert {
  import opened VsxIntrinsics
  import opened VsxTypes
  import opened VsxArithmetic

  // ---------------------------------------------------------------------
  // The conversion instructions, in little-endian element order

  /** xvcvdpsxws: lane k truncated to a 32-bit integer in word 2k + 1; the
      neighbouring word 2k is left as the instruction leaves it. */
  function Xvcvdpsxws(fpu: Fpu, v: Vec2x64): Vec4x32 {
    Vec4x32(fpu.toInt32Pad(v.d0), fpu.toInt32(v.d0), fpu.toInt32Pad(v.d1), fpu.toInt32(v.d1))
  }

  /** xvcvsxwdp: word 2k + 1 converted to binary64 in lane k. */
  function Xvcvsxwdp(fpu: Fpu, w: Vec4x32): Vec2x64 {
    Vec2x64(fpu.fromInt32(w.e1), fpu.fromInt32(w.e3))
  }

  /** xvcvspdp: word 2k + 1, a binary32, widened to binary64 in lane k. */
  function Xvcvspdp(fpu: Fpu, w: Vec4x32): Vec2x64 {
    Vec2x64(fpu.widen(w.e1), fpu.widen(w.e3))
  }

  /** xvcvdpsp: lane k narrowed to binary32 in word 2k + 1, the most
      significant word of the doubleword like the other conversions here;
      the neighbouring word 2k holds `narrowPad`, which equals `narrow` when
      the instruction writes its result into both words. */
  function Xvcvdpsp(fpu: Fpu, v: Vec2x64): Vec4x32 {
    Vec4x32(fpu.narrowPad(v.d0), fpu.narrow(v.d0), fpu.narrowPad(v.d1), fpu.narrow(v.d1))
  }

  /** The word swap {4,5,6,7, 0,1,2,3, 12,13,14,15, 8,9,10,11} used around
      the integer conversions. */
  function SwapWordPairs(w: Vec4x32): Vec4x32 {
    Perm4(w, w, 1, 0, 3, 2)
  }

  // ---------------------------------------------------------------------
  // SimdDouble <-> SimdDInt32

  /** cvttR2I: truncate each lane to a 32-bit integer. After the word swap
      the integer of lane k sits in word 2k, where SimdDInt32 keeps it; the
      pair layout holds when the instruction also writes the integer to the
      neighbouring word. */
  function CvttR2I(fpu: Fpu, a: SimdDouble): (r: SimdDInt32)
    ensures r.simdInternal.e0 == fpu.toInt32(a.simdInternal.d0)
    ensures r.simdInternal.e2 == fpu.toInt32(a.simdInternal.d1)
    ensures (fpu.toInt32Pad(a.simdInternal.d0) == fpu.toInt32(a.simdInternal.d0)
             && fpu.toInt32Pad(a.simdInternal.d1) == fpu.toInt32(a.simdInternal.d1)) ==> r.PairLayout()
  {
    SimdDInt32(SwapWordPairs(Xvcvdpsxws(fpu, a.simdInternal)))
  }

  /** cvtR2I: round to nearest first, then truncate. */
  function CvtR2I(fpu: Fpu, a: SimdDouble): (r: SimdDInt32)
    ensures r.simdInternal.e0 == fpu.toInt32(fpu.round(a.simdInternal.d0))
    ensures r.simdInternal.e2 == fpu.toInt32(fpu.round(a.simdInternal.d1))
  {
    CvttR2I(fpu, Round(fpu, a))
  }

  /** cvtI2R: swap the word pairs so that the integer in word 2k reaches
      word 2k + 1, which the instruction converts into lane k. Only the data
      words are read. */
  function CvtI2R(fpu: Fpu, a: SimdDInt32): (r: SimdDouble)
    ensures r.simdInternal.d0 == fpu.fromInt32(a.simdInternal.e0)
    ensures r.simdInternal.d1 == fpu.fromInt32(a.simdInternal.e2)
  {
    SimdDouble(Xvcvsxwdp(fpu, SwapWordPairs(a.simdInternal)))
  }

  /** Integer to double and back gives the integers back when the converter
      pair is exact on them (every 32-bit integer is a binary64). */
  lemma IntegerRoundTrip(fpu: Fpu, a: SimdDInt32)
    requires fpu.toInt32(fpu.fromInt32(a.simdInternal.e0)) == a.simdInternal.e0
    requires fpu.toInt32(fpu.fromInt32(a.simdInternal.e2)) == a.simdInternal.e2
    ensures CvttR2I(fpu, CvtI2R(fpu, a)).simdInternal.e0 == a.simdInternal.e0
    ensures CvttR2I(fpu, CvtI2R(fpu, a)).simdInternal.e2 == a.simdInternal.e2
  {
  }

  /** A double holding an integer survives truncation and conversion back. */
  lemma IntegralRoundTrip(fpu: Fpu, a: SimdDouble)
    requires fpu.fromInt32(fpu.toInt32(a.simdInternal.d0)) == a.simdInternal.d0
    requires fpu.fromInt32(fpu.toInt32(a.simdInternal.d1)) == a.simdInternal.d1
    ensures CvtI2R(fpu, CvttR2I(fpu, a)) == a
  {
  }

  // ---------------------------------------------------------------------
  // SimdFloat <-> two SimdDouble

  /** The four binary32 lanes of `f` widened: lanes 0 and 1 in `d0`, lanes
      2 and 3 in `d1`. */
  predicate WidenedFrom(fpu: Fpu, f: SimdFloat, d0: SimdDouble, d1: SimdDouble) {
    && d0.simdInternal == Vec2x64(fpu.widen(f.simdInternal.e0), fpu.widen(f.simdInternal.e1))
    && d1.simdInternal == Vec2x64(fpu.widen(f.simdInternal.e2), fpu.widen(f.simdInternal.e3))
  }

  /** cvtF2DD: mergeh gives "0011", mergel "2233", and each is widened. */
  method CvtF2DD(fpu: Fpu, f: SimdFloat) returns (d0: SimdDouble, d1: SimdDouble)
    ensures WidenedFrom(fpu, f, d0, d1)
  {
    var fA := MergeH4(f.simdInternal, f.simdInternal);
    var fB := MergeL4(f.simdInternal, f.simdInternal);
    d0 := SimdDouble(Xvcvspdp(fpu, fA));
    d1 := SimdDouble(Xvcvspdp(fpu, fB));
  }

  /** xvcvdpsp leaves the narrowed lane in both words of its doubleword. */
  predicate FillsBothWords(fpu: Fpu, v: Vec2x64) {
    fpu.narrowPad(v.d0) == fpu.narrow(v.d0) && fpu.narrowPad(v.d1) == fpu.narrow(v.d1)
  }

  /** cvtDD2F: each SimdDouble narrowed, then mergeh, mergel and a final
      mergeh. The merges pick the even words 2k of both narrowings, so lane
      order 0123 comes out of the words beside the odd-word results; when
      the instruction fills both words these are the narrowed lanes. */
  function CvtDD2F(fpu: Fpu, d0: SimdDouble, d1: SimdDouble): (r: SimdFloat)
    ensures r.simdInternal == Vec4x32(fpu.narrowPad(d0.simdInternal.d0), fpu.narrowPad(d0.simdInternal.d1),
                                      fpu.narrowPad(d1.simdInternal.d0), fpu.narrowPad(d1.simdInternal.d1))
    ensures (FillsBothWords(fpu, d0.simdInternal) && FillsBothWords(fpu, d1.simdInternal)) ==>
              r.simdInternal == Vec4x32(fpu.narrow(d0.simdInternal.d0), fpu.narrow(d0.simdInternal.d1),
                                        fpu.narrow(d1.simdInternal.d0), fpu.narrow(d1.simdInternal.d1))
  {
    var fA := Xvcvdpsp(fpu, d0.simdInternal);
    var fB := Xvcvdpsp(fpu, d1.simdInternal);
    var fC := MergeH4(fA, fB);
    var fD := MergeL4(fA, fB);
    SimdFloat(MergeH4(fC, fD))
  }

  /** Widening and narrowing back reproduces every lane of `f` in order,
      given that narrowing undoes widening on each lane and that the
      narrowing fills both words of each doubleword. */
  lemma NarrowUndoesWiden(fpu: Fpu, f: SimdFloat, d0: SimdDouble, d1: SimdDouble)
    requires WidenedFrom(fpu, f, d0, d1)
    requires fpu.narrow(fpu.widen(f.simdInternal.e0)) == f.simdInternal.e0
    requires fpu.narrow(fpu.widen(f.simdInternal.e1)) == f.simdInternal.e1
    requires fpu.narrow(fpu.widen(f.simdInternal.e2)) == f.simdInternal.e2
    requires fpu.narrow(fpu.widen(f.simdInternal.e3)) == f.simdInternal.e3
    requires FillsBothWords(fpu, d0.simdInternal) && FillsBothWords(fpu, d1.simdInternal)
    ensures CvtDD2F(fpu, d0, d1) == f
  {
  }

  /** The same round trip through the method, under the same per-lane facts. */
  method FloatRoundTrip(fpu: Fpu, f: SimdFloat) returns (g: SimdFloat)
    requires fpu.narrow(fpu.widen(f.simdInternal.e0)) == f.simdInternal.e0
    requires fpu.narrow(fpu.widen(f.simdInternal.e1)) == f.simdInternal.e1
    requires fpu.narrow(fpu.widen(f.simdInternal.e2)) == f.simdInternal.e2
    requires fpu.narrow(fpu.widen(f.simdInternal.e3)) == f.simdInternal.e3
    requires FillsBothWords(fpu, Vec2x64(fpu.widen(f.simdInternal.e0), fpu.widen(f.simdInternal.e1)))
    requires FillsBothWords(fpu, Vec2x64(fpu.widen(f.simdInternal.e2), fpu.widen(f.simdInternal.e3)))
    ensures g == f
  {
    var d0, d1 := CvtF2DD(fpu, f);
    NarrowUndoesWiden(fpu, f, d0, d1);
    g := CvtDD2F(fpu, d0, d1);
  }
}
