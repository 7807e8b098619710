/** Loads, stores and element access. Caller memory is an array and a
    pointer into it is an index: a `double *` is an offset into an
    `array<bv64>`, an `std::int32_t *` an offset into an `array<bv32>`. */
module VsxMemory {
  import opened VsxIntrinsics
  import opened VsxTypes

  // ---------------------------------------------------------------------
  // SimdDouble

  /** load: the two doubles at `m[off]` and `m[off + 1]`, lane 0 first. */
  function Load(m: array<bv64>, off: nat): (r: SimdDouble)
    reads m
    requires off + 2 <= m.Length
    ensures r.simdInternal.d0 == m[off] && r.simdInternal.d1 == m[off + 1]
  {
    SimdDouble(Vec2x64(m[off], m[off + 1]))
  }

  /** store: both lanes written to `m[off]` and `m[off + 1]`, nothing else;
      loading them back gives the register. */
  method Store(m: array<bv64>, off: nat, a: SimdDouble)
    requires off + 2 <= m.Length
    modifies m
    ensures m[..] == old(m[..])[off := a.simdInternal.d0][off + 1 := a.simdInternal.d1]
    ensures Load(m, off) == a
  {
    m[off] := a.simdInternal.d0;
    m[off + 1] := a.simdInternal.d1;
  }

  /** loadU: with gcc the same dereference as `load`; alignment is not modelled. */
  function LoadU(m: array<bv64>, off: nat): (r: SimdDouble)
    reads m
    requires off + 2 <= m.Length
    ensures r.simdInternal.d0 == m[off] && r.simdInternal.d1 == m[off + 1]
  {
    Load(m, off)
  }

  /** storeU: with gcc the same store as `store`. */
  method StoreU(m: array<bv64>, off: nat, a: SimdDouble)
    requires off + 2 <= m.Length
    modifies m
    ensures m[..] == old(m[..])[off := a.simdInternal.d0][off + 1 := a.simdInternal.d1]
    ensures LoadU(m, off) == a
  {
    Store(m, off, a);
  }

  /** setZeroD: both lanes hold the bits of +0.0, which are all zero. */
  function SetZeroD(): (r: SimdDouble)
    ensures r.simdInternal.d0 == 0 && r.simdInternal.d1 == 0
  {
    SplatD(0)
  }

  // ---------------------------------------------------------------------
  // SimdDInt32: integer k is kept in words 2k and 2k + 1

  /** loadDI: each of `m[off]`, `m[off + 1]` splatted, then the permutation
      { 0..3, 0..3, 16..19, 16..19 } keeps word 0 of the first splat twice
      and word 0 of the second twice: [m0, m0, m1, m1]. */
  function LoadDI(m: array<bv32>, off: nat): (r: SimdDInt32)
    reads m
    requires off + 2 <= m.Length
    ensures r.PairLayout()
    ensures r.simdInternal.e0 == m[off] && r.simdInternal.e2 == m[off + 1]
  {
    var t0 := Splats4(m[off]);
    var t1 := Splats4(m[off + 1]);
    SimdDInt32(Perm4(t0, t1, 0, 0, 4, 4))
  }

  /** store(std::int32_t *): words 0 and 2 written to `m[off]` and
      `m[off + 1]`, nothing else; words 1 and 3 are never read. A register in
      the pair layout is given back by `LoadDI`. */
  method StoreDI(m: array<bv32>, off: nat, x: SimdDInt32)
    requires off + 2 <= m.Length
    modifies m
    ensures m[..] == old(m[..])[off := x.simdInternal.e0][off + 1 := x.simdInternal.e2]
    ensures x.PairLayout() ==> LoadDI(m, off) == x
  {
    m[off] := VecExtract4(x.simdInternal, 0);
    m[off + 1] := VecExtract4(x.simdInternal, 2);
  }

  /** `store(p, loadDI(m))`: the two integers at `m` reach `p[0]` and `p[1]`
      and nothing else in `p` changes, even when `p` and `m` are the same array. */
  method CopyViaRegister(src: array<bv32>, srcOff: nat, dst: array<bv32>, dstOff: nat)
    requires srcOff + 2 <= src.Length && dstOff + 2 <= dst.Length
    modifies dst
    ensures dst[..] == old(dst[..])[dstOff := old(src[srcOff])][dstOff + 1 := old(src[srcOff + 1])]
  {
    var x := LoadDI(src, srcOff);
    StoreDI(dst, dstOff, x);
  }

  /** loadUDI: the same as `loadDI`. */
  function LoadUDI(m: array<bv32>, off: nat): (r: SimdDInt32)
    reads m
    requires off + 2 <= m.Length
    ensures r.PairLayout()
    ensures r.simdInternal.e0 == m[off] && r.simdInternal.e2 == m[off + 1]
  {
    LoadDI(m, off)
  }

  /** storeU(std::int32_t *): the same as `store`. */
  method StoreUDI(m: array<bv32>, off: nat, x: SimdDInt32)
    requires off + 2 <= m.Length
    modifies m
    ensures m[..] == old(m[..])[off := x.simdInternal.e0][off + 1 := x.simdInternal.e2]
    ensures x.PairLayout() ==> LoadUDI(m, off) == x
  {
    StoreDI(m, off, x);
  }

  /** setZeroDI: every word zero, which is the pair layout of two zeros. */
  function SetZeroDI(): (r: SimdDInt32)
    ensures r.PairLayout() && r.simdInternal.e0 == 0 && r.simdInternal.e2 == 0
  {
    SplatDI(0)
  }

  /** extract<index>: word 2 * index, the index taken modulo four, so an even
      index reads word 0 and an odd one word 2: always a data word. */
  function Extract(a: SimdDInt32, index: int): (r: bv32)
    ensures index % 2 == 0 ==> r == a.simdInternal.e0
    ensures index % 2 != 0 ==> r == a.simdInternal.e2
  {
    VecExtract4(a.simdInternal, 2 * index)
  }

  /** Extracting integer i of a loaded register gives `m[off + i]`. */
  lemma ExtractAfterLoad(m: array<bv32>, off: nat, i: int)
    requires off + 2 <= m.Length && 0 <= i < 2
    ensures Extract(LoadDI(m, off), i) == m[off + i]
  {
  }
}
