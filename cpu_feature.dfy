/** The capability bitmask shared by the decoder, the cache and the dispatchers,
    and the build-time switches the dispatch layer is compiled under. */
module CpuFeature {

  /** The feature bitmask (`enum cpu_feature`, stored in an `int` cell). */
  type Mask = bv32

  // One bit per instruction-set extension (the flags of `enum cpu_feature`).
  const SSE2: Mask := 0x01
  const SSSE3: Mask := 0x02
  const SSE41: Mask := 0x04
  const AVX: Mask := 0x08
  const AVX2: Mask := 0x10
  const AVX512F: Mask := 0x20
  const AVX512VL: Mask := 0x40

  /** Every flag the decoder can report. */
  const ALL_FEATURES: Mask := SSE2 | SSSE3 | SSE41 | AVX | AVX2 | AVX512F | AVX512VL

  /** The "not yet computed" sentinel of the cache cell; it lies outside ALL_FEATURES. */
  const UNDEFINED: Mask := 0x4000_0000

  /** `features & f` is nonzero. */
  predicate Has(features: Mask, f: Mask) {
    features & f != 0
  }

  /** A mask made only of real feature flags. */
  predicate ValidMask(features: Mask) {
    features & !ALL_FEATURES == 0
  }

  /** The mask holding exactly the flags whose condition is true, in the order
      SSE2, SSSE3, SSE41, AVX, AVX2, AVX512F, AVX512VL. */
  function Pack(sse2: bool, ssse3: bool, sse41: bool, avx: bool, avx2: bool, avx512f: bool, avx512vl: bool): (r: Mask) {
    (if sse2 then SSE2 else 0) | (if ssse3 then SSSE3 else 0) | (if sse41 then SSE41 else 0)
    | (if avx then AVX else 0) | (if avx2 then AVX2 else 0)
    | (if avx512f then AVX512F else 0) | (if avx512vl then AVX512VL else 0)
  }

  /** Each flag of a packed mask is its own condition, and no other bit is set. */
  lemma PackFlags(sse2: bool, ssse3: bool, sse41: bool, avx: bool, avx2: bool, avx512f: bool, avx512vl: bool)
    ensures var r := Pack(sse2, ssse3, sse41, avx, avx2, avx512f, avx512vl);
      && ValidMask(r)
      && (Has(r, SSE2) <==> sse2) && (Has(r, SSSE3) <==> ssse3) && (Has(r, SSE41) <==> sse41)
      && (Has(r, AVX) <==> avx) && (Has(r, AVX2) <==> avx2)
      && (Has(r, AVX512F) <==> avx512f) && (Has(r, AVX512VL) <==> avx512vl)
  {
  }

  /** `features` with flag `f` cleared. */
  function Without(features: Mask, f: Mask): (r: Mask)
    ensures r & f == 0
    ensures r | (features & f) == features
  {
    features & !f
  }

  /** A valid mask is never the sentinel, so a decoded value is never mistaken for "not yet computed". */
  lemma ValidMaskIsDefined(features: Mask)
    requires ValidMask(features)
    ensures features != UNDEFINED
  {
  }

  /** The preprocessor switches the file is compiled under:
      isX86 (`IS_X86`, which the `#undef IS_X86` for compilers other than MSVC and GCC
      switches off), amd64 (`__amd64__` or `_M_X64`),
      win32 (`_WIN32`), the per-tier `BLAKE3_NO_*` switches and `BLAKE3_USE_NEON == 1`. */
  datatype Build = Build(
    isX86: bool,
    amd64: bool,
    win32: bool,
    noAvx512: bool,
    noAvx2: bool,
    noSse41: bool,
    noSse2: bool,
    useNeon: bool)
}
