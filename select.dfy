/** Kernel selection: which backend each dispatcher hands its work to, given the
    feature mask and the build switches. Each dispatcher is a ladder of tiers
    tried in order of preference; the first tier that the build compiled in and
    whose flags the mask holds wins, and the portable code is the last resort. */
module Select {
  import opened CpuFeature

  /** The backends a dispatcher can call. */
  datatype Kernel = Portable | Sse2 | Sse41 | Avx2 | Avx512 | Neon

  /** One rung of a ladder: a kernel, the flags it needs (every one of them) and
      whether the build compiled it in. */
  datatype Tier = Tier(kernel: Kernel, required: Mask, compiled: bool)

  /** A dispatch ladder: rungs tried top to bottom, ending in an unconditional kernel. */
  datatype Ladder = Last(kernel: Kernel) | Rung(tier: Tier, rest: Ladder)

  predicate Eligible(t: Tier, features: Mask) {
    t.compiled && features & t.required == t.required
  }

  /** The kernel a ladder dispatches to: the first eligible rung's, else the last one. */
  function Pick(l: Ladder, features: Mask): (k: Kernel) {
    match l
    case Last(k) => k
    case Rung(t, rest) => if Eligible(t, features) then t.kernel else Pick(rest, features)
  }

  /** The ladder of `blake3_compress_in_place` and `blake3_compress_xof`: AVX-512
      (on AVX512VL alone), SSE4.1, SSE2, portable; off x86 only portable is compiled. */
  function SingleBlockLadder(b: Build): Ladder {
    Rung(Tier(Avx512, AVX512VL, b.isX86 && !b.noAvx512),
    Rung(Tier(Sse41, SSE41, b.isX86 && !b.noSse41),
    Rung(Tier(Sse2, SSE2, b.isX86 && !b.noSse2),
    Last(Portable))))
  }

  /** The ladder of `blake3_hash_many` and `blake3_simd_degree`: AVX-512 (on
      AVX512F and AVX512VL together), AVX2, SSE4.1, SSE2, then unconditionally
      NEON when the build enables it and portable otherwise. */
  function HashManyLadder(b: Build): Ladder {
    Rung(Tier(Avx512, AVX512F | AVX512VL, b.isX86 && !b.noAvx512),
    Rung(Tier(Avx2, AVX2, b.isX86 && !b.noAvx2),
    Rung(Tier(Sse41, SSE41, b.isX86 && !b.noSse41),
    Rung(Tier(Sse2, SSE2, b.isX86 && !b.noSse2),
    Last(if b.useNeon then Neon else Portable)))))
  }

  /** The branch chain of the single-block dispatchers. */
  function SingleBlockKernel(features: Mask, b: Build): (k: Kernel) {
    if b.isX86 && !b.noAvx512 && features & AVX512VL != 0 then Avx512
    else if b.isX86 && !b.noSse41 && features & SSE41 != 0 then Sse41
    else if b.isX86 && !b.noSse2 && features & SSE2 != 0 then Sse2
    else Portable
  }

  /** The branch chain of `blake3_hash_many`. */
  function HashManyKernel(features: Mask, b: Build): (k: Kernel) {
    if b.isX86 && !b.noAvx512 && features & (AVX512F | AVX512VL) == AVX512F | AVX512VL then Avx512
    else if b.isX86 && !b.noAvx2 && features & AVX2 != 0 then Avx2
    else if b.isX86 && !b.noSse41 && features & SSE41 != 0 then Sse41
    else if b.isX86 && !b.noSse2 && features & SSE2 != 0 then Sse2
    else if b.useNeon then Neon
    else Portable
  }

  /** The number of inputs a `hash_many` kernel hashes side by side. */
  function Lanes(k: Kernel): (n: nat) {
    match k
    case Avx512 => 16
    case Avx2 => 8
    case Sse41 => 4
    case Sse2 => 4
    case Neon => 4
    case Portable => 1
  }

  /** The branch chain of `blake3_simd_degree`. */
  function SimdDegree(features: Mask, b: Build): (degree: nat) {
    if b.isX86 && !b.noAvx512 && features & (AVX512F | AVX512VL) == AVX512F | AVX512VL then 16
    else if b.isX86 && !b.noAvx2 && features & AVX2 != 0 then 8
    else if b.isX86 && !b.noSse41 && features & SSE41 != 0 then 4
    else if b.isX86 && !b.noSse2 && features & SSE2 != 0 then 4
    else if b.useNeon then 4
    else 1
  }

  /** Whether `blake3_xof_many` hands the whole run to the AVX-512 batch kernel
      (never on Windows) instead of looping over `blake3_compress_xof`. */
  function XofManyUsesBatch(features: Mask, b: Build): (batch: bool) {
    b.isX86 && !b.win32 && !b.noAvx512 && features & AVX512VL != 0
  }

  // The branch chains are their ladders.

  /** The single-block branch chains try AVX-512, SSE4.1, SSE2 and portable in that order. */
  lemma SingleBlockKernelIsLadder(features: Mask, b: Build)
    ensures SingleBlockKernel(features, b) == Pick(SingleBlockLadder(b), features)
  {
    var t1 := Tier(Avx512, AVX512VL, b.isX86 && !b.noAvx512);
    var t2 := Tier(Sse41, SSE41, b.isX86 && !b.noSse41);
    var t3 := Tier(Sse2, SSE2, b.isX86 && !b.noSse2);
    var r3 := Rung(t3, Last(Portable));
    var r2 := Rung(t2, r3);
    var e1 := Eligible(t1, features);
    var e2 := Eligible(t2, features);
    var e3 := Eligible(t3, features);
    assert e1 == (b.isX86 && !b.noAvx512 && features & AVX512VL != 0);
    assert e2 == (b.isX86 && !b.noSse41 && features & SSE41 != 0);
    assert e3 == (b.isX86 && !b.noSse2 && features & SSE2 != 0);
    assert SingleBlockLadder(b) == Rung(t1, r2);
    assert Pick(r3, features) == if e3 then Sse2 else Portable;
    assert Pick(r2, features) == if e2 then Sse41 else Pick(r3, features);
    assert Pick(Rung(t1, r2), features) == if e1 then Avx512 else Pick(r2, features);
  }

  /** The `hash_many` branch chain tries AVX-512, AVX2, SSE4.1, SSE2, then NEON or portable. */
  lemma HashManyKernelIsLadder(features: Mask, b: Build)
    ensures HashManyKernel(features, b) == Pick(HashManyLadder(b), features)
  {
    var last := if b.useNeon then Neon else Portable;
    var t1 := Tier(Avx512, AVX512F | AVX512VL, b.isX86 && !b.noAvx512);
    var t2 := Tier(Avx2, AVX2, b.isX86 && !b.noAvx2);
    var t3 := Tier(Sse41, SSE41, b.isX86 && !b.noSse41);
    var t4 := Tier(Sse2, SSE2, b.isX86 && !b.noSse2);
    var r4 := Rung(t4, Last(last));
    var r3 := Rung(t3, r4);
    var r2 := Rung(t2, r3);
    var e1 := Eligible(t1, features);
    var e2 := Eligible(t2, features);
    var e3 := Eligible(t3, features);
    var e4 := Eligible(t4, features);
    assert e1 == (b.isX86 && !b.noAvx512 && features & (AVX512F | AVX512VL) == AVX512F | AVX512VL);
    assert e2 == (b.isX86 && !b.noAvx2 && features & AVX2 != 0);
    assert e3 == (b.isX86 && !b.noSse41 && features & SSE41 != 0);
    assert e4 == (b.isX86 && !b.noSse2 && features & SSE2 != 0);
    assert HashManyLadder(b) == Rung(t1, r2);
    assert Pick(r4, features) == if e4 then Sse2 else last;
    assert Pick(r3, features) == if e3 then Sse41 else Pick(r4, features);
    assert Pick(r2, features) == if e2 then Avx2 else Pick(r3, features);
    assert Pick(Rung(t1, r2), features) == if e1 then Avx512 else Pick(r2, features);
  }

  /** `blake3_simd_degree` reports the lane count of the kernel `blake3_hash_many`
      dispatches to, on every mask and build. */
  lemma SimdDegreeIsHashManyLanes(features: Mask, b: Build)
    ensures SimdDegree(features, b) == Lanes(HashManyKernel(features, b))
    ensures SimdDegree(features, b) in {1, 4, 8, 16}
  {
  }

  // Properties of the ladders.

  /** The lane count of a ladder's top kernel. */
  function TopLanes(l: Ladder): (n: nat) {
    match l
    case Last(k) => Lanes(k)
    case Rung(t, _) => Lanes(t.kernel)
  }

  /** Going down a ladder never gains lanes. */
  predicate LanesDescending(l: Ladder) {
    match l
    case Last(_) => true
    case Rung(t, rest) => Lanes(t.kernel) >= TopLanes(rest) && LanesDescending(rest)
  }

  /** A rung eligible under a mask stays eligible under any mask holding more flags. */
  lemma EligibleUpward(t: Tier, f1: Mask, f2: Mask)
    requires f1 & f2 == f1
    requires Eligible(t, f1)
    ensures Eligible(t, f2)
  {
  }

  /** No kernel a descending ladder can pick has more lanes than its top rung. */
  lemma {:induction false} PickBelowTop(l: Ladder, features: Mask)
    requires LanesDescending(l)
    ensures Lanes(Pick(l, features)) <= TopLanes(l)
  {
    match l
    case Last(_) =>
    case Rung(t, rest) =>
      if !Eligible(t, features) {
        PickBelowTop(rest, features);
      }
  }

  /** On a ladder that never gains lanes going down, more flags never pick a
      kernel with fewer lanes: once a rung is eligible it stays eligible. */
  lemma {:induction false} PickLanesMonotone(l: Ladder, f1: Mask, f2: Mask)
    requires LanesDescending(l)
    requires f1 & f2 == f1
    ensures Lanes(Pick(l, f1)) <= Lanes(Pick(l, f2))
  {
    match l
    case Last(_) =>
    case Rung(t, rest) =>
      if Eligible(t, f1) {
        EligibleUpward(t, f1, f2);
      } else if Eligible(t, f2) {
        PickBelowTop(rest, f1);
      } else {
        PickLanesMonotone(rest, f1, f2);
      }
  }

  /** The `hash_many` ladder goes 16, 8, 4, 4 lanes, then 4 or 1. */
  lemma HashManyLadderDescending(b: Build)
    ensures LanesDescending(HashManyLadder(b))
  {
    var l := HashManyLadder(b);
    assert LanesDescending(l.rest.rest.rest);
    assert LanesDescending(l.rest.rest);
    assert LanesDescending(l.rest);
  }

  /** A host with more features never gets a smaller SIMD degree. */
  lemma SimdDegreeMonotone(f1: Mask, f2: Mask, b: Build)
    requires f1 & f2 == f1
    ensures SimdDegree(f1, b) <= SimdDegree(f2, b)
  {
    SimdDegreeIsHashManyLanes(f1, b);
    SimdDegreeIsHashManyLanes(f2, b);
    HashManyKernelIsLadder(f1, b);
    HashManyKernelIsLadder(f2, b);
    HashManyLadderDescending(b);
    PickLanesMonotone(HashManyLadder(b), f1, f2);
  }

  /** The single-block dispatchers read only SSE2, SSE4.1 and AVX512VL: AVX2,
      AVX, SSSE3 and AVX512F never change their choice. */
  lemma SingleBlockReadsThreeFlags(features: Mask, b: Build)
    ensures SingleBlockKernel(features, b) == SingleBlockKernel(features & (SSE2 | SSE41 | AVX512VL), b)
  {
  }

  /** AVX512VL without AVX512F takes the AVX-512 single-block kernel but not the
      AVX-512 `hash_many` kernel. */
  lemma HashManyNeedsBothAvx512Flags(features: Mask, b: Build)
    requires b.isX86 && !b.noAvx512
    requires Has(features, AVX512VL) && !Has(features, AVX512F)
    ensures SingleBlockKernel(features, b) == Avx512
    ensures HashManyKernel(features, b) != Avx512
  {
  }

  /** A single-block tier switched off at build time acts as if its flag were
      absent: `BLAKE3_NO_AVX512` is AVX512VL cleared, `BLAKE3_NO_SSE41` SSE4.1
      cleared, `BLAKE3_NO_SSE2` SSE2 cleared. */
  lemma SingleBlockNoAvx512(features: Mask, b: Build)
    ensures SingleBlockKernel(features, b.(noAvx512 := true)) == SingleBlockKernel(Without(features, AVX512VL), b)
  {
  }

  lemma SingleBlockNoSse41(features: Mask, b: Build)
    ensures SingleBlockKernel(features, b.(noSse41 := true)) == SingleBlockKernel(Without(features, SSE41), b)
  {
  }

  lemma SingleBlockNoSse2(features: Mask, b: Build)
    ensures SingleBlockKernel(features, b.(noSse2 := true)) == SingleBlockKernel(Without(features, SSE2), b)
  {
  }

  /** A `hash_many` tier switched off at build time acts as if its flag were
      absent: `BLAKE3_NO_AVX512` is AVX512F cleared (either AVX-512 flag would do),
      `BLAKE3_NO_AVX2` AVX2 cleared, and likewise for SSE4.1 and SSE2. */
  lemma HashManyNoAvx512(features: Mask, b: Build)
    ensures HashManyKernel(features, b.(noAvx512 := true)) == HashManyKernel(Without(features, AVX512F), b)
  {
  }

  lemma HashManyNoAvx2(features: Mask, b: Build)
    ensures HashManyKernel(features, b.(noAvx2 := true)) == HashManyKernel(Without(features, AVX2), b)
  {
  }

  lemma HashManyNoSse41(features: Mask, b: Build)
    ensures HashManyKernel(features, b.(noSse41 := true)) == HashManyKernel(Without(features, SSE41), b)
  {
  }

  lemma HashManyNoSse2(features: Mask, b: Build)
    ensures HashManyKernel(features, b.(noSse2 := true)) == HashManyKernel(Without(features, SSE2), b)
  {
  }

  /** Off x86 the mask is never consulted: the single-block dispatchers go
      portable, and `hash_many` goes to NEON exactly when the build enables it. */
  lemma NonX86IgnoresFeatures(features: Mask, b: Build)
    requires !b.isX86
    ensures SingleBlockKernel(features, b) == Portable
    ensures HashManyKernel(features, b) == (if b.useNeon then Neon else Portable)
    ensures SimdDegree(features, b) == (if b.useNeon then 4 else 1)
  {
  }

  /** With no usable x86 flag, a NEON-enabled build dispatches `hash_many` to NEON
      even on x86: `hash_many` goes portable only when no x86 tier is eligible and
      NEON is off. */
  lemma EmptyMaskFallback(b: Build)
    ensures SingleBlockKernel(0, b) == Portable
    ensures HashManyKernel(0, b) == (if b.useNeon then Neon else Portable)
    ensures HashManyKernel(0, b) == Portable <==> !b.useNeon
  {
  }

  /** The batch path of `xof_many` is taken only where each block on its own
      would also go to the AVX-512 kernel; on Windows the loop runs and its
      blocks still go to AVX-512 when AVX512VL is present. */
  lemma XofManyBatchAgreesWithSingleBlock(features: Mask, b: Build)
    ensures XofManyUsesBatch(features, b) ==> SingleBlockKernel(features, b) == Avx512
    ensures SingleBlockKernel(features, b) == Avx512 && !b.win32 ==> XofManyUsesBatch(features, b)
    ensures b.win32 ==> !XofManyUsesBatch(features, b)
  {
  }
}
