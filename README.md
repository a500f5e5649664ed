# BLAKE3 run-time dispatch, modelled in Dafny

This project models `c/blake3_dispatch.c` of the BLAKE3 C library. That file is
the layer that decides, at run time, which implementation of the compression
function runs: portable C, SSE2, SSE4.1, AVX2, AVX-512 or NEON. It has four parts,
and each has a module here:

- **`CpuFeature`** (`cpu_feature.dfy`): the capability bitmask and the build
  switches. The mask is a `bv32` with one bit per instruction-set extension, plus
  the `UNDEFINED` sentinel. The switches are `IS_X86`, `__amd64__`/`_M_X64`,
  `_WIN32`, `BLAKE3_NO_AVX512`, `BLAKE3_NO_AVX2`, `BLAKE3_NO_SSE41`,
  `BLAKE3_NO_SSE2` and `BLAKE3_USE_NEON == 1`. They become the fields of a
  `Build` value. The flag values come from `blake3_impl.h`, which is not part of
  this model. They are taken as the seven low bits, with `UNDEFINED` at bit 30,
  outside every valid mask.
- **`Decoder`** (`decoder.dfy`): the x86 branch of `blake3_get_cpu_features`. It
  reads at most five values:
  - the highest CPUID leaf (`max_id`, read as a signed `int`);
  - leaf-1 ECX and EDX, where EDX is not read on x86-64;
  - XCR0, which is read only under OSXSAVE;
  - leaf-7 EBX, which is read only when XCR0 also shows the SSE and AVX state and `max_id >= 7`.

  `DetectFeatures` builds the mask with `features |= …` under the same nested
  gates as the source. It is proved equal to `FeatureMask`, and `FeatureMaskFlags`
  states that mask flag by flag. `XcrUnreadWithoutOsXsave` and
  `Leaf7UnreadBehindGates` state that XCR0 and leaf-7 EBX have no effect outside
  their gates.
- **`Cache`** (`cache.dfy`): the cell `g_blake3_cpu_features`, as a class with one
  field. It starts `UNDEFINED`. The first query decodes the host and stores the
  result, and every later query returns the stored mask.
- **`Select`** (`select.dfy`): the priority chains of the dispatchers, as pure
  functions from mask and build to a `Kernel` tag, together with `simd_degree`.
  Each chain is also given as a *ladder*: an ordered list of tiers, where each tier
  names a kernel, the flags it needs and whether the build compiled it in. The
  lemmas show that each chain picks the first eligible rung of its ladder.
- **`Dispatch`** (`dispatch.dfy`): the dispatch entry points
  `blake3_compress_in_place`, `blake3_compress_xof`, `blake3_xof_many`,
  `blake3_hash_many` and `blake3_simd_degree`. Each is a method that asks the
  cache, on x86 builds only, for the mask. It then hands the work to the chosen
  kernel. The kernels are function-typed parameters, indexed by the `Kernel` tag.
  `blake3_xof_many` keeps its zero-block guard and its AVX-512 batch path. It
  also keeps its loop of `blake3_compress_xof` calls over an `array<bv8>`, where
  block `i` goes at byte `64 * i` with counter `counter + i`, wrapping at 2^64.

As written, the x86 branch of `blake3_get_cpu_features` compiles only under
MSVC. Two of its lines are compile errors on every other compiler:
- Line 117 loads `g_cpu_features`, which is not declared in this file. The cell this
  file declares (lines 103 and 105) is `g_blake3_cpu_features`.
- Line 164 passes `&g_blake3_cpu_features` to `ATOMIC_STORE(x, y)`. In the
  stdatomic and plain-`int` configurations that macro expands to `x = y`
  (lines 37 and 45), so the line becomes `&g_blake3_cpu_features = (int)features;`.
  An address is not an lvalue, so the compiler rejects the assignment, and
  nothing is stored anywhere.

Only the MSVC branches (the load at line 114 and the store at line 162) are
well-formed. The model follows their single cell, which is the evident intent:
every query reads `g_blake3_cpu_features`, and the first query writes it. A
third slip does not change any value: `enum cpu_feature` and
`enum blake3_cpu_feature` are taken to name the same mask.

Only an x86 build defines `blake3_get_cpu_features` (lines 95-173). Its
non-x86 branch (lines 167-170, "How to detect NEON?") therefore cannot be
reached. In the model, a non-x86 build never queries the cache, and every
dispatcher gets the result it gets in the source: portable, or NEON for
`hash_many` when the build enables it.

## Model

| member | source | states |
|---|---|---|
| CpuFeature.PackFlags | c/blake3_dispatch.c:126-155 | a mask built by or-ing in flags holds exactly the flags whose condition held, and no bit outside the seven flags |
| CpuFeature.ValidMaskIsDefined | c/blake3_dispatch.c:103-105 | a mask made only of feature flags is never the `UNDEFINED` sentinel |
| Decoder.MaxId | c/blake3_dispatch.c:128 | the unsigned leaf-0 EAX read as a two's-complement `int` lies in the 32-bit range; `max_id >= 7` exactly when EAX is at least 7 and below 2^31 |
| Decoder.DetectFeatures | c/blake3_dispatch.c:122-158 | the mask built step by step under the nested gates is the decoded mask `FeatureMask` of the five register values |
| Decoder.FeatureMaskFlags | c/blake3_dispatch.c:130-155 | each flag, in both directions: SSE2 on amd64 or EDX bit 26; SSSE3 ECX bit 9; SSE4.1 ECX bit 19; AVX needs OSXSAVE, XCR0 bits 1-2 and ECX bit 28; AVX2 needs OSXSAVE, XCR0 bits 1-2, leaf 7 and EBX bit 5; AVX512F and AVX512VL also need XCR0 bits 5-7, then EBX bit 16 or 31; no other bit is set |
| Decoder.XcrUnreadWithoutOsXsave | c/blake3_dispatch.c:141-143 | with OSXSAVE clear, XCR0 has no effect on the mask: two hosts that differ only in XCR0 decode alike, so XGETBV need not run |
| Decoder.Leaf7UnreadBehindGates | c/blake3_dispatch.c:141-147 | unless OSXSAVE is set, XCR0 shows the SSE and AVX state and `max_id >= 7`, leaf-7 EBX has no effect on the mask |
| Decoder.NoOsXsaveNoAvxFamily | c/blake3_dispatch.c:141-158 | with OSXSAVE clear, none of AVX, AVX2, AVX512F and AVX512VL is reported, whatever the other registers hold |
| Decoder.NoAvxStateNoAvxFamily | c/blake3_dispatch.c:142-157 | when XCR0 lacks the SSE or AVX state bit, none of AVX, AVX2, AVX512F and AVX512VL is reported |
| Decoder.Avx512NeedsFullState | c/blake3_dispatch.c:146-155 | AVX512F or AVX512VL is reported only with OSXSAVE, XCR0 bits 1-2, XCR0 bits 5-7 and a `max_id` of at least 7 |
| Decoder.Avx2IgnoresAvxBit | c/blake3_dispatch.c:144-149 | AVX2 does not depend on the leaf-1 AVX bit (ECX bit 28) |
| Decoder.SseFamilyFromLeaf1 | c/blake3_dispatch.c:129-139 | SSE2, SSSE3 and SSE4.1 do not depend on `max_id`, on leaf-7 EBX or on XCR0 |
| Decoder.NegativeMaxIdSkipsLeaf7 | c/blake3_dispatch.c:128-147 | a leaf-0 EAX of 2^31 or more reads as a negative `max_id`, so leaf 7 is skipped and no AVX2 or AVX-512 flag is reported |
| Decoder.Amd64HasSse2 | c/blake3_dispatch.c:130-131 | on x86-64 SSE2 is reported whatever EDX holds |
| Decoder.DecodedIsDefined | c/blake3_dispatch.c:119-126 | a decoded mask is valid, so it is never the sentinel, and once stored it is always taken as cached |
| Cache.FeatureCache.constructor | c/blake3_dispatch.c:103-105 | the cell starts as `UNDEFINED` |
| Cache.FeatureCache.GetCpuFeatures | c/blake3_dispatch.c:108-166 | always returns the host's decoded mask and leaves it in the cell; a defined cell is returned unchanged without decoding (the ghost decode count stays put), and the host is decoded once over the life of the cache |
| Cache.QueryTwice | c/blake3_dispatch.c:119-120 | two queries in a row give the same mask, and the host has been decoded once in all, so the second one finds it cached |
| Select.SingleBlockKernelIsLadder | c/blake3_dispatch.c:179-201 | the chain of `compress_in_place` and `compress_xof` is the AVX-512 (on AVX512VL), SSE4.1, SSE2, portable ladder: the first compiled-in tier whose flag is set wins |
| Select.HashManyKernelIsLadder | c/blake3_dispatch.c:260-305 | the chain of `hash_many` is the AVX-512 (on AVX512F and AVX512VL), AVX2, SSE4.1, SSE2 ladder, ending in NEON when enabled and portable otherwise |
| Select.SimdDegreeIsHashManyLanes | c/blake3_dispatch.c:309-338 | `simd_degree` is the lane count of the kernel `hash_many` picks for the same mask and build (16, 8, 4, 4, 4 for NEON, 1), so it is always 1, 4, 8 or 16 |
| Select.PickLanesMonotone | c/blake3_dispatch.c:263-305 | on a ladder whose lane counts do not grow going down, a mask with more flags never picks a kernel with fewer lanes |
| Select.SimdDegreeMonotone | c/blake3_dispatch.c:309-338 | a host with more features never gets a smaller SIMD degree |
| Select.SingleBlockReadsThreeFlags | c/blake3_dispatch.c:182-199 | the single-block dispatchers read only SSE2, SSE4.1 and AVX512VL; AVX2, AVX, SSSE3 and AVX512F never change the choice |
| Select.HashManyNeedsBothAvx512Flags | c/blake3_dispatch.c:263-270 | AVX512VL without AVX512F selects AVX-512 for one block but falls through for `hash_many` |
| Select.SingleBlockNoAvx512 | c/blake3_dispatch.c:182-187 | with `BLAKE3_NO_AVX512`, the choice is the one made for the mask with AVX512VL cleared |
| Select.SingleBlockNoSse41 | c/blake3_dispatch.c:188-193 | with `BLAKE3_NO_SSE41`, the choice is the one made for the mask with SSE4.1 cleared |
| Select.SingleBlockNoSse2 | c/blake3_dispatch.c:194-199 | with `BLAKE3_NO_SSE2`, the choice is the one made for the mask with SSE2 cleared |
| Select.HashManyNoAvx512 | c/blake3_dispatch.c:263-270 | with `BLAKE3_NO_AVX512`, `hash_many` chooses as if AVX512F were clear |
| Select.HashManyNoAvx2 | c/blake3_dispatch.c:271-278 | with `BLAKE3_NO_AVX2`, `hash_many` chooses as if AVX2 were clear |
| Select.HashManyNoSse41 | c/blake3_dispatch.c:279-286 | with `BLAKE3_NO_SSE41`, `hash_many` chooses as if SSE4.1 were clear |
| Select.HashManyNoSse2 | c/blake3_dispatch.c:287-294 | with `BLAKE3_NO_SSE2`, `hash_many` chooses as if SSE2 were clear |
| Select.NonX86IgnoresFeatures | c/blake3_dispatch.c:295-305 | off x86 the single-block dispatchers go portable, `hash_many` goes to NEON exactly when it is enabled, and the SIMD degree is 4 or 1 accordingly |
| Select.EmptyMaskFallback | c/blake3_dispatch.c:297-305 | with an empty mask the single-block dispatchers go portable; `hash_many` goes to NEON when enabled, even on x86, and to portable exactly when NEON is off |
| Select.XofManyBatchAgreesWithSingleBlock | c/blake3_dispatch.c:242-249 | the AVX-512 batch path of `xof_many` is taken exactly when one block would go to AVX-512 and the build is not Windows; on Windows it is never taken |
| Dispatch.ConcatBlock | c/blake3_dispatch.c:251-253 | block `i` of the written output sits at bytes `64 * i` to `64 * i + 64` |
| Dispatch.CompressInPlace | c/blake3_dispatch.c:175-202 | `cv` becomes the chosen single-block kernel's result; the cache is queried on x86 only |
| Dispatch.CompressXof | c/blake3_dispatch.c:204-231 | the chosen kernel's 64 bytes land at `out[offset..offset + 64]`, and every other byte of `out` keeps its value |
| Dispatch.XofLoop | c/blake3_dispatch.c:251-253 | after the loop, `out[..64 * outblocks]` holds the per-block outputs for counters `counter + i`, in order; the rest of `out` is untouched |
| Dispatch.XofMany | c/blake3_dispatch.c:234-254 | with no blocks, neither `out` nor the cache changes; otherwise `out[..64 * outblocks]` is the batch kernel's output or the per-block stream, as the batch condition says; bytes from `64 * outblocks` on are untouched |
| Dispatch.XofManyOutputBlock | c/blake3_dispatch.c:242-253 | output block `i` is the batch kernel's block `i`, or the chosen kernel's output for counter `counter + i` (mod 2^64) |
| Dispatch.XofManyIsPortableStream | c/blake3_dispatch.c:242-253 | when every kernel computes what the portable code computes, and the batch kernel matches the per-block output, `xof_many` writes the portable stream on every host and build |
| Dispatch.HashMany | c/blake3_dispatch.c:256-306 | the output is the `hash_many` kernel chosen by the ladder; the cache is queried on x86 only |
| Dispatch.GetSimdDegree | c/blake3_dispatch.c:309-338 | returns `simd_degree` for the host, which is the lane count of the host's `hash_many` kernel |
| Dispatch.DispatchedKernelIsOsSupported | c/blake3_dispatch.c:141-155 | AVX-512 (either dispatcher, or the batch path) runs only under OSXSAVE with XCR0 bits 1-2 and 5-7 and leaf 7 present; AVX2 only under OSXSAVE, XCR0 bits 1-2, leaf 7 and EBX bit 5 |

## Left out

- The `cpuid`, `cpuidex` and `xgetbv` wrappers (lines 51-91) are inline assembly and intrinsics. The register values they return are the fields of `Decoder.Host`, given as parameters.
- The atomic and `Interlocked` macros, and the MSVC and `stdatomic` variants of the cell (lines 22-46, 97-118, 159-165), exist for concurrent visibility. The cache is modelled as one sequential field. Whether the cell is a `long` or an `int` makes no difference to the values stored.
- The kernels (`*_portable`, `*_sse2`, `*_sse41`, `*_avx2`, `*_avx512`, `*_neon`, and the assembly `blake3_xof_many_avx512`) are not part of this model. Each family is a function-typed parameter indexed by the `Kernel` tag. The batch kernel is given as a function from block index to output block. It is taken to write exactly `64 * outblocks` bytes. The guarantee of `Dispatch.XofMany` that the bytes from `64 * outblocks` on are untouched rests on that assumption when the batch path is taken.
- The BLAKE3 compression function and hash-tree semantics are not part of this model.
- Dispatch.HashMany: the caller's `out` buffer is modelled as the returned byte sequence, and its inputs as a sequence of byte sequences rather than an array of pointers.
- Dispatch.CompressXof: `out` is modelled as an array together with a byte offset into it. This stands for the pointer arithmetic `out + 64*i`. In C the parameter is written `uint8_t out[64]`, but it is a pointer into a buffer of `64*outblocks` bytes.
- Dispatch.XofMany: `outblocks` is an unbounded `nat`. The `size_t` product `64*i` is not checked for overflow, since a buffer of that size cannot exist. The `uint64_t` counter `counter + i` does wrap, explicitly, in `BlockCounter`.
- NEON detection: the non-x86 branch of `blake3_get_cpu_features` returns 0 (lines 167-170), but it is not compiled, because the function exists only on x86. Nothing models it.
- Pointer aliasing between `cv`, `block` and `out` is not modelled: `cv` and `block` are passed by value, except for the `cv` array of `blake3_compress_in_place`.
