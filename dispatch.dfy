/** The public dispatchers: each asks the feature cache (x86 builds only), picks a
    kernel with its ladder, and hands the work to that kernel. The kernels
    themselves (assembly and intrinsics) are parameters: one function per
    kernel family, indexed by the `Kernel` tag. */
module Dispatch {
  import opened CpuFeature
  import opened Decoder
  import opened Select
  import opened Cache

  /** A chaining value or key: eight 32-bit words. */
  type Words8 = s: seq<bv32> | |s| == 8 witness [0, 0, 0, 0, 0, 0, 0, 0]

  /** One BLAKE3 block (BLAKE3_BLOCK_LEN bytes), also the size of one output block. */
  type Block64 = s: seq<bv8> | |s| == 64 witness seq(64, _ => 0)

  /** The compression kernels: the new chaining value after one block. */
  type CompressFn = (Kernel, Words8, Block64, bv8, bv64, bv8) -> Words8

  /** The extended-output kernels: the 64 output bytes of one block. */
  type XofFn = (Kernel, Words8, Block64, bv8, bv64, bv8) -> Block64

  /** `blake3_xof_many_avx512`: output block `i` of a run of `outblocks` blocks. */
  type XofBatchFn = (Words8, Block64, bv8, bv64, bv8, nat, nat) -> Block64

  /** The `hash_many` kernels: the concatenated outputs for a batch of inputs. */
  type HashManyFn = (Kernel, seq<seq<bv8>>, nat, Words8, bv64, bool, bv8, bv8, bv8) -> seq<bv8>

  /** The blocks laid out one after another. */
  function Concat(blocks: seq<Block64>): (r: seq<bv8>)
    ensures |r| == 64 * |blocks|
  {
    if |blocks| == 0 then [] else Concat(blocks[..|blocks| - 1]) + blocks[|blocks| - 1]
  }

  /** Block `i` of a concatenation sits at bytes `64 * i` to `64 * i + 64`. */
  lemma {:induction false} ConcatBlock(blocks: seq<Block64>, i: int)
    requires 0 <= i < |blocks|
    ensures Concat(blocks)[64 * i..64 * i + 64] == blocks[i]
    decreases |blocks|
  {
    var n := |blocks| - 1;
    if i < n {
      ConcatBlock(blocks[..n], i);
      assert Concat(blocks) == Concat(blocks[..n]) + blocks[n];
      assert Concat(blocks)[64 * i..64 * i + 64] == Concat(blocks[..n])[64 * i..64 * i + 64];
    }
  }

  /** `bytes` with the 64 bytes at `offset` replaced by `b`. */
  function Splice(bytes: seq<bv8>, offset: nat, b: Block64): (r: seq<bv8>)
    requires offset + 64 <= |bytes|
    ensures |r| == |bytes|
    ensures r[offset..offset + 64] == b
  {
    bytes[..offset] + b + bytes[offset + 64..]
  }

  /** Writing block `i` after the first `i` blocks extends the written prefix by one block. */
  lemma SpliceNextBlock(bytes: seq<bv8>, blocks: seq<Block64>, i: nat)
    requires i < |blocks|
    requires 64 * |blocks| <= |bytes|
    ensures Splice(Concat(blocks[..i]) + bytes[64 * i..], 64 * i, blocks[i])
         == Concat(blocks[..i + 1]) + bytes[64 * (i + 1)..]
  {
    assert blocks[..i + 1][..i] == blocks[..i];
    var w := Concat(blocks[..i]) + bytes[64 * i..];
    assert w[..64 * i] == Concat(blocks[..i]);
    assert w[64 * i + 64..] == bytes[64 * (i + 1)..];
  }

  /** `counter + i` in `uint64_t`: the block counter of output block `i`, wrapping at 2^64. */
  function BlockCounter(counter: bv64, i: int): (c: bv64) {
    ((counter as int + i) % 0x1_0000_0000_0000_0000) as bv64
  }

  /** The output blocks of the per-block loop of `blake3_xof_many`. */
  function XofBlocks(xof: XofFn, k: Kernel, cv: Words8, block: Block64, blockLen: bv8,
                     counter: bv64, flags: bv8, n: nat): (r: seq<Block64>)
    ensures |r| == n
  {
    seq(n, i => xof(k, cv, block, blockLen, BlockCounter(counter, i), flags))
  }

  /** The output blocks of the AVX-512 batch kernel. */
  function BatchBlocks(batch: XofBatchFn, cv: Words8, block: Block64, blockLen: bv8,
                       counter: bv64, flags: bv8, n: nat): (r: seq<Block64>)
    ensures |r| == n
  {
    seq(n, (i: int) requires 0 <= i < n => batch(cv, block, blockLen, counter, flags, n, i))
  }

  /** The `64 * outblocks` bytes `blake3_xof_many` writes. */
  function XofManyOutput(features: Mask, b: Build, xof: XofFn, batch: XofBatchFn, cv: Words8,
                         block: Block64, blockLen: bv8, counter: bv64, flags: bv8, outblocks: nat): (r: seq<bv8>)
    ensures |r| == 64 * outblocks
  {
    if outblocks == 0 then []
    else if XofManyUsesBatch(features, b) then Concat(BatchBlocks(batch, cv, block, blockLen, counter, flags, outblocks))
    else Concat(XofBlocks(xof, SingleBlockKernel(features, b), cv, block, blockLen, counter, flags, outblocks))
  }

  /** `blake3_compress_in_place`: `cv` is replaced by the chosen kernel's result. */
  method CompressInPlace(cache: FeatureCache, cv: array<bv32>, block: Block64, blockLen: bv8,
                         counter: bv64, flags: bv8, compress: CompressFn)
    requires cache.Valid()
    requires cv.Length == 8
    modifies cache, cv
    ensures cache.Valid()
    ensures cv[..] == compress(SingleBlockKernel(cache.Features(), cache.build), old(cv[..]), block, blockLen, counter, flags)
    ensures cache.build.isX86 ==> cache.cell == cache.Features()
    ensures !cache.build.isX86 ==> cache.cell == old(cache.cell)
  {
    var kernel := Portable;
    if cache.build.isX86 {
      var features := cache.GetCpuFeatures();
      kernel := SingleBlockKernel(features, cache.build);
    }
    var r := compress(kernel, cv[..], block, blockLen, counter, flags);
    forall j | 0 <= j < 8 {
      cv[j] := r[j];
    }
  }

  /** `blake3_compress_xof`: the chosen kernel's 64 output bytes land at `out[offset..]`;
      nothing else in `out` changes. */
  method CompressXof(cache: FeatureCache, cv: Words8, block: Block64, blockLen: bv8,
                     counter: bv64, flags: bv8, out: array<bv8>, offset: nat, xof: XofFn)
    requires cache.Valid()
    requires offset + 64 <= out.Length
    modifies cache, out
    ensures cache.Valid()
    ensures out[..] == Splice(old(out[..]), offset,
                              xof(SingleBlockKernel(cache.Features(), cache.build), cv, block, blockLen, counter, flags))
    ensures cache.build.isX86 ==> cache.cell == cache.Features()
    ensures !cache.build.isX86 ==> cache.cell == old(cache.cell)
  {
    var kernel := Portable;
    if cache.build.isX86 {
      var features := cache.GetCpuFeatures();
      kernel := SingleBlockKernel(features, cache.build);
    }
    var r := xof(kernel, cv, block, blockLen, counter, flags);
    forall j | 0 <= j < 64 {
      out[offset + j] := r[j];
    }
    assert out[..] == Splice(old(out[..]), offset, r);
  }

  /** The per-block loop of `blake3_xof_many`: one `blake3_compress_xof`
      call per output block, block `i` with counter `counter + i` at `out + 64 * i`. */
  method XofLoop(cache: FeatureCache, cv: Words8, block: Block64, blockLen: bv8, counter: bv64,
                 flags: bv8, out: array<bv8>, outblocks: nat, xof: XofFn)
    requires cache.Valid()
    requires cache.build.isX86 ==> cache.cell == cache.Features()
    requires 64 * outblocks <= out.Length
    modifies cache, out
    ensures out[..64 * outblocks]
         == Concat(XofBlocks(xof, SingleBlockKernel(cache.Features(), cache.build), cv, block, blockLen,
                             counter, flags, outblocks))
    ensures out[64 * outblocks..] == old(out[64 * outblocks..])
    ensures cache.Valid()
    ensures cache.cell == old(cache.cell)
  {
    ghost var blocks :=
      XofBlocks(xof, SingleBlockKernel(cache.Features(), cache.build), cv, block, blockLen, counter, flags, outblocks);
    ghost var initial := out[..];
    var i := 0;
    while i < outblocks
      invariant 0 <= i <= outblocks
      invariant cache.Valid()
      invariant cache.cell == old(cache.cell)
      invariant out[..] == Concat(blocks[..i]) + initial[64 * i..]
    {
      ghost var before := out[..];
      CompressXof(cache, cv, block, blockLen, BlockCounter(counter, i), flags, out, 64 * i, xof);
      assert blocks[i] == xof(SingleBlockKernel(cache.Features(), cache.build), cv, block, blockLen,
                              BlockCounter(counter, i), flags);
      assert out[..] == Splice(before, 64 * i, blocks[i]);
      SpliceNextBlock(initial, blocks, i);
      i := i + 1;
    }
    assert blocks[..outblocks] == blocks;
    assert out[..64 * outblocks] == Concat(blocks);
  }

  /** `blake3_xof_many`: no blocks means no work, not even a feature query;
      otherwise the AVX-512 batch kernel or the per-block loop fills
      `out[..64 * outblocks]`, and the rest of `out` is left alone. */
  method XofMany(cache: FeatureCache, cv: Words8, block: Block64, blockLen: bv8, counter: bv64,
                 flags: bv8, out: array<bv8>, outblocks: nat, xof: XofFn, batch: XofBatchFn)
    requires cache.Valid()
    requires 64 * outblocks <= out.Length
    modifies cache, out
    ensures cache.Valid()
    ensures out[..64 * outblocks]
         == XofManyOutput(cache.Features(), cache.build, xof, batch, cv, block, blockLen, counter, flags, outblocks)
    ensures out[64 * outblocks..] == old(out[64 * outblocks..])
    ensures outblocks == 0 || !cache.build.isX86 ==> cache.cell == old(cache.cell)
    ensures outblocks > 0 && cache.build.isX86 ==> cache.cell == cache.Features()
  {
    if outblocks == 0 {
      return;
    }
    if cache.build.isX86 {
      var features := cache.GetCpuFeatures();
      if XofManyUsesBatch(features, cache.build) {
        var r := Concat(BatchBlocks(batch, cv, block, blockLen, counter, flags, outblocks));
        forall j | 0 <= j < 64 * outblocks {
          out[j] := r[j];
        }
        return;
      }
    }
    XofLoop(cache, cv, block, blockLen, counter, flags, out, outblocks, xof);
  }

  /** `blake3_hash_many`: the chosen kernel's output for the whole batch. */
  method HashMany(cache: FeatureCache, inputs: seq<seq<bv8>>, blocks: nat, key: Words8, counter: bv64,
                  incrementCounter: bool, flags: bv8, flagsStart: bv8, flagsEnd: bv8, hash: HashManyFn)
    returns (out: seq<bv8>)
    requires cache.Valid()
    modifies cache
    ensures cache.Valid()
    ensures out == hash(HashManyKernel(cache.Features(), cache.build), inputs, blocks, key, counter,
                        incrementCounter, flags, flagsStart, flagsEnd)
    ensures cache.build.isX86 ==> cache.cell == cache.Features()
    ensures !cache.build.isX86 ==> cache.cell == old(cache.cell)
  {
    var features: Mask := 0;
    if cache.build.isX86 {
      features := cache.GetCpuFeatures();
    }
    var kernel := HashManyKernel(features, cache.build);
    out := hash(kernel, inputs, blocks, key, counter, incrementCounter, flags, flagsStart, flagsEnd);
  }

  /** `blake3_simd_degree`: the lane count of the `hash_many` kernel this host gets. */
  method GetSimdDegree(cache: FeatureCache) returns (degree: nat)
    requires cache.Valid()
    modifies cache
    ensures cache.Valid()
    ensures degree == SimdDegree(cache.Features(), cache.build)
    ensures degree == Lanes(HashManyKernel(cache.Features(), cache.build))
    ensures cache.build.isX86 ==> cache.cell == cache.Features()
    ensures !cache.build.isX86 ==> cache.cell == old(cache.cell)
  {
    var features: Mask := 0;
    if cache.build.isX86 {
      features := cache.GetCpuFeatures();
    }
    degree := SimdDegree(features, cache.build);
    SimdDegreeIsHashManyLanes(features, cache.build);
  }

  // Properties of the dispatch layer.

  /** Output block `i` of `blake3_xof_many` is the batch kernel's block `i`, or the
      single-block kernel's output for counter `counter + i`. */
  lemma XofManyOutputBlock(features: Mask, b: Build, xof: XofFn, batch: XofBatchFn, cv: Words8,
                           block: Block64, blockLen: bv8, counter: bv64, flags: bv8, outblocks: nat, i: nat)
    requires i < outblocks
    ensures XofManyOutput(features, b, xof, batch, cv, block, blockLen, counter, flags, outblocks)[64 * i..64 * i + 64]
         == if XofManyUsesBatch(features, b) then batch(cv, block, blockLen, counter, flags, outblocks, i)
            else xof(SingleBlockKernel(features, b), cv, block, blockLen, BlockCounter(counter, i), flags)
  {
    if XofManyUsesBatch(features, b) {
      ConcatBlock(BatchBlocks(batch, cv, block, blockLen, counter, flags, outblocks), i);
    } else {
      ConcatBlock(XofBlocks(xof, SingleBlockKernel(features, b), cv, block, blockLen, counter, flags, outblocks), i);
    }
  }

  /** Every extended-output kernel computes the same function as the portable one. */
  ghost predicate XofKernelsAgree(xof: XofFn) {
    forall k, cv, block, blockLen, counter, flags ::
      xof(k, cv, block, blockLen, counter, flags) == xof(Portable, cv, block, blockLen, counter, flags)
  }

  /** The batch kernel's block `i` is the single-block output for counter `counter + i`. */
  ghost predicate BatchMatchesBlocks(batch: XofBatchFn, xof: XofFn) {
    forall cv, block, blockLen, counter, flags, n: nat, i: nat | i < n ::
      batch(cv, block, blockLen, counter, flags, n, i) == xof(Avx512, cv, block, blockLen, BlockCounter(counter, i), flags)
  }

  /** When the kernels compute what the portable code computes, `blake3_xof_many`
      writes the portable stream on every host and every build, whichever path it takes. */
  lemma XofManyIsPortableStream(features: Mask, b: Build, xof: XofFn, batch: XofBatchFn, cv: Words8,
                                block: Block64, blockLen: bv8, counter: bv64, flags: bv8, outblocks: nat)
    requires XofKernelsAgree(xof)
    requires BatchMatchesBlocks(batch, xof)
    ensures XofManyOutput(features, b, xof, batch, cv, block, blockLen, counter, flags, outblocks)
         == Concat(XofBlocks(xof, Portable, cv, block, blockLen, counter, flags, outblocks))
  {
    var portable := XofBlocks(xof, Portable, cv, block, blockLen, counter, flags, outblocks);
    if outblocks > 0 {
      if XofManyUsesBatch(features, b) {
        assert BatchBlocks(batch, cv, block, blockLen, counter, flags, outblocks) == portable;
      } else {
        assert XofBlocks(xof, SingleBlockKernel(features, b), cv, block, blockLen, counter, flags, outblocks) == portable;
      }
    }
  }

  /** A kernel is dispatched to only when the decoder found its flags, so the AVX
      family runs only where the OS saves its registers: AVX2 needs OSXSAVE and the
      SSE and AVX state in XCR0, AVX-512 additionally the opmask and ZMM state. */
  lemma DispatchedKernelIsOsSupported(h: Host, b: Build)
    ensures var f := HostFeatures(h, b.amd64);
      (SingleBlockKernel(f, b) == Avx512 || HashManyKernel(f, b) == Avx512 || XofManyUsesBatch(f, b) ==>
         h.leaf1Ecx & 0x800_0000 != 0 && h.xcr0 & 6 == 6 && h.xcr0 & 224 == 224 && 7 <= h.leaf0Eax < 0x8000_0000)
      && (HashManyKernel(f, b) == Avx2 ==>
         h.leaf1Ecx & 0x800_0000 != 0 && h.xcr0 & 6 == 6 && 7 <= h.leaf0Eax < 0x8000_0000 && h.leaf7Ebx & 0x20 != 0)
  {
    FeatureMaskFlags(h.leaf0Eax, h.leaf1Ecx, h.leaf1Edx, h.leaf7Ebx, h.xcr0, b.amd64);
  }
}
