/** The decode branch of `blake3_get_cpu_features`: CPUID and XGETBV results in,
    feature bitmask out. The hardware queries are replaced by the register
    values they return on the host processor; a decode reads at most five of
    them: leaf-0 EAX (the highest leaf), leaf-1 ECX and EDX, leaf-7 EBX and XCR0.
    EDX is not read on x86-64, and XCR0 and leaf-7 EBX only behind their gates.

    The register bits tested are written as literals:
    EDX bit 26 = 0x400_0000 (SSE2), ECX bit 9 = 0x200 (SSSE3),
    ECX bit 19 = 0x8_0000 (SSE4.1), ECX bit 27 = 0x800_0000 (OSXSAVE),
    ECX bit 28 = 0x1000_0000 (AVX), leaf-7 EBX bit 5 = 0x20 (AVX2),
    bit 16 = 0x1_0000 (AVX512F), bit 31 = 0x8000_0000 (AVX512VL);
    XCR0 6 = bits 1-2 (SSE and AVX state),
    XCR0 224 = bits 5-7 (opmask, ZMM_Hi256 and Hi16_ZMM state). */
module Decoder {
  import opened CpuFeature

  /** The register values the host processor answers with. */
  datatype Host = Host(leaf0Eax: bv32, leaf1Ecx: bv32, leaf1Edx: bv32, leaf7Ebx: bv32, xcr0: bv64)

  /** `const int max_id = *eax;`: the unsigned leaf-0 EAX read back as a
      two's-complement 32-bit `int`. */
  function MaxId(eax: bv32): (id: int)
    ensures -0x8000_0000 <= id < 0x8000_0000
    ensures id >= 0 <==> eax < 0x8000_0000
    ensures id >= 7 <==> 7 <= eax < 0x8000_0000
  {
    if eax < 0x8000_0000 then eax as int else eax as int - 0x1_0000_0000
  }

  /** The decoded mask: each flag is set exactly when it passes its tiers of trust. */
  function FeatureMask(leaf0Eax: bv32, ecx: bv32, edx: bv32, ebx7: bv32, xcr0: bv64, amd64: bool): (m: Mask) {
    Pack(amd64 || edx & 0x400_0000 != 0,
         ecx & 0x200 != 0,
         ecx & 0x8_0000 != 0,
         ecx & 0x800_0000 != 0 && xcr0 & 6 == 6 && ecx & 0x1000_0000 != 0,
         ecx & 0x800_0000 != 0 && xcr0 & 6 == 6 && 7 <= leaf0Eax < 0x8000_0000 && ebx7 & 0x20 != 0,
         ecx & 0x800_0000 != 0 && xcr0 & 6 == 6 && 7 <= leaf0Eax < 0x8000_0000 && xcr0 & 224 == 224 && ebx7 & 0x1_0000 != 0,
         ecx & 0x800_0000 != 0 && xcr0 & 6 == 6 && 7 <= leaf0Eax < 0x8000_0000 && xcr0 & 224 == 224 && ebx7 & 0x8000_0000 != 0)
  }

  /** The decoded mask of a host. */
  function HostFeatures(h: Host, amd64: bool): (m: Mask) {
    FeatureMask(h.leaf0Eax, h.leaf1Ecx, h.leaf1Edx, h.leaf7Ebx, h.xcr0, amd64)
  }

  /** The x86 decode of `blake3_get_cpu_features`: `features |= …` under the nested
      gates. XCR0 is consulted only under OSXSAVE, and leaf-7 EBX only when XCR0
      also confirms the AVX state and `max_id >= 7`. */
  method DetectFeatures(leaf0Eax: bv32, ecx: bv32, edx: bv32, ebx7: bv32, xcr0: bv64, amd64: bool)
    returns (features: Mask)
    ensures features == FeatureMask(leaf0Eax, ecx, edx, ebx7, xcr0, amd64)
  {
    features := 0;
    var maxId := MaxId(leaf0Eax);
    if amd64 {
      features := features | SSE2;
    } else if edx & 0x400_0000 != 0 {
      features := features | SSE2;
    }
    if ecx & 0x200 != 0 {
      features := features | SSSE3;
    }
    if ecx & 0x8_0000 != 0 {
      features := features | SSE41;
    }
    if ecx & 0x800_0000 != 0 {
      var mask := xcr0;
      if mask & 6 == 6 {
        if ecx & 0x1000_0000 != 0 {
          features := features | AVX;
        }
        if maxId >= 7 {
          var ebx := ebx7;
          if ebx & 0x20 != 0 {
            features := features | AVX2;
          }
          if mask & 224 == 224 {
            if ebx & 0x8000_0000 != 0 {
              features := features | AVX512VL;
            }
            if ebx & 0x1_0000 != 0 {
              features := features | AVX512F;
            }
          }
        }
      }
    }
  }

  /** Each flag of the decoded mask, with the tiers of trust that admit it;
      no bit outside the seven flags is ever set. */
  lemma FeatureMaskFlags(leaf0Eax: bv32, ecx: bv32, edx: bv32, ebx7: bv32, xcr0: bv64, amd64: bool)
    ensures var m := FeatureMask(leaf0Eax, ecx, edx, ebx7, xcr0, amd64);
      && ValidMask(m)
      && (Has(m, SSE2) <==> amd64 || edx & 0x400_0000 != 0)
      && (Has(m, SSSE3) <==> ecx & 0x200 != 0)
      && (Has(m, SSE41) <==> ecx & 0x8_0000 != 0)
      && (Has(m, AVX) <==> ecx & 0x800_0000 != 0 && xcr0 & 6 == 6 && ecx & 0x1000_0000 != 0)
      && (Has(m, AVX2) <==>
            ecx & 0x800_0000 != 0 && xcr0 & 6 == 6 && 7 <= leaf0Eax < 0x8000_0000 && ebx7 & 0x20 != 0)
      && (Has(m, AVX512F) <==>
            ecx & 0x800_0000 != 0 && xcr0 & 6 == 6 && 7 <= leaf0Eax < 0x8000_0000
            && xcr0 & 224 == 224 && ebx7 & 0x1_0000 != 0)
      && (Has(m, AVX512VL) <==>
            ecx & 0x800_0000 != 0 && xcr0 & 6 == 6 && 7 <= leaf0Eax < 0x8000_0000
            && xcr0 & 224 == 224 && ebx7 & 0x8000_0000 != 0)
  {
    PackFlags(amd64 || edx & 0x400_0000 != 0,
              ecx & 0x200 != 0,
              ecx & 0x8_0000 != 0,
              ecx & 0x800_0000 != 0 && xcr0 & 6 == 6 && ecx & 0x1000_0000 != 0,
              ecx & 0x800_0000 != 0 && xcr0 & 6 == 6 && 7 <= leaf0Eax < 0x8000_0000 && ebx7 & 0x20 != 0,
              ecx & 0x800_0000 != 0 && xcr0 & 6 == 6 && 7 <= leaf0Eax < 0x8000_0000
              && xcr0 & 224 == 224 && ebx7 & 0x1_0000 != 0,
              ecx & 0x800_0000 != 0 && xcr0 & 6 == 6 && 7 <= leaf0Eax < 0x8000_0000
              && xcr0 & 224 == 224 && ebx7 & 0x8000_0000 != 0);
  }

  /** Without OSXSAVE the decode never reads XCR0 (XGETBV would fault there):
      two hosts that differ only in XCR0 decode to the same mask. */
  lemma XcrUnreadWithoutOsXsave(leaf0Eax: bv32, ecx: bv32, edx: bv32, ebx7: bv32, xcr0: bv64, xcr0': bv64, amd64: bool)
    requires ecx & 0x800_0000 == 0
    ensures FeatureMask(leaf0Eax, ecx, edx, ebx7, xcr0, amd64) == FeatureMask(leaf0Eax, ecx, edx, ebx7, xcr0', amd64)
  {
  }

  /** Leaf 7 is queried only under OSXSAVE, with the SSE and AVX state in XCR0 and
      `max_id >= 7`: outside those gates its EBX has no effect on the mask. */
  lemma Leaf7UnreadBehindGates(leaf0Eax: bv32, ecx: bv32, edx: bv32, ebx7: bv32, ebx7': bv32, xcr0: bv64, amd64: bool)
    requires !(ecx & 0x800_0000 != 0 && xcr0 & 6 == 6 && MaxId(leaf0Eax) >= 7)
    ensures FeatureMask(leaf0Eax, ecx, edx, ebx7, xcr0, amd64) == FeatureMask(leaf0Eax, ecx, edx, ebx7', xcr0, amd64)
  {
  }

  /** Without OSXSAVE, XCR0 is never read and no AVX-family flag is reported,
      whatever the CPUID feature bits claim. */
  lemma NoOsXsaveNoAvxFamily(leaf0Eax: bv32, ecx: bv32, edx: bv32, ebx7: bv32, xcr0: bv64, amd64: bool)
    requires ecx & 0x800_0000 == 0
    ensures var m := FeatureMask(leaf0Eax, ecx, edx, ebx7, xcr0, amd64);
      !Has(m, AVX) && !Has(m, AVX2) && !Has(m, AVX512F) && !Has(m, AVX512VL)
  {
    FeatureMaskFlags(leaf0Eax, ecx, edx, ebx7, xcr0, amd64);
  }

  /** When the OS does not save both the SSE and the AVX register state,
      no AVX-family flag is reported. */
  lemma NoAvxStateNoAvxFamily(leaf0Eax: bv32, ecx: bv32, edx: bv32, ebx7: bv32, xcr0: bv64, amd64: bool)
    requires xcr0 & 6 != 6
    ensures var m := FeatureMask(leaf0Eax, ecx, edx, ebx7, xcr0, amd64);
      !Has(m, AVX) && !Has(m, AVX2) && !Has(m, AVX512F) && !Has(m, AVX512VL)
  {
    FeatureMaskFlags(leaf0Eax, ecx, edx, ebx7, xcr0, amd64);
  }

  /** An AVX-512 flag is reported only if the OS saves the full AVX-512 state
      (XCR0 bits 5-7) on top of the AVX state, and leaf 7 exists. */
  lemma Avx512NeedsFullState(leaf0Eax: bv32, ecx: bv32, edx: bv32, ebx7: bv32, xcr0: bv64, amd64: bool)
    ensures var m := FeatureMask(leaf0Eax, ecx, edx, ebx7, xcr0, amd64);
      Has(m, AVX512F) || Has(m, AVX512VL) ==>
        ecx & 0x800_0000 != 0 && xcr0 & 6 == 6 && xcr0 & 224 == 224 && 7 <= leaf0Eax < 0x8000_0000
  {
    FeatureMaskFlags(leaf0Eax, ecx, edx, ebx7, xcr0, amd64);
  }

  /** AVX2 is decided by leaf-7 EBX bit 5 under the OS gates, not by the leaf-1
      AVX bit: two hosts differing only in ECX bit 28 agree on AVX2. */
  lemma Avx2IgnoresAvxBit(leaf0Eax: bv32, ecx: bv32, edx: bv32, ebx7: bv32, xcr0: bv64, amd64: bool)
    ensures Has(FeatureMask(leaf0Eax, ecx | 0x1000_0000, edx, ebx7, xcr0, amd64), AVX2)
        <==> Has(FeatureMask(leaf0Eax, ecx & !0x1000_0000, edx, ebx7, xcr0, amd64), AVX2)
  {
    FeatureMaskFlags(leaf0Eax, ecx | 0x1000_0000, edx, ebx7, xcr0, amd64);
    FeatureMaskFlags(leaf0Eax, ecx & !0x1000_0000, edx, ebx7, xcr0, amd64);
  }

  /** SSE2, SSSE3 and SSE4.1 come from leaf 1 alone: they do not depend on the
      highest leaf, on leaf 7 or on XCR0. */
  lemma SseFamilyFromLeaf1(leaf0Eax: bv32, ecx: bv32, edx: bv32, ebx7: bv32, xcr0: bv64,
                           leaf0Eax': bv32, ebx7': bv32, xcr0': bv64, amd64: bool)
    ensures var m := FeatureMask(leaf0Eax, ecx, edx, ebx7, xcr0, amd64);
      var m' := FeatureMask(leaf0Eax', ecx, edx, ebx7', xcr0', amd64);
      && (Has(m, SSE2) <==> Has(m', SSE2))
      && (Has(m, SSSE3) <==> Has(m', SSSE3))
      && (Has(m, SSE41) <==> Has(m', SSE41))
  {
    FeatureMaskFlags(leaf0Eax, ecx, edx, ebx7, xcr0, amd64);
    FeatureMaskFlags(leaf0Eax', ecx, edx, ebx7', xcr0', amd64);
  }

  /** A leaf-0 EAX at or above 2^31 reads as a negative `max_id`, so leaf 7 is
      never queried and its EBX has no effect: no AVX2 or AVX-512 flag. */
  lemma NegativeMaxIdSkipsLeaf7(leaf0Eax: bv32, ecx: bv32, edx: bv32, ebx7: bv32, xcr0: bv64, amd64: bool)
    requires leaf0Eax >= 0x8000_0000
    ensures MaxId(leaf0Eax) < 0
    ensures var m := FeatureMask(leaf0Eax, ecx, edx, ebx7, xcr0, amd64);
      !Has(m, AVX2) && !Has(m, AVX512F) && !Has(m, AVX512VL)
  {
    FeatureMaskFlags(leaf0Eax, ecx, edx, ebx7, xcr0, amd64);
  }

  /** On x86-64 SSE2 is architectural: it is reported whatever EDX says. */
  lemma Amd64HasSse2(leaf0Eax: bv32, ecx: bv32, edx: bv32, ebx7: bv32, xcr0: bv64)
    ensures Has(FeatureMask(leaf0Eax, ecx, edx, ebx7, xcr0, true), SSE2)
  {
    FeatureMaskFlags(leaf0Eax, ecx, edx, ebx7, xcr0, true);
  }

  /** A decoded mask is never the cache's "not yet computed" sentinel. */
  lemma DecodedIsDefined(leaf0Eax: bv32, ecx: bv32, edx: bv32, ebx7: bv32, xcr0: bv64, amd64: bool)
    ensures ValidMask(FeatureMask(leaf0Eax, ecx, edx, ebx7, xcr0, amd64))
    ensures FeatureMask(leaf0Eax, ecx, edx, ebx7, xcr0, amd64) != UNDEFINED
  {
    FeatureMaskFlags(leaf0Eax, ecx, edx, ebx7, xcr0, amd64);
    ValidMaskIsDefined(FeatureMask(leaf0Eax, ecx, edx, ebx7, xcr0, amd64));
  }
}
