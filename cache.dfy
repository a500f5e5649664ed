/** The process-wide feature cache behind `blake3_get_cpu_features`: one cell,
    `g_blake3_cpu_features`, that starts out UNDEFINED and, after the first
    query, holds the decoded mask of the host for good. */
module Cache {
  import opened CpuFeature
  import opened Decoder

  class FeatureCache {
    /** The processor the program runs on: what its CPUID and XGETBV answer. */
    const host: Host
    /** The build the dispatch layer was compiled as. */
    const build: Build
    /** The cached mask, `g_blake3_cpu_features`. */
    var cell: Mask
    /** How many times the host has been decoded so far. */
    ghost var decodes: nat

    /** The cell is either unset or the host's decoded mask; nothing else is ever
        stored, and the host has been decoded once exactly when the cell is set. */
    ghost predicate Valid()
      reads this
    {
      && (cell == UNDEFINED || cell == HostFeatures(host, build.amd64))
      && decodes == (if cell == UNDEFINED then 0 else 1)
    }

    /** The mask every query of this cache answers. */
    ghost function Features(): Mask {
      HostFeatures(host, build.amd64)
    }

    /** Program start: the cell is statically initialised to UNDEFINED. */
    constructor (host: Host, build: Build)
      ensures this.host == host && this.build == build
      ensures cell == UNDEFINED
      ensures decodes == 0
      ensures Valid()
    {
      this.host := host;
      this.build := build;
      cell := UNDEFINED;
      decodes := 0;
    }

    /** `blake3_get_cpu_features`: a cached mask is returned as it is; otherwise the
        host is decoded, the result stored in the cell and returned. Every call
        answers the same mask, after any call the cell holds it, and the host is
        decoded once over the life of the cache. */
    method GetCpuFeatures() returns (features: Mask)
      requires Valid()
      modifies this
      ensures Valid()
      ensures features == Features()
      ensures cell == features
      ensures old(cell) != UNDEFINED ==> cell == old(cell) && decodes == old(decodes)
      ensures decodes == 1
    {
      features := cell;
      if features != UNDEFINED {
        return features;
      }
      decodes := decodes + 1;
      features := DetectFeatures(host.leaf0Eax, host.leaf1Ecx, host.leaf1Edx, host.leaf7Ebx, host.xcr0, build.amd64);
      DecodedIsDefined(host.leaf0Eax, host.leaf1Ecx, host.leaf1Edx, host.leaf7Ebx, host.xcr0, build.amd64);
      cell := features;
    }
  }

  /** Two queries in a row answer the same mask, and the second one finds it cached:
      the host has been decoded once in all. */
  method QueryTwice(c: FeatureCache) returns (first: Mask, second: Mask)
    requires c.Valid()
    modifies c
    ensures first == second == c.Features()
    ensures c.cell == first
    ensures c.decodes == 1
  {
    first := c.GetCpuFeatures();
    assert c.cell != UNDEFINED by {
      DecodedIsDefined(c.host.leaf0Eax, c.host.leaf1Ecx, c.host.leaf1Edx, c.host.leaf7Ebx, c.host.xcr0, c.build.amd64);
    }
    second := c.GetCpuFeatures();
  }
}
