/** The sampler store: one GPU sampler per filter key, created on first use. */
module Samplers {
  import opened Gpu

  /** The descriptor `getSampler` creates for `key`: linear filtering exactly for
      the key "linear" (anything else filters by nearest), repeat addressing on
      all three axes. */
  function DescriptorFor(key: string): (d: SamplerDescriptor)
    ensures d.Descriptor?
    ensures d.magFilter == d.minFilter == d.mipmapFilter
    ensures d.magFilter == Linear <==> key == "linear"
    ensures d.addressModeU == d.addressModeV == d.addressModeW == Repeat
  {
    var f := if key == "linear" then Linear else Nearest;
    Descriptor(f, f, f, Repeat, Repeat, Repeat)
  }

  /** Every cached sampler was created with the descriptor for its key. */
  predicate CacheValid(cache: map<string, Sampler>)
  {
    forall k :: k in cache ==> cache[k].descriptor == DescriptorFor(k)
  }

  /** The store's get-or-create step on its cache map; `nextId` is the number the
      device would give a new sampler. The answer is always the entry for `key`
      afterwards, entries already cached never change, only `key` may be added,
      and a new sampler is made only on a miss. */
  function Lookup(cache: map<string, Sampler>, key: string, nextId: nat): (r: (Sampler, map<string, Sampler>))
    ensures r.1.Keys == cache.Keys + {key}
    ensures key in r.1 && r.1[key] == r.0
    ensures forall k :: k in cache ==> r.1[k] == cache[k]
    ensures key !in cache ==> r.0.id == nextId
    ensures CacheValid(cache) ==> CacheValid(r.1) && r.0.descriptor == DescriptorFor(key)
  {
    if key in cache then (cache[key], cache)
    else
      var s := Sampler(nextId, DescriptorFor(key));
      (s, cache[key := s])
  }

  /** Asking twice for the same key: the second answer equals the first, and the
      cache does not change again. */
  lemma LookupIdempotent(cache: map<string, Sampler>, key: string, n1: nat, n2: nat)
    ensures var (s1, c1) := Lookup(cache, key, n1);
            var (s2, c2) := Lookup(c1, key, n2);
            s2 == s1 && c2 == c1
  {
  }

  class SamplerStore {
    var samplers: map<string, Sampler>

    constructor ()
      ensures samplers == map[]
    {
      samplers := map[];
    }

    /** `getSampler(key, renderer)`: the cached sampler for `key` on a hit, with the
        device untouched; on a miss one new sampler from the device, then cached. */
    method GetSampler(key: string, device: Device) returns (s: Sampler)
      modifies this, device
      ensures (s, samplers) == Lookup(old(samplers), key, |old(device.created)|)
      ensures device.created == old(device.created) + (if key in old(samplers) then [] else [DescriptorFor(key)])
    {
      if key in samplers {
        s := samplers[key];
      } else {
        s := device.CreateSampler(DescriptorFor(key));
        samplers := samplers[key := s];
      }
    }
  }
}
