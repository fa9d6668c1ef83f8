/** The parts of the GPU rendering library that the editor only refers to:
    textures and samplers as opaque handles, and a device that creates them.
    Only identity and the creation log matter here; pixel contents do not. */
module Gpu {

  /** A GPU texture: created by the device, or loaded from an image file. */
  class GpuTexture {
    const width: int
    const height: int
    const format: string

    constructor (width: int, height: int, format: string)
      ensures this.width == width && this.height == height && this.format == format
    {
      this.width := width;
      this.height := height;
      this.format := format;
    }
  }

  datatype FilterMode = Linear | Nearest

  datatype AddressMode = Repeat | ClampToEdge | MirrorRepeat

  /** What a sampler was created with; `LibraryDefault` is whatever the renderer's
      own `createSampler()` chooses, which is not part of this model. */
  datatype SamplerDescriptor =
    | LibraryDefault
    | Descriptor(magFilter: FilterMode, minFilter: FilterMode, mipmapFilter: FilterMode,
                 addressModeU: AddressMode, addressModeV: AddressMode, addressModeW: AddressMode)

  /** A sampler handle: the device's creation number plus its descriptor. */
  datatype Sampler = Sampler(id: nat, descriptor: SamplerDescriptor)

  /** The GPU device, reduced to its log of created samplers. */
  class Device {
    var created: seq<SamplerDescriptor>

    constructor ()
      ensures created == []
    {
      created := [];
    }

    method CreateSampler(d: SamplerDescriptor) returns (s: Sampler)
      modifies this
      ensures created == old(created) + [d]
      ensures s == Sampler(|old(created)|, d)
    {
      s := Sampler(|created|, d);
      created := created + [d];
    }

    method CreateTexture(width: int, height: int, format: string) returns (t: GpuTexture)
      ensures fresh(t) && t.width == width && t.height == height && t.format == format
    {
      t := new GpuTexture(width, height, format);
    }
  }
}
