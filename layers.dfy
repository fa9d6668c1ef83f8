/** The layer store: image layers with their render passes and effects, the
    material table, the per-frame callbacks, and the base-shader text cache. */
module Layers {
  import opened Common
  import opened Gpu
  import opened EffectModel
  import opened Samplers
  import WaterRipple

  /** A loaded image or mask: its object URL, GPU texture and pixel size. */
  datatype Material = Material(url: string, texture: GpuTexture, width: int, height: int)

  /** The value `crc32` returns: an unsigned 32-bit integer. */
  type Checksum = x: nat | x < 0x1_0000_0000

  /** An image file as the store reads it: its name and the CRC-32 of its bytes. */
  datatype ImageFile = ImageFile(name: string, checksum: Checksum)

  /** `crc32(data).toString(16).padStart(8, '0')` */
  function CrcHex(c: Checksum): string
  {
    PadStart(ToRadix(c, 16), 8, '0')
  }

  /** The layer key is exactly eight lower-case hex digits that spell the checksum,
      so distinct checksums give distinct keys. */
  lemma CrcHexExact(c: Checksum)
    ensures |CrcHex(c)| == 8
    ensures AllDigits(CrcHex(c), 16) && ParseRadix(CrcHex(c), 16) == c
  {
    var digits := ToRadix(c, 16);
    assert Pow16(8) == 0x1_0000_0000;
    HexLength(c, Pow16(8), 8);
    ToRadixRoundTrip(c, 16);
    LeadingZeros(8 - |digits|, digits, 16);
    assert CrcHex(c) == RepeatChar('0', 8 - |digits|) + digits;
  }

  lemma CrcHexInjective(a: Checksum, b: Checksum)
    requires CrcHex(a) == CrcHex(b)
    ensures a == b
  {
    CrcHexExact(a);
    CrcHexExact(b);
  }

  const BaseShaderName := "base-layer"

  function BasePassName(crc: string): string { crc + "__base-shader" }

  function MaterialKey(crc: string): string { crc + "__meterial" }

  class ImageLayer {
    var name: string
    var url: string
    var crc: string
    var width: int
    var height: int
    var passes: seq<PassOptions>
    var effects: seq<Effect>

    /** `createImageLayer`: `objectUrl` is the URL created for the file. */
    constructor (file: ImageFile, objectUrl: string)
      ensures name == file.name && url == objectUrl && crc == CrcHex(file.checksum)
      ensures width == 0 && height == 0 && passes == [] && effects == []
    {
      name := file.name;
      url := objectUrl;
      crc := CrcHex(file.checksum);
      width := 0;
      height := 0;
      passes := [];
      effects := [];
    }

    /** The size and the base pass `addImage` sets once the image has loaded. */
    method SetImage(w: int, h: int, basePass: PassOptions)
      modifies this
      ensures width == w && height == h && passes == old(passes) + [basePass]
      ensures name == old(name) && url == old(url) && crc == old(crc) && effects == old(effects)
    {
      width := w;
      height := h;
      passes := passes + [basePass];
    }
  }

  /** The passes getter: every layer's passes, concatenated in layer order. */
  function LayerPasses(layers: seq<ImageLayer>): (r: seq<PassOptions>)
    reads layers
    ensures |layers| == 1 ==> r == layers[0].passes
    decreases |layers|
  {
    if |layers| == 0 then [] else LayerPasses(layers[..|layers| - 1]) + layers[|layers| - 1].passes
  }

  /** A pass is flattened out exactly when some layer holds it. */
  lemma {:induction false} LayerPassesMembers(layers: seq<ImageLayer>)
    ensures forall i, k :: 0 <= i < |layers| && 0 <= k < |layers[i].passes| ==> layers[i].passes[k] in LayerPasses(layers)
    ensures forall j :: 0 <= j < |LayerPasses(layers)| ==> exists i :: 0 <= i < |layers| && LayerPasses(layers)[j] in layers[i].passes
    decreases |layers|
  {
    if |layers| > 0 {
      var n := |layers| - 1;
      var init := layers[..n];
      LayerPassesMembers(init);
      var r := LayerPasses(layers);
      assert r == LayerPasses(init) + layers[n].passes;
      forall j | 0 <= j < |r|
        ensures exists i :: 0 <= i < |layers| && r[j] in layers[i].passes
      {
        if j < |LayerPasses(init)| {
          var i :| 0 <= i < |init| && LayerPasses(init)[j] in init[i].passes;
          assert layers[i] == init[i];
        } else {
          assert r[j] == layers[n].passes[j - |LayerPasses(init)|];
        }
      }
      forall i, k | 0 <= i < |layers| && 0 <= k < |layers[i].passes|
        ensures layers[i].passes[k] in r
      {
        if i < n {
          assert layers[i] == init[i];
        } else {
          assert r[|LayerPasses(init)| + k] == layers[i].passes[k];
        }
      }
    } else {
      assert LayerPasses(layers) == [];
    }
  }

  /** Appending a layer appends its passes. */
  lemma LayerPassesAppend(layers: seq<ImageLayer>, l: ImageLayer)
    ensures LayerPasses(layers + [l]) == LayerPasses(layers) + l.passes
  {
    assert (layers + [l])[..|layers|] == layers;
  }

  /** Concatenation distributes over splitting the layer list. */
  lemma {:induction false} LayerPassesSplit(xs: seq<ImageLayer>, ys: seq<ImageLayer>)
    ensures LayerPasses(xs + ys) == LayerPasses(xs) + LayerPasses(ys)
    decreases |ys|
  {
    if |ys| == 0 {
      assert xs + ys == xs;
    } else {
      var init := ys[..|ys| - 1];
      LayerPassesSplit(xs, init);
      assert (xs + ys)[..|xs + ys| - 1] == xs + init;
    }
  }

  /** The text `createShader(name)` returns: the cached text unless it is missing or empty. */
  function ShaderText(shaders: map<string, string>, name: string, fetched: string): string
  {
    CachedText(if name in shaders then Some(shaders[name]) else None, fetched)
  }

  /** The module-level `shaders` record behind `createShader`. */
  class ShaderLibrary {
    var shaders: map<string, string>

    constructor ()
      ensures shaders == map[]
    {
      shaders := map[];
    }

    /** `createShader(name)`: a cached non-empty text is returned as is; otherwise
        `fetched` (the text of `/effects/<name>.wgsl`) is stored and returned. */
    method CreateShader(name: string, fetched: string) returns (code: string)
      modifies this
      ensures code == ShaderText(old(shaders), name, fetched)
      ensures shaders == old(shaders)[name := code]
    {
      if name in shaders && shaders[name] != "" {
        code := shaders[name];
      } else {
        code := fetched;
      }
      shaders := shaders[name := code];
    }
  }

  /** The rendering library's renderer, reduced to its device and the passes
      added to it. */
  class Renderer {
    const device: Device
    var passes: seq<PassOptions>

    constructor (device: Device)
      ensures this.device == device && passes == []
    {
      this.device := device;
      passes := [];
    }

    method AddPass(p: PassOptions)
      modifies this
      ensures passes == old(passes) + [p]
    {
      passes := passes + [p];
    }

    /** `createSampler()` with the library's own defaults. */
    method CreateSampler() returns (s: Sampler)
      modifies device
      ensures device.created == old(device.created) + [LibraryDefault]
      ensures s == Sampler(|old(device.created)|, LibraryDefault)
    {
      s := device.CreateSampler(LibraryDefault);
    }
  }

  /** A per-frame callback: write `t * 0.001` into the time slot of `uniforms`,
      then commit. */
  datatype FrameCallback = TimeWriter(uniforms: Uniforms)

  /** Run one frame callback at time `t` (milliseconds). A Float32Array ignores a
      write past its end, so a buffer of at most four slots only gets committed. */
  method RunFrame(cb: FrameCallback, t: real)
    modifies cb.uniforms, cb.uniforms.values
    ensures cb.uniforms.values[..] ==
      if WaterRipple.TimeSlot < cb.uniforms.values.Length
      then old(cb.uniforms.values[..])[WaterRipple.TimeSlot := t * 0.001]
      else old(cb.uniforms.values[..])
    ensures cb.uniforms.committed == cb.uniforms.values[..]
    ensures cb.uniforms.commits == old(cb.uniforms.commits) + 1
  {
    if WaterRipple.TimeSlot < cb.uniforms.values.Length {
      cb.uniforms.values[WaterRipple.TimeSlot] := t * 0.001;
    }
    cb.uniforms.Apply();
  }

  /** `new ImageData(width, height)` filled white: four bytes per pixel, set four
      at a time, every byte 255. The browser throws for an empty size, so callers
      check it first. */
  method WhiteImageData(width: int, height: int) returns (data: array<int>)
    requires width > 0 && height > 0
    ensures fresh(data) && data.Length == width * height * 4
    ensures forall k :: 0 <= k < data.Length ==> data[k] == 255
  {
    data := new int[width * height * 4];
    var i := 0;
    while i < data.Length
      invariant 0 <= i <= data.Length && i % 4 == 0
      invariant data.Length % 4 == 0
      invariant forall k :: 0 <= k < i ==> data[k] == 255
    {
      data[i] := 255;
      data[i + 1] := 255;
      data[i + 2] := 255;
      data[i + 3] := 255;
      i := i + 4;
    }
  }

  /** What the asynchronous parts of `addImage` produce: the loaded texture and
      its size, and the text of the base shader if it has to be fetched. */
  datatype LoadedImage = LoadedImage(texture: GpuTexture, width: int, height: int, fetchedShader: string)

  /** What the asynchronous parts of `addEffect('water-ripple')` produce: the
      white mask (texture, size and object URL), the clock reading, the loaded
      normal texture and the fetched effect shader. */
  datatype RippleAssets = RippleAssets(whiteTexture: GpuTexture, whiteWidth: int, whiteHeight: int, whiteUrl: string,
                                       now: real, normalTexture: GpuTexture, fetchedShader: string)

  /** The module-level caches of the water-ripple factory and the sampler store. */
  datatype RippleCaches = RippleCaches(samplers: SamplerStore, normals: TextureCache, shaders: TextCache)

  /** A layer as `addImage` leaves it: named after the file, keyed by the CRC
      hex string, sized as the loaded image, no effects, and exactly one pass, the
      base pass `<crc>__base-shader` drawing [texture, sampler]. */
  ghost predicate LoadedLayer(layer: ImageLayer, file: ImageFile, objectUrl: string, shaderCode: string,
                              loaded: LoadedImage, sampler: Sampler)
    reads layer
  {
    && layer.name == file.name && layer.url == objectUrl && layer.crc == CrcHex(file.checksum)
    && layer.width == loaded.width && layer.height == loaded.height && layer.effects == []
    && layer.passes == [PassOptions(BasePassName(layer.crc), shaderCode,
                                    [TextureRes(loaded.texture), SamplerRes(sampler)], None, None)]
  }

  /** `createImageLayer`, then the size and the base pass `addImage` gives it. */
  method NewLayer(file: ImageFile, objectUrl: string, shaderCode: string, loaded: LoadedImage, sampler: Sampler)
    returns (layer: ImageLayer)
    ensures fresh(layer) && LoadedLayer(layer, file, objectUrl, shaderCode, loaded, sampler)
  {
    layer := new ImageLayer(file, objectUrl);
    layer.SetImage(loaded.width, loaded.height, PassOptions(BasePassName(layer.crc), shaderCode,
                                                        [TextureRes(loaded.texture), SamplerRes(sampler)], None, None));
  }

  /** The layer's first pass is its base pass. */
  predicate BaseFirst(l: ImageLayer)
    reads l
  {
    |l.passes| >= 1 && l.passes[0].name == BasePassName(l.crc)
  }

  /** The loading half of `addImage`: the base shader through the shader cache,
      a sampler with the library's defaults, then the layer itself. */
  method LoadLayer(file: ImageFile, objectUrl: string, shaderLib: ShaderLibrary, renderer: Renderer,
                   loaded: LoadedImage)
    returns (layer: ImageLayer)
    modifies shaderLib, renderer.device
    ensures fresh(layer)
    ensures var code := ShaderText(old(shaderLib.shaders), BaseShaderName, loaded.fetchedShader);
            && LoadedLayer(layer, file, objectUrl, code, loaded, Sampler(|old(renderer.device.created)|, LibraryDefault))
            && shaderLib.shaders == old(shaderLib.shaders)[BaseShaderName := code]
    ensures renderer.device.created == old(renderer.device.created) + [LibraryDefault]
  {
    var baseShader := shaderLib.CreateShader(BaseShaderName, loaded.fetchedShader);
    var sampler := renderer.CreateSampler();
    layer := NewLayer(file, objectUrl, baseShader, loaded, sampler);
  }

  /** `createWaterRippleEffect(renderer, { baseTexture, maskTexture })` with the
      store's caches and loaded assets; the factory's own contract says the rest. */
  method RippleOver(device: Device, caches: RippleCaches, assets: RippleAssets,
                    baseTexture: Resource, maskTexture: Resource)
    returns (e: Effect)
    modifies device, caches.samplers, caches.normals, caches.shaders
    ensures fresh(e) && e.name == WaterRipple.EffectName && e.shape.SinglePass?
    ensures |e.shape.resources| == 5 && e.shape.resources[2] == baseTexture && e.shape.resources[3] == maskTexture
  {
    e := WaterRipple.CreateWaterRippleEffect(assets.now, device, caches.samplers, caches.normals, assets.normalTexture,
                                             caches.shaders, assets.fetchedShader, baseTexture, maskTexture);
  }

  class LayerStore {
    var renderer: Renderer?
    var imageLayers: seq<ImageLayer>
    var materials: Entries<string, Material>
    var updateFrame: seq<FrameCallback>

    constructor ()
      ensures renderer == null && imageLayers == [] && materials == [] && updateFrame == []
    {
      renderer := null;
      imageLayers := [];
      materials := [];
      updateFrame := [];
    }

    /** Every layer keeps its base pass first; material names are unique. */
    predicate Valid()
      reads this, imageLayers
    {
      && DistinctKeys(materials)
      && forall l :: l in imageLayers ==> BaseFirst(l)
    }

    /** The `passes` getter: exactly the passes of the layers. */
    function Passes(): seq<PassOptions>
      reads this, imageLayers
    {
      LayerPasses(imageLayers)
    }

    /** `materials.set(key, material)`: names stay unique and `key` now maps to
        `material`. */
    method PutMaterial(key: string, material: Material)
      requires DistinctKeys(materials)
      modifies this
      ensures materials == Set(old(materials), key, material)
      ensures DistinctKeys(materials) && Get(materials, key) == Some(material)
      ensures Get(old(materials), key).None? ==> materials == old(materials) + [(key, material)]
      ensures renderer == old(renderer) && imageLayers == old(imageLayers) && updateFrame == old(updateFrame)
    {
      SetKeepsDistinct(materials, key, material);
      SetSpec(materials, key, material);
      GetSet(materials, key, material, key);
      materials := Set(materials, key, material);
    }

    /** The bookkeeping half of `addImage`: record the layer's material, append
        the layer and hand its base pass to the renderer. */
    method PushLayer(layer: ImageLayer, texture: GpuTexture)
      requires Valid() && renderer != null && BaseFirst(layer)
      modifies this, renderer
      ensures Valid()
      ensures renderer == old(renderer) && updateFrame == old(updateFrame)
      ensures imageLayers == old(imageLayers) + [layer]
      ensures imageLayers[..|old(imageLayers)|] == old(imageLayers) && imageLayers[|old(imageLayers)|] == layer
      ensures materials == Set(old(materials), MaterialKey(layer.crc), Material(layer.url, texture, layer.width, layer.height))
      ensures Get(materials, MaterialKey(layer.crc)) == Some(Material(layer.url, texture, layer.width, layer.height))
      ensures renderer.passes == old(renderer.passes) + [layer.passes[0]]
      ensures Passes() == old(Passes()) + layer.passes
    {
      PutMaterial(MaterialKey(layer.crc), Material(layer.url, texture, layer.width, layer.height));
      LayerPassesAppend(imageLayers, layer);
      imageLayers := imageLayers + [layer];
      renderer.AddPass(layer.passes[0]);
    }

    /** LoadLayer with this store's renderer; the store itself is left alone. */
    method Load(file: ImageFile, objectUrl: string, shaderLib: ShaderLibrary, loaded: LoadedImage)
      returns (layer: ImageLayer)
      requires Valid() && renderer != null
      modifies shaderLib, renderer.device
      ensures fresh(layer)
      ensures LoadedLayer(layer, file, objectUrl, ShaderText(old(shaderLib.shaders), BaseShaderName, loaded.fetchedShader),
                          loaded, Sampler(|old(renderer.device.created)|, LibraryDefault))
      ensures shaderLib.shaders == old(shaderLib.shaders)[BaseShaderName := ShaderText(old(shaderLib.shaders), BaseShaderName, loaded.fetchedShader)]
      ensures Valid() && Passes() == old(Passes()) && renderer.passes == old(renderer.passes)
    {
      layer := LoadLayer(file, objectUrl, shaderLib, renderer, loaded);
    }

    /** PushLayer for a layer just loaded from `file`. */
    method PushLoaded(layer: ImageLayer, ghost file: ImageFile, ghost objectUrl: string, ghost code: string,
                      loaded: LoadedImage, ghost sampler: Sampler)
      requires Valid() && renderer != null && LoadedLayer(layer, file, objectUrl, code, loaded, sampler)
      modifies this, renderer
      ensures Valid()
      ensures renderer == old(renderer) && updateFrame == old(updateFrame)
      ensures |imageLayers| == |old(imageLayers)| + 1
      ensures imageLayers[..|old(imageLayers)|] == old(imageLayers) && imageLayers[|old(imageLayers)|] == layer
      ensures LoadedLayer(layer, file, objectUrl, code, loaded, sampler)
      ensures materials == Set(old(materials), MaterialKey(layer.crc), Material(objectUrl, loaded.texture, loaded.width, loaded.height))
      ensures Get(materials, MaterialKey(layer.crc)) == Some(Material(layer.url, loaded.texture, layer.width, layer.height))
      ensures renderer.passes == old(renderer.passes) + [layer.passes[0]]
      ensures Passes() == old(Passes()) + layer.passes
    {
      PushLayer(layer, loaded.texture);
    }

    /** `addImage(file)`. Without a renderer nothing happens. Otherwise one new
        layer is appended (see LoadedLayer), material `<crc>__meterial` records
        the layer URL and the loaded size, and the layer's base pass is added to
        the renderer. */
    method AddImage(file: ImageFile, objectUrl: string, shaderLib: ShaderLibrary, loaded: LoadedImage)
      requires Valid()
      modifies this, renderer, shaderLib
      modifies if renderer == null then {} else {renderer.device}
      ensures Valid()
      ensures renderer == old(renderer) && updateFrame == old(updateFrame)
      ensures old(renderer) == null ==>
        imageLayers == old(imageLayers) && materials == old(materials) && shaderLib.shaders == old(shaderLib.shaders)
      ensures old(renderer) != null ==>
        && |imageLayers| == |old(imageLayers)| + 1
        && imageLayers[..|old(imageLayers)|] == old(imageLayers)
        && var layer := imageLayers[|old(imageLayers)|];
           var code := ShaderText(old(shaderLib.shaders), BaseShaderName, loaded.fetchedShader);
           && fresh(layer)
           && LoadedLayer(layer, file, objectUrl, code, loaded, Sampler(|old(renderer.device.created)|, LibraryDefault))
           && shaderLib.shaders == old(shaderLib.shaders)[BaseShaderName := code]
           && materials == Set(old(materials), MaterialKey(layer.crc), Material(objectUrl, loaded.texture, loaded.width, loaded.height))
           && Get(materials, MaterialKey(layer.crc)) == Some(Material(layer.url, loaded.texture, layer.width, layer.height))
           && renderer.passes == old(renderer.passes) + [layer.passes[0]]
           && Passes() == old(Passes()) + layer.passes
    {
      if renderer != null {
        var layer := Load(file, objectUrl, shaderLib, loaded);
        PushLoaded(layer, file, objectUrl, ShaderText(old(shaderLib.shaders), BaseShaderName, loaded.fetchedShader),
                   loaded, Sampler(|old(renderer.device.created)|, LibraryDefault));
      }
    }

    /** `if (!materials.has(key)) materials.set(key, material)`, then
        `materials.get(key)`. */
    method MaterialOrPut(key: string, material: Material) returns (m: Material)
      requires DistinctKeys(materials)
      modifies this
      ensures Get(old(materials), key).Some? ==> m == Get(old(materials), key).value && materials == old(materials)
      ensures Get(old(materials), key).None? ==> m == material && materials == old(materials) + [(key, material)]
      ensures DistinctKeys(materials) && Get(materials, key) == Some(m)
      ensures renderer == old(renderer) && imageLayers == old(imageLayers) && updateFrame == old(updateFrame)
    {
      var found := Get(materials, key);
      if found.None? {
        PutMaterial(key, material);
        m := material;
      } else {
        m := found.value;
      }
    }

    /** The "water-ripple" case of `addEffect` on a layer with a non-empty size:
        the white mask material is created only if absent; a water-ripple effect
        over the layer's base pass output and the white mask is appended to the
        layer's effects, its pass is added to the renderer, and one frame callback
        on its buffer is registered. */
    method AddRipple(layer: ImageLayer, caches: RippleCaches, assets: RippleAssets) returns (e: Effect)
      requires Valid() && renderer != null && layer in imageLayers
      requires layer.width > 0 && layer.height > 0
      modifies this, renderer, renderer.device, caches.samplers, caches.normals, caches.shaders, layer
      ensures Valid()
      ensures renderer == old(renderer) && imageLayers == old(imageLayers)
      ensures fresh(e) && e.name == WaterRipple.EffectName
      ensures layer.effects == old(layer.effects) + [e]
      ensures updateFrame == old(updateFrame) + [TimeWriter(e.uniforms)]
      ensures var white := Material(assets.whiteUrl, assets.whiteTexture, assets.whiteWidth, assets.whiteHeight);
              materials == if Get(old(materials), WaterRipple.WhiteMask).Some? then old(materials)
                           else old(materials) + [(WaterRipple.WhiteMask, white)]
      ensures Get(materials, WaterRipple.WhiteMask).Some?
      ensures e.shape.SinglePass? && |e.shape.resources| == 5
      ensures e.shape.resources[2] == PassTexture(BasePassName(layer.crc))
      ensures e.shape.resources[3] == TextureRes(Get(materials, WaterRipple.WhiteMask).value.texture)
      ensures renderer.passes == old(renderer.passes) + [e.PassOptionsOf()]
      ensures forall l :: l in imageLayers ==> l.passes == old(l.passes) && l.crc == old(l.crc)
      ensures forall l :: l in imageLayers ==>
                l.name == old(l.name) && l.url == old(l.url) && l.width == old(l.width) && l.height == old(l.height)
      ensures forall l :: l in imageLayers && l != layer ==> l.effects == old(l.effects)
    {
      var imageData := WhiteImageData(layer.width, layer.height);
      var mask := MaterialOrPut(WaterRipple.WhiteMask, Material(assets.whiteUrl, assets.whiteTexture, assets.whiteWidth, assets.whiteHeight));
      e := RippleOver(renderer.device, caches, assets, PassTexture(BasePassName(layer.crc)), TextureRes(mask.texture));
      Attach(layer, e);
    }

    /** The end of `addEffect`: the effect joins the layer, its pass the renderer,
        and its time writer the frame callbacks. */
    method Attach(layer: ImageLayer, e: Effect)
      requires Valid() && renderer != null && layer in imageLayers && e.shape.SinglePass?
      modifies this, renderer, layer
      ensures Valid()
      ensures renderer == old(renderer) && imageLayers == old(imageLayers) && materials == old(materials)
      ensures layer.effects == old(layer.effects) + [e]
      ensures updateFrame == old(updateFrame) + [TimeWriter(e.uniforms)]
      ensures renderer.passes == old(renderer.passes) + [e.PassOptionsOf()]
      ensures forall l :: l in imageLayers ==> l.passes == old(l.passes) && l.crc == old(l.crc)
      ensures forall l :: l in imageLayers ==>
                l.name == old(l.name) && l.url == old(l.url) && l.width == old(l.width) && l.height == old(l.height)
      ensures forall l :: l in imageLayers && l != layer ==> l.effects == old(l.effects)
    {
      layer.effects := layer.effects + [e];
      renderer.AddPass(e.PassOptionsOf());
      updateFrame := updateFrame + [TimeWriter(e.uniforms)];
    }

    /** `addEffect(layerIndex, effectName)`. Nothing happens without a renderer,
        for an index with no layer, or for any name but "water-ripple"; for that
        name see AddRipple. `new ImageData` throws for an empty image, and then
        nothing changes either. */
    method AddEffect(layerIndex: int, effectName: string, caches: RippleCaches, assets: RippleAssets)
      returns (added: Option<Effect>)
      requires Valid()
      modifies this, renderer, caches.samplers, caches.normals, caches.shaders
      modifies if renderer == null then {} else {renderer.device}
      modifies if 0 <= layerIndex < |imageLayers| then {imageLayers[layerIndex]} else {}
      ensures Valid()
      ensures renderer == old(renderer) && imageLayers == old(imageLayers)
      ensures forall l :: l in imageLayers ==> l.passes == old(l.passes) && l.crc == old(l.crc)
      ensures forall l :: l in imageLayers ==>
                l.name == old(l.name) && l.url == old(l.url) && l.width == old(l.width) && l.height == old(l.height)
      ensures added.Some? <==>
        && old(renderer) != null && 0 <= layerIndex < |imageLayers| && effectName == "water-ripple"
        && old(imageLayers[layerIndex].width) > 0 && old(imageLayers[layerIndex].height) > 0
      ensures added.None? ==> materials == old(materials) && updateFrame == old(updateFrame)
                              && forall l :: l in imageLayers ==> l.effects == old(l.effects)
      ensures added.None? ==>
        && (renderer != null ==> renderer.passes == old(renderer.passes)
                                 && renderer.device.created == old(renderer.device.created))
        && caches.samplers.samplers == old(caches.samplers.samplers)
        && caches.normals.texture == old(caches.normals.texture)
        && caches.shaders.text == old(caches.shaders.text)
      ensures added.Some? ==>
        && var layer := imageLayers[layerIndex];
           var e := added.value;
           && fresh(e) && e.name == WaterRipple.EffectName
           && layer.effects == old(layer.effects) + [e]
           && updateFrame == old(updateFrame) + [TimeWriter(e.uniforms)]
           && (var white := Material(assets.whiteUrl, assets.whiteTexture, assets.whiteWidth, assets.whiteHeight);
               materials == if Get(old(materials), WaterRipple.WhiteMask).Some? then old(materials)
                            else old(materials) + [(WaterRipple.WhiteMask, white)])
           && Get(materials, WaterRipple.WhiteMask).Some?
           && (forall l :: l in imageLayers && l != layer ==> l.effects == old(l.effects))
           && e.shape.SinglePass? && |e.shape.resources| == 5
           && e.shape.resources[2] == PassTexture(BasePassName(layer.crc))
           && e.shape.resources[3] == TextureRes(Get(materials, WaterRipple.WhiteMask).value.texture)
           && renderer.passes == old(renderer.passes) + [e.PassOptionsOf()]
    {
      added := None;
      if !(0 <= layerIndex < |imageLayers|) || renderer == null {
        return;
      }
      var layer := imageLayers[layerIndex];
      if effectName == "water-ripple" {
        if layer.width <= 0 || layer.height <= 0 {
          return;
        }
        var e := AddRipple(layer, caches, assets);
        added := Some(e);
      }
    }
  }
}
