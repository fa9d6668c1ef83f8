/** The iris-movement effect: an 8-float buffer with a fixed resolution and no
    editable properties. */
module IrisMovement {
  import opened Common
  import opened Gpu
  import opened EffectModel
  import opened Samplers
  import opened Selection

  const BufferSize: nat := 8

  /** The effect's fixed name; the factory takes no name from its caller. */
  const EffectName := "iris-movement"

  const Properties: seq<Property> := []

  /** Slots 0-1 hold a fixed 1280 x 720 resolution; the rest keep the zero fill. */
  function InitialSlots(): seq<real>
  {
    [1280.0, 720.0, 0.0, 0.0, 0.0, 0.0, 0.0, 0.0]
  }

  /** Bind-group order: base, mask, linear sampler, uniform buffer. */
  function Resources(baseTexture: Resource, maskTexture: Resource, sampler: Sampler, uniforms: Uniforms): seq<Resource>
  {
    [baseTexture, maskTexture, SamplerRes(sampler), UniformBuffer(uniforms)]
  }

  /** The fixed resolution is the canvas's initial size, not its current one,
      and no slot is addressed by a property. */
  lemma ResolutionIsInitialCanvas()
    ensures InitialSlots()[..2] == [InitialCanvas.width as real, InitialCanvas.height as real]
    ensures forall k :: 0 <= k < BufferSize ==> Unaddressed(Properties, Primary, k)
  {
  }

  lemma WritesGiveInitialSlots(zeros: seq<real>)
    requires |zeros| == BufferSize && forall k :: 0 <= k < BufferSize ==> zeros[k] == 0.0
    ensures zeros[0 := 1280.0][1 := 720.0] == InitialSlots()
  {
  }

  method CreateUniforms() returns (u: Uniforms)
    ensures fresh(u) && fresh(u.values)
    ensures u.values[..] == InitialSlots() && u.commits == 0
  {
    u := new Uniforms(BufferSize);
    WritesGiveInitialSlots(u.values[..]);
    u.values[0] := 1280.0;
    u.values[1] := 720.0;
  }

  /** `createIrisMovementEffect`: always named "iris-movement", with no
      properties, no id and no caption. */
  method CreateIrisMovementEffect(device: Device, samplers: SamplerStore, shaders: TextCache, fetchedShader: string,
                                  baseTexture: Resource, maskTexture: Resource)
    returns (e: Effect)
    modifies device, samplers, shaders
    ensures fresh(e) && fresh(e.uniforms) && fresh(e.uniforms.values)
    ensures e.uniforms.values[..] == InitialSlots() && e.uniforms.commits == 0
    ensures e.name == EffectName && e.id == None && e.caption == None
    ensures e.properties == [] && e.refs == map[] && e.enable
    ensures e.passUniforms == map[] && e.maskConfigs == map[]
    ensures shaders.text == Some(CachedText(old(shaders.text), fetchedShader))
    ensures var lookup := Lookup(old(samplers.samplers), "linear", |old(device.created)|);
            && e.shape == SinglePass(shaders.text.value, Resources(baseTexture, maskTexture, lookup.0, e.uniforms))
            && samplers.samplers == lookup.1
  {
    var u := CreateUniforms();
    var code := shaders.GetOrFetch(fetchedShader);
    var sampler := samplers.GetSampler("linear", device);
    e := new Effect(EffectName, None, None, Properties, u,
                    SinglePass(code, Resources(baseTexture, maskTexture, sampler, u)), map[], map[]);
  }
}
