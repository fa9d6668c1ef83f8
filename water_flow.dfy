/** The water-flow effect: a 4-float buffer (time, speed, amount, scale), a flow
    mask bound as a texture and a cached phase texture. */
module WaterFlow {
  import opened Common
  import opened Gpu
  import opened EffectModel
  import opened Samplers

  const BufferSize: nat := 4

  const Sizes: map<BufferRef, nat> := map[Primary := BufferSize]

  const FlowMaskProp := CreateProperty("flow_mask", "流式蒙版", FlowMask, Str("defaultMask-7F7F00"), At(-1, 0))
  const Speed := CreateProperty("speed", "速度", Float, Num(1.0), At(1, 1), Range(0.01, 2.0))
  const Amp := CreateProperty("amp", "数量", Float, Num(1.0), At(2, 1), Range(0.01, 1.0))
  const Scale := CreateProperty("scale", "缩放", Float, Num(1.0), At(3, 1), Range(0.01, 10.0))

  const Properties: seq<Property> := [FlowMaskProp, Speed, Amp, Scale]

  /** All four slots as the factory writes them; the time slot takes the clock
      reading in milliseconds, undivided. */
  function InitialSlots(now: real): seq<real>
  {
    [now, 1.0, 1.0, 2.0]
  }

  /** Bind-group order: base, mask, phase texture, linear sampler, uniform buffer. */
  function Resources(baseTexture: Resource, maskTexture: Resource, phase: GpuTexture,
                     sampler: Sampler, uniforms: Uniforms): seq<Resource>
  {
    [baseTexture, maskTexture, TextureRes(phase), SamplerRes(sampler), UniformBuffer(uniforms)]
  }

  lemma EachPropertySound()
    ensures forall i :: 0 <= i < |Properties| ==> PropertySound(Properties[i], Sizes)
  {
    assert PropertySound(FlowMaskProp, Sizes);
    assert PropertySound(Speed, Sizes);
    assert PropertySound(Amp, Sizes);
    assert PropertySound(Scale, Sizes);
  }

  lemma NamesAndSlotsDistinct()
    ensures forall i, j :: 0 <= i < j < |Properties| ==>
      Properties[i].name != Properties[j].name && SlotsDisjoint(Properties[i], Properties[j])
  {
  }

  /** speed, amp and scale sit in slots 1-3, sound and distinct; the time slot 0
      belongs to no property. */
  lemma LayoutIsSound()
    ensures LayoutSound(Properties, Sizes)
    ensures forall k :: 1 <= k <= 3 ==> Covers(Properties[k], Primary, k)
    ensures Unaddressed(Properties, Primary, 0)
  {
    EachPropertySound();
    NamesAndSlotsDistinct();
  }

  /** speed and amp start at their defaults; scale starts at 2 while its default is 1. */
  lemma InitialSlotsVersusDefaults(now: real)
    ensures SeededWithDefault(Speed, InitialSlots(now)) && SeededWithDefault(Amp, InitialSlots(now))
    ensures !SeededWithDefault(Scale, InitialSlots(now))
  {
    assert InitialSlots(now)[3] != Encode(Scale.defaultValue)[0];
  }

  /** The flow-mask sentinel `[-1, 0]` names resources[1], the mask texture, and
      the property's own position 0, as its comment documents. */
  lemma FlowMaskSentinel(baseTexture: Resource, maskTexture: Resource, phase: GpuTexture,
                         sampler: Sampler, uniforms: Uniforms)
    ensures SentinelAddresses(FlowMaskProp, Resources(baseTexture, maskTexture, phase, sampler, uniforms), maskTexture)
    ensures Properties[SentinelPosition(FlowMaskProp)] == FlowMaskProp
  {
  }

  /** No property has a condition, so every property is shown in every state. */
  lemma AlwaysVisible(st: BufferState)
    ensures forall i :: 0 <= i < |Properties| ==> Properties[i].condition == Always && Visible(Properties[i], st)
  {
  }

  lemma WritesGiveInitialSlots(zeros: seq<real>, now: real)
    requires |zeros| == BufferSize
    ensures zeros[0 := now][1 := 1.0][2 := 1.0][3 := 2.0] == InitialSlots(now)
  {
  }

  /** `createUniforms(4)`, then all four slots written. */
  method CreateUniforms(now: real) returns (u: Uniforms)
    ensures fresh(u) && fresh(u.values)
    ensures u.values[..] == InitialSlots(now) && u.commits == 0
  {
    u := new Uniforms(BufferSize);
    WritesGiveInitialSlots(u.values[..], now);
    u.values[0] := now;
    u.values[1] := 1.0;
    u.values[2] := 1.0;
    u.values[3] := 2.0;
  }

  /** `createWaterFlowEffect`: the buffer, the cached phase texture, the cached
      shader and the linear sampler; `now` is the clock reading. */
  method CreateWaterFlowEffect(name: string, now: real,
                               device: Device, samplers: SamplerStore, shaders: TextCache, fetchedShader: string,
                               phases: TextureCache, loadedPhase: GpuTexture,
                               baseTexture: Resource, maskTexture: Resource)
    returns (e: Effect)
    modifies device, samplers, shaders, phases
    ensures fresh(e) && fresh(e.uniforms) && fresh(e.uniforms.values)
    ensures e.uniforms.values[..] == InitialSlots(now) && e.uniforms.commits == 0
    ensures e.name == name && e.id == None && e.caption == Some("水流")
    ensures e.properties == Properties && e.refs == DefaultRefs(Properties) && e.enable
    ensures e.passUniforms == map[] && e.maskConfigs == map[]
    ensures shaders.text == Some(CachedText(old(shaders.text), fetchedShader))
    ensures phases.texture == Some(CachedTexture(old(phases.texture), loadedPhase))
    ensures var lookup := Lookup(old(samplers.samplers), "linear", |old(device.created)|);
            && e.shape == SinglePass(shaders.text.value,
                                     Resources(baseTexture, maskTexture, phases.texture.value, lookup.0, e.uniforms))
            && samplers.samplers == lookup.1
  {
    var u := CreateUniforms(now);
    var phase := phases.GetOrLoad(loadedPhase);
    var code := shaders.GetOrFetch(fetchedShader);
    var sampler := samplers.GetSampler("linear", device);
    e := new Effect(name, None, Some("水流"), Properties, u,
                    SinglePass(code, Resources(baseTexture, maskTexture, phase, sampler, u)), map[], map[]);
  }
}
