/** The refraction effect: a 5-float buffer (normal scale, strength, the mask
    switch), a cached normal texture, and mask configurations that say where the
    normal map and the opacity mask are bound. */
module Refraction {
  import opened Common
  import opened Gpu
  import opened EffectModel
  import opened Samplers

  const BufferSize: nat := 5

  const Sizes: map<BufferRef, nat> := map[Primary := BufferSize]

  const Scale := CreateProperty("scale", "法线缩放", Vec2, Pair(1.0, 1.0), At(0, 2), Range(0.1, 10.0))
  const Strength := CreateProperty("strength", "折射强度", Float, Num(0.1), At(2, 1), Range(-1.0, 1.0))
  const UseMask := CreateProperty("use_mask", "使用不透明蒙版", Checkbox, Flag(false), At(3, 1))
  const NormalMap := CreateProperty("normal_map", "法线贴图", AlphaMask, Str("defaultNormalMap"), At(-1, -1))
  const AlphaMaskProp := CreateProperty("alpha_mask", "不透明蒙版", AlphaMask, Str("defaultMask-000000"), At(-1, -1),
                                        condition := SlotEquals(Primary, 3, 1.0))

  const Properties: seq<Property> := [Scale, Strength, UseMask, NormalMap, AlphaMaskProp]

  /** Slots 0-3 as the factory writes them; slot 4 keeps the zero fill. */
  function InitialSlots(): seq<real>
  {
    [1.0, 1.0, 0.1, 0.0, 0.0]
  }

  function InitialState(): BufferState
  {
    map[Primary := InitialSlots()]
  }

  /** Bind-group order: base, normal texture, mask texture, linear sampler,
      uniform buffer. */
  function Resources(baseTexture: Resource, normal: GpuTexture, maskTexture: GpuTexture,
                     sampler: Sampler, uniforms: Uniforms): seq<Resource>
  {
    [baseTexture, TextureRes(normal), TextureRes(maskTexture), SamplerRes(sampler), UniformBuffer(uniforms)]
  }

  /** Both masks are bound in the effect's own pass, named after the effect. */
  function MaskConfigs(name: string): map<string, MaskConfig>
  {
    map["normal_map" := MaskConfig(name, 1), "alpha_mask" := MaskConfig(name, 2)]
  }

  lemma EachPropertySound()
    ensures forall i :: 0 <= i < |Properties| ==> PropertySound(Properties[i], Sizes)
  {
    assert PropertySound(Scale, Sizes);
    assert PropertySound(Strength, Sizes);
    assert PropertySound(UseMask, Sizes);
    assert PropertySound(NormalMap, Sizes);
    assert PropertySound(AlphaMaskProp, Sizes);
  }

  lemma NamesAndSlotsDistinct()
    ensures forall i, j :: 0 <= i < j < |Properties| ==>
      Properties[i].name != Properties[j].name && SlotsDisjoint(Properties[i], Properties[j])
  {
  }

  /** Property slots 0-1, 2 and 3 are below 5 and pairwise distinct; slot 4 is
      padding. */
  lemma LayoutIsSound()
    ensures LayoutSound(Properties, Sizes)
    ensures forall k :: Covers(Scale, Primary, k) <==> k == 0 || k == 1
    ensures Unaddressed(Properties, Primary, 4)
  {
    EachPropertySound();
    NamesAndSlotsDistinct();
  }

  /** Slots 0-3 hold the defaults of scale, strength and use_mask. */
  lemma InitialSlotsMatchDefaults()
    ensures forall i :: 0 <= i < |Properties| && !IsTextureKind(Properties[i].ptype) ==>
      SeededWithDefault(Properties[i], InitialSlots())
  {
  }

  /** alpha_mask is shown exactly when use_mask (slot 3) was last set;
      normal_map is shown in every state. */
  lemma MaskFollowsUseMask(st: BufferState, on: bool)
    requires Primary in st && |st[Primary]| == BufferSize
    ensures Visible(AlphaMaskProp, WriteValue(st, UseMask, Flag(on))) <==> on
    ensures Visible(NormalMap, st)
  {
    ControlledVisibility(AlphaMaskProp, UseMask, st, on);
  }

  /** The mask configurations name exactly the two mask properties, bind the
      normal map at the normal texture and alpha_mask at the mask texture, in the
      effect's own pass. alpha_mask's sentinel `[-1, -1]` would instead point at
      binding 1, so the configuration, not the sentinel, locates it. */
  lemma MaskConfigsAddressTextures(name: string, baseTexture: Resource, normal: GpuTexture, maskTexture: GpuTexture,
                                   sampler: Sampler, uniforms: Uniforms)
    ensures var rs := Resources(baseTexture, normal, maskTexture, sampler, uniforms);
            var mc := MaskConfigs(name);
            && mc.Keys == {NormalMap.name, AlphaMaskProp.name}
            && (forall k :: k in mc ==> mc[k].passName == name && mc[k].bindingIndex < |rs|)
            && rs[mc[NormalMap.name].bindingIndex] == TextureRes(normal)
            && rs[mc[AlphaMaskProp.name].bindingIndex] == TextureRes(maskTexture)
    ensures SentinelBinding(NormalMap) == MaskConfigs(name)[NormalMap.name].bindingIndex
    ensures SentinelBinding(AlphaMaskProp) != MaskConfigs(name)[AlphaMaskProp.name].bindingIndex
  {
  }

  lemma WritesGiveInitialSlots(zeros: seq<real>)
    requires |zeros| == BufferSize && forall k :: 0 <= k < BufferSize ==> zeros[k] == 0.0
    ensures zeros[0 := 1.0][1 := 1.0][2 := 0.1][3 := 0.0] == InitialSlots()
  {
  }

  /** `createUniforms(5)`, then slots 0-3 written one by one. */
  method CreateUniforms() returns (u: Uniforms)
    ensures fresh(u) && fresh(u.values)
    ensures u.values[..] == InitialSlots() && u.commits == 0
  {
    u := new Uniforms(BufferSize);
    WritesGiveInitialSlots(u.values[..]);
    u.values[0] := 1.0;
    u.values[1] := 1.0;
    u.values[2] := 0.1;
    u.values[3] := 0.0;
  }

  /** `createRefractionEffect`: the cached normal texture, the buffer, the
      cached shader and the linear sampler. */
  method CreateRefractionEffect(name: string,
                                device: Device, samplers: SamplerStore, shaders: TextCache, fetchedShader: string,
                                normals: TextureCache, loadedNormal: GpuTexture,
                                baseTexture: Resource, maskTexture: GpuTexture)
    returns (e: Effect)
    modifies device, samplers, shaders, normals
    ensures fresh(e) && fresh(e.uniforms) && fresh(e.uniforms.values)
    ensures e.uniforms.values[..] == InitialSlots() && e.uniforms.commits == 0
    ensures e.name == name && e.id == Some("refraction") && e.caption == Some("折射")
    ensures e.properties == Properties && e.refs == DefaultRefs(Properties) && e.enable
    ensures e.passUniforms == map[] && e.maskConfigs == MaskConfigs(name)
    ensures shaders.text == Some(CachedText(old(shaders.text), fetchedShader))
    ensures normals.texture == Some(CachedTexture(old(normals.texture), loadedNormal))
    ensures var lookup := Lookup(old(samplers.samplers), "linear", |old(device.created)|);
            && e.shape == SinglePass(shaders.text.value,
                                     Resources(baseTexture, normals.texture.value, maskTexture, lookup.0, e.uniforms))
            && samplers.samplers == lookup.1
  {
    var normal := normals.GetOrLoad(loadedNormal);
    var u := CreateUniforms();
    var code := shaders.GetOrFetch(fetchedShader);
    var sampler := samplers.GetSampler("linear", device);
    e := new Effect(name, Some("refraction"), Some("折射"), Properties, u,
                    SinglePass(code, Resources(baseTexture, normal, maskTexture, sampler, u)), map[], MaskConfigs(name));
  }
}
