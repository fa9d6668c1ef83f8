/** The depth-parallax effect: a 16-float buffer holding resolution, the pointer
    position, depth scale, sensitivity, center, quality and the mask switch; a
    depth map and an opacity mask bound as textures. */
module DepthParallax {
  import opened Common
  import opened Gpu
  import opened EffectModel
  import opened Samplers
  import opened Selection

  const BufferSize: nat := 16

  const Sizes: map<BufferRef, nat> := map[Primary := BufferSize]

  const QualityOptions: seq<SelectOption> :=
    [SelectOption(0.0, "基础"), SelectOption(1.0, "遮挡性能"), SelectOption(2.0, "遮挡质量")]

  const DepthMap := CreateProperty("depth_map", "深度贴图", AlphaMask, Str("defaultDepthMap-000000"), At(-1, -1))
  const Quality := CreateProperty("quality", "质量", Select, Num(1.0), At(8, 1), options := QualityOptions)
  const UseMask := CreateProperty("use_mask", "使用不透明蒙版", Checkbox, Flag(false), At(9, 1))
  const AlphaMaskProp := CreateProperty("alpha_mask", "不透明蒙版", AlphaMask, Str("defaultMask-000000"), At(-2, -1),
                                        condition := SlotEquals(Primary, 9, 1.0))
  const Scale := CreateProperty("scale", "深度缩放", Vec2, Pair(1.0, 1.0), At(4, 2), Range(0.01, 2.0))
  const Sensitivity := CreateProperty("sensitivity", "透视敏感度", Float, Num(1.0), At(6, 1), Range(-5.0, 5.0))
  const Center := CreateProperty("center", "中心点", Float, Num(0.3), At(7, 1), Range(0.0, 1.0))

  const Properties: seq<Property> := [DepthMap, Quality, UseMask, AlphaMaskProp, Scale, Sensitivity, Center]

  /** Slots 0-9 as the factory writes them (the pointer starts at the centre);
      slots 10-15 keep the zero fill. */
  function InitialSlots(canvasWidth: real, canvasHeight: real): seq<real>
  {
    [canvasWidth, canvasHeight, 0.5, 0.5, 1.0, 1.0, 1.0, 0.3, 1.0, 0.0, 0.0, 0.0, 0.0, 0.0, 0.0, 0.0]
  }

  function InitialState(canvasWidth: real, canvasHeight: real): BufferState
  {
    map[Primary := InitialSlots(canvasWidth, canvasHeight)]
  }

  /** Bind-group order: base, depth texture, mask texture, linear sampler,
      uniform buffer. */
  function Resources(baseTexture: Resource, depthTexture: GpuTexture, maskTexture: GpuTexture,
                     sampler: Sampler, uniforms: Uniforms): seq<Resource>
  {
    [baseTexture, TextureRes(depthTexture), TextureRes(maskTexture), SamplerRes(sampler), UniformBuffer(uniforms)]
  }

  lemma EachPropertySound()
    ensures forall i :: 0 <= i < |Properties| ==> PropertySound(Properties[i], Sizes)
  {
    assert PropertySound(DepthMap, Sizes);
    assert PropertySound(Quality, Sizes);
    assert PropertySound(UseMask, Sizes);
    assert PropertySound(AlphaMaskProp, Sizes);
    assert PropertySound(Scale, Sizes);
    assert PropertySound(Sensitivity, Sizes);
    assert PropertySound(Center, Sizes);
  }

  lemma NamesAndSlotsDistinct()
    ensures forall i, j :: 0 <= i < j < |Properties| ==>
      Properties[i].name != Properties[j].name && SlotsDisjoint(Properties[i], Properties[j])
  {
  }

  /** The property slots (8, 9, 4-5, 6, 7) are below 16 and pairwise distinct. */
  lemma LayoutIsSound()
    ensures LayoutSound(Properties, Sizes)
    ensures forall k :: Covers(Scale, Primary, k) <==> k == 4 || k == 5
  {
    EachPropertySound();
    NamesAndSlotsDistinct();
  }

  /** Every slot-backed property (scale, sensitivity, center, quality and
      use_mask) starts at its default. */
  lemma InitialSlotsMatchDefaults(canvasWidth: real, canvasHeight: real)
    ensures forall i :: 0 <= i < |Properties| && !IsTextureKind(Properties[i].ptype) ==>
      SeededWithDefault(Properties[i], InitialSlots(canvasWidth, canvasHeight))
  {
  }

  /** quality offers exactly 0, 1 and 2, in order; its default 1 is among them. */
  lemma QualityValues()
    ensures |Quality.options| == 3
    ensures forall j :: 0 <= j < |Quality.options| ==> Quality.options[j].value == j as real
    ensures Quality.defaultValue == Num(Quality.options[1].value)
  {
  }

  /** alpha_mask is shown exactly when use_mask (slot 9) was last set; depth_map
      is shown in every state. */
  lemma MaskFollowsUseMask(st: BufferState, on: bool)
    requires Primary in st && |st[Primary]| == BufferSize
    ensures Visible(AlphaMaskProp, WriteValue(st, UseMask, Flag(on))) <==> on
    ensures Visible(DepthMap, st)
  {
    ControlledVisibility(AlphaMaskProp, UseMask, st, on);
  }

  /** The sentinel `-1` names resources[1] (depth), `-2` names resources[2] (mask). */
  lemma SentinelsAddressTextures(baseTexture: Resource, depthTexture: GpuTexture, maskTexture: GpuTexture,
                                 sampler: Sampler, uniforms: Uniforms)
    ensures var rs := Resources(baseTexture, depthTexture, maskTexture, sampler, uniforms);
            SentinelAddresses(DepthMap, rs, TextureRes(depthTexture))
            && SentinelAddresses(AlphaMaskProp, rs, TextureRes(maskTexture))
  {
  }

  /** The pointer slots 2-3 (and the resolution, slots 0-1) belong to no property. */
  lemma PointerSlotsUnaddressed()
    ensures forall k :: 0 <= k <= 3 ==> Unaddressed(Properties, Primary, k)
  {
  }

  lemma WritesGiveInitialSlots(zeros: seq<real>, canvasWidth: real, canvasHeight: real)
    requires |zeros| == BufferSize && forall k :: 0 <= k < BufferSize ==> zeros[k] == 0.0
    ensures zeros[0 := canvasWidth][1 := canvasHeight][2 := 0.5][3 := 0.5][4 := 1.0][5 := 1.0][6 := 1.0]
                 [7 := 0.3][8 := 1.0][9 := 0.0]
            == InitialSlots(canvasWidth, canvasHeight)
  {
  }

  /** `createUniforms(16)`, then slots 0-9 written one by one. */
  method CreateUniforms(canvasWidth: real, canvasHeight: real) returns (u: Uniforms)
    ensures fresh(u) && fresh(u.values)
    ensures u.values[..] == InitialSlots(canvasWidth, canvasHeight) && u.commits == 0
  {
    u := new Uniforms(BufferSize);
    WritesGiveInitialSlots(u.values[..], canvasWidth, canvasHeight);
    u.values[0] := canvasWidth;
    u.values[1] := canvasHeight;
    u.values[2] := 0.5;
    u.values[3] := 0.5;
    u.values[4] := 1.0;
    u.values[5] := 1.0;
    u.values[6] := 1.0;
    u.values[7] := 0.3;
    u.values[8] := 1.0;
    u.values[9] := 0.0;
  }

  /** `createDepthParallaxEffect`: the buffer, the cached shader and the linear sampler. */
  method CreateDepthParallaxEffect(name: string, canvas: CanvasSettings,
                                   device: Device, samplers: SamplerStore, shaders: TextCache, fetchedShader: string,
                                   baseTexture: Resource, depthTexture: GpuTexture, maskTexture: GpuTexture)
    returns (e: Effect)
    modifies device, samplers, shaders
    ensures fresh(e) && fresh(e.uniforms) && fresh(e.uniforms.values)
    ensures e.uniforms.values[..] == InitialSlots(canvas.width as real, canvas.height as real) && e.uniforms.commits == 0
    ensures e.name == name && e.id == None && e.caption == Some("深度视差")
    ensures e.properties == Properties && e.refs == DefaultRefs(Properties) && e.enable
    ensures e.passUniforms == map[] && e.maskConfigs == map[]
    ensures shaders.text == Some(CachedText(old(shaders.text), fetchedShader))
    ensures var lookup := Lookup(old(samplers.samplers), "linear", |old(device.created)|);
            && e.shape == SinglePass(shaders.text.value,
                                     Resources(baseTexture, depthTexture, maskTexture, lookup.0, e.uniforms))
            && samplers.samplers == lookup.1
  {
    var u := CreateUniforms(canvas.width as real, canvas.height as real);
    var code := shaders.GetOrFetch(fetchedShader);
    var sampler := samplers.GetSampler("linear", device);
    e := new Effect(name, None, Some("深度视差"), Properties, u,
                    SinglePass(code, Resources(baseTexture, depthTexture, maskTexture, sampler, u)), map[], map[]);
  }
}
