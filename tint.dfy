/** The tint effect: an 8-float buffer holding resolution, blend mode, the mask
    switch, blend strength and the tint colour in its last three slots. */
module Tint {
  import opened Common
  import opened Gpu
  import opened EffectModel
  import opened Samplers
  import opened Selection

  const BufferSize: nat := 8

  const Sizes: map<BufferRef, nat> := map[Primary := BufferSize]

  const BlendModeOptions: seq<SelectOption> :=
    [SelectOption(0.0, "正常"), SelectOption(1.0, "正片叠底"), SelectOption(2.0, "滤色"),
     SelectOption(3.0, "叠加"), SelectOption(4.0, "变暗"), SelectOption(5.0, "变亮"),
     SelectOption(6.0, "颜色减淡"), SelectOption(7.0, "颜色加深"), SelectOption(8.0, "强光"),
     SelectOption(9.0, "相加")]

  const BlendMode := CreateProperty("blend_mode", "混合模式", Select, Num(0.0), At(2, 1), options := BlendModeOptions)
  const UseMask := CreateProperty("use_mask", "使用不透明蒙版", Checkbox, Flag(false), At(3, 1))
  const AlphaMaskProp := CreateProperty("alpha_mask", "不透明蒙版", AlphaMask, Str("defaultMask-000000"), At(-1, -1),
                                        condition := SlotEquals(Primary, 3, 1.0))
  const BlendAlpha := CreateProperty("blend_alpha", "强度", Float, Num(0.5), At(4, 1), Range(0.0, 1.0))
  const TintColor := CreateProperty("tint_color", "染色", Color, Triple(1.0, 0.0, 0.0), At(5, 3))

  const Properties: seq<Property> := [BlendMode, UseMask, AlphaMaskProp, BlendAlpha, TintColor]

  /** Slots 0-6 as the factory writes them; slot 7 keeps the zero fill. */
  function InitialSlots(canvasWidth: real, canvasHeight: real): seq<real>
  {
    [canvasWidth, canvasHeight, 0.0, 0.0, 1.0, 1.0, 0.0, 0.0]
  }

  function InitialState(canvasWidth: real, canvasHeight: real): BufferState
  {
    map[Primary := InitialSlots(canvasWidth, canvasHeight)]
  }

  /** Bind-group order: base, mask, linear sampler, uniform buffer. */
  function Resources(baseTexture: Resource, maskTexture: GpuTexture, sampler: Sampler, uniforms: Uniforms): seq<Resource>
  {
    [baseTexture, TextureRes(maskTexture), SamplerRes(sampler), UniformBuffer(uniforms)]
  }

  lemma EachPropertySound()
    ensures forall i :: 0 <= i < |Properties| ==> PropertySound(Properties[i], Sizes)
  {
    assert PropertySound(BlendMode, Sizes);
    assert PropertySound(UseMask, Sizes);
    assert PropertySound(AlphaMaskProp, Sizes);
    assert PropertySound(BlendAlpha, Sizes);
    assert PropertySound(TintColor, Sizes);
  }

  lemma NamesAndSlotsDistinct()
    ensures forall i, j :: 0 <= i < j < |Properties| ==>
      Properties[i].name != Properties[j].name && SlotsDisjoint(Properties[i], Properties[j])
  {
  }

  /** The layout is sound, and tint_color (three slots from offset 5) ends
      exactly at the end of the 8-slot buffer. */
  lemma LayoutIsSound()
    ensures LayoutSound(Properties, Sizes)
    ensures TintColor.uniformIndex.offset + Arity(TintColor.ptype) == BufferSize
    ensures forall k :: Covers(TintColor, Primary, k) <==> 5 <= k < BufferSize
  {
    EachPropertySound();
    NamesAndSlotsDistinct();
  }

  /** Only slots 0-6 are written; slots 5-6 are the first two components of
      tint_color's default, slot 7 is zero-filled (which happens to equal the
      third), blend_mode and use_mask start at their defaults, but blend_alpha
      starts at 1 while its default is 0.5. */
  lemma InitialSlotsVersusDefaults(canvasWidth: real, canvasHeight: real)
    ensures var s := InitialSlots(canvasWidth, canvasHeight);
            s[5..7] == Encode(TintColor.defaultValue)[..2] && s[7] == 0.0
    ensures forall p :: p in [BlendMode, UseMask, TintColor] ==> SeededWithDefault(p, InitialSlots(canvasWidth, canvasHeight))
    ensures !SeededWithDefault(BlendAlpha, InitialSlots(canvasWidth, canvasHeight))
  {
    assert InitialSlots(canvasWidth, canvasHeight)[4] != Encode(BlendAlpha.defaultValue)[0];
  }

  /** alpha_mask is shown exactly when use_mask (slot 3) was last set. */
  lemma MaskFollowsUseMask(st: BufferState, on: bool)
    requires Primary in st && |st[Primary]| == BufferSize
    ensures Visible(AlphaMaskProp, WriteValue(st, UseMask, Flag(on))) <==> on
  {
    ControlledVisibility(AlphaMaskProp, UseMask, st, on);
  }

  /** The mask sentinel `-1` names resources[1], the mask texture. */
  lemma MaskSentinelAddressesMask(baseTexture: Resource, maskTexture: GpuTexture, sampler: Sampler, uniforms: Uniforms)
    ensures SentinelAddresses(AlphaMaskProp, Resources(baseTexture, maskTexture, sampler, uniforms), TextureRes(maskTexture))
  {
  }

  /** The blend modes are numbered 0 to 9 in list order, starting from the default. */
  lemma BlendModeValues()
    ensures |BlendMode.options| == 10
    ensures forall j :: 0 <= j < |BlendMode.options| ==> BlendMode.options[j].value == j as real
    ensures BlendMode.defaultValue == Num(BlendMode.options[0].value)
  {
  }

  lemma WritesGiveInitialSlots(zeros: seq<real>, canvasWidth: real, canvasHeight: real)
    requires |zeros| == BufferSize && forall k :: 0 <= k < BufferSize ==> zeros[k] == 0.0
    ensures zeros[0 := canvasWidth][1 := canvasHeight][2 := 0.0][3 := 0.0][4 := 1.0][5 := 1.0][6 := 0.0]
            == InitialSlots(canvasWidth, canvasHeight)
  {
  }

  /** `createUniforms(8)`, then slots 0-6 written one by one. */
  method CreateUniforms(canvasWidth: real, canvasHeight: real) returns (u: Uniforms)
    ensures fresh(u) && fresh(u.values)
    ensures u.values[..] == InitialSlots(canvasWidth, canvasHeight) && u.commits == 0
  {
    u := new Uniforms(BufferSize);
    WritesGiveInitialSlots(u.values[..], canvasWidth, canvasHeight);
    u.values[0] := canvasWidth;
    u.values[1] := canvasHeight;
    u.values[2] := 0.0;
    u.values[3] := 0.0;
    u.values[4] := 1.0;
    u.values[5] := 1.0;
    u.values[6] := 0.0;
  }

  /** `createTintEffect`: the buffer, the cached shader and the linear sampler. */
  method CreateTintEffect(name: string, canvas: CanvasSettings,
                          device: Device, samplers: SamplerStore, shaders: TextCache, fetchedShader: string,
                          baseTexture: Resource, maskTexture: GpuTexture)
    returns (e: Effect)
    modifies device, samplers, shaders
    ensures fresh(e) && fresh(e.uniforms) && fresh(e.uniforms.values)
    ensures e.uniforms.values[..] == InitialSlots(canvas.width as real, canvas.height as real) && e.uniforms.commits == 0
    ensures e.name == name && e.id == Some("tint") && e.caption == Some("染色")
    ensures e.properties == Properties && e.refs == DefaultRefs(Properties) && e.enable
    ensures e.passUniforms == map[] && e.maskConfigs == map[]
    ensures shaders.text == Some(CachedText(old(shaders.text), fetchedShader))
    ensures var lookup := Lookup(old(samplers.samplers), "linear", |old(device.created)|);
            && e.shape == SinglePass(shaders.text.value, Resources(baseTexture, maskTexture, lookup.0, e.uniforms))
            && samplers.samplers == lookup.1
  {
    var u := CreateUniforms(canvas.width as real, canvas.height as real);
    var code := shaders.GetOrFetch(fetchedShader);
    var sampler := samplers.GetSampler("linear", device);
    e := new Effect(name, Some("tint"), Some("染色"), Properties, u,
                    SinglePass(code, Resources(baseTexture, maskTexture, sampler, u)), map[], map[]);
  }
}
