/** The water-ripple effect: a 16-float buffer with a time slot, a fixed name,
    a cached normal texture and an opacity mask of plain texture type. */
module WaterRipple {
  import opened Common
  import opened Gpu
  import opened EffectModel
  import opened Samplers

  const EffectName := "Water Ripple"

  /** The material key of the mask texture's default. */
  const WhiteMask := "white_mask"

  const BufferSize: nat := 16

  const Sizes: map<BufferRef, nat> := map[Primary := BufferSize]

  /** The slot the per-frame time is written to. */
  const TimeSlot: nat := 4

  const UseMask := CreateProperty("use_mask", "使用不透明蒙版", Checkbox, Flag(false), At(11, 1))
  const AlphaMaskProp := CreateProperty("alpha_mask", "不透明蒙版", Texture, Str(WhiteMask), At(-3, -1),
                                        condition := SlotEquals(Primary, 11, 1.0))
  const Speed := CreateProperty("speed", "速度", Float, Num(0.1), At(5, 1), Range(0.0, 1.0))
  const ScrollSpeed := CreateProperty("scroll_speed", "滚动速度", Float, Num(0.2), At(6, 1), Range(0.0, 1.0))
  const AngleProp := CreateProperty("angle", "滚动角度", Float, Num(1.0), At(7, 1), Range(0.0, 6.28))
  const Ratio := CreateProperty("ratio", "比例", Float, Num(1.0), At(8, 1), Range(0.5, 2.0))
  const Strength := CreateProperty("strength", "强度", Float, Num(0.1), At(9, 1), Range(0.0, 1.0))
  const Scale := CreateProperty("scale", "缩放", Float, Num(2.0), At(10, 1), Range(0.5, 5.0))

  const Properties: seq<Property> := [UseMask, AlphaMaskProp, Speed, ScrollSpeed, AngleProp, Ratio, Strength, Scale]

  /** Resolution and texture resolution (fixed 1280×720), time, then the seven
      parameters; slots 12-15 keep the zero fill. */
  function InitialSlots(now: real): seq<real>
  {
    [1280.0, 720.0, 1280.0, 720.0, now, 0.1, 0.2, 1.0, 1.0, 0.1, 2.0, 0.0, 0.0, 0.0, 0.0, 0.0]
  }

  function InitialState(now: real): BufferState
  {
    map[Primary := InitialSlots(now)]
  }

  /** Bind-group order: uniform buffer, linear sampler, base, mask, normal texture. */
  function Resources(uniforms: Uniforms, sampler: Sampler, baseTexture: Resource, maskTexture: Resource,
                     normalTexture: GpuTexture): seq<Resource>
  {
    [UniformBuffer(uniforms), SamplerRes(sampler), baseTexture, maskTexture, TextureRes(normalTexture)]
  }

  lemma EachPropertySound()
    ensures forall i :: 0 <= i < |Properties| ==> PropertySound(Properties[i], Sizes)
  {
    assert PropertySound(UseMask, Sizes);
    assert PropertySound(AlphaMaskProp, Sizes);
    assert PropertySound(Speed, Sizes);
    assert PropertySound(ScrollSpeed, Sizes);
    assert PropertySound(AngleProp, Sizes);
    assert PropertySound(Ratio, Sizes);
    assert PropertySound(Strength, Sizes);
    assert PropertySound(Scale, Sizes);
  }

  lemma NamesAndSlotsDistinct()
    ensures forall i, j :: 0 <= i < j < |Properties| ==>
      Properties[i].name != Properties[j].name && SlotsDisjoint(Properties[i], Properties[j])
  {
  }

  /** Every numeric property sits inside the 16 slots with size 1, and no two
      share a slot. */
  lemma LayoutIsSound()
    ensures LayoutSound(Properties, Sizes)
  {
    EachPropertySound();
    NamesAndSlotsDistinct();
  }

  /** Slots 5-11 start at the defaults of speed..scale and use_mask = false. */
  lemma InitialSlotsMatchDefaults(now: real)
    ensures forall i :: 0 <= i < |Properties| && !IsTextureKind(Properties[i].ptype) ==>
      SeededWithDefault(Properties[i], InitialSlots(now))
  {
  }

  /** The resolution slots 0-3 and the time slot 4 belong to no property. */
  lemma FixedSlotsUnaddressed()
    ensures forall k :: 0 <= k <= TimeSlot ==> Unaddressed(Properties, Primary, k)
  {
  }

  /** alpha_mask is shown exactly when use_mask (slot 11) was last set. */
  lemma MaskFollowsUseMask(st: BufferState, on: bool)
    requires Primary in st && |st[Primary]| == BufferSize
    ensures Visible(AlphaMaskProp, WriteValue(st, UseMask, Flag(on))) <==> on
  {
    ControlledVisibility(AlphaMaskProp, UseMask, st, on);
  }

  /** Initially only alpha_mask is hidden. */
  lemma InitialVisibility(now: real)
    ensures forall i :: 0 <= i < |Properties| ==> (Visible(Properties[i], InitialState(now)) <==> i != 1)
  {
  }

  /** The sentinel `[-3, -1]`: binding 3 is the mask texture and position 1 is
      alpha_mask's own position in the property list. */
  lemma MaskSentinelDecodes(uniforms: Uniforms, sampler: Sampler, baseTexture: Resource, maskTexture: Resource,
                            normalTexture: GpuTexture)
    ensures SentinelAddresses(AlphaMaskProp, Resources(uniforms, sampler, baseTexture, maskTexture, normalTexture), maskTexture)
    ensures 0 <= SentinelPosition(AlphaMaskProp) < |Properties| && Properties[SentinelPosition(AlphaMaskProp)] == AlphaMaskProp
  {
  }

  lemma WritesGiveInitialSlots(zeros: seq<real>, now: real)
    requires |zeros| == BufferSize && forall k :: 0 <= k < BufferSize ==> zeros[k] == 0.0
    ensures zeros[0 := 1280.0][1 := 720.0][2 := 1280.0][3 := 720.0][4 := now][5 := 0.1][6 := 0.2][7 := 1.0]
                 [8 := 1.0][9 := 0.1][10 := 2.0][11 := 0.0]
            == InitialSlots(now)
  {
  }

  /** The factory's buffer set-up: `createUniforms(16)`, then slots 0-11; `now`
      is the clock reading the factory takes. */
  method CreateUniforms(now: real) returns (u: Uniforms)
    ensures fresh(u) && fresh(u.values)
    ensures u.values[..] == InitialSlots(now) && u.commits == 0
  {
    u := new Uniforms(BufferSize);
    WritesGiveInitialSlots(u.values[..], now);
    u.values[0] := 1280.0;
    u.values[1] := 720.0;
    u.values[2] := 1280.0;
    u.values[3] := 720.0;
    u.values[4] := now;
    u.values[5] := 0.1;
    u.values[6] := 0.2;
    u.values[7] := 1.0;
    u.values[8] := 1.0;
    u.values[9] := 0.1;
    u.values[10] := 2.0;
    u.values[11] := 0.0;
  }

  /** `createWaterRippleEffect`: always named "Water Ripple"; the normal texture
      and the shader are loaded only when their caches are empty (`loadedNormal`
      and `fetchedShader` are what loading would produce). */
  method CreateWaterRippleEffect(now: real, device: Device, samplers: SamplerStore,
                                 normals: TextureCache, loadedNormal: GpuTexture,
                                 shaders: TextCache, fetchedShader: string,
                                 baseTexture: Resource, maskTexture: Resource)
    returns (e: Effect)
    modifies device, samplers, normals, shaders
    ensures fresh(e) && fresh(e.uniforms) && fresh(e.uniforms.values)
    ensures e.uniforms.values[..] == InitialSlots(now) && e.uniforms.commits == 0
    ensures e.name == EffectName && e.id == None && e.caption == None
    ensures e.properties == Properties && e.refs == DefaultRefs(Properties) && e.enable
    ensures e.passUniforms == map[] && e.maskConfigs == map[]
    ensures normals.texture == Some(CachedTexture(old(normals.texture), loadedNormal))
    ensures shaders.text == Some(CachedText(old(shaders.text), fetchedShader))
    ensures var lookup := Lookup(old(samplers.samplers), "linear", |old(device.created)|);
            && e.shape == SinglePass(shaders.text.value,
                                     Resources(e.uniforms, lookup.0, baseTexture, maskTexture, normals.texture.value))
            && samplers.samplers == lookup.1
  {
    var u := CreateUniforms(now);
    var normal := normals.GetOrLoad(loadedNormal);
    var code := shaders.GetOrFetch(fetchedShader);
    var sampler := samplers.GetSampler("linear", device);
    e := new Effect(EffectName, None, None, Properties, u,
                    SinglePass(code, Resources(u, sampler, baseTexture, maskTexture, normal)), map[], map[]);
  }
}
