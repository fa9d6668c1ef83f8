/** The water-waves effect: a 16-float buffer holding resolution, time, a first
    wave, an optional second wave switched by `use_dual_waves`, and an opacity
    mask switched by `use_mask`. */
module WaterWaves {
  import opened Common
  import opened Gpu
  import opened EffectModel
  import opened Samplers
  import opened Selection

  const BufferSize: nat := 16

  const Sizes: map<BufferRef, nat> := map[Primary := BufferSize]

  const UseMask := CreateProperty("use_mask", "使用不透明蒙版", Checkbox, Flag(false), At(14, 1))
  const AlphaMaskProp := CreateProperty("alpha_mask", "不透明蒙版", AlphaMask, Str("defaultMask-000000"), At(-1, -1),
                                        condition := SlotEquals(Primary, 14, 1.0))
  const UseDualWaves := CreateProperty("use_dual_waves", "双波叠加", Checkbox, Flag(false), At(13, 1))
  const Speed := CreateProperty("speed", "波浪速度", Float, Num(5.0), At(3, 1), Range(0.01, 50.0))
  const Scale := CreateProperty("scale", "波浪缩放", Float, Num(200.0), At(4, 1), Range(0.01, 1000.0))
  const Exponent := CreateProperty("exponent", "波浪指数", Float, Num(1.0), At(5, 1), Range(0.51, 4.0))
  const Strength := CreateProperty("strength", "波浪强度", Float, Num(0.1), At(6, 1), Range(0.01, 1.0))
  const Direction := CreateProperty("direction", "波浪方向", Angle, Num(180.0), At(7, 1), Range(0.0, 360.0))
  const Speed2 := CreateProperty("speed2", "第二波速度", Float, Num(3.0), At(8, 1), Range(0.01, 50.0),
                                 SlotEquals(Primary, 13, 1.0))
  const Scale2 := CreateProperty("scale2", "第二波缩放", Float, Num(66.0), At(9, 1), Range(0.01, 1000.0),
                                 SlotEquals(Primary, 13, 1.0))
  const Offset2 := CreateProperty("offset2", "第二波偏移", Float, Num(0.0), At(10, 1), Range(-5.0, 5.0),
                                  SlotEquals(Primary, 13, 1.0))
  const Exponent2 := CreateProperty("exponent2", "第二波指数", Float, Num(1.0), At(11, 1), Range(0.51, 4.0),
                                    SlotEquals(Primary, 13, 1.0))
  const Direction2 := CreateProperty("direction2", "第二波方向", Angle, Num(180.0), At(12, 1), Range(0.0, 360.0),
                                     SlotEquals(Primary, 13, 1.0))

  const Properties: seq<Property> :=
    [UseMask, AlphaMaskProp, UseDualWaves, Speed, Scale, Exponent, Strength, Direction,
     Speed2, Scale2, Offset2, Exponent2, Direction2]

  /** The properties of the second wave. */
  const SecondWave: seq<Property> := [Speed2, Scale2, Offset2, Exponent2, Direction2]

  /** Slots 0-14 as the factory writes them (`seconds` is `performance.now() / 1000`);
      slot 15 keeps the zero fill. */
  function InitialSlots(canvasWidth: real, canvasHeight: real, seconds: real): seq<real>
  {
    [canvasWidth, canvasHeight, seconds, 5.0, 200.0, 1.0, 0.1, 0.0, 3.0, 66.0, 0.0, 1.0, 0.0, 0.0, 0.0, 0.0]
  }

  function InitialState(canvasWidth: real, canvasHeight: real, seconds: real): BufferState
  {
    map[Primary := InitialSlots(canvasWidth, canvasHeight, seconds)]
  }

  /** Bind-group order: base, mask, linear sampler, uniform buffer. */
  function Resources(baseTexture: Resource, maskTexture: Resource, sampler: Sampler, uniforms: Uniforms): seq<Resource>
  {
    [baseTexture, maskTexture, SamplerRes(sampler), UniformBuffer(uniforms)]
  }

  lemma EachPropertySound()
    ensures forall i :: 0 <= i < |Properties| ==> PropertySound(Properties[i], Sizes)
  {
    assert PropertySound(UseMask, Sizes);
    assert PropertySound(AlphaMaskProp, Sizes);
    assert PropertySound(UseDualWaves, Sizes);
    assert PropertySound(Speed, Sizes);
    assert PropertySound(Scale, Sizes);
    assert PropertySound(Exponent, Sizes);
    assert PropertySound(Strength, Sizes);
    assert PropertySound(Direction, Sizes);
    assert PropertySound(Speed2, Sizes);
    assert PropertySound(Scale2, Sizes);
    assert PropertySound(Offset2, Sizes);
    assert PropertySound(Exponent2, Sizes);
    assert PropertySound(Direction2, Sizes);
  }

  lemma NamesAndSlotsDistinct()
    ensures forall i, j :: 0 <= i < j < |Properties| ==>
      Properties[i].name != Properties[j].name && SlotsDisjoint(Properties[i], Properties[j])
  {
  }

  /** All property slots are below 16 and pairwise distinct. */
  lemma LayoutIsSound()
    ensures LayoutSound(Properties, Sizes)
  {
    EachPropertySound();
    NamesAndSlotsDistinct();
  }

  /** The first and second wave's numeric parameters (slots 3-6 and 8-11) start
      at their defaults; the two directions (slots 7 and 12) start at 0 while
      their default is 180. */
  lemma InitialSlotsMatchDefaults(canvasWidth: real, canvasHeight: real, seconds: real)
    ensures forall p :: p in [Speed, Scale, Exponent, Strength, Speed2, Scale2, Offset2, Exponent2, UseMask, UseDualWaves] ==>
      SeededWithDefault(p, InitialSlots(canvasWidth, canvasHeight, seconds))
    ensures !SeededWithDefault(Direction, InitialSlots(canvasWidth, canvasHeight, seconds))
    ensures !SeededWithDefault(Direction2, InitialSlots(canvasWidth, canvasHeight, seconds))
  {
    assert InitialSlots(canvasWidth, canvasHeight, seconds)[7] != Encode(Direction.defaultValue)[0];
    assert InitialSlots(canvasWidth, canvasHeight, seconds)[12] != Encode(Direction2.defaultValue)[0];
  }

  /** Resolution and time (slots 0-2) belong to no property. */
  lemma FixedSlotsUnaddressed()
    ensures forall k :: 0 <= k <= 2 ==> Unaddressed(Properties, Primary, k)
  {
  }

  /** alpha_mask is shown exactly when use_mask (slot 14) was last set. */
  lemma MaskFollowsUseMask(st: BufferState, on: bool)
    requires Primary in st && |st[Primary]| == BufferSize
    ensures Visible(AlphaMaskProp, WriteValue(st, UseMask, Flag(on))) <==> on
  {
    ControlledVisibility(AlphaMaskProp, UseMask, st, on);
  }

  /** The five second-wave properties are shown exactly when use_dual_waves
      (slot 13) was last set. */
  lemma SecondWaveFollowsUseDualWaves(st: BufferState, on: bool)
    requires Primary in st && |st[Primary]| == BufferSize
    ensures forall i :: 0 <= i < |SecondWave| ==> (Visible(SecondWave[i], WriteValue(st, UseDualWaves, Flag(on))) <==> on)
  {
    forall i | 0 <= i < |SecondWave|
      ensures Visible(SecondWave[i], WriteValue(st, UseDualWaves, Flag(on))) <==> on
    {
      ControlledVisibility(SecondWave[i], UseDualWaves, st, on);
    }
  }

  /** The mask sentinel `-1` names resources[1], the mask texture. */
  lemma MaskSentinelAddressesMask(baseTexture: Resource, maskTexture: Resource, sampler: Sampler, uniforms: Uniforms)
    ensures SentinelAddresses(AlphaMaskProp, Resources(baseTexture, maskTexture, sampler, uniforms), maskTexture)
  {
  }

  /** Initially both switches are off: the second wave and the mask are hidden,
      everything else is shown. */
  lemma InitialVisibility(canvasWidth: real, canvasHeight: real, seconds: real)
    ensures forall i :: 0 <= i < |Properties| ==>
      (Visible(Properties[i], InitialState(canvasWidth, canvasHeight, seconds)) <==> i < 8 && i != 1)
  {
  }

  lemma WritesGiveInitialSlots(zeros: seq<real>, canvasWidth: real, canvasHeight: real, seconds: real)
    requires |zeros| == BufferSize && forall k :: 0 <= k < BufferSize ==> zeros[k] == 0.0
    ensures zeros[0 := canvasWidth][1 := canvasHeight][2 := seconds][3 := 5.0][4 := 200.0][5 := 1.0][6 := 0.1]
                 [7 := 0.0][8 := 3.0][9 := 66.0][10 := 0.0][11 := 1.0][12 := 0.0][13 := 0.0][14 := 0.0]
            == InitialSlots(canvasWidth, canvasHeight, seconds)
  {
  }

  /** `createUniforms(16)`, then slots 0-14 written one by one. */
  method CreateUniforms(canvasWidth: real, canvasHeight: real, seconds: real) returns (u: Uniforms)
    ensures fresh(u) && fresh(u.values)
    ensures u.values[..] == InitialSlots(canvasWidth, canvasHeight, seconds) && u.commits == 0
  {
    u := new Uniforms(BufferSize);
    WritesGiveInitialSlots(u.values[..], canvasWidth, canvasHeight, seconds);
    u.values[0] := canvasWidth;
    u.values[1] := canvasHeight;
    u.values[2] := seconds;
    u.values[3] := 5.0;
    u.values[4] := 200.0;
    u.values[5] := 1.0;
    u.values[6] := 0.1;
    u.values[7] := 0.0;
    u.values[8] := 3.0;
    u.values[9] := 66.0;
    u.values[10] := 0.0;
    u.values[11] := 1.0;
    u.values[12] := 0.0;
    u.values[13] := 0.0;
    u.values[14] := 0.0;
  }

  /** `createWaterWavesEffect`: the buffer, the cached shader and the linear
      sampler from the store; `now` is the clock reading the factory takes. */
  method CreateWaterWavesEffect(name: string, canvas: CanvasSettings, now: real,
                                device: Device, samplers: SamplerStore, shaders: TextCache, fetchedShader: string,
                                baseTexture: Resource, maskTexture: Resource)
    returns (e: Effect)
    modifies device, samplers, shaders
    ensures fresh(e) && fresh(e.uniforms) && fresh(e.uniforms.values)
    ensures e.uniforms.values[..] == InitialSlots(canvas.width as real, canvas.height as real, now / 1000.0) && e.uniforms.commits == 0
    ensures e.name == name && e.id == Some("waterwaves") && e.caption == Some("水波浪")
    ensures e.properties == Properties && e.refs == DefaultRefs(Properties) && e.enable
    ensures e.passUniforms == map[] && e.maskConfigs == map[]
    ensures shaders.text == Some(CachedText(old(shaders.text), fetchedShader))
    ensures var lookup := Lookup(old(samplers.samplers), "linear", |old(device.created)|);
            && e.shape == SinglePass(shaders.text.value, Resources(baseTexture, maskTexture, lookup.0, e.uniforms))
            && samplers.samplers == lookup.1
  {
    var u := CreateUniforms(canvas.width as real, canvas.height as real, now / 1000.0);
    var code := shaders.GetOrFetch(fetchedShader);
    var sampler := samplers.GetSampler("linear", device);
    e := new Effect(name, Some("waterwaves"), Some("水波浪"), Properties, u,
                    SinglePass(code, Resources(baseTexture, maskTexture, sampler, u)), map[], map[]);
  }
}
