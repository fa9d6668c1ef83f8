/** The shake effect: a 16-float buffer with time, motion parameters and three
    switches, a flow mask shown while `use_flow_mask` is on and an opacity mask
    shown while `use_opacity_mask` is on. */
module Shake {
  import opened Common
  import opened Gpu
  import opened EffectModel
  import opened Samplers

  const BufferSize: nat := 16

  const Sizes: map<BufferRef, nat> := map[Primary := BufferSize]

  const DirectionOptions: seq<SelectOption> := [SelectOption(0.0, "居中"), SelectOption(1.0, "左"), SelectOption(2.0, "右")]

  const UseNoise := CreateProperty("use_noise", "噪声模式", Checkbox, Flag(false), At(7, 1))
  const UseFlowMask := CreateProperty("use_flow_mask", "使用流向蒙版", Checkbox, Flag(true), At(8, 1))
  const FlowMaskProp := CreateProperty("flow_mask", "流向蒙版", FlowMask, Str("defaultMask-7F7F00"), At(-1, -7),
                                       condition := SlotEquals(Primary, 8, 1.0))
  const UseOpacityMask := CreateProperty("use_opacity_mask", "使用不透明蒙版", Checkbox, Flag(false), At(9, 1))
  const OpacityMaskProp := CreateProperty("opacity_mask", "不透明蒙版", AlphaMask, Str("defaultMask-000000"), At(-3, -10),
                                          condition := SlotEquals(Primary, 9, 1.0))
  const Direction := CreateProperty("direction", "摇动方向", Select, Num(0.0), At(11, 1), options := DirectionOptions)
  const Speed := CreateProperty("speed", "摇动速度", Float, Num(1.0), At(1, 1), Range(0.0, 10.0))
  const Amp := CreateProperty("amp", "摇动强度", Float, Num(0.1), At(2, 1), Range(0.01, 0.5))
  const Friction := CreateProperty("friction", "摩擦力", Vec2, Pair(1.0, 1.0), At(3, 2), Range(0.01, 10.0))
  const BoundsMin := CreateProperty("bounds_min", "摇动下限", Float, Num(0.0), At(5, 1), Range(0.0, 0.9))
  const BoundsMax := CreateProperty("bounds_max", "摇动上限", Float, Num(1.0), At(6, 1), Range(0.1, 1.0))

  const Properties: seq<Property> :=
    [UseNoise, UseFlowMask, FlowMaskProp, UseOpacityMask, OpacityMaskProp, Direction,
     Speed, Amp, Friction, BoundsMin, BoundsMax]

  /** Slots 0-11 as the factory writes them (`seconds` is `performance.now() / 1000`);
      slots 12-15 keep the zero fill. */
  function InitialSlots(seconds: real): seq<real>
  {
    [seconds, 1.0, 0.1, 1.0, 1.0, 0.0, 1.0, 0.0, 1.0, 0.0, 0.0, 0.0, 0.0, 0.0, 0.0, 0.0]
  }

  function InitialState(seconds: real): BufferState
  {
    map[Primary := InitialSlots(seconds)]
  }

  /** Bind-group order: base, flow mask, time-offset texture, opacity mask,
      linear sampler, uniform buffer. */
  function Resources(baseTexture: Resource, flowMask: GpuTexture, timeOffset: GpuTexture, opacityMask: GpuTexture,
                     sampler: Sampler, uniforms: Uniforms): seq<Resource>
  {
    [baseTexture, TextureRes(flowMask), TextureRes(timeOffset), TextureRes(opacityMask),
     SamplerRes(sampler), UniformBuffer(uniforms)]
  }

  lemma EachPropertySound()
    ensures forall i :: 0 <= i < |Properties| ==> PropertySound(Properties[i], Sizes)
  {
    assert PropertySound(UseNoise, Sizes);
    assert PropertySound(UseFlowMask, Sizes);
    assert PropertySound(FlowMaskProp, Sizes);
    assert PropertySound(UseOpacityMask, Sizes);
    assert PropertySound(OpacityMaskProp, Sizes);
    assert PropertySound(Direction, Sizes);
    assert PropertySound(Speed, Sizes);
    assert PropertySound(Amp, Sizes);
    assert PropertySound(Friction, Sizes);
    assert PropertySound(BoundsMin, Sizes);
    assert PropertySound(BoundsMax, Sizes);
  }

  lemma NamesAndSlotsDistinct()
    ensures forall i, j :: 0 <= i < j < |Properties| ==>
      Properties[i].name != Properties[j].name && SlotsDisjoint(Properties[i], Properties[j])
  {
  }

  /** All property slots are in bounds and pairwise distinct; friction (a pair)
      covers slots 3 and 4. */
  lemma LayoutIsSound()
    ensures LayoutSound(Properties, Sizes)
    ensures forall k :: Covers(Friction, Primary, k) <==> k == 3 || k == 4
  {
    EachPropertySound();
    NamesAndSlotsDistinct();
  }

  /** Every slot-backed property starts at its default, including
      use_flow_mask = true in slot 8. */
  lemma InitialSlotsMatchDefaults(seconds: real)
    ensures forall i :: 0 <= i < |Properties| && !IsTextureKind(Properties[i].ptype) ==>
      SeededWithDefault(Properties[i], InitialSlots(seconds))
  {
  }

  /** flow_mask follows use_flow_mask (slot 8), opacity_mask follows
      use_opacity_mask (slot 9). */
  lemma MasksFollowTheirSwitches(st: BufferState, on: bool)
    requires Primary in st && |st[Primary]| == BufferSize
    ensures Visible(FlowMaskProp, WriteValue(st, UseFlowMask, Flag(on))) <==> on
    ensures Visible(OpacityMaskProp, WriteValue(st, UseOpacityMask, Flag(on))) <==> on
  {
    ControlledVisibility(FlowMaskProp, UseFlowMask, st, on);
    ControlledVisibility(OpacityMaskProp, UseOpacityMask, st, on);
  }

  /** Initially the flow mask is shown and the opacity mask hidden. */
  lemma InitialVisibility(seconds: real)
    ensures forall i :: 0 <= i < |Properties| ==> (Visible(Properties[i], InitialState(seconds)) <==> i != 4)
  {
  }

  /** The sentinels' first components name the flow mask (binding 1) and the
      opacity mask (binding 3); their second components (-7, -10) are not the
      properties' positions (2 and 4). */
  lemma MaskSentinels(baseTexture: Resource, flowMask: GpuTexture, timeOffset: GpuTexture, opacityMask: GpuTexture,
                      sampler: Sampler, uniforms: Uniforms)
    ensures var rs := Resources(baseTexture, flowMask, timeOffset, opacityMask, sampler, uniforms);
            SentinelAddresses(FlowMaskProp, rs, TextureRes(flowMask))
            && SentinelAddresses(OpacityMaskProp, rs, TextureRes(opacityMask))
    ensures Properties[2] == FlowMaskProp && SentinelPosition(FlowMaskProp) == 7
    ensures Properties[4] == OpacityMaskProp && SentinelPosition(OpacityMaskProp) == 10
  {
  }

  /** The direction select offers exactly the values 0, 1 and 2, in order,
      and its default is the first of them. */
  lemma DirectionValues()
    ensures |Direction.options| == 3
    ensures forall j :: 0 <= j < |Direction.options| ==> Direction.options[j].value == j as real
    ensures Direction.defaultValue == Num(Direction.options[0].value)
  {
  }

  /** The time slot 0 and the use_time_offset slot 10 belong to no listed
      property (the time-offset properties are commented out in the factory). */
  lemma FixedSlotsUnaddressed()
    ensures Unaddressed(Properties, Primary, 0) && Unaddressed(Properties, Primary, 10)
  {
  }

  lemma WritesGiveInitialSlots(zeros: seq<real>, seconds: real)
    requires |zeros| == BufferSize && forall k :: 0 <= k < BufferSize ==> zeros[k] == 0.0
    ensures zeros[0 := seconds][1 := 1.0][2 := 0.1][3 := 1.0][4 := 1.0][5 := 0.0][6 := 1.0][7 := 0.0]
                 [8 := 1.0][9 := 0.0][10 := 0.0][11 := 0.0]
            == InitialSlots(seconds)
  {
  }

  /** `createUniforms(16)`, then slots 0-11 written one by one. */
  method CreateUniforms(seconds: real) returns (u: Uniforms)
    ensures fresh(u) && fresh(u.values)
    ensures u.values[..] == InitialSlots(seconds) && u.commits == 0
  {
    u := new Uniforms(BufferSize);
    WritesGiveInitialSlots(u.values[..], seconds);
    u.values[0] := seconds;
    u.values[1] := 1.0;
    u.values[2] := 0.1;
    u.values[3] := 1.0;
    u.values[4] := 1.0;
    u.values[5] := 0.0;
    u.values[6] := 1.0;
    u.values[7] := 0.0;
    u.values[8] := 1.0;
    u.values[9] := 0.0;
    u.values[10] := 0.0;
    u.values[11] := 0.0;
  }

  /** `createShakeEffect`; `now` is the clock reading (milliseconds). */
  method CreateShakeEffect(name: string, now: real,
                           device: Device, samplers: SamplerStore, shaders: TextCache, fetchedShader: string,
                           baseTexture: Resource, flowMask: GpuTexture, timeOffset: GpuTexture, opacityMask: GpuTexture)
    returns (e: Effect)
    modifies device, samplers, shaders
    ensures fresh(e) && fresh(e.uniforms) && fresh(e.uniforms.values)
    ensures e.uniforms.values[..] == InitialSlots(now / 1000.0) && e.uniforms.commits == 0
    ensures e.name == name && e.id == Some("shake") && e.caption == Some("摇动")
    ensures e.properties == Properties && e.refs == DefaultRefs(Properties) && e.enable
    ensures e.passUniforms == map[] && e.maskConfigs == map[]
    ensures shaders.text == Some(CachedText(old(shaders.text), fetchedShader))
    ensures var lookup := Lookup(old(samplers.samplers), "linear", |old(device.created)|);
            && e.shape == SinglePass(shaders.text.value,
                                     Resources(baseTexture, flowMask, timeOffset, opacityMask, lookup.0, e.uniforms))
            && samplers.samplers == lookup.1
  {
    var u := CreateUniforms(now / 1000.0);
    var code := shaders.GetOrFetch(fetchedShader);
    var sampler := samplers.GetSampler("linear", device);
    e := new Effect(name, Some("shake"), Some("摇动"), Properties, u,
                    SinglePass(code, Resources(baseTexture, flowMask, timeOffset, opacityMask, sampler, u)), map[], map[]);
  }
}
