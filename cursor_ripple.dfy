/** The cursor-ripple effect: three named buffers (force, simulate, combine),
    three passes that ping-pong between two ripple textures, and a collision mask
    bound in the simulate pass. */
module CursorRipple {
  import opened Common
  import opened Gpu
  import opened EffectModel
  import opened Samplers
  import opened Selection

  const Force := "force"
  const Simulate := "simulate"
  const Combine := "combine"

  const ForceSize: nat := 10
  const SimulateSize: nat := 8
  const CombineSize: nat := 4

  const Sizes: map<BufferRef, nat> :=
    map[Named(Force) := ForceSize, Named(Simulate) := SimulateSize, Named(Combine) := CombineSize]

  /** The ripple textures' format. */
  const RippleFormat := "rgba16float"

  /** The force buffer's documented layout: pointer (2 floats), pointerLast (2),
      pointerDelta (1), then rippleScale. */
  const PointerFloats: nat := 2
  const PointerLastFloats: nat := 2
  const PointerDeltaFloats: nat := 1

  const UseMask := CreateProperty("useMask", "使用碰撞蒙版", Checkbox, Flag(false), In(Simulate, 3, 1))
  const AlphaMaskProp := CreateProperty("alpha_mask", "碰撞蒙版", AlphaMask, Str("defaultMask-FFFFFF"), At(-2, -1),
                                        condition := SlotEquals(Named(Simulate), 3, 1.0))
  const RippleScale := CreateProperty("rippleScale", "波纹大小", Float, Num(1.0), In(Force, 5, 1), Range(0.0, 2.0))
  const RippleSpeed := CreateProperty("rippleSpeed", "波纹速度", Float, Num(1.0), In(Simulate, 0, 1), Range(0.0, 2.0))
  const RippleDecay := CreateProperty("rippleDecay", "波纹衰减", Float, Num(0.98), In(Simulate, 1, 1), Range(0.0, 4.0))
  const RippleStrength := CreateProperty("rippleStrength", "波纹强度", Float, Num(1.0), In(Combine, 0, 1), Range(0.0, 5.0))

  const Properties: seq<Property> := [UseMask, AlphaMaskProp, RippleScale, RippleSpeed, RippleDecay, RippleStrength]

  const MaskConfigs: map<string, MaskConfig> := map["alpha_mask" := MaskConfig(Simulate, 2)]

  /** The three buffers after set-up: zero-filled, except simulate slot 3 = 1. */
  const ForceSlots: seq<real> := [0.0, 0.0, 0.0, 0.0, 0.0, 0.0, 0.0, 0.0, 0.0, 0.0]
  const SimulateSlots: seq<real> := [0.0, 0.0, 0.0, 1.0, 0.0, 0.0, 0.0, 0.0]
  const CombineSlots: seq<real> := [0.0, 0.0, 0.0, 0.0]

  const InitialState: BufferState :=
    map[Named(Force) := ForceSlots, Named(Simulate) := SimulateSlots, Named(Combine) := CombineSlots]

  /** The pass list: force reads ripple texture A and renders into B, simulate
      reads B (and the mask) and renders into A, and the final pass, named after
      the effect, samples A over the base texture. */
  function Passes(name: string, forceCode: string, simulateCode: string, combineCode: string,
                  force: Uniforms, simulate: Uniforms, combine: Uniforms,
                  rippleA: GpuTexture, rippleB: GpuTexture, sampler: Sampler,
                  baseTexture: Resource, maskTexture: Resource): seq<PassOptions>
  {
    [PassOptions(Force, forceCode, [UniformBuffer(force), View(rippleA)], Some(View(rippleB)), Some(RippleFormat)),
     PassOptions(Simulate, simulateCode, [UniformBuffer(simulate), View(rippleB), maskTexture], Some(View(rippleA)), Some(RippleFormat)),
     PassOptions(name, combineCode, [SamplerRes(sampler), UniformBuffer(combine), baseTexture, View(rippleA)], None, None)]
  }

  lemma EachPropertySound()
    ensures forall i :: 0 <= i < |Properties| ==> PropertySound(Properties[i], Sizes)
  {
    assert PropertySound(UseMask, Sizes);
    assert PropertySound(AlphaMaskProp, Sizes);
    assert PropertySound(RippleScale, Sizes);
    assert PropertySound(RippleSpeed, Sizes);
    assert PropertySound(RippleDecay, Sizes);
    assert PropertySound(RippleStrength, Sizes);
  }

  lemma NamesAndSlotsDistinct()
    ensures forall i, j :: 0 <= i < j < |Properties| ==>
      Properties[i].name != Properties[j].name && SlotsDisjoint(Properties[i], Properties[j])
  {
  }

  /** Every numeric property names one of the three buffers and fits in it;
      names and slots are pairwise distinct. */
  lemma LayoutIsSound()
    ensures LayoutSound(Properties, Sizes)
  {
    EachPropertySound();
    NamesAndSlotsDistinct();
  }

  /** rippleScale sits right after pointer, pointerLast and pointerDelta, and the
      slots before it belong to no property. */
  lemma RippleScaleFollowsPointerFields()
    ensures RippleScale.uniformIndex.offset == PointerFloats + PointerLastFloats + PointerDeltaFloats
    ensures forall k :: 0 <= k < RippleScale.uniformIndex.offset ==> Unaddressed(Properties, Named(Force), k)
  {
  }

  /** alpha_mask is shown exactly when useMask (simulate slot 3) was last set. */
  lemma MaskFollowsUseMask(st: BufferState, on: bool)
    requires Named(Simulate) in st && |st[Named(Simulate)]| == SimulateSize
    ensures Visible(AlphaMaskProp, WriteValue(st, UseMask, Flag(on))) <==> on
  {
    ControlledVisibility(AlphaMaskProp, UseMask, st, on);
  }

  /** The set-up writes 1 into simulate slot 3 while useMask defaults to false:
      the mask starts visible and the slot disagrees with the checkbox default. */
  lemma InitialMaskVisibleWhileUnchecked()
    ensures Visible(AlphaMaskProp, InitialState)
    ensures UseMask.defaultValue == Flag(false)
    ensures !SeededWithDefault(UseMask, InitialState[Named(Simulate)])
  {
    assert InitialState[Named(Simulate)][3] != Encode(UseMask.defaultValue)[0];
  }

  /** The sentinel `[-2, -1]` names binding 2 and property position 1; the mask
      config agrees (simulate pass, binding 2), and binding 2 of the simulate pass
      is the mask texture. */
  lemma MaskSentinelMatchesConfig(name: string, forceCode: string, simulateCode: string, combineCode: string,
                                  force: Uniforms, simulate: Uniforms, combine: Uniforms,
                                  rippleA: GpuTexture, rippleB: GpuTexture, sampler: Sampler,
                                  baseTexture: Resource, maskTexture: Resource)
    ensures 0 <= SentinelPosition(AlphaMaskProp) < |Properties| && Properties[SentinelPosition(AlphaMaskProp)] == AlphaMaskProp
    ensures AlphaMaskProp.name in MaskConfigs
    ensures MaskConfigs[AlphaMaskProp.name].bindingIndex == SentinelBinding(AlphaMaskProp)
    ensures var passes := Passes(name, forceCode, simulateCode, combineCode, force, simulate, combine,
                                 rippleA, rippleB, sampler, baseTexture, maskTexture);
            exists i :: 0 <= i < |passes| && passes[i].name == MaskConfigs[AlphaMaskProp.name].passName
                        && SentinelAddresses(AlphaMaskProp, passes[i].resources, maskTexture)
  {
    var passes := Passes(name, forceCode, simulateCode, combineCode, force, simulate, combine,
                         rippleA, rippleB, sampler, baseTexture, maskTexture);
    assert passes[1].name == Simulate;
  }

  /** The ping-pong: each pass reads the texture the previous one rendered into;
      the last pass samples the simulation result over the base texture. The
      first two passes have the fixed names "force" and "simulate", the last one
      the effect's name. */
  lemma PassesPingPong(name: string, forceCode: string, simulateCode: string, combineCode: string,
                       force: Uniforms, simulate: Uniforms, combine: Uniforms,
                       rippleA: GpuTexture, rippleB: GpuTexture, sampler: Sampler,
                       baseTexture: Resource, maskTexture: Resource)
    ensures var passes := Passes(name, forceCode, simulateCode, combineCode, force, simulate, combine,
                                 rippleA, rippleB, sampler, baseTexture, maskTexture);
            && |passes| == 3
            && View(rippleA) in passes[0].resources && passes[0].view == Some(View(rippleB))
            && View(rippleB) in passes[1].resources && passes[1].view == Some(View(rippleA))
            && View(rippleA) in passes[2].resources && baseTexture in passes[2].resources
            && passes[0].name == Force && passes[1].name == Simulate && passes[2].name == name
  {
  }

  /** Only the last pass carries the effect's name, unless that name is one of
      the two fixed ones. */
  lemma OnlyLastPassNamed(name: string, forceCode: string, simulateCode: string, combineCode: string,
                          force: Uniforms, simulate: Uniforms, combine: Uniforms,
                          rippleA: GpuTexture, rippleB: GpuTexture, sampler: Sampler,
                          baseTexture: Resource, maskTexture: Resource)
    ensures var passes := Passes(name, forceCode, simulateCode, combineCode, force, simulate, combine,
                                 rippleA, rippleB, sampler, baseTexture, maskTexture);
            (forall i :: 0 <= i < |passes| ==> (passes[i].name == name <==> i == 2))
            <==> name != Force && name != Simulate
  {
    var passes := Passes(name, forceCode, simulateCode, combineCode, force, simulate, combine,
                         rippleA, rippleB, sampler, baseTexture, maskTexture);
    if name == Force {
      assert passes[0].name == name;
    } else if name == Simulate {
      assert passes[1].name == name;
    }
  }

  /** `createUniforms(10)`, `(8)` and `(4)`, then simulate slot 3 := 1. */
  method CreateBuffers() returns (force: Uniforms, simulate: Uniforms, combine: Uniforms)
    ensures fresh(force) && fresh(force.values) && fresh(simulate) && fresh(simulate.values)
    ensures fresh(combine) && fresh(combine.values)
    ensures force.values[..] == ForceSlots && simulate.values[..] == SimulateSlots && combine.values[..] == CombineSlots
    ensures force.commits == 0 && simulate.commits == 0 && combine.commits == 0
  {
    force := new Uniforms(ForceSize);
    simulate := new Uniforms(SimulateSize);
    combine := new Uniforms(CombineSize);
    simulate.values[3] := 1.0;
  }

  /** The three module-level shader caches, consulted in order. */
  method LoadShaders(forceShader: TextCache, fetchedForce: string,
                     simulateShader: TextCache, fetchedSimulate: string,
                     combineShader: TextCache, fetchedCombine: string)
    returns (forceCode: string, simulateCode: string, combineCode: string)
    requires forceShader != simulateShader && forceShader != combineShader && simulateShader != combineShader
    modifies forceShader, simulateShader, combineShader
    ensures forceCode == CachedText(old(forceShader.text), fetchedForce) && forceShader.text == Some(forceCode)
    ensures simulateCode == CachedText(old(simulateShader.text), fetchedSimulate) && simulateShader.text == Some(simulateCode)
    ensures combineCode == CachedText(old(combineShader.text), fetchedCombine) && combineShader.text == Some(combineCode)
  {
    forceCode := forceShader.GetOrFetch(fetchedForce);
    simulateCode := simulateShader.GetOrFetch(fetchedSimulate);
    combineCode := combineShader.GetOrFetch(fetchedCombine);
  }

  /** `createCursorRippleEffect`: the three shader texts through their caches, two
      canvas-sized ripple textures, the linear sampler from the store. The effect
      commits through the force buffer and keeps all three per pass. */
  method CreateCursorRippleEffect(name: string, canvas: CanvasSettings,
                                  device: Device, samplers: SamplerStore,
                                  forceShader: TextCache, fetchedForce: string,
                                  simulateShader: TextCache, fetchedSimulate: string,
                                  combineShader: TextCache, fetchedCombine: string,
                                  baseTexture: Resource, maskTexture: Resource)
    returns (e: Effect, ghost force: Uniforms, ghost simulate: Uniforms, ghost combine: Uniforms,
             ghost rippleA: GpuTexture, ghost rippleB: GpuTexture)
    requires forceShader != simulateShader && forceShader != combineShader && simulateShader != combineShader
    modifies device, samplers, forceShader, simulateShader, combineShader
    ensures fresh(e) && fresh(rippleA) && fresh(rippleB)
    ensures rippleA.width == rippleB.width == canvas.width && rippleA.height == rippleB.height == canvas.height
    ensures rippleA.format == rippleB.format == RippleFormat
    ensures fresh(force) && fresh(force.values) && fresh(simulate) && fresh(simulate.values)
    ensures fresh(combine) && fresh(combine.values)
    ensures force.values[..] == ForceSlots && simulate.values[..] == SimulateSlots && combine.values[..] == CombineSlots
    ensures e.name == name && e.id == None && e.caption == Some("光标波纹")
    ensures e.properties == Properties && e.refs == DefaultRefs(Properties) && e.enable
    ensures e.uniforms == force && e.passUniforms == map[Force := force, Simulate := simulate, Combine := combine]
    ensures e.maskConfigs == MaskConfigs
    ensures forceShader.text == Some(CachedText(old(forceShader.text), fetchedForce))
    ensures simulateShader.text == Some(CachedText(old(simulateShader.text), fetchedSimulate))
    ensures combineShader.text == Some(CachedText(old(combineShader.text), fetchedCombine))
    ensures var lookup := Lookup(old(samplers.samplers), "linear", |old(device.created)|);
            && e.shape == MultiPass(Passes(name, forceShader.text.value, simulateShader.text.value, combineShader.text.value,
                                           force, simulate, combine, rippleA, rippleB, lookup.0, baseTexture, maskTexture))
            && samplers.samplers == lookup.1
  {
    var f, s, c := CreateBuffers();
    force, simulate, combine := f, s, c;
    var forceCode, simulateCode, combineCode := LoadShaders(forceShader, fetchedForce, simulateShader, fetchedSimulate,
                                                            combineShader, fetchedCombine);
    var a := device.CreateTexture(canvas.width, canvas.height, RippleFormat);
    var b := device.CreateTexture(canvas.width, canvas.height, RippleFormat);
    rippleA, rippleB := a, b;
    var sampler := samplers.GetSampler("linear", device);
    var passes := Passes(name, forceCode, simulateCode, combineCode, f, s, c, a, b, sampler, baseTexture, maskTexture);
    e := new Effect(name, None, Some("光标波纹"), Properties, f, MultiPass(passes),
                    map[Force := f, Simulate := s, Combine := c], MaskConfigs);
  }
}
