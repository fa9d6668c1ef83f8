/** The reflection effect: a 20-float buffer, a planar/perspective mode select
    whose value decides which property group is shown, and an opacity mask. */
module Reflection {
  import opened Common
  import opened Gpu
  import opened EffectModel
  import opened Samplers
  import opened Selection

  const PerspectiveOptions: seq<SelectOption> := [SelectOption(0.0, "平面"), SelectOption(1.0, "透视")]

  const BlendModeOptions: seq<SelectOption> := [
    SelectOption(0.0, "正常"), SelectOption(1.0, "正片叠底"), SelectOption(2.0, "滤色"),
    SelectOption(3.0, "叠加"), SelectOption(4.0, "变暗"), SelectOption(5.0, "变亮"),
    SelectOption(6.0, "颜色减淡"), SelectOption(7.0, "颜色加深"), SelectOption(8.0, "强光"),
    SelectOption(9.0, "相加")]

  const BufferSize: nat := 20

  const Sizes: map<BufferRef, nat> := map[Primary := BufferSize]

  const Perspective := CreateProperty("perspective", "模式", Select, Num(0.0), At(2, 1), options := PerspectiveOptions)
  const BlendMode := CreateProperty("blend_mode", "混合模式", Select, Num(9.0), At(14, 1), options := BlendModeOptions)
  const UseMask := CreateProperty("use_mask", "使用不透明蒙版", Checkbox, Flag(false), At(15, 1))
  const AlphaMaskProp := CreateProperty("alpha_mask", "不透明蒙版", AlphaMask, Str("defaultMask-000000"), At(-1, -1),
                                        condition := SlotEquals(Primary, 15, 1.0))
  const Alpha := CreateProperty("alpha", "反射强度", Float, Num(1.0), At(13, 1), Range(0.0, 1.0))
  const Direction := CreateProperty("direction", "反射方向", Angle, Num(180.0), At(3, 1), Range(0.0, 360.0),
                                    SlotEquals(Primary, 2, 0.0))
  const Offset := CreateProperty("offset", "Y轴偏移", Float, Num(0.0), At(4, 1), Range(-1.0, 1.0),
                                 SlotEquals(Primary, 2, 0.0))
  const Point0 := CreateProperty("point0", "左上角", Vec2, Pair(0.0, 0.0), At(5, 2), Range(0.0, 1.0),
                                 SlotEquals(Primary, 2, 1.0))
  const Point1 := CreateProperty("point1", "右上角", Vec2, Pair(1.0, 0.0), At(7, 2), Range(0.0, 1.0),
                                 SlotEquals(Primary, 2, 1.0))
  const Point2 := CreateProperty("point2", "右下角", Vec2, Pair(1.0, 1.0), At(9, 2), Range(0.0, 1.0),
                                 SlotEquals(Primary, 2, 1.0))
  const Point3 := CreateProperty("point3", "左下角", Vec2, Pair(0.0, 1.0), At(11, 2), Range(0.0, 1.0),
                                 SlotEquals(Primary, 2, 1.0))

  const Properties: seq<Property> :=
    [Perspective, BlendMode, UseMask, AlphaMaskProp, Alpha, Direction, Offset, Point0, Point1, Point2, Point3]

  /** The planar-mode and the perspective-mode groups. */
  const PlanarGroup: seq<Property> := [Direction, Offset]
  const PerspectiveGroup: seq<Property> := [Point0, Point1, Point2, Point3]

  /** Slots 0-15 as the factory writes them; 16-19 keep the buffer's zero fill. */
  function InitialSlots(canvasWidth: real, canvasHeight: real): seq<real>
  {
    [canvasWidth, canvasHeight, 0.0, 0.0, 0.0, 0.0, 0.0, 1.0, 0.0, 1.0, 1.0, 0.0, 1.0, 1.0, 9.0, 0.0,
     0.0, 0.0, 0.0, 0.0]
  }

  function InitialState(canvasWidth: real, canvasHeight: real): BufferState
  {
    map[Primary := InitialSlots(canvasWidth, canvasHeight)]
  }

  /** Bind-group order: base, mask, linear sampler, uniform buffer. */
  function Resources(baseTexture: Resource, maskTexture: GpuTexture, sampler: Sampler, uniforms: Uniforms): seq<Resource>
  {
    [baseTexture, TextureRes(maskTexture), SamplerRes(sampler), UniformBuffer(uniforms)]
  }

  /** Every property is in bounds with its type's arity, names and slots are
      pairwise distinct (the corners take 5-6, 7-8, 9-10 and 11-12). */
  lemma LayoutIsSound()
    ensures LayoutSound(Properties, Sizes)
  {
    EachPropertySound();
    NamesAndSlotsDistinct();
  }

  lemma EachPropertySound()
    ensures forall i :: 0 <= i < |Properties| ==> PropertySound(Properties[i], Sizes)
  {
    assert PropertySound(Perspective, Sizes);
    assert PropertySound(BlendMode, Sizes);
    assert PropertySound(UseMask, Sizes);
    assert PropertySound(AlphaMaskProp, Sizes);
    assert PropertySound(Alpha, Sizes);
    assert PropertySound(Direction, Sizes);
    assert PropertySound(Offset, Sizes);
    assert PropertySound(Point0, Sizes);
    assert PropertySound(Point1, Sizes);
    assert PropertySound(Point2, Sizes);
    assert PropertySound(Point3, Sizes);
  }

  lemma NamesAndSlotsDistinct()
    ensures forall i, j :: 0 <= i < j < |Properties| ==>
      Properties[i].name != Properties[j].name && SlotsDisjoint(Properties[i], Properties[j])
  {
  }

  /** The initial slots hold every slot-backed default except `direction`,
      whose slot 3 starts at 0 while its default is 180. */
  lemma InitialSlotsMatchDefaults(canvasWidth: real, canvasHeight: real)
    ensures forall i :: 0 <= i < |Properties| && !IsTextureKind(Properties[i].ptype) && Properties[i] != Direction ==>
      SeededWithDefault(Properties[i], InitialSlots(canvasWidth, canvasHeight))
    ensures !SeededWithDefault(Direction, InitialSlots(canvasWidth, canvasHeight))
  {
    assert InitialSlots(canvasWidth, canvasHeight)[3] != Encode(Direction.defaultValue)[0];
  }

  /** Planar properties are shown iff slot 2 is 0, perspective ones iff it is 1;
      so the two groups are never shown together, and exactly one is shown while
      slot 2 holds one of the mode option values. */
  lemma ModeGroupsExclusive(st: BufferState)
    ensures forall p :: p in PlanarGroup ==> (Visible(p, st) <==> Primary in st && 2 < |st[Primary]| && st[Primary][2] == 0.0)
    ensures forall p :: p in PerspectiveGroup ==> (Visible(p, st) <==> Primary in st && 2 < |st[Primary]| && st[Primary][2] == 1.0)
    ensures forall p, q :: p in PlanarGroup && q in PerspectiveGroup ==> !(Visible(p, st) && Visible(q, st))
    ensures Primary in st && 2 < |st[Primary]| && (exists o :: o in PerspectiveOptions && o.value == st[Primary][2]) ==>
      (forall p :: p in PlanarGroup ==> Visible(p, st)) || (forall p :: p in PerspectiveGroup ==> Visible(p, st))
  {
  }

  /** Choosing a mode through the `perspective` select shows exactly that mode's group. */
  lemma SelectingModeShowsItsGroup(st: BufferState, mode: real)
    requires Primary in st && |st[Primary]| == BufferSize
    ensures forall p :: p in PlanarGroup ==> (Visible(p, WriteValue(st, Perspective, Num(mode))) <==> mode == 0.0)
    ensures forall p :: p in PerspectiveGroup ==> (Visible(p, WriteValue(st, Perspective, Num(mode))) <==> mode == 1.0)
  {
    var after := WriteValue(st, Perspective, Num(mode));
    assert after[Primary][2] == mode;
  }

  /** alpha_mask is shown exactly when use_mask was last set. */
  lemma MaskFollowsUseMask(st: BufferState, on: bool)
    requires Primary in st && |st[Primary]| == BufferSize
    ensures Visible(AlphaMaskProp, WriteValue(st, UseMask, Flag(on))) <==> on
  {
    ControlledVisibility(AlphaMaskProp, UseMask, st, on);
  }

  /** The mask sentinel `-1` names resources[1], the mask texture. */
  lemma MaskSentinelAddressesMask(baseTexture: Resource, maskTexture: GpuTexture, sampler: Sampler, uniforms: Uniforms)
    ensures SentinelAddresses(AlphaMaskProp, Resources(baseTexture, maskTexture, sampler, uniforms), TextureRes(maskTexture))
  {
  }

  /** Initially (mode 0, use_mask 0) the planar group is shown and the corners
      and the mask are hidden; every other property is unconditional. */
  lemma InitialVisibility(canvasWidth: real, canvasHeight: real)
    ensures forall i :: 0 <= i < |Properties| ==>
      (Visible(Properties[i], InitialState(canvasWidth, canvasHeight)) <==> Properties[i] !in PerspectiveGroup && Properties[i] != AlphaMaskProp)
  {
  }

  /** The slot writes below turn the zero-filled buffer into InitialSlots. */
  lemma WritesGiveInitialSlots(zeros: seq<real>, canvasWidth: real, canvasHeight: real)
    requires |zeros| == BufferSize && forall k :: 0 <= k < BufferSize ==> zeros[k] == 0.0
    ensures zeros[0 := canvasWidth][1 := canvasHeight][2 := 0.0][3 := 0.0][4 := 0.0][5 := 0.0][6 := 0.0]
                 [7 := 1.0][8 := 0.0][9 := 1.0][10 := 1.0][11 := 0.0][12 := 1.0][13 := 1.0][14 := 9.0][15 := 0.0]
            == InitialSlots(canvasWidth, canvasHeight)
  {
  }

  /** The factory's buffer set-up: `createUniforms(20)`, then slots 0-15 written
      one by one. */
  method CreateUniforms(canvasWidth: real, canvasHeight: real) returns (u: Uniforms)
    ensures fresh(u) && fresh(u.values)
    ensures u.values[..] == InitialSlots(canvasWidth, canvasHeight) && u.commits == 0
  {
    u := new Uniforms(BufferSize);
    WritesGiveInitialSlots(u.values[..], canvasWidth, canvasHeight);
    u.values[0] := canvasWidth;
    u.values[1] := canvasHeight;
    u.values[2] := 0.0;
    u.values[3] := 0.0;
    u.values[4] := 0.0;
    u.values[5] := 0.0;
    u.values[6] := 0.0;
    u.values[7] := 1.0;
    u.values[8] := 0.0;
    u.values[9] := 1.0;
    u.values[10] := 1.0;
    u.values[11] := 0.0;
    u.values[12] := 1.0;
    u.values[13] := 1.0;
    u.values[14] := 9.0;
    u.values[15] := 0.0;
  }

  /** `createReflectionEffect`: the buffer from CreateUniforms, the shader taken
      from the cache (fetched only when it holds no text), and the linear sampler
      from the sampler store; `canvas` is the canvas settings at the time of the
      call. */
  method CreateReflectionEffect(name: string, canvas: CanvasSettings,
                                device: Device, samplers: SamplerStore, shaders: TextCache, fetchedShader: string,
                                baseTexture: Resource, maskTexture: GpuTexture)
    returns (e: Effect)
    modifies device, samplers, shaders
    ensures fresh(e) && fresh(e.uniforms) && fresh(e.uniforms.values)
    ensures e.uniforms.values[..] == InitialSlots(canvas.width as real, canvas.height as real) && e.uniforms.commits == 0
    ensures e.name == name && e.id == Some("reflection") && e.caption == Some("反射")
    ensures e.properties == Properties && e.refs == DefaultRefs(Properties) && e.enable
    ensures e.passUniforms == map[] && e.maskConfigs == map[]
    ensures var lookup := Lookup(old(samplers.samplers), "linear", |old(device.created)|);
            && e.shape == SinglePass(CachedText(old(shaders.text), fetchedShader),
                                     Resources(baseTexture, maskTexture, lookup.0, e.uniforms))
            && samplers.samplers == lookup.1
    ensures shaders.text == Some(CachedText(old(shaders.text), fetchedShader))
  {
    var u := CreateUniforms(canvas.width as real, canvas.height as real);
    var code := shaders.GetOrFetch(fetchedShader);
    var sampler := samplers.GetSampler("linear", device);
    e := new Effect(name, Some("reflection"), Some("反射"), Properties, u,
                    SinglePass(code, Resources(baseTexture, maskTexture, sampler, u)), map[], map[]);
  }
}
