/** The cloud-motion effect: a 10-float buffer (resolution, time, five motion
    parameters, the mask switch, padding), committed once at creation, an
    opacity mask shown while `use_mask` is on, and a cached noise texture. */
module CloudMotion {
  import opened Common
  import opened Gpu
  import opened EffectModel
  import opened Samplers
  import opened Selection

  const BufferSize: nat := 10

  const Sizes: map<BufferRef, nat> := map[Primary := BufferSize]

  /** The direction slot is written as 90 degrees in radians (to the digits the
      factory uses). */
  const DirectionRadians: real := 1.57079632679

  const UseMask := CreateProperty("use_mask", "使用不透明蒙版", Checkbox, Flag(true), At(8, 1))
  const AlphaMaskProp := CreateProperty("alpha_mask", "不透明蒙版", AlphaMask, Str("defaultMask-000000"), At(-1, -1),
                                        condition := SlotEquals(Primary, 8, 1.0))
  const Speed := CreateProperty("speed", "移动速度", Float, Num(0.1), At(3, 1), Range(0.01, 1.0))
  const Scale := CreateProperty("scale", "颗粒度", Float, Num(2.0), At(4, 1), Range(0.5, 4.0))
  const ScaleX := CreateProperty("scaleX", "水平颗粒度", Float, Num(0.5), At(5, 1), Range(0.1, 1.0))
  const Amount := CreateProperty("amount", "云动强度", Float, Num(0.1), At(6, 1), Range(0.0, 0.2))
  const Direction := CreateProperty("direction", "云动方向", Angle, Num(90.0), At(7, 1), Range(0.0, 360.0))

  const Properties: seq<Property> := [UseMask, AlphaMaskProp, Speed, Scale, ScaleX, Amount, Direction]

  /** All ten slots as the factory writes them; time starts at 0. */
  function InitialSlots(canvasWidth: real, canvasHeight: real): seq<real>
  {
    [canvasWidth, canvasHeight, 0.0, 0.001, 2.0, 0.5, 0.1, DirectionRadians, 1.0, 0.0]
  }

  function InitialState(canvasWidth: real, canvasHeight: real): BufferState
  {
    map[Primary := InitialSlots(canvasWidth, canvasHeight)]
  }

  /** Bind-group order: base, mask, a view of the noise texture, the linear and
      the repeat sampler, the uniform buffer. */
  function Resources(baseTexture: Resource, maskTexture: Resource, noise: GpuTexture,
                     linear: Sampler, repeat: Sampler, uniforms: Uniforms): seq<Resource>
  {
    [baseTexture, maskTexture, View(noise), SamplerRes(linear), SamplerRes(repeat), UniformBuffer(uniforms)]
  }

  lemma EachPropertySound()
    ensures forall i :: 0 <= i < |Properties| ==> PropertySound(Properties[i], Sizes)
  {
    assert PropertySound(UseMask, Sizes);
    assert PropertySound(AlphaMaskProp, Sizes);
    assert PropertySound(Speed, Sizes);
    assert PropertySound(Scale, Sizes);
    assert PropertySound(ScaleX, Sizes);
    assert PropertySound(Amount, Sizes);
    assert PropertySound(Direction, Sizes);
  }

  lemma NamesAndSlotsDistinct()
    ensures forall i, j :: 0 <= i < j < |Properties| ==>
      Properties[i].name != Properties[j].name && SlotsDisjoint(Properties[i], Properties[j])
  {
  }

  /** The property slots 3-8 are below 10 and pairwise distinct. */
  lemma LayoutIsSound()
    ensures LayoutSound(Properties, Sizes)
  {
    EachPropertySound();
    NamesAndSlotsDistinct();
  }

  /** The initial slots are not the defaults throughout: use_mask, scale, scaleX
      and amount start at their defaults, but speed starts at 0.001 (default
      0.1) and direction at 90 degrees in radians (default 90). */
  lemma InitialSlotsVersusDefaults(canvasWidth: real, canvasHeight: real)
    ensures forall p :: p in [UseMask, Scale, ScaleX, Amount] ==> SeededWithDefault(p, InitialSlots(canvasWidth, canvasHeight))
    ensures !SeededWithDefault(Speed, InitialSlots(canvasWidth, canvasHeight))
    ensures !SeededWithDefault(Direction, InitialSlots(canvasWidth, canvasHeight))
  {
    assert InitialSlots(canvasWidth, canvasHeight)[3] != Encode(Speed.defaultValue)[0];
    assert InitialSlots(canvasWidth, canvasHeight)[7] != Encode(Direction.defaultValue)[0];
  }

  /** Resolution, time and padding (slots 0-2 and 9) belong to no property. */
  lemma FixedSlotsUnaddressed()
    ensures forall k :: (0 <= k <= 2 || k == 9) ==> Unaddressed(Properties, Primary, k)
  {
  }

  /** alpha_mask is shown exactly when use_mask (slot 8) was last set. */
  lemma MaskFollowsUseMask(st: BufferState, on: bool)
    requires Primary in st && |st[Primary]| == BufferSize
    ensures Visible(AlphaMaskProp, WriteValue(st, UseMask, Flag(on))) <==> on
  {
    ControlledVisibility(AlphaMaskProp, UseMask, st, on);
  }

  /** use_mask starts on, so every property, the mask included, is shown at first. */
  lemma InitialVisibility(canvasWidth: real, canvasHeight: real)
    ensures forall i :: 0 <= i < |Properties| ==> Visible(Properties[i], InitialState(canvasWidth, canvasHeight))
    ensures UseMask.defaultValue == Flag(true)
  {
  }

  /** The mask sentinel `-1` names resources[1], the mask texture. */
  lemma MaskSentinelAddressesMask(baseTexture: Resource, maskTexture: Resource, noise: GpuTexture,
                                  linear: Sampler, repeat: Sampler, uniforms: Uniforms)
    ensures SentinelAddresses(AlphaMaskProp, Resources(baseTexture, maskTexture, noise, linear, repeat, uniforms), maskTexture)
  {
  }

  lemma WritesGiveInitialSlots(zeros: seq<real>, canvasWidth: real, canvasHeight: real)
    requires |zeros| == BufferSize && forall k :: 0 <= k < BufferSize ==> zeros[k] == 0.0
    ensures zeros[0 := canvasWidth][1 := canvasHeight][2 := 0.0][3 := 0.001][4 := 2.0][5 := 0.5][6 := 0.1]
                 [7 := DirectionRadians][8 := 1.0][9 := 0.0]
            == InitialSlots(canvasWidth, canvasHeight)
  {
  }

  /** `createUniforms(10)`, all ten slots written, then `apply()`: the GPU copy
      holds the initial slots after exactly one commit. */
  method CreateUniforms(canvasWidth: real, canvasHeight: real) returns (u: Uniforms)
    ensures fresh(u) && fresh(u.values)
    ensures u.values[..] == InitialSlots(canvasWidth, canvasHeight)
    ensures u.committed == u.values[..] && u.commits == 1
  {
    u := new Uniforms(BufferSize);
    WritesGiveInitialSlots(u.values[..], canvasWidth, canvasHeight);
    u.values[0] := canvasWidth;
    u.values[1] := canvasHeight;
    u.values[2] := 0.0;
    u.values[3] := 0.001;
    u.values[4] := 2.0;
    u.values[5] := 0.5;
    u.values[6] := 0.1;
    u.values[7] := DirectionRadians;
    u.values[8] := 1.0;
    u.values[9] := 0.0;
    u.Apply();
  }

  /** `createCloudMotionEffect`: the cached shader, the committed buffer, the
      cached noise texture, and the "linear" then the "repeat" sampler. */
  method CreateCloudMotionEffect(name: string, canvas: CanvasSettings,
                                 device: Device, samplers: SamplerStore, shaders: TextCache, fetchedShader: string,
                                 noises: TextureCache, loadedNoise: GpuTexture,
                                 baseTexture: Resource, maskTexture: Resource)
    returns (e: Effect)
    modifies device, samplers, shaders, noises
    ensures fresh(e) && fresh(e.uniforms) && fresh(e.uniforms.values)
    ensures e.uniforms.values[..] == InitialSlots(canvas.width as real, canvas.height as real)
    ensures e.uniforms.committed == e.uniforms.values[..] && e.uniforms.commits == 1
    ensures e.name == name && e.id == Some("cloud-motion") && e.caption == Some("云朵移动")
    ensures e.properties == Properties && e.refs == DefaultRefs(Properties) && e.enable
    ensures e.passUniforms == map[] && e.maskConfigs == map[]
    ensures shaders.text == Some(CachedText(old(shaders.text), fetchedShader))
    ensures noises.texture == Some(CachedTexture(old(noises.texture), loadedNoise))
    ensures var linear := Lookup(old(samplers.samplers), "linear", |old(device.created)|);
            var repeat := Lookup(linear.1, "repeat",
                                 |old(device.created)| + if "linear" in old(samplers.samplers) then 0 else 1);
            && e.shape == SinglePass(shaders.text.value,
                                     Resources(baseTexture, maskTexture, noises.texture.value, linear.0, repeat.0, e.uniforms))
            && samplers.samplers == repeat.1
  {
    var code, noise, linear, repeat := CloudResources(device, samplers, shaders, fetchedShader, noises, loadedNoise);
    var u := CreateUniforms(canvas.width as real, canvas.height as real);
    e := new Effect(name, Some("cloud-motion"), Some("云朵移动"), Properties, u,
                    SinglePass(code, Resources(baseTexture, maskTexture, noise, linear, repeat, u)), map[], map[]);
  }

  /** The cached shader, the cached noise texture, then the "linear" and the
      "repeat" sampler. `createCloudMotionEffect` creates its uniform buffer
      between the shader and the noise texture; the buffer is fresh and none
      of these calls touches it, so the order does not matter. */
  method CloudResources(device: Device, samplers: SamplerStore, shaders: TextCache, fetchedShader: string,
                        noises: TextureCache, loadedNoise: GpuTexture)
    returns (code: string, noise: GpuTexture, linear: Sampler, repeat: Sampler)
    modifies device, samplers, shaders, noises
    ensures code == CachedText(old(shaders.text), fetchedShader) && shaders.text == Some(code)
    ensures noise == CachedTexture(old(noises.texture), loadedNoise) && noises.texture == Some(noise)
    ensures var l := Lookup(old(samplers.samplers), "linear", |old(device.created)|);
            var r := Lookup(l.1, "repeat", |old(device.created)| + if "linear" in old(samplers.samplers) then 0 else 1);
            linear == l.0 && repeat == r.0 && samplers.samplers == r.1
  {
    code := shaders.GetOrFetch(fetchedShader);
    noise := noises.GetOrLoad(loadedNoise);
    linear := samplers.GetSampler("linear", device);
    repeat := samplers.GetSampler("repeat", device);
  }
}
