/** The scroll effect: a 6-float buffer (resolution, scroll direction, time,
    scale), committed once at creation; no masks. */
module Scroll {
  import opened Common
  import opened Gpu
  import opened EffectModel
  import opened Samplers
  import opened Selection

  const BufferSize: nat := 6

  const Sizes: map<BufferRef, nat> := map[Primary := BufferSize]

  const ScrollX := CreateProperty("scroll_x", "水平滚动方向", Float, Num(0.0), At(2, 1), Range(-1.0, 1.0))
  const ScrollY := CreateProperty("scroll_y", "垂直滚动方向", Float, Num(0.0), At(3, 1), Range(-1.0, 1.0))
  const Scale := CreateProperty("scale", "缩放", Float, Num(1.0), At(5, 1), Range(0.1, 2.0))

  const Properties: seq<Property> := [ScrollX, ScrollY, Scale]

  /** All six slots as the factory writes them; time starts at 0. */
  function InitialSlots(canvasWidth: real, canvasHeight: real): seq<real>
  {
    [canvasWidth, canvasHeight, 0.0, 0.0, 0.0, 1.0]
  }

  /** Bind-group order: base, linear sampler, uniform buffer. */
  function Resources(baseTexture: Resource, sampler: Sampler, uniforms: Uniforms): seq<Resource>
  {
    [baseTexture, SamplerRes(sampler), UniformBuffer(uniforms)]
  }

  lemma EachPropertySound()
    ensures forall i :: 0 <= i < |Properties| ==> PropertySound(Properties[i], Sizes)
  {
    assert PropertySound(ScrollX, Sizes);
    assert PropertySound(ScrollY, Sizes);
    assert PropertySound(Scale, Sizes);
  }

  /** The properties cover exactly slots 2, 3 and 5; resolution (0-1) and time
      (4) belong to none, and none is a mask. */
  lemma LayoutIsSound()
    ensures LayoutSound(Properties, Sizes)
    ensures forall k :: !Unaddressed(Properties, Primary, k) <==> k == 2 || k == 3 || k == 5
    ensures forall i :: 0 <= i < |Properties| ==> !IsTextureKind(Properties[i].ptype)
  {
    EachPropertySound();
    forall k
      ensures !Unaddressed(Properties, Primary, k) <==> k == 2 || k == 3 || k == 5
    {
      if k == 2 {
        assert Covers(Properties[0], Primary, k);
      } else if k == 3 {
        assert Covers(Properties[1], Primary, k);
      } else if k == 5 {
        assert Covers(Properties[2], Primary, k);
      }
    }
  }

  /** Slots 2, 3 and 5 hold the property defaults. */
  lemma InitialSlotsMatchDefaults(canvasWidth: real, canvasHeight: real)
    ensures forall i :: 0 <= i < |Properties| ==> SeededWithDefault(Properties[i], InitialSlots(canvasWidth, canvasHeight))
  {
  }

  lemma WritesGiveInitialSlots(zeros: seq<real>, canvasWidth: real, canvasHeight: real)
    requires |zeros| == BufferSize
    ensures zeros[0 := canvasWidth][1 := canvasHeight][2 := 0.0][3 := 0.0][4 := 0.0][5 := 1.0]
            == InitialSlots(canvasWidth, canvasHeight)
  {
  }

  /** `createUniforms(6)`, all six slots written, then `apply()`. */
  method CreateUniforms(canvasWidth: real, canvasHeight: real) returns (u: Uniforms)
    ensures fresh(u) && fresh(u.values)
    ensures u.values[..] == InitialSlots(canvasWidth, canvasHeight)
    ensures u.committed == u.values[..] && u.commits == 1
  {
    u := new Uniforms(BufferSize);
    WritesGiveInitialSlots(u.values[..], canvasWidth, canvasHeight);
    u.values[0] := canvasWidth;
    u.values[1] := canvasHeight;
    u.values[2] := 0.0;
    u.values[3] := 0.0;
    u.values[4] := 0.0;
    u.values[5] := 1.0;
    u.Apply();
  }

  /** `createScrollEffect`: the cached shader, the committed buffer and the linear sampler. */
  method CreateScrollEffect(name: string, canvas: CanvasSettings,
                            device: Device, samplers: SamplerStore, shaders: TextCache, fetchedShader: string,
                            baseTexture: Resource)
    returns (e: Effect)
    modifies device, samplers, shaders
    ensures fresh(e) && fresh(e.uniforms) && fresh(e.uniforms.values)
    ensures e.uniforms.values[..] == InitialSlots(canvas.width as real, canvas.height as real)
    ensures e.uniforms.committed == e.uniforms.values[..] && e.uniforms.commits == 1
    ensures e.name == name && e.id == Some("scroll") && e.caption == Some("滚动")
    ensures e.properties == Properties && e.refs == DefaultRefs(Properties) && e.enable
    ensures e.passUniforms == map[] && e.maskConfigs == map[]
    ensures shaders.text == Some(CachedText(old(shaders.text), fetchedShader))
    ensures var lookup := Lookup(old(samplers.samplers), "linear", |old(device.created)|);
            && e.shape == SinglePass(shaders.text.value, Resources(baseTexture, lookup.0, e.uniforms))
            && samplers.samplers == lookup.1
  {
    var code := shaders.GetOrFetch(fetchedShader);
    var u := CreateUniforms(canvas.width as real, canvas.height as real);
    var sampler := samplers.GetSampler("linear", device);
    e := new Effect(name, Some("scroll"), Some("滚动"), Properties, u,
                    SinglePass(code, Resources(baseTexture, sampler, u)), map[], map[]);
  }
}
