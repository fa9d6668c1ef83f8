/** The effect parameter model: typed property descriptors, the uniform buffers
    they address by raw slot offsets, visibility conditions over buffer slots,
    and the `Effect` object that bundles them with its render-pass resources. */
module EffectModel {
  import opened Common
  import opened Gpu

  // ---------------------------------------------------------------------------
  // Property descriptors

  /** Every property kind the effect factories use. */
  datatype PropertyType =
    | Float | Vec2 | Color | Texture | Checkbox | Select | Angle | AlphaMask | FlowMask

  /** A property value; its shape is fixed by the property's type (see ValueFits). */
  datatype PropertyValue =
    | Num(x: real)
    | Pair(x: real, y: real)
    | Triple(r: real, g: real, b: real)
    | Str(s: string)
    | Flag(on: bool)

  /** Which uniform buffer of an effect a property or condition refers to:
      the effect's sole `uniforms`, or one of its named per-pass buffers. */
  datatype BufferRef = Primary | Named(name: string)

  /** `[offset, size]` for a single-buffer effect, `[bufferName, offset, size]` for a
      multi-pass one. Negative numbers are the texture-slot sentinel. */
  datatype UniformIndex =
    | At(offset: int, size: int)
    | In(buffer: string, offset: int, size: int)
  {
    function Target(): BufferRef
    {
      if At? then Primary else Named(buffer)
    }
  }

  /** A visibility condition: always, or "this buffer slot currently holds this value". */
  datatype Condition = Always | SlotEquals(target: BufferRef, slot: nat, value: real)

  datatype Range = Range(min: real, max: real)

  /** The "no range" marker. */
  const NoRange := Range(-1.0, -1.0)

  datatype SelectOption = SelectOption(value: real, caption: string)

  datatype Property = Property(
    name: string,
    caption: string,
    ptype: PropertyType,
    defaultValue: PropertyValue,
    range: Range,
    uniformIndex: UniformIndex,
    condition: Condition,
    options: seq<SelectOption>)

  /** `createProperty`: fills the fields a factory omits with the defaults
      `range = [-1, -1]`, `uniformIndex = [-1, -1]`, `condition = true`, no options. */
  function CreateProperty(name: string, caption: string, ptype: PropertyType, defaultValue: PropertyValue,
                          uniformIndex: UniformIndex := At(-1, -1), range: Range := NoRange,
                          condition: Condition := Always, options: seq<SelectOption> := []): Property
  {
    Property(name, caption, ptype, defaultValue, range, uniformIndex, condition, options)
  }

  /** A descriptor given its name, label, type, default and uniform index, as
      every factory call gives them, keeps those, has no range, is always shown
      and offers no options. */
  lemma CreatePropertyDefaults(name: string, caption: string, ptype: PropertyType, defaultValue: PropertyValue,
                               uniformIndex: UniformIndex)
    ensures var p := CreateProperty(name, caption, ptype, defaultValue, uniformIndex);
            && p.name == name && p.caption == caption && p.ptype == ptype && p.defaultValue == defaultValue
            && p.uniformIndex == uniformIndex && p.range == NoRange && p.condition == Always && p.options == []
  {
  }

  /** Texture-like properties select a bound resource instead of uniform slots. */
  predicate IsTextureKind(t: PropertyType)
  {
    t == Texture || t == AlphaMask || t == FlowMask
  }

  /** The value shape each type admits: Float/Select/Angle a number, Vec2 a pair,
      Color a triple, Checkbox a boolean, textures and masks a material name. */
  predicate ValueFits(t: PropertyType, v: PropertyValue)
  {
    match t
    case Float | Select | Angle => v.Num?
    case Vec2 => v.Pair?
    case Color => v.Triple?
    case Checkbox => v.Flag?
    case Texture | AlphaMask | FlowMask => v.Str?
  }

  /** Number of consecutive float slots a value of this type occupies. */
  function Arity(t: PropertyType): nat
  {
    match t
    case Float | Select | Angle | Checkbox => 1
    case Vec2 => 2
    case Color => 3
    case Texture | AlphaMask | FlowMask => 0
  }

  /** The floats a value occupies, in slot order; a checkbox is 1.0 or 0.0. */
  function Encode(v: PropertyValue): (r: seq<real>)
  {
    match v
    case Num(x) => [x]
    case Pair(x, y) => [x, y]
    case Triple(r, g, b) => [r, g, b]
    case Flag(on) => [if on then 1.0 else 0.0]
    case Str(_) => []
  }

  /** A value that fits its type encodes to exactly Arity(type) floats. */
  lemma EncodeArity(t: PropertyType, v: PropertyValue)
    requires ValueFits(t, v)
    ensures |Encode(v)| == Arity(t)
  {
  }

  // ---------------------------------------------------------------------------
  // Uniform state, writes and conditions

  /** The CPU-side contents of an effect's uniform buffers. */
  type BufferState = map<BufferRef, seq<real>>

  predicate Holds(c: Condition, st: BufferState)
  {
    match c
    case Always => true
    case SlotEquals(b, k, v) => b in st && k < |st[b]| && st[b][k] == v
  }

  /** A property is shown when its condition holds on the current buffer contents. */
  predicate Visible(p: Property, st: BufferState)
  {
    Holds(p.condition, st)
  }

  /** The slots a slot-backed property occupies. */
  predicate Covers(p: Property, b: BufferRef, k: int)
  {
    !IsTextureKind(p.ptype) && p.uniformIndex.Target() == b
    && p.uniformIndex.offset <= k < p.uniformIndex.offset + p.uniformIndex.size
  }

  /** Float32Array element writes: an index past the end is ignored. */
  function Overwrite(slots: seq<real>, offset: nat, vals: seq<real>): (r: seq<real>)
    ensures |r| == |slots|
    ensures forall k :: 0 <= k < |slots| ==>
      r[k] == (if offset <= k < offset + |vals| then vals[k - offset] else slots[k])
    decreases |vals|
  {
    if |vals| == 0 then slots
    else
      var head := if offset < |slots| then slots[offset := vals[0]] else slots;
      Overwrite(head, offset + 1, vals[1..])
  }

  /** The buffer state after property `p` stores value `v` at its uniform index. */
  function WriteValue(st: BufferState, p: Property, v: PropertyValue): BufferState
  {
    var b := p.uniformIndex.Target();
    if IsTextureKind(p.ptype) || b !in st || p.uniformIndex.offset < 0 then st
    else st[b := Overwrite(st[b], p.uniformIndex.offset, Encode(v))]
  }

  /** `mask` is shown exactly when the checkbox `ctrl` is on: its condition reads
      the very slot `ctrl` writes, and compares it with the encoding of `true`. */
  predicate ControlledBy(mask: Property, ctrl: Property)
  {
    && ctrl.ptype == Checkbox
    && ctrl.uniformIndex.offset >= 0
    && ctrl.uniformIndex.size == 1
    && mask.condition == SlotEquals(ctrl.uniformIndex.Target(), ctrl.uniformIndex.offset as nat, 1.0)
  }

  /** After the controlling checkbox is written, the controlled property is visible
      iff the checkbox was set: visibility follows the written slot. */
  lemma ControlledVisibility(mask: Property, ctrl: Property, st: BufferState, on: bool)
    requires ControlledBy(mask, ctrl)
    requires ctrl.uniformIndex.Target() in st
    requires ctrl.uniformIndex.offset < |st[ctrl.uniformIndex.Target()]|
    ensures Visible(mask, WriteValue(st, ctrl, Flag(on))) <==> on
  {
    var b := ctrl.uniformIndex.Target();
    var k := ctrl.uniformIndex.offset;
    var after := WriteValue(st, ctrl, Flag(on));
    assert after[b][k] == (if on then 1.0 else 0.0);
  }

  /** Writing a property that does not cover a condition's slot leaves that
      condition's verdict unchanged. */
  lemma WriteKeepsUnrelatedConditions(c: Condition, p: Property, st: BufferState, v: PropertyValue)
    requires ValueFits(p.ptype, v) && p.uniformIndex.size == Arity(p.ptype)
    requires c.SlotEquals? ==> !Covers(p, c.target, c.slot)
    ensures Holds(c, WriteValue(st, p, v)) <==> Holds(c, st)
  {
    if c.SlotEquals? && p.uniformIndex.Target() == c.target && c.target in st
        && !IsTextureKind(p.ptype) && p.uniformIndex.offset >= 0 && c.slot < |st[c.target]| {
      EncodeArity(p.ptype, v);
      var after := WriteValue(st, p, v);
      assert after[c.target][c.slot] == st[c.target][c.slot];
    }
  }

  // ---------------------------------------------------------------------------
  // Layout soundness

  /** Slot-backed properties: an in-bounds `[offset, size]` in an existing buffer,
      with `size` equal to the type's arity. */
  predicate SlotInBounds(p: Property, sizes: map<BufferRef, nat>)
  {
    !IsTextureKind(p.ptype) ==>
      && p.uniformIndex.Target() in sizes
      && 0 <= p.uniformIndex.offset
      && p.uniformIndex.size == Arity(p.ptype)
      && p.uniformIndex.offset + p.uniformIndex.size <= sizes[p.uniformIndex.Target()]
  }

  /** Texture-like properties carry the negative sentinel `[-binding, -n]`. */
  predicate SentinelShaped(p: Property)
  {
    IsTextureKind(p.ptype) ==> p.uniformIndex.At? && p.uniformIndex.offset < 0 && p.uniformIndex.size <= 0
  }

  /** A condition reads a slot that exists. */
  predicate ConditionInBounds(p: Property, sizes: map<BufferRef, nat>)
  {
    p.condition.SlotEquals? ==> p.condition.target in sizes && p.condition.slot < sizes[p.condition.target]
  }

  /** Float properties carry a proper numeric range; Checkbox, Select, Color and
      the texture kinds carry the "no range" marker. */
  predicate RangeConvention(p: Property)
  {
    && (p.ptype == Float ==> p.range.min < p.range.max)
    && (p.ptype in {Checkbox, Select, Color, Texture, AlphaMask, FlowMask} ==> p.range == NoRange)
  }

  /** Only Select properties offer options. */
  predicate OptionsConvention(p: Property)
  {
    p.ptype != Select <==> p.options == []
  }

  predicate PropertySound(p: Property, sizes: map<BufferRef, nat>)
  {
    && ValueFits(p.ptype, p.defaultValue)
    && SlotInBounds(p, sizes)
    && SentinelShaped(p)
    && ConditionInBounds(p, sizes)
    && RangeConvention(p)
    && OptionsConvention(p)
  }

  /** Two properties never share a uniform slot. */
  predicate SlotsDisjoint(p: Property, q: Property)
  {
    || IsTextureKind(p.ptype) || IsTextureKind(q.ptype)
    || p.uniformIndex.Target() != q.uniformIndex.Target()
    || p.uniformIndex.offset + p.uniformIndex.size <= q.uniformIndex.offset
    || q.uniformIndex.offset + q.uniformIndex.size <= p.uniformIndex.offset
  }

  /** Every property is sound, and properties at distinct positions have
      distinct names and disjoint slots. */
  predicate LayoutSound(props: seq<Property>, sizes: map<BufferRef, nat>)
  {
    && (forall i :: 0 <= i < |props| ==> PropertySound(props[i], sizes))
    && (forall i, j :: 0 <= i < j < |props| ==> props[i].name != props[j].name && SlotsDisjoint(props[i], props[j]))
  }

  /** In a sound layout two positions never share a name, and never cover the
      same buffer slot. */
  lemma SoundLayoutSeparates(props: seq<Property>, sizes: map<BufferRef, nat>,
                             i: nat, j: nat, b: BufferRef, k: int)
    requires LayoutSound(props, sizes)
    requires i < |props| && j < |props| && i != j
    ensures props[i].name != props[j].name
    ensures !(Covers(props[i], b, k) && Covers(props[j], b, k))
  {
    if i < j {
      assert SlotsDisjoint(props[i], props[j]);
    } else {
      assert SlotsDisjoint(props[j], props[i]);
    }
  }

  /** No property of the list covers slot `k` of buffer `b`. */
  predicate Unaddressed(props: seq<Property>, b: BufferRef, k: int)
  {
    forall i :: 0 <= i < |props| ==> !Covers(props[i], b, k)
  }

  /** The slots of `slots` hold the encoding of `p`'s default value. */
  predicate SeededWithDefault(p: Property, slots: seq<real>)
  {
    var off := p.uniformIndex.offset;
    var enc := Encode(p.defaultValue);
    0 <= off && off + |enc| <= |slots| && forall k :: 0 <= k < |enc| ==> slots[off + k] == enc[k]
  }

  // ---------------------------------------------------------------------------
  // Texture sentinels

  /** The sentinel `[-binding, -n]`: the resource position it names ... */
  function SentinelBinding(p: Property): int
  {
    -p.uniformIndex.offset
  }

  /** ... and its second component, by convention the property's own position. */
  function SentinelPosition(p: Property): int
  {
    -p.uniformIndex.size
  }

  /** The sentinel of `p` addresses resource `r` of `resources`. */
  predicate SentinelAddresses(p: Property, resources: seq<Resource>, r: Resource)
  {
    0 <= SentinelBinding(p) < |resources| && resources[SentinelBinding(p)] == r
  }

  // ---------------------------------------------------------------------------
  // Uniform buffers, resources, passes

  /** A uniform buffer: the CPU-side float array (`values`), the copy the GPU
      last received (`committed`, updated by `apply()`), and a commit counter. */
  class Uniforms {
    const values: array<real>
    var committed: seq<real>
    var commits: nat

    /** `createUniforms(n)`: a zero-filled buffer of `n` floats. */
    constructor (size: nat)
      ensures fresh(values) && values.Length == size
      ensures forall k :: 0 <= k < size ==> values[k] == 0.0
      ensures committed == values[..] && commits == 0
    {
      values := new real[size](_ => 0.0);
      commits := 0;
      new;
      committed := values[..];
    }

    /** `apply()`: push the CPU-side values to the GPU. */
    method Apply()
      modifies this
      ensures committed == values[..] && commits == old(commits) + 1
    {
      committed := values[..];
      commits := commits + 1;
    }
  }

  /** What a bind group can hold. */
  datatype Resource =
    | TextureRes(texture: GpuTexture)
    | PassTexture(passName: string)        // the current output of a named pass
    | View(viewed: GpuTexture)              // texture.createView()
    | SamplerRes(sampler: Sampler)
    | UniformBuffer(uniforms: Uniforms)    // uniforms.getBuffer()

  /** One render pass as handed to the renderer. */
  datatype PassOptions = PassOptions(
    name: string,
    shaderCode: string,
    resources: seq<Resource>,
    view: Option<Resource>,
    format: Option<string>)

  /** A single-pass effect lists shader and resources; a multi-pass one lists passes. */
  datatype EffectShape =
    | SinglePass(shaderCode: string, resources: seq<Resource>)
    | MultiPass(passes: seq<PassOptions>)

  /** Where a mask texture is bound: pass name and binding index. */
  datatype MaskConfig = MaskConfig(passName: string, bindingIndex: nat)

  /** Current values seeded from the defaults, in list order (a later duplicate
      name overwrites an earlier one). */
  function DefaultRefs(props: seq<Property>): (refs: map<string, PropertyValue>)
    ensures refs.Keys == set p | p in props :: p.name
    decreases |props|
  {
    if |props| == 0 then map[]
    else
      var last := props[|props| - 1];
      var earlier := DefaultRefs(props[..|props| - 1]);
      assert forall p :: p in props <==> p in props[..|props| - 1] || p == last;
      earlier[last.name := last.defaultValue]
  }

  /** An effect instance. */
  class Effect {
    var name: string
    var id: Option<string>
    var caption: Option<string>
    var properties: seq<Property>
    var uniforms: Uniforms
    var shape: EffectShape
    var passUniforms: map<string, Uniforms>
    var maskConfigs: map<string, MaskConfig>
    var refs: map<string, PropertyValue>
    var enable: bool

    /** `new Effect({...})`: stores every option; property values start at their
        defaults and the effect starts enabled. */
    constructor (name: string, id: Option<string>, caption: Option<string>, properties: seq<Property>,
                 uniforms: Uniforms, shape: EffectShape,
                 passUniforms: map<string, Uniforms>, maskConfigs: map<string, MaskConfig>)
      ensures this.name == name && this.id == id && this.caption == caption
      ensures this.properties == properties && this.uniforms == uniforms && this.shape == shape
      ensures this.passUniforms == passUniforms && this.maskConfigs == maskConfigs
      ensures refs == DefaultRefs(properties) && enable
    {
      this.name := name;
      this.id := id;
      this.caption := caption;
      this.properties := properties;
      this.uniforms := uniforms;
      this.shape := shape;
      this.passUniforms := passUniforms;
      this.maskConfigs := maskConfigs;
      this.refs := DefaultRefs(properties);
      this.enable := true;
    }

    /** `applyUniforms()`: commit the effect's uniform buffer once; no field of the
        effect changes. */
    method ApplyUniforms()
      modifies uniforms
      ensures uniforms.committed == uniforms.values[..]
      ensures uniforms.commits == old(uniforms.commits) + 1
      ensures unchanged(this)
    {
      uniforms.Apply();
    }

    /** The single pass of a single-pass effect, named after the effect. */
    function PassOptionsOf(): PassOptions
      reads this
      requires shape.SinglePass?
    {
      PassOptions(name, shape.shaderCode, shape.resources, None, None)
    }
  }

  // ---------------------------------------------------------------------------
  // Module-level asset caches of the effect factories

  /** The text a `if (!cached) cached = fetched` cache yields: a non-empty
      cached text wins, otherwise the freshly fetched one. */
  function CachedText(cached: Option<string>, fetched: string): (code: string)
    ensures cached.Some? && cached.value != "" ==> code == cached.value
    ensures code != fetched ==> cached.Some? && code == cached.value && code != ""
  {
    if cached.Some? && cached.value != "" then cached.value else fetched
  }

  /** Once a non-empty text is cached, later fetches are ignored. */
  lemma CachedTextSticky(cached: Option<string>, f1: string, f2: string)
    ensures CachedText(Some(CachedText(cached, f1)), f2) == CachedText(cached, f1) || CachedText(cached, f1) == ""
  {
  }

  /** A shader text cache (`let shaderCode: string | null = null`). The factories
      test it with `if (!shaderCode)`, so an empty cached text is fetched again. */
  class TextCache {
    var text: Option<string>

    constructor ()
      ensures text == None
    {
      text := None;
    }

    /** Return the cached text, or take `fetched` (the response of the fetch the
        factory would issue) and cache it. */
    method GetOrFetch(fetched: string) returns (code: string)
      modifies this
      ensures code == CachedText(old(text), fetched)
      ensures text == Some(code)
    {
      if text.Some? && text.value != "" {
        code := text.value;
      } else {
        code := fetched;
        text := Some(fetched);
      }
    }
  }

  /** The texture a `if (!cached) cached = loaded` cache yields. */
  function CachedTexture(cached: Option<GpuTexture>, loaded: GpuTexture): (t: GpuTexture)
    ensures cached.Some? ==> t == cached.value
    ensures cached.None? ==> t == loaded
  {
    if cached.Some? then cached.value else loaded
  }

  /** A texture cache (`let normalTexture: GPUTexture | null = null`), loaded once. */
  class TextureCache {
    var texture: Option<GpuTexture>

    constructor ()
      ensures texture == None
    {
      texture := None;
    }

    method GetOrLoad(loaded: GpuTexture) returns (t: GpuTexture)
      modifies this
      ensures t == CachedTexture(old(texture), loaded)
      ensures texture == Some(t)
    {
      if texture.Some? {
        t := texture.value;
      } else {
        t := loaded;
        texture := Some(loaded);
      }
    }
  }
}
