# fx-engine effect model

A Dafny model of the parameter layer of fx-engine, a browser photo-effects
editor. It covers:

- **Effects** (`EffectModel`): typed property descriptors. Each descriptor
  addresses raw `[offset, size]` slots of a float uniform buffer, or carries a
  negative `[-binding, -position]` sentinel when it selects a texture. It also
  carries a visibility condition over buffer slots.
- Also in `EffectModel`: the `Uniforms` buffer with its commit, the `Effect`
  object, and the "fetch once, then reuse" shader and texture caches.
- **Effect factories**: one module per factory (`CloudMotion`, `CursorRipple`,
  `DepthParallax`, `IrisMovement`, `Reflection`, `Refraction`, `Scroll`,
  `Shake`, `Tint`, `WaterFlow`, `WaterRipple`, `WaterWaves`). Each module has:
  - the literal property list and the initial buffer contents;
  - a method that allocates the buffer and writes the slots in place;
  - the bind-group resource order;
  - lemmas stating that the layout is sound (in bounds, arity matches type,
    names and slots distinct) and which slots no property covers;
  - lemmas stating which initial slots match the property defaults, that each
    mask's condition follows the checkbox that writes it, and which resource
    each sentinel names.
- **Layer store** (`Layers.LayerStore`): image layers with their passes and
  effects, the material `Map`, and the per-frame callbacks. Its operations are
  `addImage`, `addEffect('water-ripple')`, the `passes` getter and the
  `createShader` cache.
- **Project serializer** (`ProjectManager`): `isBlobUrl`, `isVersionCompatible`,
  `serializeLayer`, `serializeEffect` and `serializeMaterials`. It also covers
  the URL-to-asset-name table and rewrite loops of `exportProject`, and the
  entry-to-URL table and rewrite loops of `loadFromFile`.
  - Proved: the export-then-load round trip on URLs, layers and materials.
    It holds provided no saved URL that was not collected is itself spelled
    like an asset name (`asset_<n>.dat`).
  - As written, `serializeLayer` throws on every layer of the store, so the
    export rejects any project with a layer (see Findings). The model saves
    layers without the transform.
- **Effect catalogue** (`EffectCatalog`): the twelve configuration entries, the
  Chinese-name-to-id map built by a fold, and the two lookups.
  - Proved: the name round trip.
- **Sampler cache** (`Samplers`): `getSampler` get-or-create.
- **Side-bar selection** (`Selection`): the module refs and `selectImage` /
  `selectEffect`.

`Common` holds string helpers (`startsWith`, `includes`, `toString(radix)`,
`padStart`) and an insertion-ordered model of a JavaScript `Map`. `Gpu` holds
opaque handles for what the GPU library owns.

Code that updates state in place is modelled as classes and methods. This
covers buffer writes, `push`, `Map.set`, the caches and the refs. Each method's
ensures give the new state, either directly or through a specification
function; the remaining properties are lemmas about those functions.

Where the interfaces in `src/types/project.ts` disagree with the serializer,
the model follows the code:

- `EffectData` is saved with `id` and the caption (`label`), not `type`.

The one exception is `serializeLayer`'s transform. The code reads `origin`,
`scale` and `rotation`, which no layer of the store has, and so throws. The
as-written behaviour is modelled separately (see Findings). The rest of the
model saves the other fields of a layer and leaves the transform out.

## Model

| member | source | states |
|---|---|---|
| EffectModel.EncodeArity | src/effects/index.ts:8-16 | a value whose shape fits its type (number, pair, triple, flag, material name) occupies exactly that type's number of float slots |
| EffectModel.Overwrite | src/effects/index.ts:29-30 | a write into the Float32Array keeps its length, replaces exactly the slots from the offset that exist, and ignores indices past the end |
| EffectModel.ControlledVisibility | src/effects/water-ripple.ts:37-51 | once a checkbox is written, a property whose condition reads that checkbox's slot is visible iff the checkbox was set to true |
| EffectModel.WriteKeepsUnrelatedConditions | src/effects/reflection.ts:52-150 | writing a property that does not cover a condition's slot leaves that condition's verdict unchanged |
| EffectModel.SoundLayoutSeparates | src/effects/index.ts:24 | in a sound layout, two positions never share a name or a covered buffer slot |
| EffectModel.Uniforms.constructor | src/effects/index.ts:29-33 | `createUniforms(n)` gives n zero-filled slots, committed as such, with no commit yet |
| EffectModel.Uniforms.Apply | src/effects/index.ts:31 | `apply()` makes the GPU copy equal to the current values and counts one commit |
| EffectModel.CreatePropertyDefaults | src/effects/water-ripple.ts:38-44 | a descriptor given name, label, type, default and uniform index, as every factory call gives them, keeps them, has no range, is always shown and has no options; these defaults are an assumption (see "## Left out", `EffectModel.CreateProperty`) |
| EffectModel.DefaultRefs | src/effects/index.ts:36 | the current-value map has exactly the property names as keys |
| EffectModel.Effect.constructor | src/effects/index.ts:36 | name, id, caption, properties, uniforms, passes, pass buffers and mask configurations are stored unchanged; values start at the defaults; the effect starts enabled |
| EffectModel.Effect.ApplyUniforms | src/effects/index.ts:38-40 | `applyUniforms` commits the effect's buffer exactly once and changes no field of the effect |
| EffectModel.CachedText | src/effects/cloud-motion.ts:18-21 | a non-empty cached text wins; the fetched text is used only when the cache is empty or holds "" |
| EffectModel.CachedTextSticky | src/effects/cloud-motion.ts:18-21 | once a non-empty text is cached, later fetches never change what is returned |
| EffectModel.TextCache.GetOrFetch | src/effects/cloud-motion.ts:18-21 | returns the cached-or-fetched text and caches it |
| EffectModel.CachedTexture | src/effects/cloud-motion.ts:43-46 | a cached texture is reused; otherwise the loaded one is taken |
| EffectModel.TextureCache.GetOrLoad | src/effects/cloud-motion.ts:43-46 | returns the cached-or-loaded texture and caches it |
| Common.ContainsAt | src/utils/projectManager.ts:304-305 | `includes` holds when the substring occurs at some position |
| Common.ContainsWitness | src/utils/projectManager.ts:304-305 | when `includes` holds, the substring occurs at the position returned |
| Common.ToRadixRoundTrip | src/stores/layers.ts:83 | `toString(radix)` yields a non-empty digit string whose value is the number |
| Common.ToRadixInjective | src/utils/projectManager.ts:51 | distinct numbers are written as distinct digit strings |
| Common.PadStart | src/stores/layers.ts:83-84 | `padStart(width, c)` has length max(len, width), ends with the input, and is c before it |
| Common.GetSpec | src/stores/layers.ts:133 | `Map.get` finds nothing iff no entry has the key, and otherwise returns the value of an entry with that key |
| Common.SetSpec | src/stores/layers.ts:58-63 | `Map.set` of a new key appends one entry; of an existing key it keeps the length |
| Common.GetSet | src/stores/layers.ts:125-133 | after `set(k, v)`, `get(k)` is v and every other key reads as before |
| Common.SetKeys | src/stores/layers.ts:58-63 | `Map.set` appends the key to the key list exactly when it is new and otherwise leaves the key list as it was |
| Common.SetKeepsDistinct | src/stores/layers.ts:58-63 | `set` keeps the keys distinct and appends the key only when it is new |
| Samplers.DescriptorFor | src/stores/sampler.ts:10-17 | the three filters are equal, linear iff the key is "linear" (so "repeat" is nearest), and all three address modes are repeat |
| Samplers.Lookup | src/stores/sampler.ts:6-21 | the cache afterwards holds the old keys plus the key; other entries are untouched; the key maps to the returned sampler; a new sampler (next id, descriptor of the key) is made only on a miss |
| Samplers.LookupIdempotent | src/stores/sampler.ts:7-9 | asking twice for the same key returns the same sampler and leaves the cache as after the first call |
| Samplers.SamplerStore.constructor | src/stores/sampler.ts:4 | the store starts empty |
| Samplers.SamplerStore.GetSampler | src/stores/sampler.ts:6-21 | result and new cache are Lookup's; the device creates exactly one sampler on a miss and none on a hit |
| Selection.SelectImageIn | src/pages/side-bar/composibles/index.ts:34-40 | another layer becomes current, shows the image panel and clears the effect; the current layer again changes nothing |
| Selection.SelectEffectIn | src/pages/side-bar/composibles/index.ts:42-44 | only the current effect changes |
| Selection.SelectImageIdempotent | src/pages/side-bar/composibles/index.ts:35 | selecting the same layer twice is selecting it once |
| Selection.SelectEffectThenImage | src/pages/side-bar/composibles/index.ts:34-44 | a selected effect survives re-selecting the current layer and is dropped by selecting any other |
| Selection.EditorState.constructor | src/pages/side-bar/composibles/index.ts:5-30 | initial refs: image panel, no image, no effect, canvas 1280x720 not initialized, brush 50, hardness 0.8, amount 255, opacity 0.5, draw and flow off |
| Selection.EditorState.SelectImage | src/pages/side-bar/composibles/index.ts:34-40 | the refs change as SelectImageIn says; canvas and mask controls are untouched |
| Selection.EditorState.SelectEffect | src/pages/side-bar/composibles/index.ts:42-44 | the refs change as SelectEffectIn says; canvas and mask controls are untouched |
| CloudMotion.LayoutIsSound | src/effects/cloud-motion.ts:48-104 | property slots 3-8 lie inside the 10-slot buffer, with arity-matching sizes, distinct names and disjoint slots |
| CloudMotion.InitialSlotsVersusDefaults | src/effects/cloud-motion.ts:30-39 | use_mask, scale, scaleX and amount start at their defaults; speed (0.001 against 0.1) and direction (radians against 90) do not |
| CloudMotion.FixedSlotsUnaddressed | src/effects/cloud-motion.ts:30-39 | resolution, time and padding slots 0-2 and 9 belong to no property |
| CloudMotion.MaskFollowsUseMask | src/effects/cloud-motion.ts:62 | alpha_mask is visible iff use_mask (slot 8) was last set |
| CloudMotion.InitialVisibility | src/effects/cloud-motion.ts:38 | use_mask defaults to true and slot 8 starts at 1, so every property including the mask is shown at first |
| CloudMotion.MaskSentinelAddressesMask | src/effects/cloud-motion.ts:61 | the sentinel -1 names resources[1], the mask texture |
| CloudMotion.CreateUniforms | src/effects/cloud-motion.ts:24-40 | the buffer holds the ten initial slots and is committed exactly once |
| CloudMotion.CreateCloudMotionEffect | src/effects/cloud-motion.ts:10-124 | the effect's buffer, identity, properties and default values; the cached shader and noise texture; the linear then repeat sampler in the resource order |
| CursorRipple.LayoutIsSound | src/effects/cursor-ripple.ts:45-93 | every numeric property names force, simulate or combine and fits in that buffer; names and slots are distinct |
| CursorRipple.RippleScaleFollowsPointerFields | src/effects/cursor-ripple.ts:19 | rippleScale sits at force slot 5 = pointer(2) + pointerLast(2) + pointerDelta(1), and force slots 0-4 belong to no property |
| CursorRipple.MaskFollowsUseMask | src/effects/cursor-ripple.ts:59 | alpha_mask is visible iff useMask, which writes simulate slot 3, was last set |
| CursorRipple.InitialMaskVisibleWhileUnchecked | src/effects/cursor-ripple.ts:27 | the set-up writes 1 into simulate slot 3 while useMask defaults to false, so the mask starts visible and the slot disagrees with the checkbox default |
| CursorRipple.MaskSentinelMatchesConfig | src/effects/cursor-ripple.ts:153-158 | the sentinel [-2,-1] names position 1 (alpha_mask itself) and binding 2, agreeing with maskConfigs, whose pass is simulate; that pass's resources[2] is the mask texture |
| CursorRipple.PassesPingPong | src/effects/cursor-ripple.ts:108-140 | three passes: force reads A and writes B, simulate reads B and writes A, the final pass reads A and the base texture; the first two are named "force" and "simulate", the last one after the effect |
| CursorRipple.OnlyLastPassNamed | src/effects/cursor-ripple.ts:110-131 | the last pass alone carries the effect's name exactly when that name is neither "force" nor "simulate" |
| CursorRipple.CreateBuffers | src/effects/cursor-ripple.ts:20-27 | buffers of 10, 8 and 4 zeros, except simulate slot 3 = 1 |
| CursorRipple.LoadShaders | src/effects/cursor-ripple.ts:30-43 | each of the three shaders comes from its own fetch-once cache |
| CursorRipple.CreateCursorRippleEffect | src/effects/cursor-ripple.ts:13-160 | two canvas-sized ripple textures, the three buffers, the passes as listed, the force buffer as `uniforms`, all three as pass buffers, and maskConfigs |
| DepthParallax.LayoutIsSound | src/effects/depthparallax.ts:36-91 | slots 8, 9, 4-5, 6, 7 lie inside 16 slots and are disjoint; scale covers exactly 4-5 |
| DepthParallax.InitialSlotsMatchDefaults | src/effects/depthparallax.ts:19-28 | every slot-backed property (scale, sensitivity, center, quality, use_mask) starts at its default |
| DepthParallax.QualityValues | src/effects/depthparallax.ts:30-34 | quality offers 0, 1, 2 in order, and its default 1 is one of them |
| DepthParallax.MaskFollowsUseMask | src/effects/depthparallax.ts:65 | alpha_mask is visible iff use_mask (slot 9) was last set; depth_map is visible in every state |
| DepthParallax.SentinelsAddressTextures | src/effects/depthparallax.ts:102-110 | the sentinel -1 names resources[1] (depth) and -2 names resources[2] (mask) |
| DepthParallax.PointerSlotsUnaddressed | src/effects/depthparallax.ts:19-22 | resolution and pointer slots 0-3 belong to no property |
| DepthParallax.CreateUniforms | src/effects/depthparallax.ts:18-28 | the 16-slot buffer holds the initial slots |
| DepthParallax.CreateDepthParallaxEffect | src/effects/depthparallax.ts:12-112 | the effect's buffer, identity, properties and default values, the cached shader and the linear sampler in the resource order |
| IrisMovement.ResolutionIsInitialCanvas | src/effects/iris-movement.ts:15-17 | slots 0-1 are the fixed 1280 and 720, the canvas's initial size; with no properties every slot is unaddressed |
| IrisMovement.CreateUniforms | src/effects/iris-movement.ts:14-16 | eight slots, the first two 1280 and 720 |
| IrisMovement.CreateIrisMovementEffect | src/effects/iris-movement.ts:10-36 | always named "iris-movement", with no properties, no id and no caption; resources base, mask, sampler, buffer |
| Reflection.LayoutIsSound | src/effects/reflection.ts:52-150 | every property fits the 20-slot buffer with its arity; the corners take 5-6, 7-8, 9-10 and 11-12; names and slots are distinct |
| Reflection.InitialSlotsMatchDefaults | src/effects/reflection.ts:35-50 | every slot-backed default is in place (blend_mode 9 in slot 14, use_mask 0 in slot 15), except direction: slot 3 is 0 while its default is 180 |
| Reflection.ModeGroupsExclusive | src/effects/reflection.ts:101-148 | direction and offset are visible iff slot 2 is 0, the corners iff it is 1; never both groups, and exactly one when slot 2 holds a mode value |
| Reflection.SelectingModeShowsItsGroup | src/effects/reflection.ts:11-14 | choosing a mode through the perspective select shows exactly that mode's group |
| Reflection.MaskFollowsUseMask | src/effects/reflection.ts:82 | alpha_mask is visible iff use_mask (slot 15) was last set |
| Reflection.MaskSentinelAddressesMask | src/effects/reflection.ts:81 | the sentinel -1 names resources[1], the mask texture |
| Reflection.InitialVisibility | src/effects/reflection.ts:82-148 | initially the planar group is shown and the corners and the mask are hidden |
| Reflection.CreateUniforms | src/effects/reflection.ts:34-50 | the 20-slot buffer holds slots 0-15 as written, and zeros after them |
| Reflection.CreateReflectionEffect | src/effects/reflection.ts:29-171 | the effect's buffer, identity, properties and default values, the cached shader and the linear sampler in the resource order |
| Refraction.LayoutIsSound | src/effects/refraction.ts:28-67 | slots 0-1, 2 and 3 lie inside 5 slots and are disjoint; slot 4 is padding |
| Refraction.InitialSlotsMatchDefaults | src/effects/refraction.ts:23-26 | slots 0-3 hold the defaults of scale, strength and use_mask |
| Refraction.MaskFollowsUseMask | src/effects/refraction.ts:65 | alpha_mask is visible iff use_mask (slot 3) was last set; normal_map is visible in every state |
| Refraction.MaskConfigsAddressTextures | src/effects/refraction.ts:88-97 | maskConfigs has exactly normal_map and alpha_mask, both in the effect's own pass, at bindings 1 (normal texture) and 2 (mask texture); normal_map's sentinel agrees with its binding, alpha_mask's [-1,-1] does not |
| Refraction.CreateUniforms | src/effects/refraction.ts:22-26 | the five-slot buffer holds the initial slots |
| Refraction.CreateRefractionEffect | src/effects/refraction.ts:11-101 | the cached normal texture and shader, the buffer, the linear sampler, and maskConfigs |
| Scroll.LayoutIsSound | src/effects/scroll.ts:34-59 | the properties cover exactly slots 2, 3 and 5, and none is a texture or mask |
| Scroll.InitialSlotsMatchDefaults | src/effects/scroll.ts:26-31 | slots 2, 3 and 5 hold the property defaults |
| Scroll.CreateUniforms | src/effects/scroll.ts:20-32 | all six slots are written and then committed once |
| Scroll.CreateScrollEffect | src/effects/scroll.ts:9-76 | the committed buffer, identity, properties, cached shader; resources base, sampler, buffer |
| Shake.LayoutIsSound | src/effects/shake.ts:31-120 | property slots lie inside 16 and are disjoint; friction covers exactly 3-4 |
| Shake.InitialSlotsMatchDefaults | src/effects/shake.ts:18-29 | every slot-backed property starts at its default, including use_flow_mask = true in slot 8 |
| Shake.MasksFollowTheirSwitches | src/effects/shake.ts:53 | flow_mask is visible iff use_flow_mask (slot 8) was last set; opacity_mask iff use_opacity_mask (slot 9) |
| Shake.InitialVisibility | src/effects/shake.ts:26-27 | initially everything but opacity_mask is shown |
| Shake.MaskSentinels | src/effects/shake.ts:52 | -1 names resources[1] (flow mask) and -3 resources[3] (opacity mask); the second components -7 and -10 are not the positions 2 and 4 |
| Shake.DirectionValues | src/effects/shake.ts:76-80 | the direction select offers 0, 1 and 2 in order, and its default is the first |
| Shake.FixedSlotsUnaddressed | src/effects/shake.ts:123-137 | time slot 0 and use_time_offset slot 10 belong to no listed property |
| Shake.CreateUniforms | src/effects/shake.ts:17-29 | the 16-slot buffer holds slots 0-11 as written, and zeros after them |
| Shake.CreateShakeEffect | src/effects/shake.ts:10-161 | the buffer with time in seconds, identity, properties, cached shader; resources base, flow mask, time offset, opacity mask, sampler, buffer |
| Tint.LayoutIsSound | src/effects/tint.ts:38-77 | the layout is sound, and tint_color covers slots 5-7, ending exactly at the end of the 8-slot buffer |
| Tint.InitialSlotsVersusDefaults | src/effects/tint.ts:30-36 | slots 5-6 hold tint_color's first two components and slot 7 keeps the zero fill; blend_mode and use_mask start at their defaults; blend_alpha starts at 1 against 0.5 |
| Tint.MaskFollowsUseMask | src/effects/tint.ts:60 | alpha_mask is visible iff use_mask (slot 3) was last set |
| Tint.MaskSentinelAddressesMask | src/effects/tint.ts:59 | the sentinel -1 names resources[1], the mask texture |
| Tint.BlendModeValues | src/effects/tint.ts:11-22 | the ten blend modes are numbered 0-9 in order, starting from the default |
| Tint.CreateUniforms | src/effects/tint.ts:29-36 | the 8-slot buffer holds slots 0-6 as written, and zero in slot 7 |
| Tint.CreateTintEffect | src/effects/tint.ts:24-98 | the effect's buffer, identity, properties, cached shader and linear sampler in the resource order |
| WaterFlow.LayoutIsSound | src/effects/water-flow.ts:27-59 | speed, amp and scale sit in slots 1-3, which are sound and distinct; time slot 0 belongs to no property |
| WaterFlow.InitialSlotsVersusDefaults | src/effects/water-flow.ts:17-20 | speed and amp start at their defaults; scale starts at 2 against 1 |
| WaterFlow.FlowMaskSentinel | src/effects/water-flow.ts:33 | [-1, 0] names resources[1] (the mask) and position 0, the property itself |
| WaterFlow.AlwaysVisible | src/effects/water-flow.ts:27-59 | no property has a condition, so all are shown in every state |
| WaterFlow.CreateUniforms | src/effects/water-flow.ts:16-20 | the four slots hold the time and the three parameters |
| WaterFlow.CreateWaterFlowEffect | src/effects/water-flow.ts:11-80 | the buffer, cached phase texture and shader, linear sampler and identity |
| WaterRipple.LayoutIsSound | src/effects/water-ripple.ts:37-101 | every numeric property sits inside the 16 slots with size 1, and no two share a slot |
| WaterRipple.InitialSlotsMatchDefaults | src/effects/water-ripple.ts:24-30 | slots 5-11 start at the defaults of speed through scale and use_mask = false |
| WaterRipple.FixedSlotsUnaddressed | src/effects/water-ripple.ts:17-23 | resolution slots 0-3 and time slot 4 belong to no property |
| WaterRipple.MaskFollowsUseMask | src/effects/water-ripple.ts:51 | alpha_mask is visible iff use_mask (slot 11) was last set |
| WaterRipple.InitialVisibility | src/effects/water-ripple.ts:51 | initially only alpha_mask is hidden |
| WaterRipple.MaskSentinelDecodes | src/effects/water-ripple.ts:50 | [-3,-1] names resources[3] (the mask texture) and position 1, alpha_mask's own, as its comment documents |
| WaterRipple.CreateUniforms | src/effects/water-ripple.ts:16-30 | the 16-slot buffer holds slots 0-11 as written |
| WaterRipple.CreateWaterRippleEffect | src/effects/water-ripple.ts:11-121 | always named "Water Ripple" whatever the caller; cached normal texture and shader; the resource order |
| WaterWaves.LayoutIsSound | src/effects/waterwaves.ts:33-141 | all property slots are below 16 and pairwise distinct |
| WaterWaves.InitialSlotsMatchDefaults | src/effects/waterwaves.ts:17-31 | slots 3-6 and 8-11 start at the defaults of the first and second wave's parameters; the directions (slots 7, 12) start at 0 against 180 |
| WaterWaves.FixedSlotsUnaddressed | src/effects/waterwaves.ts:17-19 | resolution and time slots 0-2 belong to no property |
| WaterWaves.MaskFollowsUseMask | src/effects/waterwaves.ts:47 | alpha_mask is visible iff use_mask (slot 14) was last set |
| WaterWaves.SecondWaveFollowsUseDualWaves | src/effects/waterwaves.ts:103-139 | the five second-wave properties are visible iff use_dual_waves (slot 13) was last set |
| WaterWaves.MaskSentinelAddressesMask | src/effects/waterwaves.ts:46 | the sentinel -1 names resources[1], the mask texture |
| WaterWaves.InitialVisibility | src/effects/waterwaves.ts:35-54 | initially the second wave and the mask are hidden and everything else is shown |
| WaterWaves.CreateUniforms | src/effects/waterwaves.ts:16-31 | the 16-slot buffer holds slots 0-14 as written |
| WaterWaves.CreateWaterWavesEffect | src/effects/waterwaves.ts:11-162 | the effect's buffer, identity (caption "水波浪"), properties, cached shader and linear sampler |
| Layers.CrcHexExact | src/stores/layers.ts:82-84 | the layer key is exactly eight hex digits spelling the checksum |
| Layers.CrcHexInjective | src/stores/layers.ts:82-84 | distinct checksums give distinct layer keys |
| Layers.ImageLayer.constructor | src/stores/layers.ts:81-97 | `createImageLayer`: file name, object URL, padded CRC, size 0x0, no passes, no effects |
| Layers.LayerPassesMembers | src/stores/layers.ts:153-155 | the `passes` getter (`LayerStore.Passes`, the flattening of `imageLayers`) holds every pass of every layer and only those: each layer's pass is in the flattened list, and each flattened pass belongs to some layer |
| Layers.Renderer.AddPass | src/stores/layers.ts:77 | `renderer.addPass` appends the pass to the renderer's pass list |
| Layers.LayerPasses | src/stores/layers.ts:153-155 | the passes of a single layer are that layer's passes |
| Layers.LayerPassesAppend | src/stores/layers.ts:153-155 | appending a layer appends its passes to the getter's result |
| Layers.LayerPassesSplit | src/stores/layers.ts:153-155 | the getter distributes over concatenating layer lists |
| Layers.ShaderLibrary.CreateShader | src/stores/layers.ts:26-38 | a cached non-empty text is returned; otherwise the fetched text is stored under the name and returned |
| Layers.RunFrame | src/stores/layers.ts:144-147 | the frame callback writes t * 0.001 into slot 4 when the buffer has it, and commits once |
| Layers.WhiteImageData | src/stores/layers.ts:104-110 | the fill loop sets every one of the width*height*4 bytes to 255 |
| Layers.NewLayer | src/stores/layers.ts:65-75 | the new layer has the loaded size, no effects, and the single base pass `<crc>__base-shader` over [texture, sampler] |
| Layers.LoadLayer | src/stores/layers.ts:52-56 | the base shader goes through the shader cache, one library-default sampler is created, then the layer is built |
| Layers.LayerStore.constructor | src/stores/layers.ts:41-48 | no renderer, no layers, no materials, no frame callbacks |
| Layers.LayerStore.PutMaterial | src/stores/layers.ts:58-63 | `materials.set`: the key now maps to the material, names stay unique, and a new key is appended |
| Layers.LayerStore.PushLayer | src/stores/layers.ts:58-77 | the material `<crc>__meterial` is recorded; the layer is appended; the base pass goes to the renderer; the getter grows by the layer's passes |
| Layers.LayerStore.AddImage | src/stores/layers.ts:50-79 | nothing changes without a renderer; otherwise exactly one fresh layer with one base pass is appended, with its material and renderer pass |
| Layers.LayerStore.MaterialOrPut | src/stores/layers.ts:112-133 | an existing material is kept and returned; a missing one is appended and returned |
| Layers.LayerStore.AddRipple | src/stores/layers.ts:103-148 | white_mask is created only if absent; the effect is appended to the layer over its base-pass output and the white mask; its pass and one frame callback are added; every layer keeps its name, url, size, key and passes, and no other layer's effects change |
| Layers.LayerStore.AddEffect | src/stores/layers.ts:99-150 | an effect is added iff there is a renderer, the index names a layer, the name is "water-ripple" and the layer is non-empty; otherwise nothing changes: materials, frame callbacks, every layer, the renderer's passes, the device's samplers and the three caches stay as they were. When added, `white_mask` is appended only if absent, the effect is appended to that layer only, and its pass and frame callback are registered; every layer keeps its name, url, size, key and passes |
| ProjectManager.IsBlobUrl | src/utils/projectManager.ts:221-223 | a URL is a blob URL iff its first five characters are `blob:` |
| ProjectManager.FirstField | src/utils/projectManager.ts:324 | `split('.')[0]`: the longest dot-free prefix |
| ProjectManager.CurrentMajorIsOne | src/types/project.ts:51 | the first field of the current version "1.0.0" is "1", which reads as the number 1 |
| ProjectManager.CurrentVersionCompatible | src/utils/projectManager.ts:322-327 | "1.0.0" is compatible with itself |
| ProjectManager.IsVersionCompatible | src/utils/projectManager.ts:322-327 | a version is compatible iff its first field reads as the number 1, the current major; later fields are ignored |
| ProjectManager.VersionExamples | src/utils/projectManager.ts:322-327 | "1.x", "01.x" and "1" are compatible; "2.0.0", "" and "v1.0" are not |
| ProjectManager.MaterialTypeOf | src/utils/projectManager.ts:303-306 | flow mask iff the name contains "__mask" and "flow"; alpha mask iff "__mask" without "flow"; image iff no "__mask" |
| ProjectManager.LayerMaterialIsImage | src/utils/projectManager.ts:303-306 | a layer's own material `<crc>__meterial` is saved as an image |
| ProjectManager.WhiteMaskIsImage | src/utils/projectManager.ts:303-306 | the water-ripple default mask "white_mask" is saved as an image, not a mask |
| ProjectManager.MaterialsDataKeys | src/utils/projectManager.ts:298-301 | exactly the materials not named `defaultMask-...` are saved |
| ProjectManager.MaterialsDataValues | src/utils/projectManager.ts:308-313 | each saved material copies the url, width and height of its store entry and has its name's type |
| ProjectManager.SerializeMaterials | src/utils/projectManager.ts:295-317 | the loop yields the specified saved-materials record |
| ProjectManager.UserMask | src/utils/projectManager.ts:270 | a mask worth saving is a non-empty string value not starting with `defaultMask-` |
| ProjectManager.EffectDataSpec | src/utils/projectManager.ts:249-290 | the properties record has exactly the property names, each holding its current value; every mask entry is a mask-typed property or a maskConfigs key whose value is a user material; each mask-typed property holding one is saved |
| ProjectManager.WaterRippleSavesNoMasks | src/utils/projectManager.ts:264-284 | a water-ripple effect saves no masks, because its alpha_mask is typed Texture and it has no maskConfigs; the chosen material is kept only among the properties |
| ProjectManager.SaveProperties | src/utils/projectManager.ts:259-261 | the first loop saves every property name with its current value |
| ProjectManager.SaveMaskProperties | src/utils/projectManager.ts:263-274 | the second loop saves exactly the AlphaMask and FlowMask properties whose value is a user material |
| ProjectManager.SaveConfiguredMasks | src/utils/projectManager.ts:276-284 | the third loop adds exactly the mask configurations whose value is a user material |
| ProjectManager.SerializeEffect | src/utils/projectManager.ts:249-290 | the three loops yield the specified effect record |
| ProjectManager.EffectsDataOf | src/utils/projectManager.ts:242 | effects are saved one for one, in order |
| ProjectManager.SerializeLayer | src/utils/projectManager.ts:228-244 | name, url, crc and size are copied, and the effect count and order are kept; the transform is left out |
| ProjectManager.SerializeLayerAsWritten | src/utils/projectManager.ts:237-241 | when the layer has `origin` and `scale` fields, the record is SerializeLayer's |
| ProjectManager.ExportAsWrittenRejectsLayers | src/utils/projectManager.ts:63 | with the fields a store layer has, `layers.map(serializeLayer)` throws iff there is at least one layer |
| ProjectManager.ExportWithTransformFields | src/utils/projectManager.ts:63 | were the transform fields present, the as-written map would give exactly the saved layers |
| ProjectManager.AssetNamesDistinct | src/utils/projectManager.ts:51 | `asset_<i>.dat` names are distinct for distinct indices, never empty, never `project.json`, and never end with `.json` |
| ProjectManager.CollectBlobUrls | src/utils/projectManager.ts:25-44 | each URL is collected at most once; a URL is collected iff it is a blob URL of a layer or of a material not named `defaultMask-...` |
| ProjectManager.AssignFilenames | src/utils/projectManager.ts:47-53 | exactly the collected URLs are named, the i-th as `asset_<i>.dat` |
| ProjectManager.FilenamesDistinct | src/utils/projectManager.ts:47-53 | distinct URLs get distinct asset names |
| ProjectManager.RewrittenLayers | src/utils/projectManager.ts:70-75 | each layer keeps everything but its url, which is replaced when mapped to a non-empty name |
| ProjectManager.RewrittenMaterials | src/utils/projectManager.ts:77-82 | same keys; each material keeps everything but its url, which is replaced when mapped |
| ProjectManager.RewriteLayerUrls | src/utils/projectManager.ts:70-75 | the in-place loop yields RewrittenLayers |
| ProjectManager.RewriteMaterialUrls | src/utils/projectManager.ts:77-82 | the loop over the values yields RewrittenMaterials |
| ProjectManager.LayersData | src/utils/projectManager.ts:63 | `layers.map(serializeLayer)`, one for one |
| ProjectManager.NameAssets | src/utils/projectManager.ts:25-53 | the named URLs are exactly the collectable ones, with distinct asset names |
| ProjectManager.SaveLayers | src/utils/projectManager.ts:63-75 | the saved layers with collected URLs replaced by their asset names |
| ProjectManager.ArchiveEntries | src/utils/projectManager.ts:85-97 | the archive holds `project.json` first, then exactly the asset names |
| ProjectManager.PackAssets | src/utils/projectManager.ts:25-53 | the asset table covers exactly the collectable URLs with distinct asset names, and the archive entries are `project.json` then exactly those names |
| ProjectManager.SaveMaterials | src/utils/projectManager.ts:64-82 | the saved materials with collected URLs replaced by their asset names |
| ProjectManager.SaveProject | src/utils/projectManager.ts:56-82 | the record has the current version, the name, the canvas, one timestamp, and the saved layers and materials with mapped URLs replaced |
| ProjectManager.ExportProject | src/utils/projectManager.ts:16-111 | the asset table covers exactly the collectable URLs, injectively, with asset names that are all archived; the record has the current version, the name, the canvas, one timestamp, and the saved layers and materials with mapped URLs replaced |
| ProjectManager.LoadedUrls | src/utils/projectManager.ts:184-198 | exactly the entries that are not `project.json` and do not end with `.json` get an object URL |
| ProjectManager.LoadFromFile | src/utils/projectManager.ts:167-216 | fails when `project.json` is missing, then when the version is incompatible; otherwise returns the record with mapped layer and material URLs replaced |
| ProjectManager.UrlRoundTrip | src/utils/projectManager.ts:201-213 | a URL named on export comes back as the object URL of its asset; any other URL comes back unchanged, provided it is not itself the name of an archived asset entry |
| ProjectManager.ExportThenLoad | src/utils/projectManager.ts:70-82 | after export and load, each layer and material equals its saved form, except that its url is the object URL of its asset when it was collected; provided no saved uncollected URL is an asset entry of the archive |
| ProjectManager.ExportedArchiveLoads | src/utils/projectManager.ts:16-111 | for the record, asset table and entries that ExportProject promises, the load accepts (`project.json` present, version compatible) and restores every layer and material as in ExportThenLoad, provided no saved uncollected URL is spelled like an asset name |
| EffectCatalog.AddLabels | src/constants/effects.ts:84-86 | the inner loop maps exactly the old keys plus the labels, each label to the id |
| EffectCatalog.LabelMapKeys | src/constants/effects.ts:83-89 | the map's keys are exactly the entries' Chinese names |
| EffectCatalog.LabelMapValues | src/constants/effects.ts:83-89 | when no name is listed twice, every name maps to its own entry's id |
| EffectCatalog.BuildLabelToId | src/constants/effects.ts:83-89 | the reduce with its inner loop yields LabelMap |
| EffectCatalog.ChineseLabelToId | src/constants/effects.ts:83-89 | the keys of `CHINESE_LABEL_TO_ID` are exactly the listed Chinese names |
| EffectCatalog.GetEffectConfig | src/constants/effects.ts:94-96 | nothing is found iff no entry has the id; a found entry is in the table and has the id |
| EffectCatalog.GetEffectIdByChineseLabel | src/constants/effects.ts:101-103 | nothing iff no entry lists the name; otherwise the id of the entry that lists it |
| EffectCatalog.FoundByOwnId | src/constants/effects.ts:95 | in a table with distinct ids, `find` returns each entry for its own id |
| EffectCatalog.FindConfig | src/constants/effects.ts:95 | `find` returns the first entry with the id, or nothing iff no entry has it |
| EffectCatalog.CatalogIdsDistinct | src/constants/effects.ts:17-78 | there are twelve entries with pairwise distinct ids |
| EffectCatalog.CaptionsAmongOwnLabels | src/constants/effects.ts:17-78 | every entry's label is among its own Chinese names |
| EffectCatalog.EntryOfLabels | src/constants/effects.ts:17-78 | each listed name's first and last characters identify its own entry |
| EffectCatalog.DisjointByEntry | src/constants/effects.ts:17-78 | names that each identify their own entry are never listed twice |
| EffectCatalog.CatalogLabelsDisjoint | src/constants/effects.ts:17-89 | no Chinese name is listed under two entries, so the fold never overwrites a key |
| EffectCatalog.ChineseLabelToIdSpec | src/constants/effects.ts:83-89 | the reverse map holds exactly the listed names, each mapped to its entry's id |
| EffectCatalog.GetEffectConfigSpec | src/constants/effects.ts:94-96 | each entry is found by its own id, and nothing is found for an id no entry has |
| EffectCatalog.LabelRoundTrip | src/constants/effects.ts:94-103 | the label of the entry found for an id leads back to that id |
| EffectCatalog.CaptionRoundTrip | src/constants/effects.ts:101-103 | every entry's label leads back to its id |
| EffectCatalog.FoundById | src/constants/effects.ts:94-96 | each entry is found by its own id |
| EffectCatalog.FactoryIdsCatalogued | src/constants/effects.ts:17-78 | every id an effect factory sets has a catalogue entry |
| EffectCatalog.FactoryCaptionsResolve | src/constants/effects.ts:101-103 | nine factory captions lead to their effects' ids |
| EffectCatalog.WaterWavesCaptionUnlisted | src/constants/effects.ts:101-103 | the water-waves factory caption "水波浪" leads to no id, while the entry's label "波浪" leads to "waterwaves" |

## Left out

- Layers.RippleOver: this wrapper around `createWaterRippleEffect` exposes only the name, the pass shape and the two textures it passes in. The factory's full contract is `WaterRipple.CreateWaterRippleEffect`. The wrapper keeps the layer-store proofs small.
- The GPU library is left out: `createUniforms` internals, `getBuffer`, `createTexture`/`createView`, `loadImageTexture`, `getPassTexture`, `getPassOptions` and the WGSL shaders. They are opaque handles in `Gpu`. A buffer's commit is a copy plus a counter.
- Fetching, `URL.createObjectURL`, Blob and canvas conversion, and loaded images are parameters: the fetched text, the loaded texture and size, and an `objectUrlOf` function.
- JSZip, `JSON.stringify`/`JSON.parse` and the DOM download link are left out. The archive is its list of entry names, and `loadFromFile` receives the parsed record.
- A failed asset fetch during export is not modelled: every asset is assumed to be added to the archive.
- `exportHTML` is left out. It is unfinished and not part of the saved-project path.
- Float32 storage and rounding are not modelled: slot values are reals. `performance.now()` and the frame time are parameters, and 1.57079632679 is a constant.
- `crc32` (src/utils/crc) is not part of this model: a checksum is any integer below 2^32.
- `Number()` covers only decimal digit strings and "". Whitespace, signs, exponents and hex prefixes, which JavaScript also accepts, are not modelled.
- ExportProject: the saved layers carry no transform (origin, scale, rotation). As written, `serializeLayer` reads `layer.origin.x` (src/utils/projectManager.ts:238), but a layer of the store (src/stores/layers.ts:14-23, 81-97) has no such field, so the read throws and the export rejects whenever there is a layer. `ProjectManager.ExportAsWrittenRejectsLayers` states that failure. `ExportProject` models the export as if `serializeLayer` succeeded, and omits the transform, whose values no layer holds.
- EffectModel.CreateProperty: `createProperty` is not part of this model. Its defaults for the fields a call leaves out are assumed: no range, always shown, no options, and `[-1, -1]` as the index.
- EffectModel.DefaultRefs: `new Effect({...})` and `createProperty` are not part of this model. The property defaults and the starting values are assumed: the range, the index and the condition, values seeded from the defaults, and enabled. The contract states only the keys of the value map.
- The minimal declarations in src/effects/index.ts are widened to what the factories use. This adds the Checkbox, Select, Angle, AlphaMask and FlowMask types, named buffers, conditions, options, passes, pass buffers and mask configurations.
- ProjectManager.CollectBlobUrls: the JavaScript `Set` is its insertion-ordered sequence of distinct URLs. The contract states membership and distinctness, not the order.
- The export timestamp (`new Date().toISOString()`) is a parameter, and the model uses it for both fields.
- Zip directory entries are left out.
- Vue and Pinia reactivity are left out. So are src/stores/pointer.ts and src/composibles/mask.ts (bare initial state), src/directives/v-zoom.ts, the video exporter and the build configuration.
- EffectCatalog.GetEffectIdByChineseLabel: `CHINESE_LABEL_TO_ID` is a plain object, so a name such as `constructor`, `toString` or `__proto__` reads an inherited `Object.prototype` member rather than `undefined`. The model sees only the object's own keys and returns nothing for those names.
- Layers.LayerStore.AddImage, Layers.LayerStore.AddEffect, Layers.LayerStore.AddRipple: each async store action is modelled as one uninterrupted step, as if calls never overlapped across their `await`s (src/stores/layers.ts:52, 53, 56 for `addImage`; 118, 124, 135 for `addEffect`). Interleavings are not captured. Two overlapping `addEffect(i, 'water-ripple')` calls can both pass the `has('white_mask')` test at line 112, and the second `set` at line 125 then replaces the first call's mask. So with overlap "white_mask is created only if absent" need not hold. Overlapping `addImage` calls push their layers in the order the loads finish.
- Layers.LayerStore.AddEffect: `new ImageData(width, height)` throws for a layer with a zero dimension (src/stores/layers.ts:104), which rejects the call. The model returns `None` and changes nothing in that case.
- Effect removal, toggling and re-linking are left out, since the layer store has no such operations.

## Findings

| source | as written | input that shows it | evidently intended | confidence | as-written member | corrected member |
|---|---|---|---|---|---|---|
| src/utils/projectManager.ts:237-241 | `serializeLayer` reads `layer.origin.x`, `layer.scale.x` and `layer.rotation`, fields that the store's `ImageLayer` (src/stores/layers.ts:14-23) does not have | any project with one image layer: `layer.origin` is `undefined` and `.x` throws, so `exportProject` rejects at line 63 | every layer is saved (with a transform once layers carry one) and the archive round-trips through `loadFromFile` | high; not executed | ProjectManager.ExportAsWrittenRejectsLayers | ProjectManager.ExportedArchiveLoads |
