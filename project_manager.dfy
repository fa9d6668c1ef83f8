/** Saving and loading projects: the records a project file holds, how layers,
    effects and materials are serialized, how blob URLs are replaced by asset
    file names on export and by fresh object URLs on load, and the version check. */
module ProjectManager {
  import opened Common
  import opened EffectModel
  import opened Layers
  import WaterRipple

  /** The version written into every project file. */
  const ProjectVersion := "1.0.0"

  /** The archive entry holding the project record. */
  const ProjectJson := "project.json"

  /** Names of the built-in masks, which are never saved. */
  const DefaultMaskPrefix := "defaultMask-"

  // ---------------------------------------------------------------------------
  // The saved records

  datatype MaterialType = AlphaMaskMaterial | FlowMaskMaterial | ImageMaterial

  datatype MaterialData = MaterialData(url: string, width: int, height: int, mtype: MaterialType)

  /** A saved effect. A property whose name has no current value is saved as
      `None` (JavaScript's `undefined`). */
  datatype EffectData = EffectData(name: string, id: Option<string>, caption: Option<string>, enable: bool,
                                   properties: map<string, Option<PropertyValue>>, masks: map<string, string>)

  datatype LayerData = LayerData(name: string, url: string, crc: string, width: int, height: int,
                                 effects: seq<EffectData>)

  datatype CanvasData = CanvasData(width: int, height: int)

  datatype ProjectData = ProjectData(version: string, name: string, canvas: CanvasData, layers: seq<LayerData>,
                                     materials: map<string, MaterialData>, createdAt: string, modifiedAt: string)

  datatype LoadError = MissingProjectJson | IncompatibleVersion(version: string)

  // ---------------------------------------------------------------------------
  // URLs and versions

  /** `isBlobUrl`: the URL was made by `URL.createObjectURL`. */
  function IsBlobUrl(url: string): (r: bool)
    ensures r <==> |url| >= 5 && url[..5] == "blob:"
  {
    StartsWith(url, "blob:")
  }

  /** `version.split('.')[0]`: the text before the first dot, or all of it. */
  function FirstField(v: string): (r: string)
    ensures |r| <= |v| && r == v[..|r|]
    ensures forall i :: 0 <= i < |r| ==> r[i] != '.'
    ensures |r| < |v| ==> v[|r|] == '.'
  {
    if |v| == 0 || v[0] == '.' then "" else [v[0]] + FirstField(v[1..])
  }

  /** `Number(s)` on the strings the model covers: the empty string is 0, a
      string of decimal digits is its value, anything else is NaN (`None`). */
  function NumberOf(s: string): Option<nat>
  {
    if AllDigits(s, 10) then Some(ParseRadix(s, 10)) else None
  }

  /** `isVersionCompatible`: the first fields of the current and the file's
      version are the same number (NaN equals nothing). */
  function IsVersionCompatible(version: string): (r: bool)
    ensures r <==> NumberOf(FirstField(version)) == Some(1)
  {
    CurrentMajorIsOne();
    var current := NumberOf(FirstField(ProjectVersion));
    current.Some? && NumberOf(FirstField(version)) == current
  }

  /** The current major version is 1. */
  lemma CurrentMajorIsOne()
    ensures FirstField(ProjectVersion) == "1" && NumberOf(FirstField(ProjectVersion)) == Some(1)
  {
    assert FirstField(ProjectVersion) == "1";
    assert DigitValue('1') == Some(1);
    assert AllDigits("1", 10) && "1"[..0] == "";
  }

  /** The current version "1.0.0" is compatible with itself. */
  lemma CurrentVersionCompatible()
    ensures IsVersionCompatible(ProjectVersion)
  {
    CurrentMajorIsOne();
  }

  /** "1.<anything>" and "01.<anything>" are compatible; "2.0.0", "" and "v1.0" are not. */
  lemma VersionExamples(rest: string)
    ensures IsVersionCompatible("1." + rest) && IsVersionCompatible("01." + rest) && IsVersionCompatible("1")
    ensures !IsVersionCompatible("2.0.0") && !IsVersionCompatible("") && !IsVersionCompatible("v1.0")
  {
    MajorOneAccepted(rest);
    OtherMajorsRejected();
  }

  lemma {:induction false} MajorOneAccepted(rest: string)
    ensures IsVersionCompatible("1." + rest) && IsVersionCompatible("01." + rest) && IsVersionCompatible("1")
  {
    CurrentVersionCompatible();
    assert FirstField("1." + rest) == "1" by {
      assert ("1." + rest)[1..] == "." + rest;
      assert FirstField(("1." + rest)[1..]) == "";
    }
    assert FirstField("01." + rest) == "01" by {
      assert ("01." + rest)[1..] == "1." + rest;
      assert ("1." + rest)[1..] == "." + rest;
      assert FirstField(("1." + rest)[1..]) == "";
    }
    assert AllDigits("01", 10) && "01"[..1] == "0" && ParseRadix("01", 10) == 1;
  }

  lemma OtherMajorsRejected()
    ensures !IsVersionCompatible("2.0.0") && !IsVersionCompatible("") && !IsVersionCompatible("v1.0")
  {
    assert FirstField("2.0.0") == "2";
    assert DigitValue('2') == Some(2);
    assert FirstField("v1.0") == "v1";
    assert DigitValue('v') == None;
  }

  // ---------------------------------------------------------------------------
  // Materials

  /** The saved type of a material, read from its name. */
  function MaterialTypeOf(name: string): (t: MaterialType)
    ensures t == FlowMaskMaterial <==> Contains(name, "__mask") && Contains(name, "flow")
    ensures t == AlphaMaskMaterial <==> Contains(name, "__mask") && !Contains(name, "flow")
    ensures t == ImageMaterial <==> !Contains(name, "__mask")
  {
    if Contains(name, "__mask") then (if Contains(name, "flow") then FlowMaskMaterial else AlphaMaskMaterial)
    else ImageMaterial
  }

  /** A string in which no "__" is followed by "ma" does not contain "__mask". */
  lemma {:induction false} NoMaskMarker(s: string)
    requires forall i :: 0 <= i && i + 6 <= |s| && s[i] == '_' ==> s[i + 1] != '_' || s[i + 2] != 'm' || s[i + 3] != 'a'
    ensures !Contains(s, "__mask")
    decreases |s|
  {
    if |s| >= 6 {
      assert s[..6] != "__mask" by {
        assert s[..6][0] == s[0] && s[..6][1] == s[1] && s[..6][2] == s[2] && s[..6][3] == s[3];
      }
    }
    if |s| > 0 {
      var t := s[1..];
      forall i | 0 <= i && i + 6 <= |t| && t[i] == '_'
        ensures t[i + 1] != '_' || t[i + 2] != 'm' || t[i + 3] != 'a'
      {
        assert t[i] == s[i + 1] && t[i + 1] == s[i + 2] && t[i + 2] == s[i + 3] && t[i + 3] == s[i + 4];
      }
      NoMaskMarker(t);
    }
  }

  /** A layer's own material `crc + "__meterial"` (its key in the store) is saved
      as an image. */
  lemma LayerMaterialIsImage(crc: string)
    requires AllDigits(crc, 16)
    ensures MaterialTypeOf(MaterialKey(crc)) == ImageMaterial
  {
    var s := MaterialKey(crc);
    forall i | 0 <= i && i + 6 <= |s| && s[i] == '_'
      ensures s[i + 1] != '_' || s[i + 2] != 'm' || s[i + 3] != 'a'
    {
      if i >= |crc| {
        assert s[|crc|..] == "__meterial";
        assert s[i + 3] == "__meterial"[i + 3 - |crc|];
        assert s[i + 1] == "__meterial"[i + 1 - |crc|];
      }
    }
    NoMaskMarker(s);
  }

  /** The water-ripple default mask "white_mask" is saved as an image, not as a mask. */
  lemma WhiteMaskIsImage()
    ensures MaterialTypeOf("white_mask") == ImageMaterial
  {
    NoMaskMarker("white_mask");
  }

  /** What `serializeMaterials` saves for one material. */
  function MaterialDataOf(name: string, m: Material): MaterialData
  {
    MaterialData(m.url, m.width, m.height, MaterialTypeOf(name))
  }

  /** `serializeMaterials` on the first entries of the store's map, in map order. */
  function MaterialsData(ms: Entries<string, Material>): map<string, MaterialData>
    decreases |ms|
  {
    if |ms| == 0 then map[]
    else
      var rest := MaterialsData(ms[..|ms| - 1]);
      var (name, m) := ms[|ms| - 1];
      if StartsWith(name, DefaultMaskPrefix) then rest else rest[name := MaterialDataOf(name, m)]
  }

  /** The saved materials are exactly the store's materials not named
      `defaultMask-…`. */
  lemma {:induction false} MaterialsDataKeys(ms: Entries<string, Material>)
    ensures forall k :: k in MaterialsData(ms) <==> !StartsWith(k, DefaultMaskPrefix) && k in Keys(ms)
    decreases |ms|
  {
    if |ms| > 0 {
      var init := ms[..|ms| - 1];
      MaterialsDataKeys(init);
      assert Keys(ms) == Keys(init) + [ms[|ms| - 1].0];
    }
  }

  /** With distinct names (a JavaScript `Map`), each saved material carries the
      url, width and height of the store's entry of that name. */
  lemma {:induction false} MaterialsDataValues(ms: Entries<string, Material>)
    requires DistinctKeys(ms)
    ensures forall i :: 0 <= i < |ms| && !StartsWith(ms[i].0, DefaultMaskPrefix) ==>
      ms[i].0 in MaterialsData(ms) && MaterialsData(ms)[ms[i].0] == MaterialDataOf(ms[i].0, ms[i].1)
    decreases |ms|
  {
    if |ms| > 0 {
      var init := ms[..|ms| - 1];
      assert DistinctKeys(init) by {
        assert forall i :: 0 <= i < |init| ==> init[i] == ms[i];
      }
      MaterialsDataValues(init);
      assert forall i :: 0 <= i < |init| ==> init[i] == ms[i] && init[i].0 != ms[|ms| - 1].0;
    }
  }

  /** `serializeMaterials`: one pass over the store's map. */
  method SerializeMaterials(ms: Entries<string, Material>) returns (result: map<string, MaterialData>)
    ensures result == MaterialsData(ms)
  {
    result := map[];
    var i := 0;
    while i < |ms|
      invariant 0 <= i <= |ms|
      invariant result == MaterialsData(ms[..i])
    {
      var (name, m) := ms[i];
      assert ms[..i + 1][..i] == ms[..i];
      if !StartsWith(name, DefaultMaskPrefix) {
        result := result[name := MaterialDataOf(name, m)];
      }
      i := i + 1;
    }
    assert ms[..|ms|] == ms;
  }

  // ---------------------------------------------------------------------------
  // Effects and layers

  /** `effect.refs[name]`: the property's current value, `None` when it has none. */
  function RefOf(refs: map<string, PropertyValue>, name: string): Option<PropertyValue>
  {
    if name in refs then Some(refs[name]) else None
  }

  predicate IsMaskType(t: PropertyType)
  {
    t == AlphaMask || t == FlowMask
  }

  /** The material a mask names when it is worth saving: a non-empty string that
      does not start with `defaultMask-`. */
  function UserMask(refs: map<string, PropertyValue>, name: string): (r: Option<string>)
    ensures r.Some? ==> RefOf(refs, name) == Some(Str(r.value)) && r.value != "" && !StartsWith(r.value, DefaultMaskPrefix)
  {
    if name in refs && refs[name].Str? && refs[name].s != "" && !StartsWith(refs[name].s, DefaultMaskPrefix)
    then Some(refs[name].s) else None
  }

  function PropertyNames(ps: seq<Property>): set<string>
  {
    set i | 0 <= i < |ps| :: ps[i].name
  }

  function MaskPropertyNames(ps: seq<Property>): set<string>
  {
    set i | 0 <= i < |ps| && IsMaskType(ps[i].ptype) :: ps[i].name
  }

  function SavedProperties(names: set<string>, refs: map<string, PropertyValue>): map<string, Option<PropertyValue>>
  {
    map n | n in names :: RefOf(refs, n)
  }

  function SavedMasks(names: set<string>, refs: map<string, PropertyValue>): map<string, string>
  {
    map n | n in names && UserMask(refs, n).Some? :: UserMask(refs, n).value
  }

  /** What `serializeEffect` returns for `e`. */
  function EffectDataOf(e: Effect): EffectData
    reads e
  {
    EffectData(e.name, e.id, e.caption, e.enable,
               SavedProperties(PropertyNames(e.properties), e.refs),
               SavedMasks(MaskPropertyNames(e.properties) + e.maskConfigs.Keys, e.refs))
  }

  /** The saved properties are exactly the effect's property names, each with its
      current value; a saved mask is a mask-typed property or a mask
      configuration whose current value is a user material, and every such mask
      is saved. */
  lemma EffectDataSpec(e: Effect)
    ensures var d := EffectDataOf(e);
            && (forall n :: n in d.properties <==> exists i :: 0 <= i < |e.properties| && e.properties[i].name == n)
            && (forall i :: 0 <= i < |e.properties| ==> d.properties[e.properties[i].name] == RefOf(e.refs, e.properties[i].name))
            && (forall n :: n in d.masks ==>
                  RefOf(e.refs, n) == Some(Str(d.masks[n])) && !StartsWith(d.masks[n], DefaultMaskPrefix)
                  && (n in e.maskConfigs || exists i :: 0 <= i < |e.properties| && e.properties[i].name == n
                                                       && IsMaskType(e.properties[i].ptype)))
            && (forall i :: (0 <= i < |e.properties| && IsMaskType(e.properties[i].ptype)
                             && UserMask(e.refs, e.properties[i].name).Some?) ==> e.properties[i].name in d.masks)
  {
    var d := EffectDataOf(e);
    forall n | n in d.masks
      ensures n in e.maskConfigs || exists i :: 0 <= i < |e.properties| && e.properties[i].name == n
                                               && IsMaskType(e.properties[i].ptype)
    {
    }
  }

  /** The water-ripple effect types its alpha_mask as a plain Texture and has no
      mask configurations, so it saves no masks whatever material is chosen; the
      chosen material survives only as the alpha_mask entry of the properties. */
  lemma WaterRippleSavesNoMasks(e: Effect)
    requires e.properties == WaterRipple.Properties && e.maskConfigs == map[]
    ensures EffectDataOf(e).masks == map[]
    ensures "alpha_mask" in EffectDataOf(e).properties
            && EffectDataOf(e).properties["alpha_mask"] == RefOf(e.refs, "alpha_mask")
  {
    assert MaskPropertyNames(e.properties) == {} by {
      forall i | 0 <= i < |WaterRipple.Properties|
        ensures !IsMaskType(WaterRipple.Properties[i].ptype)
      {
      }
    }
    assert WaterRipple.Properties[1] == WaterRipple.AlphaMaskProp;
  }

  lemma NamesSnoc(ps: seq<Property>, i: nat)
    requires i < |ps|
    ensures PropertyNames(ps[..i + 1]) == PropertyNames(ps[..i]) + {ps[i].name}
    ensures MaskPropertyNames(ps[..i + 1]) ==
      MaskPropertyNames(ps[..i]) + (if IsMaskType(ps[i].ptype) then {ps[i].name} else {})
  {
    var a, b := ps[..i + 1], ps[..i];
    assert forall j :: 0 <= j < i ==> a[j] == b[j];
    assert a[i] == ps[i];
  }

  lemma SavedPropertiesAdd(names: set<string>, name: string, refs: map<string, PropertyValue>)
    ensures SavedProperties(names + {name}, refs) == SavedProperties(names, refs)[name := RefOf(refs, name)]
  {
  }

  lemma SavedMasksAdd(names: set<string>, name: string, refs: map<string, PropertyValue>)
    ensures SavedMasks(names + {name}, refs) ==
      if UserMask(refs, name).Some? then SavedMasks(names, refs)[name := UserMask(refs, name).value]
      else SavedMasks(names, refs)
  {
  }

  /** The first loop of `serializeEffect`: every property's current value. */
  method SaveProperties(ps: seq<Property>, refs: map<string, PropertyValue>)
    returns (properties: map<string, Option<PropertyValue>>)
    ensures properties == SavedProperties(PropertyNames(ps), refs)
  {
    properties := map[];
    var i := 0;
    while i < |ps|
      invariant 0 <= i <= |ps|
      invariant properties == SavedProperties(PropertyNames(ps[..i]), refs)
    {
      NamesSnoc(ps, i);
      SavedPropertiesAdd(PropertyNames(ps[..i]), ps[i].name, refs);
      properties := properties[ps[i].name := RefOf(refs, ps[i].name)];
      i := i + 1;
    }
    assert ps[..|ps|] == ps;
  }

  /** The second loop of `serializeEffect`: the user materials of the
      AlphaMask and FlowMask properties. */
  method SaveMaskProperties(ps: seq<Property>, refs: map<string, PropertyValue>)
    returns (masks: map<string, string>)
    ensures masks == SavedMasks(MaskPropertyNames(ps), refs)
  {
    masks := map[];
    var i := 0;
    while i < |ps|
      invariant 0 <= i <= |ps|
      invariant masks == SavedMasks(MaskPropertyNames(ps[..i]), refs)
    {
      NamesSnoc(ps, i);
      if IsMaskType(ps[i].ptype) {
        SavedMasksAdd(MaskPropertyNames(ps[..i]), ps[i].name, refs);
        var material := UserMask(refs, ps[i].name);
        if material.Some? {
          masks := masks[ps[i].name := material.value];
        }
      }
      i := i + 1;
    }
    assert ps[..|ps|] == ps;
  }

  /** The third loop of `serializeEffect`: the user materials of the mask
      configurations, added to the masks already saved for `done`. */
  method SaveConfiguredMasks(done: set<string>, masks0: map<string, string>, configured: set<string>,
                             refs: map<string, PropertyValue>)
    returns (masks: map<string, string>)
    requires masks0 == SavedMasks(done, refs)
    ensures masks == SavedMasks(done + configured, refs)
  {
    masks := masks0;
    var todo := configured;
    while todo != {}
      invariant todo <= configured
      invariant masks == SavedMasks(done + (configured - todo), refs)
      decreases todo
    {
      var name :| name in todo;
      assert done + (configured - (todo - {name})) == done + (configured - todo) + {name};
      SavedMasksAdd(done + (configured - todo), name, refs);
      var material := UserMask(refs, name);
      if material.Some? {
        masks := masks[name := material.value];
      }
      todo := todo - {name};
    }
    assert configured - todo == configured;
  }

  /** `serializeEffect`: a loop over the properties for their values, another for
      the masks, then one over the mask configurations. */
  method SerializeEffect(e: Effect) returns (d: EffectData)
    ensures d == EffectDataOf(e)
  {
    var properties := SaveProperties(e.properties, e.refs);
    var masks := SaveMaskProperties(e.properties, e.refs);
    masks := SaveConfiguredMasks(MaskPropertyNames(e.properties), masks, e.maskConfigs.Keys, e.refs);
    d := EffectData(e.name, e.id, e.caption, e.enable, properties, masks);
  }

  /** The saved effects of a layer, in layer order. */
  function EffectsDataOf(es: seq<Effect>): (ds: seq<EffectData>)
    reads es
    ensures |ds| == |es| && forall i :: 0 <= i < |es| ==> ds[i] == EffectDataOf(es[i])
    decreases |es|
  {
    if |es| == 0 then [] else EffectsDataOf(es[..|es| - 1]) + [EffectDataOf(es[|es| - 1])]
  }

  /** `serializeLayer`: name, url, checksum and size are copied, and the effects
      are saved one for one, in order. */
  function SerializeLayer(l: ImageLayer): (d: LayerData)
    reads l, set e: Effect | e in l.effects
    ensures d.name == l.name && d.url == l.url && d.crc == l.crc && d.width == l.width && d.height == l.height
    ensures |d.effects| == |l.effects| && forall i :: 0 <= i < |l.effects| ==> d.effects[i] == EffectDataOf(l.effects[i])
  {
    LayerData(l.name, l.url, l.crc, l.width, l.height, EffectsDataOf(l.effects))
  }

  /** The own fields of a layer as `createImageLayer` builds it (the `ImageLayer`
      of the layer store). */
  const StoreLayerFields: set<string> := {"name", "url", "crc", "size", "passes", "effects"}

  /** `serializeLayer` as written: `layer.origin.x` and `layer.scale.x` read a
      field of `undefined`, and throw, on a layer that lacks `origin` or `scale`;
      `None` is that TypeError. */
  function SerializeLayerAsWritten(l: ImageLayer, fields: set<string>): (r: Option<LayerData>)
    reads l, set e: Effect | e in l.effects
    ensures r.Some? ==> r.value == SerializeLayer(l)
  {
    if "origin" in fields && "scale" in fields then Some(SerializeLayer(l)) else None
  }

  /** `layers.map(serializeLayer)` as written: the first throwing layer rejects
      the whole export. */
  function LayersDataAsWritten(layers: seq<ImageLayer>, fields: set<string>): (r: Option<seq<LayerData>>)
    reads layers, set l, e | l in layers && e in l.effects :: e
    decreases |layers|
  {
    if |layers| == 0 then Some([])
    else match (LayersDataAsWritten(layers[..|layers| - 1], fields), SerializeLayerAsWritten(layers[|layers| - 1], fields))
      case (Some(ds), Some(d)) => Some(ds + [d])
      case _ => None
  }

  /** The export as written rejects every project with a layer of the store,
      and succeeds only on an empty layer list. */
  lemma {:induction false} ExportAsWrittenRejectsLayers(layers: seq<ImageLayer>)
    ensures LayersDataAsWritten(layers, StoreLayerFields).Some? <==> |layers| == 0
    decreases |layers|
  {
    if |layers| > 0 {
      assert "origin" !in StoreLayerFields;
      assert SerializeLayerAsWritten(layers[|layers| - 1], StoreLayerFields).None?;
    }
  }

  /** Were the transform fields present, the export as written would save the
      layers that SerializeLayer describes, one for one. */
  lemma {:induction false} ExportWithTransformFields(layers: seq<ImageLayer>, fields: set<string>)
    requires "origin" in fields && "scale" in fields
    ensures LayersDataAsWritten(layers, fields) == Some(LayersData(layers))
    decreases |layers|
  {
    if |layers| > 0 {
      ExportWithTransformFields(layers[..|layers| - 1], fields);
    }
  }

  // ---------------------------------------------------------------------------
  // Export

  /** The archive name of the `i`-th collected image. */
  function AssetName(i: nat): string
  {
    "asset_" + ToRadix(i, 10) + ".dat"
  }

  /** Different indices give different names, and no asset name is empty, is
      `project.json` or ends with `.json` (so a load never skips an asset). */
  lemma AssetNamesDistinct(i: nat, j: nat)
    ensures AssetName(i) != "" && !EndsWith(AssetName(i), ".json") && AssetName(i) != ProjectJson
    ensures i != j ==> AssetName(i) != AssetName(j)
  {
    var a := AssetName(i);
    assert a[|a| - 1] == 't';
    if i != j {
      var b := AssetName(j);
      ToRadixInjective(i, j, 10);
      assert a[6..|a| - 4] == ToRadix(i, 10);
      assert b[6..|b| - 4] == ToRadix(j, 10);
    }
  }

  ghost predicate IsAssetName(f: string)
  {
    exists i: nat :: f == AssetName(i)
  }

  predicate Distinct<T(==)>(s: seq<T>)
  {
    forall i, j :: 0 <= i < j < |s| ==> s[i] != s[j]
  }

  /** A URL that is collected: a blob URL of a layer, or of a material not named
      `defaultMask-…`. */
  predicate Collectable(layers: seq<ImageLayer>, materials: Entries<string, Material>, u: string)
    reads layers
  {
    IsBlobUrl(u)
    && ((exists j :: 0 <= j < |layers| && layers[j].url == u)
        || (exists j :: 0 <= j < |materials| && !StartsWith(materials[j].0, DefaultMaskPrefix) && materials[j].1.url == u))
  }

  /** The `imageUrls` set, as its insertion-ordered sequence: layer blob URLs, then
      non-default material blob URLs, each once. */
  method CollectBlobUrls(layers: seq<ImageLayer>, materials: Entries<string, Material>) returns (urls: seq<string>)
    ensures Distinct(urls)
    ensures forall u :: u in urls <==> Collectable(layers, materials, u)
  {
    urls := [];
    for j := 0 to |layers|
      invariant Distinct(urls)
      invariant forall u :: u in urls <==> IsBlobUrl(u) && exists k :: 0 <= k < j && layers[k].url == u
    {
      var url := layers[j].url;
      if IsBlobUrl(url) && url !in urls {
        urls := urls + [url];
      }
    }
    for j := 0 to |materials|
      invariant Distinct(urls)
      invariant forall u :: u in urls <==>
        IsBlobUrl(u) && ((exists k :: 0 <= k < |layers| && layers[k].url == u)
                         || (exists k :: 0 <= k < j && !StartsWith(materials[k].0, DefaultMaskPrefix) && materials[k].1.url == u))
    {
      var (name, m) := materials[j];
      if !StartsWith(name, DefaultMaskPrefix) && IsBlobUrl(m.url) && m.url !in urls {
        urls := urls + [m.url];
      }
    }
  }

  /** `urlToFilename`: the `i`-th collected URL is named `asset_<i>.dat`. */
  method AssignFilenames(urls: seq<string>) returns (names: map<string, string>)
    requires Distinct(urls)
    ensures forall u :: u in names <==> u in urls
    ensures forall i :: 0 <= i < |urls| ==> names[urls[i]] == AssetName(i)
  {
    names := map[];
    var fileIndex := 0;
    while fileIndex < |urls|
      invariant 0 <= fileIndex <= |urls|
      invariant forall u :: u in names <==> u in urls[..fileIndex]
      invariant forall i :: 0 <= i < fileIndex ==> names[urls[i]] == AssetName(i)
    {
      assert urls[..fileIndex + 1] == urls[..fileIndex] + [urls[fileIndex]];
      names := names[urls[fileIndex] := AssetName(fileIndex)];
      fileIndex := fileIndex + 1;
    }
    assert urls[..|urls|] == urls;
  }

  /** Distinct URLs get distinct names, each an asset name. */
  lemma FilenamesDistinct(urls: seq<string>, names: map<string, string>)
    requires forall u :: u in names <==> u in urls
    requires forall i :: 0 <= i < |urls| ==> names[urls[i]] == AssetName(i)
    ensures forall u, v :: u in names && v in names && u != v ==> names[u] != names[v]
    ensures forall u :: u in names ==> IsAssetName(names[u])
  {
    forall u, v | u in names && v in names && u != v
      ensures names[u] != names[v]
    {
      var i :| 0 <= i < |urls| && urls[i] == u;
      var j :| 0 <= j < |urls| && urls[j] == v;
      AssetNamesDistinct(i, j);
    }
    forall u | u in names
      ensures IsAssetName(names[u])
    {
      var i :| 0 <= i < |urls| && urls[i] == u;
      assert names[u] == AssetName(i);
    }
  }

  /** `map.get(url)`, used only when it is a non-empty string. */
  function Rewrite(m: map<string, string>, url: string): string
  {
    if url in m && m[url] != "" then m[url] else url
  }

  function RewrittenLayers(ls: seq<LayerData>, m: map<string, string>): (r: seq<LayerData>)
    ensures |r| == |ls| && forall i :: 0 <= i < |ls| ==> r[i] == ls[i].(url := Rewrite(m, ls[i].url))
  {
    seq(|ls|, i requires 0 <= i < |ls| => ls[i].(url := Rewrite(m, ls[i].url)))
  }

  function RewrittenMaterials(ms: map<string, MaterialData>, m: map<string, string>): (r: map<string, MaterialData>)
    ensures r.Keys == ms.Keys && forall k :: k in ms ==> r[k] == ms[k].(url := Rewrite(m, ms[k].url))
  {
    map k | k in ms :: ms[k].(url := Rewrite(m, ms[k].url))
  }

  /** The loop over `projectData.layers` that replaces mapped URLs in place. */
  method RewriteLayerUrls(ls: seq<LayerData>, m: map<string, string>) returns (r: seq<LayerData>)
    ensures r == RewrittenLayers(ls, m)
  {
    r := ls;
    for i := 0 to |r|
      invariant |r| == |ls|
      invariant forall j :: 0 <= j < i ==> r[j] == ls[j].(url := Rewrite(m, ls[j].url))
      invariant forall j :: i <= j < |r| ==> r[j] == ls[j]
    {
      var filename := if r[i].url in m then m[r[i].url] else "";
      if filename != "" {
        r := r[i := r[i].(url := filename)];
      }
    }
  }

  /** The loop over `Object.values(projectData.materials)` that replaces mapped URLs. */
  method RewriteMaterialUrls(ms: map<string, MaterialData>, m: map<string, string>) returns (r: map<string, MaterialData>)
    ensures r == RewrittenMaterials(ms, m)
  {
    r := ms;
    var todo := ms.Keys;
    while todo != {}
      invariant todo <= ms.Keys && r.Keys == ms.Keys
      invariant forall k :: k in ms && k !in todo ==> r[k] == ms[k].(url := Rewrite(m, ms[k].url))
      invariant forall k :: k in todo ==> r[k] == ms[k]
      decreases todo
    {
      var k :| k in todo;
      var filename := if r[k].url in m then m[r[k].url] else "";
      if filename != "" {
        r := r[k := r[k].(url := filename)];
      }
      todo := todo - {k};
    }
  }

  /** The saved layers, before their URLs are replaced. */
  function LayersData(layers: seq<ImageLayer>): (ds: seq<LayerData>)
    reads layers, set l, e | l in layers && e in l.effects :: e
    ensures |ds| == |layers| && forall i :: 0 <= i < |layers| ==> ds[i] == SerializeLayer(layers[i])
    decreases |layers|
  {
    if |layers| == 0 then [] else LayersData(layers[..|layers| - 1]) + [SerializeLayer(layers[|layers| - 1])]
  }

  /** `exportProject` up to the archive: the project record with mapped URLs
      replaced by asset names, and the archive's entry names (`project.json`
      first, then one per collected URL). Fetching the images, building the
      zip and the download link are left out. */
  method ExportProject(layers: seq<ImageLayer>, materials: Entries<string, Material>, canvasWidth: int, canvasHeight: int,
                       projectName: string, timestamp: string)
    returns (data: ProjectData, assets: map<string, string>, entries: seq<string>)
    ensures forall u :: u in assets <==> Collectable(layers, materials, u)
    ensures forall u, v :: u in assets && v in assets && u != v ==> assets[u] != assets[v]
    ensures forall u :: u in assets ==> IsAssetName(assets[u]) && assets[u] in entries
    ensures |entries| >= 1 && entries[0] == ProjectJson
    ensures forall i :: 1 <= i < |entries| ==> entries[i] in assets.Values
    ensures data.version == ProjectVersion && data.name == projectName
    ensures data.canvas == CanvasData(canvasWidth, canvasHeight)
    ensures data.createdAt == timestamp && data.modifiedAt == timestamp
    ensures data.layers == RewrittenLayers(LayersData(layers), assets)
    ensures data.materials == RewrittenMaterials(MaterialsData(materials), assets)
  {
    var urls;
    urls, assets, entries := PackAssets(layers, materials);
    data := SaveProject(layers, materials, canvasWidth, canvasHeight, projectName, timestamp, assets);
  }

  /** Steps 1, 2 and the archive's entry names of `exportProject`. */
  method PackAssets(layers: seq<ImageLayer>, materials: Entries<string, Material>)
    returns (urls: seq<string>, assets: map<string, string>, entries: seq<string>)
    ensures forall u :: u in assets <==> Collectable(layers, materials, u)
    ensures forall u, v :: u in assets && v in assets && u != v ==> assets[u] != assets[v]
    ensures forall u :: u in assets ==> IsAssetName(assets[u]) && assets[u] in entries
    ensures |entries| >= 1 && entries[0] == ProjectJson
    ensures forall i :: 1 <= i < |entries| ==> entries[i] in assets.Values
  {
    urls, assets := NameAssets(layers, materials);
    entries := ArchiveEntries(urls, assets);
  }

  /** Step 3 of `exportProject`: the project record with mapped URLs replaced. */
  method SaveProject(layers: seq<ImageLayer>, materials: Entries<string, Material>, canvasWidth: int, canvasHeight: int,
                     projectName: string, timestamp: string, assets: map<string, string>)
    returns (data: ProjectData)
    ensures data.version == ProjectVersion && data.name == projectName
    ensures data.canvas == CanvasData(canvasWidth, canvasHeight)
    ensures data.createdAt == timestamp && data.modifiedAt == timestamp
    ensures data.layers == RewrittenLayers(LayersData(layers), assets)
    ensures data.materials == RewrittenMaterials(MaterialsData(materials), assets)
  {
    var layersData := SaveLayers(layers, assets);
    var savedMaterials := SaveMaterials(materials, assets);
    data := ProjectData(ProjectVersion, projectName, CanvasData(canvasWidth, canvasHeight), layersData, savedMaterials,
                        timestamp, timestamp);
  }

  /** Steps 1 and 2 of `exportProject`: the collected URLs and their asset names. */
  method NameAssets(layers: seq<ImageLayer>, materials: Entries<string, Material>)
    returns (urls: seq<string>, assets: map<string, string>)
    ensures forall u :: u in assets <==> u in urls
    ensures forall u :: u in assets <==> Collectable(layers, materials, u)
    ensures forall u, v :: u in assets && v in assets && u != v ==> assets[u] != assets[v]
    ensures forall u :: u in assets ==> IsAssetName(assets[u])
  {
    urls := CollectBlobUrls(layers, materials);
    assets := AssignFilenames(urls);
    FilenamesDistinct(urls, assets);
  }

  /** `layers.map(serializeLayer)`, then the URL replacement loop. */
  method SaveLayers(layers: seq<ImageLayer>, assets: map<string, string>) returns (r: seq<LayerData>)
    ensures r == RewrittenLayers(LayersData(layers), assets)
  {
    r := RewriteLayerUrls(LayersData(layers), assets);
  }

  /** `serializeMaterials`, then the URL replacement loop. */
  method SaveMaterials(materials: Entries<string, Material>, assets: map<string, string>)
    returns (r: map<string, MaterialData>)
    ensures r == RewrittenMaterials(MaterialsData(materials), assets)
  {
    var materialsData := SerializeMaterials(materials);
    r := RewriteMaterialUrls(materialsData, assets);
  }

  /** The archive's entry names: `project.json`, then each collected URL's asset. */
  method ArchiveEntries(urls: seq<string>, assets: map<string, string>) returns (entries: seq<string>)
    requires forall u :: u in assets <==> u in urls
    ensures forall u :: u in assets ==> assets[u] in entries
    ensures |entries| >= 1 && entries[0] == ProjectJson
    ensures forall i :: 1 <= i < |entries| ==> entries[i] in assets.Values
  {
    entries := [ProjectJson];
    for i := 0 to |urls|
      invariant |entries| == i + 1 && entries[0] == ProjectJson
      invariant forall j :: 0 <= j < i ==> entries[j + 1] == assets[urls[j]]
    {
      entries := entries + [assets[urls[i]]];
    }
    forall u | u in assets
      ensures assets[u] in entries
    {
      var i :| 0 <= i < |urls| && urls[i] == u;
      assert entries[i + 1] == assets[u];
    }
    forall i | 1 <= i < |entries|
      ensures entries[i] in assets.Values
    {
      assert urls[i - 1] in urls;
      assert urls[i - 1] in assets && assets[urls[i - 1]] == entries[i];
    }
  }

  // ---------------------------------------------------------------------------
  // Load

  /** An archive entry the load turns into an object URL. */
  predicate IsAssetEntry(name: string)
  {
    name != ProjectJson && !EndsWith(name, ".json")
  }

  /** `filenameToNewUrl`: each non-JSON entry maps to the object URL made for it. */
  function LoadedUrls(entries: seq<string>, objectUrlOf: string -> string): (m: map<string, string>)
    ensures forall f :: f in m <==> f in entries && IsAssetEntry(f)
    ensures forall f :: f in m ==> m[f] == objectUrlOf(f)
  {
    map f | f in entries && IsAssetEntry(f) :: objectUrlOf(f)
  }

  /** `loadFromFile`: `entries` are the archive's entry names, `parsed` is the
      record `project.json` parses to, and `objectUrlOf` stands for
      `URL.createObjectURL` on an entry's data. */
  method LoadFromFile(entries: seq<string>, parsed: ProjectData, objectUrlOf: string -> string)
    returns (r: Result<ProjectData, LoadError>)
    ensures ProjectJson !in entries ==> r == Err(MissingProjectJson)
    ensures ProjectJson in entries && !IsVersionCompatible(parsed.version) ==> r == Err(IncompatibleVersion(parsed.version))
    ensures ProjectJson in entries && IsVersionCompatible(parsed.version) ==>
      r == Ok(parsed.(layers := RewrittenLayers(parsed.layers, LoadedUrls(entries, objectUrlOf)),
                      materials := RewrittenMaterials(parsed.materials, LoadedUrls(entries, objectUrlOf))))
  {
    if ProjectJson !in entries {
      return Err(MissingProjectJson);
    }
    if !IsVersionCompatible(parsed.version) {
      return Err(IncompatibleVersion(parsed.version));
    }
    var newUrls: map<string, string> := map[];
    for i := 0 to |entries|
      invariant forall f :: f in newUrls <==> f in entries[..i] && IsAssetEntry(f)
      invariant forall f :: f in newUrls ==> newUrls[f] == objectUrlOf(f)
    {
      assert entries[..i + 1] == entries[..i] + [entries[i]];
      if IsAssetEntry(entries[i]) {
        newUrls := newUrls[entries[i] := objectUrlOf(entries[i])];
      }
    }
    assert entries[..|entries|] == entries;
    assert newUrls == LoadedUrls(entries, objectUrlOf);
    var layers := RewriteLayerUrls(parsed.layers, newUrls);
    var materials := RewriteMaterialUrls(parsed.materials, newUrls);
    r := Ok(parsed.(layers := layers, materials := materials));
  }

  // ---------------------------------------------------------------------------
  // Round trip

  /** Saving and loading a URL: a collected URL comes back as the object URL of
      its asset entry, any other URL comes back unchanged, provided the object
      URLs are non-empty and no uncollected URL is itself the name of an
      archive asset. */
  lemma UrlRoundTrip(assets: map<string, string>, entries: seq<string>, objectUrlOf: string -> string, url: string)
    requires forall u :: u in assets ==> IsAssetName(assets[u]) && assets[u] in entries
    requires forall f :: objectUrlOf(f) != ""
    requires url !in assets ==> url !in entries || !IsAssetEntry(url)
    ensures Rewrite(LoadedUrls(entries, objectUrlOf), Rewrite(assets, url)) ==
            if url in assets then objectUrlOf(assets[url]) else url
  {
    if url in assets {
      var i: nat :| assets[url] == AssetName(i);
      AssetNamesDistinct(i, i);
    }
  }

  /** Exporting and then loading the archive gives every layer and every saved
      material back its original URL, except that each collected blob URL is
      replaced by the fresh object URL of its asset, provided no saved URL that
      was not collected is itself an asset entry of the archive. */
  lemma {:induction false} ExportThenLoad(layers: seq<ImageLayer>, materials: Entries<string, Material>,
                                          data: ProjectData, assets: map<string, string>, entries: seq<string>,
                                          objectUrlOf: string -> string)
    requires forall u :: u in assets ==> IsAssetName(assets[u]) && assets[u] in entries
    requires forall f :: objectUrlOf(f) != ""
    requires forall i :: 0 <= i < |layers| && layers[i].url !in assets ==>
      !(layers[i].url in entries && IsAssetEntry(layers[i].url))
    requires forall k :: k in MaterialsData(materials) && MaterialsData(materials)[k].url !in assets ==>
      !(MaterialsData(materials)[k].url in entries && IsAssetEntry(MaterialsData(materials)[k].url))
    requires data.layers == RewrittenLayers(LayersData(layers), assets)
    requires data.materials == RewrittenMaterials(MaterialsData(materials), assets)
    ensures var loaded := LoadedUrls(entries, objectUrlOf);
            var back := RewrittenLayers(data.layers, loaded);
            |back| == |layers|
            && forall i :: 0 <= i < |layers| ==>
                 back[i].url == (if layers[i].url in assets then objectUrlOf(assets[layers[i].url]) else layers[i].url)
                 && back[i].(url := layers[i].url) == SerializeLayer(layers[i])
    ensures var loaded := LoadedUrls(entries, objectUrlOf);
            var back := RewrittenMaterials(data.materials, loaded);
            var saved := MaterialsData(materials);
            back.Keys == saved.Keys
            && forall k :: k in saved ==>
                 back[k].url == (if saved[k].url in assets then objectUrlOf(assets[saved[k].url]) else saved[k].url)
                 && back[k].(url := saved[k].url) == saved[k]
  {
    var loaded := LoadedUrls(entries, objectUrlOf);
    forall i | 0 <= i < |layers|
      ensures Rewrite(loaded, Rewrite(assets, layers[i].url)) ==
              if layers[i].url in assets then objectUrlOf(assets[layers[i].url]) else layers[i].url
    {
      UrlRoundTrip(assets, entries, objectUrlOf, layers[i].url);
    }
    var saved := MaterialsData(materials);
    forall k | k in saved
      ensures Rewrite(loaded, Rewrite(assets, saved[k].url)) ==
              if saved[k].url in assets then objectUrlOf(assets[saved[k].url]) else saved[k].url
    {
      UrlRoundTrip(assets, entries, objectUrlOf, saved[k].url);
    }
  }

  /** An uncollected URL that is spelled like an asset name (`asset_<n>.dat`) is
      rewritten by the load like the asset itself. */
  ghost predicate NoAssetLookalikes(layers: seq<ImageLayer>, materials: Entries<string, Material>,
                                    assets: map<string, string>)
    reads layers
  {
    && (forall i :: 0 <= i < |layers| && layers[i].url !in assets ==> !IsAssetName(layers[i].url))
    && (forall k :: k in MaterialsData(materials) && MaterialsData(materials)[k].url !in assets ==>
          !IsAssetName(MaterialsData(materials)[k].url))
  }

  /** The archive ExportProject describes meets ExportThenLoad's proviso as soon
      as no saved uncollected URL is spelled like an asset name; the load of that
      archive (LoadFromFile, with `project.json` present and the current,
      compatible version) then restores every layer and material as stated there. */
  lemma ExportedArchiveLoads(layers: seq<ImageLayer>, materials: Entries<string, Material>,
                             data: ProjectData, assets: map<string, string>, entries: seq<string>,
                             objectUrlOf: string -> string)
    requires forall u :: u in assets ==> IsAssetName(assets[u]) && assets[u] in entries
    requires |entries| >= 1 && entries[0] == ProjectJson
    requires forall i :: 1 <= i < |entries| ==> entries[i] in assets.Values
    requires data.version == ProjectVersion
    requires data.layers == RewrittenLayers(LayersData(layers), assets)
    requires data.materials == RewrittenMaterials(MaterialsData(materials), assets)
    requires forall f :: objectUrlOf(f) != ""
    requires NoAssetLookalikes(layers, materials, assets)
    ensures ProjectJson in entries && IsVersionCompatible(data.version)
    ensures var loaded := LoadedUrls(entries, objectUrlOf);
            var back := RewrittenLayers(data.layers, loaded);
            |back| == |layers|
            && forall i :: 0 <= i < |layers| ==>
                 back[i].url == (if layers[i].url in assets then objectUrlOf(assets[layers[i].url]) else layers[i].url)
                 && back[i].(url := layers[i].url) == SerializeLayer(layers[i])
    ensures var loaded := LoadedUrls(entries, objectUrlOf);
            var back := RewrittenMaterials(data.materials, loaded);
            var saved := MaterialsData(materials);
            back.Keys == saved.Keys
            && forall k :: k in saved ==>
                 back[k].url == (if saved[k].url in assets then objectUrlOf(assets[saved[k].url]) else saved[k].url)
                 && back[k].(url := saved[k].url) == saved[k]
  {
    CurrentVersionCompatible();
    forall u | u !in assets && u in entries && IsAssetEntry(u)
      ensures IsAssetName(u)
    {
      var i :| 0 <= i < |entries| && entries[i] == u;
      assert i != 0;
      assert u in assets.Values;
      var v :| v in assets && assets[v] == u;
    }
    ExportThenLoad(layers, materials, data, assets, entries, objectUrlOf);
  }
}
