/** The effect catalogue: one entry per effect with its id, its display label
    and the Chinese names by which a saved project may refer to it; the reverse
    map from those names to ids, and the two lookups. */
module EffectCatalog {
  import opened Common

  datatype EffectConfig = EffectConfig(id: string, caption: string, chineseLabels: seq<string>)

  const Configs: seq<EffectConfig> := [
    EffectConfig("cursor-ripple", "光标波纹", ["光标波纹", "光标涟漪"]),
    EffectConfig("water-ripple", "水波纹", ["水波纹"]),
    EffectConfig("reflection", "反射", ["反射"]),
    EffectConfig("refraction", "折射", ["折射"]),
    EffectConfig("cloud-motion", "云朵移动", ["云朵移动", "云动"]),
    EffectConfig("depthparallax", "深度视差", ["深度视差"]),
    EffectConfig("iris-movement", "虹膜移动", ["虹膜移动", "眼球移动"]),
    EffectConfig("shake", "摇动", ["摇动"]),
    EffectConfig("tint", "染色", ["染色", "着色"]),
    EffectConfig("scroll", "滚动", ["滚动"]),
    EffectConfig("waterwaves", "波浪", ["波浪", "水波"]),
    EffectConfig("water-flow", "水流", ["水流"])
  ]

  // ---------------------------------------------------------------------------
  // The reverse map

  /** The reduce callback's inner loop: each of `labels`, in order, is mapped to `id`. */
  function AddLabels(acc: map<string, string>, labels: seq<string>, id: string): (r: map<string, string>)
    ensures forall l :: l in r <==> l in acc || l in labels
    ensures forall l :: l in r ==> r[l] == if l in labels then id else acc[l]
    decreases |labels|
  {
    if |labels| == 0 then acc
    else AddLabels(acc, labels[..|labels| - 1], id)[labels[|labels| - 1] := id]
  }

  /** The reduce over the first configurations: a later entry's names overwrite
      an earlier entry's. */
  function LabelMap(cs: seq<EffectConfig>): map<string, string>
    decreases |cs|
  {
    if |cs| == 0 then map[]
    else AddLabels(LabelMap(cs[..|cs| - 1]), cs[|cs| - 1].chineseLabels, cs[|cs| - 1].id)
  }

  /** No Chinese name belongs to two entries. */
  predicate LabelsDisjoint(cs: seq<EffectConfig>)
  {
    forall i, j, l :: 0 <= i < j < |cs| && l in cs[i].chineseLabels ==> l !in cs[j].chineseLabels
  }

  predicate IdsDistinct(cs: seq<EffectConfig>)
  {
    forall i, j :: 0 <= i < j < |cs| ==> cs[i].id != cs[j].id
  }

  /** The map's keys are exactly the entries' Chinese names. */
  lemma {:induction false} LabelMapKeys(cs: seq<EffectConfig>)
    ensures forall l :: l in LabelMap(cs) <==> exists i :: 0 <= i < |cs| && l in cs[i].chineseLabels
    decreases |cs|
  {
    if |cs| > 0 {
      var init := cs[..|cs| - 1];
      LabelMapKeys(init);
      assert forall i :: 0 <= i < |init| ==> init[i] == cs[i];
    }
  }

  /** When no name belongs to two entries, every name maps to its own entry's id:
      the fold never overwrites a key. */
  lemma {:induction false} LabelMapValues(cs: seq<EffectConfig>)
    requires LabelsDisjoint(cs)
    ensures forall i, l :: 0 <= i < |cs| && l in cs[i].chineseLabels ==> l in LabelMap(cs) && LabelMap(cs)[l] == cs[i].id
    decreases |cs|
  {
    if |cs| > 0 {
      var init := cs[..|cs| - 1];
      assert forall i :: 0 <= i < |init| ==> init[i] == cs[i];
      LabelMapValues(init);
      LabelMapKeys(init);
    }
  }

  /** The reduce written as its two loops: over the entries, then over each
      entry's names. */
  method BuildLabelToId(cs: seq<EffectConfig>) returns (acc: map<string, string>)
    ensures acc == LabelMap(cs)
  {
    acc := map[];
    for i := 0 to |cs|
      invariant acc == LabelMap(cs[..i])
    {
      var effect := cs[i];
      ghost var before := acc;
      for k := 0 to |effect.chineseLabels|
        invariant acc == AddLabels(before, effect.chineseLabels[..k], effect.id)
      {
        assert effect.chineseLabels[..k + 1][..k] == effect.chineseLabels[..k];
        acc := acc[effect.chineseLabels[k] := effect.id];
      }
      assert effect.chineseLabels[..|effect.chineseLabels|] == effect.chineseLabels;
      assert cs[..i + 1][..i] == cs[..i];
    }
    assert cs[..|cs|] == cs;
  }

  /** `CHINESE_LABEL_TO_ID`: its keys are exactly the listed Chinese names (the
      values are stated by ChineseLabelToIdSpec). */
  function ChineseLabelToId(): (m: map<string, string>)
    ensures forall l :: l in m <==> exists i :: 0 <= i < |Configs| && l in Configs[i].chineseLabels
  {
    LabelMapKeys(Configs);
    LabelMap(Configs)
  }

  // ---------------------------------------------------------------------------
  // Lookups

  /** `find` by id over a list of configurations: the first entry with that id. */
  function FindConfig(cs: seq<EffectConfig>, id: string): (r: Option<EffectConfig>)
    ensures r.None? <==> forall i :: 0 <= i < |cs| ==> cs[i].id != id
    ensures r.Some? ==> exists i :: 0 <= i < |cs| && cs[i] == r.value && r.value.id == id
                                    && forall j :: 0 <= j < i ==> cs[j].id != id
    decreases |cs|
  {
    if |cs| == 0 then None
    else if cs[0].id == id then Some(cs[0])
    else
      var r := FindConfig(cs[1..], id);
      assert forall i :: 0 <= i < |cs| - 1 ==> cs[1..][i] == cs[i + 1];
      r
  }

  /** `getEffectConfig`: an entry with the id, or nothing when no entry has it. */
  function GetEffectConfig(id: string): (r: Option<EffectConfig>)
    ensures r.None? <==> forall i :: 0 <= i < |Configs| ==> Configs[i].id != id
    ensures r.Some? ==> r.value in Configs && r.value.id == id
  {
    FindConfig(Configs, id)
  }

  /** `getEffectIdByChineseLabel`: the id of the entry listing the name, or
      nothing when no entry lists it. */
  function GetEffectIdByChineseLabel(name: string): (r: Option<string>)
    ensures r.None? <==> forall i :: 0 <= i < |Configs| ==> name !in Configs[i].chineseLabels
    ensures forall i :: 0 <= i < |Configs| && name in Configs[i].chineseLabels ==> r == Some(Configs[i].id)
  {
    ChineseLabelToIdSpec();
    if name in ChineseLabelToId() then Some(ChineseLabelToId()[name]) else None
  }

  // ---------------------------------------------------------------------------
  // Properties of the table

  /** The twelve ids are pairwise distinct. */
  lemma CatalogIdsDistinct()
    ensures |Configs| == 12 && IdsDistinct(Configs)
  {
  }

  /** Every entry's label is one of its own Chinese names. */
  lemma CaptionsAmongOwnLabels()
    ensures forall i :: 0 <= i < |Configs| ==> Configs[i].caption in Configs[i].chineseLabels
  {
  }

  /** The entry a catalogued Chinese name belongs to, read off its first and
      last characters; -1 for a name the catalogue does not list that way. */
  function EntryOf(s: string): int
  {
    if |s| < 2 then -1
    else
      var (first, last) := (s[0], s[|s| - 1]);
      if first == '光' then 0
      else if first == '水' then (if last == '纹' then 1 else if last == '波' then 10 else if last == '流' then 11 else -1)
      else if first == '反' then 2
      else if first == '折' then 3
      else if first == '云' then 4
      else if first == '深' then 5
      else if first == '虹' || first == '眼' then 6
      else if first == '摇' then 7
      else if first == '染' || first == '着' then 8
      else if first == '滚' then 9
      else if first == '波' then 10
      else -1
  }

  /** Each listed name's first and last characters point at its own entry. */
  lemma EntryOfLabels()
    ensures forall i, l :: 0 <= i < |Configs| && l in Configs[i].chineseLabels ==> EntryOf(l) == i
  {
    forall i, l | 0 <= i < |Configs| && l in Configs[i].chineseLabels
      ensures EntryOf(l) == i
    {
      var k :| 0 <= k < |Configs[i].chineseLabels| && Configs[i].chineseLabels[k] == l;
    }
  }

  /** Names that each point at their own entry are never listed twice. */
  lemma DisjointByEntry(cs: seq<EffectConfig>)
    requires forall i, l :: 0 <= i < |cs| && l in cs[i].chineseLabels ==> EntryOf(l) == i
    ensures LabelsDisjoint(cs)
  {
    forall i, j, l | 0 <= i < j < |cs| && l in cs[i].chineseLabels
      ensures l !in cs[j].chineseLabels
    {
      assert EntryOf(l) == i;
    }
  }

  /** No Chinese name is listed under two entries. */
  lemma CatalogLabelsDisjoint()
    ensures LabelsDisjoint(Configs)
  {
    EntryOfLabels();
    DisjointByEntry(Configs);
  }

  /** The reverse map holds exactly the listed Chinese names, each mapped to its
      entry's id. */
  lemma ChineseLabelToIdSpec()
    ensures forall l :: l in ChineseLabelToId() <==> exists i :: 0 <= i < |Configs| && l in Configs[i].chineseLabels
    ensures forall i, l :: 0 <= i < |Configs| && l in Configs[i].chineseLabels ==> ChineseLabelToId()[l] == Configs[i].id
  {
    LabelMapKeys(Configs);
    CatalogLabelsDisjoint();
    LabelMapValues(Configs);
  }

  /** `getEffectConfig` finds each entry by its own id, and nothing for an id no
      entry has. */
  lemma GetEffectConfigSpec(id: string)
    ensures forall i :: 0 <= i < |Configs| ==> GetEffectConfig(Configs[i].id) == Some(Configs[i])
    ensures GetEffectConfig(id).None? <==> forall i :: 0 <= i < |Configs| ==> Configs[i].id != id
  {
    CatalogIdsDistinct();
    FoundByOwnId(Configs);
  }

  /** In a table with distinct ids, `find` returns each entry for its own id. */
  lemma FoundByOwnId(cs: seq<EffectConfig>)
    requires IdsDistinct(cs)
    ensures forall i :: 0 <= i < |cs| ==> FindConfig(cs, cs[i].id) == Some(cs[i])
  {
    forall i | 0 <= i < |cs|
      ensures FindConfig(cs, cs[i].id) == Some(cs[i])
    {
      var j :| 0 <= j < |cs| && cs[j] == FindConfig(cs, cs[i].id).value && cs[j].id == cs[i].id
                && forall k :: 0 <= k < j ==> cs[k].id != cs[i].id;
      assert j == i;
    }
  }

  /** The label of the entry found for an id leads back to that id. */
  lemma LabelRoundTrip(id: string)
    ensures GetEffectConfig(id).Some? ==> GetEffectIdByChineseLabel(GetEffectConfig(id).value.caption) == Some(id)
  {
    CaptionsAmongOwnLabels();
    CatalogLabelsDisjoint();
    FoundLabelLeadsBack(Configs, id);
  }

  /** In any table whose labels are among their own names and whose names are
      never listed twice, the label of the entry found for an id maps back to it. */
  lemma FoundLabelLeadsBack(cs: seq<EffectConfig>, id: string)
    requires LabelsDisjoint(cs)
    requires forall i :: 0 <= i < |cs| ==> cs[i].caption in cs[i].chineseLabels
    ensures FindConfig(cs, id).Some? ==>
              FindConfig(cs, id).value.caption in LabelMap(cs) && LabelMap(cs)[FindConfig(cs, id).value.caption] == id
  {
    var c := FindConfig(cs, id);
    if c.Some? {
      var i :| 0 <= i < |cs| && cs[i] == c.value && c.value.id == id;
      LabelMapValues(cs);
      assert c.value.caption in cs[i].chineseLabels;
    }
  }

  /** Every entry's label leads back to the entry's id. */
  lemma CaptionRoundTrip(i: nat)
    requires i < |Configs|
    ensures GetEffectIdByChineseLabel(Configs[i].caption) == Some(Configs[i].id)
  {
    CaptionsAmongOwnLabels();
    ChineseLabelToIdSpec();
  }

  lemma FoundById(i: nat)
    requires i < |Configs|
    ensures GetEffectConfig(Configs[i].id) == Some(Configs[i])
  {
    GetEffectConfigSpec("");
  }

  /** Every id an effect factory sets is catalogued. */
  lemma FactoryIdsCatalogued()
    ensures GetEffectConfig("cloud-motion") == Some(Configs[4]) && GetEffectConfig("reflection") == Some(Configs[2])
    ensures GetEffectConfig("refraction") == Some(Configs[3]) && GetEffectConfig("scroll") == Some(Configs[9])
    ensures GetEffectConfig("shake") == Some(Configs[7]) && GetEffectConfig("tint") == Some(Configs[8])
    ensures GetEffectConfig("waterwaves") == Some(Configs[10])
  {
    FoundById(4);
    FoundById(2);
    FoundById(3);
    FoundById(9);
    FoundById(7);
    FoundById(8);
    FoundById(10);
  }

  /** The captions the effect factories set lead to the ids of those effects. */
  lemma FactoryCaptionsResolve()
    ensures GetEffectIdByChineseLabel("云朵移动") == Some("cloud-motion")
    ensures GetEffectIdByChineseLabel("光标波纹") == Some("cursor-ripple")
    ensures GetEffectIdByChineseLabel("深度视差") == Some("depthparallax")
    ensures GetEffectIdByChineseLabel("反射") == Some("reflection")
    ensures GetEffectIdByChineseLabel("折射") == Some("refraction")
    ensures GetEffectIdByChineseLabel("滚动") == Some("scroll")
    ensures GetEffectIdByChineseLabel("摇动") == Some("shake")
    ensures GetEffectIdByChineseLabel("染色") == Some("tint")
    ensures GetEffectIdByChineseLabel("水流") == Some("water-flow")
  {
    var cs := Configs;
    assert "云朵移动" in cs[4].chineseLabels && cs[4].id == "cloud-motion";
    assert "光标波纹" in cs[0].chineseLabels && cs[0].id == "cursor-ripple";
    assert "深度视差" in cs[5].chineseLabels && cs[5].id == "depthparallax";
    assert "反射" in cs[2].chineseLabels && cs[2].id == "reflection";
    assert "折射" in cs[3].chineseLabels && cs[3].id == "refraction";
    assert "滚动" in cs[9].chineseLabels && cs[9].id == "scroll";
    assert "摇动" in cs[7].chineseLabels && cs[7].id == "shake";
    assert "染色" in cs[8].chineseLabels && cs[8].id == "tint";
    assert "水流" in cs[11].chineseLabels && cs[11].id == "water-flow";
  }

  /** The water-waves factory's caption "水波浪" is none of the catalogued names,
      so it leads to no id, while the entry's own label "波浪" does. */
  lemma WaterWavesCaptionUnlisted()
    ensures GetEffectIdByChineseLabel("水波浪") == None
    ensures GetEffectIdByChineseLabel("波浪") == Some("waterwaves")
  {
    ChineseLabelToIdSpec();
    EntryOfLabels();
    assert EntryOf("水波浪") == -1;
    CaptionRoundTrip(10);
  }
}
