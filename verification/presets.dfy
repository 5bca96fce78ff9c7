/** The preset builder: one `poe_<portid>` button per PoE entry and one
    `link_<portId>` button per stats entry, filled key by key into one map. */
module Presets {
  import opened Js
  import opened Surface
  import opened Switch
  import Actions
  import Feedbacks

  /** The PoE button of an entry: pressing it toggles PoE on the entry's
      `portid`, and it lights up from the `poeEnabled` feedback on that port. */
  function PoePreset(entry: JsObject): Preset {
    var id := Field(entry, "portid");
    Preset("POE", "POE Port " + ToStr(id), "POE\\nPort " + ToStr(id),
      [Step([ActionRef("setPoeEnabled", map["enabled" := Str("toggle"), "port" := id])], [])],
      [FeedbackRef("poeEnabled", map["port" := id])])
  }

  /** The link button of an entry: no action, the `linkStatus` feedback on the
      entry's `portId`. */
  function LinkPreset(entry: JsObject): Preset {
    var id := Field(entry, "portId");
    Preset("Link Status", "Link Status Port " + ToStr(id), "Link\\nPort " + ToStr(id),
      [Step([], [])],
      [FeedbackRef("linkStatus", map["port" := id])])
  }

  function PoeKey(entry: JsObject): string { "poe_" + ToStr(Field(entry, "portid")) }

  function LinkKey(entry: JsObject): string { "link_" + ToStr(Field(entry, "portId")) }

  /** `entries.forEach((port) => { presets[key(port)] = preset(port) })`
      applied to `presets`: later entries overwrite earlier ones with the same key. */
  function Fill(presets: map<string, Preset>, entries: seq<JsObject>, key: JsObject -> string, preset: JsObject -> Preset): map<string, Preset>
    decreases |entries|
  {
    if entries == [] then presets
    else
      var last := entries[|entries| - 1];
      Fill(presets, entries[..|entries| - 1], key, preset)[key(last) := preset(last)]
  }

  /** The whole map, from the PoE entries and the stats entries. */
  function PresetMap(poe: seq<JsObject>, stats: seq<JsObject>): map<string, Preset> {
    Fill(Fill(map[], poe, PoeKey, PoePreset), stats, LinkKey, LinkPreset)
  }

  /** One `forEach` of the builder. */
  method FillEach(presets: map<string, Preset>, all: seq<JsObject>, key: JsObject -> string, preset: JsObject -> Preset)
    returns (filled: map<string, Preset>)
    ensures filled == Fill(presets, all, key, preset)
  {
    filled := presets;
    var i := 0;
    assert all[..0] == [];
    while i < |all|
      invariant 0 <= i <= |all|
      invariant filled == Fill(presets, all[..i], key, preset)
    {
      assert all[..i + 1][..i] == all[..i];
      filled := filled[key(all[i]) := preset(all[i])];
      i := i + 1;
    }
    assert all[..i] == all;
  }

  /** The builder: reading `all()` of a snapshot that was never fetched throws. */
  method BuildPresets(poeStatus: Option<seq<JsObject>>, portStats: Option<PortStatsMap>) returns (r: Result<map<string, Preset>, Error>)
    ensures poeStatus.None? || portStats.None? <==> r.Err?
    ensures r.Err? ==> r.error == TypeError
    ensures r.Ok? ==> r.value == PresetMap(poeStatus.value, portStats.value.All())
  {
    var presets: map<string, Preset> := map[];
    if poeStatus.None? {
      return Err(TypeError);
    }
    presets := FillEach(presets, poeStatus.value, PoeKey, PoePreset);
    if portStats.None? {
      return Err(TypeError);
    }
    presets := FillEach(presets, portStats.value.All(), LinkKey, LinkPreset);
    r := Ok(presets);
  }

  /** The keys of the entries. */
  function KeySet(entries: seq<JsObject>, key: JsObject -> string): set<string> {
    set i | 0 <= i < |entries| :: key(entries[i])
  }

  /** Filling adds exactly one key per entry (duplicates collapse). */
  lemma {:induction false} FillKeys(presets: map<string, Preset>, entries: seq<JsObject>, key: JsObject -> string, preset: JsObject -> Preset)
    ensures Fill(presets, entries, key, preset).Keys == presets.Keys + KeySet(entries, key)
    decreases |entries|
  {
    if entries != [] {
      var init := entries[..|entries| - 1];
      FillKeys(presets, init, key, preset);
      assert KeySet(entries, key) == KeySet(init, key) + {key(entries[|entries| - 1])} by {
        assert forall i | 0 <= i < |init| :: init[i] == entries[i];
      }
    }
  }

  /** The value under a key is the preset of the LAST entry with that key;
      a key no entry has keeps its earlier value. */
  lemma {:induction false} FillLastWins(presets: map<string, Preset>, entries: seq<JsObject>, key: JsObject -> string,
                                        preset: JsObject -> Preset, j: nat)
    requires j < |entries|
    requires forall l | j < l < |entries| :: key(entries[l]) != key(entries[j])
    ensures var filled := Fill(presets, entries, key, preset);
      key(entries[j]) in filled && filled[key(entries[j])] == preset(entries[j])
    decreases |entries|
  {
    var init := entries[..|entries| - 1];
    if j < |init| {
      FillLastWins(presets, init, key, preset, j);
      assert init[j] == entries[j];
      assert forall l | j < l < |init| :: init[l] == entries[l];
    }
  }

  /** A key no entry has keeps its earlier value. */
  lemma {:induction false} FillKeepsOthers(presets: map<string, Preset>, entries: seq<JsObject>, key: JsObject -> string,
                                           preset: JsObject -> Preset, k: string)
    requires k in presets && k !in KeySet(entries, key)
    ensures var filled := Fill(presets, entries, key, preset);
      k in filled && filled[k] == presets[k]
    decreases |entries|
  {
    if entries != [] {
      var init := entries[..|entries| - 1];
      assert forall i | 0 <= i < |init| :: init[i] == entries[i];
      assert k != key(entries[|entries| - 1]);
      assert k !in KeySet(init, key);
      FillKeepsOthers(presets, init, key, preset, k);
    }
  }

  /** The two key families never collide: `poe_…` and `link_…` differ in their first letter. */
  lemma KeysDisjoint(poe: seq<JsObject>, stats: seq<JsObject>)
    ensures KeySet(poe, PoeKey) !! KeySet(stats, LinkKey)
  {
    forall i, j | 0 <= i < |poe| && 0 <= j < |stats|
      ensures PoeKey(poe[i]) != LinkKey(stats[j])
    {
      assert PoeKey(poe[i])[0] == 'p';
      assert LinkKey(stats[j])[0] == 'l';
    }
  }

  /** The map holds exactly one key per PoE entry and one per stats entry;
      each PoE key holds the PoE button of the last entry with that key and
      each link key the link button of the last entry with that key. */
  lemma PresetMapContents(poe: seq<JsObject>, stats: seq<JsObject>)
    ensures PresetMap(poe, stats).Keys == KeySet(poe, PoeKey) + KeySet(stats, LinkKey)
    ensures forall j | 0 <= j < |poe| && (forall l | j < l < |poe| :: PoeKey(poe[l]) != PoeKey(poe[j])) ::
              PresetMap(poe, stats)[PoeKey(poe[j])] == PoePreset(poe[j])
    ensures forall j | 0 <= j < |stats| && (forall l | j < l < |stats| :: LinkKey(stats[l]) != LinkKey(stats[j])) ::
              PresetMap(poe, stats)[LinkKey(stats[j])] == LinkPreset(stats[j])
  {
    var first := Fill(map[], poe, PoeKey, PoePreset);
    FillKeys(map[], poe, PoeKey, PoePreset);
    FillKeys(first, stats, LinkKey, LinkPreset);
    KeysDisjoint(poe, stats);
    forall j | 0 <= j < |poe| && (forall l | j < l < |poe| :: PoeKey(poe[l]) != PoeKey(poe[j]))
      ensures PresetMap(poe, stats)[PoeKey(poe[j])] == PoePreset(poe[j])
    {
      FillLastWins(map[], poe, PoeKey, PoePreset, j);
      FillKeepsOthers(first, stats, LinkKey, LinkPreset, PoeKey(poe[j]));
    }
    forall j | 0 <= j < |stats| && (forall l | j < l < |stats| :: LinkKey(stats[l]) != LinkKey(stats[j]))
      ensures PresetMap(poe, stats)[LinkKey(stats[j])] == LinkPreset(stats[j])
    {
      FillLastWins(first, stats, LinkKey, LinkPreset, j);
    }
  }

  /** Every action and feedback a preset names is one the module defines. */
  predicate References(p: Preset) {
    && (forall s, a | s in p.steps && a in s.down + s.up :: a.actionId in Actions.ActionDefinitions())
    && (forall f | f in p.feedbacks :: f.feedbackId in Feedbacks.FeedbackDefinitions())
  }

  lemma {:induction false} FillKeepsReferences(presets: map<string, Preset>, entries: seq<JsObject>, key: JsObject -> string, preset: JsObject -> Preset)
    requires forall k | k in presets :: References(presets[k])
    requires forall e :: References(preset(e))
    ensures forall k | k in Fill(presets, entries, key, preset) :: References(Fill(presets, entries, key, preset)[k])
    decreases |entries|
  {
    if entries != [] {
      FillKeepsReferences(presets, entries[..|entries| - 1], key, preset);
    }
  }

  /** Every `actionId` and `feedbackId` in the map is defined by the action
      and feedback tables. */
  lemma PresetsReferenceDefinitions(poe: seq<JsObject>, stats: seq<JsObject>)
    ensures forall k | k in PresetMap(poe, stats) :: References(PresetMap(poe, stats)[k])
  {
    forall e ensures References(PoePreset(e)) && References(LinkPreset(e)) {
      var p := PoePreset(e);
      assert p.steps[0].down + p.steps[0].up == [ActionRef("setPoeEnabled", map["enabled" := Str("toggle"), "port" := Field(e, "portid")])];
      assert LinkPreset(e).steps[0].down + LinkPreset(e).steps[0].up == [];
    }
    FillKeepsReferences(map[], poe, PoeKey, PoePreset);
    FillKeepsReferences(Fill(map[], poe, PoeKey, PoePreset), stats, LinkKey, LinkPreset);
  }

  /** Pressing a PoE button makes the action callback toggle exactly the
      button's port, releasing it does nothing, and its one feedback asks
      `poeEnabled` about the same port. */
  lemma PoePresetTogglesItsPort(entry: JsObject)
    ensures var p := PoePreset(entry);
      var id := Field(entry, "portid");
      && p.category == "POE"
      && |p.steps| == 1 && |p.steps[0].down| == 1 && p.steps[0].up == []
      && Actions.Callback(p.steps[0].down[0].actionId, p.steps[0].down[0].options) == Some(Actions.TogglePoe([id]))
      && |p.feedbacks| == 1 && p.feedbacks[0].feedbackId == "poeEnabled"
      && Field(p.feedbacks[0].options, "port") == id
  {
  }

  /** A link button sends nothing and its one feedback asks `linkStatus`
      about the button's port. */
  lemma LinkPresetWatchesItsPort(entry: JsObject)
    ensures var p := LinkPreset(entry);
      var id := Field(entry, "portId");
      && p.category == "Link Status"
      && |p.steps| == 1 && p.steps[0].down == [] && p.steps[0].up == []
      && |p.feedbacks| == 1 && p.feedbacks[0].feedbackId == "linkStatus"
      && Field(p.feedbacks[0].options, "port") == id
  {
  }
}
