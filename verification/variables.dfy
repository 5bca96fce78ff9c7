/** The variable-definition builder: four device-wide variables, then two per
    port-statistics entry, then two per PoE entry. */
module Variables {
  import opened Js
  import opened Surface
  import opened Switch

  /** The device-wide definitions, in the order they are pushed. */
  const Fixed: seq<VariableDefinition> := [
    VariableDefinition("Active Ports", "active_ports"),
    VariableDefinition("Memory Usage", "memory_usage"),
    VariableDefinition("CPU Usage", "cpu_usage"),
    VariableDefinition("Uptime", "uptime")
  ]

  /** The ids of the device-wide variables. */
  const DeviceIds: set<string> := {"active_ports", "memory_usage", "cpu_usage", "uptime"}

  function SpeedId(id: Json): string { "port_" + ToStr(id) + "_speed" }
  function VlansId(id: Json): string { "port_" + ToStr(id) + "_vlans" }
  function PoeStatusId(id: Json): string { "port_" + ToStr(id) + "_poe_status" }
  function PoeDrawId(id: Json): string { "port_" + ToStr(id) + "_poe_current_power" }

  /** The two definitions a port-statistics entry contributes, keyed by its `portId`. */
  function StatsPair(entry: JsObject): (defs: seq<VariableDefinition>)
    ensures |defs| == 2
  {
    var id := Field(entry, "portId");
    [VariableDefinition("Port " + ToStr(id) + " - Speed", SpeedId(id)),
     VariableDefinition("Port " + ToStr(id) + " - VLANS", VlansId(id))]
  }

  /** The two definitions a PoE entry contributes, keyed by its `portid`. */
  function PoePair(entry: JsObject): (defs: seq<VariableDefinition>)
    ensures |defs| == 2
  {
    var id := Field(entry, "portid");
    [VariableDefinition("Port " + ToStr(id) + " - POE Status", PoeStatusId(id)),
     VariableDefinition("Port " + ToStr(id) + " - POE Draw", PoeDrawId(id))]
  }

  /** The ids of `StatsPair(entry)`. */
  function StatsIds(entry: JsObject): (ids: set<string>)
    ensures ids == DefinedIds(StatsPair(entry))
  {
    {SpeedId(Field(entry, "portId")), VlansId(Field(entry, "portId"))}
  }

  /** The ids of `PoePair(entry)`. */
  function PoeIds(entry: JsObject): (ids: set<string>)
    ensures ids == DefinedIds(PoePair(entry))
  {
    {PoeStatusId(Field(entry, "portid")), PoeDrawId(Field(entry, "portid"))}
  }

  /** What `entries.forEach((port) => push(...pair(port)))` appends. */
  function PerEntry(entries: seq<JsObject>, pair: JsObject -> seq<VariableDefinition>): seq<VariableDefinition>
    decreases |entries|
  {
    if entries == [] then []
    else PerEntry(entries[..|entries| - 1], pair) + pair(entries[|entries| - 1])
  }

  /** The entries of a collection; an unset one (`None`) has none. */
  function Entries(collection: Option<seq<JsObject>>): seq<JsObject> {
    if collection.Some? then collection.value else []
  }

  /** The stats entries; an unset snapshot has none. */
  function StatsEntries(portStats: Option<PortStatsMap>): seq<JsObject> {
    if portStats.Some? then portStats.value.All() else []
  }

  /** The whole list: an unset collection contributes nothing. */
  function DefinitionList(portStats: Option<PortStatsMap>, poeStatus: Option<seq<JsObject>>): seq<VariableDefinition> {
    Fixed + PerEntry(StatsEntries(portStats), StatsPair) + PerEntry(Entries(poeStatus), PoePair)
  }

  /** One `forEach` of the builder: push the pair of every entry in order. */
  method PushEach(variables: seq<VariableDefinition>, all: seq<JsObject>, pair: JsObject -> seq<VariableDefinition>)
    returns (pushed: seq<VariableDefinition>)
    ensures pushed == variables + PerEntry(all, pair)
  {
    pushed := variables;
    var i := 0;
    assert all[..0] == [];
    while i < |all|
      invariant 0 <= i <= |all|
      invariant pushed == variables + PerEntry(all[..i], pair)
    {
      assert all[..i + 1][..i] == all[..i];
      pushed := pushed + pair(all[i]);
      i := i + 1;
    }
    assert all[..i] == all;
  }

  /** The builder, `variables.push` by `variables.push`. */
  method BuildDefinitions(portStats: Option<PortStatsMap>, poeStatus: Option<seq<JsObject>>) returns (variables: seq<VariableDefinition>)
    ensures variables == DefinitionList(portStats, poeStatus)
  {
    variables := Fixed;
    if portStats.Some? {
      variables := PushEach(variables, portStats.value.All(), StatsPair);
    } else {
      assert PerEntry(StatsEntries(portStats), StatsPair) == [];
    }
    if poeStatus.Some? {
      variables := PushEach(variables, poeStatus.value, PoePair);
    } else {
      assert PerEntry(Entries(poeStatus), PoePair) == [];
    }
  }

  /** A `forEach` that pushes two definitions per entry pushes `2 * |entries|`. */
  lemma {:induction false} PerEntryLength(entries: seq<JsObject>, pair: JsObject -> seq<VariableDefinition>)
    requires forall e :: |pair(e)| == 2
    ensures |PerEntry(entries, pair)| == 2 * |entries|
    decreases |entries|
  {
    if entries != [] {
      PerEntryLength(entries[..|entries| - 1], pair);
    }
  }

  /** Entry `i` contributes the definitions at `2i` and `2i + 1`. */
  lemma {:induction false} PerEntryAt(entries: seq<JsObject>, pair: JsObject -> seq<VariableDefinition>, i: nat)
    requires forall e :: |pair(e)| == 2
    requires i < |entries|
    ensures |PerEntry(entries, pair)| == 2 * |entries|
    ensures PerEntry(entries, pair)[2 * i] == pair(entries[i])[0]
    ensures PerEntry(entries, pair)[2 * i + 1] == pair(entries[i])[1]
    decreases |entries|
  {
    var init := entries[..|entries| - 1];
    PerEntryLength(entries, pair);
    PerEntryLength(init, pair);
    if i < |init| {
      PerEntryAt(init, pair, i);
      assert init[i] == entries[i];
    }
  }

  /** The layout of the list: the four device-wide definitions in order, then
      for each stats entry its speed definition immediately followed by its
      VLAN definition, then for each PoE entry its status definition
      immediately followed by its draw definition. */
  lemma DefinitionLayout(portStats: Option<PortStatsMap>, poeStatus: Option<seq<JsObject>>)
    ensures var list := DefinitionList(portStats, poeStatus);
      var stats := StatsEntries(portStats);
      var poe := Entries(poeStatus);
      && |Fixed| == 4
      && |list| == |Fixed| + 2 * |stats| + 2 * |poe|
      && list[..|Fixed|] == Fixed
      && (forall i | 0 <= i < |stats| ::
            && list[|Fixed| + 2 * i] == StatsPair(stats[i])[0]
            && list[|Fixed| + 2 * i + 1] == StatsPair(stats[i])[1])
      && (forall j | 0 <= j < |poe| ::
            && list[|Fixed| + 2 * |stats| + 2 * j] == PoePair(poe[j])[0]
            && list[|Fixed| + 2 * |stats| + 2 * j + 1] == PoePair(poe[j])[1])
  {
    SectionsLayout(Fixed, StatsEntries(portStats), StatsPair, Entries(poeStatus), PoePair);
  }

  /** The layout of a fixed prefix followed by two `forEach` sections. */
  lemma SectionsLayout(fixed: seq<VariableDefinition>,
                       stats: seq<JsObject>, statsPair: JsObject -> seq<VariableDefinition>,
                       poe: seq<JsObject>, poePair: JsObject -> seq<VariableDefinition>)
    requires forall e :: |statsPair(e)| == 2
    requires forall e :: |poePair(e)| == 2
    ensures var list := fixed + PerEntry(stats, statsPair) + PerEntry(poe, poePair);
      && |list| == |fixed| + 2 * |stats| + 2 * |poe|
      && list[..|fixed|] == fixed
      && (forall i | 0 <= i < |stats| ::
            && list[|fixed| + 2 * i] == statsPair(stats[i])[0]
            && list[|fixed| + 2 * i + 1] == statsPair(stats[i])[1])
      && (forall j | 0 <= j < |poe| ::
            && list[|fixed| + 2 * |stats| + 2 * j] == poePair(poe[j])[0]
            && list[|fixed| + 2 * |stats| + 2 * j + 1] == poePair(poe[j])[1])
  {
    var head := PerEntry(stats, statsPair);
    var tail := PerEntry(poe, poePair);
    var list := fixed + head + tail;
    PerEntryLength(stats, statsPair);
    PerEntryLength(poe, poePair);
    PrefixOf(fixed, head, tail);
    forall i | 0 <= i < |stats|
      ensures list[|fixed| + 2 * i] == statsPair(stats[i])[0]
      ensures list[|fixed| + 2 * i + 1] == statsPair(stats[i])[1]
    {
      SectionAt(fixed, stats, statsPair, i);
      IndexBefore(fixed + head, tail, |fixed| + 2 * i);
      IndexBefore(fixed + head, tail, |fixed| + 2 * i + 1);
    }
    forall j | 0 <= j < |poe|
      ensures list[|fixed| + 2 * |stats| + 2 * j] == poePair(poe[j])[0]
      ensures list[|fixed| + 2 * |stats| + 2 * j + 1] == poePair(poe[j])[1]
    {
      SectionAt(fixed + head, poe, poePair, j);
    }
  }

  /** Proof steps about concatenation, stated once to keep the layout
      proofs small. */
  lemma PrefixOf(a: seq<VariableDefinition>, b: seq<VariableDefinition>, c: seq<VariableDefinition>)
    ensures (a + b + c)[..|a|] == a
  {
  }

  lemma IndexBefore(a: seq<VariableDefinition>, b: seq<VariableDefinition>, k: nat)
    requires k < |a|
    ensures (a + b)[k] == a[k]
  {
  }

  /** Entry `i` of a section that follows `before` sits at `|before| + 2i`. */
  lemma SectionAt(before: seq<VariableDefinition>, entries: seq<JsObject>, pair: JsObject -> seq<VariableDefinition>, i: nat)
    requires forall e :: |pair(e)| == 2
    requires i < |entries|
    ensures |PerEntry(entries, pair)| == 2 * |entries|
    ensures (before + PerEntry(entries, pair))[|before| + 2 * i] == pair(entries[i])[0]
    ensures (before + PerEntry(entries, pair))[|before| + 2 * i + 1] == pair(entries[i])[1]
  {
    PerEntryAt(entries, pair, i);
  }

  /** The ids of a list of definitions. */
  function DefinedIds(list: seq<VariableDefinition>): set<string> {
    set d | d in list :: d.variableId
  }

  /** The ids of every entry, entry by entry. */
  function KeysOf(entries: seq<JsObject>, ids: JsObject -> set<string>): set<string>
    decreases |entries|
  {
    if entries == [] then {}
    else KeysOf(entries[..|entries| - 1], ids) + ids(entries[|entries| - 1])
  }

  lemma DefinedIdsConcat(a: seq<VariableDefinition>, b: seq<VariableDefinition>)
    ensures DefinedIds(a + b) == DefinedIds(a) + DefinedIds(b)
  {
    forall x | x in DefinedIds(a + b)
      ensures x in DefinedIds(a) + DefinedIds(b)
    {
      var d :| d in a + b && d.variableId == x;
    }
  }

  /** The ids a `forEach` defines are the ids of its entries. */
  lemma {:induction false} PerEntryIds(entries: seq<JsObject>, pair: JsObject -> seq<VariableDefinition>, ids: JsObject -> set<string>)
    requires forall e :: ids(e) == DefinedIds(pair(e))
    ensures DefinedIds(PerEntry(entries, pair)) == KeysOf(entries, ids)
    decreases |entries|
  {
    if entries != [] {
      var init := entries[..|entries| - 1];
      PerEntryIds(init, pair, ids);
      DefinedIdsConcat(PerEntry(init, pair), pair(entries[|entries| - 1]));
    }
  }

  /** The set of ids the list defines: the device-wide ones, the two of every
      stats entry and the two of every PoE entry. */
  lemma DefinitionIds(portStats: Option<PortStatsMap>, poeStatus: Option<seq<JsObject>>)
    ensures DefinedIds(DefinitionList(portStats, poeStatus))
         == DeviceIds + KeysOf(StatsEntries(portStats), StatsIds) + KeysOf(Entries(poeStatus), PoeIds)
  {
    var head := PerEntry(StatsEntries(portStats), StatsPair);
    var tail := PerEntry(Entries(poeStatus), PoePair);
    PerEntryIds(StatsEntries(portStats), StatsPair, StatsIds);
    PerEntryIds(Entries(poeStatus), PoePair, PoeIds);
    DefinedIdsConcat(Fixed, head);
    DefinedIdsConcat(Fixed + head, tail);
    FixedIds();
  }

  lemma FixedIds()
    ensures DefinedIds(Fixed) == DeviceIds
  {
    assert Fixed[0] in Fixed && Fixed[1] in Fixed && Fixed[2] in Fixed && Fixed[3] in Fixed;
  }
}
