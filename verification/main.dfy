/** The module instance: configuration, the poll tick that refreshes the
    switch snapshot, the re-login rule, and the variable values it publishes. */
module Main {
  import opened Js
  import opened Surface
  import opened Switch
  import Actions
  import Feedbacks
  import Variables
  import Presets

  // ---------------------------------------------------------------------------
  // The status table and the published values
  // ---------------------------------------------------------------------------

  /** `CONSTANTS.poeStatusLevels`: PoE status codes, written as strings, to names. */
  const PoeStatusLevels: map<string, string> := map[
    "-1" := "Invalid",
    "0" := "Disabled",
    "1" := "Searching",
    "2" := "Delivering Power",
    "3" := "Test",
    "4" := "Fault",
    "5" := "Other Fault",
    "6" := "Requesting Power * `7` = Overload"
  ]

  /** `CONSTANTS.poeStatusLevels[`${status}`]`: a code the table lacks reads as `undefined`. */
  function PoeStatusName(status: Json): Json {
    var key := ToStr(status);
    if key in PoeStatusLevels then Str(PoeStatusLevels[key]) else Undefined
  }

  /** A numeric status has a name exactly when it is one of -1..6; in particular
      code 7 (overload) is published as `undefined`. */
  lemma PoeStatusCodes(n: int)
    ensures PoeStatusName(Num(n)).Str? <==> -1 <= n <= 6
    ensures PoeStatusName(Num(n)).Undefined? <==> !(-1 <= n <= 6)
  {
    forall d: nat | d <= 6
      ensures IntToDecimal(n) == [Digit(d)] <==> n == d
      ensures IntToDecimal(n) == ['-', Digit(d)] <==> (n + d == 0 && d != 0)
    {
      IntToDecimalDigit(n, d);
    }
    assert PoeStatusLevels.Keys == {['-', Digit(1)], [Digit(0)], [Digit(1)], [Digit(2)], [Digit(3)], [Digit(4)], [Digit(5)], [Digit(6)]};
  }

  /** The four device-wide values. */
  function DeviceValues(device: JsObject): (m: map<string, VariableValue>)
    ensures m.Keys == Variables.DeviceIds
  {
    map[
      "active_ports" := Plain(Field(device, "numOfActivePorts")),
      "cpu_usage" := Plain(Field(device, "cpuUsage")),
      "memory_usage" := Plain(Field(device, "memoryUsage")),
      "uptime" := Plain(Field(device, "upTime"))
    ]
  }

  /** The two values a PoE entry publishes, keyed by its `portid`: the status
      name and the drawn power. */
  function PoeValues(entry: JsObject): map<string, VariableValue> {
    var id := Field(entry, "portid");
    map[
      Variables.PoeStatusId(id) := Plain(PoeStatusName(Field(entry, "status"))),
      Variables.PoeDrawId(id) := Watts(Field(entry, "currentPower"))
    ]
  }

  /** A lookup in a speed-name table; a speed the table lacks reads as `undefined`. */
  function SpeedName(table: map<string, Json>, speed: Json): Json {
    if ToStr(speed) in table then table[ToStr(speed)] else Undefined
  }

  /** The two values a stats entry publishes, keyed by its `portId`. */
  function StatsValues(table: map<string, Json>, entry: JsObject): map<string, VariableValue> {
    var id := Field(entry, "portId");
    map[
      Variables.SpeedId(id) := Plain(SpeedName(table, Field(entry, "speed"))),
      Variables.VlansId(id) := Plain(Field(entry, "vlans"))
    ]
  }

  function TableOf(table: Option<map<string, Json>>): map<string, Json> {
    if table.Some? then table.value else map[]
  }

  function SpeedPut(table: Option<map<string, Json>>): JsObject -> map<string, VariableValue> {
    e => StatsValues(TableOf(table), e)
  }

  /** `for (const port of entries) { changedVars[…] = …; changedVars[…] = … }`
      applied to `vars`: later entries overwrite earlier keys. */
  function PutEach(vars: map<string, VariableValue>, entries: seq<JsObject>, put: JsObject -> map<string, VariableValue>): map<string, VariableValue>
    decreases |entries|
  {
    if entries == [] then vars
    else PutEach(vars, entries[..|entries| - 1], put) + put(entries[|entries| - 1])
  }

  /** The map `updateVariables` hands to `setVariableValues`, or the error it
      throws. `table` is the speed-name table: `None` is the source as written,
      where `CONSTANTS.speedStatusLevels` does not exist and indexing it throws
      on the first stats entry. */
  function Published(device: Option<JsObject>, poe: Option<seq<JsObject>>, stats: Option<PortStatsMap>,
                     table: Option<map<string, Json>>): (r: Result<map<string, VariableValue>, Error>)
    ensures r.Ok? <==> device.Some? && poe.Some? && stats.Some? && (table.Some? || stats.value.All() == [])
    ensures r.Err? ==> r.error == TypeError
  {
    if device.None? || poe.None? || stats.None? || (table.None? && stats.value.All() != []) then Err(TypeError)
    else Ok(PutEach(PutEach(DeviceValues(device.value), poe.value, PoeValues), stats.value.All(), SpeedPut(table)))
  }

  /** Two assignments into a map are one merge of a two-key map. A proof
      step: stating it once keeps each caller's proof small. */
  lemma TwoAssignments(m: map<string, VariableValue>, k1: string, v1: VariableValue, k2: string, v2: VariableValue)
    ensures m[k1 := v1][k2 := v2] == m + map[k1 := v1, k2 := v2]
  {
  }

  // ---------------------------------------------------------------------------
  // Facts about the published map
  // ---------------------------------------------------------------------------

  lemma {:induction false} PutEachKeys(vars: map<string, VariableValue>, entries: seq<JsObject>,
                                       put: JsObject -> map<string, VariableValue>, ids: JsObject -> set<string>)
    requires forall e :: put(e).Keys == ids(e)
    ensures PutEach(vars, entries, put).Keys == vars.Keys + Variables.KeysOf(entries, ids)
    decreases |entries|
  {
    if entries != [] {
      PutEachKeys(vars, entries[..|entries| - 1], put, ids);
    }
  }

  /** A key keeps the value the last entry that publishes it gave it. */
  lemma {:induction false} PutEachLastWins(vars: map<string, VariableValue>, entries: seq<JsObject>,
                                           put: JsObject -> map<string, VariableValue>, j: nat, k: string)
    requires j < |entries| && k in put(entries[j])
    requires forall l | j < l < |entries| :: k !in put(entries[l])
    ensures k in PutEach(vars, entries, put) && PutEach(vars, entries, put)[k] == put(entries[j])[k]
    decreases |entries|
  {
    var init := entries[..|entries| - 1];
    if j < |init| {
      assert forall l | j < l < |init| :: init[l] == entries[l];
      assert init[j] == entries[j];
      PutEachLastWins(vars, init, put, j, k);
    }
  }

  /** A key no entry publishes keeps its earlier value. */
  lemma {:induction false} PutEachKeepsOthers(vars: map<string, VariableValue>, entries: seq<JsObject>,
                                              put: JsObject -> map<string, VariableValue>, k: string)
    requires k in vars
    requires forall l | 0 <= l < |entries| :: k !in put(entries[l])
    ensures k in PutEach(vars, entries, put) && PutEach(vars, entries, put)[k] == vars[k]
    decreases |entries|
  {
    if entries != [] {
      var init := entries[..|entries| - 1];
      assert forall l | 0 <= l < |init| :: init[l] == entries[l];
      PutEachKeepsOthers(vars, init, put, k);
    }
  }

  /** Strings whose last two characters differ are different. */
  lemma SuffixesDiffer(a: string, s: string, b: string, t: string)
    requires |s| >= 2 && |t| >= 2
    requires s[|s| - 2] != t[|t| - 2] || s[|s| - 1] != t[|t| - 1]
    ensures a + s != b + t
  {
    assert (a + s)[|a + s| - 1] == s[|s| - 1] && (a + s)[|a + s| - 2] == s[|s| - 2];
    assert (b + t)[|b + t| - 1] == t[|t| - 1] && (b + t)[|b + t| - 2] == t[|t| - 2];
  }

  /** A per-port key names its port: equal keys with the same suffix have equal id strings. */
  lemma SamePortKey(x: string, y: string, s: string)
    requires "port_" + x + s == "port_" + y + s
    ensures x == y
  {
    var k := "port_" + x + s;
    assert |x| == |y|;
    forall i | 0 <= i < |x|
      ensures x[i] == y[i]
    {
      assert x[i] == k[5 + i];
      assert y[i] == ("port_" + y + s)[5 + i];
    }
  }

  /** Per-port keys start with `p`, so they never overwrite a device-wide key. */
  lemma PortKeyIsNotDeviceKey(x: string, s: string)
    ensures "port_" + x + s !in Variables.DeviceIds
  {
    assert ("port_" + x + s)[0] == 'p';
  }

  /** The keys of one snapshot are exactly the ids the variable definitions
      of that same snapshot declare, once a speed table exists (the corrected
      lookup): every published value has a definition and every definition a value. */
  lemma PublishedKeysDefined(device: JsObject, poe: seq<JsObject>, stats: PortStatsMap, table: map<string, Json>)
    ensures Published(Some(device), Some(poe), Some(stats), Some(table)).Ok?
    ensures Published(Some(device), Some(poe), Some(stats), Some(table)).value.Keys
         == Variables.DefinedIds(Variables.DefinitionList(Some(stats), Some(poe)))
  {
    var first := PutEach(DeviceValues(device), poe, PoeValues);
    ValueKeys(table);
    PutEachKeys(DeviceValues(device), poe, PoeValues, Variables.PoeIds);
    PutEachKeys(first, stats.All(), SpeedPut(Some(table)), Variables.StatsIds);
    Variables.DefinitionIds(Some(stats), Some(poe));
  }

  /** Each entry publishes exactly the ids it defines. */
  lemma ValueKeys(table: map<string, Json>)
    ensures forall e :: PoeValues(e).Keys == Variables.PoeIds(e)
    ensures forall e :: SpeedPut(Some(table))(e).Keys == Variables.StatsIds(e)
  {
  }

  /** As written, with no speed table, `updateVariables` throws as soon as the
      switch reports one port-statistics entry, so nothing is published; it
      publishes only while the stats list is empty. */
  lemma SpeedTableMissing(device: JsObject, poe: seq<JsObject>, stats: PortStatsMap)
    ensures Published(Some(device), Some(poe), Some(stats), None).Ok? <==> stats.All() == []
    ensures stats.All() != [] ==> Published(Some(device), Some(poe), Some(stats), None) == Err(TypeError)
  {
  }

  /** The device-wide values are the device object's fields. */
  lemma PublishedDeviceValues(device: JsObject, poe: seq<JsObject>, stats: PortStatsMap, table: map<string, Json>)
    ensures var p := Published(Some(device), Some(poe), Some(stats), Some(table)).value;
      && "active_ports" in p && p["active_ports"] == Plain(Field(device, "numOfActivePorts"))
      && "cpu_usage" in p && p["cpu_usage"] == Plain(Field(device, "cpuUsage"))
      && "memory_usage" in p && p["memory_usage"] == Plain(Field(device, "memoryUsage"))
      && "uptime" in p && p["uptime"] == Plain(Field(device, "upTime"))
  {
    var first := PutEach(DeviceValues(device), poe, PoeValues);
    forall k | k in Variables.DeviceIds
      ensures k in first && first[k] == DeviceValues(device)[k]
      ensures k in PutEach(first, stats.All(), SpeedPut(Some(table)))
      ensures PutEach(first, stats.All(), SpeedPut(Some(table)))[k] == DeviceValues(device)[k]
    {
      forall l | 0 <= l < |poe|
        ensures k !in PoeValues(poe[l])
      {
        var x := ToStr(Field(poe[l], "portid"));
        PortKeyIsNotDeviceKey(x, "_poe_status");
        PortKeyIsNotDeviceKey(x, "_poe_current_power");
      }
      PutEachKeepsOthers(DeviceValues(device), poe, PoeValues, k);
      forall l | 0 <= l < |stats.All()|
        ensures k !in SpeedPut(Some(table))(stats.All()[l])
      {
        var x := ToStr(Field(stats.All()[l], "portId"));
        PortKeyIsNotDeviceKey(x, "_speed");
        PortKeyIsNotDeviceKey(x, "_vlans");
      }
      PutEachKeepsOthers(first, stats.All(), SpeedPut(Some(table)), k);
    }
  }

  /** The two keys of one entry differ, so each holds its own value. */
  lemma EntryValues(table: map<string, Json>, e: JsObject)
    ensures var id := Field(e, "portid");
      && PoeValues(e)[Variables.PoeStatusId(id)] == Plain(PoeStatusName(Field(e, "status")))
      && PoeValues(e)[Variables.PoeDrawId(id)] == Watts(Field(e, "currentPower"))
    ensures var id := Field(e, "portId");
      && SpeedPut(Some(table))(e)[Variables.SpeedId(id)] == Plain(SpeedName(table, Field(e, "speed")))
      && SpeedPut(Some(table))(e)[Variables.VlansId(id)] == Plain(Field(e, "vlans"))
  {
    SuffixesDiffer("port_" + ToStr(Field(e, "portid")), "_poe_status", "port_" + ToStr(Field(e, "portid")), "_poe_current_power");
    SuffixesDiffer("port_" + ToStr(Field(e, "portId")), "_speed", "port_" + ToStr(Field(e, "portId")), "_vlans");
  }

  /** PoE entries with different id strings publish different keys. */
  lemma PoeKeysApart(e: JsObject, f: JsObject)
    requires ToStr(Field(e, "portid")) != ToStr(Field(f, "portid"))
    ensures PoeValues(e).Keys !! PoeValues(f).Keys
  {
    var x, y := ToStr(Field(e, "portid")), ToStr(Field(f, "portid"));
    if "port_" + x + "_poe_status" == "port_" + y + "_poe_status" {
      SamePortKey(x, y, "_poe_status");
    }
    if "port_" + x + "_poe_current_power" == "port_" + y + "_poe_current_power" {
      SamePortKey(x, y, "_poe_current_power");
    }
    SuffixesDiffer("port_" + x, "_poe_status", "port_" + y, "_poe_current_power");
    SuffixesDiffer("port_" + x, "_poe_current_power", "port_" + y, "_poe_status");
  }

  /** Stats entries with different id strings publish different keys. */
  lemma StatsKeysApart(table: map<string, Json>, e: JsObject, f: JsObject)
    requires ToStr(Field(e, "portId")) != ToStr(Field(f, "portId"))
    ensures SpeedPut(Some(table))(e).Keys !! SpeedPut(Some(table))(f).Keys
  {
    var x, y := ToStr(Field(e, "portId")), ToStr(Field(f, "portId"));
    if "port_" + x + "_speed" == "port_" + y + "_speed" {
      SamePortKey(x, y, "_speed");
    }
    if "port_" + x + "_vlans" == "port_" + y + "_vlans" {
      SamePortKey(x, y, "_vlans");
    }
    SuffixesDiffer("port_" + x, "_speed", "port_" + y, "_vlans");
    SuffixesDiffer("port_" + x, "_vlans", "port_" + y, "_speed");
  }

  /** A PoE key is never a stats key, whatever the ids. */
  lemma PoeStatsKeysApart(table: map<string, Json>, e: JsObject, f: JsObject)
    ensures PoeValues(e).Keys !! SpeedPut(Some(table))(f).Keys
  {
    var x, y := ToStr(Field(e, "portid")), ToStr(Field(f, "portId"));
    SuffixesDiffer("port_" + x, "_poe_status", "port_" + y, "_speed");
    SuffixesDiffer("port_" + x, "_poe_status", "port_" + y, "_vlans");
    SuffixesDiffer("port_" + x, "_poe_current_power", "port_" + y, "_speed");
    SuffixesDiffer("port_" + x, "_poe_current_power", "port_" + y, "_vlans");
  }

  /** A PoE entry whose id no later entry repeats publishes its status name
      and its power draw; the stats entries never overwrite them. */
  lemma PublishedPoeEntry(device: JsObject, poe: seq<JsObject>, stats: PortStatsMap, table: map<string, Json>, j: nat)
    requires j < |poe|
    requires forall l | j < l < |poe| :: ToStr(Field(poe[l], "portid")) != ToStr(Field(poe[j], "portid"))
    ensures var p := Published(Some(device), Some(poe), Some(stats), Some(table)).value;
      var id := Field(poe[j], "portid");
      && Variables.PoeStatusId(id) in p && p[Variables.PoeStatusId(id)] == Plain(PoeStatusName(Field(poe[j], "status")))
      && Variables.PoeDrawId(id) in p && p[Variables.PoeDrawId(id)] == Watts(Field(poe[j], "currentPower"))
  {
    var first := PutEach(DeviceValues(device), poe, PoeValues);
    var put := SpeedPut(Some(table));
    var all := stats.All();
    EntryValues(table, poe[j]);
    forall k | k in PoeValues(poe[j])
      ensures k in PutEach(first, all, put) && PutEach(first, all, put)[k] == PoeValues(poe[j])[k]
    {
      forall l | j < l < |poe|
        ensures k !in PoeValues(poe[l])
      {
        PoeKeysApart(poe[l], poe[j]);
      }
      PutEachLastWins(DeviceValues(device), poe, PoeValues, j, k);
      forall l | 0 <= l < |all|
        ensures k !in put(all[l])
      {
        PoeStatsKeysApart(table, poe[j], all[l]);
      }
      PutEachKeepsOthers(first, all, put, k);
    }
  }

  /** A stats entry whose id no later entry repeats publishes its speed name
      from the table and its `vlans`. */
  lemma PublishedStatsEntry(device: JsObject, poe: seq<JsObject>, stats: PortStatsMap, table: map<string, Json>, j: nat)
    requires j < |stats.All()|
    requires forall l | j < l < |stats.All()| :: ToStr(Field(stats.All()[l], "portId")) != ToStr(Field(stats.All()[j], "portId"))
    ensures var p := Published(Some(device), Some(poe), Some(stats), Some(table)).value;
      var e := stats.All()[j];
      var id := Field(e, "portId");
      && Variables.SpeedId(id) in p && p[Variables.SpeedId(id)] == Plain(SpeedName(table, Field(e, "speed")))
      && Variables.VlansId(id) in p && p[Variables.VlansId(id)] == Plain(Field(e, "vlans"))
  {
    var all := stats.All();
    var first := PutEach(DeviceValues(device), poe, PoeValues);
    var put := SpeedPut(Some(table));
    EntryValues(table, all[j]);
    forall k | k in put(all[j])
      ensures k in PutEach(first, all, put) && PutEach(first, all, put)[k] == put(all[j])[k]
    {
      forall l | j < l < |all|
        ensures k !in put(all[l])
      {
        StatsKeysApart(table, all[l], all[j]);
      }
      PutEachLastWins(first, all, put, j, k);
    }
  }

  /** The PoE loop of `updateVariables`. */
  method FillPoeValues(changed: map<string, VariableValue>, poe: seq<JsObject>) returns (filled: map<string, VariableValue>)
    ensures filled == PutEach(changed, poe, PoeValues)
  {
    filled := changed;
    for i := 0 to |poe|
      invariant filled == PutEach(changed, poe[..i], PoeValues)
    {
      var port := poe[i];
      var id := Field(port, "portid");
      var before := filled;
      filled := filled[Variables.PoeStatusId(id) := Plain(PoeStatusName(Field(port, "status")))];
      filled := filled[Variables.PoeDrawId(id) := Watts(Field(port, "currentPower"))];
      TwoAssignments(before, Variables.PoeStatusId(id), Plain(PoeStatusName(Field(port, "status"))),
                     Variables.PoeDrawId(id), Watts(Field(port, "currentPower")));
      assert poe[..i + 1][..i] == poe[..i];
    }
    assert poe[..|poe|] == poe;
  }

  /** The stats loop of `updateVariables`. Without a speed table the lookup
      throws on the first entry. */
  method FillStatsValues(changed: map<string, VariableValue>, stats: seq<JsObject>, table: Option<map<string, Json>>)
    returns (r: Result<map<string, VariableValue>, Error>)
    ensures table.None? && stats != [] ==> r == Err(TypeError)
    ensures table.Some? || stats == [] ==> r == Ok(PutEach(changed, stats, SpeedPut(table)))
  {
    var filled := changed;
    for i := 0 to |stats|
      invariant table.Some? || i == 0
      invariant filled == PutEach(changed, stats[..i], SpeedPut(table))
    {
      if table.None? {
        // `CONSTANTS.speedStatusLevels` is undefined: indexing it throws
        return Err(TypeError);
      }
      var port := stats[i];
      var id := Field(port, "portId");
      var before := filled;
      filled := filled[Variables.SpeedId(id) := Plain(SpeedName(table.value, Field(port, "speed")))];
      filled := filled[Variables.VlansId(id) := Plain(Field(port, "vlans"))];
      TwoAssignments(before, Variables.SpeedId(id), Plain(SpeedName(table.value, Field(port, "speed"))),
                     Variables.VlansId(id), Plain(Field(port, "vlans")));
      assert stats[..i + 1][..i] == stats[..i];
    }
    assert stats[..|stats|] == stats;
    r := Ok(filled);
  }

  // ---------------------------------------------------------------------------
  // The re-login rule
  // ---------------------------------------------------------------------------

  /** `this.switch.loginExpiresAt && this.switch.loginExpiresAt < Date.now() - 3600`. */
  predicate ExpiryReloginDue(expiry: Expiry, now: int) {
    ExpiryTruthy(expiry) && expiry.ms < now - 3600
  }

  /** Both sides are milliseconds, so a login whose lifetime is `s` seconds is
      renewed by the expiry rule only once more than 3.6 seconds have passed
      since it expired, and never before it expires. */
  lemma ReloginOnlyAfterExpiry(loginAt: int, s: int, now: int)
    ensures ExpiryReloginDue(ExpiryAfter(loginAt, Some(s)), now)
        <==> loginAt + s * 1000 != 0 && now > loginAt + s * 1000 + 3600
    ensures !ExpiryReloginDue(ExpiryAfter(loginAt, None), now)
  {
  }

  // ---------------------------------------------------------------------------
  // The instance
  // ---------------------------------------------------------------------------

  /** `refreshHandle`: the pending `setTimeout` of the next tick, if any. */
  datatype Timer = NoTimer | Pending(delayMs: int)

  /** The events of one tick that fetched `poe`, `stats` and `device`: the
      feedbacks are re-checked first, then the values are published, unless
      filling them throws (as it does on any stats entry when there is no
      speed table). A tick with a failed fetch reports nothing. */
  function TickEvents(dev: Replies, table: Option<map<string, Json>>): (es: seq<Event>)
    ensures es != [] <==> dev.poeConfig.Some? && dev.portStats.Some? && dev.deviceInfo.Some?
    ensures es != [] ==> es[0] == FeedbacksChecked && |es| <= 2
    ensures |es| == 2 ==> es[1].VariableValuesSet?
    ensures table.None? && dev.portStats.Some? && dev.portStats.value != [] ==> |es| < 2
  {
    if dev.poeConfig.Some? && dev.portStats.Some? && dev.deviceInfo.Some? then
      var p := Published(Some(dev.deviceInfo.value), Some(dev.poeConfig.value), Some(PortStatsMap(dev.portStats.value)), table);
      [FeedbacksChecked] + (if p.Ok? then [VariableValuesSet(p.value)] else [])
    else []
  }

  /** The last setup call: the presets, or the status the `catch` sets when
      building them throws. */
  function PresetsEvent(poe: Option<seq<JsObject>>, stats: Option<PortStatsMap>): Event {
    if poe.Some? && stats.Some? then PresetDefinitionsSet(Presets.PresetMap(poe.value, stats.value.All()))
    else StatusUpdated(UnknownError, "Unable to log in")
  }

  /** Events appended one call at a time, regrouped. A proof step that
      keeps `ApplyConfig`'s proof small. */
  lemma Regrouped(before: seq<Event>, x: Event, y: Event, z: Event, t: seq<Event>, u: seq<Event>)
    ensures before + [x] + [y] + [z] + t + u == before + [x, y, z] + t + u
    ensures before + [x] + [y] + [z] == before + [x, y, z]
  {
  }

  class ModuleInstance {
    /** The speed-name table `port_<id>_speed` values are read from. The
        code as written indexes a table that does not exist, which is `None`;
        `Some` is the evidently intended table, whose contents are not part
        of the source. */
    const speedLevels: Option<map<string, Json>>
    var sw: NetgearM4250?
    /** `poe_status`, by the values of its entries: nothing writes to the
        fetched map after the tick stores it. */
    var poeStatus: Option<seq<JsObject>>
    var portStats: Option<PortStatsMap>
    var deviceStatus: Option<JsObject>
    var timer: Timer
    /** Every call made on the framework, in order. */
    var events: seq<Event>

    constructor (speedLevels: Option<map<string, Json>>)
      ensures this.speedLevels == speedLevels
      ensures sw == null && poeStatus == None && portStats == None && deviceStatus == None
      ensures timer == NoTimer && events == []
    {
      this.speedLevels := speedLevels;
      sw := null;
      poeStatus := None;
      portStats := None;
      deviceStatus := None;
      timer := NoTimer;
      events := [];
    }

    /** `stopPolling()`: cancels the pending tick. */
    method StopPolling()
      modifies this`timer
      ensures timer == NoTimer
    {
      timer := NoTimer;
    }

    /** `updateVariables()`: fills `changedVars` from the snapshot in three steps
        and publishes it with one `setVariableValues` call; any read of an
        unset snapshot, or of the missing speed table, throws instead. */
    method UpdateVariables(table: Option<map<string, Json>>) returns (r: Result<(), Error>)
      modifies this`events
      ensures var p := Published(deviceStatus, poeStatus, portStats, table);
        && (p.Ok? ==> r.Ok? && events == old(events) + [VariableValuesSet(p.value)])
        && (p.Err? ==> r == Err(p.error) && events == old(events))
    {
      if deviceStatus.None? {
        return Err(TypeError);
      }
      var device := deviceStatus.value;
      var changed: map<string, VariableValue> := map[];
      changed := changed["active_ports" := Plain(Field(device, "numOfActivePorts"))];
      changed := changed["cpu_usage" := Plain(Field(device, "cpuUsage"))];
      changed := changed["memory_usage" := Plain(Field(device, "memoryUsage"))];
      changed := changed["uptime" := Plain(Field(device, "upTime"))];
      assert changed == DeviceValues(device);

      if poeStatus.None? {
        return Err(TypeError);
      }
      changed := FillPoeValues(changed, poeStatus.value);
      if portStats.None? {
        return Err(TypeError);
      }
      var filled := FillStatsValues(changed, portStats.value.All(), table);
      if filled.Err? {
        return Err(filled.error);
      }
      changed := filled.value;
      events := events + [VariableValuesSet(changed)];
      r := Ok(());
    }

    /** `refreshLoginIfNeeded()`: logs in again when the expiry rule fires,
        then probes the token with `get_device_name()` and logs in again when
        the probe fails. A failing expiry-driven login ends the call before the
        probe. Every login answers with the same reply `dev.login`. */
    method RefreshLoginIfNeeded(dev: Replies, now: int) returns (logins: nat)
      requires sw != null
      modifies sw`token, sw`loginExpiresAt
      ensures logins <= 2
      ensures logins == 0 <==> !ExpiryReloginDue(old(sw.loginExpiresAt), now) && dev.deviceName.Some?
      ensures logins == 2 <==> ExpiryReloginDue(old(sw.loginExpiresAt), now) && LoginOutcome(dev.login).Ok? && dev.deviceName.None?
      ensures logins > 0 && LoginOutcome(dev.login).Ok? ==>
                && sw.token == Some(LoginOutcome(dev.login).value.token)
                && sw.loginExpiresAt == ExpiryAfter(now, LoginOutcome(dev.login).value.expireSeconds)
      ensures logins == 0 || LoginOutcome(dev.login).Err? ==>
                sw.token == old(sw.token) && sw.loginExpiresAt == old(sw.loginExpiresAt)
    {
      logins := 0;
      if ExpiryReloginDue(sw.loginExpiresAt, now) {
        var relogin := sw.Login(dev.login, now);
        logins := 1;
        if relogin.Err? {
          return;
        }
      }
      var probe := sw.GetDeviceName(dev);
      if probe.Err? {
        var _ := sw.Login(dev.login, now);
        logins := logins + 1;
      }
    }

    /** `refreshSwitchData()`, one tick: the login check, then the PoE map,
        the stats and the device status, each stored only once its own fetch
        succeeded and the first failure ending the fetches; only a tick whose
        three fetches succeeded re-checks the feedbacks and publishes values.
        Every tick ends by scheduling exactly one next tick, 1000 ms later. */
    method RefreshSwitchData(dev: Replies, now: int) returns (logins: nat)
      requires sw != null
      modifies this`poeStatus, this`portStats, this`deviceStatus, this`timer, this`events
      modifies sw`token, sw`loginExpiresAt
      ensures logins <= 2
      ensures logins == 0 <==> !ExpiryReloginDue(old(sw.loginExpiresAt), now) && dev.deviceName.Some?
      ensures logins == 2 <==> ExpiryReloginDue(old(sw.loginExpiresAt), now) && LoginOutcome(dev.login).Ok? && dev.deviceName.None?
      ensures logins > 0 && LoginOutcome(dev.login).Ok? ==>
                && sw.token == Some(LoginOutcome(dev.login).value.token)
                && sw.loginExpiresAt == ExpiryAfter(now, LoginOutcome(dev.login).value.expireSeconds)
      ensures logins == 0 || LoginOutcome(dev.login).Err? ==>
                sw.token == old(sw.token) && sw.loginExpiresAt == old(sw.loginExpiresAt)
      ensures dev.poeConfig.Some? ==> poeStatus == dev.poeConfig
      ensures dev.poeConfig.None? ==> poeStatus == old(poeStatus)
      ensures dev.poeConfig.Some? && dev.portStats.Some? ==> portStats == Some(PortStatsMap(dev.portStats.value))
      ensures dev.poeConfig.None? || dev.portStats.None? ==> portStats == old(portStats)
      ensures dev.poeConfig.Some? && dev.portStats.Some? && dev.deviceInfo.Some? ==> deviceStatus == dev.deviceInfo
      ensures dev.poeConfig.None? || dev.portStats.None? || dev.deviceInfo.None? ==> deviceStatus == old(deviceStatus)
      ensures events == old(events) + TickEvents(dev, speedLevels)
      ensures timer == Pending(1000)
    {
      logins := RefreshLoginIfNeeded(dev, now);
      Poll(dev);
      timer := Pending(1000);
    }

    /** The three fetches of a tick, each stored only when it succeeded and
        each run only when the one before it succeeded; after all three the
        feedbacks are re-checked and the variables republished. */
    method Poll(dev: Replies)
      requires sw != null
      modifies this`poeStatus, this`portStats, this`deviceStatus, this`events
      ensures dev.poeConfig.Some? ==> poeStatus == dev.poeConfig
      ensures dev.poeConfig.None? ==> poeStatus == old(poeStatus)
      ensures dev.poeConfig.Some? && dev.portStats.Some? ==> portStats == Some(PortStatsMap(dev.portStats.value))
      ensures dev.poeConfig.None? || dev.portStats.None? ==> portStats == old(portStats)
      ensures dev.poeConfig.Some? && dev.portStats.Some? && dev.deviceInfo.Some? ==> deviceStatus == dev.deviceInfo
      ensures dev.poeConfig.None? || dev.portStats.None? || dev.deviceInfo.None? ==> deviceStatus == old(deviceStatus)
      ensures events == old(events) + TickEvents(dev, speedLevels)
    {
      var poe := sw.GetPortPoeStatus(dev);
      if poe.Ok? {
        poeStatus := Some(poe.value.Values());
        var stats := sw.GetPortStats(dev);
        if stats.Ok? {
          portStats := Some(stats.value);
          var device := sw.GetDeviceStatus(dev);
          if device.Ok? {
            deviceStatus := Some(device.value);
            events := events + [FeedbacksChecked];
            var _ := UpdateVariables(speedLevels);
          }
        }
      }
    }

    /** `applyConfig(config)`: stops polling, builds a new client, logs in;
        on success runs one tick, reports `Connected` and sets up the actions,
        feedbacks, variables and presets. A failed login, or presets built
        from a snapshot that is still unset, ends in `Unable to log in`. */
    method ApplyConfig(host: string, user: string, password: string, dev: Replies, now: int)
      modifies this
      ensures sw != null && fresh(sw)
      ensures sw.host == host && sw.username == user && sw.password == password
      ensures sw.sent == []
      ensures LoginOutcome(dev.login).Err? ==> sw.token == None && sw.loginExpiresAt == Unset
      ensures LoginOutcome(dev.login).Err? ==>
                && timer == NoTimer
                && poeStatus == old(poeStatus) && portStats == old(portStats) && deviceStatus == old(deviceStatus)
                && events == old(events) + [StatusUpdated(Connecting, "Opening connection"),
                                            StatusUpdated(Connecting, "Logging in"),
                                            StatusUpdated(UnknownError, "Unable to log in")]
      ensures LoginOutcome(dev.login).Ok? ==>
                && sw.token == Some(LoginOutcome(dev.login).value.token)
                && sw.loginExpiresAt == ExpiryAfter(now, LoginOutcome(dev.login).value.expireSeconds)
                && poeStatus == (if dev.poeConfig.Some? then dev.poeConfig else old(poeStatus))
                && portStats == (if dev.poeConfig.Some? && dev.portStats.Some? then Some(PortStatsMap(dev.portStats.value))
                                 else old(portStats))
                && deviceStatus == (if dev.poeConfig.Some? && dev.portStats.Some? && dev.deviceInfo.Some? then dev.deviceInfo
                                    else old(deviceStatus))
                && timer == Pending(1000)
                && events == old(events) + [StatusUpdated(Connecting, "Opening connection"),
                                            StatusUpdated(Connecting, "Logging in"),
                                            StatusUpdated(Connecting, "Refreshing data")]
                                         + TickEvents(dev, speedLevels) + SetupEvents()
    {
      StopPolling();
      events := events + [StatusUpdated(Connecting, "Opening connection")];
      sw := new NetgearM4250(host, user, password);
      events := events + [StatusUpdated(Connecting, "Logging in")];
      var result := sw.Login(dev.login, now);
      if result.Err? {
        events := events + [StatusUpdated(UnknownError, "Unable to log in")];
        Regrouped(old(events), StatusUpdated(Connecting, "Opening connection"), StatusUpdated(Connecting, "Logging in"),
                  StatusUpdated(UnknownError, "Unable to log in"), [], []);
        return;
      }
      events := events + [StatusUpdated(Connecting, "Refreshing data")];
      if result.value {
        var _ := RefreshSwitchData(dev, now);
        SetUp();
        Regrouped(old(events), StatusUpdated(Connecting, "Opening connection"), StatusUpdated(Connecting, "Logging in"),
                  StatusUpdated(Connecting, "Refreshing data"), TickEvents(dev, speedLevels), SetupEvents());
      }
    }

    /** What the end of a successful `applyConfig` reports, from the snapshot
        the first tick left: `Connected`, then the action, feedback and
        variable tables, then the presets or, when building them throws,
        `Unable to log in`. */
    function SetupEvents(): seq<Event>
      reads this`poeStatus, this`portStats
    {
      [StatusUpdated(StatusOk, "Connected"),
       ActionDefinitionsSet(Actions.ActionDefinitions()),
       FeedbackDefinitionsSet(Feedbacks.FeedbackDefinitions()),
       VariableDefinitionsSet(Variables.DefinitionList(portStats, poeStatus)),
       PresetsEvent(poeStatus, portStats)]
    }

    /** `updateStatus(Ok, 'Connected')` and the four setup calls. */
    method SetUp()
      modifies this`events
      ensures events == old(events) + SetupEvents()
    {
      var setup := [StatusUpdated(StatusOk, "Connected")];
      setup := setup + [ActionDefinitionsSet(Actions.ActionDefinitions())];
      setup := setup + [FeedbackDefinitionsSet(Feedbacks.FeedbackDefinitions())];
      var variables := Variables.BuildDefinitions(portStats, poeStatus);
      setup := setup + [VariableDefinitionsSet(variables)];
      var presets := Presets.BuildPresets(poeStatus, portStats);
      if presets.Err? {
        setup := setup + [StatusUpdated(UnknownError, "Unable to log in")];
      } else {
        setup := setup + [PresetDefinitionsSet(presets.value)];
      }
      events := events + setup;
    }
  }
}
