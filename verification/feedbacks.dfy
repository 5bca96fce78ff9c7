/** The two boolean feedbacks. Each callback reads one snapshot collection and
    nothing else; `None` stands for a snapshot that was never fetched. */
module Feedbacks {
  import opened Js
  import opened Surface
  import opened Switch
  import Actions

  /** The feedback table handed to the framework. */
  function FeedbackDefinitions(): (defs: map<string, FeedbackDefinition>)
    ensures defs.Keys == {"poeEnabled", "linkStatus"}
    ensures forall id | id in defs :: defs[id].options == [Actions.PortOption]
  {
    map[
      "poeEnabled" := FeedbackDefinition("POE Enabled", "Change style if port has POE enabled", [Actions.PortOption]),
      "linkStatus" := FeedbackDefinition("Link Status", "Change style if port has active link", [Actions.PortOption])
    ]
  }

  /** The `poeEnabled` callback over the values of the PoE map: the `enable`
      field of the port's first entry, or `undefined`. */
  function PoeEnabled(poeStatus: Option<seq<JsObject>>, options: JsObject): (v: Json)
    ensures poeStatus.None? || !HasId(poeStatus.value, "portid", Field(options, "port")) ==> v == Undefined
    ensures poeStatus.Some? && HasId(poeStatus.value, "portid", Field(options, "port")) ==>
              exists i | 0 <= i < |poeStatus.value| ::
                && IdIs(poeStatus.value[i], "portid", Field(options, "port"))
                && (forall j | 0 <= j < i :: !IdIs(poeStatus.value[j], "portid", Field(options, "port")))
                && v == Field(poeStatus.value[i], "enable")
  {
    var port := Field(options, "port");
    if poeStatus.Some? && HasId(poeStatus.value, "portid", port) then
      Field(poeStatus.value[FirstMatch(poeStatus.value, "portid", port).value], "enable")
    else Undefined
  }

  /** The `linkStatus` callback: whether the port's first stats entry has
      `status === 0`, or `undefined`. */
  function LinkStatus(portStats: Option<PortStatsMap>, options: JsObject): (v: Json)
    ensures portStats.None? || !portStats.value.Has(Field(options, "port")) ==> v == Undefined
    ensures portStats.Some? && portStats.value.Has(Field(options, "port")) ==>
              v.Bool? && exists i | 0 <= i < |portStats.value.items| ::
                && IdIs(portStats.value.items[i], "portId", Field(options, "port"))
                && (forall j | 0 <= j < i :: !IdIs(portStats.value.items[j], "portId", Field(options, "port")))
                && (v.b <==> StrictEquals(Field(portStats.value.items[i], "status"), Num(0)))
  {
    var port := Field(options, "port");
    if portStats.Some? && portStats.value.Has(port) then
      Bool(StrictEquals(Field(portStats.value.GetPortStats(port).value, "status"), Num(0)))
    else Undefined
  }

  /** The link feedback reads `status`, not `speed`: rewriting any entry's
      `speed` leaves every port's answer unchanged. */
  lemma LinkStatusIgnoresSpeed(items: seq<JsObject>, i: nat, speed: Json, options: JsObject)
    requires i < |items|
    ensures LinkStatus(Some(PortStatsMap(items[i := items[i]["speed" := speed]])), options)
         == LinkStatus(Some(PortStatsMap(items)), options)
  {
    var after := items[i := items[i]["speed" := speed]];
    var port := Field(options, "port");
    assert forall j | 0 <= j < |items| :: IdIs(after[j], "portId", port) == IdIs(items[j], "portId", port);
    assert forall j | 0 <= j < |items| :: Field(after[j], "status") == Field(items[j], "status");
    if HasId(items, "portId", port) {
      var k := FirstMatch(items, "portId", port).value;
      FirstMatchIs(after, "portId", port, k);
    } else {
      assert !HasId(after, "portId", port);
    }
  }

  /** What the PoE feedback shows is what the toggle acts on: over the same
      array, a port whose feedback value is truthy is disabled by a toggle,
      any other port that the array holds is enabled. */
  lemma ToggleInvertsFeedback(auth: Option<string>, entries: seq<JsObject>, port: Json)
    requires HasId(entries, "portid", port)
    ensures var shown := PoeEnabled(Some(entries), map["port" := port]);
      ToggleWrite(auth, entries, port).Some?
      && ToggleWrite(auth, entries, port).value.body.request == StateChange(!Truthy(shown), auth)
  {
  }
}
