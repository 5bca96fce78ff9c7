/** The three button actions: their option tables, the switch call each
    callback selects from its options, and what that call sends. */
module Actions {
  import opened Js
  import opened Surface
  import opened Switch

  /** A call an action callback makes on the current switch client. */
  datatype SwitchCall =
    | EnablePoe(ports: seq<Json>)       // `enable_poe_ports(ports)`
    | DisablePoe(ports: seq<Json>)      // `disable_poe_ports(ports)`
    | TogglePoe(ports: seq<Json>)       // `toggle_poe_ports(ports)`
    | PowerCyclePoe(ports: seq<Json>)   // `power_cycle_poe_ports(ports)`
    | RebootSwitch                      // `power_cycle_switch()`

  /** The dropdown choices of `setPoeEnabled`, in the order offered. */
  const PoeChoices: seq<Choice> := [Choice(Str("toggle"), "Toggle"), Choice(Bool(true), "Enable"), Choice(Bool(false), "Disable")]

  /** The `port` option shared by every action and feedback that takes a port. */
  const PortOption: OptionField := NumberField("port", "Port", Num(1), 1)

  /** The action table handed to the framework. */
  function ActionDefinitions(): (defs: map<string, ActionDefinition>)
    ensures defs.Keys == {"setPoeEnabled", "powerCyclePoe", "reboot"}
    ensures defs["reboot"].options == []
    ensures forall id | id in defs && id != "reboot" :: PortOption in defs[id].options
  {
    map[
      "setPoeEnabled" := ActionDefinition("Set POE", [Dropdown("enabled", "POE", Bool(true), PoeChoices), PortOption]),
      "powerCyclePoe" := ActionDefinition("Power Cycle POE", [PortOption]),
      "reboot" := ActionDefinition("Reboot Switch", [])
    ]
  }

  /** The `setPoeEnabled` callback: a `switch` on `options.enabled`, whose
      `case` labels compare with `===`; any other value selects nothing. */
  function SetPoeEnabled(options: JsObject): (call: Option<SwitchCall>)
    ensures call.Some? ==> !call.value.RebootSwitch? && call.value.ports == [Field(options, "port")]
    ensures (call.Some? && call.value.EnablePoe?) <==> StrictEquals(Field(options, "enabled"), Bool(true))
    ensures (call.Some? && call.value.DisablePoe?) <==> StrictEquals(Field(options, "enabled"), Bool(false))
    ensures (call.Some? && call.value.TogglePoe?) <==> StrictEquals(Field(options, "enabled"), Str("toggle"))
    ensures call.None? <==> Field(options, "enabled") !in {Bool(true), Bool(false), Str("toggle")}
  {
    var enabled := Field(options, "enabled");
    var port := [Field(options, "port")];
    if StrictEquals(enabled, Bool(true)) then Some(EnablePoe(port))
    else if StrictEquals(enabled, Bool(false)) then Some(DisablePoe(port))
    else if StrictEquals(enabled, Str("toggle")) then Some(TogglePoe(port))
    else None
  }

  /** The callback the framework runs for action `actionId`, applied to its
      options: the call it makes, if any. */
  function Callback(actionId: string, options: JsObject): (call: Option<SwitchCall>)
    requires actionId in ActionDefinitions()
    ensures call.Some? && call.value.RebootSwitch? <==> actionId == "reboot"
    ensures call.Some? && !call.value.RebootSwitch? ==> call.value.ports == [Field(options, "port")]
    ensures actionId == "powerCyclePoe" ==> call.Some? && call.value.PowerCyclePoe?
  {
    if actionId == "setPoeEnabled" then SetPoeEnabled(options)
    else if actionId == "powerCyclePoe" then Some(PowerCyclePoe([Field(options, "port")]))
    else Some(RebootSwitch)
  }

  /** What a call sends, and how it ends, given the device's replies: the
      reboot order reads nothing; every other call first fetches the PoE
      array and throws when that fetch fails. */
  function Outcome(call: SwitchCall, auth: Option<string>, dev: Replies): Sent {
    if call.RebootSwitch? then RebootSent(auth, dev.reboot)
    else if dev.poeConfig.None? then Sent([], Some(NetworkError))
    else
      match call
      case EnablePoe(ports) => Run(StateChange(true, auth), dev.poeConfig.value, ports, dev.unanswered)
      case DisablePoe(ports) => Run(StateChange(false, auth), dev.poeConfig.value, ports, dev.unanswered)
      case TogglePoe(ports) => ToggleRun(auth, dev.poeConfig.value, ports, dev.unanswered)
      case PowerCyclePoe(ports) => Run(PowerCycle(auth), dev.poeConfig.value, ports, dev.unanswered)
  }

  /** `await self.switch.<call>`: runs the call on the switch client. */
  method Perform(sw: NetgearM4250, call: SwitchCall, dev: Replies) returns (r: Result<(), Error>)
    modifies sw`sent
    ensures var s := Outcome(call, old(sw.token), dev);
      sw.sent == old(sw.sent) + s.writes && r == s.Verdict()
  {
    match call
    case EnablePoe(ports) => r := sw.EnablePoePorts(ports, dev);
    case DisablePoe(ports) => r := sw.DisablePoePorts(ports, dev);
    case TogglePoe(ports) => r := sw.TogglePoePorts(ports, dev);
    case PowerCyclePoe(ports) => r := sw.PowerCyclePoePorts(ports, dev);
    case RebootSwitch => r := sw.PowerCycleSwitch(dev);
  }

  /** The `enable` value a `setPoeEnabled` press writes for a port whose
      fetched entry is `config`. */
  function Target(enabled: Json, config: JsObject): bool
    requires enabled in {Bool(true), Bool(false), Str("toggle")}
  {
    if enabled == Str("toggle") then !Truthy(Field(config, "enable")) else enabled == Bool(true)
  }

  /** A `setPoeEnabled` press that selects a call writes at most one request,
      for the first entry of its port, with `enable` set to the chosen value
      (the inverse of the observed one for a toggle). It sends nothing and
      throws when the array cannot be fetched, when it has no entry for the
      port, or when the device does not answer the POST. */
  lemma {:induction false} SetPoeEnabledWritesOnePort(options: JsObject, auth: Option<string>, dev: Replies)
    requires SetPoeEnabled(options).Some?
    ensures var enabled := Field(options, "enabled");
      var port := Field(options, "port");
      var s := Outcome(SetPoeEnabled(options).value, auth, dev);
      if dev.poeConfig.None? then s == Sent([], Some(NetworkError))
      else
        var entries := dev.poeConfig.value;
        match FirstMatch(entries, "portid", port)
        case None => s == Sent([], Some(TypeError))
        case Some(k) =>
          if port in dev.unanswered then s == Sent([], Some(NetworkError))
          else s == Sent([PoeWrite(StateChange(Target(enabled, entries[k]), auth), port, entries[k])], None)
  {
    var port := Field(options, "port");
    assert [port][1..] == [];
    if dev.poeConfig.Some? {
      var entries := dev.poeConfig.value;
      match FirstMatch(entries, "portid", port)
      case None =>
      case Some(k) =>
        var enabled := Field(options, "enabled");
        if enabled != Str("toggle") {
          RunSinglePort(StateChange(Target(enabled, entries[k]), auth), entries, port, dev.unanswered, k);
        } else if port !in dev.unanswered {
          assert ToggleRun(auth, entries, [port], dev.unanswered) == Sent([ToggleWrite(auth, entries, port).value], None);
        }
    }
  }

  /** Every choice the dropdown offers, the default included, selects a call,
      and the three choices select three different commands. */
  lemma OfferedChoicesSelectCalls(port: Json)
    ensures forall c | c in PoeChoices :: SetPoeEnabled(map["enabled" := c.id, "port" := port]).Some?
    ensures SetPoeEnabled(map["enabled" := Bool(true), "port" := port]) == Some(EnablePoe([port]))
    ensures SetPoeEnabled(map["enabled" := Bool(false), "port" := port]) == Some(DisablePoe([port]))
    ensures SetPoeEnabled(map["enabled" := Str("toggle"), "port" := port]) == Some(TogglePoe([port]))
  {
  }
}
