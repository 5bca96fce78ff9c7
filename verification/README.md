# Netgear M4250 AV Line control-surface module, modelled in Dafny

The module connects a control surface to one Netgear M4250 switch. This
project models that module. The module logs in to the switch's REST
interface and keeps a session token, which it renews by an expiry rule and
a liveness probe. It polls the PoE configuration, the port statistics and
the device status once a second. A tick whose three fetches all succeed
re-checks two button feedbacks and then republishes a set of variables;
as written, the republication throws whenever the statistics list has an
entry (see Findings). Its button actions enable, disable, toggle or
power-cycle PoE on a port, or reboot the switch. Enable, disable and
power-cycle are read-modify-writes: the command fetches the PoE array
once, then edits and posts one entry per port. Toggle fetches the array
once to decide, then runs a nested one-port enable or disable per port,
each of which fetches the array again. The reboot order reads nothing.

The model is sequential and self-contained:

- What the device answers is an input record (`Switch.Replies`), and the
  clock is a parameter `now`.
- The calls the module makes on the control-surface framework are recorded
  as a list of `Surface.Event`s.
- Parsed JSON is `Js.Json`, with `undefined`, `===`, truthiness and
  template-literal string conversion written out.

Modules and files:

- `js.dfy`: JSON values and the JavaScript operators used on them.
- `surface.dfy`: the framework's definitions and events.
- `switch.dfy`: the switch client.
  - The session state: `login` and the expiry value.
  - The two port-keyed collections. The PoE configuration map is a class
    over per-port objects that the write requests edit in place.
  - The write requests, the four PoE commands and the reboot command.
  - Pure reference definitions of what each command sends: `Run` and
    `ToggleRun`.
- `actions.dfy`, `feedbacks.dfy`, `variables.dfy`, `presets.dfy`: the
  action callbacks, the two feedback predicates, the variable-definition
  builder and the preset builder.
- `main.dfy`: the module instance.
  - `applyConfig` and `stopPolling`.
  - The poll tick and the re-login rule.
  - `updateVariables` and the PoE status table of `constants.js`.

The model follows the code wherever the code and the intent stated around
it differ:

- Re-login by expiry. The comment at main.js:105 says the token is renewed
  an hour before it expires. The comparison at main.js:106 subtracts 3600
  from a millisecond clock, so it fires 3.6 seconds *after* expiry
  (`Main.ReloginOnlyAfterExpiry`).
- Writes to a missing port. A write to a port absent from the PoE array
  fails with a `TypeError` from `delete` on `undefined`. There is no
  dedicated not-found error.
- Port lists are not de-duplicated. For enable, disable and power-cycle,
  listing a port twice when one entry carries it makes the second write
  fail, because the first write removed that entry's `portid`
  (`Switch.RunRepeatedPortFails`). When two or more entries carry the port,
  the second lookup finds the next matching entry and both are written
  (`Switch.RunRepeatedPortTwoEntries`). Toggle accepts repeated ports,
  since each nested command fetches a fresh array.
- A POST the device does not answer rejects, and the command stops there.
  The entry it edited stays edited in the fetched array.
- The speed-name table. `updateVariables` indexes a table that
  `constants.js` does not define. The instance's `speedLevels` is `None`
  for the code as written, and every tick with a statistics entry then
  throws before publishing. `Some(table)` is the evidently intended
  behaviour, and the Findings row proves it separately.
- Nothing locks the read-modify-write commands.

## Model

| member | source | states |
|---|---|---|
| Switch.FirstMatch | switch.js:307-309 | The index `find` stops at is absent exactly when no entry's key is `===` the id; otherwise it is a matching index with no match before it |
| Switch.PortStatsMap.GetPortStats | switch.js:325-327 | `get_port_stats(p)` is `undefined` iff `has(p)` fails, else the first entry in array order whose `portId` is `p` |
| Switch.PortPoeConfigurationMap.constructor | switch.js:294-297 | A freshly wrapped PoE array: its values are the parsed entries, each a distinct, new object |
| Switch.PortPoeConfigurationMap.GetPortConfiguration | switch.js:307-309 | `get_port_configuration(p)` is `undefined` iff `has(p)` fails, else an entry object of the map whose `portid` is `p` |
| Switch.PortPoeConfigurationMap.ConfigurationIsFirst | switch.js:307-309 | The entry returned is the first one in array order whose `portid` matches |
| Switch.PoeRequest.Edit | switch.js:150-186 | The in-place edit removes `portid`, then sets `enable` to the request's fixed boolean (state change) or `reset` to true (power cycle); every other field is kept |
| Switch.PoeRequest.Fetch | switch.js:150-186 | `fetch(url, port, config)`: on `undefined` it throws a TypeError before sending. Otherwise it edits the object in place, then either returns the edited copy addressed to that port or, when the POST gets no answer, rejects with a network error; the edit stays either way |
| Switch.Body.Payload | switch.js:158-160 | The posted `poePortConfig` never carries `portid` |
| Switch.PathsApart | switch.js:154-178 | Two port writes go to the same `swcfg_poe?portid=<port>` URL exactly when their ports print the same; no port write goes to `device_reboot` |
| Switch.RunWritesEachPort | switch.js:36-89 | With distinct, defined ports, enable/disable/power-cycle write at most once per port, in list order, each write carrying the edited first match of its port in the array as fetched. They complete exactly when every port was written; otherwise they stop at the first port the array lacks (a TypeError) or whose POST gets no answer (a network error), after writing every earlier port |
| Switch.RunRepeatedPortFails | switch.js:41-42 | A port listed twice with one matching entry is written once, then the command throws a TypeError: the first edit removed that entry's `portid` |
| Switch.RunRepeatedPortTwoEntries | switch.js:41-42 | In any array with at least two entries for a port, listing that port twice writes the first matching entry, then the next matching one, and the command completes |
| Switch.RunSinglePort | switch.js:41-42 | A one-port command whose port is found writes that port's edited first entry and completes, or sends nothing and throws a network error when its POST gets no answer |
| Switch.EditKeepsOtherMatches | switch.js:151 | Removing `portid` from the entry of one port leaves the first match of every other defined port unchanged |
| Switch.ToggleWritesEachPort | switch.js:66-77 | Toggle writes at most once per listed port, in list order, repeats included, with `enable` the opposite of the truthiness observed in its first fetch. It completes exactly when every port was written, and otherwise stops at the first port the array lacks (a TypeError) or whose nested POST gets no answer (a network error) |
| Switch.RunFromIsRun | switch.js:41-44 | The write loop's walk from index `i` is the reference run over the rest of the list |
| Switch.WriteOnePort | switch.js:42 | One turn of the write loop edits the first entry for the port and returns its request, or a network error when the POST gets no answer; with no entry it fails with a TypeError and changes nothing |
| Switch.SendAll | switch.js:41-44 | The write loop over the fetched map sends exactly the reference run's answered writes and settles as the run does: success, a TypeError or a network error |
| Switch.NetgearM4250.constructor | switch.js:5-14 | A new client keeps host, user and password, and has no token, no expiry and nothing sent |
| Switch.NetgearM4250.Login | switch.js:16-30 | On a 'success' reply: returns true, takes the token and sets the expiry to `now + parseInt(expire) * 1000`. Otherwise it throws (the `respMsg`, the raw unparseable text, or a network error) and leaves token and expiry unchanged |
| Switch.NetgearM4250.GetPortPoeStatus | switch.js:98-101 | A fresh map over the fetched PoE array, or the fetch's error |
| Switch.NetgearM4250.WriteEachPort | switch.js:36-45 | Fetch the PoE array once, then append exactly the reference run's answered writes to what was sent and settle as the run does; a failed fetch sends nothing and throws |
| Switch.NetgearM4250.EnablePoePorts | switch.js:36-45 | `enable_poe_ports` sends the reference run of an `enable: true` request under the current token and settles as that run does |
| Switch.NetgearM4250.DisablePoePorts | switch.js:51-60 | `disable_poe_ports` sends the reference run of an `enable: false` request under the current token and settles as that run does |
| Switch.NetgearM4250.PowerCyclePoePorts | switch.js:83-89 | `power_cycle_poe_ports` sends the reference run of a `reset: true` request under the current token and settles as that run does |
| Switch.NetgearM4250.ToggleOne | switch.js:69-76 | One toggle turn issues a nested one-port disable when the observed `enable` is truthy and an enable otherwise; it throws a TypeError when the port is absent and a network error when the nested POST gets no answer, sending nothing in either case |
| Switch.NetgearM4250.TogglePoePorts | switch.js:66-77 | `toggle_poe_ports` sends exactly the reference toggle run over the array it fetched first and settles as that run does |
| Switch.NetgearM4250.ToggleEach | switch.js:69-76 | The toggle loop appends the toggle run's writes and settles as the run does |
| Switch.NetgearM4250.PowerCycleSwitch | switch.js:91-96 | `power_cycle_switch` posts one reboot order with `afterSecs: 2` and resolves when the answer is JSON; it throws when there is no answer (nothing sent) or the answer is not JSON (order sent) |
| Switch.NetgearM4250.PortHasLink | switch.js:103-108 | `port_has_link(p)` is true iff the first stats entry for `p` has `speed !== 130`; it throws when the port is absent |
| Actions.ActionDefinitions | actions.js:8-63 | Exactly the actions `setPoeEnabled`, `powerCyclePoe` and `reboot`; each except `reboot` takes the `port` option (default 1, minimum 1), and `reboot` takes none |
| Actions.SetPoeEnabled | actions.js:27-39 | `enabled === true`, `=== false` and `=== 'toggle'` select enable, disable and toggle of the singleton list `[port]`; any other value selects no call |
| Actions.Callback | actions.js:27-61 | `reboot` is the only callback that reboots the switch; every other call it selects acts on `[port]`, and `powerCyclePoe` always power-cycles |
| Actions.Perform | actions.js:27-61 | Running a selected call sends what the matching switch command sends and settles exactly as that command does |
| Actions.SetPoeEnabledWritesOnePort | actions.js:28-38 | A `setPoeEnabled` press writes at most one request, for the port's first entry, with `enable` set to the chosen value or, for a toggle, the inverse of the observed one. It sends nothing and throws when the fetch fails (network error), the port has no entry (TypeError) or the POST gets no answer (network error) |
| Actions.OfferedChoicesSelectCalls | actions.js:2-6 | Each offered choice (toggle/true/false) selects a call, and the three select the three different commands |
| Feedbacks.FeedbackDefinitions | feedbacks.js:12-63 | Exactly `poeEnabled` and `linkStatus`, each with the `port` option |
| Feedbacks.PoeEnabled | feedbacks.js:28-35 | `undefined` when the PoE snapshot is unset or lacks the port; else the `enable` field of the port's first entry |
| Feedbacks.LinkStatus | feedbacks.js:53-60 | `undefined` when the stats snapshot is unset or lacks the port; else a boolean that is true iff the port's first entry has `status === 0` |
| Feedbacks.LinkStatusIgnoresSpeed | feedbacks.js:53-57 | The link feedback depends on `status`, not `speed`: rewriting an entry's speed changes no port's answer |
| Feedbacks.ToggleInvertsFeedback | feedbacks.js:28-32 | For a port the array holds, a toggle writes `enable` as the negated truthiness of what the PoE feedback shows |
| Variables.PushEach | variables.js:23-35 | One `forEach` pushes every entry's pair, in entry order, after what was there |
| Variables.BuildDefinitions | variables.js:1-50 | The builder's list is the reference list: fixed four, then the stats pairs, then the PoE pairs, an unset collection contributing nothing |
| Variables.PerEntryLength | variables.js:23-48 | A `forEach` that pushes two definitions per entry pushes twice as many definitions as entries |
| Variables.DefinitionLayout | variables.js:4-48 | The list starts with `active_ports`, `memory_usage`, `cpu_usage`, `uptime`; entry `i` of the stats contributes speed then VLANs at positions 4+2i and 4+2i+1; every PoE pair follows all stats pairs, status before draw; its length is 4 + 2·stats + 2·PoE |
| Variables.DefinitionIds | variables.js:4-48 | The ids defined are the four device ids plus both ids of every stats entry and every PoE entry |
| Variables.FixedIds | variables.js:4-22 | The four fixed definitions define exactly the four device-wide ids |
| Presets.FillEach | presets.js:10-28 | One `forEach` fills the map entry by entry in order, a later entry overwriting an earlier one with the same key |
| Presets.BuildPresets | presets.js:3-85 | The builder throws a TypeError exactly when either snapshot is unset; otherwise its map is the PoE fill followed by the link fill |
| Presets.FillKeys | presets.js:12-13 | Filling adds one key per entry, duplicates collapsing |
| Presets.FillLastWins | presets.js:12-13 | The value under a key is the preset of the last entry with that key |
| Presets.FillKeepsOthers | presets.js:52-53 | A key no entry has keeps its earlier value |
| Presets.KeysDisjoint | presets.js:13 | A `poe_…` key is never a `link_…` key |
| Presets.PresetMapContents | presets.js:12-82 | The map's keys are exactly one `poe_<portid>` per PoE entry and one `link_<portId>` per stats entry; each holds the preset of the last entry with that key |
| Presets.PresetsReferenceDefinitions | presets.js:24-80 | Every `actionId` and `feedbackId` named in the map is one the action and feedback tables define |
| Presets.PoePresetTogglesItsPort | presets.js:12-50 | A PoE preset is in category POE; pressing it makes the action callback toggle exactly its `portid`; its up step is empty; its one feedback is `poeEnabled` on the same port |
| Presets.LinkPresetWatchesItsPort | presets.js:52-82 | A link preset is in category Link Status, has empty down and up steps, and has one `linkStatus` feedback on its `portId` |
| Main.PoeStatusCodes | constants.js:1-11 | A numeric PoE status has a name exactly for codes -1..6; any other code, 7 (overload) included, is published as `undefined` |
| Main.DeviceValues | main.js:129-132 | The device-wide values have exactly the four device-wide variable ids as keys |
| Main.Published | main.js:126-149 | Publishing succeeds exactly when device, PoE and stats snapshots are all set and a speed table exists or there are no stats entries; failure is a TypeError |
| Main.PublishedKeysDefined | main.js:127-148 | With a speed table, the published keys are exactly the ids that the variable definitions of the same snapshot declare |
| Main.SpeedTableMissing | main.js:142-146 | As written (no speed table): publishing succeeds iff the stats list is empty; one stats entry makes it throw a TypeError |
| Main.PublishedDeviceValues | main.js:129-132 | `active_ports`, `cpu_usage`, `memory_usage`, `uptime` hold the device's `numOfActivePorts`, `cpuUsage`, `memoryUsage`, `upTime` |
| Main.PublishedPoeEntry | main.js:134-140 | A PoE entry that no later entry repeats publishes its status name and its power draw under its own two keys |
| Main.PublishedStatsEntry | main.js:142-146 | A stats entry that no later entry repeats publishes its speed name and its `vlans` under its own two keys |
| Main.PutEachKeys | main.js:134-146 | The per-entry loops add exactly the keys of their entries |
| Main.PutEachLastWins | main.js:138-139 | A key holds the value the last entry publishing it gave it |
| Main.PoeKeysApart | main.js:138-139 | PoE entries with different id strings publish different keys |
| Main.StatsKeysApart | main.js:144-145 | Stats entries with different id strings publish different keys |
| Main.PoeStatsKeysApart | main.js:138-145 | A PoE key is never a stats key |
| Main.FillPoeValues | main.js:134-140 | The PoE loop computes the reference fill over the PoE entries |
| Main.FillStatsValues | main.js:142-146 | The stats loop computes the reference fill, or throws a TypeError at the first entry when there is no speed table |
| Main.ReloginOnlyAfterExpiry | main.js:105-109 | The expiry rule fires iff the expiry is truthy and more than 3600 ms in the past, never for a `NaN` expiry |
| Main.TickEvents | main.js:83-93 | A tick reports anything only when all three fetches succeeded: a feedback check first, then at most one publication; with no speed table and a statistics entry it publishes nothing |
| Main.ModuleInstance.constructor | main.js:12-14 | A new instance keeps the given speed table and has no client, no snapshot, no pending tick and no events |
| Main.ModuleInstance.StopPolling | main.js:59-61 | `stopPolling` cancels the pending tick |
| Main.ModuleInstance.UpdateVariables | main.js:126-149 | `updateVariables` makes one `setVariableValues` call with the published map, or throws and makes none |
| Main.ModuleInstance.RefreshLoginIfNeeded | main.js:104-119 | Between 0 and 2 logins. None iff the expiry rule does not fire and the probe passes; two iff it fires, that login succeeds and the probe fails. A successful login sets the session; otherwise it is unchanged |
| Main.ModuleInstance.RefreshSwitchData | main.js:79-99 | One tick: the login check with the same 0-2 login count and session outcome as `refreshLoginIfNeeded`, then the three fetches in order, each snapshot replaced only when its own fetch and every earlier one succeeded. The tick's events are appended and exactly one next tick is scheduled 1000 ms later |
| Main.ModuleInstance.Poll | main.js:83-93 | The fetch-and-publish part of a tick, with the same per-snapshot guarantees |
| Main.ModuleInstance.ApplyConfig | main.js:28-57 | Stops polling, then builds a fresh client that has sent nothing. A failed login leaves that client with no token and no expiry, reports Opening, Logging in, then `Unable to log in`, leaves the snapshots alone and schedules nothing. A successful one holds the reply's token and expiry, reports Refreshing data, runs one tick (snapshots replaced as its fetches succeed), then `Connected` and the four setup calls |
| Main.ModuleInstance.SetUp | main.js:44-50 | Reports `Connected`, then sets the action, feedback, variable and preset definitions in that order; presets from an unset snapshot throw and report `Unable to log in` |

## Left out

- HTTP transport, TLS and JSON decoding: each request's outcome is an input. One call into the model sees the same reply to every GET of a kind and to every login. A `swcfg_poe` POST's answer depends only on its port, so repeated POSTs to one port in one call share it: a first POST answered and a second one rejected is not modelled.
- The un-awaited `refreshLoginIfNeeded()` at main.js:82 runs concurrently with the fetches in the source. The model runs it to completion first. A rejection from it is not observed by the tick, so the model ignores its outcome.
- `setTimeout` is modelled as a pending-tick value; the tick is not re-run by a clock.
- `init`, `configUpdated` and `destroy` only call `applyConfig` or `stopPolling`, which are modelled.
- `getConfigFields`, `runEntrypoint` and the upgrade scripts: framework configuration only.
- Logging, `console` output, button colours, text size and feedback styles.
- The power draw: `currentPower / 1000` and the ` W` suffix are floating-point formatting; the value is kept opaque as `Watts(currentPower)`.
- Numbers are integers only; non-integer JSON numbers are not modelled.
- Arrays and objects inside JSON values are opaque (`Composite`): they keep only their string form and are never `===` anything.
- The speed-name table indexed at main.js:143 does not exist in constants.js. An instance built with `Some(table)` takes an abstract table, whose contents are not part of the model.
- A successful GET is taken to carry the expected shape. In the source, a GET answered with some other JSON body, such as an error body after the token is invalidated, still succeeds. The tick then stores a map whose `all()` is `undefined`, or a `device_status` of `undefined`, and the feedbacks, `updateVariables` and `setupPresets` throw on it. The model has no such reply.
- A JSON login reply is likewise taken to carry a `resp` object with a string `status` and `respMsg`, and, on `success`, a `login` object with a string `token`. In the source, a JSON reply without `resp` throws a TypeError when its status is read. A `success` reply whose `login` has no `token` stores `undefined` as the token, and `login` still returns true. The model has neither reply.
- The instance stores the fetched PoE map by the values of its entries. Nothing in the module writes to that stored map after the tick stores it.
- Switch.RunWritesEachPort: stated for lists of distinct, defined ports; repeated ports are covered separately by Switch.RunRepeatedPortFails.

## Findings

| source | as written | input that shows it | evidently intended | confidence | as-written member | corrected member |
|---|---|---|---|---|---|---|
| main.js:143 | `CONSTANTS.speedStatusLevels[...]` indexes a table constants.js does not define, so `updateVariables` throws a TypeError and publishes nothing | any tick whose port-statistics list has an entry, e.g. `[{portId: 1, speed: 5, vlans: "1"}]` | look the speed up in a speed-name table and publish every variable | not executed | Main.SpeedTableMissing | Main.PublishedKeysDefined |
