/** The client of one Netgear M4250 switch: its session (token and expiry),
    the port-keyed snapshots it fetches, and the PoE read-modify-write commands.
    HTTP is not modelled: what the device answers is the input `Replies`. */
module Switch {
  import opened Js

  datatype Error =
    | Rejected(message: string)   // login answered with a status other than 'success'; carries `resp.respMsg`
    | NotJson(text: string)       // the login body was not JSON; carries the raw text
    | TypeError                   // a property read on `undefined`
    | NetworkError                // the HTTP request, or decoding its JSON body, failed

  /** The `login` object of a successful login reply. `expireSeconds` is what
      `parseInt(login.expire)` gives, `None` standing for `NaN`. */
  datatype LoginBody = LoginBody(token: string, expireSeconds: Option<int>)

  datatype LoginReply =
    | Unreachable
    | Unparseable(text: string)
    | Parsed(status: string, respMsg: string, login: Option<LoginBody>)

  /** How the device answers a POST whose answer is decoded as JSON: not at
      all (the request rejects), with a body that is not JSON, or with JSON. */
  datatype PostReply = NoAnswer | NotJsonAnswer | JsonAnswer

  /** What the device answers to each kind of request during one call into the
      model. `None` is a GET that fails; a GET that succeeds is assumed to
      carry the expected array or object. `unanswered` holds the ports whose
      `swcfg_poe` POST rejects, and `reboot` is the answer to `device_reboot`. */
  datatype Replies = Replies(
    login: LoginReply,
    deviceName: Option<string>,
    poeConfig: Option<seq<JsObject>>,
    portStats: Option<seq<JsObject>>,
    deviceInfo: Option<JsObject>,
    unanswered: set<Json>,
    reboot: PostReply)

  /** `loginExpiresAt`: `undefined` before the first login, `NaN` when the
      reply's `expire` does not parse, otherwise a time in milliseconds. */
  datatype Expiry = Unset | NotANumber | At(ms: int)

  predicate ExpiryTruthy(e: Expiry) {
    e.At? && e.ms != 0
  }

  /** `now + parseInt(expire) * 1000`. */
  function ExpiryAfter(now: int, expireSeconds: Option<int>): Expiry {
    match expireSeconds
    case None => NotANumber
    case Some(s) => At(now + s * 1000)
  }

  /** What `login` makes of a reply: the accepted login body, or the error it throws. */
  function LoginOutcome(reply: LoginReply): Result<LoginBody, Error> {
    match reply
    case Unreachable => Err(NetworkError)
    case Unparseable(text) => Err(NotJson(text))
    case Parsed(status, respMsg, login) =>
      if status == "success" then
        (match login
         case None => Err(TypeError)
         case Some(body) => Ok(body))
      else Err(Rejected(respMsg))
  }

  // ---------------------------------------------------------------------------
  // Port-keyed lookups (`some` and `find` over the fetched array)
  // ---------------------------------------------------------------------------

  /** `item[key] === id` */
  predicate IdIs(entry: JsObject, key: string, id: Json) {
    StrictEquals(Field(entry, key), id)
  }

  /** `entries.some((item) => item[key] === id)` */
  predicate HasId(entries: seq<JsObject>, key: string, id: Json) {
    exists i | 0 <= i < |entries| :: IdIs(entries[i], key, id)
  }

  /** The first index at or after `from` whose entry matches. */
  function FirstMatchFrom(entries: seq<JsObject>, key: string, id: Json, from: nat): (r: Option<nat>)
    requires from <= |entries|
    ensures r.None? ==> forall i | from <= i < |entries| :: !IdIs(entries[i], key, id)
    ensures r.Some? ==> from <= r.value < |entries| && IdIs(entries[r.value], key, id)
    ensures r.Some? ==> forall j | from <= j < r.value :: !IdIs(entries[j], key, id)
    decreases |entries| - from
  {
    if from == |entries| then None
    else if IdIs(entries[from], key, id) then Some(from)
    else FirstMatchFrom(entries, key, id, from + 1)
  }

  /** The index `entries.find((item) => item[key] === id)` stops at. */
  function FirstMatch(entries: seq<JsObject>, key: string, id: Json): (r: Option<nat>)
    ensures r.None? <==> !HasId(entries, key, id)
    ensures r.Some? ==> r.value < |entries| && IdIs(entries[r.value], key, id)
    ensures r.Some? ==> forall j | 0 <= j < r.value :: !IdIs(entries[j], key, id)
  {
    FirstMatchFrom(entries, key, id, 0)
  }

  /** `find` lands on the first matching index: a match with none before it. */
  lemma FirstMatchIs(entries: seq<JsObject>, key: string, id: Json, k: nat)
    requires k < |entries| && IdIs(entries[k], key, id)
    requires forall j | 0 <= j < k :: !IdIs(entries[j], key, id)
    ensures FirstMatch(entries, key, id) == Some(k)
  {
    assert HasId(entries, key, id);
  }

  /** `PortStatsMap`: the port statistics array, keyed on `portId`. */
  datatype PortStatsMap = PortStatsMap(items: seq<JsObject>) {

    function All(): seq<JsObject> {
      items
    }

    predicate Has(portId: Json) {
      HasId(items, "portId", portId)
    }

    /** `undefined` (here `None`) exactly when `Has(portId)` fails; otherwise the
        first entry, in array order, whose `portId` is `portId`. */
    function GetPortStats(portId: Json): (r: Option<JsObject>)
      ensures r.None? <==> !Has(portId)
      ensures r.Some? ==> exists i | 0 <= i < |items| :: r.value == items[i] && IdIs(items[i], "portId", portId)
                            && forall j | 0 <= j < i :: !IdIs(items[j], "portId", portId)
    {
      match FirstMatch(items, "portId", portId)
      case None => None
      case Some(k) => Some(items[k])
    }
  }

  // ---------------------------------------------------------------------------
  // PoE configuration objects and the write requests that edit them in place
  // ---------------------------------------------------------------------------

  /** One fetched per-port PoE configuration object. The write requests edit it
      in place, so an edit is seen through every reference to it. */
  class PortConfig {
    var fields: JsObject

    constructor (fields: JsObject)
      ensures this.fields == fields
    {
      this.fields := fields;
    }
  }

  /** `PortPoeConfigurationMap`: the PoE configuration array, keyed on `portid`.
      Its entries are distinct objects, each created by parsing the reply. */
  class PortPoeConfigurationMap {
    const items: seq<PortConfig>

    ghost predicate Distinct() {
      forall i, j | 0 <= i < j < |items| :: items[i] != items[j]
    }

    /** Wraps a freshly parsed `poePortConfig` array. */
    constructor (data: seq<JsObject>)
      ensures Values() == data && Distinct()
      ensures forall i | 0 <= i < |items| :: fresh(items[i])
    {
      var created: seq<PortConfig> := [];
      for i := 0 to |data|
        invariant |created| == i
        invariant forall j | 0 <= j < i :: fresh(created[j]) && created[j].fields == data[j]
        invariant forall j, k | 0 <= j < k < i :: created[j] != created[k]
      {
        var config := new PortConfig(data[i]);
        created := created + [config];
      }
      items := created;
    }

    /** `all()`, as values: the current contents of each entry, in array order. */
    function Values(): (vs: seq<JsObject>)
      reads items
      ensures |vs| == |items|
      ensures forall i | 0 <= i < |items| :: vs[i] == items[i].fields
    {
      seq(|items|, i reads items requires 0 <= i < |items| => items[i].fields)
    }

    predicate Has(portId: Json)
      reads items
    {
      HasId(Values(), "portid", portId)
    }

    /** `undefined` (here `null`) exactly when `Has(portId)` fails; otherwise the
        first entry object, in array order, whose `portid` is `portId`. */
    function GetPortConfiguration(portId: Json): (r: PortConfig?)
      reads items
      ensures r == null <==> !Has(portId)
      ensures r != null ==> r in items && IdIs(r.fields, "portid", portId)
    {
      match FirstMatch(Values(), "portid", portId)
      case None => null
      case Some(k) => items[k]
    }

    /** `GetPortConfiguration` in terms of the values: the entry at the first match. */
    lemma ConfigurationValue(portId: Json)
      ensures var r := GetPortConfiguration(portId);
        match FirstMatch(Values(), "portid", portId)
        case None => r == null
        case Some(k) => r != null && r.fields == Values()[k]
    {
    }

    /** The entry `GetPortConfiguration` returns is the first match in array order. */
    lemma ConfigurationIsFirst(portId: Json, i: nat)
      requires Distinct() && i < |items| && GetPortConfiguration(portId) == items[i]
      ensures IdIs(items[i].fields, "portid", portId)
      ensures forall j | 0 <= j < i :: !IdIs(items[j].fields, "portid", portId)
    {
      var k := FirstMatch(Values(), "portid", portId).value;
      assert items[k] == items[i];
    }
  }

  /** A POST body: a port configuration as `request` edits it from `original`,
      or a reboot order. */
  datatype Body = PoePortConfig(request: PoeRequest, original: JsObject) | DeviceReboot(afterSecs: int) {
    /** The JSON object posted for a port configuration. */
    function Payload(): (o: JsObject)
      requires PoePortConfig?
      ensures "portid" !in o
    {
      request.Edit(original)
    }
  }

  /** Where a POST goes, below `/api/v1/`. */
  datatype Endpoint = PoePort(port: Json) | Reboot {
    /** The path text: `swcfg_poe?portid=${port}` or `device_reboot`. */
    function Path(): (path: string)
      ensures PoePort? ==> path == "swcfg_poe?portid=" + ToStr(port)
      ensures Reboot? ==> path == "device_reboot"
    {
      match this
      case PoePort(port) => "swcfg_poe?portid=" + ToStr(port)
      case Reboot => "device_reboot"
    }
  }

  /** Each port has its own endpoint: two ports are posted to the same path
      exactly when their string forms agree, and no port path is the reboot path. */
  lemma PathsApart(p: Json, q: Json)
    ensures PoePort(p).Path() == PoePort(q).Path() <==> ToStr(p) == ToStr(q)
    ensures PoePort(p).Path() != Reboot.Path()
  {
    var prefix := "swcfg_poe?portid=";
    if PoePort(p).Path() == PoePort(q).Path() {
      assert ToStr(p) == (prefix + ToStr(p))[|prefix|..];
      assert ToStr(q) == (prefix + ToStr(q))[|prefix|..];
    }
    assert PoePort(p).Path()[0] == 's';
  }

  /** A POST request sent to the device: bearer token, endpoint, body. */
  datatype Write = Post(auth: Option<string>, endpoint: Endpoint, body: Body)

  /** The write `request` makes for one port whose configuration was `original`,
      to `swcfg_poe?portid=<port>`, under the request's token. */
  function PoeWrite(request: PoeRequest, port: Json, original: JsObject): Write {
    Post(request.auth, PoePort(port), PoePortConfig(request, original))
  }

  /** The two PoE write requests, each built with the session token of the moment:
      `POEStateChangeRequest` (with its fixed `enable`) and `PoePowerCycleRequest`. */
  datatype PoeRequest = StateChange(enable: bool, auth: Option<string>) | PowerCycle(auth: Option<string>) {

    /** The edit a request makes to a configuration before sending it: `portid`
        removed, then `enable` set to the request's value, or `reset` set to true.
        Every other field is kept. */
    function Edit(config: JsObject): (edited: JsObject)
      ensures "portid" !in edited
      ensures StateChange? ==> Field(edited, "enable") == Bool(enable)
      ensures StateChange? ==> forall k | k != "portid" && k != "enable" :: Field(edited, k) == Field(config, k)
      ensures PowerCycle? ==> Field(edited, "reset") == Bool(true)
      ensures PowerCycle? ==> forall k | k != "portid" && k != "reset" :: Field(edited, k) == Field(config, k)
    {
      match this
      case StateChange(enable, _) => (config - {"portid"})["enable" := Bool(enable)]
      case PowerCycle(_) => (config - {"portid"})["reset" := Bool(true)]
    }

    /** `fetch(url, port, config)`: edits `config` in place, then posts it. On
        `undefined` the `delete` throws before anything is sent; a POST that
        gets no answer (`!answered`) rejects after the edit was made. */
    method Fetch(port: Json, config: PortConfig?, answered: bool) returns (r: Result<Write, Error>)
      modifies config
      ensures config == null ==> r == Err(TypeError)
      ensures config != null ==> config.fields == Edit(old(config.fields))
      ensures config != null && answered ==> r == Ok(PoeWrite(this, port, old(config.fields)))
      ensures config != null && !answered ==> r == Err(NetworkError)
    {
      if config == null {
        return Err(TypeError);
      }
      var original := config.fields;
      config.fields := Edit(original);
      if !answered {
        return Err(NetworkError);
      }
      r := Ok(PoeWrite(this, port, original));
    }
  }

  /** The requests of a command that the device answered, and the error the
      command ended by throwing, if any. */
  datatype Sent = Sent(writes: seq<Write>, failure: Option<Error>) {
    /** How the command's promise settles. */
    function Verdict(): Result<(), Error> {
      if failure.None? then Ok(()) else Err(failure.value)
    }
  }

  /** One request over a single fetched array, once per port in list order.
      Each write edits the entry it found, so a later lookup sees the edit: an
      entry whose `portid` was removed no longer matches its port. A port the
      array lacks ends the run with a TypeError; a POST that gets no answer
      ends it with a NetworkError. */
  function Run(request: PoeRequest, entries: seq<JsObject>, ports: seq<Json>, unanswered: set<Json>): Sent
    decreases |ports|
  {
    if ports == [] then Sent([], None)
    else
      match FirstMatch(entries, "portid", ports[0])
      case None => Sent([], Some(TypeError))
      case Some(k) =>
        if ports[0] in unanswered then Sent([], Some(NetworkError))
        else
          var rest := Run(request, entries[k := request.Edit(entries[k])], ports[1..], unanswered);
          Sent([PoeWrite(request, ports[0], entries[k])] + rest.writes, rest.failure)
  }

  /** `Run` over the ports from index `from` on: the index form the write loop
      walks, a proof device that `RunFromIsRun` equates with `Run`. */
  function RunFrom(request: PoeRequest, entries: seq<JsObject>, ports: seq<Json>, unanswered: set<Json>, from: nat): Sent
    requires from <= |ports|
    decreases |ports| - from
  {
    if from == |ports| then Sent([], None)
    else
      match FirstMatch(entries, "portid", ports[from])
      case None => Sent([], Some(TypeError))
      case Some(k) =>
        if ports[from] in unanswered then Sent([], Some(NetworkError))
        else
          var rest := RunFrom(request, entries[k := request.Edit(entries[k])], ports, unanswered, from + 1);
          Sent([PoeWrite(request, ports[from], entries[k])] + rest.writes, rest.failure)
  }

  lemma {:induction false} RunFromIsRun(request: PoeRequest, entries: seq<JsObject>, ports: seq<Json>, unanswered: set<Json>, from: nat)
    requires from <= |ports|
    ensures RunFrom(request, entries, ports, unanswered, from) == Run(request, entries, ports[from..], unanswered)
    decreases |ports| - from
  {
    if from < |ports| {
      assert ports[from..][1..] == ports[from + 1..];
      match FirstMatch(entries, "portid", ports[from])
      case None =>
      case Some(k) =>
        if ports[from] !in unanswered {
          RunFromIsRun(request, entries[k := request.Edit(entries[k])], ports, unanswered, from + 1);
        }
    }
  }

  /** The write the toggle sends for `port` over the array it fetched first:
      a disable when the observed `enable` is truthy, an enable otherwise; `None`
      when the array has no entry for the port, where the loop throws. */
  function ToggleWrite(auth: Option<string>, entries: seq<JsObject>, port: Json): Option<Write> {
    match FirstMatch(entries, "portid", port)
    case None => None
    case Some(k) => Some(PoeWrite(StateChange(!Truthy(Field(entries[k], "enable")), auth), port, entries[k]))
  }

  /** `toggle_poe_ports` over the array it fetched first. Each write is sent by
      a nested one-port command that fetches the array again and throws when
      its POST gets no answer. */
  function ToggleRun(auth: Option<string>, entries: seq<JsObject>, ports: seq<Json>, unanswered: set<Json>): Sent
    decreases |ports|
  {
    if ports == [] then Sent([], None)
    else
      match ToggleWrite(auth, entries, ports[0])
      case None => Sent([], Some(TypeError))
      case Some(w) =>
        if ports[0] in unanswered then Sent([], Some(NetworkError))
        else
          var rest := ToggleRun(auth, entries, ports[1..], unanswered);
          Sent([w] + rest.writes, rest.failure)
  }

  /** `ToggleRun` over the ports from index `from` on: the index form the
      toggle loop walks, a proof device that `ToggleFromIsToggleRun` equates
      with `ToggleRun`. */
  function ToggleFrom(auth: Option<string>, entries: seq<JsObject>, ports: seq<Json>, unanswered: set<Json>, from: nat): Sent
    requires from <= |ports|
    decreases |ports| - from
  {
    if from == |ports| then Sent([], None)
    else
      match ToggleWrite(auth, entries, ports[from])
      case None => Sent([], Some(TypeError))
      case Some(w) =>
        if ports[from] in unanswered then Sent([], Some(NetworkError))
        else
          var rest := ToggleFrom(auth, entries, ports, unanswered, from + 1);
          Sent([w] + rest.writes, rest.failure)
  }

  lemma {:induction false} ToggleFromIsToggleRun(auth: Option<string>, entries: seq<JsObject>, ports: seq<Json>, unanswered: set<Json>, from: nat)
    requires from <= |ports|
    ensures ToggleFrom(auth, entries, ports, unanswered, from) == ToggleRun(auth, entries, ports[from..], unanswered)
    decreases |ports| - from
  {
    if from < |ports| {
      assert ports[from..][1..] == ports[from + 1..];
      ToggleFromIsToggleRun(auth, entries, ports, unanswered, from + 1);
    }
  }

  /** The port list names distinct, defined ports. */
  predicate DistinctDefined(ports: seq<Json>) {
    && (forall i | 0 <= i < |ports| :: ports[i] != Undefined)
    && (forall i, j | 0 <= i < j < |ports| :: ports[i] != ports[j])
  }

  /** Editing the entry that matched port `p` (its `portid` is removed) leaves
      the first match of every other defined port where it was. */
  lemma EditKeepsOtherMatches(request: PoeRequest, entries: seq<JsObject>, p: Json, k: nat, q: Json)
    requires FirstMatch(entries, "portid", p) == Some(k)
    requires q != p && q != Undefined
    ensures FirstMatch(entries[k := request.Edit(entries[k])], "portid", q) == FirstMatch(entries, "portid", q)
  {
    var after := entries[k := request.Edit(entries[k])];
    assert !IdIs(after[k], "portid", q);
    assert !IdIs(entries[k], "portid", q);
    assert forall j | 0 <= j < |entries| :: IdIs(after[j], "portid", q) == IdIs(entries[j], "portid", q);
    match FirstMatch(entries, "portid", q)
    case None =>
      assert !HasId(after, "portid", q);
    case Some(m) =>
      FirstMatchIs(after, "portid", q, m);
  }

  /** Write `w` is the one a command sends for port `p` over `entries`: the
      edited first entry whose `portid` is `p`. */
  ghost predicate WritesFirstMatch(request: PoeRequest, entries: seq<JsObject>, p: Json, w: Write) {
    && HasId(entries, "portid", p)
    && w == PoeWrite(request, p, entries[FirstMatch(entries, "portid", p).value])
  }

  /** What holds of a port's write over the entries after another port's edit
      holds over the entries before it. */
  lemma WritesFirstMatchBeforeEdit(request: PoeRequest, entries: seq<JsObject>, p: Json, k: nat, q: Json, w: Write)
    requires FirstMatch(entries, "portid", p) == Some(k)
    requires q != p && q != Undefined
    ensures WritesFirstMatch(request, entries[k := request.Edit(entries[k])], q, w) <==> WritesFirstMatch(request, entries, q, w)
    ensures HasId(entries[k := request.Edit(entries[k])], "portid", q) <==> HasId(entries, "portid", q)
  {
    var after := entries[k := request.Edit(entries[k])];
    EditKeepsOtherMatches(request, entries, p, k, q);
    match FirstMatch(entries, "portid", q)
    case None =>
    case Some(m) =>
      assert IdIs(entries[k], "portid", p);
      assert m != k;
      assert after[m] == entries[m];
  }

  /** Why a command over `entries` stops at port `p` with error `e`: a port the
      array lacks throws a TypeError; a port it holds stops the command only
      when its POST gets no answer, with a NetworkError. */
  predicate StopsAt(entries: seq<JsObject>, p: Json, unanswered: set<Json>, e: Error) {
    if HasId(entries, "portid", p) then p in unanswered && e == NetworkError else e == TypeError
  }

  /** What a write command over `entries` promises about what it sent: at
      most one answered write per port, in list order, each carrying the edited
      first match of its port in the array as fetched; it completes exactly
      when every port was written, and otherwise stops at the first port the
      array lacks or whose POST gets no answer. */
  ghost predicate EachPortWritten(request: PoeRequest, entries: seq<JsObject>, ports: seq<Json>, unanswered: set<Json>, s: Sent) {
    && |s.writes| <= |ports|
    && (s.failure.None? <==> |s.writes| == |ports|)
    && (s.failure.Some? ==> |s.writes| < |ports| && StopsAt(entries, ports[|s.writes|], unanswered, s.failure.value))
    && forall i | 0 <= i < |s.writes| :: ports[i] !in unanswered && WritesFirstMatch(request, entries, ports[i], s.writes[i])
  }

  /** With distinct, defined ports, enable/disable/power-cycle write once per
      port, in list order, each write carrying the edited first match of its
      port in the array as fetched; they stop by throwing at the first port the
      array lacks or whose POST gets no answer, after writing all the ports
      before it. */
  lemma {:induction false} RunWritesEachPort(request: PoeRequest, entries: seq<JsObject>, ports: seq<Json>, unanswered: set<Json>)
    requires DistinctDefined(ports)
    ensures EachPortWritten(request, entries, ports, unanswered, Run(request, entries, ports, unanswered))
    decreases |ports|
  {
    if ports != [] {
      match FirstMatch(entries, "portid", ports[0])
      case None =>
      case Some(k) =>
        if ports[0] !in unanswered {
          var tail := ports[1..];
          assert forall i | 0 <= i < |tail| :: tail[i] == ports[i + 1];
          assert DistinctDefined(tail);
          RunWritesEachPort(request, entries[k := request.Edit(entries[k])], tail, unanswered);
          RunWritesStep(request, entries, ports, unanswered, k);
        }
    }
  }

  /** The step of `RunWritesEachPort`: what the rest of the list sends over
      the edited array, prefixed with the first port's write. */
  lemma RunWritesStep(request: PoeRequest, entries: seq<JsObject>, ports: seq<Json>, unanswered: set<Json>, k: nat)
    requires DistinctDefined(ports) && |ports| > 0 && ports[0] !in unanswered
    requires FirstMatch(entries, "portid", ports[0]) == Some(k)
    requires var after := entries[k := request.Edit(entries[k])];
      EachPortWritten(request, after, ports[1..], unanswered, Run(request, after, ports[1..], unanswered))
    ensures EachPortWritten(request, entries, ports, unanswered, Run(request, entries, ports, unanswered))
  {
    var after := entries[k := request.Edit(entries[k])];
    var tail := ports[1..];
    LaterPortsOverEdit(request, entries, ports, k);
    var rest := Run(request, after, tail, unanswered);
    var s := Run(request, entries, ports, unanswered);
    assert s == Sent([PoeWrite(request, ports[0], entries[k])] + rest.writes, rest.failure);
    assert WritesFirstMatch(request, entries, ports[0], s.writes[0]);
    forall i | 1 <= i < |s.writes|
      ensures ports[i] !in unanswered && WritesFirstMatch(request, entries, ports[i], s.writes[i])
    {
      assert s.writes[i] == rest.writes[i - 1] && ports[i] == tail[i - 1];
    }
    if s.failure.Some? {
      assert ports[|s.writes|] == tail[|rest.writes|];
    }
  }

  /** After the first port's edit, every later port of a distinct, defined list
      is found, and written, as it was before the edit. */
  lemma LaterPortsOverEdit(request: PoeRequest, entries: seq<JsObject>, ports: seq<Json>, k: nat)
    requires DistinctDefined(ports) && |ports| > 0
    requires FirstMatch(entries, "portid", ports[0]) == Some(k)
    ensures forall i | 1 <= i < |ports| ::
      HasId(entries[k := request.Edit(entries[k])], "portid", ports[i]) <==> HasId(entries, "portid", ports[i])
    ensures forall i, w | 1 <= i < |ports| ::
      WritesFirstMatch(request, entries[k := request.Edit(entries[k])], ports[i], w) <==> WritesFirstMatch(request, entries, ports[i], w)
  {
    forall i | 1 <= i < |ports|
      ensures HasId(entries[k := request.Edit(entries[k])], "portid", ports[i]) <==> HasId(entries, "portid", ports[i])
    {
      WritesFirstMatchBeforeEdit(request, entries, ports[0], k, ports[i], PoeWrite(request, ports[i], entries[k]));
    }
    forall i, w | 1 <= i < |ports|
      ensures WritesFirstMatch(request, entries[k := request.Edit(entries[k])], ports[i], w) <==> WritesFirstMatch(request, entries, ports[i], w)
    {
      WritesFirstMatchBeforeEdit(request, entries, ports[0], k, ports[i], w);
    }
  }

  /** The same port listed twice, with one matching entry: the first write
      removes that entry's `portid`, so the second lookup yields `undefined`
      and the command throws after one write. */
  lemma RunRepeatedPortFails(request: PoeRequest, entries: seq<JsObject>, p: Json, unanswered: set<Json>, k: nat)
    requires p != Undefined && p !in unanswered
    requires k < |entries| && IdIs(entries[k], "portid", p)
    requires forall j | 0 <= j < |entries| && j != k :: !IdIs(entries[j], "portid", p)
    ensures Run(request, entries, [p, p], unanswered) == Sent([PoeWrite(request, p, entries[k])], Some(TypeError))
  {
    FirstMatchIs(entries, "portid", p, k);
    var after := entries[k := request.Edit(entries[k])];
    assert !HasId(after, "portid", p);
    assert [p, p][1..] == [p];
  }

  /** The same port listed twice, with at least two matching entries: the
      first write removes the first entry's `portid`, so the second lookup
      finds the next matching entry; both are written and the command
      completes. */
  lemma RunRepeatedPortTwoEntries(request: PoeRequest, entries: seq<JsObject>, p: Json, unanswered: set<Json>, k1: nat, k2: nat)
    requires p != Undefined && p !in unanswered
    requires FirstMatch(entries, "portid", p) == Some(k1)
    requires k1 < k2 < |entries| && IdIs(entries[k2], "portid", p)
    requires forall j | k1 < j < k2 :: !IdIs(entries[j], "portid", p)
    ensures Run(request, entries, [p, p], unanswered)
         == Sent([PoeWrite(request, p, entries[k1]), PoeWrite(request, p, entries[k2])], None)
  {
    var after := entries[k1 := request.Edit(entries[k1])];
    assert Field(after[k1], "portid") == Undefined;
    forall j | 0 <= j < k2
      ensures !IdIs(after[j], "portid", p)
    {
      if j < k1 {
        assert after[j] == entries[j];
      }
    }
    FirstMatchIs(after, "portid", p, k2);
    assert [p, p][1..] == [p];
    assert Run(request, after, [p], unanswered) == Sent([PoeWrite(request, p, entries[k2])], None) by {
      assert [p][1..] == [];
    }
  }

  /** A one-port command whose port is found writes that port's edited entry
      and completes, or, when its POST gets no answer, throws having written nothing. */
  lemma RunSinglePort(request: PoeRequest, entries: seq<JsObject>, p: Json, unanswered: set<Json>, k: nat)
    requires FirstMatch(entries, "portid", p) == Some(k)
    ensures Run(request, entries, [p], unanswered)
         == if p in unanswered then Sent([], Some(NetworkError)) else Sent([PoeWrite(request, p, entries[k])], None)
  {
    assert [p][1..] == [];
  }

  /** Toggle writes once per port, in list order, each with `enable` set to the
      opposite of the truthiness observed in the first fetch, until the first
      port the array lacks or whose POST gets no answer, where it throws.
      Repeated ports are fine: every nested command fetches a fresh array. */
  lemma {:induction false} ToggleWritesEachPort(auth: Option<string>, entries: seq<JsObject>, ports: seq<Json>, unanswered: set<Json>)
    ensures var s := ToggleRun(auth, entries, ports, unanswered);
      && |s.writes| <= |ports|
      && (s.failure.None? <==> |s.writes| == |ports|)
      && (s.failure.Some? ==> |s.writes| < |ports| && StopsAt(entries, ports[|s.writes|], unanswered, s.failure.value))
      && forall i | 0 <= i < |s.writes| ::
           && ports[i] !in unanswered
           && HasId(entries, "portid", ports[i])
           && var config := entries[FirstMatch(entries, "portid", ports[i]).value];
              s.writes[i] == PoeWrite(StateChange(!Truthy(Field(config, "enable")), auth), ports[i], config)
    decreases |ports|
  {
    if ports != [] {
      var tail := ports[1..];
      ToggleWritesEachPort(auth, entries, tail, unanswered);
      assert forall i | 0 <= i < |tail| :: tail[i] == ports[i + 1];
    }
  }

  /** What one turn of the write loop does to the array's values `before`: the
      first entry for `port` is edited and its request returned, or, when its
      POST gets no answer, a NetworkError; with no such entry, the turn fails
      with a type error and nothing changes. */
  ghost predicate OneWrite(request: PoeRequest, before: seq<JsObject>, port: Json, unanswered: set<Json>,
                           w: Result<Write, Error>, after: seq<JsObject>) {
    match FirstMatch(before, "portid", port)
    case None => w == Err(TypeError) && after == before
    case Some(k) =>
      && after == before[k := request.Edit(before[k])]
      && w == if port in unanswered then Err(NetworkError) else Ok(PoeWrite(request, port, before[k]))
  }

  /** A turn of the write loop peels one port off `RunFrom`. */
  lemma RunAfterWrite(request: PoeRequest, before: seq<JsObject>, ports: seq<Json>, unanswered: set<Json>, i: nat,
                      w: Result<Write, Error>, after: seq<JsObject>)
    requires i < |ports| && OneWrite(request, before, ports[i], unanswered, w, after)
    ensures w.Err? ==> RunFrom(request, before, ports, unanswered, i) == Sent([], Some(w.error))
    ensures w.Ok? ==>
      var rest := RunFrom(request, after, ports, unanswered, i + 1);
      RunFrom(request, before, ports, unanswered, i) == Sent([w.value] + rest.writes, rest.failure)
  {
  }

  /** One turn of the write loop: `request.fetch(url, port, map.get_port_configuration(port))`.
      The entry found is edited in place, so the map's values change at its index. */
  method WriteOnePort(request: PoeRequest, status: PortPoeConfigurationMap, port: Json, unanswered: set<Json>)
    returns (w: Result<Write, Error>)
    requires status.Distinct()
    modifies status.items
    ensures OneWrite(request, old(status.Values()), port, unanswered, w, status.Values())
  {
    var config := status.GetPortConfiguration(port);
    status.ConfigurationValue(port);
    w := request.Fetch(port, config, port !in unanswered);
    if config != null {
      ghost var k := FirstMatch(old(status.Values()), "portid", port).value;
      assert config == status.items[k];
    }
  }

  /** A successful turn of the write loop moves one request from what is
      left to send into what has been sent. */
  lemma {:induction false} SendStep(request: PoeRequest, before: seq<JsObject>, ports: seq<Json>, unanswered: set<Json>, i: nat,
                                    w: Result<Write, Error>, after: seq<JsObject>, out: seq<Write>, whole: Sent)
    requires i < |ports| && OneWrite(request, before, ports[i], unanswered, w, after) && w.Ok?
    requires out + RunFrom(request, before, ports, unanswered, i).writes == whole.writes
    requires RunFrom(request, before, ports, unanswered, i).failure == whole.failure
    ensures (out + [w.value]) + RunFrom(request, after, ports, unanswered, i + 1).writes == whole.writes
    ensures RunFrom(request, after, ports, unanswered, i + 1).failure == whole.failure
  {
    RunAfterWrite(request, before, ports, unanswered, i, w, after);
    var rest := RunFrom(request, after, ports, unanswered, i + 1);
    assert (out + [w.value]) + rest.writes == out + ([w.value] + rest.writes);
  }

  /** The loop of a write command over the array it fetched: for each port in
      order one turn of `WriteOnePort`, stopping at the first turn that throws.
      Returns the answered requests. */
  method SendAll(request: PoeRequest, status: PortPoeConfigurationMap, ports: seq<Json>, unanswered: set<Json>)
    returns (r: Result<(), Error>, out: seq<Write>)
    requires status.Distinct()
    modifies status.items
    ensures var s := Run(request, old(status.Values()), ports, unanswered);
      out == s.writes && r == s.Verdict()
  {
    RunFromIsRun(request, status.Values(), ports, unanswered, 0);
    ghost var whole := RunFrom(request, status.Values(), ports, unanswered, 0);
    out := [];
    var i := 0;
    while i < |ports|
      invariant 0 <= i <= |ports|
      invariant status.Distinct()
      invariant out + RunFrom(request, status.Values(), ports, unanswered, i).writes == whole.writes
      invariant RunFrom(request, status.Values(), ports, unanswered, i).failure == whole.failure
    {
      ghost var before := status.Values();
      var w := WriteOnePort(request, status, ports[i], unanswered);
      if w.Err? {
        RunAfterWrite(request, before, ports, unanswered, i, w, status.Values());
        return Err(w.error), out;
      }
      SendStep(request, before, ports, unanswered, i, w, status.Values(), out, whole);
      out := out + [w.value];
      i := i + 1;
    }
    r := Ok(());
  }

  /** A successful turn of the toggle loop moves one request from what is
      left to send into what has been sent. */
  lemma ToggleStep(auth: Option<string>, entries: seq<JsObject>, ports: seq<Json>, unanswered: set<Json>, i: nat,
                   done: seq<Write>, whole: Sent)
    requires i < |ports| && ToggleWrite(auth, entries, ports[i]).Some? && ports[i] !in unanswered
    requires done + ToggleFrom(auth, entries, ports, unanswered, i).writes == whole.writes
    requires ToggleFrom(auth, entries, ports, unanswered, i).failure == whole.failure
    ensures (done + [ToggleWrite(auth, entries, ports[i]).value]) + ToggleFrom(auth, entries, ports, unanswered, i + 1).writes
         == whole.writes
    ensures ToggleFrom(auth, entries, ports, unanswered, i + 1).failure == whole.failure
  {
    var w := ToggleWrite(auth, entries, ports[i]).value;
    var rest := ToggleFrom(auth, entries, ports, unanswered, i + 1);
    assert ToggleFrom(auth, entries, ports, unanswered, i) == Sent([w] + rest.writes, rest.failure);
    assert (done + [w]) + rest.writes == done + ([w] + rest.writes);
  }

  /** What `power_cycle_switch()` sends and how it ends: the reboot order, two
      seconds ahead, is sent once the device answers; the call throws when
      there is no answer or the answer is not JSON. */
  function RebootSent(auth: Option<string>, reply: PostReply): Sent {
    match reply
    case NoAnswer => Sent([], Some(NetworkError))
    case NotJsonAnswer => Sent([Post(auth, Reboot, DeviceReboot(2))], Some(NetworkError))
    case JsonAnswer => Sent([Post(auth, Reboot, DeviceReboot(2))], None)
  }

  /** The client object `NetgearM4250`. `sent` records every POST the device answered. */
  class NetgearM4250 {
    const host: string
    const username: string
    const password: string
    var token: Option<string>
    var loginExpiresAt: Expiry
    var sent: seq<Write>

    constructor (host: string, username: string, password: string)
      ensures this.host == host && this.username == username && this.password == password
      ensures token == None && loginExpiresAt == Unset && sent == []
    {
      this.host, this.username, this.password := host, username, password;
      token := None;
      loginExpiresAt := Unset;
      sent := [];
    }

    /** `login()`: on a 'success' reply, takes its token and sets the expiry to
        `now` plus the reply's lifetime; otherwise throws, changing nothing. */
    method Login(reply: LoginReply, now: int) returns (r: Result<bool, Error>)
      modifies this`token, this`loginExpiresAt
      ensures LoginOutcome(reply).Ok? ==>
                && r == Ok(true)
                && token == Some(LoginOutcome(reply).value.token)
                && loginExpiresAt == ExpiryAfter(now, LoginOutcome(reply).value.expireSeconds)
      ensures LoginOutcome(reply).Err? ==>
                r == Err(LoginOutcome(reply).error) && token == old(token) && loginExpiresAt == old(loginExpiresAt)
    {
      match reply
      case Unreachable =>
        return Err(NetworkError);
      case Unparseable(text) =>
        return Err(NotJson(text));
      case Parsed(status, respMsg, login) =>
        if status != "success" {
          return Err(Rejected(respMsg));
        }
        if login.None? {
          return Err(TypeError);
        }
        token := Some(login.value.token);
        loginExpiresAt := ExpiryAfter(now, login.value.expireSeconds);
        r := Ok(true);
    }

    /** `get_port_poe_status()`: a fresh map over the fetched array. */
    method GetPortPoeStatus(dev: Replies) returns (r: Result<PortPoeConfigurationMap, Error>)
      ensures dev.poeConfig.None? ==> r == Err(NetworkError)
      ensures dev.poeConfig.Some? ==> r.Ok? && fresh(r.value) && r.value.Values() == dev.poeConfig.value
      ensures dev.poeConfig.Some? ==> r.value.Distinct() && forall i | 0 <= i < |r.value.items| :: fresh(r.value.items[i])
    {
      if dev.poeConfig.None? {
        return Err(NetworkError);
      }
      var m := new PortPoeConfigurationMap(dev.poeConfig.value);
      r := Ok(m);
    }

    /** `get_port_stats()` */
    method GetPortStats(dev: Replies) returns (r: Result<PortStatsMap, Error>)
      ensures dev.portStats.None? ==> r == Err(NetworkError)
      ensures dev.portStats.Some? ==> r == Ok(PortStatsMap(dev.portStats.value))
    {
      if dev.portStats.None? {
        return Err(NetworkError);
      }
      r := Ok(PortStatsMap(dev.portStats.value));
    }

    /** `get_device_status()`: the `deviceInfo` object. */
    method GetDeviceStatus(dev: Replies) returns (r: Result<JsObject, Error>)
      ensures dev.deviceInfo.None? ==> r == Err(NetworkError)
      ensures dev.deviceInfo.Some? ==> r == Ok(dev.deviceInfo.value)
    {
      if dev.deviceInfo.None? {
        return Err(NetworkError);
      }
      r := Ok(dev.deviceInfo.value);
    }

    /** `get_device_name()`, the cheap authenticated GET used as a liveness probe. */
    method GetDeviceName(dev: Replies) returns (r: Result<string, Error>)
      ensures r.Ok? <==> dev.deviceName.Some?
      ensures r.Ok? ==> r.value == dev.deviceName.value
    {
      if dev.deviceName.None? {
        return Err(NetworkError);
      }
      r := Ok(dev.deviceName.value);
    }

    /** The loop shared by enable, disable and power-cycle: fetch the PoE array
        once, then for each port in order look it up and let `request` edit and
        send it; the first lookup that yields `undefined` and the first POST
        that gets no answer throw. */
    method WriteEachPort(request: PoeRequest, ports: seq<Json>, dev: Replies) returns (r: Result<(), Error>)
      modifies this`sent
      ensures dev.poeConfig.None? ==> r == Err(NetworkError) && sent == old(sent)
      ensures dev.poeConfig.Some? ==>
                var s := Run(request, dev.poeConfig.value, ports, dev.unanswered);
                sent == old(sent) + s.writes && r == s.Verdict()
    {
      var fetched := GetPortPoeStatus(dev);
      if fetched.Err? {
        return Err(fetched.error);
      }
      var out;
      r, out := SendAll(request, fetched.value, ports, dev.unanswered);
      sent := sent + out;
    }

    /** `enable_poe_ports(ports)` */
    method EnablePoePorts(ports: seq<Json>, dev: Replies) returns (r: Result<(), Error>)
      modifies this`sent
      ensures dev.poeConfig.None? ==> r == Err(NetworkError) && sent == old(sent)
      ensures dev.poeConfig.Some? ==>
                var s := Run(StateChange(true, token), dev.poeConfig.value, ports, dev.unanswered);
                sent == old(sent) + s.writes && r == s.Verdict()
    {
      r := WriteEachPort(StateChange(true, token), ports, dev);
    }

    /** `disable_poe_ports(ports)` */
    method DisablePoePorts(ports: seq<Json>, dev: Replies) returns (r: Result<(), Error>)
      modifies this`sent
      ensures dev.poeConfig.None? ==> r == Err(NetworkError) && sent == old(sent)
      ensures dev.poeConfig.Some? ==>
                var s := Run(StateChange(false, token), dev.poeConfig.value, ports, dev.unanswered);
                sent == old(sent) + s.writes && r == s.Verdict()
    {
      r := WriteEachPort(StateChange(false, token), ports, dev);
    }

    /** One turn of the toggle loop: a nested disable of `port` when the
        observed `enable` is truthy, an enable otherwise. */
    method ToggleOne(status: PortPoeConfigurationMap, port: Json, dev: Replies) returns (r: Result<(), Error>)
      requires dev.poeConfig.Some? && status.Values() == dev.poeConfig.value
      modifies this`sent
      ensures match ToggleWrite(token, dev.poeConfig.value, port)
        case None => r == Err(TypeError) && sent == old(sent)
        case Some(w) =>
          if port in dev.unanswered then r == Err(NetworkError) && sent == old(sent)
          else r == Ok(()) && sent == old(sent) + [w]
    {
      var config := status.GetPortConfiguration(port);
      status.ConfigurationValue(port);
      ghost var entries := dev.poeConfig.value;
      if config == null {
        return Err(TypeError);
      }
      ghost var k := FirstMatch(entries, "portid", port).value;
      if Truthy(Field(config.fields, "enable")) {
        RunSinglePort(StateChange(false, token), entries, port, dev.unanswered, k);
        r := DisablePoePorts([port], dev);
      } else {
        RunSinglePort(StateChange(true, token), entries, port, dev.unanswered, k);
        r := EnablePoePorts([port], dev);
      }
    }

    /** `power_cycle_poe_ports(ports)` */
    method PowerCyclePoePorts(ports: seq<Json>, dev: Replies) returns (r: Result<(), Error>)
      modifies this`sent
      ensures dev.poeConfig.None? ==> r == Err(NetworkError) && sent == old(sent)
      ensures dev.poeConfig.Some? ==>
                var s := Run(PowerCycle(token), dev.poeConfig.value, ports, dev.unanswered);
                sent == old(sent) + s.writes && r == s.Verdict()
    {
      r := WriteEachPort(PowerCycle(token), ports, dev);
    }

    /** `toggle_poe_ports(ports)`: one fetch to decide, then per port a nested
        `disable_poe_ports([port])` or `enable_poe_ports([port])`, each of
        which fetches the array again. */
    method TogglePoePorts(ports: seq<Json>, dev: Replies) returns (r: Result<(), Error>)
      modifies this`sent
      ensures dev.poeConfig.None? ==> r == Err(NetworkError) && sent == old(sent)
      ensures dev.poeConfig.Some? ==>
                var s := ToggleRun(token, dev.poeConfig.value, ports, dev.unanswered);
                sent == old(sent) + s.writes && r == s.Verdict()
    {
      var fetched := GetPortPoeStatus(dev);
      if fetched.Err? {
        return Err(fetched.error);
      }
      r := ToggleEach(fetched.value, ports, dev);
    }

    /** The loop of `toggle_poe_ports` over the array it fetched. */
    method ToggleEach(status: PortPoeConfigurationMap, ports: seq<Json>, dev: Replies) returns (r: Result<(), Error>)
      requires dev.poeConfig.Some? && status.Values() == dev.poeConfig.value
      modifies this`sent
      ensures var s := ToggleRun(token, dev.poeConfig.value, ports, dev.unanswered);
        sent == old(sent) + s.writes && r == s.Verdict()
    {
      ghost var entries := dev.poeConfig.value;
      ghost var auth := token;
      ToggleFromIsToggleRun(auth, entries, ports, dev.unanswered, 0);
      ghost var whole := ToggleFrom(auth, entries, ports, dev.unanswered, 0);
      ghost var done: seq<Write> := [];
      var i := 0;
      while i < |ports|
        invariant 0 <= i <= |ports|
        invariant done + ToggleFrom(auth, entries, ports, dev.unanswered, i).writes == whole.writes
        invariant ToggleFrom(auth, entries, ports, dev.unanswered, i).failure == whole.failure
        invariant sent == old(sent) + done
      {
        var nested := ToggleOne(status, ports[i], dev);
        if nested.Err? {
          return nested;
        }
        ToggleStep(auth, entries, ports, dev.unanswered, i, done, whole);
        done := done + [ToggleWrite(auth, entries, ports[i]).value];
        i := i + 1;
      }
      r := Ok(());
    }

    /** `power_cycle_switch()`: order a reboot two seconds ahead; the call
        throws when the device does not answer or its answer is not JSON. */
    method PowerCycleSwitch(dev: Replies) returns (r: Result<(), Error>)
      modifies this`sent
      ensures var s := RebootSent(token, dev.reboot);
        sent == old(sent) + s.writes && r == s.Verdict()
    {
      if dev.reboot.NoAnswer? {
        return Err(NetworkError);
      }
      sent := sent + [Post(token, Reboot, DeviceReboot(2))];
      if dev.reboot.NotJsonAnswer? {
        return Err(NetworkError);
      }
      r := Ok(());
    }

    /** `port_has_link(port)`: the port's `speed` is not the no-link code 130;
        throws when the port is missing. */
    method PortHasLink(portNumber: Json, dev: Replies) returns (r: Result<bool, Error>)
      ensures dev.portStats.None? ==> r == Err(NetworkError)
      ensures dev.portStats.Some? && !HasId(dev.portStats.value, "portId", portNumber) ==> r == Err(TypeError)
      ensures dev.portStats.Some? && HasId(dev.portStats.value, "portId", portNumber) ==>
                r.Ok? && exists i | 0 <= i < |dev.portStats.value| ::
                  && IdIs(dev.portStats.value[i], "portId", portNumber)
                  && (forall j | 0 <= j < i :: !IdIs(dev.portStats.value[j], "portId", portNumber))
                  && (r.value <==> !StrictEquals(Field(dev.portStats.value[i], "speed"), Num(130)))
    {
      var fetched := GetPortStats(dev);
      if fetched.Err? {
        return Err(fetched.error);
      }
      var port := fetched.value.GetPortStats(portNumber);
      if port.None? {
        return Err(TypeError);
      }
      r := Ok(!StrictEquals(Field(port.value, "speed"), Num(130)));
    }
  }
}
