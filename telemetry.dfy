/**
 * The payloads a simulated device builds (data_handler.go:105-143, 171-299,
 * 320-378, 411-519), as values over the JSON tree, together with the
 * device's attribute record and the rule by which a property-set request
 * changes it. Randomness and the clock are parameters: a `StaticDraw` or
 * `DynamicDraw` holds the numbers `rand.Int31n` returned, `nowMs` the
 * millisecond clock used for message ids, `unixSec` the Unix time in seconds.
 */
module Telemetry {
  import opened Wrappers
  import opened JsonValue
  import opened Topics
  import opened Decimal

  type Int32 = x: int | -0x8000_0000 <= x < 0x8000_0000

  /** The attributes a `Device` updates in place, with its one-slot control mailbox. */
  datatype DeviceState = DeviceState(out: Int32, relay: Int32, interval: Int32, control: Option<Int32>)

  /** The state `initDeviceState` creates (data_handler.go:78-84). */
  const InitialState: DeviceState := DeviceState(0, 0, 10, None)

  // ------------------------------------------------------------------
  // Raw attributes
  // ------------------------------------------------------------------

  /** The five draws of `generateRawStaticProperties`, in source order. */
  datatype StaticDraw = StaticDraw(imsi: int, lac: int, cid: int, ss: int, wifiImsi: int)

  /** What `rand.Int31n(n)` can return for each draw: a value in [0, n). */
  predicate ValidStaticDraw(d: StaticDraw) {
    && 0 <= d.imsi < 999999999
    && 0 <= d.lac < 10
    && 0 <= d.cid < 100
    && 0 <= d.ss < 20
    && 0 <= d.wifiImsi < 1000
  }

  /** The two draws of `generateRawDynamicProperties`. */
  datatype DynamicDraw = DynamicDraw(temperature: int, csq: int)

  predicate ValidDynamicDraw(d: DynamicDraw) {
    0 <= d.temperature < 40 && 0 <= d.csq < 31
  }

  const StaticKeys: set<string> := {"imsi", "cell_info", "macs", "$OneNET_LBS", "$OneNET_LBS_WIFI"}
  const DynamicKeys: set<string> := {"temperature", "csq", "OUT", "relay", "interval"}

  /** `generateRawStaticProperties` (data_handler.go:106-130). */
  function RawStatic(d: StaticDraw): (m: map<string, Json>)
    ensures m.Keys == StaticKeys
  {
    map[
      "imsi" := JStr("46000" + IntString(d.imsi)),
      "cell_info" := JArr([JStr("LAC:" + IntString(1024 + d.lac)), JStr("CID:" + IntString(2048 + d.cid))]),
      "macs" := JArr([JStr("AA:BB:CC:DD:EE:FF"), JStr("11:22:33:44:55:66")]),
      "$OneNET_LBS" := JArr([JObj(map[
        "mnc" := JNum(1), "mcc" := JNum(460), "lac" := JNum(1024), "cid" := JNum(2048),
        "networkType" := JNum(2), "ss" := JNum(80 + d.ss),
        "signalLength" := JNum(100), "ta" := JNum(1), "flag" := JNum(1)])]),
      "$OneNET_LBS_WIFI" := JObj(map[
        "imsi" := JStr("WIFI_IMSI_" + IntString(d.wifiImsi)),
        "serverip" := JStr(""), "macs" := JStr(""), "mmac" := JStr(""), "smac" := JStr(""), "idfa" := JStr("")])
    ]
  }

  /** `generateRawDynamicProperties` (data_handler.go:133-143). */
  function RawDynamic(s: DeviceState, d: DynamicDraw): (m: map<string, Json>)
    ensures m.Keys == DynamicKeys
  {
    map[
      "temperature" := JNum(d.temperature + 10),
      "csq" := JNum(d.csq),
      "OUT" := JNum(s.out),
      "relay" := JNum(s.relay),
      "interval" := JNum(s.interval)
    ]
  }

  /** The static and dynamic attribute names never clash, so merging never overwrites. */
  lemma KeySetsDisjoint()
    ensures StaticKeys !! DynamicKeys
    ensures |StaticKeys| == 5 && |DynamicKeys| == 5 && |StaticKeys + DynamicKeys| == 10
  {
  }

  /**
   * With draws `rand.Int31n` can return, the cell is LAC 1024-1033 and CID
   * 2048-2147, the LBS signal strength lies in [80,99], and the fixed LBS
   * fields keep their constants.
   */
  lemma StaticValues(d: StaticDraw)
    requires ValidStaticDraw(d)
    ensures var m := RawStatic(d);
      && m["cell_info"].JArr? && |m["cell_info"].items| == 2
      && (exists lac :: 1024 <= lac <= 1033 && m["cell_info"].items[0] == JStr("LAC:" + IntString(lac)))
      && (exists cid :: 2048 <= cid <= 2147 && m["cell_info"].items[1] == JStr("CID:" + IntString(cid)))
      && m["$OneNET_LBS"].JArr? && |m["$OneNET_LBS"].items| == 1
      && var lbs := m["$OneNET_LBS"].items[0];
      && lbs.JObj? && "ss" in lbs.fields && lbs.fields["ss"].JNum?
      && 80 <= lbs.fields["ss"].n <= 99
      && lbs.fields["lac"] == JNum(1024) && lbs.fields["cid"] == JNum(2048)
  {
    var m := RawStatic(d);
    assert m["cell_info"].items[0] == JStr("LAC:" + IntString(1024 + d.lac));
    assert m["cell_info"].items[1] == JStr("CID:" + IntString(2048 + d.cid));
  }

  /**
   * The dynamic attributes: a temperature in [10, 49], a signal quality in
   * [0, 30], and the current OUT, relay and interval fields.
   */
  lemma DynamicValues(s: DeviceState, d: DynamicDraw)
    requires ValidDynamicDraw(d)
    ensures var m := RawDynamic(s, d);
      && m["temperature"].JNum? && 10 <= m["temperature"].n <= 49
      && m["csq"].JNum? && 0 <= m["csq"].n <= 30
      && m["OUT"] == JNum(s.out) && m["relay"] == JNum(s.relay) && m["interval"] == JNum(s.interval)
  {
  }

  // ------------------------------------------------------------------
  // Property reports (property/post)
  // ------------------------------------------------------------------

  const Version: string := "1.0"

  /** One outbound MQTT publish: every publish in the core uses QoS 1, not retained. */
  datatype Publish = Publish(topic: string, qos: int, payload: Json)

  function Message(msgId: string, params: Json): Json {
    JObj(map["id" := JStr(msgId), "version" := JStr(Version), "params" := params])
  }

  /**
   * The `params` of a property report (data_handler.go:175-193): the cached
   * wrapped static snapshot merged with freshly wrapped dynamic attributes,
   * or only the latter with `relay` written once more.
   */
  function PropertyParams(full: bool, staticProps: map<string, Json>, s: DeviceState, d: DynamicDraw): map<string, Json> {
    if full then staticProps + WrapEach(RawDynamic(s, d))
    else WrapEach(RawDynamic(s, d))["relay" := Wrap(JNum(s.relay))]
  }

  /** `postDeviceProperty` (data_handler.go:171-212): the publish it issues. */
  function PropertyPublish(deviceName: string, full: bool, staticProps: map<string, Json>,
                           s: DeviceState, nowMs: int, d: DynamicDraw): Publish {
    Publish(GetTopic(deviceName, Template(PropertyPost)), 1,
            Message(IntString(nowMs), JObj(PropertyParams(full, staticProps, s, d))))
  }

  /**
   * A full report carries exactly the ten static and dynamic attributes, each
   * in a value envelope; unwrapping them gives back the static snapshot the
   * device cached and the dynamic attributes it just generated.
   */
  lemma FullReport(sd: StaticDraw, s: DeviceState, d: DynamicDraw)
    ensures var params := PropertyParams(true, WrapEach(RawStatic(sd)), s, d);
      && params.Keys == StaticKeys + DynamicKeys
      && |params| == 10
      && (forall k :: k in params ==> IsEnvelope(params[k]))
      && UnwrapEach(params) == RawStatic(sd) + RawDynamic(s, d)
  {
    var st, dy := RawStatic(sd), RawDynamic(s, d);
    KeySetsDisjoint();
    WrapEachUnion(st, dy);
    UnwrapWrapEach(st + dy);
    assert (st + dy).Keys == StaticKeys + DynamicKeys;
  }

  /**
   * A periodic report carries exactly the five dynamic attributes, each in a
   * value envelope, with `relay` holding the current relay field.
   */
  lemma PartialReport(staticProps: map<string, Json>, s: DeviceState, d: DynamicDraw)
    ensures var params := PropertyParams(false, staticProps, s, d);
      && params.Keys == DynamicKeys
      && |params| == 5
      && (forall k :: k in params ==> IsEnvelope(params[k]))
      && params["relay"] == Wrap(JNum(s.relay))
      && UnwrapEach(params) == RawDynamic(s, d)
  {
    var params := PropertyParams(false, staticProps, s, d);
    assert params == WrapEach(RawDynamic(s, d));
    UnwrapWrapEach(RawDynamic(s, d));
    KeySetsDisjoint();
  }

  /** Every property report goes to property/post with version "1.0" and the clock as id. */
  lemma PropertyPublishShape(deviceName: string, full: bool, staticProps: map<string, Json>,
                             s: DeviceState, nowMs: int, d: DynamicDraw)
    ensures var p := PropertyPublish(deviceName, full, staticProps, s, nowMs, d);
      && p.topic == TopicPath("", deviceName, PropertyPost)
      && p.payload.fields["version"] == JStr("1.0")
      && p.payload.fields["id"].JStr? && ParseInt(p.payload.fields["id"].s) == nowMs
  {
    GetTopicTemplate(deviceName, PropertyPost);
    IntStringRoundTrip(nowMs);
  }

  // ------------------------------------------------------------------
  // Event reports (event/post or pack/post)
  // ------------------------------------------------------------------

  datatype EventFormat = FormatDirect | FormatWrapped | FormatBatch

  const EventKeys: set<string> := {"powerOff", "overcurrent", "smoke", "IN1", "IN2"}

  /** The alarm flags of `postDeviceEvent` (data_handler.go:225-231); `alarm` is `rand.Int31n(2)`. */
  function RawEventParams(alarm: int): (m: map<string, Json>)
    ensures m.Keys == EventKeys
  {
    map["powerOff" := JNum(alarm), "overcurrent" := JNum(0), "smoke" := JNum(0), "IN1" := JNum(1), "IN2" := JNum(0)]
  }

  /** The payload parameters and topic of one event report in each format (data_handler.go:233-299). */
  function EventParams(format: EventFormat, eventId: string, alarm: int, unixSec: int): Json {
    match format
    case FormatDirect => JObj(map[eventId := Wrap(JObj(RawEventParams(alarm)))])
    case FormatWrapped => JObj(WrapEach(RawEventParams(alarm)))
    case FormatBatch =>
      JObj(map[
        "properties" := JObj(map[]),
        "events" := JArr([JObj(map["identifier" := JStr("alarm"), "params" := JObj(RawEventParams(alarm)), "time" := JNum(unixSec)])])
      ])
  }

  function EventChannel(format: EventFormat): Channel {
    if format == FormatBatch then PackPost else EventPost
  }

  /** `postDeviceEvent` (data_handler.go:216-312): the publish it issues. */
  function EventPublish(deviceName: string, format: EventFormat, eventId: string,
                        nowMs: int, alarm: int, unixSec: int): Publish {
    Publish(GetTopic(deviceName, Template(EventChannel(format))), 1,
            Message(IntString(nowMs), EventParams(format, eventId, alarm, unixSec)))
  }

  /** Every event flag is 0 or 1, and exactly the five flags are present. */
  lemma EventFlags(alarm: int)
    requires 0 <= alarm < 2
    ensures var m := RawEventParams(alarm);
      m.Keys == EventKeys && forall k :: k in m ==> m[k] == JNum(0) || m[k] == JNum(1)
  {
  }

  /**
   * The three formats: direct and wrapped go to event/post, batch to
   * pack/post; direct nests the raw flags under the event id, wrapped wraps
   * each flag, batch sends an empty `properties` object and one event named
   * "alarm" whatever the event id.
   */
  lemma EventFormats(deviceName: string, format: EventFormat, eventId: string, nowMs: int, alarm: int, unixSec: int)
    ensures var p := EventPublish(deviceName, format, eventId, nowMs, alarm, unixSec);
      var params := p.payload.fields["params"];
      && p.payload.fields["version"] == JStr("1.0")
      && (format != FormatBatch ==> p.topic == TopicPath("", deviceName, EventPost))
      && (format == FormatBatch ==> p.topic == TopicPath("", deviceName, PackPost))
      && (format == FormatDirect ==>
            params.fields.Keys == {eventId} && Unwrap(params.fields[eventId]) == Some(JObj(RawEventParams(alarm))))
      && (format == FormatWrapped ==>
            params.fields.Keys == EventKeys && UnwrapEach(params.fields) == RawEventParams(alarm))
      && (format == FormatBatch ==>
            && params.fields["properties"] == JObj(map[])
            && |params.fields["events"].items| == 1
            && params.fields["events"].items[0].fields["identifier"] == JStr("alarm")
            && params.fields["events"].items[0].fields["params"] == JObj(RawEventParams(alarm)))
  {
    GetTopicTemplate(deviceName, EventChannel(format));
    UnwrapWrapEach(RawEventParams(alarm));
    WrapUnwrap(JObj(RawEventParams(alarm)), JNull);
  }

  // ------------------------------------------------------------------
  // Inbound messages and replies
  // ------------------------------------------------------------------

  /** An inbound payload after `json.Unmarshal` into a map: either it failed, or a JSON object. */
  datatype Inbound = Malformed | Object(fields: map<string, Json>)

  /** `req["id"]`: a missing key reads as JSON null. */
  function RequestId(fields: map<string, Json>): Json {
    if "id" in fields then fields["id"] else JNull
  }

  /** The property-set acknowledgement (data_handler.go:454-459). */
  function SetReply(id: Json): Json {
    JObj(map["id" := id, "version" := JStr(Version), "code" := JNum(200), "msg" := JStr("success")])
  }

  /** The property-get reply (data_handler.go:499-505): raw values, no envelopes. */
  function GetReply(id: Json, data: map<string, Json>): Json {
    JObj(map["id" := id, "version" := JStr(Version), "code" := JNum(200), "msg" := JStr("success"), "data" := JObj(data)])
  }

  /** Both replies echo the request id and carry version "1.0", code 200 and msg "success"; the get reply adds the data. */
  lemma ReplyFields(id: Json, data: map<string, Json>)
    ensures SetReply(id).fields.Keys == {"id", "version", "code", "msg"}
    ensures GetReply(id, data).fields.Keys == {"id", "version", "code", "msg", "data"}
    ensures SetReply(id).fields["id"] == id && GetReply(id, data).fields["id"] == id
    ensures SetReply(id).fields["version"] == JStr("1.0") && GetReply(id, data).fields["version"] == JStr("1.0")
    ensures SetReply(id).fields["code"] == JNum(200) && GetReply(id, data).fields["code"] == JNum(200)
    ensures SetReply(id).fields["msg"] == JStr("success") && GetReply(id, data).fields["msg"] == JStr("success")
    ensures GetReply(id, data).fields["data"] == JObj(data)
  {
  }

  /** What a reply handler concludes about a platform reply. */
  datatype Ack =
    | ParseFailed   // the payload did not unmarshal; logged and dropped
    | Confirmed     // code 200
    | Rejected      // code missing, or a number other than 200
    | Panics        // code present but not a number: the `code.(float64)` assertion panics

  /** `handlePropertyPostReply`, `handleEventPostReply` and `handlePackPostReply` (data_handler.go:320-378). */
  function ReplyAck(msg: Inbound): (a: Ack)
    ensures a == Confirmed <==> msg.Object? && "code" in msg.fields && msg.fields["code"] == JNum(200)
    ensures a == ParseFailed <==> msg.Malformed?
    ensures a == Panics <==> msg.Object? && "code" in msg.fields && !msg.fields["code"].JNum?
  {
    match msg
    case Malformed => ParseFailed
    case Object(fields) =>
      if "code" !in fields then Rejected
      else match fields["code"]
        case JNum(n) => if n == 200 then Confirmed else Rejected
        case _ => Panics
  }

  // ------------------------------------------------------------------
  // Property-set requests
  // ------------------------------------------------------------------

  /** The names `handlePropertySet` writes (data_handler.go:431-448). */
  const WritableKeys: set<string> := {"OUT", "relay", "interval"}

  /** `params[key]` is present and a JSON number. */
  predicate NumericParam(params: map<string, Json>, key: string) {
    key in params && params[key].JNum?
  }

  predicate IsInt32(n: int) {
    -0x8000_0000 <= n < 0x8000_0000
  }

  /** The recognised numeric parameters are within int32 range. */
  predicate WritableFitInt32(params: map<string, Json>) {
    forall k :: k in WritableKeys && NumericParam(params, k) ==> IsInt32(params[k].n)
  }

  /** The `params` object of a request, when there is one. */
  function SetParams(msg: Inbound): Option<map<string, Json>> {
    if msg.Object? && "params" in msg.fields && msg.fields["params"].JObj? then Some(msg.fields["params"].fields)
    else None
  }

  /**
   * The effect of one parameter (one pass of the loop at
   * data_handler.go:427-450). Setting `interval` offers the new value to the
   * mailbox without blocking: it is taken only when the slot is empty, and
   * otherwise the value already pending stays.
   */
  function ApplyParam(s: DeviceState, key: string, v: Json): DeviceState
    requires key in WritableKeys && v.JNum? ==> IsInt32(v.n)
  {
    if !v.JNum? then s
    else if key == "OUT" then s.(out := v.n)
    else if key == "relay" then s.(relay := v.n)
    else if key == "interval" then
      s.(interval := v.n, control := if s.control.None? then Some(v.n) else s.control)
    else s
  }

  /** The new state after all parameters of a request, in whatever order a map yields them. */
  function ApplySet(s: DeviceState, params: map<string, Json>): (r: DeviceState)
    requires WritableFitInt32(params)
  {
    var out := if NumericParam(params, "OUT") then params["OUT"].n else s.out;
    var relay := if NumericParam(params, "relay") then params["relay"].n else s.relay;
    var interval := if NumericParam(params, "interval") then params["interval"].n else s.interval;
    var control := if NumericParam(params, "interval") && s.control.None? then Some(interval) else s.control;
    DeviceState(out, relay, interval, control)
  }

  /**
   * Applying one more parameter to an already applied map is the same as
   * applying the enlarged map: the order in which the loop visits the keys
   * does not matter.
   */
  lemma ApplySetExtend(s: DeviceState, params: map<string, Json>, key: string, v: Json)
    requires key !in params
    requires WritableFitInt32(params[key := v])
    ensures WritableFitInt32(params)
    ensures ApplySet(s, params[key := v]) == ApplyParam(ApplySet(s, params), key, v)
  {
    var m := params[key := v];
    assert forall k :: k in WritableKeys && NumericParam(params, k) ==> NumericParam(m, k) && m[k] == params[k];
  }

  /** A request without a numeric OUT, relay or interval changes nothing. */
  lemma ApplySetIgnoresOthers(s: DeviceState, params: map<string, Json>)
    requires forall k :: k in WritableKeys ==> !NumericParam(params, k)
    ensures ApplySet(s, params) == s
  {
  }

  /**
   * Each recognised numeric parameter is written to its own field; the
   * others keep their values.
   */
  lemma ApplySetFields(s: DeviceState, params: map<string, Json>)
    requires WritableFitInt32(params)
    ensures var r := ApplySet(s, params);
      && (r.out == if NumericParam(params, "OUT") then params["OUT"].n else s.out)
      && (r.relay == if NumericParam(params, "relay") then params["relay"].n else s.relay)
      && (r.interval == if NumericParam(params, "interval") then params["interval"].n else s.interval)
  {
  }

  /**
   * The mailbox keeps the first pending value: it takes the new interval
   * only when it was empty, and when it already held a value that value
   * stays, while the interval field is updated either way.
   */
  lemma MailboxFirstPendingWins(s: DeviceState, params: map<string, Json>)
    requires WritableFitInt32(params)
    ensures var r := ApplySet(s, params);
      && (s.control.Some? ==> r.control == s.control)
      && (s.control.None? && NumericParam(params, "interval") ==> r.control == Some(params["interval"].n))
      && (!NumericParam(params, "interval") ==> r.control == s.control)
  {
  }

  /**
   * Two interval updates before the runner reads the mailbox: the mailbox
   * holds the first value, the interval field the second.
   */
  lemma TwoIntervalUpdates(s: DeviceState, a: Int32, b: Int32)
    requires s.control.None?
    ensures var s1 := ApplySet(s, map["interval" := JNum(a)]);
      var s2 := ApplySet(s1, map["interval" := JNum(b)]);
      s2.control == Some(a) && s2.interval == b
  {
    var m1 := map["interval" := JNum(a)];
    var m2 := map["interval" := JNum(b)];
    assert NumericParam(m1, "interval") && !NumericParam(m1, "OUT") && !NumericParam(m1, "relay");
    assert NumericParam(m2, "interval") && !NumericParam(m2, "OUT") && !NumericParam(m2, "relay");
  }
}
