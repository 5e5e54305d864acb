/**
 * One simulated device session (data_handler.go): the `Device` object whose
 * fields the property-set handler updates in place, the loops that build
 * wrapped property maps, the handlers for inbound platform messages and the
 * topic dispatch of `createMessageHandler`.
 *
 * A publish is modelled as the `Publish` value handed to the MQTT client;
 * whether the broker acknowledged it (`token.Wait() && token.Error() != nil`)
 * is the boolean `replyDelivered` where the code branches on it.
 */
module Session {
  import opened Wrappers
  import opened JsonValue
  import opened Topics
  import opened Decimal
  import opened Telemetry

  // ------------------------------------------------------------------
  // Map-building loops
  // ------------------------------------------------------------------

  /**
   * The `for k, v := range rawProps { wrappedProps[k] = wrapValue(v) }` loop
   * of `generateStaticProperties` / `generateDynamicProperties`
   * (data_handler.go:146-163) and of the wrapped event format
   * (data_handler.go:260-263).
   */
  method WrapProps(raw: map<string, Json>) returns (wrapped: map<string, Json>)
    ensures wrapped == WrapEach(raw)
  {
    wrapped := map[];
    var pending := raw.Keys;
    while pending != {}
      invariant pending <= raw.Keys
      invariant wrapped.Keys == raw.Keys - pending
      invariant forall k :: k in wrapped ==> wrapped[k] == Wrap(raw[k])
      decreases pending
    {
      var k :| k in pending;
      wrapped := wrapped[k := Wrap(raw[k])];
      pending := pending - {k};
    }
  }

  /** Copies `over` into a copy of `base` key by key: a key present in both takes `over`'s value. */
  method CopyInto(base: map<string, Json>, over: map<string, Json>) returns (merged: map<string, Json>)
    ensures merged.Keys == base.Keys + over.Keys
    ensures forall k :: k in over ==> merged[k] == over[k]
    ensures forall k :: k in base && k !in over ==> merged[k] == base[k]
  {
    merged := base;
    var pending := over.Keys;
    while pending != {}
      invariant pending <= over.Keys
      invariant merged.Keys == base.Keys + (over.Keys - pending)
      invariant forall k :: k in over && k !in pending ==> merged[k] == over[k]
      invariant forall k :: k in base && k !in over ==> merged[k] == base[k]
      invariant forall k :: k in base && k in pending ==> merged[k] == base[k]
      decreases pending
    {
      var k :| k in pending;
      merged := merged[k := over[k]];
      pending := pending - {k};
    }
  }

  /** Two copy loops into a fresh map (data_handler.go:177-186 and 488-494): the same as map union. */
  method MergeProps(first: map<string, Json>, second: map<string, Json>) returns (merged: map<string, Json>)
    ensures merged == first + second
  {
    merged := CopyInto(map[], first);
    merged := CopyInto(merged, second);
  }

  // ------------------------------------------------------------------
  // Inbound message handling as functions of the device state
  // ------------------------------------------------------------------

  /** What handling one inbound message does: the new state and the publishes issued, in order. */
  datatype Outcome = Outcome(state: DeviceState, sent: seq<Publish>)

  function SetReplyPublish(deviceName: string, id: Json): Publish {
    Publish(GetTopic(deviceName, Template(PropertySetReply)), 1, SetReply(id))
  }

  /** Whether `msg` is a property-set request the handler acts on, with its parameters in int32 range. */
  predicate SetPrecondition(msg: Inbound) {
    SetParams(msg).Some? ==> WritableFitInt32(SetParams(msg).value)
  }

  /**
   * `handlePropertySet` (data_handler.go:411-471): apply the parameters,
   * acknowledge with the request id, and, only when the acknowledgement was
   * delivered, follow it with a periodic property report of the new state.
   */
  function SetOutcome(deviceName: string, staticProps: map<string, Json>, s: DeviceState, msg: Inbound,
                      replyDelivered: bool, nowMs: int, d: DynamicDraw): Outcome
    requires SetPrecondition(msg)
  {
    match SetParams(msg)
    case None => Outcome(s, [])
    case Some(params) =>
      var s' := ApplySet(s, params);
      var reply := SetReplyPublish(deviceName, RequestId(msg.fields));
      Outcome(s', [reply] + if replyDelivered then [PropertyPublish(deviceName, false, staticProps, s', nowMs, d)] else [])
  }

  /** `handlePropertyGet` (data_handler.go:475-519): a fresh raw snapshot, published whatever the broker says. */
  function GetOutcome(deviceName: string, s: DeviceState, msg: Inbound, sd: StaticDraw, d: DynamicDraw): Outcome {
    match msg
    case Malformed => Outcome(s, [])
    case Object(fields) =>
      Outcome(s, [Publish(GetTopic(deviceName, Template(PropertyGetReply)), 1,
                          GetReply(RequestId(fields), RawStatic(sd) + RawDynamic(s, d)))])
  }

  /**
   * A request that does not parse, or whose `params` is missing or not an
   * object, changes nothing and is not answered.
   */
  lemma SetRejectsMalformed(deviceName: string, staticProps: map<string, Json>, s: DeviceState, msg: Inbound,
                            replyDelivered: bool, nowMs: int, d: DynamicDraw)
    requires SetParams(msg).None?
    ensures SetOutcome(deviceName, staticProps, s, msg, replyDelivered, nowMs, d) == Outcome(s, [])
  {
  }

  /**
   * A well-formed request: the state is the parameters applied, the first
   * publish is the acknowledgement on set_reply echoing the request id with
   * version "1.0", code 200 and msg "success", and a second publish, a
   * periodic report of the new state, follows exactly when the
   * acknowledgement was delivered.
   */
  lemma SetAcknowledges(deviceName: string, staticProps: map<string, Json>, s: DeviceState, msg: Inbound,
                        replyDelivered: bool, nowMs: int, d: DynamicDraw)
    requires SetParams(msg).Some? && SetPrecondition(msg)
    ensures var o := SetOutcome(deviceName, staticProps, s, msg, replyDelivered, nowMs, d);
      && o.state == ApplySet(s, SetParams(msg).value)
      && |o.sent| == (if replyDelivered then 2 else 1)
      && o.sent[0].topic == TopicPath("", deviceName, PropertySetReply)
      && o.sent[0].qos == 1
      && o.sent[0].payload.fields["id"] == (if "id" in msg.fields then msg.fields["id"] else JNull)
      && o.sent[0].payload.fields["version"] == JStr("1.0")
      && o.sent[0].payload.fields["code"] == JNum(200)
      && o.sent[0].payload.fields["msg"] == JStr("success")
      && (replyDelivered ==> o.sent[1] == PropertyPublish(deviceName, false, staticProps, o.state, nowMs, d))
  {
    GetTopicTemplate(deviceName, PropertySetReply);
    if msg.Object? {
      ReplyFields(RequestId(msg.fields), map[]);
    }
  }

  /** Handling a property-set request never touches the name or the cached static snapshot (they are not part of the state), and a later report shows the new values. */
  lemma SetThenReportShowsNewState(deviceName: string, staticProps: map<string, Json>, s: DeviceState, msg: Inbound,
                                   nowMs: int, d: DynamicDraw)
    requires SetParams(msg).Some? && SetPrecondition(msg)
    ensures var o := SetOutcome(deviceName, staticProps, s, msg, true, nowMs, d);
      var report := o.sent[1].payload.fields["params"].fields;
      && report["OUT"] == Wrap(JNum(o.state.out))
      && report["relay"] == Wrap(JNum(o.state.relay))
      && report["interval"] == Wrap(JNum(o.state.interval))
  {
  }

  /** The raw snapshot of a get reply, wrapped, is the parameter map of a full report drawn from the same numbers. */
  lemma RawSnapshot(s: DeviceState, sd: StaticDraw, d: DynamicDraw)
    ensures (RawStatic(sd) + RawDynamic(s, d)).Keys == StaticKeys + DynamicKeys
    ensures WrapEach(RawStatic(sd) + RawDynamic(s, d)) == PropertyParams(true, WrapEach(RawStatic(sd)), s, d)
  {
    var st, dy := RawStatic(sd), RawDynamic(s, d);
    WrapEachUnion(st, dy);
  }

  /**
   * A get request is answered on get_reply with code 200 and all ten
   * attributes as raw values (no envelope); wrapping them gives exactly the
   * parameters of a full report drawn from the same numbers. A request that
   * does not parse is not answered. The state never changes.
   */
  lemma GetAnswersRaw(deviceName: string, s: DeviceState, msg: Inbound, sd: StaticDraw, d: DynamicDraw)
    ensures var o := GetOutcome(deviceName, s, msg, sd, d);
      && o.state == s
      && (msg.Malformed? ==> o.sent == [])
      && (msg.Object? ==>
            && |o.sent| == 1
            && o.sent[0].topic == TopicPath("", deviceName, PropertyGetReply)
            && o.sent[0].payload.fields["code"] == JNum(200)
            && o.sent[0].payload.fields["data"].fields.Keys == StaticKeys + DynamicKeys
            && WrapEach(o.sent[0].payload.fields["data"].fields)
               == PropertyParams(true, WrapEach(RawStatic(sd)), s, d))
  {
    GetTopicTemplate(deviceName, PropertyGetReply);
    RawSnapshot(s, sd, d);
    if msg.Object? {
      ReplyFields(RequestId(msg.fields), RawStatic(sd) + RawDynamic(s, d));
    }
  }

  // ------------------------------------------------------------------
  // Dispatch
  // ------------------------------------------------------------------

  datatype Handler = SetHandler | GetHandler | PropertyReplyHandler | EventReplyHandler | PackReplyHandler

  /** The channel each handler is subscribed on. */
  function HandlerChannel(h: Handler): (c: Channel)
    ensures IsSubscribed(c)
  {
    match h
    case SetHandler => PropertySet
    case GetHandler => PropertyGet
    case PropertyReplyHandler => PropertyPostReply
    case EventReplyHandler => EventPostReply
    case PackReplyHandler => PackPostReply
  }

  /** The `switch msg.Topic()` of `createMessageHandler` (data_handler.go:386-405), in case order. */
  function Route(deviceName: string, topic: string): Option<Handler> {
    if topic == GetTopic(deviceName, Template(PropertySet)) then Some(SetHandler)
    else if topic == GetTopic(deviceName, Template(PropertyGet)) then Some(GetHandler)
    else if topic == GetTopic(deviceName, Template(PropertyPostReply)) then Some(PropertyReplyHandler)
    else if topic == GetTopic(deviceName, Template(EventPostReply)) then Some(EventReplyHandler)
    else if topic == GetTopic(deviceName, Template(PackPostReply)) then Some(PackReplyHandler)
    else None
  }

  /** Each handler's own topic reaches that handler and no other. */
  lemma RouteExact(deviceName: string, h: Handler)
    ensures Route(deviceName, GetTopic(deviceName, Template(HandlerChannel(h)))) == Some(h)
  {
    var c := HandlerChannel(h);
    forall c' | c' != c ensures GetTopic(deviceName, Template(c)) != GetTopic(deviceName, Template(c')) {
      GetTopicDistinct(deviceName, c, c');
    }
  }

  /** A topic reaches a handler only if it is that handler's resolved topic. */
  lemma RouteOnlySubscribed(deviceName: string, topic: string)
    ensures Route(deviceName, topic).Some? ==>
      topic == GetTopic(deviceName, Template(HandlerChannel(Route(deviceName, topic).value)))
    ensures Route(deviceName, topic).None? <==>
      forall h: Handler :: topic != GetTopic(deviceName, Template(HandlerChannel(h)))
  {
    if Route(deviceName, topic).None? {
      forall h: Handler ensures topic != GetTopic(deviceName, Template(HandlerChannel(h))) {
      }
    }
  }

  /** The outcome of one inbound message: new state, publishes, and for a reply handler its verdict. */
  datatype Delivery = Delivery(outcome: Outcome, ack: Option<Ack>)

  function MessageOutcome(deviceName: string, staticProps: map<string, Json>, s: DeviceState, topic: string,
                          msg: Inbound, replyDelivered: bool, nowMs: int, sd: StaticDraw, d: DynamicDraw): Delivery
    requires SetPrecondition(msg)
  {
    match Route(deviceName, topic)
    case None => Delivery(Outcome(s, []), None)
    case Some(SetHandler) => Delivery(SetOutcome(deviceName, staticProps, s, msg, replyDelivered, nowMs, d), None)
    case Some(GetHandler) => Delivery(GetOutcome(deviceName, s, msg, sd, d), None)
    case Some(_) => Delivery(Outcome(s, []), Some(ReplyAck(msg)))
  }

  /**
   * An unknown topic changes nothing and publishes nothing; a reply topic
   * changes nothing, publishes nothing and yields the reply verdict; only a
   * set request can change the state.
   */
  lemma MessageFrame(deviceName: string, staticProps: map<string, Json>, s: DeviceState, topic: string,
                     msg: Inbound, replyDelivered: bool, nowMs: int, sd: StaticDraw, d: DynamicDraw)
    requires SetPrecondition(msg)
    ensures var r := MessageOutcome(deviceName, staticProps, s, topic, msg, replyDelivered, nowMs, sd, d);
      && (Route(deviceName, topic).None? ==> r == Delivery(Outcome(s, []), None))
      && (r.ack.Some? <==> Route(deviceName, topic).Some? && Route(deviceName, topic).value !in {SetHandler, GetHandler})
      && (r.ack.Some? ==> r.outcome == Outcome(s, []) && r.ack.value == ReplyAck(msg))
      && (r.outcome.state != s ==> Route(deviceName, topic) == Some(SetHandler))
  {
  }

  // ------------------------------------------------------------------
  // The device object
  // ------------------------------------------------------------------

  /** `Device` (data_handler.go:15-30), without its MQTT client. */
  class Device {
    const name: string
    var out: Int32
    var relay: Int32
    var interval: Int32
    /** The wrapped static snapshot, computed once. */
    const staticProps: map<string, Json>
    /** `controlChan`, a channel of capacity one: empty or holding one pending interval. */
    var control: Option<Int32>

    function State(): DeviceState
      reads this
    {
      DeviceState(out, relay, interval, control)
    }

    /** `initDeviceState` (data_handler.go:76-88). */
    constructor(deviceName: string, sd: StaticDraw)
      ensures name == deviceName
      ensures State() == InitialState
      ensures staticProps == WrapEach(RawStatic(sd))
    {
      var wrapped := WrapProps(RawStatic(sd));
      name := deviceName;
      out, relay, interval := 0, 0, 10;
      staticProps := wrapped;
      control := None;
    }

    /** `postDeviceProperty` (data_handler.go:171-212): the publish it hands to the client. */
    method PostProperty(full: bool, nowMs: int, d: DynamicDraw) returns (p: Publish)
      ensures p == PropertyPublish(name, full, staticProps, State(), nowMs, d)
    {
      var dynamicProps := WrapProps(RawDynamic(State(), d));
      var params;
      if full {
        params := MergeProps(staticProps, dynamicProps);
      } else {
        params := dynamicProps["relay" := Wrap(JNum(relay))];
      }
      var topic := GetTopic(name, Template(PropertyPost));
      p := Publish(topic, 1, Message(IntString(nowMs), JObj(params)));
    }

    /**
     * `postDeviceEvent` (data_handler.go:216-312); `format` is the value of
     * the package variable `CurrentEventFormat` at the time of the call.
     */
    method PostEvent(format: EventFormat, eventId: string, nowMs: int, alarm: int, unixSec: int) returns (p: Publish)
      ensures p == EventPublish(name, format, eventId, nowMs, alarm, unixSec)
    {
      var raw := RawEventParams(alarm);
      var params;
      match format {
        case FormatDirect =>
          params := JObj(map[eventId := Wrap(JObj(raw))]);
        case FormatWrapped =>
          var wrapped := WrapProps(raw);
          params := JObj(wrapped);
        case FormatBatch =>
          var event := JObj(map["identifier" := JStr("alarm"), "params" := JObj(raw), "time" := JNum(unixSec)]);
          params := JObj(map["properties" := JObj(map[]), "events" := JArr([event])]);
      }
      p := Publish(GetTopic(name, Template(EventChannel(format))), 1, Message(IntString(nowMs), params));
    }

    /** `startDeviceSimulation` (data_handler.go:548-557): a full report first, if connected. */
    method Start(connected: bool, nowMs: int, d: DynamicDraw) returns (sent: seq<Publish>)
      ensures sent == if connected then [PropertyPublish(name, true, staticProps, State(), nowMs, d)] else []
    {
      sent := [];
      if connected {
        var p := PostProperty(true, nowMs, d);
        sent := [p];
      }
    }

    /** `handlePropertySet` (data_handler.go:411-471). */
    method HandlePropertySet(msg: Inbound, replyDelivered: bool, nowMs: int, d: DynamicDraw) returns (sent: seq<Publish>)
      requires SetPrecondition(msg)
      modifies this
      ensures Outcome(State(), sent) == SetOutcome(name, staticProps, old(State()), msg, replyDelivered, nowMs, d)
    {
      if SetParams(msg).None? {
        return [];
      }
      var params := SetParams(msg).value;
      ghost var s0 := State();
      var pending := params.Keys;
      while pending != {}
        invariant pending <= params.Keys
        invariant WritableFitInt32(params - pending)
        invariant State() == ApplySet(s0, params - pending)
        decreases pending
      {
        var k :| k in pending;
        ApplySetExtend(s0, params - pending, k, params[k]);
        assert (params - pending)[k := params[k]] == params - (pending - {k});
        var v := params[k];
        if v.JNum? {
          if k == "OUT" {
            out := v.n;
          } else if k == "relay" {
            relay := v.n;
          } else if k == "interval" {
            interval := v.n;
            if control.None? {
              control := Some(interval);
            }
          }
        }
        pending := pending - {k};
      }
      assert params - pending == params;
      sent := [SetReplyPublish(name, RequestId(msg.fields))];
      if replyDelivered {
        var report := PostProperty(false, nowMs, d);
        sent := sent + [report];
      }
    }

    /** `handlePropertyGet` (data_handler.go:475-519). */
    method HandlePropertyGet(msg: Inbound, sd: StaticDraw, d: DynamicDraw) returns (sent: seq<Publish>)
      ensures Outcome(State(), sent) == GetOutcome(name, State(), msg, sd, d)
    {
      if msg.Malformed? {
        return [];
      }
      var data := MergeProps(RawStatic(sd), RawDynamic(State(), d));
      sent := [Publish(GetTopic(name, Template(PropertyGetReply)), 1, GetReply(RequestId(msg.fields), data))];
    }

    /** The message handler of `createMessageHandler` (data_handler.go:382-407). */
    method HandleMessage(topic: string, msg: Inbound, replyDelivered: bool, nowMs: int, sd: StaticDraw, d: DynamicDraw)
      returns (sent: seq<Publish>, ack: Option<Ack>)
      requires SetPrecondition(msg)
      modifies this
      ensures Delivery(Outcome(State(), sent), ack)
           == MessageOutcome(name, staticProps, old(State()), topic, msg, replyDelivered, nowMs, sd, d)
    {
      var route := Route(name, topic);
      sent, ack := [], None;
      match route {
        case None =>
        case Some(SetHandler) =>
          sent := HandlePropertySet(msg, replyDelivered, nowMs, d);
        case Some(GetHandler) =>
          sent := HandlePropertyGet(msg, sd, d);
        case Some(_) =>
          ack := Some(ReplyAck(msg));
      }
    }

    /** The runner's `<-d.controlChan`: takes the pending interval, if any, and empties the slot. */
    method TakeControl() returns (v: Option<Int32>)
      modifies this
      ensures v == old(control)
      ensures State() == old(State()).(control := None)
    {
      v := control;
      control := None;
    }
  }
}
