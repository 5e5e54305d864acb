# oneNETDevice core model

This is a Dafny model of the two deterministic cores of a OneNET MQTT device simulator. Both are written in Go.

- **Device session** (`data_handler.go`):
  - A `Device` holds three int32 attributes (`OUT`, `Relay`, `Interval`), a cached snapshot of static properties wrapped as `{"value": v}` envelopes, and a one-slot control channel.
  - Topic templates are resolved per device by string replace-all.
  - Property reports are full or partial. Event reports come in three formats.
  - Inbound messages are dispatched by exact topic match to five handlers:
    - property set, which mutates the device, acknowledges, and then reports;
    - property get, which answers with raw values;
    - three reply checks.
  - The runner loop changes its property period when it receives a control value.
- **Credentials** (`client_config.go`):
  - `OneNET_Sign` Base64-decodes the access key, picks HMAC-MD5/SHA1/SHA256 case-insensitively and Base64-encodes the digest.
  - `getOneNETToken` builds `res`, the expiry time and the newline-separated signable string. It then writes the five token fields sorted by name as `key=QueryEscape(value)` joined by `&`.

Randomness (`rand.Int31n`), the clock, publish acknowledgements and connectivity are explicit parameters. JSON payloads are a small typed value tree (`JsonValue.Json`). Go strings on the credential side are byte sequences (`Bytes.Byte`).

Files:
- `wrappers.dfy`: `Option`/`Result`.
- `decimal.dfy`: `%d` formatting.
- `json.dfy`: the JSON tree and the value envelope.
- `topics.dfy`: templates and `getTopic`.
- `telemetry.dfy`: payloads, device state value and the property-set rule.
- `session.dfy`: the `Device` class, its handlers and dispatch.
- `runner.dfy`: the runner step rule.
- `bytes.dfy`: bytes, `Split`/`Join`.
- `base64.dfy`, `queryescape.dfy`: the standard encodings.
- `credentials.dfy`: signing and the token.

Behaviour of the code worth knowing, and modelled as written:
- **Control channel.** The channel keeps the first pending interval. A later value is dropped while the slot is full (data_handler.go:441-445). `Telemetry.MailboxFirstPendingWins` and `Telemetry.TwoIntervalUpdates` state this.
- **Partial report after a property set.** It is issued only when the set reply publish succeeded (data_handler.go:464-470).
- **Property get.** The get reply draws a fresh random static snapshot (data_handler.go:485). Full reports send the snapshot cached once at start-up (data_handler.go:86, 180-182). So a get reply's imsi, cell_info, `$OneNET_LBS` signal strength and WIFI imsi generally differ from what property/post reports.
- **Runner start.** The runner reads `d.Interval` when it starts. A property set of a non-positive interval that lands before that read makes `time.NewTicker` panic (data_handler.go:438-439, 561-562). `Runner.StartRunner` and `Runner.SetBeforeStartPanics` state this.

## Model

| member | source | states |
|---|---|---|
| Decimal.IntString | data_handler.go:173 | `%d` of an integer: decimal digits with a leading '-' exactly for negative numbers |
| Decimal.IntStringRoundTrip | data_handler.go:173 | parsing the decimal text of `n` gives `n` back, so message ids and expiry times are read back exactly |
| Decimal.IntStringInjective | data_handler.go:173 | different integers have different decimal texts |
| JsonValue.Wrap | data_handler.go:97-99 | `wrapValue` always yields an object whose only key is "value" |
| JsonValue.Unwrap | data_handler.go:97-99 | a value is returned exactly when the input is a value envelope |
| JsonValue.WrapUnwrap | data_handler.go:97-99 | unwrapping a wrapped value gives it back, and every envelope is a wrapped value |
| JsonValue.WrapEach | data_handler.go:146-163 | wrapping a property map keeps its keys and makes every value an envelope |
| JsonValue.UnwrapWrapEach | data_handler.go:146-163 | unwrapping every value of a wrapped map gives the raw map back |
| JsonValue.WrapEachUnion | data_handler.go:177-186 | merging two wrapped maps equals wrapping the merged raw maps |
| Topics.ReplaceAllAbsent | data_handler.go:92-93 | `strings.ReplaceAll` leaves a string without the pattern unchanged |
| Topics.ReplaceAllAtStart | data_handler.go:92-93 | a leading occurrence of the pattern is replaced and scanning resumes after it |
| Topics.ReplaceAllPastSeparator | data_handler.go:92-93 | text before a separator that the pattern cannot contain passes through unchanged |
| Topics.TemplateSpelledOut | data_handler.go:41-54 | every template is `$sys/5S34OM4Rc6/{device-name}/` followed by its `thing/...` suffix |
| Topics.ResolveTemplate | data_handler.go:91-94 | resolving a template with a product id that does not contain `{device-name}` gives `$sys/<product>/<device>/<suffix>`: each placeholder is replaced and the suffix is kept |
| Topics.GetTopicTemplate | data_handler.go:91-94 | with the repository's empty `ProductID`, `getTopic` gives `$sys//<device>/<suffix>` |
| Topics.ResolveLeavesNoPlaceholder | data_handler.go:91-94 | when neither the product id nor the device name contains a placeholder, no placeholder remains in the topic |
| Topics.ResolveDistinct | data_handler.go:386-390 | different templates resolve to different topics for the same device |
| Topics.GetTopicDistinct | data_handler.go:386-390 | the resolved topics of one device are pairwise distinct, including the five subscribed ones |
| Telemetry.RawStatic | data_handler.go:106-130 | the raw static properties have exactly the keys imsi, cell_info, macs, $OneNET_LBS, $OneNET_LBS_WIFI |
| Telemetry.RawDynamic | data_handler.go:133-143 | the raw dynamic properties have exactly the keys temperature, csq, OUT, relay, interval |
| Telemetry.KeySetsDisjoint | data_handler.go:106-143 | static and dynamic keys are disjoint, 5 each and 10 together |
| Telemetry.StaticValues | data_handler.go:106-130 | with draws `rand.Int31n` can return, the cell is LAC 1024-1033 and CID 2048-2147, the LBS signal strength lies in [80,99], and the LBS lac/cid stay 1024/2048 |
| Telemetry.DynamicValues | data_handler.go:133-143 | temperature lies in [10,49] and csq in [0,30]; OUT, relay and interval are the current fields |
| Telemetry.FullReport | data_handler.go:177-186 | a full report has the 10 keys, all envelopes, and unwraps to the cached static plus the fresh dynamic properties |
| Telemetry.PartialReport | data_handler.go:188-193 | a periodic report has exactly the 5 dynamic keys, all envelopes, with relay = {"value": Relay} |
| Telemetry.PropertyPublishShape | data_handler.go:171-200 | a property report goes to thing/property/post with version "1.0" and an id that parses back to the millisecond clock |
| Telemetry.RawEventParams | data_handler.go:225-231 | the event flags have exactly the keys powerOff, overcurrent, smoke, IN1, IN2 |
| Telemetry.EventFlags | data_handler.go:225-231 | with alarm drawn from [0,2), every flag is 0 or 1 |
| Telemetry.EventFormats | data_handler.go:233-299 | direct: event/post with {eventId: {"value": flags}}; wrapped: event/post with each flag wrapped; batch: pack/post with empty properties and one event "alarm" whatever the event id |
| Telemetry.ReplyFields | data_handler.go:454-459 | both replies echo the request id and carry version "1.0", code 200 and msg "success"; the get reply adds data |
| Telemetry.ReplyAck | data_handler.go:320-378 | a reply is confirmed iff it parses and `code` is present and equals 200; a code that is not a number panics; unparseable input is dropped |
| Telemetry.ApplySetExtend | data_handler.go:427-450 | applying one more parameter to an applied map equals applying the enlarged map, so visiting order does not matter |
| Telemetry.ApplySetIgnoresOthers | data_handler.go:427-450 | parameters without a numeric OUT, relay or interval change nothing |
| Telemetry.ApplySetFields | data_handler.go:428-440 | each numeric OUT/relay/interval is written to its own field, and the other fields keep their values |
| Telemetry.MailboxFirstPendingWins | data_handler.go:438-445 | the slot takes the new interval only when empty and otherwise keeps the pending value; it is unchanged without an interval |
| Telemetry.TwoIntervalUpdates | data_handler.go:438-445 | after two interval sets before the runner reads, the slot holds the first value and `Interval` the second |
| Session.WrapProps | data_handler.go:146-163 | the wrapping loop produces exactly `WrapEach` of the raw map |
| Session.CopyInto | data_handler.go:180-186 | the copy loop yields both key sets, with the copied map's values winning on shared keys |
| Session.MergeProps | data_handler.go:177-186 | copying two maps into a fresh map yields their union, the second one winning |
| Session.SetRejectsMalformed | data_handler.go:411-423 | unparseable input or a missing or non-object params leaves the state unchanged and publishes nothing |
| Session.SetAcknowledges | data_handler.go:452-470 | a valid set applies the parameters and replies on set_reply with the echoed id, "1.0", 200, "success"; a partial report of the new state follows iff the reply was delivered |
| Session.SetThenReportShowsNewState | data_handler.go:464-470 | the follow-up report carries the updated OUT, relay and interval |
| Session.RawSnapshot | data_handler.go:484-494 | the raw static plus dynamic snapshot has the 10 keys, and wrapping it gives the params of a full report built from a freshly drawn static snapshot, not the device's cached one |
| Session.GetAnswersRaw | data_handler.go:475-519 | a get request is answered on get_reply with code 200 and raw values whose wrapping equals the params of a full report built from a freshly drawn static snapshot, not the device's cached one; malformed input gets no answer; the state never changes |
| Session.HandlerChannel | data_handler.go:386-390 | every handler listens on a subscribed channel |
| Session.RouteExact | data_handler.go:392-405 | a handler's own resolved topic reaches exactly that handler |
| Session.RouteOnlySubscribed | data_handler.go:392-405 | a topic reaches a handler only if it is that handler's topic; no handler iff it matches none of the five |
| Session.MessageFrame | data_handler.go:382-407 | an unknown topic changes nothing and publishes nothing; reply topics only yield a verdict; only a set request can change the state |
| Session.Device.constructor | data_handler.go:76-88 | a new device has OUT=0, Relay=0, Interval=10, an empty slot, and the wrapped static snapshot |
| Session.Device.PostProperty | data_handler.go:171-212 | the publish built by the map loops equals the property report of the current state |
| Session.Device.PostEvent | data_handler.go:216-312 | the publish equals the event report for the selected format |
| Session.Device.Start | data_handler.go:548-557 | a full report is issued first exactly when connected |
| Session.Device.HandlePropertySet | data_handler.go:411-471 | the field updates made by the loop, and the publishes, equal the set outcome of the old state |
| Session.Device.HandlePropertyGet | data_handler.go:475-519 | the publishes equal the get outcome, and the device is unchanged |
| Session.Device.HandleMessage | data_handler.go:382-407 | new state, publishes and verdict equal the dispatch outcome of the old state |
| Session.Device.TakeControl | data_handler.go:586 | receiving returns the pending value, if any, and empties the slot, leaving the attributes unchanged |
| Runner.StartRunner | data_handler.go:561-562 | the runner starts iff the device's interval is positive, with that interval as its period; otherwise the ticker creation panics |
| Runner.FreshDeviceStarts | data_handler.go:76-88 | a freshly initialised device starts its runner with the 10-second period |
| Runner.SetBeforeStartPanics | data_handler.go:438-439 | a property set of an interval <= 0 applied before the runner starts makes the start panic |
| Runner.NextPeriod | data_handler.go:586-592 | the period changes iff the value is positive and differs from the current one, and then becomes that value |
| Runner.TickAction | data_handler.go:576-584 | a property tick reports properties and an event tick reports an event, only while connected; control values publish nothing |
| Runner.Actions | data_handler.go:574-594 | a trace yields one action per event, each the tick rule |
| Runner.PeriodStaysPositive | data_handler.go:586-592 | a positive period stays positive over any trace of events |
| Runner.PeriodFromControls | data_handler.go:586-592 | the period after a trace is the initial one or a control value that was received |
| Runner.TicksKeepPeriod | data_handler.go:576-584 | ticks never change the period |
| Runner.PeriodicRunner.constructor | data_handler.go:561-562 | the runner after a start that did not panic holds the device's positive interval as its period |
| Runner.PeriodicRunner.Step | data_handler.go:575-593 | one loop pass returns the tick action and applies the period rule |
| Runner.PeriodicRunner.Run | data_handler.go:574-594 | running a trace returns its actions and leaves the period after the trace |
| Bytes.SplitNoSeparator | client_config.go:104 | a piece without the separator splits into itself |
| Bytes.SplitFirst | client_config.go:104 | splitting stops at the first separator |
| Bytes.SplitJoin | client_config.go:104 | splitting a join of separator-free pieces gives the pieces back |
| Base64.DecodeChar | client_config.go:39 | decoding an alphabet character inverts the encoding table |
| Base64.Encode | client_config.go:64 | the encoding of n bytes has length ceil(n/3)*4 |
| Base64.EncodeChars | client_config.go:64 | an encoding uses only the alphabet and '=' |
| Base64.GroupRoundTrip | client_config.go:39 | four sextets of three bytes decode back to those bytes |
| Base64.DecodeEncode | client_config.go:39 | decoding an encoding gives the bytes back |
| Base64.DecodeRejectsLength | client_config.go:39-42 | input whose length without line breaks is not a multiple of 4 is rejected |
| Base64.DecodeRejectsForeign | client_config.go:39-42 | a byte outside the alphabet, '=' and line breaks makes decoding fail |
| QueryEscape.Escape | client_config.go:100 | escaped text holds only unreserved bytes, '%' and '+', never '&' or '=' |
| QueryEscape.UnescapeEscape | client_config.go:100 | unescaping an escaped value gives it back |
| QueryEscape.EscapeUnreserved | client_config.go:100 | a value of unreserved bytes is written unchanged |
| Credentials.ToLower | client_config.go:46 | lowering leaves no ASCII upper-case letter and keeps every byte that is not one |
| Credentials.ToLowerIdempotent | client_config.go:46 | lowering an already lowered name changes nothing |
| Credentials.ToLowerCaseInsensitive | client_config.go:46 | two names lower to the same bytes iff they differ only in the case of ASCII letters |
| Credentials.SelectMethodByName | client_config.go:46-55 | a method is selected iff its lower-cased name is md5, sha1 or sha256, so case does not matter |
| Credentials.SelectMethodIgnoresCase | client_config.go:46-55 | method names that differ only in ASCII case select the same method |
| Credentials.SignErrors | client_config.go:39-55 | an invalid key is reported whatever the method; an unsupported method only with a valid key; otherwise a signature |
| Credentials.SignatureShape | client_config.go:57-64 | the signature decodes to the HMAC of the string under the decoded key and has length 24, 28 or 44 |
| Credentials.EncodedDigestLength | client_config.go:64 | digests of 16, 20 and 32 bytes encode to 24, 28 and 44 characters |
| Credentials.DecimalBytes | client_config.go:86 | the expiry text uses only unreserved bytes and no line feed |
| Credentials.SignableFields | client_config.go:74 | the signable string splits at line feeds into et, method, res and version, in that order |
| Credentials.TokenParams | client_config.go:83-89 | the token map has exactly the five field names |
| Credentials.BelowTotal | client_config.go:96 | two different byte strings are ordered one way or the other |
| Credentials.BelowTransitive | client_config.go:96 | byte-string order is transitive |
| Credentials.InsertSorted | client_config.go:96 | inserting into an ascending list keeps it ascending |
| Credentials.SortStrings | client_config.go:96 | sorting returns the same strings, ascending |
| Credentials.SortedUnique | client_config.go:96 | two ascending arrangements of the same strings are equal |
| Credentials.TokenKeysAscending | client_config.go:96 | et < method < res < sign < version |
| Credentials.SortedTokenKeys | client_config.go:92-96 | whatever order the map yields, the sorted keys are et, method, res, sign, version |
| Credentials.CollectKeys | client_config.go:92-95 | the collected keys are exactly the map's keys, each once |
| Credentials.EncodeFields | client_config.go:98-102 | the loop writes one `key=QueryEscape(value)` per key, in key order |
| Credentials.GetToken | client_config.go:68-105 | the token built by the loops equals the token function of the inputs |
| Credentials.ParseFieldRoundTrip | client_config.go:100-101 | a field contains no '&' and splits at '=' into its name and a value that unescapes to the original |
| Credentials.TokenRoundTrip | client_config.go:83-104 | a token holds exactly five fields, et, method, res, sign, version in order, each recovered by splitting and unescaping |
| Credentials.TokenSignError | client_config.go:77-80 | a signing error is returned unchanged, and a token is built only when signing succeeds |
| Credentials.ExpiryUnescaped | client_config.go:86 | the expiry time needs no escaping |

## Left out

- Runner.PeriodicRunner.constructor: requires a positive initial period. A non-positive `d.Interval` at runner start makes `time.NewTicker` panic. That panic is modelled separately as `Runner.StartRunner` returning `StartPanics`, and the runner then does not exist.
- Concurrency: each message handler call and each runner step is treated as atomic. In the source, the MQTT callbacks and the runner goroutine read and write the device's fields without a lock, so interleavings inside a handler are not modelled.
- `CurrentEventFormat` (data_handler.go:73) is a parameter of `Session.Device.PostEvent` rather than a constant.
- `main.go`: goroutines per device, the wait group, signal handling and shutdown are concurrency and process wiring, not session logic.
- MQTT client calls (`Connect`, `Subscribe`, `subscribeForCommands`, `getConnectOptions`, TLS options). A publish is the `Publish` value handed to the client. Its acknowledgement is the `replyDelivered` parameter, and connectivity is a boolean per runner event.
- Real tickers: the runner sees an abstract trace of events instead of wall-clock timing. The property ticker's period is kept as `PeriodicRunner.period`. The fixed 20-second event period is not modelled.
- JSON encoding and decoding. Payloads are `JsonValue.Json` trees, and a body that does not unmarshal into a map is `Telemetry.Malformed`. A JSON `null` body unmarshals into an empty map and is `Object(map[])`.
- JSON numbers are integers in the model. Fractional parameter values, and their truncation by `int32(val)`, are not modelled.
- Telemetry.ApplySet: requires numeric OUT/relay/interval parameters to lie in int32 range. Converting an out-of-range float64 to int32 in Go has an implementation-specific result.
- Session.Device.HandlePropertySet: requires the same int32 range as `ApplySet`, for the same reason.
- Session.Device.HandleMessage: requires the same int32 range as `ApplySet`, for the same reason.
- Credentials.ToLower: lowers ASCII letters only, where Go's `strings.ToLower` is Unicode-aware. The only non-ASCII characters that lower to ASCII are U+0130 ('i') and U+212A ('k'). Neither letter occurs in md5, sha1 or sha256, so method selection is unaffected.
- HMAC internals. `Credentials.Hmac` is any function giving a digest of the hash's size (16, 20, 32 bytes). The "hmac write failed" branch cannot occur with Go's hash writers.
- Randomness and clocks become parameters:
  - `rand.Int31n` draws are `StaticDraw`, `DynamicDraw` and `alarm`, with their ranges in `ValidStaticDraw`/`ValidDynamicDraw`.
  - The millisecond clock, Unix seconds and `now` are integer parameters.
  - `rand.Seed` is not modelled.
- Logging.
- Go map iteration order: each loop over a map picks keys in an arbitrary order, and every contract holds for every order.
- `Topics.ReplaceAll` requires a non-empty pattern. Go's `ReplaceAll` with an empty pattern inserts between characters, but both placeholders are non-empty.
- The `FormatBatch` event time is the `unixSec` parameter.
- `startDeviceSimulation` launching the runner as a goroutine is not modelled. Its initial full report is `Session.Device.Start`, and the runner start is `Runner.StartRunner`.
