/**
 * A typed JSON value tree standing in for Go's `map[string]interface{}`
 * payloads, and the property value envelope `{"value": v}`.
 * Numbers are integers: every number the device writes is an int32 or a
 * Unix time, and inbound numbers are only ever used as integers.
 */
module JsonValue {
  import opened Wrappers

  datatype Json =
    | JNull
    | JBool(b: bool)
    | JNum(n: int)
    | JStr(s: string)
    | JArr(items: seq<Json>)
    | JObj(fields: map<string, Json>)

  /** A JSON object with exactly the one key "value". */
  predicate IsEnvelope(j: Json) {
    j.JObj? && j.fields.Keys == {"value"}
  }

  /** `wrapValue` (data_handler.go:97-99). */
  function Wrap(v: Json): (r: Json)
    ensures IsEnvelope(r)
  {
    JObj(map["value" := v])
  }

  function Unwrap(j: Json): (r: Option<Json>)
    ensures r.Some? <==> IsEnvelope(j)
  {
    if IsEnvelope(j) then Some(j.fields["value"]) else None
  }

  /** Unwrapping an envelope gives back what was wrapped, and every envelope is a wrapped value. */
  lemma WrapUnwrap(v: Json, j: Json)
    ensures Unwrap(Wrap(v)) == Some(v)
    ensures IsEnvelope(j) ==> Wrap(Unwrap(j).value) == j
  {
    if IsEnvelope(j) {
      assert Wrap(Unwrap(j).value).fields == j.fields;
    }
  }

  /** Every value of a map wrapped in its own envelope, keys unchanged. */
  function WrapEach(raw: map<string, Json>): (w: map<string, Json>)
    ensures w.Keys == raw.Keys
    ensures forall k :: k in w ==> IsEnvelope(w[k])
  {
    map k | k in raw :: Wrap(raw[k])
  }

  /** Every value of a map taken out of its envelope (values that are not envelopes are dropped). */
  function UnwrapEach(m: map<string, Json>): map<string, Json> {
    map k | k in m && IsEnvelope(m[k]) :: m[k].fields["value"]
  }

  /** Wrapping every value and unwrapping them again is the identity. */
  lemma UnwrapWrapEach(raw: map<string, Json>)
    ensures UnwrapEach(WrapEach(raw)) == raw
  {
    var u := UnwrapEach(WrapEach(raw));
    assert u.Keys == raw.Keys;
    forall k | k in raw ensures u[k] == raw[k] {
      WrapUnwrap(raw[k], JNull);
    }
  }

  /** Merging two wrapped maps is wrapping their merge (the right map wins on a shared key either way). */
  lemma WrapEachUnion(a: map<string, Json>, b: map<string, Json>)
    ensures WrapEach(a) + WrapEach(b) == WrapEach(a + b)
  {
  }
}
