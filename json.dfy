/**
 * The JSON-like values that travel in event payloads and message bodies: what `json.dumps`
 * accepts from the services and what `json.loads` hands back to the consumer.
 */
module Json {

  /** An opaque floating-point value (a shipment's `weight`); only its identity matters here. */
  datatype Float = Float(bits: int)

  datatype Value =
    | Null
    | Bool(b: bool)
    | Int(i: int)
    | Num(f: Float)
    | Str(s: string)
    | Arr(items: seq<Value>)
    | Obj(fields: map<string, Value>)

  /** A Python dict with string keys, such as an event payload. */
  type Object = map<string, Value>

  /** `dict.get(key, default)`: the value stored under `key`, or `default` when it is absent. */
  function Get(o: Object, key: string, default: Value): (v: Value)
    ensures key in o ==> v == o[key]
    ensures key !in o ==> v == default
  {
    if key in o then o[key] else default
  }
}
