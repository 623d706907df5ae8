/**
 * The JSON values that travel through the gateway: request bodies, the
 * GraphQL response and the response bodies the handlers build.
 */
module JsonValues {
  import opened Wrappers

  /**
   * A parsed JSON value. Numbers are kept as integers: the gateway only
   * ever asks whether one is truthy.
   */
  datatype Json =
    | JNull
    | JBool(b: bool)
    | JNumber(n: int)
    | JString(s: string)
    | JArray(items: seq<Json>)
    | JObject(fields: map<string, Json>)

  /** JavaScript truthiness of a present value (`undefined` is `None` and falsy). */
  predicate Truthy(v: Option<Json>) {
    match v
    case None => false
    case Some(JNull) => false
    case Some(JBool(b)) => b
    case Some(JNumber(n)) => n != 0
    case Some(JString(s)) => s != []
    case Some(_) => true
  }

  /** Property access `v.key`: `undefined` unless `v` is an object holding `key`. */
  function Field(v: Json, key: string): (r: Option<Json>)
    ensures r.Some? <==> v.JObject? && key in v.fields
  {
    if v.JObject? && key in v.fields then Some(v.fields[key]) else None
  }

  /** The outcome of reading a property in JavaScript: a TypeError, or a value that may be `undefined`. */
  datatype Access = Threw | Value(v: Option<Json>)

  /**
   * `v.key`: reading a property of `undefined` or `null` throws; reading
   * one of any other value gives the property or `undefined`.
   */
  function Get(v: Option<Json>, key: string): (r: Access)
    ensures r.Threw? <==> v.None? || v == Some(JNull)
    ensures r.Value? && r.v.Some? ==> v.value.JObject? && key in v.value.fields && r.v.value == v.value.fields[key]
  {
    if v.None? || v == Some(JNull) then Threw else Value(Field(v.value, key))
  }

  /** An object literal with one property. */
  function Object1(key: string, value: Json): Json {
    JObject(map[key := value])
  }
}
