/** Parsed JSON values, JavaScript truthiness and property access on them. */
module Json {
  import opened Common

  /** A value `JSON.parse` can produce (JSON has no `undefined`). */
  datatype Json =
    | JNull
    | JBool(b: bool)
    | JNumber(n: real)
    | JString(s: string)
    | JArray(items: seq<Json>)
    | JObject(fields: map<string, Json>)

  /** `!!v`: null, false, 0 and the empty string are falsy; arrays and objects are truthy. */
  predicate Truthy(v: Json) {
    match v
    case JNull => false
    case JBool(b) => b
    case JNumber(n) => n != 0.0
    case JString(s) => s != ""
    case _ => true
  }

  /** A property that may be `undefined`, which is falsy. */
  predicate TruthyMember(v: Option<Json>) {
    v.Some? && Truthy(v.value)
  }

  /**
   * `v.name` for a non-null `v` and a name no array or string has built in: the object's field,
   * or `undefined`.
   */
  function Member(v: Json, name: string): (r: Option<Json>)
    ensures r.Some? <==> v.JObject? && name in v.fields
  {
    if v.JObject? && name in v.fields then Some(v.fields[name]) else None
  }
}
