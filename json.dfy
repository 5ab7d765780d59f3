/**
 * The JSON value model that stands in for `serde_json::Value`.
 * Objects are maps from keys to values: `serde_json::Map` is keyed, and
 * the order of its keys plays no part in anything modelled here.
 */
module JsonValue {
  import opened Wrappers

  datatype Json =
    | JNull
    | JBool(b: bool)
    | JNumber(n: int)
    | JString(str: string)
    | JArray(items: seq<Json>)
    | JObject(fields: map<string, Json>)

  /**
   * `value[key]` on a `serde_json::Value`: the member stored under `key`
   * when the value is an object that has it, and `Null` otherwise (indexing
   * never fails).
   */
  function Field(v: Json, key: string): (r: Json)
    ensures v.JObject? && key in v.fields ==> r == v.fields[key]
    ensures !(v.JObject? && key in v.fields) ==> r == JNull
  {
    match v
    case JObject(fields) => if key in fields then fields[key] else JNull
    case _ => JNull
  }

  /** `Value::as_str`: the text of a string value, nothing for any other kind. */
  function AsStr(v: Json): (r: Option<string>)
    ensures r.Some? <==> v.JString?
    ensures r.Some? ==> r.value == v.str
  {
    if v.JString? then Some(v.str) else None
  }

  /** The string stored under `key` in object `v`, if there is one. */
  predicate HasStringField(v: Json, key: string) {
    v.JObject? && key in v.fields && v.fields[key].JString?
  }
}
