/**
 * Decoded JSON values, as Python's `json` module hands them to the program,
 * with the two Python operations the program applies to them: truthiness
 * (`if value:`) and key lookup (`value[key]`).
 */
module JsonValues {
  import opened Wrappers

  /** A decoded JSON document. Numbers are kept as integers (see README). */
  datatype Json =
    | JNull
    | JBool(b: bool)
    | JNumber(n: int)
    | JString(s: string)
    | JArray(items: seq<Json>)
    | JObject(fields: map<string, Json>)

  /** Python truthiness of a decoded value: `None`, `False`, zero and empty containers are false. */
  predicate Truthy(j: Json)
    ensures !Truthy(j) <==>
      j == JNull || j == JBool(false) || j == JNumber(0) || j == JString("") || j == JArray([]) || j == JObject(map[])
  {
    match j
    case JNull => false
    case JBool(b) => b
    case JNumber(n) => n != 0
    case JString(s) => s != ""
    case JArray(items) => items != []
    case JObject(fields) => fields != map[]
  }

  /**
   * `value[key]` (and `key in value` followed by `value[key]`) on a decoded value:
   * a dict holding the key yields its entry; every other value either lacks the
   * key or raises, which the program treats the same way, so both give None.
   */
  function Member(j: Json, key: string): (r: Option<Json>)
    ensures r.Some? <==> j.JObject? && key in j.fields
    ensures r.Some? ==> r.value == j.fields[key]
  {
    match j
    case JObject(fields) => if key in fields then Some(fields[key]) else None
    case _ => None
  }
}
