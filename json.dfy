/**
 * A decoded JSON value, as `encoding/json` hands it to `interface{}`: objects become maps,
 * numbers become float64 (here: reals). Decoding and encoding text is not modelled; callers
 * receive it as a function parameter.
 */
module Json {
  import opened Wrappers

  datatype Json =
    | JNull
    | JBool(b: bool)
    | JNum(n: real)
    | JStr(s: string)
    | JArr(items: seq<Json>)
    | JObj(fields: map<string, Json>)

  /** `obj[key]` on a `map[string]interface{}`: absent when `j` is not an object or lacks the key. */
  function Field(j: Json, key: string): (r: Option<Json>)
    ensures r.Some? <==> j.JObj? && key in j.fields
    ensures r.Some? ==> r.value == j.fields[key]
  {
    if j.JObj? && key in j.fields then Some(j.fields[key]) else None
  }

  /** The two-result assertion `obj[key].(string)`: present only when the member is a string. */
  function StringField(j: Json, key: string): (r: Option<string>)
    ensures r.Some? <==> Field(j, key).Some? && Field(j, key).value.JStr?
    ensures r.Some? ==> Field(j, key).value == JStr(r.value)
  {
    match Field(j, key)
    case Some(JStr(s)) => Some(s)
    case _ => None
  }

  /** The two-result assertion `obj[key].(float64)`. */
  function NumberField(j: Json, key: string): (r: Option<real>)
    ensures r.Some? <==> Field(j, key).Some? && Field(j, key).value.JNum?
    ensures r.Some? ==> Field(j, key).value == JNum(r.value)
  {
    match Field(j, key)
    case Some(JNum(n)) => Some(n)
    case _ => None
  }

  /** The two-result assertion `obj[key].(map[string]interface{})`. */
  function ObjectField(j: Json, key: string): (r: Option<Json>)
    ensures r.Some? <==> Field(j, key).Some? && Field(j, key).value.JObj?
    ensures r.Some? ==> r.value.JObj? && Field(j, key).value == r.value
  {
    match Field(j, key)
    case Some(JObj(m)) => Some(JObj(m))
    case _ => None
  }

  /** The two-result assertion `obj[key].([]interface{})`. */
  function ArrayField(j: Json, key: string): (r: Option<seq<Json>>)
    ensures r.Some? <==> Field(j, key).Some? && Field(j, key).value.JArr?
    ensures r.Some? ==> Field(j, key).value == JArr(r.value)
  {
    match Field(j, key)
    case Some(JArr(a)) => Some(a)
    case _ => None
  }
}
