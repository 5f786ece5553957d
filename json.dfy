/**
 * JSON values as the application sees them after `response.json()`, and the
 * Python operations the handlers apply to them: truthiness and subscripting.
 * Numbers other than integers are not modelled.
 */
module JsonValues {
  import opened Wrappers

  datatype Json =
    | JNull
    | JBool(b: bool)
    | JInt(i: int)
    | JStr(s: string)
    | JList(items: seq<Json>)
    | JObj(fields: map<string, Json>)

  /** Python truthiness of a decoded JSON value. */
  predicate Truthy(j: Json)
  {
    match j
    case JNull => false
    case JBool(b) => b
    case JInt(i) => i != 0
    case JStr(s) => s != ""
    case JList(items) => items != []
    case JObj(fields) => fields != map[]
  }

  /** Python truthiness of an optional argument (`None` is falsy). */
  predicate OptTruthy(j: Option<Json>)
  {
    j.Some? && Truthy(j.value)
  }

  /** `j[key]`: defined only on an object that has the key (otherwise Python raises). */
  function Field(j: Json, key: string): (r: Option<Json>)
    ensures r.Some? <==> j.JObj? && key in j.fields
    ensures r.Some? ==> r.value == j.fields[key]
  {
    if j.JObj? && key in j.fields then Some(j.fields[key]) else None
  }

  /** `session.get(key)`: the stored value, or `None` (which compares equal to JSON null). */
  function Get(session: map<string, Json>, key: string): Json
  {
    if key in session then session[key] else JNull
  }

  /** A form field as it is serialised into a JSON payload (a missing field becomes null). */
  function FormValue(v: Option<string>): Json
  {
    if v.Some? then JStr(v.value) else JNull
  }
}
