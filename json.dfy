/**
 * Decoded JSON values, the shape in which the forge and the tracker hand over raw
 * records (issues, search results) that the core passes on without a fixed schema.
 */
module JsonValue {
  import opened Outcomes
  import opened Errors
  import Text

  /** A decoded JSON document; numbers are integers (floats do not occur in the core's data). */
  datatype Json =
    | JNull
    | JBool(b: bool)
    | JInt(i: int)
    | JStr(s: string)
    | JArr(items: seq<Json>)
    | JObj(fields: map<string, Json>)

  /** Python truthiness of a decoded value: null, false, 0 and empty containers are falsy. */
  predicate Truthy(j: Json) {
    match j
    case JNull => false
    case JBool(b) => b
    case JInt(i) => i != 0
    case JStr(s) => s != ""
    case JArr(xs) => xs != []
    case JObj(m) => m != map[]
  }

  /** `d.get(key, default)` on a dict. */
  function Field(fields: map<string, Json>, key: string, default: Json): (r: Json)
    ensures key in fields ==> r == fields[key]
    ensures key !in fields ==> r == default
  {
    if key in fields then fields[key] else default
  }

  /** `v.get(key, default)` on a decoded value: only a dict has `.get`. */
  function Get(j: Json, key: string, default: Json): (r: Result<Json, Error>)
    ensures r.Ok? <==> j.JObj?
    ensures j.JObj? ==> r.value == Field(j.fields, key, default)
  {
    match j
    case JObj(m) => Ok(Field(m, key, default))
    case _ => Err(AttributeError("object has no attribute 'get'"))
  }

  /** Python's len() on a decoded value; numbers, booleans and null have none. */
  function Len(j: Json): (r: Option<nat>)
    ensures r.Some? <==> (j.JStr? || j.JArr? || j.JObj?)
    ensures j.JArr? ==> r == Some(|j.items|)
  {
    match j
    case JStr(s) => Some(|s|)
    case JArr(xs) => Some(|xs|)
    case JObj(m) => Some(|m|)
    case _ => None
  }

  /** Python's str() on a scalar value (containers are rendered by a fixed marker). */
  function Str(j: Json): string {
    match j
    case JNull => "None"
    case JBool(b) => if b then "True" else "False"
    case JInt(i) => Text.IntToString(i)
    case JStr(s) => s
    case JArr(_) => "[...]"
    case JObj(_) => "{...}"
  }
}
