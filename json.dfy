/** Decoded JSON values as Go's encoding/json produces them for `interface{}`,
    with the accessors the Go code writes as type assertions. */
module Json {

  datatype Option<+T> = None | Some(value: T)

  datatype Result<+T, +E> = Success(value: T) | Failure(error: E) {
    predicate IsFailure() { Failure? }
  }

  /** A decoded JSON value. Objects are unordered maps, like Go's
      `map[string]interface{}`; numbers are kept integral (floating point is
      not modelled). */
  datatype Json =
    | JNull
    | JBool(b: bool)
    | JNum(n: int)
    | JStr(s: string)
    | JArr(items: seq<Json>)
    | JObj(fields: map<string, Json>)

  type Object = map<string, Json>

  /** `m[k]` on a Go map: a missing key reads as nil. */
  function Field(m: Object, k: string): (v: Json)
  {
    if k in m then m[k] else JNull
  }

  /** `s, _ := m[k].(string)`: the string, or "" when missing or not a string. */
  function StrAt(m: Object, k: string): (s: string)
  {
    if k in m && m[k].JStr? then m[k].s else ""
  }

  /** `a, ok := m[k].([]interface{})`. */
  function ArrAt(m: Object, k: string): (r: Option<seq<Json>>)
  {
    if k in m && m[k].JArr? then Some(m[k].items) else None
  }

  /** `o, ok := m[k].(map[string]interface{})`. */
  function ObjAt(m: Object, k: string): (r: Option<Object>)
  {
    if k in m && m[k].JObj? then Some(m[k].fields) else None
  }

  /** `o, _ := m[k].(map[string]interface{})`: a nil map reads like an empty one. */
  function ObjOrEmpty(m: Object, k: string): (r: Object)
  {
    if k in m && m[k].JObj? then m[k].fields else map[]
  }

  /** `json.Unmarshal(raw, &result)` with `result map[string]interface{}`:
      the text `null` leaves a nil map (read as empty), any other non-object
      value is a decoding error. `decode` is the JSON parser itself. */
  function DecodeObject(decode: string -> Option<Json>, raw: string): (r: Option<Object>)
  {
    match decode(raw)
    case None => None
    case Some(JObj(m)) => Some(m)
    case Some(JNull) => Some(map[])
    case Some(_) => None
  }
}
