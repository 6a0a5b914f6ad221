/**
  Decoded JSON documents as the mock server handles them after `json.loads`,
  together with the two pieces of Python semantics the request engine relies
  on: truthiness (`not req`, `if reqid:`) and `dict.get` with its `None`
  default.
 */
module Json {

  datatype Option<+T> = None | Some(value: T)

  /** A decoded JSON value. Floating-point numbers are not modelled. */
  datatype Json =
    | JNull
    | JBool(b: bool)
    | JInt(n: int)
    | JStr(s: string)
    | JArr(items: seq<Json>)
    | JObj(fields: map<string, Json>)

  /** A JSON object, the server's `dict[str, Any]`. */
  type Obj = map<string, Json>

  /** Python's `bool(v)`: null, false, zero and empty containers are falsy. */
  predicate Truthy(v: Json) {
    match v
    case JNull => false
    case JBool(b) => b
    case JInt(n) => n != 0
    case JStr(s) => s != ""
    case JArr(items) => |items| > 0
    case JObj(fields) => |fields| > 0
  }

  /**
    Python's `d.get(key)`. An absent key and a key holding JSON `null` both
    read as `None`, which is `JNull` here.
   */
  function Get(m: Obj, key: string): Json {
    if key in m then m[key] else JNull
  }
}
