/**
 * Decoded JSON values as the Flask services and the React pages see them,
 * with the truthiness tests of the two languages.
 */
module JsonValue {
  import opened Wrappers

  datatype Json =
    | JNull
    | JBool(b: bool)
    | JInt(i: int)
    | JReal(r: real)
    | JStr(s: string)
    | JArr(items: seq<Json>)
    | JObj(fields: map<string, Json>)

  /** Python's `bool(v)`: None, False, zero and empty containers are falsy. */
  predicate PyTruthy(v: Json) {
    match v
    case JNull => false
    case JBool(b) => b
    case JInt(i) => i != 0
    case JReal(r) => r != 0.0
    case JStr(s) => s != []
    case JArr(items) => items != []
    case JObj(fields) => fields != map[]
  }

  /** JavaScript's `!!v`: unlike Python, an empty array or object is truthy. */
  predicate JsTruthy(v: Json) {
    match v
    case JNull => false
    case JBool(b) => b
    case JInt(i) => i != 0
    case JReal(r) => r != 0.0
    case JStr(s) => s != []
    case JArr(_) => true
    case JObj(_) => true
  }

  /** A request body parsed by `request.get_json()`: a JSON object, or None when absent. */
  type Body = Option<map<string, Json>>

  /** `not data` for a request body: no body, or an empty object. */
  predicate NoBody(data: Body) {
    data.None? || data.value == map[]
  }

  /** `data.get(key)`: the value under `key`, or None when the key is absent. */
  function Get(m: map<string, Json>, key: string): (v: Json)
    ensures key !in m ==> v == JNull
  {
    if key in m then m[key] else JNull
  }

  /** `data.get(key, default)`: a key that is present wins, even when its value is None. */
  function GetOr(m: map<string, Json>, key: string, default: Json): (v: Json)
    ensures key in m ==> v == m[key]
    ensures key !in m ==> v == default
  {
    if key in m then m[key] else default
  }

  /** `not key in data or not data.get(key)`: the key is missing or its value is falsy. */
  predicate MissingOrFalsy(m: map<string, Json>, key: string) {
    key !in m || !PyTruthy(m[key])
  }

  /** Python's `v == n` for an integer constant `n` (booleans compare as 0 and 1). */
  predicate PyEqualsInt(v: Json, n: int) {
    match v
    case JInt(i) => i == n
    case JReal(r) => r == n as real
    case JBool(b) => (if b then 1 else 0) == n
    case _ => false
  }

  /** `isinstance(v, (int, float))`; `bool` is a subclass of `int` in Python. */
  predicate IsPyNumber(v: Json) {
    v.JInt? || v.JReal? || v.JBool?
  }

  /** The numeric value of a Python number. */
  function PyNumber(v: Json): real
    requires IsPyNumber(v)
  {
    match v
    case JInt(i) => i as real
    case JReal(r) => r
    case JBool(b) => if b then 1.0 else 0.0
  }

  /** `isinstance(v, int)`, which holds for booleans too. */
  predicate IsPyInt(v: Json) {
    v.JInt? || v.JBool?
  }

  function PyIntValue(v: Json): int
    requires IsPyInt(v)
  {
    match v
    case JInt(i) => i
    case JBool(b) => if b then 1 else 0
  }
}
