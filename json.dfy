/**
 * JSON values as Python's `json` module decodes them into dicts, lists, strings,
 * numbers, booleans and None, together with Python's truthiness rule, which the
 * service relies on through `or` and `if cached:`.
 */
module Json {

  /** A decoded JSON value. Numbers are modelled as integers (see README). */
  datatype Json =
    | JNull
    | JBool(b: bool)
    | JNum(n: int)
    | JStr(s: string)
    | JArr(items: seq<Json>)
    | JObj(fields: map<string, Json>)

  /** A JSON object as a Python dict. */
  type Object = map<string, Json>

  /** Python's `bool(x)`: None, False, 0, "", [] and {} are falsy, everything else truthy. */
  predicate Truthy(j: Json) {
    match j
    case JNull => false
    case JBool(b) => b
    case JNum(n) => n != 0
    case JStr(s) => s != ""
    case JArr(items) => items != []
    case JObj(fields) => |fields| != 0
  }

  /** Python's `d.get(key)`: the value stored under `key`, or None when the key is absent. */
  function Get(d: Object, key: string): (r: Json)
    ensures key in d ==> r == d[key]
    ensures key !in d ==> r == JNull
  {
    if key in d then d[key] else JNull
  }

  /** Python's `a or b`: `a` when it is truthy, `b` otherwise. */
  function Or(a: Json, b: Json): (r: Json)
    ensures Truthy(a) ==> r == a
    ensures !Truthy(a) ==> r == b
  {
    if Truthy(a) then a else b
  }
}
