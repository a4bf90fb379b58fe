/** JSON values as the Python code sees them once `json.loads` has run,
    together with the Python idioms the services rely on: truthiness,
    `dict.get` and the `or` operator. */
module JsonValue {

  /** Numbers are integers only; floating point is not modelled. */
  datatype Json =
    | JNull
    | JBool(b: bool)
    | JNum(n: int)
    | JStr(s: string)
    | JList(items: seq<Json>)
    | JObj(fields: map<string, Json>)

  /** Python's `bool(x)`: None, False, 0, "", [] and {} are false. */
  predicate Truthy(j: Json) {
    match j
    case JNull => false
    case JBool(b) => b
    case JNum(n) => n != 0
    case JStr(s) => s != ""
    case JList(items) => |items| > 0
    case JObj(fields) => |fields| > 0
  }

  /** Python's `a or b`: the first operand if it is truthy, else the second. */
  function Or(a: Json, b: Json): (r: Json)
    ensures Truthy(r) <==> Truthy(a) || Truthy(b)
    ensures r == a || r == b
    ensures Truthy(a) ==> r == a
    ensures !Truthy(a) ==> r == b
  {
    if Truthy(a) then a else b
  }

  /** The value stored under `key` in a dict, or None when the key is missing. */
  function Field(fields: map<string, Json>, key: string): (r: Json)
    ensures key in fields ==> r == fields[key]
    ensures key !in fields ==> r == JNull
  {
    if key in fields then fields[key] else JNull
  }
}
