// JSON values as the Python code sees them after `json.loads`: the handful of
// Python behaviours the dispatchers rely on (truthiness, `type(x).__name__`,
// `str(x)`, `dict.get` with a default) are defined once here.
module JsonValue {
  import opened Text

  /** A JSON document. Numbers are integers only; an object is a Python dict. */
  datatype Json =
    | JNull
    | JBool(b: bool)
    | JInt(i: int)
    | JStr(s: string)
    | JArr(items: seq<Json>)
    | JObj(fields: map<string, Json>)

  /** Python truthiness: `None`, `False`, `0`, `""`, `[]` and `{}` are false. */
  predicate Truthy(j: Json) {
    match j
    case JNull => false
    case JBool(b) => b
    case JInt(i) => i != 0
    case JStr(s) => |s| > 0
    case JArr(items) => |items| > 0
    case JObj(fields) => |fields| > 0
  }

  /** `type(j).__name__` of the Python object `json.loads` builds. */
  function TypeName(j: Json): (name: string)
    ensures name == "dict" <==> j.JObj?
    ensures name == "list" <==> j.JArr?
    ensures name == "str" <==> j.JStr?
  {
    match j
    case JNull => "NoneType"
    case JBool(_) => "bool"
    case JInt(_) => "int"
    case JStr(_) => "str"
    case JArr(_) => "list"
    case JObj(_) => "dict"
  }

  /** `d.get(key, default)`. */
  function Get(m: map<string, Json>, key: string, default: Json): (v: Json)
    ensures key in m ==> v == m[key]
    ensures key !in m ==> v == default
  {
    if key in m then m[key] else default
  }

  /** The message of the AttributeError that `x.get(...)` raises on a non-dict `x`. */
  function NoGetMessage(j: Json): string {
    "'" + TypeName(j) + "' object has no attribute 'get'"
  }

  /**
   * `str(j)` as an f-string interpolates it. Strings are themselves, scalars are
   * rendered as Python does; a list is rendered element by element with `repr`
   * quoting; a dict is rendered as "{...}" (its key order is not modelled).
   */
  function PyStr(j: Json): (r: string)
    ensures j.JStr? ==> r == j.s
    ensures j.JNull? ==> r == "None"
  {
    match j
    case JStr(s) => s
    case _ => PyRepr(j)
  }

  function PyRepr(j: Json): string
    decreases j
  {
    match j
    case JNull => "None"
    case JBool(b) => if b then "True" else "False"
    case JInt(i) => IntToString(i)
    case JStr(s) => "'" + s + "'"
    case JArr(items) => "[" + JoinWith(seq(|items|, k requires 0 <= k < |items| => PyRepr(items[k])), ", ") + "]"
    case JObj(_) => "{...}"
  }
}
