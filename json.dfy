/** JSON values as `json.loads` hands them to the server, with the bits of
    Python behaviour the server applies to them (truthiness, `dict.get`, type names). */
module JsonValues {
  import opened Wrappers
  import opened Text
  import opened Dicts

  /** Objects keep their keys in order, as a Python dict does. */
  datatype Json =
    | JNull
    | JBool(b: bool)
    | JInt(n: int)
    | JStr(s: string)
    | JArr(items: seq<Json>)
    | JObj(fields: Dict<Json>)

  /** Python truthiness of the decoded value (`if x:`). */
  predicate Truthy(j: Json) {
    match j
    case JNull => false
    case JBool(b) => b
    case JInt(n) => n != 0
    case JStr(s) => s != []
    case JArr(a) => a != []
    case JObj(o) => o != []
  }

  /** The Python type a decoded value has, as error messages name it. */
  function TypeName(j: Json): string {
    match j
    case JNull => "NoneType"
    case JBool(_) => "bool"
    case JInt(_) => "int"
    case JStr(_) => "str"
    case JArr(_) => "list"
    case JObj(_) => "dict"
  }

  /** `d.get(key, default)` on a decoded dict. */
  function GetOr(fields: Dict<Json>, key: string, default: Json): Json {
    match Get(fields, key)
    case Some(v) => v
    case None => default
  }

  /** Python's `str()` of a decoded value; lists and dicts are rendered by `render`. */
  function Str(j: Json, render: Json -> string): string {
    match j
    case JNull => "None"
    case JBool(b) => if b then "True" else "False"
    case JInt(n) => IntToString(n)
    case JStr(s) => s
    case JArr(_) => render(j)
    case JObj(_) => render(j)
  }

  /** The text of the AttributeError raised by `x.<name>` on a decoded value that is not a dict. */
  function NoAttributeText(j: Json, name: string): string {
    "'" + TypeName(j) + "' object has no attribute '" + name + "'"
  }
}
