/**
 * Decoded JSON values, as the dispatcher receives them from `json.loads` and as it
 * builds its responses.  JSON numbers with a fraction or exponent decode to a Python
 * float and are kept as a `real`; the others decode to an unbounded `int`.
 */
module Json {

  datatype Value =
    | Null
    | Bool(b: bool)
    | Int(i: int)
    | Float(r: real)
    | Str(s: string)
    | Arr(items: seq<Value>)
    | Obj(fields: map<string, Value>)

  /** The name Python gives the type of a decoded value in its TypeError messages. */
  function TypeName(v: Value): string {
    match v
    case Null => "NoneType"
    case Bool(_) => "bool"
    case Int(_) => "int"
    case Float(_) => "float"
    case Str(_) => "str"
    case Arr(_) => "list"
    case Obj(_) => "dict"
  }

  /** Lists and dicts cannot be used as a dictionary key; every other decoded value can. */
  predicate Hashable(v: Value) {
    !v.Arr? && !v.Obj?
  }

  /** `fields.get(key, default)` on a decoded object. */
  function Get(fields: map<string, Value>, key: string, default: Value): Value {
    if key in fields then fields[key] else default
  }

  /** The empty object `{}`, the default of every `.get("params", {})`. */
  const EMPTY: Value := Obj(map[])
}
