/** JSON values as the runtime passes them around, and the few Python readings of them
    (truthiness, `dict.get`) that the planner relies on. */
module Json {

  datatype Option<+T> = None | Some(value: T)

  datatype Json =
    | Null
    | Bool(bit: bool)
    | Num(num: real)
    | Str(text: string)
    | Arr(items: seq<Json>)
    | Obj(fields: map<string, Json>)

  /** Python's `bool(value)`. */
  predicate Truthy(v: Json) {
    match v
    case Null => false
    case Bool(b) => b
    case Num(n) => n != 0.0
    case Str(s) => s != ""
    case Arr(xs) => xs != []
    case Obj(m) => m != map[]
  }

  /** `value.get(key)`; a missing key, like a value that is no object, reads as null. */
  function Get(v: Json, key: string): Json {
    if v.Obj? && key in v.fields then v.fields[key] else Null
  }

  /** `value.get(key) or []`. */
  function GetOrEmpty(v: Json, key: string): Json {
    if Truthy(Get(v, key)) then Get(v, key) else Arr([])
  }
}
