/**
 * Decoded JSON values, as the client handles them after `json.loads`, and the
 * few pieces of Python dictionary behaviour the client relies on.
 */
module Json {

  /** A decoded JSON value. Numbers are integers; objects map keys to values. */
  datatype Json =
    | Null
    | Bool(b: bool)
    | Num(n: int)
    | Str(s: string)
    | Arr(items: seq<Json>)
    | Obj(fields: map<string, Json>)

  /** The empty mapping `{}`. */
  const EmptyObject: Json := Obj(map[])

  /** Python truthiness: `None`, `False`, `0`, `""`, `[]` and `{}` are false. */
  predicate Falsy(j: Json) {
    match j
    case Null => true
    case Bool(b) => !b
    case Num(n) => n == 0
    case Str(s) => s == ""
    case Arr(items) => items == []
    case Obj(fields) => fields == map[]
  }

  /** Python's `j or default`. */
  function Or(j: Json, default: Json): Json {
    if Falsy(j) then default else j
  }

  /** Python's `d.get(key, default)` on a dictionary. */
  function Get(fields: map<string, Json>, key: string, default: Json): Json {
    if key in fields then fields[key] else default
  }
}
