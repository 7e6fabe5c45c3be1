/** The values a decoded JSON or YAML document is made of. Numbers keep only
    their integer value: nothing modelled here does arithmetic on them. */
module Json {

  datatype Option<+T> = None | Some(value: T)

  datatype Json =
    | Null
    | Bool(b: bool)
    | Num(n: int)
    | Str(s: string)
    | Arr(items: seq<Json>)
    | Obj(m: Vars)

  /** A decoded JSON object. */
  type Vars = map<string, Json>

  /** The map under key k, when there is one (a failed Go type assertion is None). */
  function SubMap(m: Vars, k: string): Option<Vars>
  {
    if k in m && m[k].Obj? then Some(m[k].m) else None
  }

  /** StringFromMap: the string under k, or "". */
  function StringAt(m: Vars, k: string): string
  {
    if k in m && m[k].Str? then m[k].s else ""
  }

  /** GetNestedMap: follow keys through nested maps; None when one is missing. */
  function NestedMap(m: Vars, keys: seq<string>): Option<Vars>
    decreases |keys|
  {
    if keys == [] then Some(m)
    else
      match SubMap(m, keys[0])
      case None => None
      case Some(next) => NestedMap(next, keys[1..])
  }

  function Nested(m: Option<Vars>, keys: seq<string>): Option<Vars>
  {
    if m.None? then None else NestedMap(m.value, keys)
  }
}
