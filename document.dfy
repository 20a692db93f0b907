/**
 * The values a YAML config file loads into (`yaml.safe_load`), with the
 * Python operations the installer applies to them: `dict.get` with a
 * default, truthiness and the `in` operator.
 */
module Document {
  import opened Wrappers
  import PyStr

  /** `None`, `bool`, `int`, `str`, `list` and `dict` with string keys. */
  datatype Value =
    | Null
    | Bool(b: bool)
    | Int(i: int)
    | Str(s: string)
    | List(items: seq<Value>)
    | Dict(entries: map<string, Value>)

  /** `d.get(key, default)` */
  function Get(d: map<string, Value>, key: string, default: Value): (r: Value)
    ensures key in d ==> r == d[key]
    ensures key !in d ==> r == default
  {
    if key in d then d[key] else default
  }

  /** `bool(v)` */
  predicate Truthy(v: Value)
  {
    match v
    case Null => false
    case Bool(b) => b
    case Int(i) => i != 0
    case Str(s) => s != ""
    case List(items) => items != []
    case Dict(entries) => entries != map[]
  }

  /**
   * `code in v`: membership for a list, substring for a string, key for a
   * dict; `None` where Python raises TypeError.
   */
  function Membership(code: string, v: Value): (r: Option<bool>)
    ensures r.None? <==> !(v.List? || v.Str? || v.Dict?)
    ensures v.List? ==> (r == Some(true) <==> exists i :: 0 <= i < |v.items| && v.items[i] == Str(code))
    ensures v.Dict? ==> (r == Some(true) <==> code in v.entries)
    ensures v.Str? ==> (r == Some(true) <==> PyStr.Contains(v.s, code))
  {
    match v
    case List(items) => Some(Str(code) in items)
    case Str(s) => Some(PyStr.Contains(s, code))
    case Dict(entries) => Some(code in entries)
    case _ => None
  }
}
