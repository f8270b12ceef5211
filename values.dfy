/** The Python values a decoded JSON request holds, with Python's
    truthiness and the type names its error messages print. */
module PyValues {
  import opened Basics

  datatype Value =
    | Null
    | Bool(b: bool)
    | Int(i: int)
    | Float(r: real)
    | Str(s: string)
    | List(items: seq<Value>)
    | Dict(entries: map<string, Value>)

  /** `bool(v)`: `None`, `False`, zero, and empty strings, lists and
      dictionaries are false; everything else is true. */
  predicate Truthy(v: Value) {
    match v
    case Null => false
    case Bool(b) => b
    case Int(i) => i != 0
    case Float(r) => r != 0.0
    case Str(s) => s != []
    case List(items) => items != []
    case Dict(entries) => entries != map[]
  }

  /** `type(v).__name__`. */
  function TypeName(v: Value): (name: string)
    ensures name == "dict" <==> v.Dict?
    ensures name == "str" <==> v.Str?
    ensures name == "NoneType" <==> v.Null?
  {
    match v
    case Null => "NoneType"
    case Bool(_) => "bool"
    case Int(_) => "int"
    case Float(_) => "float"
    case Str(_) => "str"
    case List(_) => "list"
    case Dict(_) => "dict"
  }

  /** `d.get(key, default)`. */
  function Get(d: map<string, Value>, key: string, default: Value): (v: Value)
    ensures key in d ==> v == d[key]
    ensures key !in d ==> v == default
  {
    if key in d then d[key] else default
  }

  /** What `isinstance(v, int)` accepts, as a number: `bool` is a subclass
      of `int`, with `True == 1` and `False == 0`. */
  function AsInt(v: Value): (n: Option<int>)
    ensures n.Some? <==> v.Int? || v.Bool?
    ensures v.Int? ==> n == Some(v.i)
  {
    match v
    case Int(i) => Some(i)
    case Bool(b) => Some(if b then 1 else 0)
    case _ => None
  }
}
