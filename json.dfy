/** JSON values as Python holds them after `json.loads`: objects are dicts (insertion-ordered). */
module Json {
  import opened Wrappers
  import opened Dicts
  import PyStr

  datatype Value =
    | Null
    | Bool(b: bool)
    | Int(i: int)
    | Float(r: real)
    | Str(s: string)
    | Arr(items: seq<Value>)
    | Obj(fields: Dict<Value>)

  type Object = Dict<Value>

  /** Python truthiness: `if v:`. */
  predicate Truthy(v: Value) {
    match v
    case Null => false
    case Bool(b) => b
    case Int(i) => i != 0
    case Float(r) => r != 0.0
    case Str(s) => s != ""
    case Arr(xs) => xs != []
    case Obj(fs) => fs != []
  }

  /** The integer a value stands for where Python's `isinstance(v, int)` holds; `bool` is a
      subclass of `int`, so `True` is 1 and `False` is 0. */
  function AsPyInt(v: Value): (r: Option<int>)
    ensures r.Some? <==> v.Int? || v.Bool?
  {
    match v
    case Int(i) => Some(i)
    case Bool(b) => Some(if b then 1 else 0)
    case _ => None
  }

  /** `None` becomes JSON null, a string becomes a JSON string. */
  function OptStr(o: Option<string>): Value {
    match o
    case Some(s) => Str(s)
    case None => Null
  }

  /** `str(v)` for the scalar values an error text can show; floats, lists and dicts are shown by
      a placeholder (Python's float and container repr are not modelled). */
  function Show(v: Value): string {
    match v
    case Null => "None"
    case Bool(b) => if b then "True" else "False"
    case Int(i) => PyStr.IntToString(i)
    case Str(s) => s
    case Float(_) => "<float>"
    case Arr(_) => "<list>"
    case Obj(_) => "<dict>"
  }
}
