/** The JSON-like documents the runner loads and the model reads: scenarios, constants, results. */
module Json {
  import opened Wrappers

  /** A decoded JSON document. Integers and floats are kept apart, as Python's json module does. */
  datatype Value =
    | Null
    | Bool(b: bool)
    | Int(i: int)
    | Float(r: real)
    | Str(s: string)
    | Arr(items: seq<Value>)
    | Obj(fields: map<string, Value>)

  /** The number a value stands for in Python arithmetic (bool is a subclass of int). */
  function AsNumber(v: Value): (r: Option<real>)
    ensures r.Some? <==> (v.Bool? || v.Int? || v.Float?)
    ensures v.Int? ==> r == Some(v.i as real)
    ensures v.Float? ==> r == Some(v.r)
  {
    match v
    case Bool(b) => Some(if b then 1.0 else 0.0)
    case Int(i) => Some(i as real)
    case Float(x) => Some(x)
    case _ => None
  }

  /** Python's `float(v)`: numbers convert, strings go through the given float parser, the rest fail. */
  function ToFloat(v: Value, parseFloat: string -> Option<real>): (r: Option<real>)
    ensures !v.Str? ==> r == AsNumber(v)
    ensures v.Str? ==> r == parseFloat(v.s)
  {
    if v.Str? then parseFloat(v.s) else AsNumber(v)
  }
}
