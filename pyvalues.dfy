/**
 * The untyped values the core receives in plain dicts (decoded JSON bodies), Python's
 * truthiness and `isinstance` tests on them, and the exceptions that can end a call.
 */
module PyValues {
  import opened Decimals

  /** A JSON value; `Compound` is a list or an object, of which only emptiness matters here. */
  datatype Value =
    | Null
    | Bool(b: bool)
    | Int(i: int)
    | Float(d: Decimal)
    | Str(s: string)
    | Compound(nonEmpty: bool)

  /** Python truthiness: `None`, `False`, zero, "" and empty containers are false. */
  predicate Truthy(v: Value) {
    match v
    case Null => false
    case Bool(b) => b
    case Int(i) => i != 0
    case Float(d) => d.mantissa != 0
    case Str(s) => s != []
    case Compound(nonEmpty) => nonEmpty
  }

  /** `isinstance(v, (int, float))`; `bool` is a subclass of `int` in Python, so it counts. */
  predicate IsIntOrFloat(v: Value) {
    v.Bool? || v.Int? || v.Float?
  }

  /** The number an int, float or bool stands for (`True` is 1). */
  function NumberOf(v: Value): real
    requires IsIntOrFloat(v)
  {
    match v
    case Bool(b) => if b then 1.0 else 0.0
    case Int(i) => i as real
    case Float(d) => d.Value()
  }

  /** `dict.get(key)`: the value, or `None` when the key is absent. */
  function Get(m: map<string, Value>, key: string): Value {
    if key in m then m[key] else Null
  }

  /** The exceptions that end a call in the modelled code. */
  datatype Exception =
    | HttpException(statusCode: int, detail: string)  // FastAPI's HTTPException
    | AttributeError                                  // a `str` method called on a non-string
    | TypeError                                       // `re.match` on a non-string
    | KeyError(key: string)
}
