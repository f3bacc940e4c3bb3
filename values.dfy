/** The dynamically typed values the service handles: request parameters,
    decoded JSON replies of the API server and the result dicts it returns,
    together with the Python semantics the service relies on (truthiness,
    `==`, `"%s" %` formatting) and the exceptions it may raise. */
module Values {

  datatype Option<+T> = None | Some(value: T)

  datatype Result<+T, +E> = Success(value: T) | Failure(error: E)

  /** A decoded JSON value (arrays and floating-point numbers are not modelled). */
  datatype Value =
    | Null
    | Bool(b: bool)
    | Int(i: int)
    | Str(s: string)
    | Obj(fields: map<string, Value>)

  /** A Python exception: its class name and `str(e)`. */
  datatype Exception = Exception(kind: string, message: string)

  /** `d[key]` on a dict without `key`. */
  function KeyError(key: string): Exception
  {
    Exception("KeyError", "'" + key + "'")
  }

  /** Python's class name of a value. */
  function TypeName(v: Value): string
  {
    match v
    case Null => "NoneType"
    case Bool(_) => "bool"
    case Int(_) => "int"
    case Str(_) => "str"
    case Obj(_) => "dict"
  }

  /** Calling a string method such as `upper` on a value that is not a string. */
  function NoAttribute(v: Value, attribute: string): Exception
    requires !v.Str?
  {
    Exception("AttributeError", "'" + TypeName(v) + "' object has no attribute '" + attribute + "'")
  }

  /** `bool(v)`: None, False, 0, "" and {} are false, everything else is true. */
  predicate Truthy(v: Value)
  {
    match v
    case Null => false
    case Bool(b) => b
    case Int(i) => i != 0
    case Str(s) => s != ""
    case Obj(fields) => fields != map[]
  }

  /** `d.get(key, default)`. */
  function Get(d: map<string, Value>, key: string, default: Value): (r: Value)
    ensures key in d ==> r == d[key]
    ensures key !in d ==> r == default
  {
    if key in d then d[key] else default
  }

  /** The number a bool or int stands for in a Python comparison. */
  function Numeric(v: Value): int
    requires v.Bool? || v.Int?
  {
    match v
    case Bool(b) => if b then 1 else 0
    case Int(i) => i
  }

  /** Python's `a == b`: True == 1 and False == 0 hold; a string never equals
      a number; two dicts are equal when they have the same keys and equal
      values under each. */
  predicate Equal(a: Value, b: Value)
  {
    if (a.Bool? || a.Int?) && (b.Bool? || b.Int?) then Numeric(a) == Numeric(b)
    else if a.Obj? && b.Obj? then
      && a.fields.Keys == b.fields.Keys
      && forall k :: k in a.fields ==> Equal(a.fields[k], b.fields[k])
    else a == b
  }

  function DigitChar(d: nat): (c: char)
    requires d < 10
  {
    "0123456789"[d]
  }

  /** `str(n)` for an integer. */
  function Decimal(n: int): (r: string)
    ensures |r| > 0
    decreases if n < 0 then -n + 1 else n
  {
    if n < 0 then "-" + Decimal(-n)
    else if n < 10 then [DigitChar(n)]
    else Decimal(n / 10) + [DigitChar(n % 10)]
  }

  /** `"%s" % v` for the scalar values; a dict is shown as `{...}`. */
  function Format(v: Value): string
  {
    match v
    case Null => "None"
    case Bool(b) => if b then "True" else "False"
    case Int(i) => Decimal(i)
    case Str(s) => s
    case Obj(_) => "{...}"
  }
}
