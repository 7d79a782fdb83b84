/** Python's dynamic values, as the trading bot sees them: exchange replies,
    configuration trees, ticker snapshots and log payloads are all dicts of
    loosely typed values.  This module gives them one datatype, Python's
    truthiness, `dict.get`, the `or` operator, and the numeric conversions
    `float(...)` and `int(...)`.  The parts of the interpreter the model does not
    define (string-to-number parsing, `round`, `str` of a non-string value,
    `json.dumps`) are passed in as a `Builtins` value. */
module PyValues {

  datatype Option<T> = None | Some(value: T)

  /** A value or the Python exception (by class name) that computing it raised. */
  datatype Result<T> = Ok(value: T) | Raise(error: string)

  /** A Python value.  `Num` stands for both `int` and `float`. */
  datatype Value =
    | Null
    | Bool(b: bool)
    | Num(x: real)
    | Str(s: string)
    | List(items: seq<Value>)
    | Dict(fields: map<string, Value>)

  /** The Python built-ins the model leaves abstract. */
  datatype Builtins = Builtins(
    parseFloat: string -> Option<real>,  // float(s) on a str; None where it raises ValueError
    parseInt: string -> Option<int>,     // int(s) on a str; None where it raises ValueError
    round: (real, int) -> real,          // round(x, n)
    show: Value -> string,               // str(v) for a value that is not a str
    jsonDumps: Value -> string)          // json.dumps(v, separators=(",", ":"))

  /** `bool(v)`: None, False, zero, "" and empty containers are falsy. */
  predicate Truthy(v: Value)
  {
    match v
    case Null => false
    case Bool(b) => b
    case Num(x) => x != 0.0
    case Str(s) => s != ""
    case List(items) => items != []
    case Dict(fields) => fields != map[]
  }

  /** `d.get(key)`: the value stored under `key`, or None. */
  function Get(d: map<string, Value>, key: string): Value
  {
    if key in d then d[key] else Null
  }

  /** `d.get(key, default)`. */
  function GetOr(d: map<string, Value>, key: string, default: Value): Value
  {
    if key in d then d[key] else default
  }

  /** `a or b`: the first operand when it is truthy, otherwise the second. */
  function Or(a: Value, b: Value): (r: Value)
    ensures Truthy(r) <==> Truthy(a) || Truthy(b)
    ensures Truthy(a) ==> r == a
  {
    if Truthy(a) then a else b
  }

  /** `float(v)`, which raises TypeError on None and containers and
      ValueError on a string that is not a number. */
  function Float(v: Value, py: Builtins): (r: Result<real>)
    ensures v.Num? ==> r == Ok(v.x)
    ensures r.Raise? <==> v.Null? || v.List? || v.Dict? || (v.Str? && py.parseFloat(v.s).None?)
  {
    match v
    case Num(x) => Ok(x)
    case Bool(b) => Ok(if b then 1.0 else 0.0)
    case Str(s) => (match py.parseFloat(s) case Some(x) => Ok(x) case None => Raise("ValueError"))
    case _ => Raise("TypeError")
  }

  /** `_safe_float(v)`: `float(v)`, or 0.0 when that raises. */
  function SafeFloat(v: Value, py: Builtins): (r: real)
    ensures Float(v, py).Ok? ==> r == Float(v, py).value
    ensures Float(v, py).Raise? ==> r == 0.0
  {
    match Float(v, py)
    case Ok(x) => x
    case Raise(_) => 0.0
  }

  /** `int(x)` on a float truncates toward zero. */
  function Trunc(x: real): (r: int)
    ensures 0.0 <= x ==> r as real <= x < r as real + 1.0
    ensures x < 0.0 ==> r as real - 1.0 < x <= r as real
  {
    if 0.0 <= x then x.Floor else -((-x).Floor)
  }

  /** `int(v)`. */
  function ToInt(v: Value, py: Builtins): (r: Result<int>)
    ensures v.Num? ==> r == Ok(Trunc(v.x))
    ensures r.Raise? <==> v.Null? || v.List? || v.Dict? || (v.Str? && py.parseInt(v.s).None?)
  {
    match v
    case Num(x) => Ok(Trunc(x))
    case Bool(b) => Ok(if b then 1 else 0)
    case Str(s) => (match py.parseInt(s) case Some(n) => Ok(n) case None => Raise("ValueError"))
    case _ => Raise("TypeError")
  }

  /** `str(v)`. */
  function PyStr(v: Value, py: Builtins): string
  {
    if v.Str? then v.s else py.show(v)
  }

  function UpperChar(c: char): char
  {
    if 'a' <= c <= 'z' then (c as int - 32) as char else c
  }

  /** `s.upper()`, on the ASCII letters. */
  function Upper(s: string): (r: string)
    ensures |r| == |s|
    ensures forall i :: 0 <= i < |s| ==> r[i] == UpperChar(s[i])
  {
    if s == [] then [] else [UpperChar(s[0])] + Upper(s[1..])
  }

  /** Upper-casing twice is upper-casing once. */
  lemma UpperIdempotent(s: string)
    ensures Upper(Upper(s)) == Upper(s)
  {
    var u := Upper(s);
    assert forall i :: 0 <= i < |u| ==> UpperChar(u[i]) == u[i];
  }
}
