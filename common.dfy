/** Shared value types: optional values, results, three-state inputs and
    the JSON-like values that the Python dictionaries of the system hold. */
module Common {

  datatype Option<T> = None | Some(value: T)

  datatype Result<T, E> = Ok(value: T) | Err(error: E)

  /** A value as a Python caller can pass it: not supplied at all (a missing
      attribute, a key left out of a request body), supplied as `None`, or
      supplied with a value.  Pydantic and `getattr(obj, name, default)`
      treat the first two differently. */
  datatype Input<T> = Omitted | ExplicitNull | Given(value: T)

  /** The values a JSON document or a Python dictionary of the system holds.
      Floating-point numbers are not modelled. */
  datatype Value =
    | Null
    | Bool(b: bool)
    | Int(i: int)
    | Str(s: string)
    | Arr(items: seq<Value>)
    | Obj(fields: map<string, Value>)

  /** Python truthiness: `None`, `False`, `0`, `""`, `[]` and `{}` are false. */
  predicate Truthy(v: Value)
  {
    match v
    case Null => false
    case Bool(b) => b
    case Int(i) => i != 0
    case Str(s) => s != ""
    case Arr(items) => items != []
    case Obj(fields) => fields != map[]
  }

  /** Python `==` on two values: as structural equality, except that `True == 1`
      and `False == 0` hold at the top level. */
  predicate PyEq(a: Value, b: Value)
  {
    a == b ||
    (a.Bool? && b.Int? && b.i == (if a.b then 1 else 0)) ||
    (a.Int? && b.Bool? && a.i == (if b.b then 1 else 0))
  }

  /** `d.get(key, default)` on a Python dictionary. */
  function Get(d: map<string, Value>, key: string, default: Value): (r: Value)
    ensures key in d ==> r == d[key]
    ensures key !in d ==> r == default
  {
    if key in d then d[key] else default
  }

  /** The value of an optional string field as a `Value`. */
  function OptStr(o: Option<string>): Value
  {
    match o
    case None => Null
    case Some(s) => Str(s)
  }
}
