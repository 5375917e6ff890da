/**
  The values `json.loads` produces, and the two Python operations the receipt
  code applies to them: subscripting (`d[key]`) and `dict.get(key, default)`.
  A JSON number without a fraction or exponent decodes to a Python `int`; any
  other number decodes to a `float`, which the model keeps opaque as its literal
  text because no code here does arithmetic on it.
 */
module Json {
  import opened Wrappers

  datatype Value =
    | Null
    | Bool(b: bool)
    | Int(i: int)
    | Float(literal: string)
    | Str(s: string)
    | Array(elems: seq<Value>)
    | Object(fields: map<string, Value>)

  /** The exceptions the modelled code can raise. */
  datatype PyError =
    | KeyError(key: string)     // `d[key]` on a dict without `key`
    | TypeError                 // subscripting or iterating a value of the wrong type
    | JsonDecodeError           // `json.loads` rejected its input

  /** Python `v[key]` with a string key: only a dict answers it; every other
      JSON value (list, str, int, float, bool, None) raises TypeError. */
  function Subscript(v: Value, key: string): (r: Result<Value, PyError>)
    ensures r.Success? <==> v.Object? && key in v.fields
    ensures r.Success? ==> r.value == v.fields[key]
    ensures !v.Object? ==> r == Failure(TypeError)
    ensures v.Object? && key !in v.fields ==> r == Failure(KeyError(key))
  {
    match v
    case Object(fields) =>
      if key in fields then Success(fields[key]) else Failure(KeyError(key))
    case _ => Failure(TypeError)
  }

  /** Python `dict.get(key, default)`: the default is used only when the key is absent. */
  function Get(fields: map<string, Value>, key: string, default: Value): Value
  {
    if key in fields then fields[key] else default
  }
}
