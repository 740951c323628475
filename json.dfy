/** Decoded JSON documents, as the listener holds them after `json.Decoder.UseNumber`,
 *  and the listener's value helpers `Float`, `Int`, `IntOr` and `JsonString`
 *  (eddnlistener/eddnlistener.go:1596-1601, 1818-1853). */
module Json {
  import opened Wrappers

  /** A decoded JSON value. Numbers keep their exact value (`json.Number`). */
  datatype Value =
    | Null
    | Bool(b: bool)
    | Num(n: real)
    | Str(s: string)
    | List(items: seq<Value>)
    | Obj(fields: map<string, Value>)

  /** A decoded JSON object (`map[string]interface{}`). */
  type Doc = map<string, Value>

  /** Go's map index: a missing key reads as nil. */
  function Get(d: Doc, key: string): Value
  {
    if key in d then d[key] else Null
  }

  /** The number `i` as a JSON value. */
  function IntValue(i: int): Value
  {
    Num(i as real)
  }

  predicate IsInteger(r: real)
  {
    r.Floor as real == r
  }

  /** `Float`: the value of a number; nil and every other type are errors. */
  function Float(v: Value): (r: Result<real>)
    ensures r.Ok? <==> v.Num?
    ensures r.Ok? ==> r.value == v.n
    ensures v == Null ==> r == Err("Missing value")
  {
    match v
    case Null => Err("Missing value")
    case Num(n) => Ok(n)
    case _ => Err("Invalid value type")
  }

  /** `Int`: the value of an integral number; nil, other types and fractional numbers
   *  are errors. */
  function Int(v: Value): (r: Result<int>)
    ensures r.Ok? <==> v.Num? && IsInteger(v.n)
    ensures r.Ok? ==> r.value as real == v.n
    ensures v == Null ==> r == Err("Missing value")
  {
    match v
    case Null => Err("Missing value")
    case Num(n) => if IsInteger(n) then Ok(n.Floor) else Err("Invalid integer")
    case _ => Err("Invalid value type")
  }

  /** `IntOr`: the integer value, or the default for nil, for any other type and for a
   *  number that is not an integer. */
  function IntOr(v: Value, default: int): (r: int)
    ensures !(v.Num? && IsInteger(v.n)) ==> r == default
    ensures v.Num? && IsInteger(v.n) ==> r as real == v.n
  {
    match v
    case Num(n) => if IsInteger(n) then n.Floor else default
    case _ => default
  }

  /** `IntOr` is `Int` with its error replaced by the default. */
  lemma IntOrIsIntWithDefault(v: Value, default: int)
    ensures IntOr(v, default) == (if Int(v).Ok? then Int(v).value else default)
  {
  }

  /** `JsonString`: nil reads as the empty string, a string as itself; any other type is
   *  a failed type assertion (a panic in the source). */
  function JsonString(v: Value): (r: Result<string>)
    ensures v == Null ==> r == Ok("")
    ensures v.Str? ==> r == Ok(v.s)
    ensures r.Ok? <==> v.Null? || v.Str?
  {
    match v
    case Null => Ok("")
    case Str(s) => Ok(s)
    case _ => Err("interface conversion: value is not a string")
  }

  /** `Int` and `IntValue` are inverse: every integer survives the trip through a JSON
   *  number. */
  lemma IntOfIntValue(i: int)
    ensures Int(IntValue(i)) == Ok(i)
  {
  }
}
