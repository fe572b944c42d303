/**
 * The loosely typed property bag algorithms are configured from. Values are
 * held already typed; reading one as a number of the wrong kind fails the way
 * Java's number parsing does.
 */
module Properties {

  import opened Base
  import opened JavaNumbers
  import opened Errors

  datatype Value = IntV(i: Int32) | RealV(d: Double) | StrV(s: string)

  type Bag = map<string, Value>

  /**
   * `getInt(key, default)`: the default when the key is absent; only an
   * integer value parses as an `int`.
   */
  function GetInt(bag: Bag, key: string, default: Int32): (r: Result<Int32, Error>)
    ensures key !in bag ==> r == Ok(default)
    ensures key in bag ==> (r.Ok? <==> bag[key].IntV?)
    ensures key in bag && bag[key].IntV? ==> r.value == bag[key].i
    ensures r.Err? ==> r.error == MalformedNumber(key)
  {
    if key !in bag then Ok(default)
    else match bag[key]
      case IntV(i) => Ok(i)
      case _ => Err(MalformedNumber(key))
  }

  /**
   * `getDouble(key, default)`: the default when the key is absent; integers
   * widen exactly, reals are taken as they are, text does not parse.
   */
  function GetDouble(bag: Bag, key: string, default: Double): (r: Result<Double, Error>)
    ensures key !in bag ==> r == Ok(default)
    ensures key in bag ==> (r.Ok? <==> !bag[key].StrV?)
    ensures key in bag && bag[key].IntV? ==> r == Ok(IntToDouble(bag[key].i))
    ensures key in bag && bag[key].RealV? ==> r == Ok(bag[key].d)
    ensures r.Err? ==> r.error == MalformedNumber(key)
  {
    if key !in bag then Ok(default)
    else match bag[key]
      case IntV(i) => Ok(IntToDouble(i))
      case RealV(d) => Ok(d)
      case StrV(_) => Err(MalformedNumber(key))
  }

  /** `(int) getDouble(key, default)`, the idiom the bridge uses for counts. */
  function GetDoubleAsInt(bag: Bag, key: string, default: Int32): (r: Result<Int32, Error>)
    ensures key !in bag ==> r == Ok(default)
    ensures key in bag && bag[key].IntV? ==> r == Ok(bag[key].i)
    ensures key in bag && bag[key].RealV? ==> r == Ok(DoubleToInt(bag[key].d))
    ensures key in bag ==> (r.Ok? <==> !bag[key].StrV?)
  {
    WidenNarrow(default);
    WidenNarrowFound(bag, key);
    var d :- GetDouble(bag, key, IntToDouble(default));
    Ok(DoubleToInt(d))
  }

  lemma WidenNarrowFound(bag: Bag, key: string)
    ensures key in bag && bag[key].IntV? ==> DoubleToInt(IntToDouble(bag[key].i)) == bag[key].i
  {
  }

  /**
   * `Enum.valueOf(getString(key))` for an enum type with the given constant
   * names: exact matching only. A numeric value's text is never a constant name.
   */
  function ResolveEnum(v: Value, constants: set<string>): (r: Option<string>)
    ensures r.Some? <==> v.StrV? && v.s in constants
    ensures r.Some? ==> r.value == v.s
  {
    match v
    case StrV(s) => if s in constants then Some(s) else None
    case _ => None
  }
}
