/**
 * Runtime values (value.rs): the payloads the evaluator computes and the typed
 * extractors the operator handlers use to read them.
 *
 * A `Decimal` is modelled as an exact `real`; its scale is not kept.
 */
module Values {
  import opened Errors

  const MinI64: int := -0x8000_0000_0000_0000
  const MaxI64: int := 0x7fff_ffff_ffff_ffff

  predicate InI64(i: int) { MinI64 <= i <= MaxI64 }

  /** A value is integral when it has no fractional part. */
  predicate IsIntegral(x: real) { x.Floor as real == x }

  datatype Value =
    | String(s: string)
    | Number(n: real)
    | Bool(b: bool)
    | List(items: seq<Value>)
    | Map(pairs: seq<(Value, Value)>)
    | None
  {
    /** `decimal()`: the number held, or `ShouldBeNumber`. */
    function Decimal(): (r: Result<real>)
      ensures r.Ok? <==> Number?
      ensures r.Ok? ==> r.value == n
      ensures !r.Ok? ==> r == Err(ShouldBeNumber)
    {
      match this
      case Number(x) => Ok(x)
      case _ => Err(ShouldBeNumber)
    }

    /** `string()`: the text held, or `ShouldBeString`. */
    function Str(): (r: Result<string>)
      ensures r.Ok? <==> String?
      ensures r.Ok? ==> r.value == s
      ensures !r.Ok? ==> r == Err(ShouldBeString)
    {
      match this
      case String(t) => Ok(t)
      case _ => Err(ShouldBeString)
    }

    /** `bool()`: the boolean held, or `ShouldBeBool`. */
    function Boolean(): (r: Result<bool>)
      ensures r.Ok? <==> Bool?
      ensures r.Ok? ==> r.value == b
      ensures !r.Ok? ==> r == Err(ShouldBeBool)
    {
      match this
      case Bool(x) => Ok(x)
      case _ => Err(ShouldBeBool)
    }

    /**
     * `integer()`: a number that reads back as an `i64`. The source prints the decimal
     * and parses the text as `i64`, so only integral numbers inside the `i64` range
     * succeed; every other value is `InvalidInteger`.
     */
    function Integer(): (r: Result<int>)
      ensures r.Ok? <==> Number? && IsIntegral(n) && InI64(n.Floor)
      ensures r.Ok? ==> r.value as real == n && InI64(r.value)
      ensures !r.Ok? ==> r == Err(InvalidInteger)
    {
      match this
      case Number(x) => if IsIntegral(x) && InI64(x.Floor) then Ok(x.Floor) else Err(InvalidInteger)
      case _ => Err(InvalidInteger)
    }

    /** `list()`: the items held, or `ShouldBeList`. */
    function ListItems(): (r: Result<seq<Value>>)
      ensures r.Ok? <==> List?
      ensures r.Ok? ==> r.value == items
      ensures !r.Ok? ==> r == Err(ShouldBeList)
    {
      match this
      case List(xs) => Ok(xs)
      case _ => Err(ShouldBeList)
    }
  }

  /** The `From` conversions into `Value`. */
  function FromStr(s: string): Value { String(s) }
  function FromBool(b: bool): Value { Bool(b) }
  function FromList(items: seq<Value>): Value { List(items) }
  function FromDecimal(x: real): Value { Number(x) }
  function FromI64(i: int): Value requires InI64(i) { Number(i as real) }

  /** Every extractor reads back what the matching conversion stored. */
  lemma ExtractorsInvertConversions(s: string, b: bool, items: seq<Value>, x: real, i: int)
    requires InI64(i)
    ensures FromStr(s).Str() == Ok(s)
    ensures FromBool(b).Boolean() == Ok(b)
    ensures FromList(items).ListItems() == Ok(items)
    ensures FromDecimal(x).Decimal() == Ok(x)
    ensures FromI64(i).Integer() == Ok(i)
  {
  }
}
