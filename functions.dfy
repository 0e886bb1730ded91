/**
 * The built-in functions `min`, `max`, `sum` and `mul` and the registry of named
 * functions (function.rs).
 *
 * A registered function is a value of type `InnerFunction`. The source writes each
 * built-in as a loop over its parameters; the registry stores the fold functions
 * (`MinOf`, ...) and the loop methods (`Min`, ...) are proved to compute them.
 */
module Functions {
  import opened Errors
  import opened Values

  type InnerFunction = seq<Value> -> Result<Value>

  predicate AllNumbers(params: seq<Value>) {
    forall i :: 0 <= i < |params| ==> params[i].Number?
  }

  /** `m` is one of the numbers in `params` and no number there is smaller. */
  predicate IsLeast(params: seq<Value>, m: real) {
    (exists i :: 0 <= i < |params| && params[i] == Number(m)) &&
    forall i :: 0 <= i < |params| && params[i].Number? ==> m <= params[i].n
  }

  /** `m` is one of the numbers in `params` and no number there is larger. */
  predicate IsGreatest(params: seq<Value>, m: real) {
    (exists i :: 0 <= i < |params| && params[i] == Number(m)) &&
    forall i :: 0 <= i < |params| && params[i].Number? ==> params[i].n <= m
  }

  /** Sum of the numbers in `params`, the reference for `sum`. */
  function Total(params: seq<Value>): real
    requires AllNumbers(params)
  {
    if |params| == 0 then 0.0 else params[0].n + Total(params[1..])
  }

  /** Product of the numbers in `params`, the reference for `mul`. */
  function Product(params: seq<Value>): real
    requires AllNumbers(params)
  {
    if |params| == 0 then 1.0 else params[0].n * Product(params[1..])
  }

  // The loops of function.rs as folds: `best` / `acc` is the loop variable after
  // params[..i] have been read; a non-number ends the loop with `ShouldBeNumber`.

  function MinFrom(params: seq<Value>, i: nat, best: Option<real>): Result<Value>
    requires i <= |params|
    decreases |params| - i
  {
    if i == |params| then
      if best.Some? then Ok(Number(best.value)) else Err(ParamEmpty("min"))
    else
      var num :- params[i].Decimal();
      MinFrom(params, i + 1, if best.None? || num < best.value then Some(num) else best)
  }

  function MaxFrom(params: seq<Value>, i: nat, best: Option<real>): Result<Value>
    requires i <= |params|
    decreases |params| - i
  {
    if i == |params| then
      if best.Some? then Ok(Number(best.value)) else Err(ParamEmpty("max"))
    else
      var num :- params[i].Decimal();
      MaxFrom(params, i + 1, if best.None? || num > best.value then Some(num) else best)
  }

  function SumFrom(params: seq<Value>, i: nat, acc: real): Result<Value>
    requires i <= |params|
    decreases |params| - i
  {
    if i == |params| then Ok(Number(acc))
    else
      var num :- params[i].Decimal();
      SumFrom(params, i + 1, acc + num)
  }

  function MulFrom(params: seq<Value>, i: nat, acc: real): Result<Value>
    requires i <= |params|
    decreases |params| - i
  {
    if i == |params| then Ok(Number(acc))
    else
      match params[i]
      case Number(num) => MulFrom(params, i + 1, acc * num)
      case _ => Err(ShouldBeNumber)
  }

  function MinOf(params: seq<Value>): Result<Value> { MinFrom(params, 0, Option.None) }
  function MaxOf(params: seq<Value>): Result<Value> { MaxFrom(params, 0, Option.None) }
  function SumOf(params: seq<Value>): Result<Value> { SumFrom(params, 0, 0.0) }
  function MulOf(params: seq<Value>): Result<Value> { MulFrom(params, 0, 1.0) }

  lemma {:induction false} MinFromMeaning(params: seq<Value>, i: nat, best: Option<real>)
    requires i <= |params|
    requires best.None? <==> i == 0
    requires best.Some? ==> IsLeast(params[..i], best.value)
    ensures MinFrom(params, i, best).Ok? <==> |params| > 0 && AllNumbers(params[i..])
    ensures |params| == 0 ==> MinFrom(params, i, best) == Err(ParamEmpty("min"))
    ensures !AllNumbers(params[i..]) ==> MinFrom(params, i, best) == Err(ShouldBeNumber)
    ensures MinFrom(params, i, best).Ok? ==>
      MinFrom(params, i, best).value.Number? && IsLeast(params, MinFrom(params, i, best).value.n)
    decreases |params| - i
  {
    if i == |params| {
      assert params[..i] == params;
    } else if params[i].Number? {
      var num := params[i].n;
      var next := if best.None? || num < best.value then Some(num) else best;
      assert params[..i + 1] == params[..i] + [params[i]];
      MinFromMeaning(params, i + 1, next);
      if !AllNumbers(params[i..]) {
        var k :| 0 <= k < |params[i..]| && !params[i..][k].Number?;
        assert !params[i + 1..][k - 1].Number?;
      }
      if AllNumbers(params[i + 1..]) {
        forall k | 0 <= k < |params[i..]| ensures params[i..][k].Number? {
          if k > 0 { assert params[i..][k] == params[i + 1..][k - 1]; }
        }
      }
    } else {
      assert !params[i..][0].Number?;
    }
  }

  lemma {:induction false} MaxFromMeaning(params: seq<Value>, i: nat, best: Option<real>)
    requires i <= |params|
    requires best.None? <==> i == 0
    requires best.Some? ==> IsGreatest(params[..i], best.value)
    ensures MaxFrom(params, i, best).Ok? <==> |params| > 0 && AllNumbers(params[i..])
    ensures |params| == 0 ==> MaxFrom(params, i, best) == Err(ParamEmpty("max"))
    ensures !AllNumbers(params[i..]) ==> MaxFrom(params, i, best) == Err(ShouldBeNumber)
    ensures MaxFrom(params, i, best).Ok? ==>
      MaxFrom(params, i, best).value.Number? && IsGreatest(params, MaxFrom(params, i, best).value.n)
    decreases |params| - i
  {
    if i == |params| {
      assert params[..i] == params;
    } else if params[i].Number? {
      var num := params[i].n;
      var next := if best.None? || num > best.value then Some(num) else best;
      assert params[..i + 1] == params[..i] + [params[i]];
      MaxFromMeaning(params, i + 1, next);
      if !AllNumbers(params[i..]) {
        var k :| 0 <= k < |params[i..]| && !params[i..][k].Number?;
        assert !params[i + 1..][k - 1].Number?;
      }
      if AllNumbers(params[i + 1..]) {
        forall k | 0 <= k < |params[i..]| ensures params[i..][k].Number? {
          if k > 0 { assert params[i..][k] == params[i + 1..][k - 1]; }
        }
      }
    } else {
      assert !params[i..][0].Number?;
    }
  }

  /**
   * `min` returns the least of its parameters; it fails with `ParamEmpty("min")` on
   * no parameters and with `ShouldBeNumber` when a parameter is not a number.
   */
  lemma MinMeaning(params: seq<Value>)
    ensures MinOf(params).Ok? <==> |params| > 0 && AllNumbers(params)
    ensures |params| == 0 ==> MinOf(params) == Err(ParamEmpty("min"))
    ensures !AllNumbers(params) ==> MinOf(params) == Err(ShouldBeNumber)
    ensures MinOf(params).Ok? ==> MinOf(params).value.Number? && IsLeast(params, MinOf(params).value.n)
  {
    assert params[0..] == params;
    MinFromMeaning(params, 0, Option.None);
  }

  /** `max` is `min` with the comparison reversed. */
  lemma MaxMeaning(params: seq<Value>)
    ensures MaxOf(params).Ok? <==> |params| > 0 && AllNumbers(params)
    ensures |params| == 0 ==> MaxOf(params) == Err(ParamEmpty("max"))
    ensures !AllNumbers(params) ==> MaxOf(params) == Err(ShouldBeNumber)
    ensures MaxOf(params).Ok? ==> MaxOf(params).value.Number? && IsGreatest(params, MaxOf(params).value.n)
  {
    assert params[0..] == params;
    MaxFromMeaning(params, 0, Option.None);
  }

  lemma {:induction false} SumFromMeaning(params: seq<Value>, i: nat, acc: real)
    requires i <= |params|
    ensures AllNumbers(params[i..]) ==> SumFrom(params, i, acc) == Ok(Number(acc + Total(params[i..])))
    ensures !AllNumbers(params[i..]) ==> SumFrom(params, i, acc) == Err(ShouldBeNumber)
    decreases |params| - i
  {
    if i < |params| {
      assert params[i..][1..] == params[i + 1..];
      if params[i].Number? {
        SumFromMeaning(params, i + 1, acc + params[i].n);
      } else {
        assert !params[i..][0].Number?;
      }
    }
  }

  lemma {:induction false} MulFromMeaning(params: seq<Value>, i: nat, acc: real, total: real)
    requires i <= |params|
    requires AllNumbers(params[i..]) && total == acc * Product(params[i..])
    ensures MulFrom(params, i, acc) == Ok(Number(total))
    decreases |params| - i
  {
    if i < |params| {
      assert params[i..][1..] == params[i + 1..];
      var x := params[i..][0].n;
      var rest := Product(params[i + 1..]);
      assert total == (acc * x) * rest;
      MulStep(params, i, acc, acc * x);
      MulFromMeaning(params, i + 1, acc * x, total);
    }
  }

  lemma {:induction false} MulFromRejects(params: seq<Value>, i: nat, acc: real)
    requires i <= |params|
    requires !AllNumbers(params[i..])
    ensures MulFrom(params, i, acc) == Err(ShouldBeNumber)
    decreases |params| - i
  {
    assert params[i..][1..] == params[i + 1..];
    if params[i].Number? {
      MulStep(params, i, acc, acc * params[i].n);
      MulFromRejects(params, i + 1, acc * params[i].n);
    } else {
      assert !params[i..][0].Number?;
    }
  }

  /** One round of the `mul` loop; `next` is the accumulator it leaves. */
  lemma MulStep(params: seq<Value>, i: nat, acc: real, next: real)
    requires i < |params| && params[i].Number? && next == acc * params[i].n
    ensures MulFrom(params, i, acc) == MulFrom(params, i + 1, next)
  {
  }

  /** `sum` adds its parameters starting from zero; a non-number is `ShouldBeNumber`. */
  lemma SumMeaning(params: seq<Value>)
    ensures AllNumbers(params) ==> SumOf(params) == Ok(Number(Total(params)))
    ensures !AllNumbers(params) ==> SumOf(params) == Err(ShouldBeNumber)
  {
    assert params[0..] == params;
    SumFromMeaning(params, 0, 0.0);
  }

  /** `mul` multiplies its parameters starting from one; a non-number is `ShouldBeNumber`. */
  lemma MulMeaning(params: seq<Value>)
    ensures AllNumbers(params) ==> MulOf(params) == Ok(Number(Product(params)))
    ensures !AllNumbers(params) ==> MulOf(params) == Err(ShouldBeNumber)
  {
    assert params[0..] == params;
    if AllNumbers(params) {
      MulFromMeaning(params, 0, 1.0, Product(params));
    } else {
      MulFromRejects(params, 0, 1.0);
    }
  }

  /** The `min` loop. */
  method Min(params: seq<Value>) returns (r: Result<Value>)
    ensures r == MinOf(params)
  {
    var best: Option<real> := Option.None;
    for i := 0 to |params|
      invariant MinFrom(params, i, best) == MinOf(params)
    {
      var num :- params[i].Decimal();
      if best.None? || num < best.value {
        best := Some(num);
      }
    }
    if best.Some? {
      return Ok(Number(best.value));
    }
    return Err(ParamEmpty("min"));
  }

  /** The `max` loop. */
  method Max(params: seq<Value>) returns (r: Result<Value>)
    ensures r == MaxOf(params)
  {
    var best: Option<real> := Option.None;
    for i := 0 to |params|
      invariant MaxFrom(params, i, best) == MaxOf(params)
    {
      var num :- params[i].Decimal();
      if best.None? || num > best.value {
        best := Some(num);
      }
    }
    if best.Some? {
      return Ok(Number(best.value));
    }
    return Err(ParamEmpty("max"));
  }

  /** The `sum` loop. */
  method Sum(params: seq<Value>) returns (r: Result<Value>)
    ensures r == SumOf(params)
  {
    var ans := 0.0;
    for i := 0 to |params|
      invariant SumFrom(params, i, ans) == SumOf(params)
    {
      var num :- params[i].Decimal();
      ans := ans + num;
    }
    return Ok(Number(ans));
  }

  /** The `mul` loop. */
  method Mul(params: seq<Value>) returns (r: Result<Value>)
    ensures r == MulOf(params)
  {
    var ans := 1.0;
    for i := 0 to |params|
      invariant MulFrom(params, i, ans) == MulOf(params)
    {
      var num :- params[i].Decimal();
      MulStep(params, i, ans, ans * num);
      ans := ans * num;
    }
    return Ok(Number(ans));
  }

  /** `get`: the registered function, or `InnerFunctionNotRegistered`. */
  function LookupFunction(table: map<string, InnerFunction>, name: string): (r: Result<InnerFunction>)
    ensures r.Ok? <==> name in table
    ensures r.Ok? ==> r.value == table[name]
    ensures !r.Ok? ==> r == Err(InnerFunctionNotRegistered(name))
  {
    if name in table then Ok(table[name]) else Err(InnerFunctionNotRegistered(name))
  }

  /** The function registry (`InnerFunctionManager`); `store` is the shared table. */
  class InnerFunctionManager {
    var store: map<string, InnerFunction>

    /** The table as the one-time initialisation first creates it: empty. */
    constructor ()
      ensures store == map[]
    {
      store := map[];
    }

    /** `init`: registers the four built-ins, overwriting earlier entries of those names. */
    method Init()
      modifies this
      ensures store == old(store)["min" := MinOf]["max" := MaxOf]["sum" := SumOf]["mul" := MulOf]
    {
      Register("min", MinOf);
      Register("max", MaxOf);
      Register("sum", SumOf);
      Register("mul", MulOf);
    }

    /** `register`: inserts or replaces one entry. */
    method Register(name: string, f: InnerFunction)
      modifies this
      ensures store == old(store)[name := f]
      ensures Get(name) == Ok(f)
    {
      store := store[name := f];
    }

    function Get(name: string): (r: Result<InnerFunction>)
      reads this
      ensures r.Ok? <==> name in store
      ensures r.Ok? ==> r.value == store[name]
      ensures !r.Ok? ==> r == Err(InnerFunctionNotRegistered(name))
    {
      LookupFunction(store, name)
    }
  }
}
