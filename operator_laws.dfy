/**
 * What the built-in operator handlers and the registries promise (operator.rs),
 * stated over the handler functions and the built-in tables.
 */
module OperatorLaws {
  import opened Errors
  import opened Values
  import opened Operators

  lemma {:induction false} ContainsFromMeaning(list: seq<Value>, x: Value, i: nat)
    requires i <= |list|
    ensures ContainsFrom(list, x, i) <==> x in list[i..]
    decreases |list| - i
  {
    if i < |list| {
      ContainsFromMeaning(list, x, i + 1);
      assert list[i..] == [list[i]] + list[i + 1..];
    }
  }

  /** `in` is list membership of the left operand; a right operand that is not a list fails. */
  lemma InMeaning(left: Value, right: Value)
    ensures right.List? ==> In(left, right) == Ok(Bool(left in right.items))
    ensures !right.List? ==> In(left, right) == Err(ShouldBeList)
  {
    if right.List? {
      ContainsFromMeaning(right.items, left, 0);
      assert right.items[0..] == right.items;
    }
  }

  /** Every element before index `k` is the boolean `b`. */
  predicate PrefixIs(list: seq<Value>, k: nat, b: bool)
    requires k <= |list|
  {
    forall i :: 0 <= i < k ==> list[i] == Bool(b)
  }

  lemma {:induction false} AllFromMeaning(list: seq<Value>, i: nat)
    requires i <= |list| && PrefixIs(list, i, true)
    ensures AllFrom(list, i) == Ok(Bool(true)) <==> PrefixIs(list, |list|, true)
    ensures AllFrom(list, i) == Ok(Bool(false)) <==>
      exists k :: i <= k < |list| && list[k] == Bool(false) && PrefixIs(list, k, true)
    ensures AllFrom(list, i) == Err(ShouldBeBool) <==>
      exists k :: i <= k < |list| && !list[k].Bool? && PrefixIs(list, k, true)
    ensures AllFrom(list, i).Ok? || AllFrom(list, i) == Err(ShouldBeBool)
    decreases |list| - i
  {
    if i < |list| {
      if list[i] == Bool(true) {
        AllFromMeaning(list, i + 1);
        forall k | i <= k < |list| && PrefixIs(list, k, true) && list[k] != Bool(true)
          ensures k > i
        {
        }
      } else {
        assert !PrefixIs(list, |list|, true);
        forall k | i < k < |list| ensures !PrefixIs(list, k, true) {
          assert list[i] != Bool(true);
        }
      }
    }
  }

  lemma {:induction false} AnyFromMeaning(list: seq<Value>, i: nat)
    requires i <= |list| && PrefixIs(list, i, false)
    ensures AnyFrom(list, i) == Ok(Bool(false)) <==> PrefixIs(list, |list|, false)
    ensures AnyFrom(list, i) == Ok(Bool(true)) <==>
      exists k :: i <= k < |list| && list[k] == Bool(true) && PrefixIs(list, k, false)
    ensures AnyFrom(list, i) == Err(ShouldBeBool) <==>
      exists k :: i <= k < |list| && !list[k].Bool? && PrefixIs(list, k, false)
    ensures AnyFrom(list, i).Ok? || AnyFrom(list, i) == Err(ShouldBeBool)
    decreases |list| - i
  {
    if i < |list| {
      if list[i] == Bool(false) {
        AnyFromMeaning(list, i + 1);
        forall k | i <= k < |list| && PrefixIs(list, k, false) && list[k] != Bool(false)
          ensures k > i
        {
        }
      } else {
        assert !PrefixIs(list, |list|, false);
        forall k | i < k < |list| ensures !PrefixIs(list, k, false) {
          assert list[i] != Bool(false);
        }
      }
    }
  }

  /**
   * `AND` over a list: true when every item is `true`; false at the first `false`;
   * `ShouldBeBool` when a non-boolean comes before any `false`; `ShouldBeList` on a
   * non-list.
   */
  lemma AndMeaning(v: Value)
    ensures !v.List? ==> And(v) == Err(ShouldBeList)
    ensures v.List? ==> (And(v) == Ok(Bool(true)) <==> PrefixIs(v.items, |v.items|, true))
    ensures v.List? ==> (And(v) == Ok(Bool(false)) <==>
      exists k :: 0 <= k < |v.items| && v.items[k] == Bool(false) && PrefixIs(v.items, k, true))
    ensures v.List? ==> (And(v) == Err(ShouldBeBool) <==>
      exists k :: 0 <= k < |v.items| && !v.items[k].Bool? && PrefixIs(v.items, k, true))
  {
    if v.List? {
      AllFromMeaning(v.items, 0);
    }
  }

  /** `OR` is `AND` with the roles of `true` and `false` exchanged. */
  lemma OrMeaning(v: Value)
    ensures !v.List? ==> Or(v) == Err(ShouldBeList)
    ensures v.List? ==> (Or(v) == Ok(Bool(false)) <==> PrefixIs(v.items, |v.items|, false))
    ensures v.List? ==> (Or(v) == Ok(Bool(true)) <==>
      exists k :: 0 <= k < |v.items| && v.items[k] == Bool(true) && PrefixIs(v.items, k, false))
    ensures v.List? ==> (Or(v) == Err(ShouldBeBool) <==>
      exists k :: 0 <= k < |v.items| && !v.items[k].Bool? && PrefixIs(v.items, k, false))
  {
    if v.List? {
      AnyFromMeaning(v.items, 0);
    }
  }

  function Abs(x: real): real { if x < 0.0 then -x else x }

  /** `b * d` for a fraction `d` of absolute value below one, with the sign of `d`. */
  lemma ScaledFraction(b: real, d: real)
    requires b != 0.0 && -1.0 < d < 1.0
    ensures Abs(b * d) < Abs(b)
    ensures (d >= 0.0) == (b > 0.0) ==> b * d >= 0.0
    ensures (d <= 0.0) == (b > 0.0) ==> b * d <= 0.0
  {
    if b > 0.0 {
      if d >= 0.0 { assert b * d < b * 1.0; } else { assert b * d > b * -1.0; }
    } else {
      if d >= 0.0 { assert b * d > b * 1.0; } else { assert b * d < b * -1.0; }
    }
  }

  /**
   * The decimal remainder: `a` is the truncated quotient times `b` plus the
   * remainder, the remainder is smaller than the divisor in size and it takes the
   * sign of the dividend.
   */
  lemma RemainderMeaning(a: real, b: real)
    requires b != 0.0
    ensures a == b * (Trunc(a / b) as real) + TruncRem(a, b)
    ensures Abs(TruncRem(a, b)) < Abs(b)
    ensures a >= 0.0 ==> TruncRem(a, b) >= 0.0
    ensures a <= 0.0 ==> TruncRem(a, b) <= 0.0
  {
    var q := a / b;
    var t := Trunc(q) as real;
    var d := q - t;
    assert a == b * q;
    assert b * q - b * t == b * d;
    assert TruncRem(a, b) == b * d;
    ScaledFraction(b, d);
    assert (q >= 0.0) == ((a >= 0.0) == (b > 0.0)) || a == 0.0;
  }

  /** The built-in division and remainder handlers are undefined exactly at a zero divisor. */
  lemma DivisionDomain(a: real, b: real)
    ensures BuiltinBinaryOps()["/"].handler.requires(Number(a), Number(b)) <==> b != 0.0
    ensures BuiltinBinaryOps()["%"].handler.requires(Number(a), Number(b)) <==> b != 0.0
    ensures BuiltinBinaryOps()["/="].handler.requires(Number(a), Number(b)) <==> b != 0.0
    ensures BuiltinBinaryOps()["%="].handler.requires(Number(a), Number(b)) <==> b != 0.0
    ensures b != 0.0 ==> BuiltinBinaryOps()["/"].handler(Number(a), Number(b)) == Ok(Number(a / b))
    ensures b != 0.0 ==> BuiltinBinaryOps()["%"].handler(Number(a), Number(b)) == Ok(Number(TruncRem(a, b)))
  {
    assert BuiltinBinaryOps()["/"].handler == Divide && BuiltinBinaryOps()["/="].handler == Divide;
    assert BuiltinBinaryOps()["%"].handler == Remainder && BuiltinBinaryOps()["%="].handler == Remainder;
    assert DecimalDefined("/", Number(a), Number(b)) <==> b != 0.0;
    assert DecimalDefined("%", Number(a), Number(b)) <==> b != 0.0;
  }

  /** The built-in shift handlers are undefined for a shift amount outside 0..63. */
  lemma ShiftDomain(a: int, b: int)
    requires InI64(a) && InI64(b)
    ensures BuiltinBinaryOps()["<<"].handler.requires(FromI64(a), FromI64(b)) <==> 0 <= b < 64
    ensures BuiltinBinaryOps()[">>"].handler.requires(FromI64(a), FromI64(b)) <==> 0 <= b < 64
    ensures BuiltinBinaryOps()["<<="].handler.requires(FromI64(a), FromI64(b)) <==> 0 <= b < 64
    ensures BuiltinBinaryOps()[">>="].handler.requires(FromI64(a), FromI64(b)) <==> 0 <= b < 64
  {
    assert BuiltinBinaryOps()["<<"].handler == ShiftLeftOp && BuiltinBinaryOps()["<<="].handler == ShiftLeftOp;
    assert BuiltinBinaryOps()[">>"].handler == ShiftRightOp && BuiltinBinaryOps()[">>="].handler == ShiftRightOp;
    assert FromI64(a).Integer() == Ok(a) && FromI64(b).Integer() == Ok(b);
    assert IntegerDefined("<<", FromI64(a), FromI64(b)) <==> 0 <= b < 64;
    assert IntegerDefined(">>", FromI64(a), FromI64(b)) <==> 0 <= b < 64;
  }

  /** The assignments sit at the lowest built-in precedence, 20, and are `Setter`s. */
  lemma DecimalAssignments()
    ensures BuiltinBinaryOps()["="] == BinaryOp(20, Setter, BuiltinBinaryOps()["="].handler)
    ensures BuiltinBinaryOps()["+="] == BinaryOp(20, Setter, DecimalHandler("+"))
    ensures BuiltinBinaryOps()["-="] == BinaryOp(20, Setter, DecimalHandler("-"))
  {
  }

  /** So do the multiplying compound assignments, which reuse `*`, `/` and `%`. */
  lemma DivisionAssignments()
    ensures BuiltinBinaryOps()["*="] == BinaryOp(20, Setter, DecimalHandler("*"))
    ensures BuiltinBinaryOps()["/="] == BinaryOp(20, Setter, Divide)
    ensures BuiltinBinaryOps()["%="] == BinaryOp(20, Setter, Remainder)
  {
  }

  /** The bitwise assignments are `Setter`s at precedence 20 as well. */
  lemma IntegerAssignments()
    ensures BuiltinBinaryOps()["&="] == BinaryOp(20, Setter, IntegerHandler("&"))
    ensures BuiltinBinaryOps()["^="] == BinaryOp(20, Setter, IntegerHandler("^"))
    ensures BuiltinBinaryOps()["|="] == BinaryOp(20, Setter, IntegerHandler("|"))
  {
  }

  /** And so are the shifting assignments. */
  lemma ShiftAssignments()
    ensures BuiltinBinaryOps()["<<="] == BinaryOp(20, Setter, ShiftLeftOp)
    ensures BuiltinBinaryOps()[">>="] == BinaryOp(20, Setter, ShiftRightOp)
  {
  }

  /** Logic and equality: `||` 40, `&&` 50, `==` and `!=` 60, all `Calc`. */
  lemma LogicPrecedences()
    ensures BuiltinBinaryOps()["||"].precedence == 40 && BuiltinBinaryOps()["||"].opType == Calc
    ensures BuiltinBinaryOps()["&&"].precedence == 50 && BuiltinBinaryOps()["&&"].opType == Calc
    ensures BuiltinBinaryOps()["=="].precedence == 60 && BuiltinBinaryOps()["=="].opType == Calc
    ensures BuiltinBinaryOps()["!="].precedence == 60 && BuiltinBinaryOps()["!="].opType == Calc
  {
  }

  /** The four orderings sit at precedence 60 as well. */
  lemma ComparisonPrecedences()
    ensures BuiltinBinaryOps()["<"].precedence == 60 && BuiltinBinaryOps()["<"].opType == Calc
    ensures BuiltinBinaryOps()["<="].precedence == 60 && BuiltinBinaryOps()["<="].opType == Calc
    ensures BuiltinBinaryOps()[">"].precedence == 60 && BuiltinBinaryOps()[">"].opType == Calc
    ensures BuiltinBinaryOps()[">="].precedence == 60 && BuiltinBinaryOps()[">="].opType == Calc
  {
  }

  /** Bitwise: `|` 70, `^` 80, `&` 90, `<<` and `>>` 100, all `Calc`. */
  lemma BitwisePrecedences()
    ensures BuiltinBinaryOps()["|"] == BinaryOp(70, Calc, IntegerHandler("|"))
    ensures BuiltinBinaryOps()["^"] == BinaryOp(80, Calc, IntegerHandler("^"))
    ensures BuiltinBinaryOps()["&"] == BinaryOp(90, Calc, IntegerHandler("&"))
    ensures BuiltinBinaryOps()["<<"] == BinaryOp(100, Calc, ShiftLeftOp)
    ensures BuiltinBinaryOps()[">>"] == BinaryOp(100, Calc, ShiftRightOp)
  {
  }

  /** Arithmetic: `+ -` 110 and `* / %` 120; text and membership 200; all `Calc`. */
  lemma ArithmeticPrecedences()
    ensures BuiltinBinaryOps()["+"] == BinaryOp(110, Calc, DecimalHandler("+"))
    ensures BuiltinBinaryOps()["-"] == BinaryOp(110, Calc, DecimalHandler("-"))
    ensures BuiltinBinaryOps()["*"] == BinaryOp(120, Calc, DecimalHandler("*"))
    ensures BuiltinBinaryOps()["/"] == BinaryOp(120, Calc, Divide)
    ensures BuiltinBinaryOps()["%"] == BinaryOp(120, Calc, Remainder)
    ensures BuiltinBinaryOps()["beginWith"] == BinaryOp(200, Calc, BeginWith)
    ensures BuiltinBinaryOps()["endWith"] == BinaryOp(200, Calc, EndWith)
    ensures BuiltinBinaryOps()["in"] == BinaryOp(200, Calc, In)
  {
  }

  /** An operator missing from the table has precedence -1 and no handler. */
  lemma UnknownOperator(table: map<string, BinaryOp>, unknown: string)
    requires unknown !in table
    ensures Precedence(table, unknown) == -1
    ensures LookupBinary(table, unknown) == Err(BinaryOpNotRegistered(unknown))
    ensures OpTypeOf(table, unknown) == Err(BinaryOpNotRegistered(unknown))
  {
  }

  /** `=` yields its right operand; `==` and `!=` never fail and compare whole values. */
  lemma AssignAndEquality(left: Value, right: Value)
    ensures BuiltinBinaryOps()["="].handler(left, right) == Ok(right)
    ensures BuiltinBinaryOps()["=="].handler(left, right) == Ok(Bool(left == right))
    ensures BuiltinBinaryOps()["!="].handler(left, right) == Ok(Bool(left != right))
  {
  }

  /** `&&` and `||` read both operands as booleans, the left one first. */
  lemma LogicMeaning(left: Value, right: Value)
    ensures BuiltinBinaryOps()["&&"].handler(left, right) ==
      if !left.Bool? || !right.Bool? then Err(ShouldBeBool) else Ok(Bool(left.b && right.b))
    ensures BuiltinBinaryOps()["||"].handler(left, right) ==
      if !left.Bool? || !right.Bool? then Err(ShouldBeBool) else Ok(Bool(left.b || right.b))
  {
  }

  /** `beginWith` and `endWith` are prefix and suffix tests on two strings. */
  lemma TextMeaning(a: string, b: string)
    ensures BuiltinBinaryOps()["beginWith"].handler(String(a), String(b)) ==
      Ok(Bool(|b| <= |a| && a[..|b|] == b))
    ensures BuiltinBinaryOps()["endWith"].handler(String(a), String(b)) ==
      Ok(Bool(|b| <= |a| && a[|a| - |b|..] == b))
  {
  }

  /** Prefix `-` and `!` undo themselves, postfix `--` undoes `++`. */
  lemma UnaryInverses(v: Value)
    ensures Negate(v).Ok? ==> Negate(Negate(v).value) == Ok(v)
    ensures Not(v).Ok? ==> Not(Not(v).value) == Ok(v)
    ensures Increment(v).Ok? ==> Decrement(Increment(v).value) == Ok(v)
    ensures Negate(v).Ok? <==> v.Number?
    ensures Not(v).Ok? <==> v.Bool?
  {
  }

  /** Registering replaces exactly one entry of the infix table. */
  lemma RegisterBinary(table: map<string, BinaryOp>, op: string, e: BinaryOp, other: string)
    requires other != op
    ensures LookupBinary(table[op := e], op) == Ok(e.handler)
    ensures Precedence(table[op := e], op) == e.precedence
    ensures OpTypeOf(table[op := e], op) == Ok(e.opType)
    ensures LookupBinary(table[op := e], other) == LookupBinary(table, other)
    ensures Precedence(table[op := e], other) == Precedence(table, other)
    ensures OpTypeOf(table[op := e], other) == OpTypeOf(table, other)
  {
  }
}
