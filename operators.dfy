/**
 * Operator handlers and the three operator registries (operator.rs): prefix
 * (`UnaryOpFuncManager`), infix (`BinaryOpFuncManager`, which also records a
 * precedence and whether the operator computes or assigns) and postfix
 * (`PostfixOpFuncManager`).
 *
 * Infix handlers are partial functions: the built-in `/`, `%`, `/=` and `%=` are
 * defined only for a nonzero divisor, and the shifts only for a shift amount in
 * 0..63, because the source panics outside those domains.
 */
module Operators {
  import opened Errors
  import opened Values

  type UnaryOpFunc = Value -> Result<Value>
  type BinaryOpFunc = (Value, Value) --> Result<Value>

  datatype BinOpType = Calc | Setter

  /** One entry of the infix registry: precedence, kind and handler. */
  datatype BinaryOp = BinaryOp(precedence: int, opType: BinOpType, handler: BinaryOpFunc)

  // ---------------------------------------------------------------- decimal arithmetic

  /** Truncation toward zero, as a decimal division followed by `%` uses it. */
  function Trunc(x: real): (t: int)
    ensures x >= 0.0 ==> 0.0 <= t as real <= x && x < t as real + 1.0
    ensures x < 0.0 ==> x <= t as real <= 0.0 && t as real - 1.0 < x
  {
    if x >= 0.0 then x.Floor else -((-x).Floor)
  }

  /** The remainder of a decimal division: it keeps the sign of the dividend. */
  function TruncRem(a: real, b: real): real
    requires b != 0.0
  {
    a - b * (Trunc(a / b) as real)
  }

  predicate IsDivision(op: string) { op == "/" || op == "%" }

  /** The arithmetic the decimal handlers perform; an unknown name leaves `a` unchanged. */
  function ApplyDecimal(op: string, a: real, b: real): real
    requires IsDivision(op) ==> b != 0.0
  {
    if op == "+" then a + b
    else if op == "-" then a - b
    else if op == "*" then a * b
    else if op == "/" then a / b
    else if op == "%" then TruncRem(a, b)
    else a
  }

  /** Where a decimal handler does not panic. */
  predicate DecimalDefined(op: string, left: Value, right: Value) {
    IsDivision(op) && left.Number? && right.Number? ==> right.n != 0.0
  }

  /** Both operands must be numbers, read left operand first. */
  function DecimalOp(op: string, left: Value, right: Value): Result<Value>
    requires DecimalDefined(op, left, right)
  {
    var a :- left.Decimal();
    var b :- right.Decimal();
    Ok(Number(ApplyDecimal(op, a, b)))
  }

  /** The handler of a decimal operator other than `/` and `%`: defined everywhere. */
  function DecimalHandler(op: string): (Value, Value) -> Result<Value>
    requires !IsDivision(op)
  {
    (left: Value, right: Value) => DecimalOp(op, left, right)
  }

  /** The handler of `/` and `/=`. */
  function Divide(left: Value, right: Value): (r: Result<Value>)
    requires DecimalDefined("/", left, right)
    ensures r.Ok? <==> left.Number? && right.Number?
    ensures r.Ok? ==> r.value.Number? && r.value.n * right.n == left.n
    ensures !r.Ok? ==> r == Err(ShouldBeNumber)
  {
    DecimalOp("/", left, right)
  }

  /** The handler of `%` and `%=`. */
  function Remainder(left: Value, right: Value): (r: Result<Value>)
    requires DecimalDefined("%", left, right)
    ensures r.Ok? <==> left.Number? && right.Number?
    ensures r.Ok? ==> r.value.Number? && left.n == right.n * (Trunc(left.n / right.n) as real) + r.value.n
    ensures !r.Ok? ==> r == Err(ShouldBeNumber)
  {
    DecimalOp("%", left, right)
  }

  // ---------------------------------------------------------------- i64 bit operations

  const TwoTo64: int := 0x1_0000_0000_0000_0000

  /** Two's-complement bits of an `i64`. */
  function ToBits(i: int): bv64
    requires InI64(i)
  {
    if i >= 0 then i as bv64 else (i + TwoTo64) as bv64
  }

  /** The `i64` whose two's-complement bits are `x`. */
  function FromBits(x: bv64): (i: int)
    ensures InI64(i)
  {
    if x as int <= MaxI64 then x as int else x as int - TwoTo64
  }

  predicate IsShift(op: string) { op == "<<" || op == ">>" }

  function BitOr(a: int, b: int): (r: int)
    requires InI64(a) && InI64(b)
    ensures InI64(r)
  {
    FromBits(ToBits(a) | ToBits(b))
  }

  function BitXor(a: int, b: int): (r: int)
    requires InI64(a) && InI64(b)
    ensures InI64(r)
  {
    FromBits(ToBits(a) ^ ToBits(b))
  }

  function BitAnd(a: int, b: int): (r: int)
    requires InI64(a) && InI64(b)
    ensures InI64(r)
  {
    FromBits(ToBits(a) & ToBits(b))
  }

  /** Left shift; the bits shifted out are lost. */
  function ShiftLeft(a: int, b: int): (r: int)
    requires InI64(a) && 0 <= b < 64
    ensures InI64(r)
  {
    FromBits(ToBits(a) << (b as bv7))
  }

  /** Arithmetic right shift: the sign bit fills the vacated bits. */
  function ShiftRight(a: int, b: int): (r: int)
    requires InI64(a) && 0 <= b < 64
    ensures InI64(r)
  {
    if a >= 0 then FromBits(ToBits(a) >> (b as bv7)) else FromBits(!((!ToBits(a)) >> (b as bv7)))
  }

  /** The `i64` arithmetic the integer handlers perform; an unknown name leaves `a` unchanged. */
  function ApplyInteger(op: string, a: int, b: int): (r: int)
    requires InI64(a) && InI64(b)
    requires IsShift(op) ==> 0 <= b < 64
    ensures InI64(r)
  {
    if op == "|" then BitOr(a, b)
    else if op == "^" then BitXor(a, b)
    else if op == "&" then BitAnd(a, b)
    else if op == "<<" then ShiftLeft(a, b)
    else if op == ">>" then ShiftRight(a, b)
    else a
  }

  /** Where an integer handler does not panic. */
  predicate IntegerDefined(op: string, left: Value, right: Value) {
    IsShift(op) && left.Integer().Ok? && right.Integer().Ok? ==> 0 <= right.Integer().value < 64
  }

  function IntegerOp(op: string, left: Value, right: Value): Result<Value>
    requires IntegerDefined(op, left, right)
  {
    var a :- left.Integer();
    var b :- right.Integer();
    Ok(FromI64(ApplyInteger(op, a, b)))
  }

  /** The handler of a bitwise operator: defined everywhere. */
  function IntegerHandler(op: string): (Value, Value) -> Result<Value>
    requires !IsShift(op)
  {
    (left: Value, right: Value) => IntegerOp(op, left, right)
  }

  /** The handler of `<<` and `<<=`. */
  function ShiftLeftOp(left: Value, right: Value): Result<Value>
    requires IntegerDefined("<<", left, right)
  {
    IntegerOp("<<", left, right)
  }

  /** The handler of `>>` and `>>=`. */
  function ShiftRightOp(left: Value, right: Value): Result<Value>
    requires IntegerDefined(">>", left, right)
  {
    IntegerOp(">>", left, right)
  }

  // ---------------------------------------------------------------- logic, comparison, text

  function LogicOp(op: string, left: Value, right: Value): Result<Value> {
    var a :- left.Boolean();
    var b :- right.Boolean();
    Ok(Bool(if op == "||" then a || b else if op == "&&" then a && b else a))
  }

  function CompareOp(op: string, left: Value, right: Value): Result<Value> {
    var a :- left.Decimal();
    var b :- right.Decimal();
    Ok(Bool(
      if op == "<" then a < b
      else if op == "<=" then a <= b
      else if op == ">" then a > b
      else if op == ">=" then a >= b
      else false))
  }

  predicate IsSuffix(suffix: string, s: string) {
    |suffix| <= |s| && s[|s| - |suffix|..] == suffix
  }

  function BeginWith(left: Value, right: Value): (r: Result<Value>)
    ensures r.Ok? <==> left.String? && right.String?
    ensures r.Ok? ==> r.value == Bool(|right.s| <= |left.s| && left.s[..|right.s|] == right.s)
    ensures !r.Ok? ==> r == Err(ShouldBeString)
  {
    var a :- left.Str();
    var b :- right.Str();
    Ok(Bool(b <= a))
  }

  function EndWith(left: Value, right: Value): (r: Result<Value>)
    ensures r.Ok? <==> left.String? && right.String?
    ensures r.Ok? ==> r.value.Bool? && (r.value.b <==> exists k :: 0 <= k <= |left.s| && left.s[k..] == right.s)
    ensures !r.Ok? ==> r == Err(ShouldBeString)
  {
    var a :- left.Str();
    var b :- right.Str();
    Ok(Bool(IsSuffix(b, a)))
  }

  /** The search loop of `in` over list[i..]. */
  function ContainsFrom(list: seq<Value>, x: Value, i: nat): bool
    requires i <= |list|
    decreases |list| - i
  {
    if i == |list| then false
    else if list[i] == x then true
    else ContainsFrom(list, x, i + 1)
  }

  function In(left: Value, right: Value): (r: Result<Value>)
    ensures r.Ok? <==> right.List?
    ensures r.Ok? ==> r.value.Bool?
    ensures !r.Ok? ==> r == Err(ShouldBeList)
  {
    var list :- right.ListItems();
    Ok(Bool(ContainsFrom(list, left, 0)))
  }

  // ---------------------------------------------------------------- prefix and postfix

  function Negate(v: Value): (r: Result<Value>)
    ensures r.Ok? <==> v.Number?
    ensures r.Ok? ==> r.value.Number? && r.value.n + v.n == 0.0
    ensures !r.Ok? ==> r == Err(ShouldBeNumber)
  {
    match v
    case Number(a) => Ok(Number(-a))
    case _ => Err(ShouldBeNumber)
  }

  function Identity(v: Value): (r: Result<Value>)
    ensures r.Ok? <==> v.Number?
    ensures r.Ok? ==> r.value == v
    ensures !r.Ok? ==> r == Err(ShouldBeNumber)
  {
    match v
    case Number(a) => Ok(Number(a))
    case _ => Err(ShouldBeNumber)
  }

  function Not(v: Value): (r: Result<Value>)
    ensures r.Ok? <==> v.Bool?
    ensures r.Ok? ==> r.value.Bool? && r.value.b != v.b
    ensures !r.Ok? ==> r == Err(ShouldBeBool)
  {
    match v
    case Bool(b) => Ok(Bool(!b))
    case _ => Err(ShouldBeBool)
  }

  /** The loop of `AND` over list[i..]: the first `false` wins, a non-boolean fails. */
  function AllFrom(list: seq<Value>, i: nat): Result<Value>
    requires i <= |list|
    decreases |list| - i
  {
    if i == |list| then Ok(Bool(true))
    else
      var b :- list[i].Boolean();
      if !b then Ok(Bool(false)) else AllFrom(list, i + 1)
  }

  /** The loop of `OR` over list[i..]: the first `true` wins, a non-boolean fails. */
  function AnyFrom(list: seq<Value>, i: nat): Result<Value>
    requires i <= |list|
    decreases |list| - i
  {
    if i == |list| then Ok(Bool(false))
    else
      var b :- list[i].Boolean();
      if b then Ok(Bool(true)) else AnyFrom(list, i + 1)
  }

  function And(v: Value): (r: Result<Value>)
    ensures !v.List? ==> r == Err(ShouldBeList)
    ensures v == List([]) ==> r == Ok(Bool(true))
  {
    var list :- v.ListItems();
    AllFrom(list, 0)
  }

  function Or(v: Value): (r: Result<Value>)
    ensures !v.List? ==> r == Err(ShouldBeList)
    ensures v == List([]) ==> r == Ok(Bool(false))
  {
    var list :- v.ListItems();
    AnyFrom(list, 0)
  }

  function Increment(v: Value): (r: Result<Value>)
    ensures r.Ok? <==> v.Number?
    ensures r.Ok? ==> r.value.Number? && r.value.n - v.n == 1.0
    ensures !r.Ok? ==> r == Err(ShouldBeNumber)
  {
    match v
    case Number(a) => Ok(Number(a + 1.0))
    case _ => Err(ShouldBeNumber)
  }

  function Decrement(v: Value): (r: Result<Value>)
    ensures r.Ok? <==> v.Number?
    ensures r.Ok? ==> r.value.Number? && v.n - r.value.n == 1.0
    ensures !r.Ok? ==> r == Err(ShouldBeNumber)
  {
    match v
    case Number(a) => Ok(Number(a - 1.0))
    case _ => Err(ShouldBeNumber)
  }

  // ---------------------------------------------------------------- built-in tables

  /** What the infix `init` registers. Compound assignments reuse the plain operator's arithmetic. */
  function BuiltinBinaryOps(): map<string, BinaryOp> {
    map[
      "=" := BinaryOp(20, Setter, (left: Value, right: Value) => Ok(right)),
      "+=" := BinaryOp(20, Setter, DecimalHandler("+")),
      "-=" := BinaryOp(20, Setter, DecimalHandler("-")),
      "*=" := BinaryOp(20, Setter, DecimalHandler("*")),
      "/=" := BinaryOp(20, Setter, Divide),
      "%=" := BinaryOp(20, Setter, Remainder),
      "<<=" := BinaryOp(20, Setter, ShiftLeftOp),
      ">>=" := BinaryOp(20, Setter, ShiftRightOp),
      "&=" := BinaryOp(20, Setter, IntegerHandler("&")),
      "^=" := BinaryOp(20, Setter, IntegerHandler("^")),
      "|=" := BinaryOp(20, Setter, IntegerHandler("|")),
      "||" := BinaryOp(40, Calc, (left: Value, right: Value) => LogicOp("||", left, right)),
      "&&" := BinaryOp(50, Calc, (left: Value, right: Value) => LogicOp("&&", left, right)),
      "<" := BinaryOp(60, Calc, (left: Value, right: Value) => CompareOp("<", left, right)),
      "<=" := BinaryOp(60, Calc, (left: Value, right: Value) => CompareOp("<=", left, right)),
      ">" := BinaryOp(60, Calc, (left: Value, right: Value) => CompareOp(">", left, right)),
      ">=" := BinaryOp(60, Calc, (left: Value, right: Value) => CompareOp(">=", left, right)),
      "==" := BinaryOp(60, Calc, (left: Value, right: Value) => Ok(Bool(left == right))),
      "!=" := BinaryOp(60, Calc, (left: Value, right: Value) => Ok(Bool(left != right))),
      "|" := BinaryOp(70, Calc, IntegerHandler("|")),
      "^" := BinaryOp(80, Calc, IntegerHandler("^")),
      "&" := BinaryOp(90, Calc, IntegerHandler("&")),
      "<<" := BinaryOp(100, Calc, ShiftLeftOp),
      ">>" := BinaryOp(100, Calc, ShiftRightOp),
      "+" := BinaryOp(110, Calc, DecimalHandler("+")),
      "-" := BinaryOp(110, Calc, DecimalHandler("-")),
      "*" := BinaryOp(120, Calc, DecimalHandler("*")),
      "/" := BinaryOp(120, Calc, Divide),
      "%" := BinaryOp(120, Calc, Remainder),
      "beginWith" := BinaryOp(200, Calc, BeginWith),
      "endWith" := BinaryOp(200, Calc, EndWith),
      "in" := BinaryOp(200, Calc, In)
    ]
  }

  /** What the prefix `init` registers. */
  function BuiltinPrefixOps(): map<string, UnaryOpFunc> {
    map["-" := Negate, "+" := Identity, "!" := Not, "not" := Not, "AND" := And, "OR" := Or]
  }

  /** What the postfix `init` registers. */
  function BuiltinPostfixOps(): map<string, UnaryOpFunc> {
    map["++" := Increment, "--" := Decrement]
  }

  // ---------------------------------------------------------------- registry lookups

  /** `get` of the infix registry. */
  function LookupBinary(table: map<string, BinaryOp>, op: string): (r: Result<BinaryOpFunc>)
    ensures r.Ok? <==> op in table
    ensures r.Ok? ==> r.value == table[op].handler
    ensures !r.Ok? ==> r == Err(BinaryOpNotRegistered(op))
  {
    if op in table then Ok(table[op].handler) else Err(BinaryOpNotRegistered(op))
  }

  /** `get_precidence`: the registered precedence, or -1 for an unknown operator. */
  function Precedence(table: map<string, BinaryOp>, op: string): (p: int)
    ensures op in table ==> p == table[op].precedence
    ensures op !in table ==> p == -1
  {
    if op in table then table[op].precedence else -1
  }

  /** `get_op_type`. */
  function OpTypeOf(table: map<string, BinaryOp>, op: string): (r: Result<BinOpType>)
    ensures r.Ok? <==> op in table
    ensures r.Ok? ==> r.value == table[op].opType
    ensures !r.Ok? ==> r == Err(BinaryOpNotRegistered(op))
  {
    if op in table then Ok(table[op].opType) else Err(BinaryOpNotRegistered(op))
  }

  /** `get` of the prefix and postfix registries: both report `UnaryOpNotRegistered`. */
  function LookupUnary(table: map<string, UnaryOpFunc>, op: string): (r: Result<UnaryOpFunc>)
    ensures r.Ok? <==> op in table
    ensures r.Ok? ==> r.value == table[op]
    ensures !r.Ok? ==> r == Err(UnaryOpNotRegistered(op))
  {
    if op in table then Ok(table[op]) else Err(UnaryOpNotRegistered(op))
  }

  // ---------------------------------------------------------------- operators()

  predicate SortedByPrecedence(s: seq<(string, int)>) {
    forall i, j :: 0 <= i < j < |s| ==> s[i].1 <= s[j].1
  }

  predicate DistinctNames(s: seq<(string, int)>) {
    forall i, j :: 0 <= i < j < |s| ==> s[i].0 != s[j].0
  }

  /** Places `x` after every entry whose precedence is not larger. */
  function InsertByPrecedence(s: seq<(string, int)>, x: (string, int)): seq<(string, int)> {
    if |s| == 0 then [x]
    else if x.1 < s[0].1 then [x] + s
    else [s[0]] + InsertByPrecedence(s[1..], x)
  }

  /** Insertion adds exactly `x`. */
  lemma {:induction false} InsertByPrecedenceContents(s: seq<(string, int)>, x: (string, int))
    ensures |InsertByPrecedence(s, x)| == |s| + 1
    ensures forall p :: p in InsertByPrecedence(s, x) <==> p in s || p == x
  {
    if |s| > 0 && x.1 >= s[0].1 {
      InsertByPrecedenceContents(s[1..], x);
      assert InsertByPrecedence(s, x) == [s[0]] + InsertByPrecedence(s[1..], x);
      assert forall p :: p in s <==> p == s[0] || p in s[1..];
    }
  }

  /** Insertion into a list sorted by precedence keeps it sorted. */
  lemma {:induction false} InsertByPrecedenceSorted(s: seq<(string, int)>, x: (string, int))
    requires SortedByPrecedence(s)
    ensures SortedByPrecedence(InsertByPrecedence(s, x))
  {
    if |s| > 0 && x.1 >= s[0].1 {
      var rest := InsertByPrecedence(s[1..], x);
      InsertByPrecedenceSorted(s[1..], x);
      InsertByPrecedenceContents(s[1..], x);
      forall p | p in rest ensures s[0].1 <= p.1 {
        if p != x {
          var k :| 0 <= k < |s[1..]| && s[1..][k] == p;
          assert s[k + 1] == p;
        }
      }
      var r := [s[0]] + rest;
      forall i, j | 0 <= i < j < |r| ensures r[i].1 <= r[j].1 {
        if i == 0 {
          assert r[j] == rest[j - 1];
        } else {
          assert r[i] == rest[i - 1] && r[j] == rest[j - 1];
        }
      }
    } else if |s| > 0 {
      var r := [x] + s;
      forall i, j | 0 <= i < j < |r| ensures r[i].1 <= r[j].1 {
        assert r[j] == s[j - 1];
        if i > 0 {
          assert r[i] == s[i - 1];
        }
      }
    }
  }

  /** Insertion of a new name keeps names distinct. */
  lemma {:induction false} InsertByPrecedenceDistinct(s: seq<(string, int)>, x: (string, int))
    requires DistinctNames(s) && forall p :: p in s ==> p.0 != x.0
    ensures DistinctNames(InsertByPrecedence(s, x))
  {
    if |s| > 0 && x.1 >= s[0].1 {
      var rest := InsertByPrecedence(s[1..], x);
      assert forall p :: p in s[1..] ==> p in s;
      InsertByPrecedenceDistinct(s[1..], x);
      InsertByPrecedenceContents(s[1..], x);
      forall p | p in rest ensures p.0 != s[0].0 {
        if p != x {
          var k :| 0 <= k < |s[1..]| && s[1..][k] == p;
          assert s[k + 1] == p;
        }
      }
      var r := [s[0]] + rest;
      forall i, j | 0 <= i < j < |r| ensures r[i].0 != r[j].0 {
        if i == 0 {
          assert r[j] == rest[j - 1];
        } else {
          assert r[i] == rest[i - 1] && r[j] == rest[j - 1];
        }
      }
    } else if |s| > 0 {
      var r := [x] + s;
      forall i, j | 0 <= i < j < |r| ensures r[i].0 != r[j].0 {
        assert r[j] == s[j - 1];
        if i > 0 {
          assert r[i] == s[i - 1];
        }
      }
    }
  }

  // ---------------------------------------------------------------- registries

  /**
   * The infix registry. The source's `new` hands out a shared table; an object here
   * is that table, empty as the one-time initialisation creates it.
   */
  class BinaryOpFuncManager {
    var store: map<string, BinaryOp>

    constructor ()
      ensures store == map[]
    {
      store := map[];
    }

    /** `init`: registers every built-in; their names are distinct, so the order does not matter. */
    method Init()
      modifies this
      ensures store == old(store) + BuiltinBinaryOps()
    {
      store := store + BuiltinBinaryOps();
    }

    method Register(op: string, precedence: int, opType: BinOpType, f: BinaryOpFunc)
      modifies this
      ensures store == old(store)[op := BinaryOp(precedence, opType, f)]
      ensures Get(op) == Ok(f) && GetPrecedence(op) == precedence && GetOpType(op) == Ok(opType)
    {
      store := store[op := BinaryOp(precedence, opType, f)];
    }

    function Get(op: string): (r: Result<BinaryOpFunc>)
      reads this
      ensures r.Ok? <==> op in store
      ensures r.Ok? ==> r.value == store[op].handler
      ensures !r.Ok? ==> r == Err(BinaryOpNotRegistered(op))
    {
      LookupBinary(store, op)
    }

    function GetPrecedence(op: string): (p: int)
      reads this
      ensures op in store ==> p == store[op].precedence
      ensures op !in store ==> p == -1
    {
      Precedence(store, op)
    }

    /** `redirect`: `source` takes over `target`'s whole entry; the source panics when `target` is missing. */
    method Redirect(source: string, target: string)
      requires target in store
      modifies this
      ensures store == old(store)[source := old(store)[target]]
      ensures GetPrecedence(source) == GetPrecedence(target)
    {
      store := store[source := store[target]];
    }

    function GetOpType(op: string): (r: Result<BinOpType>)
      reads this
      ensures r.Ok? <==> Get(op).Ok?
      ensures r.Ok? ==> r.value == store[op].opType
      ensures !r.Ok? ==> r == Err(BinaryOpNotRegistered(op))
    {
      OpTypeOf(store, op)
    }

    function Exist(op: string): (b: bool)
      reads this
      ensures b <==> Get(op).Ok?
      ensures !b ==> GetPrecedence(op) == -1
    {
      op in store
    }

    /**
     * `operators`: every registered name with its precedence, each exactly once, in
     * non-decreasing precedence. The table is read in an unspecified order, as a
     * hash map is.
     */
    method Operators() returns (ans: seq<(string, int)>)
      ensures forall p :: p in ans <==> p.0 in store && p.1 == store[p.0].precedence
      ensures |ans| == |store|
      ensures DistinctNames(ans)
      ensures SortedByPrecedence(ans)
    {
      var remaining := store.Keys;
      ans := [];
      while remaining != {}
        invariant remaining <= store.Keys
        invariant forall p :: p in ans <==> p.0 in store.Keys - remaining && p.1 == store[p.0].precedence
        invariant |ans| + |remaining| == |store.Keys|
        invariant DistinctNames(ans)
        invariant SortedByPrecedence(ans)
        decreases remaining
      {
        var op :| op in remaining;
        InsertByPrecedenceContents(ans, (op, store[op].precedence));
        InsertByPrecedenceSorted(ans, (op, store[op].precedence));
        InsertByPrecedenceDistinct(ans, (op, store[op].precedence));
        ans := InsertByPrecedence(ans, (op, store[op].precedence));
        remaining := remaining - {op};
      }
    }
  }

  /** The prefix registry. */
  class UnaryOpFuncManager {
    var store: map<string, UnaryOpFunc>

    constructor ()
      ensures store == map[]
    {
      store := map[];
    }

    method Init()
      modifies this
      ensures store == old(store) + BuiltinPrefixOps()
    {
      store := store + BuiltinPrefixOps();
    }

    method Register(op: string, f: UnaryOpFunc)
      modifies this
      ensures store == old(store)[op := f]
      ensures Get(op) == Ok(f)
    {
      store := store[op := f];
    }

    function Get(op: string): (r: Result<UnaryOpFunc>)
      reads this
      ensures r.Ok? <==> op in store
      ensures r.Ok? ==> r.value == store[op]
      ensures !r.Ok? ==> r == Err(UnaryOpNotRegistered(op))
    {
      LookupUnary(store, op)
    }

    function Exist(op: string): (b: bool)
      reads this
      ensures b <==> Get(op).Ok?
    {
      op in store
    }
  }

  /** The postfix registry. */
  class PostfixOpFuncManager {
    var store: map<string, UnaryOpFunc>

    constructor ()
      ensures store == map[]
    {
      store := map[];
    }

    method Init()
      modifies this
      ensures store == old(store) + BuiltinPostfixOps()
    {
      store := store + BuiltinPostfixOps();
    }

    method Register(op: string, f: UnaryOpFunc)
      modifies this
      ensures store == old(store)[op := f]
      ensures Get(op) == Ok(f)
    {
      store := store[op := f];
    }

    function Get(op: string): (r: Result<UnaryOpFunc>)
      reads this
      ensures r.Ok? <==> op in store
      ensures r.Ok? ==> r.value == store[op]
      ensures !r.Ok? ==> r == Err(UnaryOpNotRegistered(op))
    {
      LookupUnary(store, op)
    }

    function Exist(op: string): (b: bool)
      reads this
      ensures b <==> Get(op).Ok?
    {
      op in store
    }
  }
}
