// What evaluation promises: the order in which a node's parts are evaluated, what
// assignments write, and that only assignments write.

module EvaluationLaws {
  import opened Errors
  import opened Values
  import opened Operators
  import opened Registry
  import opened Contexts
  import opened ExprTree
  import opened Evaluation
  import opened OperatorLaws

  /** A failed outcome of type `Value` passes through unchanged. */
  lemma FailKeeps(r: Result<Value>, b: Bindings)
    requires !r.Ok?
    ensures Fail(r, b) == (r, b)
  {
  }

  /** An operator missing from the infix table fails before either operand is evaluated. */
  lemma UnknownOperatorFailsFirst(reg: Registries, op: string, lhs: ExprAST, rhs: ExprAST, b: Bindings)
    requires op !in reg.infix
    ensures Eval(reg, Binary(op, lhs, rhs), b) == (Err(BinaryOpNotRegistered(op)), b)
  {
    assert Eval(reg, Binary(op, lhs, rhs), b) == EvalBinary(reg, Binary(op, lhs, rhs), b);
  }

  /**
   * A calculation evaluates its left operand, then its right operand from the
   * bindings the left one left, then applies the handler; it writes nothing itself.
   */
  lemma CalculationOrder(reg: Registries, op: string, lhs: ExprAST, rhs: ExprAST, b: Bindings)
    requires op in reg.infix && reg.infix[op].opType == Calc
    ensures var (x, b1) := Eval(reg, lhs, b);
      var (y, b2) := Eval(reg, rhs, b1);
      Eval(reg, Binary(op, lhs, rhs), b) ==
        if !x.Ok? then (x, b1)
        else if !y.Ok? then (y, b2)
        else (Apply(reg.infix[op].handler, x.value, y.value), b2)
  {
    assert Eval(reg, Binary(op, lhs, rhs), b) == EvalBinary(reg, Binary(op, lhs, rhs), b);
    var (x, b1) := Eval(reg, lhs, b);
    var (y, b2) := Eval(reg, rhs, b1);
    if !x.Ok? {
      FailKeeps(x, b1);
    } else if !y.Ok? {
      FailKeeps(y, b2);
    }
  }

  /**
   * An assignment to a name binds it to what the handler makes of the two operand
   * values, returns `None`, and changes no other name; its left operand is
   * evaluated first like any other.
   */
  lemma AssignmentWrites(reg: Registries, op: string, name: string, rhs: ExprAST, b: Bindings, other: string)
    requires op in reg.infix && reg.infix[op].opType == Setter
    requires other != name
    ensures var (x, b1) := (ValueIn(b, name), b);
      var (y, b2) := Eval(reg, rhs, b1);
      x.Ok? && y.Ok? && Apply(reg.infix[op].handler, x.value, y.value).Ok? ==>
        var v := Apply(reg.infix[op].handler, x.value, y.value).value;
        var (r, after) := Eval(reg, Binary(op, Reference(name), rhs), b);
        && r == Ok(Value.None)
        && VariableIn(after, name) == Some(v)
        && ValueIn(after, name) == Ok(v)
        && BindingIn(after, other) == BindingIn(b2, other)
  {
    var e := Binary(op, Reference(name), rhs);
    assert Eval(reg, e, b) == EvalBinary(reg, e, b);
    assert Eval(reg, Reference(name), b) == (ValueIn(b, name), b);
  }

  /** An assignment whose left side is not a name fails after both operands are evaluated. */
  lemma AssignmentNeedsReference(reg: Registries, op: string, lhs: ExprAST, rhs: ExprAST, b: Bindings)
    requires op in reg.infix && reg.infix[op].opType == Setter
    requires !lhs.Reference?
    ensures var (x, b1) := Eval(reg, lhs, b);
      var (y, b2) := Eval(reg, rhs, b1);
      x.Ok? && y.Ok? ==> Eval(reg, Binary(op, lhs, rhs), b) == (Err(NotReferenceExpr), b2)
  {
    assert Eval(reg, Binary(op, lhs, rhs), b) == EvalBinary(reg, Binary(op, lhs, rhs), b);
  }

  /** The built-in `=` is an assignment whose handler returns its right operand. */
  lemma BuiltinAssign()
    ensures "=" in Builtins().infix && Builtins().infix["="].opType == Setter
    ensures forall x, y :: Builtins().infix["="].handler.requires(x, y) && Builtins().infix["="].handler(x, y) == Ok(y)
  {
    DecimalAssignments();
    forall x, y
      ensures Builtins().infix["="].handler.requires(x, y) && Builtins().infix["="].handler(x, y) == Ok(y)
    {
      AssignAndEquality(x, y);
    }
  }

  /** `name = rhs` with an `=` that returns its right operand binds the name to the value of `rhs`. */
  lemma PlainAssignment(reg: Registries, name: string, rhs: ExprAST, v: Value, b: Bindings)
    requires "=" in reg.infix && reg.infix["="].opType == Setter
    requires forall x, y :: reg.infix["="].handler.requires(x, y) && reg.infix["="].handler(x, y) == Ok(y)
    requires ValueIn(b, name).Ok? && Eval(reg, rhs, b) == (Ok(v), b)
    ensures Eval(reg, Binary("=", Reference(name), rhs), b) == (Ok(Value.None), b[name := Variable(v)])
  {
    var e := Binary("=", Reference(name), rhs);
    assert Eval(reg, e, b) == EvalBinary(reg, e, b);
    assert Eval(reg, Reference(name), b) == (ValueIn(b, name), b);
    assert Apply(reg.infix["="].handler, ValueIn(b, name).value, v) == Ok(v);
  }

  /** With the built-in table, `a = 3` binds `a` to 3 and evaluates to `None` (reading `a` first must succeed). */
  lemma AssignExample(b: Bindings)
    requires ValueIn(b, "a").Ok?
    ensures Eval(Builtins(), Binary("=", Reference("a"), ExprAST.Literal(Literal.Number(3.0))), b)
         == (Ok(Value.None), b["a" := Variable(Value.Number(3.0))])
  {
    BuiltinAssign();
    var three := ExprAST.Literal(Literal.Number(3.0));
    assert Eval(Builtins(), three, b) == (Ok(Value.Number(3.0)), b);
    PlainAssignment(Builtins(), "a", three, Value.Number(3.0), b);
  }

  /** With `a` bound to 3, `a + 1` evaluates to 4 and writes nothing. */
  lemma PlusExample(b: Bindings)
    requires "a" in b && b["a"] == Variable(Value.Number(3.0))
    ensures Eval(Builtins(), Binary("+", Reference("a"), ExprAST.Literal(Literal.Number(1.0))), b)
         == (Ok(Value.Number(4.0)), b)
  {
    var reg := Builtins();
    var e := Binary("+", Reference("a"), ExprAST.Literal(Literal.Number(1.0)));
    ArithmeticPrecedences();
    assert reg.infix == BuiltinBinaryOps();
    assert reg.infix["+"].handler == DecimalHandler("+");
    assert OpTypeOf(reg.infix, "+") == Ok(Calc);
    assert Eval(reg, e, b) == EvalBinary(reg, e, b);
    assert Eval(reg, Reference("a"), b) == (Ok(Value.Number(3.0)), b);
    assert Eval(reg, ExprAST.Literal(Literal.Number(1.0)), b) == (Ok(Value.Number(1.0)), b);
    assert DecimalOp("+", Value.Number(3.0), Value.Number(1.0)) == Ok(Value.Number(4.0));
  }

  /** The built-in `-` subtracts the values of two operands that evaluate to numbers and write nothing. */
  lemma MinusOfNumbers(lhs: ExprAST, rhs: ExprAST, x: real, y: real, b: Bindings)
    requires Eval(Builtins(), lhs, b) == (Ok(Value.Number(x)), b)
    requires Eval(Builtins(), rhs, b) == (Ok(Value.Number(y)), b)
    ensures Eval(Builtins(), Binary("-", lhs, rhs), b) == (Ok(Value.Number(x - y)), b)
  {
    var reg := Builtins();
    var e := Binary("-", lhs, rhs);
    ArithmeticPrecedences();
    assert reg.infix == BuiltinBinaryOps();
    assert reg.infix["-"].handler == DecimalHandler("-");
    assert OpTypeOf(reg.infix, "-") == Ok(Calc);
    assert Eval(reg, e, b) == EvalBinary(reg, e, b);
    assert DecimalOp("-", Value.Number(x), Value.Number(y)) == Ok(Value.Number(x - y));
  }

  /** `a = 3` followed by `a + 1`: the chain reads back the value the assignment wrote. */
  lemma AssignThenRead(b: Bindings)
    requires ValueIn(b, "a").Ok?
    ensures Eval(Builtins(), Chain([
              Binary("=", Reference("a"), ExprAST.Literal(Literal.Number(3.0))),
              Binary("+", Reference("a"), ExprAST.Literal(Literal.Number(1.0)))]), b).0
         == Ok(Value.Number(4.0))
  {
    var assign := Binary("=", Reference("a"), ExprAST.Literal(Literal.Number(3.0)));
    var add := Binary("+", Reference("a"), ExprAST.Literal(Literal.Number(1.0)));
    AssignExample(b);
    PlusExample(b["a" := Variable(Value.Number(3.0))]);
    ChainOfTwo(Builtins(), assign, add, b);
  }

  /** Only the branch the condition selects is evaluated; a condition that is no Bool fails. */
  lemma TernarySelects(reg: Registries, cond: ExprAST, lhs: ExprAST, rhs: ExprAST, b: Bindings)
    ensures var (c, b1) := Eval(reg, cond, b);
      Eval(reg, Ternary(cond, lhs, rhs), b) ==
        if !c.Ok? then (c, b1)
        else if c.value == Value.Bool(true) then Eval(reg, lhs, b1)
        else if c.value == Value.Bool(false) then Eval(reg, rhs, b1)
        else (Err(ShouldBeBool), b1)
  {
    var (c, b1) := Eval(reg, cond, b);
    if !c.Ok? {
      FailKeeps(c, b1);
    }
  }

  /** A function bound in the context shadows the registry's function of the same name. */
  lemma ContextFunctionFirst(reg: Registries, name: string, b: Bindings)
    requires name in b && b[name].Function?
    ensures Eval(reg, ExprAST.Function(name, []), b) == (b[name].func([]), b)
  {
  }

  /** A call to a name bound neither in the context nor in the registry fails after its arguments. */
  lemma UnknownFunction(reg: Registries, name: string, args: seq<ExprAST>, b: Bindings)
    ensures var (params, b1) := EvalItems(reg, args, 0, b, []);
      params.Ok? && !(name in b1 && b1[name].Function?) && name !in reg.functions ==>
        Eval(reg, ExprAST.Function(name, args), b) == (Err(InnerFunctionNotRegistered(name)), b1)
  {
  }

  /** A chain of one statement evaluates as that statement, which is why the parser unwraps it. */
  lemma ChainOfOne(reg: Registries, e: ExprAST, b: Bindings)
    ensures Eval(reg, Chain([e]), b) == Eval(reg, e, b)
  {
    var (v, b1) := Eval(reg, e, b);
    assert [e][0] == e;
    assert Eval(reg, Chain([e]), b) == EvalChain(reg, [e], 0, b, Value.None);
    assert EvalChain(reg, [e], 0, b, Value.None) ==
      if !v.Ok? then Fail(v, b1) else EvalChain(reg, [e], 1, b1, v.value);
    if !v.Ok? {
      FailKeeps(v, b1);
    }
  }

  /** A chain of two statements runs the second from the bindings the first left, if the first succeeds. */
  lemma ChainOfTwo(reg: Registries, first: ExprAST, second: ExprAST, b: Bindings)
    ensures var (v, b1) := Eval(reg, first, b);
      Eval(reg, Chain([first, second]), b) == if v.Ok? then Eval(reg, second, b1) else (v, b1)
  {
    var (v, b1) := Eval(reg, first, b);
    ChainAppend(reg, [first], [second], 0, b, Value.None);
    assert [first] + [second] == [first, second];
    ChainOfOne(reg, first, b);
    ChainOfOne(reg, second, b1);
    assert Eval(reg, Chain([first]), b) == EvalChain(reg, [first], 0, b, Value.None);
    assert Eval(reg, Chain([second]), b1) == EvalChain(reg, [second], 0, b1, Value.None);
    if v.Ok? {
      assert EvalChain(reg, [second], 0, b1, v.value) == EvalChain(reg, [second], 0, b1, Value.None) by {
        assert [second][0] == second;
      }
    }
  }

  /** The empty chain evaluates to `None` and writes nothing. */
  lemma EmptyChain(reg: Registries, b: Bindings)
    ensures Eval(reg, Chain([]), b) == (Ok(Value.None), b)
  {
  }

  /** Items are evaluated in order: the values of `xs + ys` are those of `xs`, then those of `ys`. */
  lemma {:induction false} ItemsAppend(reg: Registries, xs: seq<ExprAST>, ys: seq<ExprAST>, i: nat, b: Bindings, acc: seq<Value>)
    requires i <= |xs|
    ensures var (r, b1) := EvalItems(reg, xs, i, b, acc);
      EvalItems(reg, xs + ys, i, b, acc) ==
        if r.Ok? then EvalItems(reg, ys, 0, b1, r.value) else (r, b1)
    decreases |xs| - i
  {
    if i == |xs| {
      ItemsShift(reg, xs, ys, 0, b, acc);
    } else {
      assert (xs + ys)[i] == xs[i];
      var (v, b1) := Eval(reg, xs[i], b);
      if v.Ok? {
        ItemsAppend(reg, xs, ys, i + 1, b1, acc + [v.value]);
      }
    }
  }

  /** Evaluating `xs + ys` from `|xs| + j` is evaluating `ys` from `j`. */
  lemma {:induction false} ItemsShift(reg: Registries, xs: seq<ExprAST>, ys: seq<ExprAST>, j: nat, b: Bindings, acc: seq<Value>)
    requires j <= |ys|
    ensures EvalItems(reg, xs + ys, |xs| + j, b, acc) == EvalItems(reg, ys, j, b, acc)
    decreases |ys| - j
  {
    if j < |ys| {
      assert (xs + ys)[|xs| + j] == ys[j];
      var (v, b1) := Eval(reg, ys[j], b);
      if v.Ok? {
        ItemsShift(reg, xs, ys, j + 1, b1, acc + [v.value]);
      }
    }
  }

  /** A chain's statements run in order, so the chain `xs + ys` runs `xs` and then `ys`. */
  lemma {:induction false} ChainAppend(reg: Registries, xs: seq<ExprAST>, ys: seq<ExprAST>, i: nat, b: Bindings, last: Value)
    requires i <= |xs|
    ensures var (r, b1) := EvalChain(reg, xs, i, b, last);
      EvalChain(reg, xs + ys, i, b, last) ==
        if r.Ok? then EvalChain(reg, ys, 0, b1, r.value) else (r, b1)
    decreases |xs| - i
  {
    if i == |xs| {
      ChainShift(reg, xs, ys, 0, b, last);
    } else {
      assert (xs + ys)[i] == xs[i];
      var (v, b1) := Eval(reg, xs[i], b);
      if v.Ok? {
        ChainAppend(reg, xs, ys, i + 1, b1, v.value);
      }
    }
  }

  lemma {:induction false} ChainShift(reg: Registries, xs: seq<ExprAST>, ys: seq<ExprAST>, j: nat, b: Bindings, last: Value)
    requires j <= |ys|
    ensures EvalChain(reg, xs + ys, |xs| + j, b, last) == EvalChain(reg, ys, j, b, last)
    decreases |ys| - j
  {
    if j < |ys| {
      assert (xs + ys)[|xs| + j] == ys[j];
      var (v, b1) := Eval(reg, ys[j], b);
      if v.Ok? {
        ChainShift(reg, xs, ys, j + 1, b1, v.value);
      }
    }
  }

  // ---------------------------------------------------------------- only assignments write

  /** No node of `e` is an assignment, that is an infix operator the table classes as `Setter`. */
  predicate NoAssignment(reg: Registries, e: ExprAST)
    decreases e, 1
  {
    match e
    case Literal(_) => true
    case Reference(_) => true
    case Function(_, args) => ItemsHaveNoAssignment(reg, args)
    case Unary(_, rhs) => NoAssignment(reg, rhs)
    case Binary(op, lhs, rhs) =>
      !(op in reg.infix && reg.infix[op].opType == Setter) && NoAssignment(reg, lhs) && NoAssignment(reg, rhs)
    case Postfix(lhs, _) => NoAssignment(reg, lhs)
    case Ternary(c, lhs, rhs) => NoAssignment(reg, c) && NoAssignment(reg, lhs) && NoAssignment(reg, rhs)
    case List(items) => ItemsHaveNoAssignment(reg, items)
    case Map(pairs) => forall i :: 0 <= i < |pairs| ==> NoAssignment(reg, pairs[i].0) && NoAssignment(reg, pairs[i].1)
    case Chain(exprs) => ItemsHaveNoAssignment(reg, exprs)
    case None => true
  }

  predicate ItemsHaveNoAssignment(reg: Registries, items: seq<ExprAST>)
    decreases items, 0
  {
    forall i :: 0 <= i < |items| ==> NoAssignment(reg, items[i])
  }

  /** An expression without assignments leaves the bindings as it found them, whatever it returns. */
  lemma {:induction false} OnlyAssignmentsWrite(reg: Registries, e: ExprAST, b: Bindings)
    requires NoAssignment(reg, e)
    ensures Eval(reg, e, b).1 == b
    decreases e, 1, 0
  {
    match e
    case Literal(_) =>
    case Reference(_) =>
    case Function(_, args) => ItemsWriteNothing(reg, args, 0, b, []);
    case Unary(_, rhs) => OnlyAssignmentsWrite(reg, rhs, b);
    case Binary(_, lhs, rhs) =>
      OnlyAssignmentsWrite(reg, lhs, b);
      OnlyAssignmentsWrite(reg, rhs, b);
    case Postfix(lhs, _) => OnlyAssignmentsWrite(reg, lhs, b);
    case Ternary(c, lhs, rhs) =>
      OnlyAssignmentsWrite(reg, c, b);
      OnlyAssignmentsWrite(reg, lhs, b);
      OnlyAssignmentsWrite(reg, rhs, b);
    case List(items) => ItemsWriteNothing(reg, items, 0, b, []);
    case Map(_) => PairsWriteNothing(reg, e, 0, b, []);
    case Chain(exprs) => ChainWritesNothing(reg, exprs, 0, b, Value.None);
    case None =>
  }

  lemma {:induction false} ItemsWriteNothing(reg: Registries, items: seq<ExprAST>, i: nat, b: Bindings, acc: seq<Value>)
    requires i <= |items| && ItemsHaveNoAssignment(reg, items)
    ensures EvalItems(reg, items, i, b, acc).1 == b
    decreases items, 0, |items| - i
  {
    if i < |items| {
      OnlyAssignmentsWrite(reg, items[i], b);
      var v := Eval(reg, items[i], b).0;
      if v.Ok? {
        ItemsWriteNothing(reg, items, i + 1, b, acc + [v.value]);
      }
    }
  }

  lemma {:induction false} PairsWriteNothing(reg: Registries, m: ExprAST, i: nat, b: Bindings, acc: seq<(Value, Value)>)
    requires m.Map? && i <= |m.pairs| && NoAssignment(reg, m)
    ensures EvalPairs(reg, m, i, b, acc).1 == b
    decreases m, 0, |m.pairs| - i
  {
    if i < |m.pairs| {
      OnlyAssignmentsWrite(reg, m.pairs[i].0, b);
      OnlyAssignmentsWrite(reg, m.pairs[i].1, b);
      var k := Eval(reg, m.pairs[i].0, b).0;
      var v := Eval(reg, m.pairs[i].1, b).0;
      if k.Ok? && v.Ok? {
        PairsWriteNothing(reg, m, i + 1, b, acc + [(k.value, v.value)]);
      }
    }
  }

  lemma {:induction false} ChainWritesNothing(reg: Registries, exprs: seq<ExprAST>, i: nat, b: Bindings, last: Value)
    requires i <= |exprs| && ItemsHaveNoAssignment(reg, exprs)
    ensures EvalChain(reg, exprs, i, b, last).1 == b
    decreases exprs, 0, |exprs| - i
  {
    if i < |exprs| {
      OnlyAssignmentsWrite(reg, exprs[i], b);
      var v := Eval(reg, exprs[i], b).0;
      if v.Ok? {
        ChainWritesNothing(reg, exprs, i + 1, b, v.value);
      }
    }
  }
}
