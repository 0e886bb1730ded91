// The older evaluator of ast.rs against the evaluator of parser.rs: on a context
// that binds no name to a function they agree node for node, and where a name is
// bound to a function they part ways.

module LegacyEvaluationLaws {
  import opened Errors
  import opened Values
  import opened Registry
  import opened Operators
  import opened Contexts
  import opened LegacyTree
  import L = LegacyEvaluation
  import E = Evaluation
  import T = ExprTree

  /** No name is bound to a function. */
  predicate VariablesOnly(b: Bindings) {
    forall name :: name in b ==> b[name].Variable?
  }

  /**
   * On bindings without functions, the older evaluator returns what the current one
   * returns on the translated tree, leaves the same bindings, and still binds no
   * function.
   */
  lemma {:induction false} AgreesWithCurrent(reg: Registries, e: Expr, b: Bindings)
    requires VariablesOnly(b)
    ensures L.Eval(reg, e, b) == E.Eval(reg, Translate(e), b)
    ensures VariablesOnly(L.Eval(reg, e, b).1)
    decreases e, 1
  {
    match e
    case Number(_) =>
    case Bool(_) =>
    case String(_) =>
    case Reference(name) =>
    case Function(_, args) =>
      ItemsAgree(reg, args, 0, b, []);
    case Unary(op, rhs) =>
      AgreesWithCurrent(reg, rhs, b);
      UnaryAgrees(reg, op, rhs, b);
    case Binary(op, lhs, rhs) =>
      AgreesWithCurrent(reg, lhs, b);
      AgreesWithCurrent(reg, rhs, L.Eval(reg, lhs, b).1);
      BinaryAgrees(reg, op, lhs, rhs, b);
    case Ternary(c, lhs, rhs) =>
      AgreesWithCurrent(reg, c, b);
      var b1 := L.Eval(reg, c, b).1;
      AgreesWithCurrent(reg, lhs, b1);
      AgreesWithCurrent(reg, rhs, b1);
      TernaryAgrees(reg, c, lhs, rhs, b);
    case List(items) =>
      ItemsAgree(reg, items, 0, b, []);
    case Map(_) =>
      PairsAgree(reg, e, 0, b, []);
    case Chain(exprs) =>
      ChainAgrees(reg, exprs, 0, b, Value.None);
    case None =>
  }

  /** A prefix node agrees once its operand does. */
  lemma UnaryAgrees(reg: Registries, op: string, rhs: Expr, b: Bindings)
    requires VariablesOnly(b)
    requires L.Eval(reg, rhs, b) == E.Eval(reg, Translate(rhs), b) && VariablesOnly(L.Eval(reg, rhs, b).1)
    ensures L.Eval(reg, Unary(op, rhs), b) == E.Eval(reg, Translate(Unary(op, rhs)), b)
    ensures VariablesOnly(L.Eval(reg, Unary(op, rhs), b).1)
  {
    assert Translate(Unary(op, rhs)) == T.Unary(op, Translate(rhs));
  }

  /** A binary node agrees once both operands do, each on the bindings it sees. */
  lemma BinaryAgrees(reg: Registries, op: string, lhs: Expr, rhs: Expr, b: Bindings)
    requires VariablesOnly(b)
    requires L.Eval(reg, lhs, b) == E.Eval(reg, Translate(lhs), b) && VariablesOnly(L.Eval(reg, lhs, b).1)
    requires var b1 := L.Eval(reg, lhs, b).1;
      L.Eval(reg, rhs, b1) == E.Eval(reg, Translate(rhs), b1) && VariablesOnly(L.Eval(reg, rhs, b1).1)
    ensures L.Eval(reg, Binary(op, lhs, rhs), b) == E.Eval(reg, Translate(Binary(op, lhs, rhs)), b)
    ensures VariablesOnly(L.Eval(reg, Binary(op, lhs, rhs), b).1)
  {
    var e := Binary(op, lhs, rhs);
    assert Translate(e) == T.Binary(op, Translate(lhs), Translate(rhs));
    assert L.Eval(reg, e, b) == L.EvalBinary(reg, e, b);
    assert E.Eval(reg, Translate(e), b) == E.EvalBinary(reg, Translate(e), b);
    var kind := OpTypeOf(reg.infix, op);
    if kind.Ok? {
      var (x, b1) := L.Eval(reg, lhs, b);
      if x.Ok? {
        var (y, b2) := L.Eval(reg, rhs, b1);
        if y.Ok? && !kind.value.Calc? {
          var name := E.ReferenceName(Translate(lhs));
          var v := E.Apply(reg.infix[op].handler, x.value, y.value);
          if name.Ok? && v.Ok? {
            AssignKeepsVariablesOnly(b2, name.value, v.value);
          }
        }
      }
    }
  }

  lemma AssignKeepsVariablesOnly(b: Bindings, name: string, v: Value)
    requires VariablesOnly(b)
    ensures VariablesOnly(b[name := Variable(v)])
  {
  }

  /** A conditional agrees once its condition and both branches do. */
  lemma TernaryAgrees(reg: Registries, c: Expr, lhs: Expr, rhs: Expr, b: Bindings)
    requires VariablesOnly(b)
    requires L.Eval(reg, c, b) == E.Eval(reg, Translate(c), b) && VariablesOnly(L.Eval(reg, c, b).1)
    requires var b1 := L.Eval(reg, c, b).1;
      L.Eval(reg, lhs, b1) == E.Eval(reg, Translate(lhs), b1) && VariablesOnly(L.Eval(reg, lhs, b1).1) &&
      L.Eval(reg, rhs, b1) == E.Eval(reg, Translate(rhs), b1) && VariablesOnly(L.Eval(reg, rhs, b1).1)
    ensures L.Eval(reg, Ternary(c, lhs, rhs), b) == E.Eval(reg, Translate(Ternary(c, lhs, rhs)), b)
    ensures VariablesOnly(L.Eval(reg, Ternary(c, lhs, rhs), b).1)
  {
    assert Translate(Ternary(c, lhs, rhs)) == T.Ternary(Translate(c), Translate(lhs), Translate(rhs));
  }

  lemma {:induction false} ItemsAgree(reg: Registries, items: seq<Expr>, i: nat, b: Bindings, acc: seq<Value>)
    requires i <= |items| && VariablesOnly(b)
    ensures L.EvalItems(reg, items, i, b, acc) == E.EvalItems(reg, TranslateAll(items), i, b, acc)
    ensures VariablesOnly(L.EvalItems(reg, items, i, b, acc).1)
    decreases items, 0, |items| - i
  {
    if i < |items| {
      AgreesWithCurrent(reg, items[i], b);
      var (v, b1) := L.Eval(reg, items[i], b);
      if v.Ok? {
        ItemsAgree(reg, items, i + 1, b1, acc + [v.value]);
      }
    }
  }

  lemma {:induction false} PairsAgree(reg: Registries, m: Expr, i: nat, b: Bindings, acc: seq<(Value, Value)>)
    requires m.Map? && i <= |m.pairs| && VariablesOnly(b)
    ensures L.EvalPairs(reg, m, i, b, acc) == E.EvalPairs(reg, Translate(m), i, b, acc)
    ensures VariablesOnly(L.EvalPairs(reg, m, i, b, acc).1)
    decreases m, 0, |m.pairs| - i
  {
    if i < |m.pairs| {
      AgreesWithCurrent(reg, m.pairs[i].0, b);
      var (k, b1) := L.Eval(reg, m.pairs[i].0, b);
      AgreesWithCurrent(reg, m.pairs[i].1, b1);
      var (v, b2) := L.Eval(reg, m.pairs[i].1, b1);
      if k.Ok? && v.Ok? {
        PairsAgree(reg, m, i + 1, b2, acc + [(k.value, v.value)]);
      }
    }
  }

  lemma {:induction false} ChainAgrees(reg: Registries, exprs: seq<Expr>, i: nat, b: Bindings, last: Value)
    requires i <= |exprs| && VariablesOnly(b)
    ensures L.EvalChain(reg, exprs, i, b, last) == E.EvalChain(reg, TranslateAll(exprs), i, b, last)
    ensures VariablesOnly(L.EvalChain(reg, exprs, i, b, last).1)
    decreases exprs, 0, |exprs| - i
  {
    if i < |exprs| {
      AgreesWithCurrent(reg, exprs[i], b);
      var (v, b1) := L.Eval(reg, exprs[i], b);
      if v.Ok? {
        ChainAgrees(reg, exprs, i + 1, b1, v.value);
      }
    }
  }

  /**
   * A name bound to a function reads as `None` in the older evaluator, while the
   * current one calls the function with no arguments; a missing name reads as `None`
   * in both.
   */
  lemma ReadingNames(reg: Registries, name: string, b: Bindings)
    ensures FunctionIn(b, name).Some? ==>
      L.Eval(reg, Reference(name), b) == (Ok(Value.None), b) &&
      E.Eval(reg, T.Reference(name), b) == (FunctionIn(b, name).value([]), b)
    ensures name !in b ==>
      L.Eval(reg, Reference(name), b) == (Ok(Value.None), b) &&
      E.Eval(reg, T.Reference(name), b) == (Ok(Value.None), b)
  {
  }
}
