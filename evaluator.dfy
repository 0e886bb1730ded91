// `exec` of parser.rs: evaluation of a syntax tree against a context that
// assignments write to.
//
// `Eval` is the specification: the outcome of evaluating a node from a given table
// of bindings, and the table it leaves behind. It is ghost because it asks whether a
// built-in infix handler is applied inside its domain (outside it the source
// panics, here `Panic`). The methods below are the source's evaluator over a
// `Context` object, proved against it.

module Evaluation {
  import opened Errors
  import opened Values
  import opened Functions
  import opened Operators
  import opened Registry
  import opened Contexts
  import opened ExprTree

  /** `exec_literal`. */
  function LiteralValue(lit: Literal): (v: Value)
    ensures lit.Number? <==> v.Number?
    ensures lit.Number? ==> v.Decimal() == Ok(lit.n)
    ensures lit.Bool? ==> v.Boolean() == Ok(lit.b)
    ensures lit.String? ==> v.Str() == Ok(lit.s)
  {
    match lit
    case Number(n) => FromDecimal(n)
    case Bool(b) => FromBool(b)
    case String(s) => FromStr(s)
  }

  /** `get_reference_name`. */
  function ReferenceName(e: ExprAST): (r: Result<string>)
    ensures r.Ok? <==> e.Reference?
    ensures r.Ok? ==> r.value == e.name
    ensures !r.Ok? ==> r == Err(NotReferenceExpr)
  {
    if e.Reference? then Ok(e.name) else Err(NotReferenceExpr)
  }

  /**
   * Applies an infix handler, or `Panic` outside its domain (a zero divisor, a shift
   * amount beyond 63).
   */
  ghost function Apply(h: BinaryOpFunc, a: Value, b: Value): Result<Value> {
    if h.requires(a, b) then h(a, b) else Panic
  }

  /** A failed sub-evaluation ends the evaluation with its outcome and its bindings. */
  function Fail<T, U>(r: Result<T>, b: Bindings): (Result<U>, Bindings)
    requires !r.Ok?
  {
    (r.PropagateFailure(), b)
  }

  /** What evaluating `e` from bindings `b` returns, and the bindings after it. */
  ghost function Eval(reg: Registries, e: ExprAST, b: Bindings): (Result<Value>, Bindings)
    decreases e, 1, 0
  {
    match e
    case Literal(lit) => (Ok(LiteralValue(lit)), b)
    case Reference(name) => (ValueIn(b, name), b)
    case Function(name, args) =>
      var (params, b1) := EvalItems(reg, args, 0, b, []);
      if !params.Ok? then Fail(params, b1)
      else (CallFunction(reg, b1, name, params.value), b1)
    case Unary(op, rhs) =>
      var f := LookupUnary(reg.prefix, op);
      if !f.Ok? then Fail(f, b)
      else
        var (v, b1) := Eval(reg, rhs, b);
        if !v.Ok? then Fail(v, b1) else (f.value(v.value), b1)
    case Binary(_, _, _) => EvalBinary(reg, e, b)
    case Postfix(lhs, op) =>
      var f := LookupUnary(reg.postfix, op);
      if !f.Ok? then Fail(f, b)
      else
        var (v, b1) := Eval(reg, lhs, b);
        if !v.Ok? then Fail(v, b1) else (f.value(v.value), b1)
    case Ternary(cond, lhs, rhs) =>
      var (c, b1) := Eval(reg, cond, b);
      if !c.Ok? then Fail(c, b1)
      else if c.value == Value.Bool(true) then Eval(reg, lhs, b1)
      else if c.value == Value.Bool(false) then Eval(reg, rhs, b1)
      else (Err(ShouldBeBool), b1)
    case List(items) =>
      var (vs, b1) := EvalItems(reg, items, 0, b, []);
      if !vs.Ok? then Fail(vs, b1) else (Ok(Value.List(vs.value)), b1)
    case Map(pairs) =>
      var (ps, b1) := EvalPairs(reg, e, 0, b, []);
      if !ps.Ok? then Fail(ps, b1) else (Ok(Value.Map(ps.value)), b1)
    case Chain(exprs) => EvalChain(reg, exprs, 0, b, Value.None)
    case None => (Ok(Value.None), b)
  }

  /**
   * `exec_binary`: the operator's class is looked up before either operand is
   * evaluated; an assignment writes its name only after both operands and the
   * handler have succeeded, and evaluates to `None`.
   */
  ghost function EvalBinary(reg: Registries, e: ExprAST, b: Bindings): (Result<Value>, Bindings)
    requires e.Binary?
    decreases e, 0, 0
  {
    var kind := OpTypeOf(reg.infix, e.op);
    if !kind.Ok? then Fail(kind, b)
    else
      var (x, b1) := Eval(reg, e.lhs, b);
      if !x.Ok? then Fail(x, b1)
      else
        var (y, b2) := Eval(reg, e.rhs, b1);
        if !y.Ok? then Fail(y, b2)
        else if kind.value.Calc? then (Apply(reg.infix[e.op].handler, x.value, y.value), b2)
        else
          var name := ReferenceName(e.lhs);
          if !name.Ok? then Fail(name, b2)
          else
            var v := Apply(reg.infix[e.op].handler, x.value, y.value);
            if !v.Ok? then Fail(v, b2)
            else (Ok(Value.None), b2[name.value := Variable(v.value)])
  }

  /** `exec_function` after its arguments: a context function first, else the registry. */
  function CallFunction(reg: Registries, b: Bindings, name: string, params: seq<Value>): (r: Result<Value>)
    ensures FunctionIn(b, name).Some? ==> r == FunctionIn(b, name).value(params)
    ensures FunctionIn(b, name).None? && name in reg.functions ==> r == reg.functions[name](params)
    ensures FunctionIn(b, name).None? && name !in reg.functions ==> r == Err(InnerFunctionNotRegistered(name))
  {
    match FunctionIn(b, name)
    case Some(f) => f(params)
    case None =>
      var f := LookupFunction(reg.functions, name);
      if f.Ok? then f.value(params) else Err(f.error)
  }

  /** Evaluates `items[i..]` left to right after the values `acc`, stopping at the first failure. */
  ghost function EvalItems(reg: Registries, items: seq<ExprAST>, i: nat, b: Bindings, acc: seq<Value>)
    : (Result<seq<Value>>, Bindings)
    requires i <= |items|
    decreases items, 0, |items| - i
  {
    if i == |items| then (Ok(acc), b)
    else
      var (v, b1) := Eval(reg, items[i], b);
      if !v.Ok? then Fail(v, b1) else EvalItems(reg, items, i + 1, b1, acc + [v.value])
  }

  /** Evaluates the pairs of a `Map` node from index `i`: each key, then its value. */
  ghost function EvalPairs(reg: Registries, m: ExprAST, i: nat, b: Bindings, acc: seq<(Value, Value)>)
    : (Result<seq<(Value, Value)>>, Bindings)
    requires m.Map? && i <= |m.pairs|
    decreases m, 0, |m.pairs| - i
  {
    if i == |m.pairs| then (Ok(acc), b)
    else
      var (k, b1) := Eval(reg, m.pairs[i].0, b);
      if !k.Ok? then Fail(k, b1)
      else
        var (v, b2) := Eval(reg, m.pairs[i].1, b1);
        if !v.Ok? then Fail(v, b2) else EvalPairs(reg, m, i + 1, b2, acc + [(k.value, v.value)])
  }

  /** Evaluates the statements `exprs[i..]` in order; `last` is the value of the one before. */
  ghost function EvalChain(reg: Registries, exprs: seq<ExprAST>, i: nat, b: Bindings, last: Value)
    : (Result<Value>, Bindings)
    requires i <= |exprs|
    decreases exprs, 0, |exprs| - i
  {
    if i == |exprs| then (Ok(last), b)
    else
      var (v, b1) := Eval(reg, exprs[i], b);
      if !v.Ok? then Fail(v, b1) else EvalChain(reg, exprs, i + 1, b1, v.value)
  }

  // ---------------------------------------------------------------- the evaluator

  /** `exec`: evaluates `e`, writing assignments to `ctx`. */
  method Exec(reg: Registries, e: ExprAST, ctx: Context) returns (r: Result<Value>)
    requires !Eval(reg, e, ctx.bindings).0.Panic?
    modifies ctx
    ensures (r, ctx.bindings) == Eval(reg, e, old(ctx.bindings))
    decreases e, 1, 0
  {
    match e {
      case Literal(lit) =>
        r := Ok(LiteralValue(lit));
      case Reference(name) =>
        r := ctx.Value(name);
      case Function(name, args) =>
        var params := ExecItems(reg, args, ctx);
        if !params.Ok? {
          return params.PropagateFailure();
        }
        match ctx.GetFunc(name) {
          case Some(f) => r := f(params.value);
          case None =>
            var f := LookupFunction(reg.functions, name);
            if !f.Ok? {
              return Err(f.error);
            }
            r := f.value(params.value);
        }
      case Unary(op, rhs) =>
        var f := LookupUnary(reg.prefix, op);
        if !f.Ok? {
          return f.PropagateFailure();
        }
        var v := Exec(reg, rhs, ctx);
        if !v.Ok? {
          return v;
        }
        r := f.value(v.value);
      case Binary(op, lhs, rhs) =>
        r := ExecBinary(reg, e, ctx);
      case Postfix(lhs, op) =>
        var f := LookupUnary(reg.postfix, op);
        if !f.Ok? {
          return f.PropagateFailure();
        }
        var v := Exec(reg, lhs, ctx);
        if !v.Ok? {
          return v;
        }
        r := f.value(v.value);
      case Ternary(cond, lhs, rhs) =>
        var c := Exec(reg, cond, ctx);
        if !c.Ok? {
          return c;
        }
        match c.value {
          case Bool(val) =>
            if val {
              r := Exec(reg, lhs, ctx);
            } else {
              r := Exec(reg, rhs, ctx);
            }
          case _ =>
            r := Err(ShouldBeBool);
        }
      case List(items) =>
        var vs := ExecItems(reg, items, ctx);
        if !vs.Ok? {
          return vs.PropagateFailure();
        }
        r := Ok(Value.List(vs.value));
      case Map(_) =>
        r := ExecMap(reg, e, ctx);
      case Chain(exprs) =>
        r := ExecChain(reg, exprs, ctx);
      case None =>
        r := Ok(Value.None);
    }
  }

  /** `exec_binary`: the operator's class is looked up before either operand is evaluated. */
  method ExecBinary(reg: Registries, e: ExprAST, ctx: Context) returns (r: Result<Value>)
    requires e.Binary? && !EvalBinary(reg, e, ctx.bindings).0.Panic?
    modifies ctx
    ensures (r, ctx.bindings) == EvalBinary(reg, e, old(ctx.bindings))
    decreases e, 0, 0
  {
    var kind := OpTypeOf(reg.infix, e.op);
    if !kind.Ok? {
      return kind.PropagateFailure();
    }
    var a := Exec(reg, e.lhs, ctx);
    if !a.Ok? {
      return a;
    }
    var b := Exec(reg, e.rhs, ctx);
    if !b.Ok? {
      return b;
    }
    var handler := reg.infix[e.op].handler;
    match kind.value {
      case Calc =>
        r := handler(a.value, b.value);
      case Setter =>
        var name := ReferenceName(e.lhs);
        if !name.Ok? {
          return name.PropagateFailure();
        }
        var v := handler(a.value, b.value);
        if !v.Ok? {
          return v;
        }
        ctx.SetVariable(name.value, v.value);
        r := Ok(Value.None);
    }
  }

  /** The argument loop of `exec_function` and the loop of `exec_list`. */
  method ExecItems(reg: Registries, items: seq<ExprAST>, ctx: Context) returns (r: Result<seq<Value>>)
    requires !EvalItems(reg, items, 0, ctx.bindings, []).0.Panic?
    modifies ctx
    ensures (r, ctx.bindings) == EvalItems(reg, items, 0, old(ctx.bindings), [])
    decreases items, 0, 0
  {
    var ans: seq<Value> := [];
    for i := 0 to |items|
      invariant EvalItems(reg, items, i, ctx.bindings, ans) == EvalItems(reg, items, 0, old(ctx.bindings), [])
    {
      var v := Exec(reg, items[i], ctx);
      if !v.Ok? {
        return v.PropagateFailure();
      }
      ans := ans + [v.value];
    }
    return Ok(ans);
  }

  /** `exec_map`. */
  method ExecMap(reg: Registries, m: ExprAST, ctx: Context) returns (r: Result<Value>)
    requires m.Map? && !Eval(reg, m, ctx.bindings).0.Panic?
    modifies ctx
    ensures (r, ctx.bindings) == Eval(reg, m, old(ctx.bindings))
    decreases m, 0, 0
  {
    var ans: seq<(Value, Value)> := [];
    for i := 0 to |m.pairs|
      invariant EvalPairs(reg, m, i, ctx.bindings, ans) == EvalPairs(reg, m, 0, old(ctx.bindings), [])
    {
      var k := Exec(reg, m.pairs[i].0, ctx);
      if !k.Ok? {
        return k;
      }
      var v := Exec(reg, m.pairs[i].1, ctx);
      if !v.Ok? {
        return v;
      }
      ans := ans + [(k.value, v.value)];
    }
    return Ok(Value.Map(ans));
  }

  /** `exec_chain`: the value of the last statement, `None` for no statement. */
  method ExecChain(reg: Registries, exprs: seq<ExprAST>, ctx: Context) returns (r: Result<Value>)
    requires !EvalChain(reg, exprs, 0, ctx.bindings, Value.None).0.Panic?
    modifies ctx
    ensures (r, ctx.bindings) == EvalChain(reg, exprs, 0, old(ctx.bindings), Value.None)
    decreases exprs, 0, 0
  {
    var ans := Value.None;
    for i := 0 to |exprs|
      invariant EvalChain(reg, exprs, i, ctx.bindings, ans) == EvalChain(reg, exprs, 0, old(ctx.bindings), Value.None)
    {
      var v := Exec(reg, exprs[i], ctx);
      if !v.Ok? {
        return v;
      }
      ans := v.value;
    }
    return Ok(ans);
  }
}
