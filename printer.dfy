// `expr()` of parser.rs: the canonical text of a syntax tree.
//
// A number's text comes from the decimal library, so it is a parameter
// `numberText`. The index loops of the list, map, call and chain renderers are
// written as folds over the index; `Join` is the plain definition they are proved
// to agree with.

module Printing {
  import opened Tokens
  import opened Operators
  import opened ExprTree
  import OperatorLaws
  import Errors
  import Values
  import Contexts
  import Registry
  import Evaluation
  import EvaluationLaws

  /** `parts` with `sep` between neighbours. */
  function Join(parts: seq<string>, sep: string): string {
    if |parts| == 0 then ""
    else if |parts| == 1 then parts[0]
    else parts[0] + sep + Join(parts[1..], sep)
  }

  /** `literal_expr`: strings in double quotes, without escaping. */
  function LiteralText(lit: Literal, numberText: real -> string): (s: string)
    ensures lit.String? ==> s == "\"" + lit.s + "\""
    ensures lit.Bool? ==> s == BoolText(lit.b)
  {
    match lit
    case Number(n) => numberText(n)
    case Bool(b) => if b then "true" else "false"
    case String(text) => "\"" + text + "\""
  }

  /** `get_precidence`: a `Binary` node's operator precedence, and whether there is one. */
  function NodePrecedence(infix: map<string, BinaryOp>, e: ExprAST): (r: (bool, int))
    ensures r.0 <==> e.Binary?
    ensures r.0 ==> r.1 == Precedence(infix, e.op)
  {
    match e
    case Binary(op, _, _) => (true, Precedence(infix, op))
    case _ => (false, 0)
  }

  /** A child of a binary `op` needs parentheses when it binds strictly looser than `op`. */
  predicate NeedsParens(infix: map<string, BinaryOp>, child: ExprAST, op: string) {
    var r := NodePrecedence(infix, child);
    r.0 && r.1 < Precedence(infix, op)
  }

  /** `expr`. */
  function Expr(infix: map<string, BinaryOp>, e: ExprAST, numberText: real -> string): string
    decreases e, 1, 0
  {
    match e
    case Literal(lit) => LiteralText(lit, numberText)
    case Reference(name) => name
    case Function(name, args) => name + "(" + ItemsText(infix, args, 0, ",", numberText) + ")"
    case Unary(op, rhs) => op + " " + Expr(infix, rhs, numberText)
    case Binary(op, lhs, rhs) =>
      Operand(infix, lhs, op, numberText) + " " + op + " " + Operand(infix, rhs, op, numberText)
    case Postfix(lhs, op) => Expr(infix, lhs, numberText) + " " + op
    case Ternary(cond, lhs, rhs) =>
      Expr(infix, cond, numberText) + " ? " + Expr(infix, lhs, numberText) + " : " + Expr(infix, rhs, numberText)
    case List(items) => "[" + ItemsText(infix, items, 0, ",", numberText) + "]"
    case Map(_) => "{" + PairsText(infix, e, 0, numberText) + "}"
    case Chain(exprs) => ItemsText(infix, exprs, 0, ";", numberText)
    case None => ""
  }

  /** One operand of `binary_expr`, parenthesised when it binds looser than `op`. */
  function Operand(infix: map<string, BinaryOp>, child: ExprAST, op: string, numberText: real -> string): string
    decreases child, 1, 1
  {
    if NeedsParens(infix, child, op) then "(" + Expr(infix, child, numberText) + ")"
    else Expr(infix, child, numberText)
  }

  /** The loop of `list_expr`, `function_expr` and `chain_expr` from index `i`. */
  function ItemsText(infix: map<string, BinaryOp>, items: seq<ExprAST>, i: nat, sep: string, numberText: real -> string): string
    requires i <= |items|
    decreases items, 0, |items| - i
  {
    if i == |items| then ""
    else
      Expr(infix, items[i], numberText) + (if i < |items| - 1 then sep else "")
        + ItemsText(infix, items, i + 1, sep, numberText)
  }

  /** The loop of `map_expr` from index `i`: `key:value` entries separated by commas. */
  function PairsText(infix: map<string, BinaryOp>, m: ExprAST, i: nat, numberText: real -> string): string
    requires m.Map? && i <= |m.pairs|
    decreases m, 0, |m.pairs| - i
  {
    if i == |m.pairs| then ""
    else
      Expr(infix, m.pairs[i].0, numberText) + ":" + Expr(infix, m.pairs[i].1, numberText)
        + (if i < |m.pairs| - 1 then "," else "")
        + PairsText(infix, m, i + 1, numberText)
  }

  /** The texts of the items, in order. */
  function Rendered(infix: map<string, BinaryOp>, items: seq<ExprAST>, numberText: real -> string): (r: seq<string>)
    ensures |r| == |items|
    ensures forall k :: 0 <= k < |items| ==> r[k] == Expr(infix, items[k], numberText)
  {
    seq(|items|, k requires 0 <= k < |items| => Expr(infix, items[k], numberText))
  }

  /** The `key:value` texts of a map's entries, in order. */
  function RenderedPairs(infix: map<string, BinaryOp>, m: ExprAST, numberText: real -> string): (r: seq<string>)
    requires m.Map?
    ensures |r| == |m.pairs|
    ensures forall k :: 0 <= k < |m.pairs| ==>
      r[k] == Expr(infix, m.pairs[k].0, numberText) + ":" + Expr(infix, m.pairs[k].1, numberText)
  {
    seq(|m.pairs|, k requires 0 <= k < |m.pairs| =>
      Expr(infix, m.pairs[k].0, numberText) + ":" + Expr(infix, m.pairs[k].1, numberText))
  }

  /** The index loop writes the items' texts joined by the separator. */
  lemma {:induction false} ItemsTextIsJoin(infix: map<string, BinaryOp>, items: seq<ExprAST>, i: nat, sep: string, numberText: real -> string)
    requires i <= |items|
    ensures ItemsText(infix, items, i, sep, numberText) == Join(Rendered(infix, items, numberText)[i..], sep)
    decreases |items| - i
  {
    var parts := Rendered(infix, items, numberText)[i..];
    if i < |items| {
      ItemsTextIsJoin(infix, items, i + 1, sep, numberText);
      assert parts[1..] == Rendered(infix, items, numberText)[i + 1..];
    }
  }

  /** The map loop writes the `key:value` texts joined by commas. */
  lemma {:induction false} PairsTextIsJoin(infix: map<string, BinaryOp>, m: ExprAST, i: nat, numberText: real -> string)
    requires m.Map? && i <= |m.pairs|
    ensures PairsText(infix, m, i, numberText) == Join(RenderedPairs(infix, m, numberText)[i..], ",")
    decreases |m.pairs| - i
  {
    var parts := RenderedPairs(infix, m, numberText)[i..];
    if i < |m.pairs| {
      PairsTextIsJoin(infix, m, i + 1, numberText);
      assert parts[1..] == RenderedPairs(infix, m, numberText)[i + 1..];
    }
  }

  /** Lists, maps, calls and chains: brackets around the joined texts of the parts. */
  lemma CompoundTexts(infix: map<string, BinaryOp>, e: ExprAST, numberText: real -> string)
    ensures e.List? ==> Expr(infix, e, numberText) == "[" + Join(Rendered(infix, e.items, numberText), ",") + "]"
    ensures e.Function? ==> Expr(infix, e, numberText) == e.name + "(" + Join(Rendered(infix, e.args, numberText), ",") + ")"
    ensures e.Chain? ==> Expr(infix, e, numberText) == Join(Rendered(infix, e.exprs, numberText), ";")
    ensures e.Map? ==> Expr(infix, e, numberText) == "{" + Join(RenderedPairs(infix, e, numberText), ",") + "}"
  {
    match e
    case List(items) =>
      ItemsTextIsJoin(infix, items, 0, ",", numberText);
      assert Rendered(infix, items, numberText)[0..] == Rendered(infix, items, numberText);
    case Function(_, args) =>
      ItemsTextIsJoin(infix, args, 0, ",", numberText);
      assert Rendered(infix, args, numberText)[0..] == Rendered(infix, args, numberText);
    case Chain(exprs) =>
      ItemsTextIsJoin(infix, exprs, 0, ";", numberText);
      assert Rendered(infix, exprs, numberText)[0..] == Rendered(infix, exprs, numberText);
    case Map(_) =>
      PairsTextIsJoin(infix, e, 0, numberText);
      assert RenderedPairs(infix, e, numberText)[0..] == RenderedPairs(infix, e, numberText);
    case _ =>
  }

  /**
   * Where parentheses go in a binary node: an operand is wrapped exactly when it is
   * itself a binary node whose operator binds strictly looser than the parent's;
   * an operand of equal or tighter precedence, and every other kind of operand,
   * is written bare.
   */
  lemma ParenthesesRule(infix: map<string, BinaryOp>, op: string, lhs: ExprAST, rhs: ExprAST, numberText: real -> string)
    ensures var l := Expr(infix, lhs, numberText);
      var r := Expr(infix, rhs, numberText);
      Expr(infix, Binary(op, lhs, rhs), numberText)
        == (if lhs.Binary? && Precedence(infix, lhs.op) < Precedence(infix, op) then "(" + l + ")" else l)
          + " " + op + " "
          + (if rhs.Binary? && Precedence(infix, rhs.op) < Precedence(infix, op) then "(" + r + ")" else r)
  {
  }

  /**
   * Parentheses on the source's arithmetic examples, with `+` and `-` looser
   * than `*`.
   */
  lemma ArithmeticTexts(infix: map<string, BinaryOp>, numberText: real -> string)
    requires numberText(2.0) == "2" && numberText(3.0) == "3" && numberText(5.0) == "5" && numberText(7.0) == "7"
    requires Precedence(infix, "+") < Precedence(infix, "*") && Precedence(infix, "-") < Precedence(infix, "*")
    ensures var n := (x: real) => ExprAST.Literal(Literal.Number(x));
      && Expr(infix, Binary("+", n(2.0), Binary("*", n(3.0), n(5.0))), numberText) == "2 + 3 * 5"
      && Expr(infix, Binary("*", Binary("+", n(2.0), n(3.0)), n(5.0)), numberText) == "(2 + 3) * 5"
      && Expr(infix, Binary("-", Binary("*", Postfix(ExprAST.Function("a", []), "++"), n(2.0)), n(7.0)), numberText)
         == "a() ++ * 2 - 7"
  {
    var n := (x: real) => ExprAST.Literal(Literal.Number(x));
    var sum := Binary("+", n(2.0), n(3.0));
    assert Expr(infix, sum, numberText) == "2 + 3";
    assert Expr(infix, Binary("*", sum, n(5.0)), numberText) == "(2 + 3) * 5";
    var product := Binary("*", n(3.0), n(5.0));
    assert Expr(infix, product, numberText) == "3 * 5";
    assert Expr(infix, Binary("+", n(2.0), product), numberText) == "2 + 3 * 5";
    var call := Postfix(ExprAST.Function("a", []), "++");
    assert Expr(infix, ExprAST.Function("a", []), numberText) == "a()";
    assert Expr(infix, Binary("*", call, n(2.0)), numberText) == "a() ++ * 2";
  }

  /** The built-in table puts `+` and `-` below `*`, so its renderings are those above. */
  lemma BuiltinArithmeticTexts(numberText: real -> string)
    requires numberText(2.0) == "2" && numberText(3.0) == "3" && numberText(5.0) == "5" && numberText(7.0) == "7"
    ensures var n := (x: real) => ExprAST.Literal(Literal.Number(x));
      && Expr(BuiltinBinaryOps(), Binary("*", Binary("+", n(2.0), n(3.0)), n(5.0)), numberText) == "(2 + 3) * 5"
      && Expr(BuiltinBinaryOps(), Binary("+", n(2.0), Binary("*", n(3.0), n(5.0))), numberText) == "2 + 3 * 5"
  {
    OperatorLaws.ArithmeticPrecedences();
    ArithmeticTexts(BuiltinBinaryOps(), numberText);
  }

  /**
   * The renderer keeps only the parentheses that precedence forces, so it loses
   * grouping: `1 - (2 - 3)` and `(1 - 2) - 3` print as the same text, yet they
   * evaluate to 2 and -4. No parser can read that text back to a tree of the
   * value of both.
   */
  lemma RenderLosesGrouping(numberText: real -> string, b: Contexts.Bindings)
    requires numberText(1.0) == "1" && numberText(2.0) == "2" && numberText(3.0) == "3"
    ensures var n := (x: real) => ExprAST.Literal(Literal.Number(x));
      var right := Binary("-", n(1.0), Binary("-", n(2.0), n(3.0)));
      var left := Binary("-", Binary("-", n(1.0), n(2.0)), n(3.0));
      && Expr(BuiltinBinaryOps(), right, numberText) == "1 - 2 - 3"
      && Expr(BuiltinBinaryOps(), left, numberText) == "1 - 2 - 3"
      && Evaluation.Eval(Registry.Builtins(), right, b).0 == Errors.Ok(Values.Value.Number(2.0))
      && Evaluation.Eval(Registry.Builtins(), left, b).0 == Errors.Ok(Values.Value.Number(-4.0))
  {
    var n := (x: real) => ExprAST.Literal(Literal.Number(x));
    var infix := BuiltinBinaryOps();
    OperatorLaws.ArithmeticPrecedences();
    var inner := Binary("-", n(2.0), n(3.0));
    var front := Binary("-", n(1.0), n(2.0));
    assert Expr(infix, inner, numberText) == "2 - 3";
    assert Expr(infix, front, numberText) == "1 - 2";
    assert Expr(infix, Binary("-", n(1.0), inner), numberText) == "1 - 2 - 3";
    assert Expr(infix, Binary("-", front, n(3.0)), numberText) == "1 - 2 - 3";
    var reg := Registry.Builtins();
    assert Evaluation.Eval(reg, n(1.0), b) == (Errors.Ok(Values.Value.Number(1.0)), b);
    assert Evaluation.Eval(reg, n(2.0), b) == (Errors.Ok(Values.Value.Number(2.0)), b);
    assert Evaluation.Eval(reg, n(3.0), b) == (Errors.Ok(Values.Value.Number(3.0)), b);
    EvaluationLaws.MinusOfNumbers(n(2.0), n(3.0), 2.0, 3.0, b);
    EvaluationLaws.MinusOfNumbers(n(1.0), inner, 1.0, -1.0, b);
    EvaluationLaws.MinusOfNumbers(n(1.0), n(2.0), 1.0, 2.0, b);
    EvaluationLaws.MinusOfNumbers(front, n(3.0), -1.0, 3.0, b);
  }

  /** Prefix, ternary and empty renderings from the source's examples. */
  lemma OtherTexts(infix: map<string, BinaryOp>, numberText: real -> string)
    requires numberText(2.0) == "2" && numberText(4.0) == "4"
    ensures Expr(infix, Unary("!", ExprAST.Reference("a")), numberText) == "! a"
    ensures Expr(infix, Ternary(ExprAST.Literal(Literal.Bool(true)), ExprAST.Literal(Literal.Number(4.0)),
                                ExprAST.Literal(Literal.Number(2.0))), numberText) == "true ? 4 : 2"
    ensures Expr(infix, List([]), numberText) == "[]"
    ensures Expr(infix, Map([]), numberText) == "{}"
  {
  }

  /** The text of `2 + 3` when the numbers print plainly. */
  lemma SumText(infix: map<string, BinaryOp>, numberText: real -> string)
    requires numberText(2.0) == "2" && numberText(3.0) == "3"
    ensures Expr(infix, Binary("+", ExprAST.Literal(Literal.Number(2.0)), ExprAST.Literal(Literal.Number(3.0))), numberText)
      == "2 + 3"
  {
  }

  /** A map renders its entries as `key:value`, comma-separated, with strings quoted. */
  lemma MapText(infix: map<string, BinaryOp>, numberText: real -> string)
    requires numberText(2.0) == "2" && numberText(3.0) == "3" && numberText(5.0) == "5"
    ensures var n := (x: real) => ExprAST.Literal(Literal.Number(x));
      Expr(infix, Map([(Binary("+", n(2.0), n(3.0)), n(5.0)), (ExprAST.Literal(Literal.String("haha")), ExprAST.Reference("d"))]), numberText)
      == "{2 + 3:5,\"haha\":d}"
  {
    var n := (x: real) => ExprAST.Literal(Literal.Number(x));
    var sum := Binary("+", n(2.0), n(3.0));
    SumText(infix, numberText);
    var m := Map([(sum, n(5.0)), (ExprAST.Literal(Literal.String("haha")), ExprAST.Reference("d"))]);
    var first := Expr(infix, m.pairs[0].0, numberText) + ":" + Expr(infix, m.pairs[0].1, numberText);
    var second := Expr(infix, m.pairs[1].0, numberText) + ":" + Expr(infix, m.pairs[1].1, numberText);
    assert first == "2 + 3:5";
    assert second == "\"haha\":d";
    assert PairsText(infix, m, 2, numberText) == "";
    assert PairsText(infix, m, 1, numberText) == second;
    assert PairsText(infix, m, 0, numberText) == first + "," + second;
  }
}
