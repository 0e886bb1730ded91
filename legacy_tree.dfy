// The syntax tree of the older evaluator in ast.rs. Literals are nodes of their own
// and there is no postfix node.

module LegacyTree {
  import T = ExprTree

  datatype Expr =
    | Number(n: real)
    | Bool(b: bool)
    | String(s: string)
    | Unary(op: string, rhs: Expr)
    | Binary(op: string, lhs: Expr, rhs: Expr)
    | Ternary(cond: Expr, lhs: Expr, rhs: Expr)
    | Reference(name: string)
    | Function(name: string, args: seq<Expr>)
    | List(items: seq<Expr>)
    | Map(pairs: seq<(Expr, Expr)>)
    | Chain(exprs: seq<Expr>)
    | None

  /**
   * The same tree in the syntax of parser.rs: each literal node becomes a literal
   * leaf, and every other node keeps its kind, its text and its children.
   */
  function Translate(e: Expr): (t: T.ExprAST)
    ensures e.Number? <==> t.Literal? && t.lit.Number?
    ensures e.Reference? <==> t.Reference?
    ensures e.Reference? ==> t.name == e.name
    ensures e.Binary? <==> t.Binary?
    ensures e.Binary? ==> t.op == e.op
    ensures !t.Postfix?
    decreases e, 1
  {
    match e
    case Number(n) => T.Literal(T.Literal.Number(n))
    case Bool(b) => T.Literal(T.Literal.Bool(b))
    case String(s) => T.Literal(T.Literal.String(s))
    case Unary(op, rhs) => T.Unary(op, Translate(rhs))
    case Binary(op, lhs, rhs) => T.Binary(op, Translate(lhs), Translate(rhs))
    case Ternary(c, lhs, rhs) => T.Ternary(Translate(c), Translate(lhs), Translate(rhs))
    case Reference(name) => T.Reference(name)
    case Function(name, args) => T.Function(name, TranslateAll(args))
    case List(items) => T.List(TranslateAll(items))
    case Map(pairs) => T.Map(TranslatePairs(e))
    case Chain(exprs) => T.Chain(TranslateAll(exprs))
    case None => T.None
  }

  /** `Translate` on each item, in order. */
  function TranslateAll(items: seq<Expr>): (r: seq<T.ExprAST>)
    ensures |r| == |items|
    ensures forall i :: 0 <= i < |items| ==> r[i] == Translate(items[i])
    decreases items, 0
  {
    seq(|items|, i requires 0 <= i < |items| => Translate(items[i]))
  }

  /** `Translate` on both halves of each pair of a `Map` node, in order. */
  function TranslatePairs(m: Expr): (r: seq<(T.ExprAST, T.ExprAST)>)
    requires m.Map?
    ensures |r| == |m.pairs|
    ensures forall i :: 0 <= i < |m.pairs| ==> r[i] == (Translate(m.pairs[i].0), Translate(m.pairs[i].1))
    decreases m, 0
  {
    seq(|m.pairs|, i requires 0 <= i < |m.pairs| => (Translate(m.pairs[i].0), Translate(m.pairs[i].1)))
  }
}
