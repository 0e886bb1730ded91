// `expr()` of ast.rs: the older renderer. Against the renderer of parser.rs it
// writes no space after a prefix operator, writes strings without quotes,
// parenthesises every binary or ternary part of a ternary, and writes `, ` after
// every map entry, the last included.

module LegacyPrinting {
  import opened Operators
  import opened LegacyTree
  import ExprTree
  import Printing

  /** `get_precidence`: a `Binary` node's operator precedence, and whether there is one. */
  function NodePrecedence(infix: map<string, BinaryOp>, e: Expr): (r: (bool, int))
    ensures r.0 <==> e.Binary?
    ensures r.0 ==> r.1 == Precedence(infix, e.op)
  {
    match e
    case Binary(op, _, _) => (true, Precedence(infix, op))
    case _ => (false, 0)
  }

  /** `expr`. */
  function Expr(infix: map<string, BinaryOp>, e: LegacyTree.Expr, numberText: real -> string): string
    decreases e, 1, 0
  {
    match e
    case Bool(b) => if b then "true" else "false"
    case Number(n) => numberText(n)
    case String(s) => s
    case Reference(name) => name
    case Function(name, args) => name + "(" + ItemsText(infix, args, 0, ",", numberText) + ")"
    case Unary(op, rhs) => op + Expr(infix, rhs, numberText)
    case Binary(op, lhs, rhs) =>
      Operand(infix, lhs, op, numberText) + " " + op + " " + Operand(infix, rhs, op, numberText)
    case Ternary(cond, lhs, rhs) =>
      Branch(infix, cond, numberText) + " ? " + Branch(infix, lhs, numberText) + " : " + Branch(infix, rhs, numberText)
    case List(items) => "[" + ItemsText(infix, items, 0, ",", numberText) + "]"
    case Map(_) => "{" + PairsText(infix, e, 0, numberText) + "}"
    case Chain(exprs) => ItemsText(infix, exprs, 0, ";", numberText)
    case None => ""
  }

  /** One operand of `binary_expr`, parenthesised when it binds strictly looser than `op`. */
  function Operand(infix: map<string, BinaryOp>, child: LegacyTree.Expr, op: string, numberText: real -> string): string
    decreases child, 1, 1
  {
    var (binary, prec) := NodePrecedence(infix, child);
    if binary && prec < Precedence(infix, op) then "(" + Expr(infix, child, numberText) + ")"
    else Expr(infix, child, numberText)
  }

  /** One part of `ternary_expr`: a binary or ternary part is parenthesised. */
  function Branch(infix: map<string, BinaryOp>, part: LegacyTree.Expr, numberText: real -> string): string
    decreases part, 1, 1
  {
    if part.Binary? || part.Ternary? then "(" + Expr(infix, part, numberText) + ")"
    else Expr(infix, part, numberText)
  }

  /** The index loop of `function_expr`, `list_expr` and `chain_expr` from index `i`. */
  function ItemsText(infix: map<string, BinaryOp>, items: seq<LegacyTree.Expr>, i: nat, sep: string, numberText: real -> string): string
    requires i <= |items|
    decreases items, 0, |items| - i
  {
    if i == |items| then ""
    else
      Expr(infix, items[i], numberText) + (if i < |items| - 1 then sep else "")
        + ItemsText(infix, items, i + 1, sep, numberText)
  }

  /** The loop of `map_expr` from index `i`: every entry is `key:value, `. */
  function PairsText(infix: map<string, BinaryOp>, m: LegacyTree.Expr, i: nat, numberText: real -> string): string
    requires m.Map? && i <= |m.pairs|
    decreases m, 0, |m.pairs| - i
  {
    if i == |m.pairs| then ""
    else
      Expr(infix, m.pairs[i].0, numberText) + ":" + Expr(infix, m.pairs[i].1, numberText) + ", "
        + PairsText(infix, m, i + 1, numberText)
  }

  /** The texts of the items, in order. */
  function Rendered(infix: map<string, BinaryOp>, items: seq<LegacyTree.Expr>, numberText: real -> string): (r: seq<string>)
    ensures |r| == |items|
    ensures forall k :: 0 <= k < |items| ==> r[k] == Expr(infix, items[k], numberText)
  {
    seq(|items|, k requires 0 <= k < |items| => Expr(infix, items[k], numberText))
  }

  /** The `key:value` texts of a map's entries, in order. */
  function RenderedPairs(infix: map<string, BinaryOp>, m: LegacyTree.Expr, numberText: real -> string): (r: seq<string>)
    requires m.Map?
    ensures |r| == |m.pairs|
    ensures forall k :: 0 <= k < |m.pairs| ==>
      r[k] == Expr(infix, m.pairs[k].0, numberText) + ":" + Expr(infix, m.pairs[k].1, numberText)
  {
    seq(|m.pairs|, k requires 0 <= k < |m.pairs| =>
      Expr(infix, m.pairs[k].0, numberText) + ":" + Expr(infix, m.pairs[k].1, numberText))
  }

  /** The index loop writes the items' texts joined by the separator. */
  lemma {:induction false} ItemsTextIsJoin(infix: map<string, BinaryOp>, items: seq<LegacyTree.Expr>, i: nat, sep: string, numberText: real -> string)
    requires i <= |items|
    ensures ItemsText(infix, items, i, sep, numberText) == Printing.Join(Rendered(infix, items, numberText)[i..], sep)
    decreases |items| - i
  {
    var parts := Rendered(infix, items, numberText)[i..];
    if i < |items| {
      ItemsTextIsJoin(infix, items, i + 1, sep, numberText);
      assert parts[1..] == Rendered(infix, items, numberText)[i + 1..];
    }
  }

  /**
   * The map loop writes the `key:value` texts joined by `, `, and one more `, ` after
   * the last of them.
   */
  lemma {:induction false} PairsTextIsJoin(infix: map<string, BinaryOp>, m: LegacyTree.Expr, i: nat, numberText: real -> string)
    requires m.Map? && i <= |m.pairs|
    ensures PairsText(infix, m, i, numberText)
      == Printing.Join(RenderedPairs(infix, m, numberText)[i..], ", ") + (if i < |m.pairs| then ", " else "")
    decreases |m.pairs| - i
  {
    var parts := RenderedPairs(infix, m, numberText)[i..];
    if i < |m.pairs| {
      PairsTextIsJoin(infix, m, i + 1, numberText);
      assert parts[1..] == RenderedPairs(infix, m, numberText)[i + 1..];
    }
  }

  /**
   * The nodes both renderers write alike: literals other than strings, names, the
   * empty node, and binary operators, calls, lists and chains built of them.
   */
  predicate Plain(e: LegacyTree.Expr) {
    match e
    case Number(_) => true
    case Bool(_) => true
    case Reference(_) => true
    case None => true
    case Binary(_, lhs, rhs) => Plain(lhs) && Plain(rhs)
    case Function(_, args) => forall i :: 0 <= i < |args| ==> Plain(args[i])
    case List(items) => forall i :: 0 <= i < |items| ==> Plain(items[i])
    case Chain(exprs) => forall i :: 0 <= i < |exprs| ==> Plain(exprs[i])
    case _ => false
  }

  /** On plain trees the older renderer writes what the renderer of parser.rs writes for the translated tree. */
  lemma {:induction false} PlainTreesPrintAlike(infix: map<string, BinaryOp>, e: LegacyTree.Expr, numberText: real -> string)
    requires Plain(e)
    ensures Expr(infix, e, numberText) == Printing.Expr(infix, Translate(e), numberText)
    decreases e, 1
  {
    match e
    case Binary(op, lhs, rhs) =>
      PlainTreesPrintAlike(infix, lhs, numberText);
      PlainTreesPrintAlike(infix, rhs, numberText);
      BinaryPrintsAlike(infix, op, lhs, rhs, numberText);
    case Function(_, args) => PlainItemsPrintAlike(infix, args, 0, ",", numberText);
    case List(items) => PlainItemsPrintAlike(infix, items, 0, ",", numberText);
    case Chain(exprs) => PlainItemsPrintAlike(infix, exprs, 0, ";", numberText);
    case _ =>
  }

  /** A binary node prints alike once its operands do. */
  lemma BinaryPrintsAlike(infix: map<string, BinaryOp>, op: string, lhs: LegacyTree.Expr, rhs: LegacyTree.Expr, numberText: real -> string)
    requires Expr(infix, lhs, numberText) == Printing.Expr(infix, Translate(lhs), numberText)
    requires Expr(infix, rhs, numberText) == Printing.Expr(infix, Translate(rhs), numberText)
    ensures Expr(infix, Binary(op, lhs, rhs), numberText) == Printing.Expr(infix, Translate(Binary(op, lhs, rhs)), numberText)
  {
    assert Operand(infix, lhs, op, numberText) == Printing.Operand(infix, Translate(lhs), op, numberText);
    assert Operand(infix, rhs, op, numberText) == Printing.Operand(infix, Translate(rhs), op, numberText);
  }

  lemma {:induction false} PlainItemsPrintAlike(infix: map<string, BinaryOp>, items: seq<LegacyTree.Expr>, i: nat, sep: string, numberText: real -> string)
    requires i <= |items| && forall k :: 0 <= k < |items| ==> Plain(items[k])
    ensures ItemsText(infix, items, i, sep, numberText) == Printing.ItemsText(infix, TranslateAll(items), i, sep, numberText)
    decreases items, 0, |items| - i
  {
    if i < |items| {
      PlainTreesPrintAlike(infix, items[i], numberText);
      PlainItemsPrintAlike(infix, items, i + 1, sep, numberText);
    }
  }

  /**
   * The older renderer writes a prefix operator directly against its operand; the
   * current one puts a space between them.
   */
  lemma PrefixSpacing(infix: map<string, BinaryOp>, op: string, rhs: LegacyTree.Expr, numberText: real -> string)
    requires Plain(rhs)
    ensures Expr(infix, Unary(op, rhs), numberText) == op + Printing.Expr(infix, Translate(rhs), numberText)
    ensures Printing.Expr(infix, Translate(Unary(op, rhs)), numberText) == op + " " + Printing.Expr(infix, Translate(rhs), numberText)
  {
    PlainTreesPrintAlike(infix, rhs, numberText);
  }

  /** The older renderer writes a string's text bare; the current one puts it in double quotes. */
  lemma StringQuotes(infix: map<string, BinaryOp>, s: string, numberText: real -> string)
    ensures Expr(infix, String(s), numberText) == s
    ensures Printing.Expr(infix, Translate(String(s)), numberText) == "\"" + s + "\""
  {
  }

  /**
   * The older renderer puts a binary or ternary condition of a ternary in
   * parentheses; the current one writes the condition bare. A plain condition
   * has the same text in both, so the two outputs differ by exactly those
   * parentheses around it.
   */
  lemma TernaryParens(infix: map<string, BinaryOp>, cond: LegacyTree.Expr, lhs: LegacyTree.Expr, rhs: LegacyTree.Expr, numberText: real -> string)
    requires cond.Binary? || cond.Ternary?
    ensures Expr(infix, Ternary(cond, lhs, rhs), numberText)
      == "(" + Expr(infix, cond, numberText) + ") ? " + Branch(infix, lhs, numberText) + " : " + Branch(infix, rhs, numberText)
    ensures Printing.Expr(infix, Translate(Ternary(cond, lhs, rhs)), numberText)
      == Printing.Expr(infix, Translate(cond), numberText) + " ? " + Printing.Expr(infix, Translate(lhs), numberText)
        + " : " + Printing.Expr(infix, Translate(rhs), numberText)
    ensures Plain(cond) ==> Expr(infix, cond, numberText) == Printing.Expr(infix, Translate(cond), numberText)
  {
    OlderTernaryText(infix, cond, lhs, rhs, numberText);
    CurrentTernaryText(infix, Translate(cond), Translate(lhs), Translate(rhs), numberText);
    assert Translate(Ternary(cond, lhs, rhs)) == ExprTree.Ternary(Translate(cond), Translate(lhs), Translate(rhs));
    if Plain(cond) {
      PlainTreesPrintAlike(infix, cond, numberText);
    }
  }

  /** The older renderer writes each part of a ternary through `Branch`. */
  lemma OlderTernaryText(infix: map<string, BinaryOp>, cond: LegacyTree.Expr, lhs: LegacyTree.Expr, rhs: LegacyTree.Expr, numberText: real -> string)
    requires cond.Binary? || cond.Ternary?
    ensures Expr(infix, Ternary(cond, lhs, rhs), numberText)
      == "(" + Expr(infix, cond, numberText) + ") ? " + Branch(infix, lhs, numberText) + " : " + Branch(infix, rhs, numberText)
  {
    assert Branch(infix, cond, numberText) == "(" + Expr(infix, cond, numberText) + ")";
  }

  /** The current renderer writes the parts of a ternary bare. */
  lemma CurrentTernaryText(infix: map<string, BinaryOp>, cond: ExprTree.ExprAST, lhs: ExprTree.ExprAST, rhs: ExprTree.ExprAST, numberText: real -> string)
    ensures Printing.Expr(infix, ExprTree.Ternary(cond, lhs, rhs), numberText)
      == Printing.Expr(infix, cond, numberText) + " ? " + Printing.Expr(infix, lhs, numberText) + " : " + Printing.Expr(infix, rhs, numberText)
  {
  }

  /**
   * The older renderer writes the entries' `key:value` texts joined by `, ` and one
   * more `, ` after the last; the current one joins them by `,` alone.
   */
  lemma MapSeparator(infix: map<string, BinaryOp>, m: LegacyTree.Expr, numberText: real -> string)
    requires m.Map?
    ensures Expr(infix, m, numberText)
      == "{" + Printing.Join(RenderedPairs(infix, m, numberText), ", ") + (if |m.pairs| > 0 then ", " else "") + "}"
    ensures Printing.Expr(infix, Translate(m), numberText)
      == "{" + Printing.Join(Printing.RenderedPairs(infix, Translate(m), numberText), ",") + "}"
  {
    OlderMapText(infix, m, numberText);
    CurrentMapText(infix, Translate(m), numberText);
  }

  /** The older renderer writes a map's `key:value` texts each followed by `, `. */
  lemma OlderMapText(infix: map<string, BinaryOp>, m: LegacyTree.Expr, numberText: real -> string)
    requires m.Map?
    ensures Expr(infix, m, numberText)
      == "{" + Printing.Join(RenderedPairs(infix, m, numberText), ", ") + (if |m.pairs| > 0 then ", " else "") + "}"
  {
    var parts := RenderedPairs(infix, m, numberText);
    var body := PairsText(infix, m, 0, numberText);
    assert Expr(infix, m, numberText) == "{" + body + "}";
    PairsTextIsJoin(infix, m, 0, numberText);
    assert parts[0..] == parts;
    assert body == Printing.Join(parts, ", ") + (if |m.pairs| > 0 then ", " else "");
  }

  /** The current renderer writes a map's `key:value` texts joined by `,`. */
  lemma CurrentMapText(infix: map<string, BinaryOp>, t: ExprTree.ExprAST, numberText: real -> string)
    requires t.Map?
    ensures Printing.Expr(infix, t, numberText) == "{" + Printing.Join(Printing.RenderedPairs(infix, t, numberText), ",") + "}"
  {
    var parts := Printing.RenderedPairs(infix, t, numberText);
    Printing.PairsTextIsJoin(infix, t, 0, numberText);
    assert parts[0..] == parts;
  }
}
