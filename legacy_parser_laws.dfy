// What the older parser of ast.rs does: every successful `parse_expression` runs to
// the end of input, so every bracket, brace, argument list or ternary with
// something inside it fails; the end of input in operand position is `None`; and
// binary operators group as in parser.rs.

module LegacyParserLaws {
  import opened Errors
  import opened Tokens
  import opened Lexer
  import opened LegacyTree
  import opened LegacyParsing
  import P = Parsing

  /** A successful statement loop has read the whole input. */
  lemma {:induction false} ExprItemsRunToEnd(src: Source, s: LexState, items: seq<Expr>)
    requires ValidState(src, s)
    ensures ExprItems(src, s, items).Ok? ==> ExprItems(src, s, items).value.rest.cur.EOF?
    decreases Measure(src, s)
  {
    var e := Statement(src, s);
    if e.Ok? && !e.value.rest.cur.EOF? {
      var acc := items + [e.value.value];
      if IsSemicolon(e.value.rest.cur) {
        var next := P.Advance(src, e.value.rest);
        if next.Ok? {
          ExprItemsRunToEnd(src, next.value, acc);
        }
      } else {
        ExprItemsRunToEnd(src, e.value.rest, acc);
      }
    }
  }

  /** So does every successful `parse_expression`. */
  lemma ExpressionRunsToEnd(src: Source, s: LexState)
    requires ValidState(src, s)
    ensures Expression(src, s).Ok? ==> Expression(src, s).value.rest.cur.EOF?
    ensures Expression(src, s).Ok? ==> Expression(src, s).value.rest.pos == |src.input|
  {
    ExprItemsRunToEnd(src, s, []);
  }

  /** At the end of input an operand is the empty node, and so is a whole expression. */
  lemma EndIsNone(src: Source, s: LexState)
    requires ValidState(src, s) && s.cur.EOF?
    ensures Primary(src, s) == Ok(P.Parsed(Expr.None, s))
    ensures Expression(src, s) == Ok(P.Parsed(Expr.None, s))
  {
    assert [] + [Expr.None] == [Expr.None];
  }

  /** Reading `,` when the input has ended fails: `EOF` is no bracket, operator or comma. */
  lemma ExpectAtEnd(src: Source, s: LexState, op: string)
    requires ValidState(src, s) && s.cur.EOF?
    ensures P.ExpectOp(src, s, op) == Err(ExpectedOpNotExist(op))
  {
    assert P.Advance(src, s) == Ok(s) by {
      assert s.pos == |src.input|;
    }
  }

  /** A parenthesised expression never parses: the inner expression has consumed the `)`. */
  lemma ParenNeverCloses(src: Source, s: LexState)
    requires ValidState(src, s) && s.cur.Delim?
    ensures !ParenExpr(src, s).Ok?
    ensures P.Advance(src, s).Ok? && Expression(src, P.Advance(src, s).value).Ok? ==>
      ParenExpr(src, s) == Err(NoCloseDelim)
  {
    var next := P.Advance(src, s);
    if next.Ok? {
      ExpressionRunsToEnd(src, next.value);
    }
  }

  /** The item loop of a list never succeeds: after the first item only `EOF` is left. */
  lemma BracketItemsFail(src: Source, s: LexState, items: seq<Expr>)
    requires ValidState(src, s)
    ensures !BracketItems(src, s, items).Ok?
    ensures Expression(src, s).Ok? ==> BracketItems(src, s, items) == Err(ExpectedOpNotExist(","))
  {
    ExpressionRunsToEnd(src, s);
    var item := Expression(src, s);
    if item.Ok? {
      ExpectAtEnd(src, item.value.rest, ",");
    }
  }

  /** So the only list that parses is `[]`, and it consumes its `]`. */
  lemma OnlyEmptyList(src: Source, s: LexState)
    requires ValidState(src, s) && s.cur.Delim?
    ensures BracketExpr(src, s).Ok? ==> BracketExpr(src, s).value.value == List([])
    ensures BracketExpr(src, s).Ok? ==> IsCloseBracket(P.Advance(src, s).value.cur)
  {
    var next := P.Advance(src, s);
    if next.Ok? && !IsCloseBracket(next.value.cur) {
      BracketItemsFail(src, next.value, []);
    }
  }

  /** The pair loop of a map never succeeds: after the first key only `EOF` is left. */
  lemma BraceItemsFail(src: Source, s: LexState, pairs: seq<(Expr, Expr)>)
    requires ValidState(src, s)
    ensures !BraceItems(src, s, pairs).Ok?
    ensures Expression(src, s).Ok? ==> BraceItems(src, s, pairs) == Err(ExpectedOpNotExist(":"))
  {
    ExpressionRunsToEnd(src, s);
    var key := Expression(src, s);
    if key.Ok? {
      ExpectAtEnd(src, key.value.rest, ":");
    }
  }

  /** So the only map that parses is `{}`, and it leaves its `}` as the current token. */
  lemma OnlyEmptyMap(src: Source, s: LexState)
    requires ValidState(src, s) && s.cur.Delim?
    ensures BraceExpr(src, s).Ok? ==> BraceExpr(src, s).value == P.Parsed(Map([]), P.Advance(src, s).value)
    ensures BraceExpr(src, s).Ok? ==> IsCloseBrace(BraceExpr(src, s).value.rest.cur)
  {
    var next := P.Advance(src, s);
    if next.Ok? && !IsCloseBrace(next.value.cur) {
      BraceItemsFail(src, next.value, []);
    }
  }

  /** The argument loop of a call never succeeds, so only calls without arguments parse. */
  lemma OnlyCallsWithoutArguments(src: Source, s: LexState, name: string)
    requires ValidState(src, s) && s.cur.Function?
    ensures FunctionCall(src, s, name).Ok? ==> FunctionCall(src, s, name).value.value == Expr.Function(name, [])
  {
    var next := P.Advance(src, s);
    if next.Ok? {
      var open := P.ExpectOp(src, next.value, "(");
      if open.Ok? && !IsCloseParen(open.value.cur) {
        CallArgsFail(src, open.value, name, []);
      }
    }
  }

  lemma CallArgsFail(src: Source, s: LexState, name: string, args: seq<Expr>)
    requires ValidState(src, s)
    ensures !CallArgs(src, s, name, args).Ok?
    ensures Expression(src, s).Ok? ==> CallArgs(src, s, name, args) == Err(ExpectedOpNotExist(","))
  {
    ExpressionRunsToEnd(src, s);
    var arg := Expression(src, s);
    if arg.Ok? {
      ExpectAtEnd(src, arg.value.rest, ",");
    }
  }

  /**
   * A ternary never parses: its first branch runs to the end of input, so the `:`
   * is missing, and `InvalidTernaryExprNeedColon` is the error whenever that branch
   * parses.
   */
  lemma TernaryNeverParses(src: Source, s: LexState, cond: Expr)
    requires ValidState(src, s) && !s.cur.EOF?
    ensures !Terop(src, s, cond).Ok?
    ensures P.Advance(src, s).Ok? && Expression(src, P.Advance(src, s).value).Ok? ==>
      Terop(src, s, cond) == Err(InvalidTernaryExprNeedColon)
  {
    var next := P.Advance(src, s);
    if next.Ok? {
      ExpressionRunsToEnd(src, next.value);
    }
  }

  /**
   * `a op1 b op2 c`, with `op1` at `s0`: when `op2` binds strictly tighter the right
   * operand of `op1` is `b op2 c`; otherwise `a op1 b` is the left operand of `op2`.
   */
  lemma PrecedenceNesting(src: Source, a: Expr, b: Expr, c: Expr,
                          s0: LexState, s1: LexState, s2: LexState, s3: LexState, s4: LexState)
    requires ValidState(src, s0)
    requires IsBinopToken(s0.cur) && P.TokenPrecedence(src.reg.infix, s0.cur) >= 0
    requires P.Advance(src, s0) == Ok(s1) && Primary(src, s1) == Ok(P.Parsed(b, s2))
    requires IsBinopToken(s2.cur) && P.TokenPrecedence(src.reg.infix, s2.cur) >= 0
    requires P.Advance(src, s2) == Ok(s3) && Primary(src, s3) == Ok(P.Parsed(c, s4))
    requires !IsBinopToken(s4.cur)
    ensures var op1, op2 := s0.cur.text, s2.cur.text;
      Binop(src, s0, 0, a) == Ok(P.Parsed(
        if P.TokenPrecedence(src.reg.infix, s0.cur) < P.TokenPrecedence(src.reg.infix, s2.cur)
        then Binary(op1, a, Binary(op2, b, c))
        else Binary(op2, Binary(op1, a, b), c),
        s4))
  {
    if P.TokenPrecedence(src.reg.infix, s0.cur) < P.TokenPrecedence(src.reg.infix, s2.cur) {
      TighterNests(src, a, b, c, s0, s1, s2, s3, s4);
    } else {
      LooserGroupsLeft(src, a, b, c, s0, s1, s2, s3, s4);
    }
  }

  lemma TighterNests(src: Source, a: Expr, b: Expr, c: Expr,
                     s0: LexState, s1: LexState, s2: LexState, s3: LexState, s4: LexState)
    requires ValidState(src, s0)
    requires IsBinopToken(s0.cur) && P.TokenPrecedence(src.reg.infix, s0.cur) >= 0
    requires P.Advance(src, s0) == Ok(s1) && Primary(src, s1) == Ok(P.Parsed(b, s2))
    requires IsBinopToken(s2.cur) && P.TokenPrecedence(src.reg.infix, s2.cur) >= 0
    requires P.Advance(src, s2) == Ok(s3) && Primary(src, s3) == Ok(P.Parsed(c, s4))
    requires !IsBinopToken(s4.cur)
    requires P.TokenPrecedence(src.reg.infix, s0.cur) < P.TokenPrecedence(src.reg.infix, s2.cur)
    ensures Binop(src, s0, 0, a) == Ok(P.Parsed(Binary(s0.cur.text, a, Binary(s2.cur.text, b, c)), s4))
  {
    var p1 := P.TokenPrecedence(src.reg.infix, s0.cur);
    var inner := Binary(s2.cur.text, b, c);
    BinopStep(src, s2, s3, s4, p1 + 1, b, c);
    assert Binop(src, s2, p1 + 1, b) == Ok(P.Parsed(inner, s4));
    BinopNestedStep(src, s0, s1, s2, 0, a, b, inner, s4);
  }

  /**
   * One operator whose right operand is followed by a tighter one: the nested climb
   * from the next precedence up gives the right operand, and the climb goes on after it.
   */
  lemma BinopNestedStep(src: Source, s: LexState, n: LexState, t: LexState, execPrec: int, lhs: Expr, x: Expr,
                        y: Expr, u: LexState)
    requires ValidState(src, s) && IsBinopToken(s.cur)
    requires P.TokenPrecedence(src.reg.infix, s.cur) >= execPrec
    requires P.Advance(src, s) == Ok(n) && Primary(src, n) == Ok(P.Parsed(x, t))
    requires IsBinopToken(t.cur) && P.TokenPrecedence(src.reg.infix, s.cur) < P.TokenPrecedence(src.reg.infix, t.cur)
    requires Binop(src, t, P.TokenPrecedence(src.reg.infix, s.cur) + 1, x) == Ok(P.Parsed(y, u))
    ensures Binop(src, s, execPrec, lhs) == Binop(src, u, execPrec, Binary(s.cur.text, lhs, y))
  {
  }

  /**
   * One operator whose right operand is not followed by a tighter one: it folds onto
   * `lhs` and the climb goes on after the operand.
   */
  lemma BinopStep(src: Source, s: LexState, n: LexState, t: LexState, execPrec: int, lhs: Expr, x: Expr)
    requires ValidState(src, s) && IsBinopToken(s.cur)
    requires P.TokenPrecedence(src.reg.infix, s.cur) >= execPrec
    requires P.Advance(src, s) == Ok(n) && Primary(src, n) == Ok(P.Parsed(x, t))
    requires !IsBinopToken(t.cur) || P.TokenPrecedence(src.reg.infix, t.cur) <= P.TokenPrecedence(src.reg.infix, s.cur)
    ensures Binop(src, s, execPrec, lhs) == Binop(src, t, execPrec, Binary(s.cur.text, lhs, x))
  {
  }

  lemma LooserGroupsLeft(src: Source, a: Expr, b: Expr, c: Expr,
                         s0: LexState, s1: LexState, s2: LexState, s3: LexState, s4: LexState)
    requires ValidState(src, s0)
    requires IsBinopToken(s0.cur) && P.TokenPrecedence(src.reg.infix, s0.cur) >= 0
    requires P.Advance(src, s0) == Ok(s1) && Primary(src, s1) == Ok(P.Parsed(b, s2))
    requires IsBinopToken(s2.cur) && P.TokenPrecedence(src.reg.infix, s2.cur) >= 0
    requires P.Advance(src, s2) == Ok(s3) && Primary(src, s3) == Ok(P.Parsed(c, s4))
    requires !IsBinopToken(s4.cur)
    requires P.TokenPrecedence(src.reg.infix, s0.cur) >= P.TokenPrecedence(src.reg.infix, s2.cur)
    ensures Binop(src, s0, 0, a) == Ok(P.Parsed(Binary(s2.cur.text, Binary(s0.cur.text, a, b), c), s4))
  {
    var left := Binary(s0.cur.text, a, b);
    BinopStep(src, s0, s1, s2, 0, a, b);
    BinopStep(src, s2, s3, s4, 0, left, c);
  }

  /** A binary operator at the end of input takes the empty node as its right operand. */
  lemma DanglingOperator(src: Source, a: Expr, s0: LexState, s1: LexState)
    requires ValidState(src, s0)
    requires IsBinopToken(s0.cur) && P.TokenPrecedence(src.reg.infix, s0.cur) >= 0
    requires P.Advance(src, s0) == Ok(s1) && s1.cur.EOF?
    ensures Binop(src, s0, 0, a) == Ok(P.Parsed(Binary(s0.cur.text, a, Expr.None), s1))
  {
    assert Binop(src, s1, 0, Binary(s0.cur.text, a, Expr.None)) == Ok(P.Parsed(Binary(s0.cur.text, a, Expr.None), s1));
  }

  /**
   * A statement ending in `;` at the end of input is followed by the empty
   * statement, so `e;` parses as `Chain([e, None])`.
   */
  lemma TrailingSemicolon(src: Source, s: LexState, e: Expr, t: LexState, u: LexState)
    requires ValidState(src, s)
    requires Primary(src, s) == Ok(P.Parsed(e, t)) && IsSemicolon(t.cur)
    requires P.Advance(src, t) == Ok(u) && u.cur.EOF?
    ensures Expression(src, s) == Ok(P.Parsed(Chain([e, Expr.None]), u))
  {
    assert [] + [e] == [e] && [e] + [Expr.None] == [e, Expr.None];
    assert Statement(src, s) == Ok(P.Parsed(e, t));
    assert ExprItems(src, u, [e]) == Ok(P.Parsed(Chain([e, Expr.None]), u));
  }

  /** Two statements separated by `;` make a two-item chain, in order. */
  lemma TwoStatements(src: Source, s0: LexState, e1: Expr, s1: LexState, s2: LexState, e2: Expr, s3: LexState)
    requires ValidState(src, s0)
    requires Primary(src, s0) == Ok(P.Parsed(e1, s1)) && IsSemicolon(s1.cur)
    requires P.Advance(src, s1) == Ok(s2) && Primary(src, s2) == Ok(P.Parsed(e2, s3))
    requires s3.cur.EOF?
    ensures Expression(src, s0) == Ok(P.Parsed(Chain([e1, e2]), s3))
  {
    assert [] + [e1] == [e1] && [e1] + [e2] == [e1, e2];
    assert Statement(src, s0) == Ok(P.Parsed(e1, s1));
    assert Statement(src, s2) == Ok(P.Parsed(e2, s3));
    assert ExprItems(src, s2, [e1]) == Ok(P.Parsed(Chain([e1, e2]), s3));
  }
}
