// What the parser of parser.rs promises: how operators group, how `not` wraps, where
// the climb stops, how statements form a chain, and that input ending early fails.
//
// The lemmas speak of tokenizer states: `Advance(src, s) == Ok(t)` says that reading
// one token in state `s` leads to `t`, and `Primary(src, s) == Ok(Parsed(e, t))` that
// a primary `e` stands at `s` and ends at `t`.

module ParserLaws {
  import opened Errors
  import opened Tokens
  import opened Operators
  import opened Keywords
  import opened Lexer
  import opened ExprTree
  import opened Parsing

  /** End of input where an operand is due fails with `UnexpectedEOF(0)`. */
  lemma OperandAtEnd(src: Source, s: LexState)
    requires ValidState(src, s) && s.cur.EOF?
    ensures TokenExpr(src, s) == Err(UnexpectedEOF(0))
    ensures Primary(src, s) == Err(UnexpectedEOF(0))
    ensures Expression(src, s) == Err(UnexpectedEOF(0))
  {
  }

  /** A list, map or argument list still open at the end of input fails. */
  lemma UnclosedAtEnd(src: Source, s: LexState, items: seq<ExprAST>, pairs: seq<(ExprAST, ExprAST)>, name: string)
    requires ValidState(src, s) && s.cur.EOF?
    ensures BracketItems(src, s, items) == Err(ExpectedOpNotExist("]"))
    ensures BraceItems(src, s, pairs) == Err(ExpectedOpNotExist("}"))
    ensures CallArgs(src, s, name, items) == Err(UnexpectedEOF(0))
  {
    assert Advance(src, s) == Ok(s) by {
      assert s.pos == |src.input|;
    }
    OperandAtEnd(src, s);
  }

  /** A token that is no operator ends the climb; it is not consumed. */
  lemma ClimbStopsAtOperand(src: Source, s: LexState, execPrec: int, lhs: ExprAST, isNot: bool)
    requires ValidState(src, s) && !IsOpToken(s.cur)
    ensures OpClimb(src, s, execPrec, lhs, isNot) == Ok(Parsed(lhs, s))
  {
  }

  /**
   * An operator of precedence below the minimum ends the climb without being
   * consumed.
   */
  lemma ClimbStopsBelowMinimum(src: Source, s: LexState, execPrec: int, lhs: ExprAST, isNot: bool)
    requires ValidState(src, s) && IsBinopToken(s.cur) && !IsNotToken(s.cur)
    requires TokenPrecedence(src.reg.infix, s.cur) < execPrec
    ensures OpClimb(src, s, execPrec, lhs, isNot) == Ok(Parsed(lhs, s))
  {
  }

  /** An operator the infix table does not hold ends every climb. */
  lemma UnregisteredOperatorStops(src: Source, s: LexState, execPrec: int, lhs: ExprAST, isNot: bool)
    requires ValidState(src, s) && IsBinopToken(s.cur) && !IsNotToken(s.cur)
    requires s.cur.text !in src.reg.infix && execPrec >= 0
    ensures OpClimb(src, s, execPrec, lhs, isNot) == Ok(Parsed(lhs, s))
  {
    ClimbStopsBelowMinimum(src, s, execPrec, lhs, isNot);
  }

  /** So a pending `not` is dropped when the operator after it stops the climb. */
  lemma PendingNotDropped(src: Source, s: LexState, execPrec: int, lhs: ExprAST)
    requires ValidState(src, s) && IsBinopToken(s.cur) && !IsNotToken(s.cur)
    requires TokenPrecedence(src.reg.infix, s.cur) < execPrec
    ensures OpClimb(src, s, execPrec, lhs, true) == OpClimb(src, s, execPrec, lhs, false)
  {
  }

  /**
   * `a op1 b op2 c`, with `op1` at `s0`: when `op2` binds strictly tighter the
   * right operand of `op1` is `b op2 c`; otherwise `a op1 b` is the left operand of
   * `op2`, so operators of equal precedence group to the left.
   */
  lemma PrecedenceNesting(src: Source, a: ExprAST, b: ExprAST, c: ExprAST,
                          s0: LexState, s1: LexState, s2: LexState, s3: LexState, s4: LexState)
    requires ValidState(src, s0)
    requires IsBinopToken(s0.cur) && !IsNotToken(s0.cur) && Precedence(src.reg.infix, s0.cur.text) >= 0
    requires Advance(src, s0) == Ok(s1) && Primary(src, s1) == Ok(Parsed(b, s2))
    requires IsBinopToken(s2.cur) && !IsNotToken(s2.cur) && Precedence(src.reg.infix, s2.cur.text) >= 0
    requires Advance(src, s2) == Ok(s3) && Primary(src, s3) == Ok(Parsed(c, s4))
    requires !IsOpToken(s4.cur)
    ensures var op1, op2 := s0.cur.text, s2.cur.text;
      OpClimb(src, s0, 0, a, false) == Ok(Parsed(
        if Precedence(src.reg.infix, op1) < Precedence(src.reg.infix, op2)
        then Binary(op1, a, Binary(op2, b, c))
        else Binary(op2, Binary(op1, a, b), c),
        s4))
  {
    var op1, op2 := s0.cur.text, s2.cur.text;
    var p1, p2 := Precedence(src.reg.infix, op1), Precedence(src.reg.infix, op2);
    assert RightOperand(src, s2, p2) == Ok(Parsed(c, s4));
    if p1 < p2 {
      var inner := Binary(op2, b, c);
      assert OpClimb(src, s4, p1 + 1, inner, false) == Ok(Parsed(inner, s4));
      assert OpClimb(src, s2, p1 + 1, b, false) == Ok(Parsed(inner, s4));
      assert RightOperand(src, s0, p1) == Ok(Parsed(inner, s4));
      assert OpClimb(src, s4, 0, Binary(op1, a, inner), false) == Ok(Parsed(Binary(op1, a, inner), s4));
    } else {
      var left := Binary(op1, a, b);
      assert RightOperand(src, s0, p1) == Ok(Parsed(b, s2));
      assert OpClimb(src, s4, 0, Binary(op2, left, c), false) == Ok(Parsed(Binary(op2, left, c), s4));
      assert OpClimb(src, s2, 0, left, false) == Ok(Parsed(Binary(op2, left, c), s4));
    }
  }

  /** `a not op b` is `not (a op b)`. */
  lemma NotWrapsBinary(src: Source, a: ExprAST, b: ExprAST, s0: LexState, s1: LexState, s2: LexState, s3: LexState)
    requires ValidState(src, s0) && IsNotToken(s0.cur)
    requires Advance(src, s0) == Ok(s1)
    requires IsBinopToken(s1.cur) && !IsNotToken(s1.cur) && Precedence(src.reg.infix, s1.cur.text) >= 0
    requires Advance(src, s1) == Ok(s2) && Primary(src, s2) == Ok(Parsed(b, s3))
    requires !IsOpToken(s3.cur)
    ensures OpClimb(src, s0, 0, a, false) == Ok(Parsed(Unary("not", Binary(s1.cur.text, a, b)), s3))
  {
    var op := s1.cur.text;
    var node := Unary("not", Binary(op, a, b));
    assert RightOperand(src, s1, Precedence(src.reg.infix, op)) == Ok(Parsed(b, s3));
    assert OpClimb(src, s3, 0, node, false) == Ok(Parsed(node, s3));
    assert OpClimb(src, s1, 0, a, true) == Ok(Parsed(node, s3));
  }

  /** `not` must be followed by a binary operator token. */
  lemma NotNeedsOperator(src: Source, s0: LexState, s1: LexState, execPrec: int, lhs: ExprAST, isNot: bool)
    requires ValidState(src, s0) && IsNotToken(s0.cur)
    requires Advance(src, s0) == Ok(s1) && !IsBinopToken(s1.cur)
    ensures OpClimb(src, s0, execPrec, lhs, isNot) == Err(ExpectBinOpToken)
  {
  }

  /** `cond ? a : b` after a condition `lhs`; both branches are full expressions. */
  lemma TernaryShape(src: Source, lhs: ExprAST, a: ExprAST, b: ExprAST,
                     s0: LexState, s1: LexState, s2: LexState, s3: LexState, s4: LexState)
    requires ValidState(src, s0) && IsQuestionMark(s0.cur)
    requires Advance(src, s0) == Ok(s1) && Expression(src, s1) == Ok(Parsed(a, s2))
    requires ExpectOp(src, s2, ":") == Ok(s3) && Expression(src, s3) == Ok(Parsed(b, s4))
    ensures OpClimb(src, s0, 0, lhs, false) == Ok(Parsed(Ternary(lhs, a, b), s4))
  {
    ClimbAtQuestionMark(src, s0, 0, lhs, false);
    assert TernaryBranches(src, s1, lhs) == Ok(Parsed(Ternary(lhs, a, b), s4));
  }

  /** At a `?` the climb hands over to the ternary branch. */
  lemma ClimbAtQuestionMark(src: Source, s: LexState, execPrec: int, lhs: ExprAST, isNot: bool)
    requires ValidState(src, s) && IsQuestionMark(s.cur)
    ensures !s.cur.EOF? && OpClimb(src, s, execPrec, lhs, isNot) == TernaryTail(src, s, lhs)
  {
  }

  /** Input that holds no statement is the empty chain. */
  lemma EmptyInputIsEmptyChain(src: Source, s: LexState)
    requires ValidState(src, s) && s.cur.EOF?
    ensures ChainExpression(src, s) == Ok(Parsed(Chain([]), s))
  {
  }

  /** One statement that runs to the end stands for itself, with or without a final `;`. */
  lemma SingleStatement(src: Source, s: LexState, e: ExprAST, t: LexState)
    requires ValidState(src, s) && !s.cur.EOF?
    requires Expression(src, s) == Ok(Parsed(e, t))
    requires t.cur.EOF? || (IsSemicolon(t.cur) && Advance(src, t).Ok? && Advance(src, t).value.cur.EOF?)
    ensures ChainExpression(src, s).Ok? && ChainExpression(src, s).value.value == e
  {
    assert [] + [e] == [e];
    if t.cur.EOF? {
      assert ChainItems(src, t, [e]) == Ok(Parsed([e], t));
      assert ChainItems(src, s, []) == Ok(Parsed([e], t));
    } else {
      var u := Advance(src, t).value;
      assert ChainItems(src, u, [e]) == Ok(Parsed([e], u));
      assert ChainItems(src, s, []) == Ok(Parsed([e], u));
    }
  }

  /**
   * Two statements make a two-item chain, in order; the `;` between them may be left
   * out.
   */
  lemma TwoStatements(src: Source, s0: LexState, e1: ExprAST, s1: LexState, s2: LexState, e2: ExprAST, s3: LexState)
    requires ValidState(src, s0) && !s0.cur.EOF?
    requires Expression(src, s0) == Ok(Parsed(e1, s1))
    requires if IsSemicolon(s1.cur) then Advance(src, s1) == Ok(s2) else s2 == s1
    requires !s2.cur.EOF? && Expression(src, s2) == Ok(Parsed(e2, s3)) && s3.cur.EOF?
    ensures ChainExpression(src, s0) == Ok(Parsed(Chain([e1, e2]), s3))
  {
    assert [] + [e1] == [e1] && [e1] + [e2] == [e1, e2];
    var tail := ChainItems(src, s2, [e1]);
    assert ChainItems(src, s3, [e1, e2]) == Ok(Parsed([e1, e2], s3));
    assert tail == Ok(Parsed([e1, e2], s3));
    assert ChainItems(src, s0, []) == tail;
  }

  /** A successful parse has read the whole input. */
  lemma ParseReadsEverything(src: Source, s: LexState)
    requires ValidState(src, s)
    requires ChainExpression(src, s).Ok?
    ensures ChainExpression(src, s).value.rest.cur.EOF?
    ensures ChainExpression(src, s).value.rest.pos == |src.input|
  {
  }
}
