// The `AST` parser of ast.rs, an older parser over the same tokenizer.
//
// It differs from the parser of parser.rs in the places its own code does: the end
// of input in operand position is the empty node `None`; there is no postfix
// operator and no infix `not`; `parse_expression` is itself the statement loop and
// runs to the end of input; and `?` is recognised only right after one primary.
// Because every inner `parse_expression` runs to the end of input, a bracket,
// brace, call or ternary with anything inside it cannot be closed. That is proved
// in LegacyParserLaws rather than stated here, so that the specification keeps the
// source's branches after each inner expression.

module LegacyParsing {
  import opened Errors
  import opened Tokens
  import opened Operators
  import opened Lexer
  import opened LegacyTree
  import P = Parsing

  type LexState = P.LexState
  type Parsed<T> = P.Parsed<T>

  predicate ValidState(src: Source, s: LexState) { P.ValidState(src, s) }

  function Measure(src: Source, s: LexState): nat
    requires s.pos <= |src.input|
  {
    P.Measure(src, s)
  }

  // ---------------------------------------------------------------- the specification

  /** `parse_token`: one literal, reference, call, prefixed term or bracketed term; `None` at the end. */
  function TokenExpr(src: Source, s: LexState): (r: Result<Parsed<Expr>>)
    requires ValidState(src, s)
    ensures !r.Panic?
    ensures r.Ok? ==> ValidState(src, r.value.rest) && Measure(src, r.value.rest) <= Measure(src, s)
    ensures r.Ok? && !s.cur.EOF? ==> Measure(src, r.value.rest) < Measure(src, s)
    ensures s.cur.EOF? ==> r == Ok(P.Parsed(Expr.None, s))
    decreases Measure(src, s), 3
  {
    match s.cur
    case Number(v, _) =>
      var next :- P.Advance(src, s);
      Ok(P.Parsed(Expr.Number(v), next))
    case Bool(b, _) =>
      var next :- P.Advance(src, s);
      Ok(P.Parsed(Expr.Bool(b), next))
    case String(text, _) =>
      var next :- P.Advance(src, s);
      Ok(P.Parsed(Expr.String(text), next))
    case Reference(name, _) =>
      var next :- P.Advance(src, s);
      Ok(P.Parsed(Expr.Reference(name), next))
    case Function(name, _) => FunctionCall(src, s, name)
    case Operator(op, _) => UnaryExpr(src, s, op)
    case Delim(d, _) => Delimited(src, s, d)
    case EOF => Ok(P.Parsed(Expr.None, s))
    case Comma(_, _) => Err(UnexpectedToken)
    case Semicolon(_, _) => Err(UnexpectedToken)
  }

  /** `parse_primary`: exactly one token expression, with no postfix operator. */
  function Primary(src: Source, s: LexState): (r: Result<Parsed<Expr>>)
    requires ValidState(src, s)
    ensures !r.Panic?
    ensures r.Ok? ==> ValidState(src, r.value.rest) && Measure(src, r.value.rest) <= Measure(src, s)
    ensures r.Ok? && !s.cur.EOF? ==> Measure(src, r.value.rest) < Measure(src, s)
    ensures s.cur.EOF? ==> r == Ok(P.Parsed(Expr.None, s))
    decreases Measure(src, s), 4
  {
    TokenExpr(src, s)
  }

  /** `parse_expression`: statements up to the end of input; one stands for itself. */
  function Expression(src: Source, s: LexState): (r: Result<Parsed<Expr>>)
    requires ValidState(src, s)
    ensures !r.Panic?
    ensures r.Ok? ==> ValidState(src, r.value.rest) && Measure(src, r.value.rest) <= Measure(src, s)
    decreases Measure(src, s), 7
  {
    ExprItems(src, s, [])
  }

  /**
   * The loop of `parse_expression`; `items` are the statements read so far. Each
   * statement is a primary, then a ternary tail when `?` follows, else a climb from
   * precedence 0; a `;` after it is skipped, and anything else starts the next
   * statement.
   */
  function ExprItems(src: Source, s: LexState, items: seq<Expr>): (r: Result<Parsed<Expr>>)
    requires ValidState(src, s)
    ensures !r.Panic?
    ensures r.Ok? ==> ValidState(src, r.value.rest) && Measure(src, r.value.rest) <= Measure(src, s)
    decreases Measure(src, s), 6
  {
    var e :- Statement(src, s);
    var acc := items + [e.value];
    if e.rest.cur.EOF? then Ok(P.Parsed(if |acc| == 1 then acc[0] else Chain(acc), e.rest))
    else if IsSemicolon(e.rest.cur) then
      var next :- P.Advance(src, e.rest);
      ExprItems(src, next, acc)
    else
      ExprItems(src, e.rest, acc)
  }

  /**
   * One statement of `parse_expression`: a primary, then a ternary tail when `?`
   * follows, else a climb from precedence 0 when a binary operator follows.
   */
  function Statement(src: Source, s: LexState): (r: Result<Parsed<Expr>>)
    requires ValidState(src, s)
    ensures !r.Panic?
    ensures r.Ok? ==> ValidState(src, r.value.rest) && Measure(src, r.value.rest) <= Measure(src, s)
    ensures r.Ok? && !s.cur.EOF? ==> Measure(src, r.value.rest) < Measure(src, s)
    ensures s.cur.EOF? ==> r == Ok(P.Parsed(Expr.None, s))
    decreases Measure(src, s), 5
  {
    var lhs :- Primary(src, s);
    if IsQuestionMark(lhs.rest.cur) then Terop(src, lhs.rest, lhs.value)
    else if IsBinopToken(lhs.rest.cur) then Binop(src, lhs.rest, 0, lhs.value)
    else Ok(lhs)
  }

  /**
   * `parse_binop`: folds binary operators of precedence `execPrec` and above onto
   * `lhs`; a right operand is extended by a nested climb when the operator after it
   * binds strictly tighter.
   */
  function Binop(src: Source, s: LexState, execPrec: int, lhs: Expr): (r: Result<Parsed<Expr>>)
    requires ValidState(src, s)
    ensures !r.Panic?
    ensures r.Ok? ==> ValidState(src, r.value.rest) && Measure(src, r.value.rest) <= Measure(src, s)
    decreases Measure(src, s), 5
  {
    if !IsBinopToken(s.cur) then Ok(P.Parsed(lhs, s))
    else
      var tokPrec := P.TokenPrecedence(src.reg.infix, s.cur);
      if tokPrec < execPrec then Ok(P.Parsed(lhs, s))
      else
        var next :- P.Advance(src, s);
        var rhs :- BinopOperand(src, next, tokPrec);
        Binop(src, rhs.rest, execPrec, Binary(s.cur.text, lhs, rhs.value))
  }

  /**
   * The right operand of an operator of precedence `tokPrec` in `parse_binop`: a
   * primary, extended by a nested climb from `tokPrec + 1` when the operator after
   * it binds strictly tighter.
   */
  function BinopOperand(src: Source, s: LexState, tokPrec: int): (r: Result<Parsed<Expr>>)
    requires ValidState(src, s)
    ensures !r.Panic?
    ensures r.Ok? ==> ValidState(src, r.value.rest) && Measure(src, r.value.rest) <= Measure(src, s)
    decreases Measure(src, s), 5
  {
    var rhs :- Primary(src, s);
    if IsBinopToken(rhs.rest.cur) && tokPrec < P.TokenPrecedence(src.reg.infix, rhs.rest.cur) then
      Binop(src, rhs.rest, tokPrec + 1, rhs.value)
    else
      Ok(rhs)
  }

  /** `parse_terop`: after the condition, `?`, an expression, `:` and an expression. */
  function Terop(src: Source, s: LexState, cond: Expr): (r: Result<Parsed<Expr>>)
    requires ValidState(src, s) && !s.cur.EOF?
    ensures !r.Panic?
    ensures r.Ok? ==> ValidState(src, r.value.rest) && Measure(src, r.value.rest) < Measure(src, s)
    decreases Measure(src, s), 5
  {
    var next :- P.Advance(src, s);
    TeropBranches(src, next, cond)
  }

  /** What follows the `?` in `parse_terop`: an expression, `:` and an expression. */
  function TeropBranches(src: Source, s: LexState, cond: Expr): (r: Result<Parsed<Expr>>)
    requires ValidState(src, s)
    ensures !r.Panic?
    ensures r.Ok? ==> ValidState(src, r.value.rest) && Measure(src, r.value.rest) < Measure(src, s)
    decreases Measure(src, s), 8
  {
    var a :- Expression(src, s);
    if !IsColon(a.rest.cur) then Err(InvalidTernaryExprNeedColon)
    else
      var colon :- P.Advance(src, a.rest);
      var b :- Expression(src, colon);
      Ok(P.Parsed(Ternary(cond, a.value, b.value), b.rest))
  }

  /** `parse_delim`: only an opening bracket can start a term. */
  function Delimited(src: Source, s: LexState, d: DelimTokenType): (r: Result<Parsed<Expr>>)
    requires ValidState(src, s) && s.cur.Delim?
    ensures !r.Panic?
    ensures r.Ok? ==> ValidState(src, r.value.rest) && Measure(src, r.value.rest) < Measure(src, s)
    decreases Measure(src, s), 2
  {
    match d
    case OpenParen => ParenExpr(src, s)
    case OpenBracket => BracketExpr(src, s)
    case OpenBrace => BraceExpr(src, s)
    case _ => Err(NoOpenDelim)
  }

  /** `parse_open_paren`: `( expression )`. */
  function ParenExpr(src: Source, s: LexState): (r: Result<Parsed<Expr>>)
    requires ValidState(src, s) && s.cur.Delim?
    ensures !r.Panic?
    ensures r.Ok? ==> ValidState(src, r.value.rest) && Measure(src, r.value.rest) < Measure(src, s)
    decreases Measure(src, s), 1
  {
    var next :- P.Advance(src, s);
    var inner :- Expression(src, next);
    if !IsCloseParen(inner.rest.cur) then Err(NoCloseDelim)
    else
      var after :- P.Advance(src, inner.rest);
      Ok(P.Parsed(inner.value, after))
  }

  /** `parse_open_bracket`: `[]` is read whole; otherwise the items follow. */
  function BracketExpr(src: Source, s: LexState): (r: Result<Parsed<Expr>>)
    requires ValidState(src, s) && s.cur.Delim?
    ensures !r.Panic?
    ensures r.Ok? ==> ValidState(src, r.value.rest) && Measure(src, r.value.rest) < Measure(src, s)
    decreases Measure(src, s), 1
  {
    var next :- P.Advance(src, s);
    if IsCloseBracket(next.cur) then
      var after :- P.Advance(src, next);
      Ok(P.Parsed(List([]), after))
    else
      BracketItems(src, next, [])
  }

  /** The loop of `parse_open_bracket`; `items` have been read. */
  function BracketItems(src: Source, s: LexState, items: seq<Expr>): (r: Result<Parsed<Expr>>)
    requires ValidState(src, s)
    ensures !r.Panic?
    ensures r.Ok? ==> ValidState(src, r.value.rest) && Measure(src, r.value.rest) <= Measure(src, s)
    decreases Measure(src, s), 8
  {
    var item :- Expression(src, s);
    if IsCloseBracket(item.rest.cur) then
      var after :- P.Advance(src, item.rest);
      Ok(P.Parsed(List(items + [item.value]), after))
    else
      var comma :- P.ExpectOp(src, item.rest, ",");
      BracketItems(src, comma, items + [item.value])
  }

  /** `parse_open_brace`: `{}` leaves the `}` unread; otherwise the pairs follow. */
  function BraceExpr(src: Source, s: LexState): (r: Result<Parsed<Expr>>)
    requires ValidState(src, s) && s.cur.Delim?
    ensures !r.Panic?
    ensures r.Ok? ==> ValidState(src, r.value.rest) && Measure(src, r.value.rest) < Measure(src, s)
    decreases Measure(src, s), 1
  {
    var next :- P.Advance(src, s);
    if IsCloseBrace(next.cur) then Ok(P.Parsed(Map([]), next))
    else BraceItems(src, next, [])
  }

  /** The loop of `parse_open_brace`; `pairs` have been read. */
  function BraceItems(src: Source, s: LexState, pairs: seq<(Expr, Expr)>): (r: Result<Parsed<Expr>>)
    requires ValidState(src, s)
    ensures !r.Panic?
    ensures r.Ok? ==> ValidState(src, r.value.rest) && Measure(src, r.value.rest) <= Measure(src, s)
    decreases Measure(src, s), 8
  {
    var key :- Expression(src, s);
    var colon :- P.ExpectOp(src, key.rest, ":");
    var value :- Expression(src, colon);
    if IsCloseBrace(value.rest.cur) then
      var after :- P.Advance(src, value.rest);
      Ok(P.Parsed(Map(pairs + [(key.value, value.value)]), after))
    else
      var comma :- P.ExpectOp(src, value.rest, ",");
      BraceItems(src, comma, pairs + [(key.value, value.value)])
  }

  /** `parse_unary`: any operator token before one primary, `None` at the end of input. */
  function UnaryExpr(src: Source, s: LexState, op: string): (r: Result<Parsed<Expr>>)
    requires ValidState(src, s) && s.cur.Operator?
    ensures !r.Panic?
    ensures r.Ok? ==> ValidState(src, r.value.rest) && Measure(src, r.value.rest) < Measure(src, s)
    decreases Measure(src, s), 2
  {
    var next :- P.Advance(src, s);
    var operand :- Primary(src, next);
    Ok(P.Parsed(Unary(op, operand.value), operand.rest))
  }

  /** `parse_function`: the name, `(`, then `)` or arguments each followed by `,` or `)`. */
  function FunctionCall(src: Source, s: LexState, name: string): (r: Result<Parsed<Expr>>)
    requires ValidState(src, s) && s.cur.Function?
    ensures !r.Panic?
    ensures r.Ok? ==> ValidState(src, r.value.rest) && Measure(src, r.value.rest) < Measure(src, s)
    decreases Measure(src, s), 2
  {
    var next :- P.Advance(src, s);
    var open :- P.ExpectOp(src, next, "(");
    if IsCloseParen(open.cur) then
      var after :- P.Advance(src, open);
      Ok(P.Parsed(Expr.Function(name, []), after))
    else
      CallArgs(src, open, name, [])
  }

  /** The argument loop of `parse_function`; `args` have been read. */
  function CallArgs(src: Source, s: LexState, name: string, args: seq<Expr>): (r: Result<Parsed<Expr>>)
    requires ValidState(src, s)
    ensures !r.Panic?
    ensures r.Ok? ==> ValidState(src, r.value.rest) && Measure(src, r.value.rest) <= Measure(src, s)
    decreases Measure(src, s), 8
  {
    var arg :- Expression(src, s);
    if IsCloseParen(arg.rest.cur) then
      var after :- P.Advance(src, arg.rest);
      Ok(P.Parsed(Expr.Function(name, args + [arg.value]), after))
    else
      var comma :- P.ExpectOp(src, arg.rest, ",");
      CallArgs(src, comma, name, args + [arg.value])
  }

  // ---------------------------------------------------------------- the parser

  /** The `AST` parser: a tokenizer it advances as it reads. */
  class AST {
    const tokenizer: Tokenizer

    ghost function State(): LexState
      reads this, tokenizer
    {
      P.LexState(tokenizer.pos, tokenizer.curToken)
    }

    ghost predicate Valid()
      reads this, tokenizer
    {
      tokenizer.Valid() && ValidState(tokenizer.src, State())
    }

    /** `AST::new`: reads the first token, or fails with the error that reading it gave. */
    static method New(src: Source) returns (r: Result<AST>)
      ensures r.Ok? <==> P.Start(src).Ok?
      ensures r.Ok? ==> fresh(r.value.tokenizer) && r.value.Valid()
      ensures r.Ok? ==> r.value.tokenizer.src == src && r.value.State() == P.Start(src).value
      ensures r.Err? ==> r.error == P.Start(src).error
    {
      var t := new Tokenizer(src);
      var first := t.Next();
      if !first.Ok? {
        return first.PropagateFailure();
      }
      var a := new AST.FromTokenizer(t);
      return Ok(a);
    }

    constructor FromTokenizer(t: Tokenizer)
      ensures tokenizer == t
    {
      tokenizer := t;
    }

    /** `next`. */
    method Next() returns (r: Result<Token>)
      requires Valid()
      modifies tokenizer
      ensures tokenizer.Valid()
      ensures r.Ok? <==> P.Advance(tokenizer.src, old(State())).Ok?
      ensures r.Ok? ==> State() == P.Advance(tokenizer.src, old(State())).value && r.value == State().cur
      ensures !r.Ok? ==> r == Err(P.Advance(tokenizer.src, old(State())).error)
    {
      r := tokenizer.Next();
    }

    /** `expect`. */
    method Expect(op: string) returns (r: Result<()>)
      requires Valid()
      modifies tokenizer
      ensures tokenizer.Valid()
      ensures r.Ok? <==> P.ExpectOp(tokenizer.src, old(State()), op).Ok?
      ensures r.Ok? ==> State() == P.ExpectOp(tokenizer.src, old(State()), op).value
      ensures !r.Ok? ==> r == Err(P.ExpectOp(tokenizer.src, old(State()), op).error)
    {
      r := tokenizer.Expect(op);
    }

    function GetTokenPrecedence(): int
      reads this, tokenizer
    {
      P.TokenPrecedence(tokenizer.src.reg.infix, tokenizer.curToken)
    }

    /** `parse_token`. */
    method ParseToken() returns (r: Result<Expr>)
      requires Valid()
      modifies tokenizer
      ensures tokenizer.Valid()
      ensures P.Track(r, State()) == TokenExpr(tokenizer.src, old(State()))
      decreases Measure(tokenizer.src, State()), 3
    {
      match tokenizer.curToken {
        case Number(v, _) =>
          var n := Next();
          if !n.Ok? { return n.PropagateFailure(); }
          return Ok(Expr.Number(v));
        case Bool(b, _) =>
          var n := Next();
          if !n.Ok? { return n.PropagateFailure(); }
          return Ok(Expr.Bool(b));
        case String(text, _) =>
          var n := Next();
          if !n.Ok? { return n.PropagateFailure(); }
          return Ok(Expr.String(text));
        case Reference(name, _) =>
          var n := Next();
          if !n.Ok? { return n.PropagateFailure(); }
          return Ok(Expr.Reference(name));
        case Function(name, _) =>
          r := ParseFunction(name);
        case Operator(op, _) =>
          r := ParseUnary(op);
        case Delim(d, _) =>
          r := ParseDelim(d);
        case EOF =>
          r := Ok(Expr.None);
        case Comma(_, _) =>
          r := Err(UnexpectedToken);
        case Semicolon(_, _) =>
          r := Err(UnexpectedToken);
      }
    }

    /** `parse_expression`. */
    method ParseExpression() returns (r: Result<Expr>)
      requires Valid()
      modifies tokenizer
      ensures tokenizer.Valid()
      ensures P.Track(r, State()) == Expression(tokenizer.src, old(State()))
      decreases Measure(tokenizer.src, State()), 7
    {
      var ans: seq<Expr> := [];
      while true
        invariant Valid()
        invariant Measure(tokenizer.src, State()) <= old(Measure(tokenizer.src, State()))
        invariant ExprItems(tokenizer.src, State(), ans) == ExprItems(tokenizer.src, old(State()), [])
        decreases Measure(tokenizer.src, State())
      {
        var e := ParseStatement();
        if !e.Ok? {
          return e;
        }
        ans := ans + [e.value];
        if tokenizer.curToken.EOF? {
          break;
        } else if IsSemicolon(tokenizer.curToken) {
          var n := Next();
          if !n.Ok? {
            return n.PropagateFailure();
          }
        }
      }
      if |ans| == 1 {
        return Ok(ans[0]);
      }
      return Ok(Chain(ans));
    }

    /** One statement of the loop of `parse_expression`. */
    method ParseStatement() returns (r: Result<Expr>)
      requires Valid()
      modifies tokenizer
      ensures tokenizer.Valid()
      ensures P.Track(r, State()) == Statement(tokenizer.src, old(State()))
      decreases Measure(tokenizer.src, State()), 5
    {
      var lhs := ParsePrimary();
      if !lhs.Ok? {
        return lhs;
      }
      if IsQuestionMark(tokenizer.curToken) {
        r := ParseTerop(lhs.value);
      } else if IsBinopToken(tokenizer.curToken) {
        r := ParseBinop(0, lhs.value);
      } else {
        r := lhs;
      }
    }

    /** `parse_primary`. */
    method ParsePrimary() returns (r: Result<Expr>)
      requires Valid()
      modifies tokenizer
      ensures tokenizer.Valid()
      ensures P.Track(r, State()) == Primary(tokenizer.src, old(State()))
      decreases Measure(tokenizer.src, State()), 4
    {
      r := ParseToken();
    }

    /** `parse_binop`. */
    method ParseBinop(execPrec: int, lhs0: Expr) returns (r: Result<Expr>)
      requires Valid()
      modifies tokenizer
      ensures tokenizer.Valid()
      ensures P.Track(r, State()) == Binop(tokenizer.src, old(State()), execPrec, lhs0)
      decreases Measure(tokenizer.src, State()), 5
    {
      var lhs := lhs0;
      while true
        invariant Valid()
        invariant Measure(tokenizer.src, State()) <= old(Measure(tokenizer.src, State()))
        invariant Binop(tokenizer.src, State(), execPrec, lhs) == Binop(tokenizer.src, old(State()), execPrec, lhs0)
        decreases Measure(tokenizer.src, State())
      {
        if !IsBinopToken(tokenizer.curToken) {
          return Ok(lhs);
        }
        var tokPrec := GetTokenPrecedence();
        if tokPrec < execPrec {
          return Ok(lhs);
        }
        var op := tokenizer.curToken.text;
        var n := Next();
        if !n.Ok? {
          return n.PropagateFailure();
        }
        var rhs := ParseBinopOperand(tokPrec);
        if !rhs.Ok? {
          return rhs;
        }
        lhs := Binary(op, lhs, rhs.value);
      }
    }

    /** The right operand in `parse_binop`, with its nested climb. */
    method ParseBinopOperand(tokPrec: int) returns (r: Result<Expr>)
      requires Valid()
      modifies tokenizer
      ensures tokenizer.Valid()
      ensures P.Track(r, State()) == BinopOperand(tokenizer.src, old(State()), tokPrec)
      decreases Measure(tokenizer.src, State()), 5
    {
      var rhs := ParsePrimary();
      if !rhs.Ok? {
        return rhs;
      }
      if IsBinopToken(tokenizer.curToken) && tokPrec < GetTokenPrecedence() {
        r := ParseBinop(tokPrec + 1, rhs.value);
      } else {
        r := rhs;
      }
    }

    /** `parse_terop`. */
    method ParseTerop(cond: Expr) returns (r: Result<Expr>)
      requires Valid() && !tokenizer.curToken.EOF?
      modifies tokenizer
      ensures tokenizer.Valid()
      ensures P.Track(r, State()) == Terop(tokenizer.src, old(State()), cond)
      decreases Measure(tokenizer.src, State()), 5
    {
      var n := Next();
      if !n.Ok? {
        return n.PropagateFailure();
      }
      r := ParseTeropBranches(cond);
    }

    /** The two branches after the `?` in `parse_terop`. */
    method ParseTeropBranches(cond: Expr) returns (r: Result<Expr>)
      requires Valid()
      modifies tokenizer
      ensures tokenizer.Valid()
      ensures P.Track(r, State()) == TeropBranches(tokenizer.src, old(State()), cond)
      decreases Measure(tokenizer.src, State()), 8
    {
      var a := ParseExpression();
      if !a.Ok? {
        return a;
      }
      if !IsColon(tokenizer.curToken) {
        return Err(InvalidTernaryExprNeedColon);
      }
      var n := Next();
      if !n.Ok? {
        return n.PropagateFailure();
      }
      var b := ParseExpression();
      if !b.Ok? {
        return b;
      }
      return Ok(Ternary(cond, a.value, b.value));
    }

    /** `parse_delim`. */
    method ParseDelim(d: DelimTokenType) returns (r: Result<Expr>)
      requires Valid() && tokenizer.curToken.Delim?
      modifies tokenizer
      ensures tokenizer.Valid()
      ensures P.Track(r, State()) == Delimited(tokenizer.src, old(State()), d)
      decreases Measure(tokenizer.src, State()), 2
    {
      match d {
        case OpenParen => r := ParseOpenParen();
        case OpenBracket => r := ParseOpenBracket();
        case OpenBrace => r := ParseOpenBrace();
        case _ => r := Err(NoOpenDelim);
      }
    }

    /** `parse_open_paren`. */
    method ParseOpenParen() returns (r: Result<Expr>)
      requires Valid() && tokenizer.curToken.Delim?
      modifies tokenizer
      ensures tokenizer.Valid()
      ensures P.Track(r, State()) == ParenExpr(tokenizer.src, old(State()))
      decreases Measure(tokenizer.src, State()), 1
    {
      var n := Next();
      if !n.Ok? {
        return n.PropagateFailure();
      }
      var expr := ParseExpression();
      if !expr.Ok? {
        return expr;
      }
      if !IsCloseParen(tokenizer.curToken) {
        return Err(NoCloseDelim);
      }
      n := Next();
      if !n.Ok? {
        return n.PropagateFailure();
      }
      return expr;
    }

    /** `parse_open_bracket`. */
    method ParseOpenBracket() returns (r: Result<Expr>)
      requires Valid() && tokenizer.curToken.Delim?
      modifies tokenizer
      ensures tokenizer.Valid()
      ensures P.Track(r, State()) == BracketExpr(tokenizer.src, old(State()))
      decreases Measure(tokenizer.src, State()), 1
    {
      var n := Next();
      if !n.Ok? {
        return n.PropagateFailure();
      }
      var exprs: seq<Expr> := [];
      if IsCloseBracket(tokenizer.curToken) {
        n := Next();
        if !n.Ok? {
          return n.PropagateFailure();
        }
        return Ok(List(exprs));
      }
      while true
        invariant Valid()
        invariant Measure(tokenizer.src, State()) < old(Measure(tokenizer.src, State()))
        invariant BracketItems(tokenizer.src, State(), exprs) == BracketExpr(tokenizer.src, old(State()))
        decreases Measure(tokenizer.src, State())
      {
        var e := ParseExpression();
        if !e.Ok? {
          return e;
        }
        exprs := exprs + [e.value];
        if IsCloseBracket(tokenizer.curToken) {
          n := Next();
          if !n.Ok? {
            return n.PropagateFailure();
          }
          return Ok(List(exprs));
        }
        var comma := Expect(",");
        if !comma.Ok? {
          return comma.PropagateFailure();
        }
      }
    }

    /** `parse_open_brace`. */
    method ParseOpenBrace() returns (r: Result<Expr>)
      requires Valid() && tokenizer.curToken.Delim?
      modifies tokenizer
      ensures tokenizer.Valid()
      ensures P.Track(r, State()) == BraceExpr(tokenizer.src, old(State()))
      decreases Measure(tokenizer.src, State()), 1
    {
      var n := Next();
      if !n.Ok? {
        return n.PropagateFailure();
      }
      var m: seq<(Expr, Expr)> := [];
      if IsCloseBrace(tokenizer.curToken) {
        return Ok(Map(m));
      }
      while true
        invariant Valid()
        invariant Measure(tokenizer.src, State()) < old(Measure(tokenizer.src, State()))
        invariant BraceItems(tokenizer.src, State(), m) == BraceExpr(tokenizer.src, old(State()))
        decreases Measure(tokenizer.src, State())
      {
        var k := ParseExpression();
        if !k.Ok? {
          return k;
        }
        var colon := Expect(":");
        if !colon.Ok? {
          return colon.PropagateFailure();
        }
        var v := ParseExpression();
        if !v.Ok? {
          return v;
        }
        m := m + [(k.value, v.value)];
        if IsCloseBrace(tokenizer.curToken) {
          n := Next();
          if !n.Ok? {
            return n.PropagateFailure();
          }
          return Ok(Map(m));
        }
        var comma := Expect(",");
        if !comma.Ok? {
          return comma.PropagateFailure();
        }
      }
    }

    /** `parse_unary`. */
    method ParseUnary(op: string) returns (r: Result<Expr>)
      requires Valid() && tokenizer.curToken.Operator?
      modifies tokenizer
      ensures tokenizer.Valid()
      ensures P.Track(r, State()) == UnaryExpr(tokenizer.src, old(State()), op)
      decreases Measure(tokenizer.src, State()), 2
    {
      var n := Next();
      if !n.Ok? {
        return n.PropagateFailure();
      }
      var operand := ParsePrimary();
      if !operand.Ok? {
        return operand;
      }
      return Ok(Unary(op, operand.value));
    }

    /**
     * `parse_function`. The loop leaves only through its `break`, after the closing
     * parenthesis, so the source's `NoCloseDelim` check after it never fires and is
     * not repeated here.
     */
    method ParseFunction(name: string) returns (r: Result<Expr>)
      requires Valid() && tokenizer.curToken.Function?
      modifies tokenizer
      ensures tokenizer.Valid()
      ensures P.Track(r, State()) == FunctionCall(tokenizer.src, old(State()), name)
      decreases Measure(tokenizer.src, State()), 2
    {
      var n := Next();
      if !n.Ok? {
        return n.PropagateFailure();
      }
      var open := Expect("(");
      if !open.Ok? {
        return open.PropagateFailure();
      }
      var ans: seq<Expr> := [];
      if IsCloseParen(tokenizer.curToken) {
        n := Next();
        if !n.Ok? {
          return n.PropagateFailure();
        }
        return Ok(Expr.Function(name, ans));
      }
      while true
        invariant Valid()
        invariant Measure(tokenizer.src, State()) < old(Measure(tokenizer.src, State()))
        invariant CallArgs(tokenizer.src, State(), name, ans) == FunctionCall(tokenizer.src, old(State()), name)
        decreases Measure(tokenizer.src, State())
      {
        var arg := ParseExpression();
        if !arg.Ok? {
          return arg;
        }
        ans := ans + [arg.value];
        if IsCloseParen(tokenizer.curToken) {
          n := Next();
          if !n.Ok? {
            return n.PropagateFailure();
          }
          return Ok(Expr.Function(name, ans));
        }
        var comma := Expect(",");
        if !comma.Ok? {
          return comma.PropagateFailure();
        }
      }
    }
  }
}
