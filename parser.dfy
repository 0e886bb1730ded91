// The precedence-climbing parser of parser.rs.
//
// The functions below are the specification: what each `parse_*` method returns
// from a given tokenizer state and where it leaves the tokenizer. The `Parser`
// class is the source's parser over the shared `Tokenizer` cursor, with its loops,
// proved against them.

module Parsing {
  import opened Errors
  import opened Tokens
  import opened Registry
  import opened Operators
  import opened Keywords
  import opened Lexer
  import opened ExprTree

  /** What the parser sees of the tokenizer: where it stands and its current token. */
  datatype LexState = LexState(pos: nat, cur: Token)

  /** A parsed value together with the tokenizer state that follows it. */
  datatype Parsed<T> = Parsed(value: T, rest: LexState)

  /** The current token is `EOF` only once the whole input has been read. */
  predicate ValidState(src: Source, s: LexState) {
    s.pos <= |src.input| && (s.cur.EOF? ==> s.pos == |src.input|)
  }

  /** Decreases with every token read, `EOF` included. */
  function Measure(src: Source, s: LexState): nat
    requires s.pos <= |src.input|
  {
    2 * (|src.input| - s.pos) + (if s.cur.EOF? then 0 else 1)
  }

  /** `next`: the state after reading one more token. */
  function Advance(src: Source, s: LexState): (r: Result<LexState>)
    requires s.pos <= |src.input|
    ensures !r.Panic?
    ensures r.Ok? ==> ValidState(src, r.value) && s.pos <= r.value.pos
    ensures r.Ok? && ValidState(src, s) ==> Measure(src, r.value) <= Measure(src, s)
    ensures r.Ok? && ValidState(src, s) && !s.cur.EOF? ==> Measure(src, r.value) < Measure(src, s)
  {
    var (t, end) := Scan(src, s.pos);
    if t.Ok? then Ok(LexState(end, t.value)) else Err(t.error)
  }

  /**
   * `expect`: reads the next token and accepts the one it replaced when that was a
   * bracket, an operator or a comma, whatever its text.
   */
  function ExpectOp(src: Source, s: LexState, op: string): (r: Result<LexState>)
    requires ValidState(src, s)
    ensures !r.Panic?
    ensures r.Ok? ==> ValidState(src, r.value) && Measure(src, r.value) < Measure(src, s)
  {
    var next :- Advance(src, s);
    if s.cur.Delim? || s.cur.Operator? || s.cur.Comma? then Ok(next) else Err(ExpectedOpNotExist(op))
  }

  /** `get_token_precidence`: an operator token's registered precedence, -1 otherwise. */
  function TokenPrecedence(infix: map<string, BinaryOp>, t: Token): int {
    if t.Operator? then Precedence(infix, t.text) else -1
  }

  /** An operator token registered as a postfix operator. */
  predicate IsPostfixOpToken(reg: Registries, t: Token) { t.Operator? && IsPostfixOp(reg, t.text) }

  /** An operator token reading `not`. */
  predicate IsNotToken(t: Token) { t.Operator? && IsNot(t.text) }

  // ---------------------------------------------------------------- the specification

  /** `parse_token`: one literal, reference, call, prefixed term or bracketed term. */
  function TokenExpr(src: Source, s: LexState): (r: Result<Parsed<ExprAST>>)
    requires ValidState(src, s)
    ensures !r.Panic?
    ensures r.Ok? ==> ValidState(src, r.value.rest) && Measure(src, r.value.rest) < Measure(src, s)
    decreases Measure(src, s), 3
  {
    match s.cur
    case Number(v, _) =>
      var next :- Advance(src, s);
      Ok(Parsed(ExprAST.Literal(Literal.Number(v)), next))
    case Bool(b, _) =>
      var next :- Advance(src, s);
      Ok(Parsed(ExprAST.Literal(Literal.Bool(b)), next))
    case String(text, _) =>
      var next :- Advance(src, s);
      Ok(Parsed(ExprAST.Literal(Literal.String(text)), next))
    case Reference(name, _) =>
      var next :- Advance(src, s);
      Ok(Parsed(ExprAST.Reference(name), next))
    case Function(name, _) => FunctionCall(src, s, name)
    case Operator(op, _) => UnaryExpr(src, s, op)
    case Delim(d, _) => Delimited(src, s, d)
    case EOF => Err(UnexpectedEOF(0))
    case Comma(_, _) => Err(UnexpectedToken)
    case Semicolon(_, _) => Err(UnexpectedToken)
  }

  /** `parse_primary`: a term, then at most one postfix operator. */
  function Primary(src: Source, s: LexState): (r: Result<Parsed<ExprAST>>)
    requires ValidState(src, s)
    ensures !r.Panic?
    ensures r.Ok? ==> ValidState(src, r.value.rest) && Measure(src, r.value.rest) < Measure(src, s)
    decreases Measure(src, s), 4
  {
    var term :- TokenExpr(src, s);
    if IsPostfixOpToken(src.reg, term.rest.cur) then
      var next :- Advance(src, term.rest);
      Ok(Parsed(ExprAST.Postfix(term.value, term.rest.cur.text), next))
    else
      Ok(term)
  }

  /** `parse_expression`: a primary, then operators of precedence 0 and above. */
  function Expression(src: Source, s: LexState): (r: Result<Parsed<ExprAST>>)
    requires ValidState(src, s)
    ensures !r.Panic?
    ensures r.Ok? ==> ValidState(src, r.value.rest) && Measure(src, r.value.rest) < Measure(src, s)
    decreases Measure(src, s), 5
  {
    var primary :- Primary(src, s);
    OpClimb(src, primary.rest, 0, primary.value, false)
  }

  /**
   * `parse_op`, the climbing loop: `lhs` is what has been folded so far and
   * `isNot` records an infix `not` waiting for the next binary node.
   */
  function OpClimb(src: Source, s: LexState, execPrec: int, lhs: ExprAST, isNot: bool): (r: Result<Parsed<ExprAST>>)
    requires ValidState(src, s)
    ensures !r.Panic?
    ensures r.Ok? ==> ValidState(src, r.value.rest) && Measure(src, r.value.rest) <= Measure(src, s)
    decreases Measure(src, s), 6
  {
    if !IsOpToken(s.cur) then Ok(Parsed(lhs, s))
    else if IsNotToken(s.cur) then
      var next :- Advance(src, s);
      if !IsBinopToken(next.cur) then Err(ExpectBinOpToken)
      else OpClimb(src, next, execPrec, lhs, true)
    else if IsQuestionMark(s.cur) then TernaryTail(src, s, lhs)
    else
      var tokPrec := TokenPrecedence(src.reg.infix, s.cur);
      if tokPrec < execPrec then Ok(Parsed(lhs, s))
      else
        var rhs :- RightOperand(src, s, tokPrec);
        var node := Binary(s.cur.text, lhs, rhs.value);
        OpClimb(src, rhs.rest, execPrec, if isNot then Unary("not", node) else node, false)
  }

  /** The `?` branch of `parse_op`: `cond ? a : b`, after the condition `lhs`. */
  function TernaryTail(src: Source, s: LexState, lhs: ExprAST): (r: Result<Parsed<ExprAST>>)
    requires ValidState(src, s) && !s.cur.EOF?
    ensures !r.Panic?
    ensures r.Ok? ==> ValidState(src, r.value.rest) && Measure(src, r.value.rest) < Measure(src, s)
    decreases Measure(src, s), 5
  {
    var next :- Advance(src, s);
    TernaryBranches(src, next, lhs)
  }

  /** What follows the `?`: the first branch, `:`, and the second branch. */
  function TernaryBranches(src: Source, s: LexState, lhs: ExprAST): (r: Result<Parsed<ExprAST>>)
    requires ValidState(src, s)
    ensures !r.Panic?
    ensures r.Ok? ==> ValidState(src, r.value.rest) && Measure(src, r.value.rest) < Measure(src, s)
    decreases Measure(src, s), 6
  {
    var a :- Expression(src, s);
    var colon :- ExpectOp(src, a.rest, ":");
    var b :- Expression(src, colon);
    Ok(Parsed(Ternary(lhs, a.value, b.value), b.rest))
  }

  /**
   * The right operand of the binary operator at `s` of precedence `tokPrec`: a
   * primary, extended by a nested climb from `tokPrec + 1` when the operator after it
   * binds tighter.
   */
  function RightOperand(src: Source, s: LexState, tokPrec: int): (r: Result<Parsed<ExprAST>>)
    requires ValidState(src, s) && !s.cur.EOF?
    ensures !r.Panic?
    ensures r.Ok? ==> ValidState(src, r.value.rest) && Measure(src, r.value.rest) < Measure(src, s)
    decreases Measure(src, s), 5
  {
    var next :- Advance(src, s);
    var primary :- Primary(src, next);
    if IsBinopToken(primary.rest.cur) && tokPrec < TokenPrecedence(src.reg.infix, primary.rest.cur)
    then OpClimb(src, primary.rest, tokPrec + 1, primary.value, false)
    else Ok(primary)
  }

  /** `parse_delim`: only an opening bracket can start a term. */
  function Delimited(src: Source, s: LexState, d: DelimTokenType): (r: Result<Parsed<ExprAST>>)
    requires ValidState(src, s) && s.cur.Delim?
    ensures !r.Panic?
    ensures r.Ok? ==> ValidState(src, r.value.rest) && Measure(src, r.value.rest) < Measure(src, s)
    decreases Measure(src, s), 2
  {
    match d
    case OpenParen => ParenExpr(src, s)
    case OpenBracket => BracketExpr(src, s)
    case OpenBrace => BraceExpr(src, s)
    case _ => Err(NoOpenDelim)
  }

  /** `parse_open_paren`: `( expression )`, the parentheses only group. */
  function ParenExpr(src: Source, s: LexState): (r: Result<Parsed<ExprAST>>)
    requires ValidState(src, s) && s.cur.Delim?
    ensures !r.Panic?
    ensures r.Ok? ==> ValidState(src, r.value.rest) && Measure(src, r.value.rest) < Measure(src, s)
    decreases Measure(src, s), 1
  {
    var next :- Advance(src, s);
    var inner :- Expression(src, next);
    if !IsCloseParen(inner.rest.cur) then Err(NoCloseDelim)
    else
      var after :- Advance(src, inner.rest);
      Ok(Parsed(inner.value, after))
  }

  /** `parse_open_bracket`: skips `[` and reads the items. */
  function BracketExpr(src: Source, s: LexState): (r: Result<Parsed<ExprAST>>)
    requires ValidState(src, s) && s.cur.Delim?
    ensures !r.Panic?
    ensures r.Ok? ==> ValidState(src, r.value.rest) && Measure(src, r.value.rest) < Measure(src, s)
    decreases Measure(src, s), 1
  {
    var next :- Advance(src, s);
    BracketItems(src, next, [])
  }

  /** The loop of `parse_open_bracket`; `items` have been read. */
  function BracketItems(src: Source, s: LexState, items: seq<ExprAST>): (r: Result<Parsed<ExprAST>>)
    requires ValidState(src, s)
    ensures !r.Panic?
    ensures r.Ok? ==> ValidState(src, r.value.rest) && Measure(src, r.value.rest) < Measure(src, s)
    decreases Measure(src, s), 6
  {
    if s.cur.EOF? || IsCloseBracket(s.cur) then
      var after :- ExpectOp(src, s, "]");
      Ok(Parsed(List(items), after))
    else
      var item :- Expression(src, s);
      if IsCloseBracket(item.rest.cur) then BracketItems(src, item.rest, items + [item.value])
      else
        var comma :- ExpectOp(src, item.rest, ",");
        BracketItems(src, comma, items + [item.value])
  }

  /** `parse_open_brace`: skips `{` and reads the pairs. */
  function BraceExpr(src: Source, s: LexState): (r: Result<Parsed<ExprAST>>)
    requires ValidState(src, s) && s.cur.Delim?
    ensures !r.Panic?
    ensures r.Ok? ==> ValidState(src, r.value.rest) && Measure(src, r.value.rest) < Measure(src, s)
    decreases Measure(src, s), 1
  {
    var next :- Advance(src, s);
    BraceItems(src, next, [])
  }

  /** The loop of `parse_open_brace`; `pairs` have been read. */
  function BraceItems(src: Source, s: LexState, pairs: seq<(ExprAST, ExprAST)>): (r: Result<Parsed<ExprAST>>)
    requires ValidState(src, s)
    ensures !r.Panic?
    ensures r.Ok? ==> ValidState(src, r.value.rest) && Measure(src, r.value.rest) < Measure(src, s)
    decreases Measure(src, s), 6
  {
    if s.cur.EOF? || IsCloseBrace(s.cur) then
      var after :- ExpectOp(src, s, "}");
      Ok(Parsed(Map(pairs), after))
    else
      var key :- Expression(src, s);
      var colon :- ExpectOp(src, key.rest, ":");
      var value :- Expression(src, colon);
      if IsCloseBrace(value.rest.cur) then BraceItems(src, value.rest, pairs + [(key.value, value.value)])
      else
        var comma :- ExpectOp(src, value.rest, ",");
        BraceItems(src, comma, pairs + [(key.value, value.value)])
  }

  /** `parse_unary`: a prefix operator applied to one primary. */
  function UnaryExpr(src: Source, s: LexState, op: string): (r: Result<Parsed<ExprAST>>)
    requires ValidState(src, s) && s.cur.Operator?
    ensures !r.Panic?
    ensures r.Ok? ==> ValidState(src, r.value.rest) && Measure(src, r.value.rest) < Measure(src, s)
    decreases Measure(src, s), 2
  {
    var next :- Advance(src, s);
    var operand :- Primary(src, next);
    Ok(Parsed(Unary(op, operand.value), operand.rest))
  }

  /** `parse_function`: the name, `(`, then no arguments or a comma-separated list, then `)`. */
  function FunctionCall(src: Source, s: LexState, name: string): (r: Result<Parsed<ExprAST>>)
    requires ValidState(src, s) && s.cur.Function?
    ensures !r.Panic?
    ensures r.Ok? ==> ValidState(src, r.value.rest) && Measure(src, r.value.rest) < Measure(src, s)
    decreases Measure(src, s), 2
  {
    var next :- Advance(src, s);
    var open :- ExpectOp(src, next, "(");
    if IsCloseParen(open.cur) then
      var after :- Advance(src, open);
      Ok(Parsed(ExprAST.Function(name, []), after))
    else
      CallArgs(src, open, name, [])
  }

  /** The argument loop of `parse_function`; `args` have been read. */
  function CallArgs(src: Source, s: LexState, name: string, args: seq<ExprAST>): (r: Result<Parsed<ExprAST>>)
    requires ValidState(src, s)
    ensures !r.Panic?
    ensures r.Ok? ==> ValidState(src, r.value.rest) && Measure(src, r.value.rest) < Measure(src, s)
    decreases Measure(src, s), 6
  {
    var arg :- Expression(src, s);
    if IsCloseParen(arg.rest.cur) then
      var after :- Advance(src, arg.rest);
      Ok(Parsed(ExprAST.Function(name, args + [arg.value]), after))
    else
      var comma :- ExpectOp(src, arg.rest, ",");
      CallArgs(src, comma, name, args + [arg.value])
  }

  /** The loop of `parse_chain_expression`: expressions up to the end, each optionally followed by `;`. */
  function ChainItems(src: Source, s: LexState, items: seq<ExprAST>): (r: Result<Parsed<seq<ExprAST>>>)
    requires ValidState(src, s)
    ensures !r.Panic?
    ensures r.Ok? ==> ValidState(src, r.value.rest) && r.value.rest.cur.EOF?
    decreases Measure(src, s)
  {
    if s.cur.EOF? then Ok(Parsed(items, s))
    else
      var e :- Expression(src, s);
      if IsSemicolon(e.rest.cur) then
        var next :- Advance(src, e.rest);
        ChainItems(src, next, items + [e.value])
      else
        ChainItems(src, e.rest, items + [e.value])
  }

  /** `parse_chain_expression`: one expression stands for itself, any other number makes a `Chain`. */
  function ChainExpression(src: Source, s: LexState): (r: Result<Parsed<ExprAST>>)
    requires ValidState(src, s)
    ensures !r.Panic?
  {
    var items :- ChainItems(src, s, []);
    Ok(Parsed(if |items.value| == 1 then items.value[0] else Chain(items.value), items.rest))
  }

  /** `Parser::new`: a fresh tokenizer that has read its first token. */
  function Start(src: Source): (r: Result<LexState>)
    ensures !r.Panic?
    ensures r.Ok? ==> ValidState(src, r.value)
  {
    Advance(src, LexState(0, EOF))
  }

  /** A method's outcome paired with the tokenizer state it left behind. */
  function Track<T>(r: Result<T>, s: LexState): Result<Parsed<T>> {
    match r
    case Ok(v) => Ok(Parsed(v, s))
    case Err(e) => Err(e)
    case Panic => Panic
  }

  // ---------------------------------------------------------------- the parser

  /** The parser: a tokenizer it advances as it reads. */
  class Parser {
    const tokenizer: Tokenizer

    ghost function State(): LexState
      reads this, tokenizer
    {
      LexState(tokenizer.pos, tokenizer.curToken)
    }

    ghost predicate Valid()
      reads this, tokenizer
    {
      tokenizer.Valid() && ValidState(tokenizer.src, State())
    }

    /** `Parser::new`: reads the first token, or fails with the error that reading it gave. */
    static method New(src: Source) returns (r: Result<Parser>)
      ensures r.Ok? <==> Start(src).Ok?
      ensures r.Ok? ==> fresh(r.value.tokenizer) && r.value.Valid()
      ensures r.Ok? ==> r.value.tokenizer.src == src && r.value.State() == Start(src).value
      ensures r.Err? ==> r.error == Start(src).error
    {
      var t := new Tokenizer(src);
      var first := t.Next();
      if !first.Ok? {
        return first.PropagateFailure();
      }
      var p := new Parser.FromTokenizer(t);
      return Ok(p);
    }

    constructor FromTokenizer(t: Tokenizer)
      ensures tokenizer == t
    {
      tokenizer := t;
    }

    /** `next`. */
    method Next() returns (r: Result<Token>)
      requires Valid()
      modifies tokenizer
      ensures tokenizer.Valid()
      ensures r.Ok? <==> Advance(tokenizer.src, old(State())).Ok?
      ensures r.Ok? ==> State() == Advance(tokenizer.src, old(State())).value && r.value == State().cur
      ensures !r.Ok? ==> r == Err(Advance(tokenizer.src, old(State())).error)
    {
      r := tokenizer.Next();
    }

    /** `expect`. */
    method Expect(op: string) returns (r: Result<()>)
      requires Valid()
      modifies tokenizer
      ensures tokenizer.Valid()
      ensures r.Ok? <==> ExpectOp(tokenizer.src, old(State()), op).Ok?
      ensures r.Ok? ==> State() == ExpectOp(tokenizer.src, old(State()), op).value
      ensures !r.Ok? ==> r == Err(ExpectOp(tokenizer.src, old(State()), op).error)
    {
      r := tokenizer.Expect(op);
    }

    function GetTokenPrecedence(): int
      reads this, tokenizer
    {
      TokenPrecedence(tokenizer.src.reg.infix, tokenizer.curToken)
    }

    method ParseToken() returns (r: Result<ExprAST>)
      requires Valid()
      modifies tokenizer
      ensures tokenizer.Valid()
      ensures Track(r, State()) == TokenExpr(tokenizer.src, old(State()))
      decreases Measure(tokenizer.src, State()), 3
    {
      match tokenizer.curToken {
        case Number(v, _) =>
          var n := Next();
          if !n.Ok? { return n.PropagateFailure(); }
          return Ok(ExprAST.Literal(Literal.Number(v)));
        case Bool(b, _) =>
          var n := Next();
          if !n.Ok? { return n.PropagateFailure(); }
          return Ok(ExprAST.Literal(Literal.Bool(b)));
        case String(text, _) =>
          var n := Next();
          if !n.Ok? { return n.PropagateFailure(); }
          return Ok(ExprAST.Literal(Literal.String(text)));
        case Reference(name, _) =>
          var n := Next();
          if !n.Ok? { return n.PropagateFailure(); }
          return Ok(ExprAST.Reference(name));
        case Function(name, _) =>
          r := ParseFunction(name);
        case Operator(op, _) =>
          r := ParseUnary(op);
        case Delim(d, _) =>
          r := ParseDelim(d);
        case EOF =>
          r := Err(UnexpectedEOF(0));
        case Comma(_, _) =>
          r := Err(UnexpectedToken);
        case Semicolon(_, _) =>
          r := Err(UnexpectedToken);
      }
    }

    /** `parse_chain_expression`. */
    method ParseChainExpression() returns (r: Result<ExprAST>)
      requires Valid()
      modifies tokenizer
      ensures tokenizer.Valid()
      ensures Track(r, State()) == ChainExpression(tokenizer.src, old(State()))
    {
      var ans: seq<ExprAST> := [];
      while true
        invariant Valid()
        invariant ChainItems(tokenizer.src, State(), ans) == ChainItems(tokenizer.src, old(State()), [])
        decreases Measure(tokenizer.src, State())
      {
        if tokenizer.curToken.EOF? {
          break;
        }
        var e := ParseExpression();
        if !e.Ok? {
          return e;
        }
        ans := ans + [e.value];
        if IsSemicolon(tokenizer.curToken) {
          var n := Next();
          if !n.Ok? {
            return n.PropagateFailure();
          }
        }
      }
      if |ans| == 1 {
        return Ok(ans[0]);
      }
      return Ok(Chain(ans));
    }

    /** `parse_expression`. */
    method ParseExpression() returns (r: Result<ExprAST>)
      requires Valid()
      modifies tokenizer
      ensures tokenizer.Valid()
      ensures Track(r, State()) == Expression(tokenizer.src, old(State()))
      decreases Measure(tokenizer.src, State()), 5
    {
      var lhs := ParsePrimary();
      if !lhs.Ok? {
        return lhs;
      }
      r := ParseOp(0, lhs.value);
    }

    /** `parse_primary`. */
    method ParsePrimary() returns (r: Result<ExprAST>)
      requires Valid()
      modifies tokenizer
      ensures tokenizer.Valid()
      ensures Track(r, State()) == Primary(tokenizer.src, old(State()))
      decreases Measure(tokenizer.src, State()), 4
    {
      var lhs := ParseToken();
      if !lhs.Ok? {
        return lhs;
      }
      if IsPostfixOpToken(tokenizer.src.reg, tokenizer.curToken) {
        var op := tokenizer.curToken.text;
        var n := Next();
        if !n.Ok? {
          return n.PropagateFailure();
        }
        return Ok(ExprAST.Postfix(lhs.value, op));
      }
      return lhs;
    }

    /** `parse_op`. */
    method ParseOp(execPrec: int, lhs0: ExprAST) returns (r: Result<ExprAST>)
      requires Valid()
      modifies tokenizer
      ensures tokenizer.Valid()
      ensures Track(r, State()) == OpClimb(tokenizer.src, old(State()), execPrec, lhs0, false)
      decreases Measure(tokenizer.src, State()), 6
    {
      var lhs := lhs0;
      var isNot := false;
      while true
        invariant Valid()
        invariant Measure(tokenizer.src, State()) <= old(Measure(tokenizer.src, State()))
        invariant OpClimb(tokenizer.src, State(), execPrec, lhs, isNot) ==
          OpClimb(tokenizer.src, old(State()), execPrec, lhs0, false)
        decreases Measure(tokenizer.src, State())
      {
        var cur := tokenizer.curToken;
        if !IsOpToken(cur) {
          return Ok(lhs);
        }
        if IsNotToken(cur) {
          isNot := true;
          var n := Next();
          if !n.Ok? {
            return n.PropagateFailure();
          }
          if !IsBinopToken(tokenizer.curToken) {
            return Err(ExpectBinOpToken);
          }
          continue;
        }
        if IsQuestionMark(cur) {
          r := ParseTernaryTail(lhs);
          return;
        }
        var tokPrec := GetTokenPrecedence();
        if tokPrec < execPrec {
          return Ok(lhs);
        }
        var op := cur.text;
        var rhs := ParseRightOperand(tokPrec);
        if !rhs.Ok? {
          return rhs;
        }
        lhs := Binary(op, lhs, rhs.value);
        if isNot {
          lhs := Unary("not", lhs);
          isNot := false;
        }
      }
    }

    /** The `?` branch of `parse_op`. */
    method ParseTernaryTail(lhs: ExprAST) returns (r: Result<ExprAST>)
      requires Valid() && !tokenizer.curToken.EOF?
      modifies tokenizer
      ensures tokenizer.Valid()
      ensures Track(r, State()) == TernaryTail(tokenizer.src, old(State()), lhs)
      decreases Measure(tokenizer.src, State()), 5
    {
      var n := Next();
      if !n.Ok? {
        return n.PropagateFailure();
      }
      r := ParseTernaryBranches(lhs);
    }

    /** The two branches after the `?`, separated by `:`. */
    method ParseTernaryBranches(lhs: ExprAST) returns (r: Result<ExprAST>)
      requires Valid()
      modifies tokenizer
      ensures tokenizer.Valid()
      ensures Track(r, State()) == TernaryBranches(tokenizer.src, old(State()), lhs)
      decreases Measure(tokenizer.src, State()), 6
    {
      var a := ParseExpression();
      if !a.Ok? {
        return a;
      }
      var colon := Expect(":");
      if !colon.Ok? {
        return colon.PropagateFailure();
      }
      var b := ParseExpression();
      if !b.Ok? {
        return b;
      }
      return Ok(Ternary(lhs, a.value, b.value));
    }

    /** The right operand of a binary operator in `parse_op`. */
    method ParseRightOperand(tokPrec: int) returns (r: Result<ExprAST>)
      requires Valid() && !tokenizer.curToken.EOF?
      modifies tokenizer
      ensures tokenizer.Valid()
      ensures Track(r, State()) == RightOperand(tokenizer.src, old(State()), tokPrec)
      decreases Measure(tokenizer.src, State()), 5
    {
      var n := Next();
      if !n.Ok? {
        return n.PropagateFailure();
      }
      r := ParsePrimary();
      if !r.Ok? {
        return;
      }
      if IsBinopToken(tokenizer.curToken) && tokPrec < GetTokenPrecedence() {
        r := ParseOp(tokPrec + 1, r.value);
      }
    }

    /** `parse_delim`. */
    method ParseDelim(d: DelimTokenType) returns (r: Result<ExprAST>)
      requires Valid() && tokenizer.curToken.Delim?
      modifies tokenizer
      ensures tokenizer.Valid()
      ensures Track(r, State()) == Delimited(tokenizer.src, old(State()), d)
      decreases Measure(tokenizer.src, State()), 2
    {
      match d {
        case OpenParen => r := ParseOpenParen();
        case OpenBracket => r := ParseOpenBracket();
        case OpenBrace => r := ParseOpenBrace();
        case _ => r := Err(NoOpenDelim);
      }
    }

    /** `parse_open_paren`. */
    method ParseOpenParen() returns (r: Result<ExprAST>)
      requires Valid() && tokenizer.curToken.Delim?
      modifies tokenizer
      ensures tokenizer.Valid()
      ensures Track(r, State()) == ParenExpr(tokenizer.src, old(State()))
      decreases Measure(tokenizer.src, State()), 1
    {
      var n := Next();
      if !n.Ok? {
        return n.PropagateFailure();
      }
      var expr := ParseExpression();
      if !expr.Ok? {
        return expr;
      }
      if !IsCloseParen(tokenizer.curToken) {
        return Err(NoCloseDelim);
      }
      n := Next();
      if !n.Ok? {
        return n.PropagateFailure();
      }
      return expr;
    }

    /** `parse_open_bracket`. */
    method ParseOpenBracket() returns (r: Result<ExprAST>)
      requires Valid() && tokenizer.curToken.Delim?
      modifies tokenizer
      ensures tokenizer.Valid()
      ensures Track(r, State()) == BracketExpr(tokenizer.src, old(State()))
      decreases Measure(tokenizer.src, State()), 1
    {
      var n := Next();
      if !n.Ok? {
        return n.PropagateFailure();
      }
      var exprs: seq<ExprAST> := [];
      while true
        invariant Valid()
        invariant Measure(tokenizer.src, State()) < old(Measure(tokenizer.src, State()))
        invariant BracketItems(tokenizer.src, State(), exprs) == BracketExpr(tokenizer.src, old(State()))
        decreases Measure(tokenizer.src, State())
      {
        if tokenizer.curToken.EOF? || IsCloseBracket(tokenizer.curToken) {
          break;
        }
        var e := ParseExpression();
        if !e.Ok? {
          return e;
        }
        exprs := exprs + [e.value];
        if !IsCloseBracket(tokenizer.curToken) {
          var comma := Expect(",");
          if !comma.Ok? {
            return comma.PropagateFailure();
          }
        }
      }
      var close := Expect("]");
      if !close.Ok? {
        return close.PropagateFailure();
      }
      return Ok(List(exprs));
    }

    /** `parse_open_brace`. */
    method ParseOpenBrace() returns (r: Result<ExprAST>)
      requires Valid() && tokenizer.curToken.Delim?
      modifies tokenizer
      ensures tokenizer.Valid()
      ensures Track(r, State()) == BraceExpr(tokenizer.src, old(State()))
      decreases Measure(tokenizer.src, State()), 1
    {
      var n := Next();
      if !n.Ok? {
        return n.PropagateFailure();
      }
      var m: seq<(ExprAST, ExprAST)> := [];
      while true
        invariant Valid()
        invariant Measure(tokenizer.src, State()) < old(Measure(tokenizer.src, State()))
        invariant BraceItems(tokenizer.src, State(), m) == BraceExpr(tokenizer.src, old(State()))
        decreases Measure(tokenizer.src, State())
      {
        if tokenizer.curToken.EOF? || IsCloseBrace(tokenizer.curToken) {
          break;
        }
        var next := ParseEntry(m);
        if !next.Ok? {
          return next.PropagateFailure();
        }
        m := next.value;
      }
      var close := Expect("}");
      if !close.Ok? {
        return close.PropagateFailure();
      }
      return Ok(Map(m));
    }

    /**
     * One pass of the loop of `parse_open_brace`: a key, `:`, a value, and the `,`
     * after them unless a `}` follows; the entry is appended to `m`.
     */
    method ParseEntry(m: seq<(ExprAST, ExprAST)>) returns (r: Result<seq<(ExprAST, ExprAST)>>)
      requires Valid() && !tokenizer.curToken.EOF? && !IsCloseBrace(tokenizer.curToken)
      modifies tokenizer
      ensures tokenizer.Valid()
      ensures r.Ok? ==> Valid() && Measure(tokenizer.src, State()) < old(Measure(tokenizer.src, State()))
      ensures r.Ok? ==> BraceItems(tokenizer.src, State(), r.value) == BraceItems(tokenizer.src, old(State()), m)
      ensures !r.Ok? ==> r.Err? && BraceItems(tokenizer.src, old(State()), m) == Err(r.error)
      decreases Measure(tokenizer.src, State()), 6
    {
      var k := ParseExpression();
      if !k.Ok? {
        return k.PropagateFailure();
      }
      var colon := Expect(":");
      if !colon.Ok? {
        return colon.PropagateFailure();
      }
      var v := ParseExpression();
      if !v.Ok? {
        return v.PropagateFailure();
      }
      r := Ok(m + [(k.value, v.value)]);
      if !IsCloseBrace(tokenizer.curToken) {
        var comma := Expect(",");
        if !comma.Ok? {
          return comma.PropagateFailure();
        }
      }
    }

    /** `parse_unary`. */
    method ParseUnary(op: string) returns (r: Result<ExprAST>)
      requires Valid() && tokenizer.curToken.Operator?
      modifies tokenizer
      ensures tokenizer.Valid()
      ensures Track(r, State()) == UnaryExpr(tokenizer.src, old(State()), op)
      decreases Measure(tokenizer.src, State()), 2
    {
      var n := Next();
      if !n.Ok? {
        return n.PropagateFailure();
      }
      var operand := ParsePrimary();
      if !operand.Ok? {
        return operand;
      }
      return Ok(Unary(op, operand.value));
    }

    /**
     * `parse_function`. The loop leaves only through its `break`, after the closing
     * parenthesis, so the source's `NoCloseDelim` check after it never fires and is
     * not repeated here.
     */
    method ParseFunction(name: string) returns (r: Result<ExprAST>)
      requires Valid() && tokenizer.curToken.Function?
      modifies tokenizer
      ensures tokenizer.Valid()
      ensures Track(r, State()) == FunctionCall(tokenizer.src, old(State()), name)
      decreases Measure(tokenizer.src, State()), 2
    {
      var n := Next();
      if !n.Ok? {
        return n.PropagateFailure();
      }
      var open := Expect("(");
      if !open.Ok? {
        return open.PropagateFailure();
      }
      var ans: seq<ExprAST> := [];
      if IsCloseParen(tokenizer.curToken) {
        n := Next();
        if !n.Ok? {
          return n.PropagateFailure();
        }
        return Ok(ExprAST.Function(name, ans));
      }
      while true
        invariant Valid()
        invariant Measure(tokenizer.src, State()) < old(Measure(tokenizer.src, State()))
        invariant CallArgs(tokenizer.src, State(), name, ans) == FunctionCall(tokenizer.src, old(State()), name)
        decreases Measure(tokenizer.src, State())
      {
        var arg := ParseExpression();
        if !arg.Ok? {
          return arg;
        }
        ans := ans + [arg.value];
        if IsCloseParen(tokenizer.curToken) {
          n := Next();
          if !n.Ok? {
            return n.PropagateFailure();
          }
          return Ok(ExprAST.Function(name, ans));
        }
        var comma := Expect(",");
        if !comma.Ok? {
          return comma.PropagateFailure();
        }
      }
    }
  }
}
