// The lexical tokens of the expression language and the predicates the
// parsers ask of them.

module Tokens {

  /** The six bracket characters, and `Unknown` for anything else. */
  datatype DelimTokenType =
    | OpenParen | CloseParen
    | OpenBracket | CloseBracket
    | OpenBrace | CloseBrace
    | Unknown
  {
    /** The bracket's text; `Unknown` is written `??`. */
    function Text(): (s: string)
      ensures Unknown? <==> |s| == 2
      ensures !Unknown? ==> |s| == 1
      ensures Unknown? ==> s == "??"
    {
      match this
      case OpenParen => "("
      case CloseParen => ")"
      case OpenBracket => "["
      case CloseBracket => "]"
      case OpenBrace => "{"
      case CloseBrace => "}"
      case Unknown => "??"
    }
  }

  /** `DelimTokenType::from(char)`. */
  function DelimFromChar(c: char): DelimTokenType {
    match c
    case '(' => OpenParen
    case ')' => CloseParen
    case '[' => OpenBracket
    case ']' => CloseBracket
    case '{' => OpenBrace
    case '}' => CloseBrace
    case _ => Unknown
  }

  /** `DelimTokenType::from(&str)`. */
  function DelimFromStr(s: string): DelimTokenType {
    if s == "(" then OpenParen
    else if s == ")" then CloseParen
    else if s == "[" then OpenBracket
    else if s == "]" then CloseBracket
    else if s == "{" then OpenBrace
    else if s == "}" then CloseBrace
    else Unknown
  }

  /** Reading a bracket's text back gives the bracket, `Unknown` included. */
  lemma DelimTextRoundTrip(d: DelimTokenType)
    ensures DelimFromStr(d.Text()) == d
  {
  }

  /** The character and the one-character string of a bracket name the same variant. */
  lemma DelimFromCharAgrees(c: char)
    ensures DelimFromChar(c) == DelimFromStr([c])
    ensures DelimFromChar(c) != Unknown ==> DelimFromChar(c).Text() == [c]
    ensures DelimFromChar(c) != Unknown <==> c in "()[]{}"
  {
  }

  /** Half-open character range `[start, end)` of a token in the input. */
  datatype Span = Span(start: nat, end: nat)

  datatype Token =
    | Operator(text: string, span: Span)
    | Delim(delim: DelimTokenType, span: Span)
    | Number(number: real, span: Span)
    | Comma(text: string, span: Span)
    | Bool(b: bool, span: Span)
    | String(text: string, span: Span)
    | Reference(text: string, span: Span)
    | Function(text: string, span: Span)
    | Semicolon(text: string, span: Span)
    | EOF

  /** `check_op`: the token is a bracket or an operator whose text is `expected`. */
  predicate CheckOp(t: Token, expected: string) {
    match t
    case Delim(d, _) => d.Text() == expected
    case Operator(op, _) => op == expected
    case _ => false
  }

  predicate IsOpenParen(t: Token) { CheckOp(t, "(") }
  predicate IsCloseParen(t: Token) { CheckOp(t, ")") }
  predicate IsOpenBracket(t: Token) { CheckOp(t, "[") }
  predicate IsCloseBracket(t: Token) { CheckOp(t, "]") }
  predicate IsOpenBrace(t: Token) { CheckOp(t, "{") }
  predicate IsCloseBrace(t: Token) { CheckOp(t, "}") }
  predicate IsQuestionMark(t: Token) { CheckOp(t, "?") }
  predicate IsColon(t: Token) { CheckOp(t, ":") }
  predicate IsEof(t: Token) { t.EOF? }
  predicate IsOpToken(t: Token) { t.Operator? }
  predicate IsBinopToken(t: Token) { t.Operator? && t.text != "?" && t.text != ":" }
  predicate IsSemicolon(t: Token) { t.Semicolon? }

  /** Rust's `bool::to_string`. */
  function BoolText(b: bool): string { if b then "true" else "false" }

  /**
   * `Token::string`: the carried text, the bracket text, the number as written by
   * `numberText`, `true`/`false`, or `EOF`.
   */
  function TokenText(t: Token, numberText: real -> string): string {
    match t
    case Operator(op, _) => op
    case Number(n, _) => numberText(n)
    case Comma(c, _) => c
    case Bool(b, _) => BoolText(b)
    case String(s, _) => s
    case Reference(r, _) => r
    case Function(f, _) => f
    case Semicolon(s, _) => s
    case Delim(d, _) => d.Text()
    case EOF => "EOF"
  }

  /**
   * `check_op` is exactly "a bracket or an operator whose `Token::string` is the
   * expected text"; a token of any other kind never matches.
   */
  lemma CheckOpMeaning(t: Token, expected: string, numberText: real -> string)
    ensures CheckOp(t, expected) <==> (t.Delim? || t.Operator?) && TokenText(t, numberText) == expected
    ensures !t.Delim? && !t.Operator? ==> !CheckOp(t, expected)
  {
  }

  /**
   * On a bracket token the bracket predicates test the variant; `?` and `:` are
   * recognised only as operator tokens.
   */
  lemma BracketPredicates(t: Token)
    requires t.Delim?
    ensures IsOpenParen(t) <==> t.delim == OpenParen
    ensures IsCloseParen(t) <==> t.delim == CloseParen
    ensures IsOpenBracket(t) <==> t.delim == OpenBracket
    ensures IsCloseBracket(t) <==> t.delim == CloseBracket
    ensures IsOpenBrace(t) <==> t.delim == OpenBrace
    ensures IsCloseBrace(t) <==> t.delim == CloseBrace
    ensures !IsQuestionMark(t) && !IsColon(t)
  {
    var s := t.delim.Text();
    assert s[0] == '(' <==> t.delim == OpenParen;
    assert s[0] == ')' <==> t.delim == CloseParen;
    assert s[0] == '[' <==> t.delim == OpenBracket;
    assert s[0] == ']' <==> t.delim == CloseBracket;
    assert s[0] == '{' <==> t.delim == OpenBrace;
    assert s[0] == '}' <==> t.delim == CloseBrace;
  }

  /** A binary-operator token is an operator token, and never `?` or `:`. */
  lemma BinopTokenIsOpToken(t: Token)
    ensures IsBinopToken(t) ==> IsOpToken(t)
    ensures IsQuestionMark(t) || IsColon(t) ==> IsOpToken(t) && !IsBinopToken(t)
  {
  }

  /** Only `EOF` renders as `EOF` among the non-textual tokens. */
  lemma EofText(numberText: real -> string)
    ensures TokenText(EOF, numberText) == "EOF"
    ensures forall d: DelimTokenType :: TokenText(Delim(d, Span(0, 0)), numberText) != "EOF"
  {
  }
}
