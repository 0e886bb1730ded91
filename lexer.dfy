// The tokenizer: a cursor over the input that hands out one token at a time.
//
// `Scan` and its helpers are the specification: what one call of `next` returns
// from a given position, and where it leaves the cursor. The `Tokenizer` class is
// the cursor itself, with the scanning loops of the source, proved against them.

module Lexer {
  import opened Errors
  import opened Tokens
  import opened Registry
  import opened Keywords

  /**
   * What a tokenizer reads: the input, the registries that decide which words are
   * operators, and the decimal parser (`Decimal::from_str`), which is outside the model.
   */
  datatype Source = Source(input: string, reg: Registries, parseNumber: string -> Option<real>)

  // ---------------------------------------------------------------- character classes

  /** `is_digit_char`: the characters a number may continue with (the signs are cut off separately). */
  predicate IsDigitChar(c: char) {
    '0' <= c <= '9' || c == '.' || c == '-' || c == 'e' || c == 'E' || c == '+'
  }

  predicate IsWhitespaceChar(c: char) { c == ' ' || c == '\t' || c == '\r' || c == '\n' }

  /** `is_param_char`: letters, digits, `.` and `_`. */
  predicate IsParamChar(c: char) {
    '0' <= c <= '9' || 'a' <= c <= 'z' || 'A' <= c <= 'Z' || c == '.' || c == '_'
  }

  /** The thirteen operator characters. */
  predicate IsOperatorChar(c: char) {
    c == '+' || c == '-' || c == '*' || c == '/' || c == '%' || c == '&' || c == '!' ||
    c == '=' || c == '|' || c == '>' || c == '<' || c == '?' || c == ':'
  }

  predicate IsDelimChar(c: char) { c == '(' || c == ')' || c == '[' || c == ']' || c == '{' || c == '}' }

  predicate IsQuote(c: char) { c == '"' || c == '\'' }

  // ---------------------------------------------------------------- runs

  /** The first position at or after `pos` that is not whitespace. */
  function SkipSpace(input: string, pos: nat): (end: nat)
    requires pos <= |input|
    ensures pos <= end <= |input|
    ensures forall k :: pos <= k < end ==> IsWhitespaceChar(input[k])
    ensures end < |input| ==> !IsWhitespaceChar(input[end])
    decreases |input| - pos
  {
    if pos < |input| && IsWhitespaceChar(input[pos]) then SkipSpace(input, pos + 1) else pos
  }

  /** The end of the run of operator characters starting at `pos`. */
  function OperatorEnd(input: string, pos: nat): (end: nat)
    requires pos <= |input|
    ensures pos <= end <= |input|
    ensures forall k :: pos <= k < end ==> IsOperatorChar(input[k])
    ensures end < |input| ==> !IsOperatorChar(input[end])
    decreases |input| - pos
  {
    if pos < |input| && IsOperatorChar(input[pos]) then OperatorEnd(input, pos + 1) else pos
  }

  /** The end of the run of identifier characters starting at `pos`. */
  function IdentEnd(input: string, pos: nat): (end: nat)
    requires pos <= |input|
    ensures pos <= end <= |input|
    ensures forall k :: pos <= k < end ==> IsParamChar(input[k])
    ensures end < |input| ==> !IsParamChar(input[end])
    decreases |input| - pos
  {
    if pos < |input| && IsParamChar(input[pos]) then IdentEnd(input, pos + 1) else pos
  }

  /**
   * The number loop: a sign stops it when the character before is not both `e`
   * and `E` (which is always), any other digit character extends it.
   */
  function NumberEnd(input: string, pos: nat): (end: nat)
    requires 1 <= pos <= |input|
    ensures pos <= end <= |input|
    decreases |input| - pos
  {
    if pos == |input| then pos
    else
      var ch, cur := input[pos], input[pos - 1];
      if (ch == '+' || ch == '-') && (cur != 'e' || cur != 'E') then pos
      else if IsDigitChar(ch) then NumberEnd(input, pos + 1)
      else pos
  }

  /** The position of the first `q` at or after `pos`, if there is one. */
  function QuoteEnd(input: string, pos: nat, q: char): (r: Option<nat>)
    requires pos <= |input|
    ensures r.Some? ==> pos <= r.value < |input| && input[r.value] == q
    ensures r.Some? ==> forall k :: pos <= k < r.value ==> input[k] != q
    ensures r.None? ==> forall k :: pos <= k < |input| ==> input[k] != q
    decreases |input| - pos
  {
    if pos == |input| then Option.None
    else if input[pos] == q then Some(pos)
    else QuoteEnd(input, pos + 1, q)
  }

  predicate StartsWith(input: string, pos: nat, word: string) {
    pos + |word| <= |input| && input[pos..pos + |word|] == word
  }

  // ---------------------------------------------------------------- one token

  /** An operator token: the whole run of operator characters from `start`. */
  function OperatorScan(src: Source, start: nat): (Result<Token>, nat)
    requires start < |src.input| && IsOperatorChar(src.input[start])
  {
    var end := OperatorEnd(src.input, start + 1);
    (Ok(Operator(src.input[start..end], Span(start, end))), end)
  }

  /** A number token, read by `parseNumber`; text it rejects is an `InvalidNumber`. */
  function NumberScan(src: Source, start: nat): (Result<Token>, nat)
    requires start < |src.input| && '0' <= src.input[start] <= '9'
  {
    var end := NumberEnd(src.input, start + 1);
    var text := src.input[start..end];
    match src.parseNumber(text)
    case Some(v) => (Ok(Number(v, Span(start, end))), end)
    case None => (Err(InvalidNumber(text)), end)
  }

  /** A string token: everything up to the next copy of the opening quote, with no escapes. */
  function StringScan(src: Source, start: nat): (Result<Token>, nat)
    requires start < |src.input| && IsQuote(src.input[start])
  {
    match QuoteEnd(src.input, start + 1, src.input[start])
    case Some(close) => (Ok(String(src.input[start + 1..close], Span(start, close + 1))), close + 1)
    case None => (Err(UnterminatedString(|src.input|)), |src.input|)
  }

  /** Where `next` would leave a cursor at `pos`, and what it would return. */
  function Scan(src: Source, pos: nat): (r: (Result<Token>, nat))
    requires pos <= |src.input|
    ensures pos <= r.1 <= |src.input|
    ensures !r.0.Panic?
    ensures r.0 == Ok(EOF) ==> r.1 == |src.input|
    ensures r.0.Ok? && !r.0.value.EOF? ==> pos < r.1
    decreases |src.input| - pos, 3
  {
    var start := SkipSpace(src.input, pos);
    if start == |src.input| then (Ok(EOF), start) else ScanFrom(src, start)
  }

  /** The token that starts with the character at `start`, chosen by that character. */
  function ScanFrom(src: Source, start: nat): (r: (Result<Token>, nat))
    requires start < |src.input|
    ensures start < r.1 <= |src.input|
    ensures !r.0.Panic? && (r.0.Ok? ==> !r.0.value.EOF?)
    decreases |src.input| - start, 2
  {
    var ch := src.input[start];
    if IsOperatorChar(ch) then OperatorScan(src, start)
    else if IsDelimChar(ch) then (Ok(Delim(DelimFromStr(src.input[start..start + 1]), Span(start, start + 1))), start + 1)
    else if '0' <= ch <= '9' then NumberScan(src, start)
    else if IsQuote(ch) then StringScan(src, start)
    else if ch == ';' then (Ok(Semicolon(src.input[start..start + 1], Span(start, start + 1))), start + 1)
    else if ch == ',' then (Ok(Comma(src.input[start..start + 1], Span(start, start + 1))), start + 1)
    else OtherScan(src, start)
  }

  /** `other_token`: `true`/`false`, a word, or an unsupported character. */
  function OtherScan(src: Source, start: nat): (r: (Result<Token>, nat))
    requires start < |src.input|
    ensures start < r.1 <= |src.input|
    ensures !r.0.Panic? && (r.0.Ok? ==> !r.0.value.EOF?)
    decreases |src.input| - start, 1
  {
    var ch := src.input[start];
    if ch == 't' && StartsWith(src.input, start + 1, "rue") then (Ok(Bool(true, Span(start, start + 4))), start + 4)
    else if ch == 'f' && StartsWith(src.input, start + 1, "alse") then (Ok(Bool(false, Span(start, start + 5))), start + 5)
    else if IsParamChar(ch) then WordScan(src, start)
    else (Err(NotSupportedChar(start, ch)), start + 1)
  }

  /**
   * `op_reference_function_token`: a registered operator word, else a function name
   * when the following token is `(`, else a reference.
   */
  function WordScan(src: Source, start: nat): (r: (Result<Token>, nat))
    requires start < |src.input| && IsParamChar(src.input[start])
    ensures start < r.1 <= |src.input|
    ensures !r.0.Panic? && (r.0.Ok? ==> !r.0.value.EOF?)
    decreases |src.input| - start, 0
  {
    var end := IdentEnd(src.input, start + 1);
    var name := src.input[start..end];
    if KeywordTypeOf(src.reg, name) == Op then (Ok(Operator(name, Span(start, end))), end)
    else
      match Scan(src, end).0
      case Ok(t) =>
        if IsOpenParen(t) then (Ok(Function(name, Span(start, end))), end)
        else (Ok(Reference(name, Span(start, end))), end)
      case Err(e) => (Err(e), end)
  }

  /** `expect`'s verdict on the token it consumed, once the following token was read. */
  function ExpectVerdict(scanned: Result<Token>, consumed: Token, op: string): (r: Result<()>)
    ensures scanned.Ok? ==> (r.Ok? <==> consumed.Delim? || consumed.Operator? || consumed.Comma?)
    ensures scanned.Err? ==> r == Err(scanned.error)
    ensures scanned.Ok? && !r.Ok? ==> r == Err(ExpectedOpNotExist(op))
  {
    match scanned
    case Err(e) => Err(e)
    case Panic => Panic
    case Ok(_) =>
      match consumed
      case Delim(_, _) => Ok(())
      case Operator(_, _) => Ok(())
      case Comma(_, _) => Ok(())
      case _ => Err(ExpectedOpNotExist(op))
  }

  // ---------------------------------------------------------------- the cursor

  class Tokenizer {
    const src: Source
    /** The index of the next unread character, which is also `current()`. */
    var pos: nat
    var curChar: char
    var curToken: Token
    var prevToken: Token

    /** `cur_char` is the last character read, or the initial blank. */
    ghost predicate Valid()
      reads this
    {
      pos <= |src.input| && curChar == (if pos == 0 then ' ' else src.input[pos - 1])
    }

    constructor (src: Source)
      ensures Valid()
      ensures this.src == src && pos == 0 && curToken == EOF && prevToken == EOF
    {
      this.src := src;
      pos := 0;
      curChar := ' ';
      curToken := EOF;
      prevToken := EOF;
    }

    /** A copy with the same position and tokens (`#[derive(Clone)]`). */
    constructor Clone(other: Tokenizer)
      requires other.Valid()
      ensures Valid()
      ensures src == other.src && pos == other.pos && curToken == other.curToken && prevToken == other.prevToken
      ensures curChar == other.curChar
    {
      src := other.src;
      pos := other.pos;
      curChar := other.curChar;
      curToken := other.curToken;
      prevToken := other.prevToken;
    }

    /** `peek_one`: the next character and its index, without reading it. */
    function PeekOne(): (r: Option<(nat, char)>)
      reads this
      requires Valid()
      ensures r.Some? <==> pos < |src.input|
      ensures r.Some? ==> r.value == (pos, src.input[pos])
    {
      if pos < |src.input| then Some((pos, src.input[pos])) else Option.None
    }

    /** `next_one`: reads one character. */
    method NextOne() returns (r: Option<(nat, char)>)
      requires Valid()
      modifies this
      ensures Valid()
      ensures r == old(PeekOne())
      ensures pos == if old(pos) < |src.input| then old(pos) + 1 else old(pos)
      ensures curToken == old(curToken) && prevToken == old(prevToken)
    {
      if pos < |src.input| {
        r := Some((pos, src.input[pos]));
        curChar := src.input[pos];
        pos := pos + 1;
      } else {
        r := Option.None;
      }
    }

    method EatWhitespace()
      requires Valid()
      modifies this
      ensures Valid()
      ensures pos == SkipSpace(src.input, old(pos))
      ensures curToken == old(curToken) && prevToken == old(prevToken)
    {
      while true
        invariant Valid()
        invariant old(pos) <= pos && SkipSpace(src.input, pos) == SkipSpace(src.input, old(pos))
        invariant curToken == old(curToken) && prevToken == old(prevToken)
        decreases |src.input| - pos
      {
        var p := PeekOne();
        if p.None? || !IsWhitespaceChar(p.value.1) {
          return;
        }
        var _ := NextOne();
      }
    }

    method OperatorToken(start: nat) returns (r: Result<Token>)
      requires Valid() && start < |src.input| && pos == start + 1 && IsOperatorChar(src.input[start])
      modifies this
      ensures Valid()
      ensures (r, pos) == OperatorScan(src, start)
      ensures curToken == old(curToken) && prevToken == old(prevToken)
    {
      while true
        invariant Valid() && start < pos
        invariant OperatorEnd(src.input, pos) == OperatorEnd(src.input, start + 1)
        invariant curToken == old(curToken) && prevToken == old(prevToken)
        decreases |src.input| - pos
      {
        var p := PeekOne();
        if p.None? || !IsOperatorChar(p.value.1) {
          break;
        }
        var _ := NextOne();
      }
      r := Ok(Operator(src.input[start..pos], Span(start, pos)));
    }

    method NumberToken(start: nat) returns (r: Result<Token>)
      requires Valid() && start < |src.input| && pos == start + 1 && '0' <= src.input[start] <= '9'
      modifies this
      ensures Valid()
      ensures (r, pos) == NumberScan(src, start)
      ensures curToken == old(curToken) && prevToken == old(prevToken)
    {
      while true
        invariant Valid() && start < pos
        invariant NumberEnd(src.input, pos) == NumberEnd(src.input, start + 1)
        invariant curToken == old(curToken) && prevToken == old(prevToken)
        decreases |src.input| - pos
      {
        var p := PeekOne();
        if p.None? {
          break;
        }
        var ch := p.value.1;
        if (ch == '+' || ch == '-') && (curChar != 'e' || curChar != 'E') {
          break;
        }
        if IsDigitChar(ch) {
          var _ := NextOne();
        } else {
          break;
        }
      }
      var text := src.input[start..pos];
      match src.parseNumber(text)
      case Some(v) => r := Ok(Number(v, Span(start, pos)));
      case None => r := Err(InvalidNumber(text));
    }

    method StringToken(start: nat) returns (r: Result<Token>)
      requires Valid() && start < |src.input| && pos == start + 1 && IsQuote(src.input[start])
      modifies this
      ensures Valid()
      ensures (r, pos) == StringScan(src, start)
      ensures curToken == old(curToken) && prevToken == old(prevToken)
    {
      var identifier := curChar;
      var terminated := false;
      while true
        invariant Valid() && start < pos
        invariant QuoteEnd(src.input, start + 1, identifier) ==
          if terminated then Some(pos - 1) else QuoteEnd(src.input, pos, identifier)
        invariant curToken == old(curToken) && prevToken == old(prevToken)
        decreases |src.input| - pos, if terminated then 0 else 1
      {
        if terminated {
          break;
        }
        var c := NextOne();
        if c.None? {
          break;
        }
        if c.value.1 == identifier {
          terminated := true;
        }
      }
      if !terminated {
        return Err(UnterminatedString(pos));
      }
      r := Ok(String(src.input[start + 1..pos - 1], Span(start, pos)));
    }

    /** `parse_ident`: reads `expected` character by character, stopping at the first mismatch. */
    method ParseIdent(expected: string) returns (ok: bool)
      requires Valid()
      modifies this
      ensures Valid() && old(pos) <= pos
      ensures ok <==> StartsWith(src.input, old(pos), expected)
      ensures ok ==> pos == old(pos) + |expected|
      ensures curToken == old(curToken) && prevToken == old(prevToken)
    {
      for i := 0 to |expected|
        invariant Valid() && pos == old(pos) + i
        invariant StartsWith(src.input, old(pos), expected[..i])
        invariant curToken == old(curToken) && prevToken == old(prevToken)
      {
        var c := NextOne();
        if c.None? || c.value.1 != expected[i] {
          return false;
        }
        assert expected[..i + 1] == expected[..i] + [expected[i]];
      }
      assert expected[..|expected|] == expected;
      return true;
    }

    /** `try_parse_ident`: the same test on a copy, leaving this cursor where it is. */
    method TryParseIdent(expected: string) returns (ok: bool)
      requires Valid()
      ensures ok <==> StartsWith(src.input, pos, expected)
    {
      var copy := new Tokenizer.Clone(this);
      ok := copy.ParseIdent(expected);
    }

    /**
     * `bool_token`, called only after `try_parse_ident` matched the same word, so
     * the word is read again and the `InvalidBool` branch of the source cannot be
     * taken.
     */
    method BoolToken(start: nat, val: bool) returns (r: Result<Token>)
      requires Valid() && pos == start + 1
      requires StartsWith(src.input, pos, if val then "rue" else "alse")
      modifies this
      ensures Valid()
      ensures r == Ok(Bool(val, Span(start, pos)))
      ensures pos == start + (if val then 4 else 5)
      ensures curToken == old(curToken) && prevToken == old(prevToken)
    {
      var _ := ParseIdent(if val then "rue" else "alse");
      r := Ok(Bool(val, Span(start, pos)));
    }

    method OpReferenceFunctionToken(start: nat) returns (r: Result<Token>)
      requires Valid() && start < |src.input| && pos == start + 1 && IsParamChar(src.input[start])
      modifies this
      ensures Valid()
      ensures (r, pos) == WordScan(src, start)
      ensures curToken == old(curToken) && prevToken == old(prevToken)
      decreases |src.input| - pos, 2
    {
      while true
        invariant Valid() && start < pos
        invariant IdentEnd(src.input, pos) == IdentEnd(src.input, start + 1)
        invariant curToken == old(curToken) && prevToken == old(prevToken)
        decreases |src.input| - pos
      {
        var p := PeekOne();
        if p.None? || !IsParamChar(p.value.1) {
          break;
        }
        var _ := NextOne();
      }
      var name := src.input[start..pos];
      match KeywordTypeOf(src.reg, name)
      case Op =>
        r := Ok(Operator(name, Span(start, pos)));
      case Unknown =>
        var token := Peek();
        if token.Err? {
          return Err(token.error);
        }
        if IsOpenParen(token.value) {
          return Ok(Function(src.input[start..pos], Span(start, pos)));
        }
        r := Ok(Reference(src.input[start..pos], Span(start, pos)));
    }

    method OtherToken(ch: char, start: nat) returns (r: Result<Token>)
      requires Valid() && start < |src.input| && pos == start + 1 && ch == src.input[start]
      modifies this
      ensures Valid()
      ensures (r, pos) == OtherScan(src, start)
      ensures curToken == old(curToken) && prevToken == old(prevToken)
      decreases |src.input| - pos, 3
    {
      var isTrue := false;
      var isFalse := false;
      if ch == 't' {
        isTrue := TryParseIdent("rue");
      }
      if !isTrue && ch == 'f' {
        isFalse := TryParseIdent("alse");
      }
      if isTrue || isFalse {
        r := BoolToken(start, ch == 't');
        return;
      }
      if IsParamChar(ch) {
        r := OpReferenceFunctionToken(start);
        return;
      }
      r := Err(NotSupportedChar(start, ch));
    }

    /**
     * `next`: skips whitespace, reads one token and makes it the current one. On an
     * error the current token stays as it was, though the previous token has
     * already been overwritten with it.
     */
    method Next() returns (r: Result<Token>)
      requires Valid()
      modifies this
      ensures Valid()
      ensures (r, pos) == Scan(src, old(pos))
      ensures prevToken == old(curToken)
      ensures curToken == if r.Ok? then r.value else old(curToken)
      decreases |src.input| - pos, 0
    {
      EatWhitespace();
      prevToken := curToken;
      var c := NextOne();
      var t: Result<Token>;
      match c {
        case None =>
          t := Ok(EOF);
        case Some(p) =>
          t := Dispatch(p.1, p.0);
      }
      if !t.Ok? {
        return t;
      }
      curToken := t.value;
      r := Ok(curToken);
    }

    /** The `match` of `next` on the character just read. */
    method Dispatch(ch: char, start: nat) returns (t: Result<Token>)
      requires Valid() && start < |src.input| && pos == start + 1 && ch == src.input[start]
      modifies this
      ensures Valid()
      ensures (t, pos) == ScanFrom(src, start)
      ensures curToken == old(curToken) && prevToken == old(prevToken)
      decreases |src.input| - pos, 4
    {
      if IsOperatorChar(ch) {
        t := OperatorToken(start);
      } else if IsDelimChar(ch) {
        t := Ok(Delim(DelimFromStr(src.input[start..start + 1]), Span(start, start + 1)));
      } else if '0' <= ch <= '9' {
        t := NumberToken(start);
      } else if IsQuote(ch) {
        t := StringToken(start);
      } else if ch == ';' {
        t := Ok(Semicolon(src.input[start..start + 1], Span(start, start + 1)));
      } else if ch == ',' {
        t := Ok(Comma(src.input[start..start + 1], Span(start, start + 1)));
      } else {
        t := OtherToken(ch, start);
      }
    }

    /** `peek`: what `next` would return, computed on a copy. */
    method Peek() returns (r: Result<Token>)
      requires Valid()
      ensures r == Scan(src, pos).0
      decreases |src.input| - pos, 1
    {
      var copy := new Tokenizer.Clone(this);
      r := copy.Next();
    }

    /**
     * `expect`: consumes the current token whatever it is, then accepts it when it is
     * a bracket, an operator or a comma; its text is not compared in the end.
     */
    method Expect(op: string) returns (r: Result<()>)
      requires Valid()
      modifies this
      ensures Valid()
      ensures pos == Scan(src, old(pos)).1
      ensures r == ExpectVerdict(Scan(src, old(pos)).0, old(curToken), op)
      ensures prevToken == old(curToken)
      ensures curToken == if Scan(src, old(pos)).0.Ok? then Scan(src, old(pos)).0.value else old(curToken)
    {
      var token := curToken;
      var n := Next();
      if !n.Ok? {
        return Err(n.error);
      }
      match token {
        case Delim(bracket, _) =>
          if bracket.Text() == op {
            return Ok(());
          }
        case Operator(operator, _) =>
          if operator == op {
            return Ok(());
          }
        case Comma(c, _) =>
          if c == op {
            return Ok(());
          }
        case _ =>
          return Err(ExpectedOpNotExist(op));
      }
      r := Ok(());
    }
  }
}
