// What one call of the tokenizer's `next` produces, stated against the input.

module LexerLaws {
  import opened Errors
  import opened Tokens
  import opened Registry
  import opened Keywords
  import opened Lexer

  /** Skipping whitespace twice is skipping it once. */
  lemma {:induction false} SkipSpaceIdempotent(input: string, pos: nat)
    requires pos <= |input|
    ensures SkipSpace(input, SkipSpace(input, pos)) == SkipSpace(input, pos)
  {
    var end := SkipSpace(input, pos);
    if end < |input| {
      assert !IsWhitespaceChar(input[end]);
    }
  }

  /**
   * Whitespace before a token is ignored: scanning from `pos` is scanning from the
   * first non-blank character, and only blanks lie in between.
   */
  lemma WhitespaceIsSkipped(src: Source, pos: nat)
    requires pos <= |src.input|
    ensures Scan(src, pos) == Scan(src, SkipSpace(src.input, pos))
    ensures forall k :: pos <= k < SkipSpace(src.input, pos) ==> IsWhitespaceChar(src.input[k])
  {
    SkipSpaceIdempotent(src.input, pos);
  }

  /** At the end of the input, and after an `EOF`, `next` keeps returning `EOF`. */
  lemma EofIsSticky(src: Source, pos: nat)
    requires pos <= |src.input|
    ensures Scan(src, |src.input|) == (Ok(EOF), |src.input|)
    ensures Scan(src, pos).0 == Ok(EOF) ==> Scan(src, Scan(src, pos).1) == (Ok(EOF), |src.input|)
    ensures Scan(src, pos).0 == Ok(EOF) <==> SkipSpace(src.input, pos) == |src.input|
  {
  }

  /** Every token's span runs from its first character to where the cursor stops. */
  lemma SpanIsConsumedText(src: Source, pos: nat)
    requires pos <= |src.input|
    ensures var (r, end) := Scan(src, pos);
      r.Ok? && !r.value.EOF? ==> r.value.span == Span(SkipSpace(src.input, pos), end)
  {
    var start := SkipSpace(src.input, pos);
    if start < |src.input| {
      var ch := src.input[start];
      if !IsOperatorChar(ch) && !IsDelimChar(ch) && !('0' <= ch <= '9') && !IsQuote(ch) && ch != ';' && ch != ',' {
        assert Scan(src, pos) == OtherScan(src, start);
        if !(ch == 't' && StartsWith(src.input, start + 1, "rue")) && !(ch == 'f' && StartsWith(src.input, start + 1, "alse")) && IsParamChar(ch) {
          assert OtherScan(src, start) == WordScan(src, start);
        }
      }
    }
  }

  /**
   * An operator token is the whole run of operator characters from where it starts:
   * every character of it is one of the thirteen, and the next one is not.
   */
  lemma OperatorIsMaximalRun(src: Source, pos: nat)
    requires pos <= |src.input|
    requires SkipSpace(src.input, pos) < |src.input| && IsOperatorChar(src.input[SkipSpace(src.input, pos)])
    ensures var start, (r, end) := SkipSpace(src.input, pos), Scan(src, pos);
      && r == Ok(Operator(src.input[start..end], Span(start, end)))
      && start < end
      && (forall k :: start <= k < end ==> IsOperatorChar(src.input[k]))
      && (end < |src.input| ==> !IsOperatorChar(src.input[end]))
  {
  }

  /** So `2++ *3` gives `++` after the `2`, and `a=-3` gives `=-` after the `a`. */
  lemma OperatorExamples(reg: Registries, parseNumber: string -> Option<real>)
    ensures Scan(Source("2++ *3", reg, parseNumber), 1) == (Ok(Operator("++", Span(1, 3))), 3)
    ensures Scan(Source("a=-3", reg, parseNumber), 1) == (Ok(Operator("=-", Span(1, 3))), 3)
  {
    var a := "2++ *3";
    assert SkipSpace(a, 1) == 1;
    assert OperatorEnd(a, 3) == 3;
    assert OperatorEnd(a, 2) == 3;
    assert a[1..3] == "++";
    var b := "a=-3";
    assert SkipSpace(b, 1) == 1;
    assert OperatorEnd(b, 3) == 3;
    assert OperatorEnd(b, 2) == 3;
    assert b[1..3] == "=-";
  }

  /**
   * The characters the number loop takes: digit characters other than a sign. The
   * loop stops at the end, at a sign, or at a character that is no digit character.
   */
  lemma {:induction false} NumberEndMeaning(input: string, pos: nat)
    requires 1 <= pos <= |input|
    ensures var end := NumberEnd(input, pos);
      && (forall k :: pos <= k < end ==> IsDigitChar(input[k]) && input[k] != '+' && input[k] != '-')
      && (end < |input| ==> input[end] == '+' || input[end] == '-' || !IsDigitChar(input[end]))
    decreases |input| - pos
  {
    if pos < |input| {
      var ch := input[pos];
      if !(ch == '+' || ch == '-') && IsDigitChar(ch) {
        NumberEndMeaning(input, pos + 1);
      }
    }
  }

  /**
   * A number token starts with a decimal digit and never contains a sign, so
   * `1e-3` is not one number. Its value is what `parseNumber` makes of its text,
   * and text it rejects is reported as an `InvalidNumber` carrying that text.
   */
  lemma NumberHasNoSign(src: Source, pos: nat)
    requires pos <= |src.input|
    requires SkipSpace(src.input, pos) < |src.input| && '0' <= src.input[SkipSpace(src.input, pos)] <= '9'
    ensures var start, (r, end) := SkipSpace(src.input, pos), Scan(src, pos);
      && start < end
      && (forall k :: start <= k < end ==> src.input[k] != '+' && src.input[k] != '-')
      && (src.parseNumber(src.input[start..end]).Some? ==>
            r == Ok(Number(src.parseNumber(src.input[start..end]).value, Span(start, end))))
      && (src.parseNumber(src.input[start..end]).None? ==> r == Err(InvalidNumber(src.input[start..end])))
  {
    var start := SkipSpace(src.input, pos);
    NumberEndMeaning(src.input, start + 1);
  }

  /** The text `1e-3` stops being a number at the sign. */
  lemma ExponentSignEndsNumber(reg: Registries, parseNumber: string -> Option<real>)
    ensures Scan(Source("1e-3", reg, parseNumber), 0).1 == 2
  {
    var s := "1e-3";
    assert NumberEnd(s, 2) == 2;
    assert NumberEnd(s, 1) == 2;
  }

  /**
   * A string token holds exactly the characters between the opening quote and the
   * next copy of that quote; without one, lexing fails at the end of the input.
   */
  lemma StringContents(src: Source, pos: nat)
    requires pos <= |src.input|
    requires SkipSpace(src.input, pos) < |src.input| && IsQuote(src.input[SkipSpace(src.input, pos)])
    ensures var start, (r, end) := SkipSpace(src.input, pos), Scan(src, pos);
      var q := src.input[start];
      && (r.Ok? ==>
            && start + 2 <= end && src.input[end - 1] == q
            && r.value == String(src.input[start + 1..end - 1], Span(start, end))
            && (forall k :: start < k < end - 1 ==> src.input[k] != q))
      && (!r.Ok? ==>
            && r == Err(UnterminatedString(|src.input|)) && end == |src.input|
            && (forall k :: start < k < |src.input| ==> src.input[k] != q))
  {
  }

  /** Brackets, `,` and `;` are one-character tokens; so is nothing else. */
  lemma SingleCharacterTokens(src: Source, pos: nat)
    requires pos <= |src.input|
    requires SkipSpace(src.input, pos) < |src.input|
    ensures var start, (r, end) := SkipSpace(src.input, pos), Scan(src, pos);
      var ch := src.input[start];
      && (IsDelimChar(ch) ==> r == Ok(Delim(DelimFromChar(ch), Span(start, start + 1))) && end == start + 1)
      && (ch == ',' ==> r == Ok(Comma([ch], Span(start, start + 1))) && end == start + 1)
      && (ch == ';' ==> r == Ok(Semicolon([ch], Span(start, start + 1))) && end == start + 1)
  {
    var start := SkipSpace(src.input, pos);
    DelimFromCharAgrees(src.input[start]);
    assert src.input[start..start + 1] == [src.input[start]];
  }

  /** A character no token can start with is reported with its offset. */
  lemma UnsupportedCharacter(src: Source, pos: nat)
    requires pos <= |src.input|
    requires SkipSpace(src.input, pos) < |src.input|
    requires var ch := src.input[SkipSpace(src.input, pos)];
      !IsOperatorChar(ch) && !IsDelimChar(ch) && !IsQuote(ch) && ch != ';' && ch != ',' && !IsParamChar(ch)
    ensures var start := SkipSpace(src.input, pos);
      Scan(src, pos) == (Err(NotSupportedChar(start, src.input[start])), start + 1)
  {
    var start := SkipSpace(src.input, pos);
    assert Scan(src, pos) == OtherScan(src, start);
  }

  /**
   * A lower-case `true` or `false` is a boolean covering just those letters, even
   * when more identifier characters follow.
   */
  lemma BooleanPrefix(src: Source, pos: nat)
    requires pos <= |src.input|
    requires StartsWith(src.input, SkipSpace(src.input, pos), "true")
    ensures var start := SkipSpace(src.input, pos);
      Scan(src, pos) == (Ok(Bool(true, Span(start, start + 4))), start + 4)
  {
    var start := SkipSpace(src.input, pos);
    StartsWithFirst(src.input, start, "true");
    assert "true"[1..] == "rue";
    assert Scan(src, pos) == OtherScan(src, start);
  }

  lemma BooleanFalsePrefix(src: Source, pos: nat)
    requires pos <= |src.input|
    requires StartsWith(src.input, SkipSpace(src.input, pos), "false")
    ensures var start := SkipSpace(src.input, pos);
      Scan(src, pos) == (Ok(Bool(false, Span(start, start + 5))), start + 5)
  {
    var start := SkipSpace(src.input, pos);
    StartsWithFirst(src.input, start, "false");
    assert "false"[1..] == "alse";
    assert Scan(src, pos) == OtherScan(src, start);
  }

  /** A word starts at `pos` when its first letter is there and the rest follows. */
  lemma StartsWithFirst(input: string, pos: nat, word: string)
    requires pos < |input| && |word| > 0
    ensures StartsWith(input, pos, word) <==> input[pos] == word[0] && StartsWith(input, pos + 1, word[1..])
  {
    if pos + |word| <= |input| {
      assert input[pos..pos + |word|] == [input[pos]] + input[pos + 1..pos + 1 + |word[1..]|];
      assert word == [word[0]] + word[1..];
    }
  }

  /** A word that is not `true`/`false` is scanned by the word rule. */
  lemma WordIsScannedAsWord(src: Source, pos: nat)
    requires pos <= |src.input|
    requires var start := SkipSpace(src.input, pos);
      && start < |src.input| && IsParamChar(src.input[start]) && !('0' <= src.input[start] <= '9')
      && !StartsWith(src.input, start, "true") && !StartsWith(src.input, start, "false")
    ensures Scan(src, pos) == WordScan(src, SkipSpace(src.input, pos))
  {
    var start := SkipSpace(src.input, pos);
    OtherScanOfWord(src, start);
    assert Scan(src, pos) == ScanFrom(src, start);
  }

  /** At an identifier character that starts neither `true` nor `false`, `other_token` takes the word rule. */
  lemma OtherScanOfWord(src: Source, start: nat)
    requires start < |src.input| && IsParamChar(src.input[start]) && !('0' <= src.input[start] <= '9')
    requires !StartsWith(src.input, start, "true") && !StartsWith(src.input, start, "false")
    ensures ScanFrom(src, start) == OtherScan(src, start) == WordScan(src, start)
  {
    StartsWithFirst(src.input, start, "true");
    StartsWithFirst(src.input, start, "false");
  }

  /** A word is the maximal run of identifier characters. */
  lemma WordIsMaximalRun(src: Source, pos: nat)
    requires pos <= |src.input|
    requires var start := SkipSpace(src.input, pos);
      && start < |src.input| && IsParamChar(src.input[start]) && !('0' <= src.input[start] <= '9')
      && !StartsWith(src.input, start, "true") && !StartsWith(src.input, start, "false")
    ensures var start, end := SkipSpace(src.input, pos), Scan(src, pos).1;
      && start < end
      && (forall k :: start <= k < end ==> IsParamChar(src.input[k]))
      && (end < |src.input| ==> !IsParamChar(src.input[end]))
  {
    WordIsScannedAsWord(src, pos);
  }

  /**
   * A registered operator word becomes an operator; any other word is a function
   * name exactly when the next token is `(`, and a reference otherwise; an error in
   * that next token is the word's error.
   */
  lemma WordClassification(src: Source, pos: nat)
    requires pos <= |src.input|
    requires var start := SkipSpace(src.input, pos);
      && start < |src.input| && IsParamChar(src.input[start]) && !('0' <= src.input[start] <= '9')
      && !StartsWith(src.input, start, "true") && !StartsWith(src.input, start, "false")
    ensures var start, (r, end) := SkipSpace(src.input, pos), Scan(src, pos);
      var name := src.input[start..end];
      var next := Scan(src, end).0;
      && (IsOp(src.reg, name) ==> r == Ok(Operator(name, Span(start, end))))
      && (!IsOp(src.reg, name) && next.Ok? && IsOpenParen(next.value) ==> r == Ok(Function(name, Span(start, end))))
      && (!IsOp(src.reg, name) && next.Ok? && !IsOpenParen(next.value) ==> r == Ok(Reference(name, Span(start, end))))
      && (!IsOp(src.reg, name) && next.Err? ==> r == Err(next.error))
  {
    WordIsScannedAsWord(src, pos);
  }

  /** The number of bytes UTF-8 takes to encode a character. */
  function Utf8Len(c: char): (n: nat)
    ensures 1 <= n <= 4
    ensures n == 1 <==> c as int < 0x80
  {
    if c as int < 0x80 then 1
    else if c as int < 0x800 then 2
    else if c as int < 0x1_0000 then 3
    else 4
  }

  /**
   * The byte offset of character index `i`: what `char_indices` reports, and so
   * what the source's spans and error offsets hold where the model holds `i`.
   */
  function ByteOffset(input: string, i: nat): (r: nat)
    requires i <= |input|
    ensures i <= r <= 4 * i
  {
    if i == 0 then 0 else ByteOffset(input, i - 1) + Utf8Len(input[i - 1])
  }

  /** Before any non-ASCII character, byte offsets and character indices coincide. */
  lemma {:induction false} AsciiOffsets(input: string, i: nat)
    requires i <= |input|
    requires forall k :: 0 <= k < i ==> input[k] as int < 0x80
    ensures ByteOffset(input, i) == i
  {
    if i > 0 {
      AsciiOffsets(input, i - 1);
    }
  }

  /** A non-ASCII character puts every later byte offset past its character index. */
  lemma {:induction false} WideCharShiftsOffsets(input: string, k: nat, i: nat)
    requires k < i <= |input|
    requires input[k] as int >= 0x80
    ensures ByteOffset(input, i) > i
  {
    if i - 1 == k {
    } else {
      WideCharShiftsOffsets(input, k, i - 1);
    }
  }
}
