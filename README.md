# expression_engine in Dafny

A model of the core of `expression_engine`, a small expression language for Rust.
Source text such as `a = 3; a + 1 > 2 ? "big" : [1, 2]` goes through four stages:

- **Lexing.** A tokenizer cuts the text into tokens: numbers, strings, booleans, operators, brackets, `,`, `;`, references and function names.
- **Parsing.** A precedence-climbing parser builds a syntax tree from the tokens.
- **Evaluation.** The tree is evaluated against a context of variables and functions. Assignments write to that context.
- **Description.** The tree is turned back into text, either by the canonical renderer or through a table of user-set formatting hooks.

Operators, their precedences and the built-in functions live in shared registries that start-up fills.

The model follows the source file by file:

| file | source | form |
|---|---|---|
| `errors.dfy` | `src/error.rs`, `src/define.rs` | the `Error` variants and a `Result` with an extra `Panic` outcome |
| `values.dfy` | `src/value.rs` | `Value` datatype and its typed extractors |
| `tokens.dfy` | `src/token.rs` | `Token`, `DelimTokenType` and the token predicates |
| `keywords.dfy` | `src/keyword.rs` | the operator-word predicates over the registries |
| `registry.dfy` | `src/init.rs` | the four registries and the start-up that fills them |
| `context.dfy` | `src/context.rs` | `Context` class over a binding map |
| `operators.dfy`, `operator_laws.dfy` | `src/operator.rs` | the built-in handlers, the three operator registries as classes, and their laws |
| `functions.dfy` | `src/function.rs` | `min`/`max`/`sum`/`mul` as loops proved against folds; the function registry class |
| `lexer.dfy`, `lexer_laws.dfy` | `src/tokenizer.rs` | the `Tokenizer` class, each method proved against a scanning function |
| `expr_ast.dfy`, `parser.dfy`, `parser_laws.dfy` | `src/parser.rs` | the `Parser` class, each method proved against a parsing function over tokenizer states |
| `evaluator.dfy`, `eval_laws.dfy` | `src/parser.rs` | `exec` as methods that update a `Context`, proved against an evaluation function |
| `printer.dfy` | `src/parser.rs` | `expr()`, the canonical renderer |
| `hooks.dfy` | `src/descriptor.rs`, `src/decorator.rs`, `src/parser.rs` | the hook table as a class, the default formatters and `describe` |
| `legacy_tree.dfy`, `legacy_parser.dfy`, `legacy_parser_laws.dfy`, `legacy_eval.dfy`, `legacy_eval_laws.dfy`, `legacy_printer.dfy` | `src/ast.rs` | the older `AST` parser, evaluator and renderer, related to the current ones |

Design decisions:

- **Decimals.** A `Decimal` is a Dafny `real`. The decimal library's text conversions are parameters: `parseNumber` for the lexer and `numberText` for the renderers.
- **Evaluation.** Operator handlers and functions are Dafny function values. A handler that is partial in the source, because it panics, is a partial function in the model. The evaluation function gives `Panic` where the source would panic. The `Exec` methods require that no panic happens.
- **Parser.** The parser reads what it needs of the tokenizer as a `LexState`: the position and the current token. Every parser method ensures that the result and the state it leaves behind are those of the matching parsing function.
- **Hook tables.** `descriptor.rs` and `decorator.rs` contain the same code under two names. Both are modelled by one `HookTable` class.

Where the code and its documentation differ, the model follows the code. It does so at these places:

- **Grouping and short-circuiting.** All operators group to the left, assignment `=` included, so `a = b = 3` is `(a = b) = 3`. `&&` and `||` evaluate both operands.
- **Rendering is not read back faithfully.** `expr` parenthesises an operand only when it is a binary node of strictly lower precedence, and a ternary operand never. So the promise that parsing a rendered tree gives a tree of the same value does not hold: `1 - (2 - 3)` and `(1 - 2) - 3` both render as `1 - 2 - 3` and evaluate to 2 and -4 (`Printing.RenderLosesGrouping`), and that text parses as the left-grouped tree (`ParserLaws.PrecedenceNesting`).
- **Keywords.** `True` and `False` are references; only lower-case `true` and `false` are booleans. `keyword.rs` has no keyword manager. A word is an operator exactly when some registry holds it.
- **Number tokens.** The sign test in the number loop of `number_token` always holds, so a number stops at any `+` or `-`: in `1e-3` the number text is `1e`, followed by the operator `-` and the number `3`. Whether `1e` is a number is up to `parseNumber`; the decimal library's `from_str` reads no exponent, so in the source it fails with `InvalidNumber("1e")`.
- **Parser of `parser.rs`.**
  - Only one postfix operator is taken after a primary.
  - A `not` that is not followed by a binary operator applied in the same round is dropped.
  - The `NoCloseDelim` check after the argument loop of `parse_function` can never fire.
  - The test `is_left_paren` in `op_reference_function_token` is read as "the next token is `(`".
- **Parser of `ast.rs`.**
  - Its `parse_op` is never called.
  - Every non-empty parenthesised expression, list, map, argument list and every ternary fails to parse.
  - `{}` leaves its `}` unread.
  - `e;` parses as `Chain([e, None])`, and `2 +` as `Binary("+", 2, None)`.
- **Description hooks.**
  - `get_binary_*` looks up the unary key, so a binary formatter that was set is never used.
  - `describe` calls a postfix getter that `descriptor.rs` does not define, so the postfix formatter is a parameter of `Describe`.

## Model

| member | source | states |
|---|---|---|
| Values.Value.Decimal | src/value.rs:76-81 | succeeds exactly on a number and returns it; every other value gives `ShouldBeNumber` |
| Values.Value.Str | src/value.rs:83-88 | succeeds exactly on a string and returns its text; otherwise `ShouldBeString` |
| Values.Value.Boolean | src/value.rs:90-95 | succeeds exactly on a bool and returns it; otherwise `ShouldBeBool` |
| Values.Value.Integer | src/value.rs:97-105 | succeeds exactly on an integral number inside the `i64` range, returning that integer; otherwise `InvalidInteger` |
| Values.Value.ListItems | src/value.rs:117-122 | succeeds exactly on a list and returns its items; otherwise `ShouldBeList` |
| Values.ExtractorsInvertConversions | src/value.rs:45-73 | each extractor reads back what the matching `From` conversion stored (string, bool, list, decimal, `i64`) |
| Tokens.DelimTokenType.Text | src/token.rs:53-66 | a bracket's text is one character and `Unknown`'s is two (`??`) |
| Tokens.DelimTextRoundTrip | src/token.rs:38-66 | converting a bracket to its text and back gives the same bracket, `Unknown` included |
| Tokens.DelimFromCharAgrees | src/token.rs:23-51 | the conversions from a character and from its one-character string agree; a character names a bracket exactly when it is one of `()[]{}`, whose text is that character |
| Tokens.CheckOpMeaning | src/token.rs:85-100 | `check_op` holds exactly for a bracket or operator token whose text equals the expected text; tokens of other kinds never match |
| Tokens.BracketPredicates | src/token.rs:102-133 | on a bracket token each bracket predicate tests exactly its variant, and `?`/`:` never match |
| Tokens.BinopTokenIsOpToken | src/token.rs:142-154 | a binary-operator token is an operator token; `?` and `:` are operator tokens but not binary ones |
| Tokens.EofText | src/token.rs:163-177 | `EOF` renders as `EOF`, and no bracket token does |
| Tokens.DelimFromChar | src/token.rs:23-36 | defines `DelimTokenType::from(char)`; `DelimFromCharAgrees` states that it agrees with the string conversion and recognises exactly `()[]{}` |
| Tokens.DelimFromStr | src/token.rs:38-51 | defines `DelimTokenType::from(&str)`; `DelimTextRoundTrip` states that it inverts a bracket's text |
| Tokens.CheckOp | src/token.rs:85-100 | defines `check_op`; `CheckOpMeaning` states when it holds |
| Tokens.IsOpenParen | src/token.rs:103-105 | defines `is_open_paren` through `check_op`; `BracketPredicates` states its meaning on each bracket |
| Tokens.IsCloseParen | src/token.rs:107-109 | defines `is_close_paren` through `check_op`; see `BracketPredicates` |
| Tokens.IsOpenBracket | src/token.rs:111-113 | defines `is_open_bracket` through `check_op`; see `BracketPredicates` |
| Tokens.IsCloseBracket | src/token.rs:115-117 | defines `is_close_bracket` through `check_op`; see `BracketPredicates` |
| Tokens.IsOpenBrace | src/token.rs:119-121 | defines `is_open_brace` through `check_op`; see `BracketPredicates` |
| Tokens.IsCloseBrace | src/token.rs:123-125 | defines `is_close_brace` through `check_op`; see `BracketPredicates` |
| Tokens.IsQuestionMark | src/token.rs:127-129 | defines `is_question_mark` through `check_op`; `BracketPredicates` states that no bracket matches it |
| Tokens.IsColon | src/token.rs:131-133 | defines `is_colon` through `check_op`; `BracketPredicates` states that no bracket matches it |
| Tokens.IsEof | src/token.rs:135-140 | defines `is_eof`: the token is `EOF` |
| Tokens.IsOpToken | src/token.rs:142-147 | defines `is_op_token`: any operator token; `BinopTokenIsOpToken` relates it to `is_binop_token` |
| Tokens.IsBinopToken | src/token.rs:149-154 | defines `is_binop_token`: an operator token other than `?` and `:`; see `BinopTokenIsOpToken` |
| Tokens.IsSemicolon | src/token.rs:156-161 | defines `is_semicolon` |
| Tokens.TokenText | src/token.rs:163-177 | `Token::string`: the carried text, the bracket text, the number or boolean as written, or `EOF`; `EofText` states that `EOF` writes `EOF` and no bracket token does |
| Keywords.KeywordTypeOf | src/keyword.rs:19-21 | a name is classified as an operator exactly when `is_op` holds for it |
| Keywords.RegisteringMakesOp | src/keyword.rs:3-21 | registering a name in the prefix, infix or postfix table makes it an operator; other names keep their classification |
| Keywords.BuiltinWords | src/keyword.rs:3-13 | `not`, `in`, `beginWith`, `endWith`, `AND` and `OR` are operators after start-up |
| Keywords.TernaryAlwaysOp | src/keyword.rs:15-25 | `?` and `:` are operators even with empty registries; `not` is the negation word and is an operator only once registered |
| Keywords.IsPrefixOp | src/keyword.rs:3-5 | defines `is_prefix_op`: the name is in the prefix registry; `RegisteringMakesOp` states how registration changes it |
| Keywords.IsInfixOp | src/keyword.rs:7-9 | defines `is_infix_op`: the name is in the infix registry; see `RegisteringMakesOp` |
| Keywords.IsPostfixOp | src/keyword.rs:11-13 | defines `is_postfix_op`: the name is in the postfix registry; see `RegisteringMakesOp` |
| Keywords.IsTernaryOp | src/keyword.rs:15-17 | defines `is_ternary_op`: exactly `?` and `:`; `TernaryAlwaysOp` states that they are operators whatever the registries hold |
| Keywords.IsOp | src/keyword.rs:19-21 | defines `is_op` as one of the four tests; `KeywordTypeOf` and `BuiltinWords` state what it classifies |
| Keywords.IsNot | src/keyword.rs:23-25 | defines `is_not`: exactly the word `not` |
| Registry.Started | src/init.rs:7-12 | the start-up enters every built-in name into its table; `StartedFromEmpty` and `StartedOverrides` state what results |
| Registry.StartedFromEmpty | src/init.rs:5-13 | the start-up run on empty registries leaves exactly the built-in prefix, infix and postfix operators and functions |
| Registry.StartedOverrides | src/init.rs:5-13 | after the start-up every built-in name holds its built-in entry, replacing an earlier user entry, and every other name keeps its entry |
| Registry.FunctionsInitIsUnion | src/function.rs:22-80 | registering `min`, `max`, `sum` and `mul` one at a time adds the built-in function table |
| Registry.Engine.Unstarted | src/init.rs:5-6 | the process before `init`: all four registries empty and the guard unset |
| Registry.Engine.Init | src/init.rs:5-13 | the first call runs the start-up on the registries as they stand and sets the guard; every later call leaves the registries unchanged, user registrations made since included |
| Registry.Engine.constructor | src/init.rs:5-13 | after the first `init` the guard is set and the four registries hold exactly the built-in prefix, infix and postfix operators and the built-in functions |
| Contexts.BindingIn | src/context.rs:49-53 | `get` finds a binding exactly when the name is bound, and returns that binding |
| Contexts.FunctionIn | src/context.rs:33-39 | `get_func` finds something exactly when the name is bound to a function, and returns it |
| Contexts.VariableIn | src/context.rs:41-47 | `get_variable` finds something exactly when the name is bound to a variable, and returns its value |
| Contexts.ValueIn | src/context.rs:55-65 | `value`: an unbound name reads as `None`, a variable as its value, and a function as the result of calling it with no arguments |
| Contexts.SetVariableMeaning | src/context.rs:25-47 | after binding a variable, the name reads back as that value and not as a function; every other name reads as before |
| Contexts.SetFunctionMeaning | src/context.rs:21-39 | after binding a function, the name reads back as that function and not as a variable; every other name reads as before |
| Contexts.VariableOrFunction | src/context.rs:33-47 | a name never reads both as a variable and as a function; it is bound exactly when it reads as one of them |
| Contexts.Context.constructor | src/context.rs:17-19 | a new context has no bindings |
| Contexts.Context.Set | src/context.rs:29-31 | `set` inserts or replaces exactly one binding |
| Contexts.Context.SetFunc | src/context.rs:21-23 | `set_func` replaces exactly one binding; afterwards the name reads as that function and not as a variable |
| Contexts.Context.SetVariable | src/context.rs:25-27 | `set_variable` replaces exactly one binding; afterwards the name reads as that variable and not as a function |
| Contexts.Context.Get | src/context.rs:49-53 | `get` finds a binding exactly when the name is bound, and returns that binding |
| Contexts.Context.GetFunc | src/context.rs:33-39 | `get_func` finds something exactly when `get` finds a function binding, and returns that function |
| Contexts.Context.GetVariable | src/context.rs:41-47 | `get_variable` finds something exactly when `get` finds a variable binding, and returns its value |
| Contexts.Context.Value | src/context.rs:55-65 | `value`: an unbound name reads as `None`, a variable as its value, and a function as the result of calling it with no arguments |
| Operators.Trunc | src/operator.rs:161-179 | truncation toward zero: the result lies between zero and the argument, less than one away from the argument |
| Operators.FromBits | src/operator.rs:141-159 | the integer read from 64 bits is always inside the `i64` range |
| Operators.BitOr | src/operator.rs:141-159 | bitwise or on two `i64` values stays inside the `i64` range |
| Operators.BitXor | src/operator.rs:141-159 | bitwise xor on two `i64` values stays inside the `i64` range |
| Operators.BitAnd | src/operator.rs:141-159 | bitwise and on two `i64` values stays inside the `i64` range |
| Operators.ShiftLeft | src/operator.rs:141-159 | `<<` with an amount in 0..63 stays inside the `i64` range |
| Operators.ShiftRight | src/operator.rs:141-159 | `>>` with an amount in 0..63 stays inside the `i64` range |
| Operators.ApplyInteger | src/operator.rs:67-85 | every integer handler's arithmetic stays inside the `i64` range |
| Operators.LookupBinary | src/operator.rs:230-237 | `get` succeeds exactly for a registered operator and returns its handler; otherwise `BinaryOpNotRegistered` |
| Operators.Precedence | src/operator.rs:239-246 | a registered operator's precedence, and -1 for any other name |
| Operators.OpTypeOf | src/operator.rs:254-261 | `get_op_type` succeeds exactly for a registered operator and returns its kind; otherwise `BinaryOpNotRegistered` |
| Operators.LookupUnary | src/operator.rs:362-369 | prefix and postfix `get` succeed exactly for a registered operator; otherwise `UnaryOpNotRegistered` |
| Operators.InsertByPrecedenceContents | src/operator.rs:263-271 | inserting into the `operators` list adds exactly the one entry |
| Operators.InsertByPrecedenceSorted | src/operator.rs:263-271 | inserting into a list sorted by precedence keeps it sorted |
| Operators.InsertByPrecedenceDistinct | src/operator.rs:263-271 | inserting a new name keeps the names distinct |
| Operators.BinaryOpFuncManager.constructor | src/operator.rs:36-41 | the infix table starts empty |
| Operators.BinaryOpFuncManager.Init | src/operator.rs:43-215 | `init` adds all built-in infix operators, overriding entries of the same names |
| Operators.BinaryOpFuncManager.Register | src/operator.rs:217-228 | `register` replaces exactly one entry; the name then reads back with that handler, precedence and kind |
| Operators.BinaryOpFuncManager.Redirect | src/operator.rs:248-252 | `redirect` gives `source` the whole entry of `target`, including its precedence, and changes nothing else |
| Operators.BinaryOpFuncManager.Operators | src/operator.rs:263-271 | `operators` lists every registered name with its precedence, each exactly once, sorted by non-decreasing precedence |
| Operators.UnaryOpFuncManager.constructor | src/operator.rs:280-284 | the prefix table starts empty |
| Operators.UnaryOpFuncManager.Init | src/operator.rs:286-356 | `init` adds `-`, `+`, `!`, `not`, `AND` and `OR` |
| Operators.UnaryOpFuncManager.Register | src/operator.rs:358-360 | `register` replaces exactly one entry, which `get` then returns |
| Operators.PostfixOpFuncManager.constructor | src/operator.rs:378-382 | the postfix table starts empty |
| Operators.PostfixOpFuncManager.Init | src/operator.rs:384-406 | `init` adds `++` and `--` |
| Operators.PostfixOpFuncManager.Register | src/operator.rs:408-410 | `register` replaces exactly one entry, which `get` then returns |
| Operators.BinaryOpFuncManager.Get | src/operator.rs:230-237 | `get` succeeds exactly for a registered operator and returns its handler; otherwise `BinaryOpNotRegistered` |
| Operators.BinaryOpFuncManager.GetPrecedence | src/operator.rs:239-246 | a registered operator's precedence, and -1 for any other name |
| Operators.BinaryOpFuncManager.GetOpType | src/operator.rs:254-261 | `get_op_type` succeeds exactly when `get` does and returns the operator's kind; otherwise `BinaryOpNotRegistered` |
| Operators.BinaryOpFuncManager.Exist | src/operator.rs:273-276 | `exist` holds exactly when `get` succeeds; an operator that does not exist has precedence -1 |
| Operators.UnaryOpFuncManager.Get | src/operator.rs:362-369 | `get` succeeds exactly for a registered prefix operator; otherwise `UnaryOpNotRegistered` |
| Operators.UnaryOpFuncManager.Exist | src/operator.rs:371-374 | `exist` holds exactly when `get` succeeds |
| Operators.PostfixOpFuncManager.Get | src/operator.rs:412-419 | `get` succeeds exactly for a registered postfix operator; otherwise `UnaryOpNotRegistered` |
| Operators.PostfixOpFuncManager.Exist | src/operator.rs:421-424 | `exist` holds exactly when `get` succeeds |
| Operators.Divide | src/operator.rs:161-179 | `/` succeeds exactly on two numbers, with a quotient that times the divisor gives the dividend; any other operand gives `ShouldBeNumber` |
| Operators.Remainder | src/operator.rs:161-179 | `%` succeeds exactly on two numbers; the dividend is the divisor times the truncated quotient plus the result; any other operand gives `ShouldBeNumber` |
| Operators.BeginWith | src/operator.rs:181-189 | succeeds exactly on two strings and tells whether the right one is a prefix of the left; otherwise `ShouldBeString` |
| Operators.EndWith | src/operator.rs:191-199 | succeeds exactly on two strings and tells whether the right one is a suffix of the left; otherwise `ShouldBeString` |
| Operators.In | src/operator.rs:201-214 | succeeds exactly when the right operand is a list, with a boolean; otherwise `ShouldBeList`. `OperatorLaws.InMeaning` states that the boolean is membership |
| Operators.Negate | src/operator.rs:287-297 | prefix `-` succeeds exactly on a number and gives the number that adds to it to zero; otherwise `ShouldBeNumber` |
| Operators.Identity | src/operator.rs:298-307 | prefix `+` succeeds exactly on a number and returns it unchanged; otherwise `ShouldBeNumber` |
| Operators.Not | src/operator.rs:309-329 | `!` and `not` succeed exactly on a bool and give the other bool; otherwise `ShouldBeBool` |
| Operators.And | src/operator.rs:331-342 | `AND` of a non-list is `ShouldBeList` and of the empty list `true`; `OperatorLaws.AndMeaning` states the rest |
| Operators.Or | src/operator.rs:344-355 | `OR` of a non-list is `ShouldBeList` and of the empty list `false`; `OperatorLaws.OrMeaning` states the rest |
| Operators.Increment | src/operator.rs:385-394 | postfix `++` succeeds exactly on a number and gives the number one larger; otherwise `ShouldBeNumber` |
| Operators.Decrement | src/operator.rs:396-405 | postfix `--` succeeds exactly on a number and gives the number one smaller; otherwise `ShouldBeNumber` |
| OperatorLaws.ContainsFromMeaning | src/operator.rs:201-214 | the membership scan finds `x` exactly when it occurs in the list from the index on |
| OperatorLaws.InMeaning | src/operator.rs:201-214 | `in` is list membership of the left operand; a right operand that is no list fails with `ShouldBeList` |
| OperatorLaws.AllFromMeaning | src/operator.rs:331-342 | the `AND` scan: true when every remaining item is `true`, false at the first `false`, `ShouldBeBool` at a non-boolean before any `false` |
| OperatorLaws.AnyFromMeaning | src/operator.rs:344-355 | the `OR` scan: the same with `true` and `false` exchanged |
| OperatorLaws.AndMeaning | src/operator.rs:331-342 | prefix `AND` over a list is the scan from the start; a non-list fails with `ShouldBeList` |
| OperatorLaws.OrMeaning | src/operator.rs:344-355 | prefix `OR` over a list is the scan from the start; a non-list fails with `ShouldBeList` |
| OperatorLaws.RemainderMeaning | src/operator.rs:161-179 | decimal `%`: the dividend is the truncated quotient times the divisor plus the remainder; the remainder is smaller than the divisor in size and has the sign of the dividend |
| OperatorLaws.DivisionDomain | src/operator.rs:161-179 | the built-in `/` and `%` handlers are undefined exactly at a zero divisor |
| OperatorLaws.ShiftDomain | src/operator.rs:141-159 | the built-in `<<` and `>>` handlers are undefined exactly for an amount outside 0..63 |
| OperatorLaws.DecimalAssignments | src/operator.rs:45-65 | `=`, `+=` and `-=` are setters at precedence 20; the compound ones reuse the decimal arithmetic |
| OperatorLaws.DivisionAssignments | src/operator.rs:47-65 | `*=`, `/=` and `%=` are setters at precedence 20 with the handlers of `*`, `/` and `%` |
| OperatorLaws.IntegerAssignments | src/operator.rs:67-85 | the bitwise and, xor and or assignments are setters at precedence 20 with the integer handlers |
| OperatorLaws.ShiftAssignments | src/operator.rs:67-85 | `<<=` and `>>=` are setters at precedence 20 with the shift handlers |
| OperatorLaws.LogicPrecedences | src/operator.rs:87-139 | logical or at 40, logical and at 50, `==` and `!=` at 60, all calculations |
| OperatorLaws.ComparisonPrecedences | src/operator.rs:104-122 | `<`, `<=`, `>` and `>=` at 60, all calculations |
| OperatorLaws.BitwisePrecedences | src/operator.rs:141-159 | bitwise or at 70, xor at 80, and at 90, `<<` and `>>` at 100, all calculations with the integer handlers |
| OperatorLaws.ArithmeticPrecedences | src/operator.rs:161-214 | `+`/`-` 110, `*`/`/`/`%` 120, and `beginWith`/`endWith`/`in` 200, all calculations |
| OperatorLaws.UnknownOperator | src/operator.rs:230-246 | an unregistered operator has precedence -1 and no handler |
| OperatorLaws.AssignAndEquality | src/operator.rs:45-139 | `=` yields its right operand; `==` and `!=` never fail and compare whole values |
| OperatorLaws.LogicMeaning | src/operator.rs:87-102 | logical and and logical or read both operands as booleans, the left one first, and compute the conjunction or disjunction |
| OperatorLaws.TextMeaning | src/operator.rs:181-199 | `beginWith` and `endWith` are prefix and suffix tests on two strings |
| OperatorLaws.UnaryInverses | src/operator.rs:287-406 | prefix `-` and `!` undo themselves, and postfix `--` undoes `++` |
| OperatorLaws.RegisterBinary | src/operator.rs:217-246 | registering an infix operator replaces exactly that entry; other names keep their precedence and handler |
| Functions.MinFromMeaning | src/function.rs:23-39 | the `min` loop from any index: fails exactly on no parameters or a non-number, otherwise returns the least number |
| Functions.MaxFromMeaning | src/function.rs:41-57 | the `max` loop from any index: fails exactly on no parameters or a non-number, otherwise returns the greatest number |
| Functions.MinMeaning | src/function.rs:23-39 | `min` returns the least parameter; no parameters give `ParamEmpty("min")` and a non-number gives `ShouldBeNumber` |
| Functions.MaxMeaning | src/function.rs:41-57 | `max` returns the greatest parameter; no parameters give `ParamEmpty("max")` and a non-number gives `ShouldBeNumber` |
| Functions.SumFromMeaning | src/function.rs:59-68 | the `sum` loop from any index adds the remaining numbers to the accumulator; a non-number gives `ShouldBeNumber` |
| Functions.MulFromMeaning | src/function.rs:70-79 | the `mul` loop from any index multiplies the accumulator by the remaining numbers |
| Functions.MulFromRejects | src/function.rs:70-79 | a non-number among the remaining parameters makes the `mul` loop fail with `ShouldBeNumber` |
| Functions.MulStep | src/function.rs:70-79 | one round of the `mul` loop multiplies the accumulator by the current number |
| Functions.SumMeaning | src/function.rs:59-68 | `sum` is the total of its parameters, zero for none; a non-number gives `ShouldBeNumber` |
| Functions.MulMeaning | src/function.rs:70-79 | `mul` is the product of its parameters, one for none; a non-number gives `ShouldBeNumber` |
| Functions.Min | src/function.rs:23-39 | the loop computes `min` as specified |
| Functions.Max | src/function.rs:41-57 | the loop computes `max` as specified |
| Functions.Sum | src/function.rs:59-68 | the loop computes `sum` as specified |
| Functions.Mul | src/function.rs:70-79 | the loop computes `mul` as specified |
| Functions.LookupFunction | src/function.rs:86-93 | `get` succeeds exactly for a registered name and returns its function; otherwise `InnerFunctionNotRegistered` |
| Functions.InnerFunctionManager.constructor | src/function.rs:16-20 | the function table starts empty |
| Functions.InnerFunctionManager.Init | src/function.rs:22-80 | `init` registers `min`, `max`, `sum` and `mul`, overriding entries of those names |
| Functions.InnerFunctionManager.Register | src/function.rs:82-84 | `register` replaces exactly one entry, which `get` then returns |
| Functions.InnerFunctionManager.Get | src/function.rs:86-93 | `get` succeeds exactly for a registered name and returns its function; otherwise `InnerFunctionNotRegistered` |
| Lexer.SkipSpace | src/tokenizer.rs:247-257 | the first position at or after the start that is not whitespace; everything skipped is whitespace |
| Lexer.OperatorEnd | src/tokenizer.rs:119-136 | the end of the run of operator characters: all characters before it are operator characters, the one at it is not |
| Lexer.IdentEnd | src/tokenizer.rs:162-196 | the end of the run of identifier characters: all before it are identifier characters, the one at it is not |
| Lexer.NumberEnd | src/tokenizer.rs:138-160 | the number loop stops inside the input at or after the start |
| Lexer.QuoteEnd | src/tokenizer.rs:198-219 | the position of the first matching quote at or after the start, or none when the input has no such quote |
| Lexer.OperatorScan | src/tokenizer.rs:119-136 | defines `operator_token` on the input: the operator run from the start; `LexerLaws.OperatorIsMaximalRun` states that it is the whole run |
| Lexer.NumberScan | src/tokenizer.rs:138-160 | defines `number_token` on the input; `LexerLaws.NumberEndMeaning` and `LexerLaws.NumberHasNoSign` state where it stops and what it yields |
| Lexer.StringScan | src/tokenizer.rs:198-219 | defines `string_token` on the input; `LexerLaws.StringContents` states the contents and the unterminated case |
| Lexer.Scan | src/tokenizer.rs:38-55 | `next` never moves backwards and never panics; it returns `EOF` only at the end, and every other token consumes input |
| Lexer.ScanFrom | src/tokenizer.rs:41-53 | the token chosen by its first character consumes at least that character and is never `EOF` |
| Lexer.OtherScan | src/tokenizer.rs:57-66 | `other_token` consumes at least one character and never yields `EOF` |
| Lexer.WordScan | src/tokenizer.rs:162-196 | `op_reference_function_token` consumes at least one character and never yields `EOF` |
| Lexer.ExpectVerdict | src/tokenizer.rs:72-96 | `expect` accepts exactly a consumed bracket, operator or comma; an error in reading the next token wins; any other token gives `ExpectedOpNotExist` |
| Lexer.Tokenizer.constructor | src/tokenizer.rs:8-26 | a new tokenizer stands at position 0 with `EOF` as its current and previous token |
| Lexer.Tokenizer.Clone | src/tokenizer.rs:8-26 | a copy has the same input, position and tokens |
| Lexer.Tokenizer.PeekOne | src/tokenizer.rs:34-36 | returns the character at the position, and its index, exactly when input remains |
| Lexer.Tokenizer.NextOne | src/tokenizer.rs:28-32 | returns what `peek_one` would and moves past that character, if there is one |
| Lexer.Tokenizer.EatWhitespace | src/tokenizer.rs:247-257 | moves to the first non-whitespace position and changes no token |
| Lexer.Tokenizer.OperatorToken | src/tokenizer.rs:119-136 | reads the operator run as `OperatorScan` specifies |
| Lexer.Tokenizer.NumberToken | src/tokenizer.rs:138-160 | reads the number as `NumberScan` specifies, the error included |
| Lexer.Tokenizer.StringToken | src/tokenizer.rs:198-219 | reads the string as `StringScan` specifies, the error included |
| Lexer.Tokenizer.ParseIdent | src/tokenizer.rs:233-245 | succeeds exactly when the expected word follows the position, and then moves past it |
| Lexer.Tokenizer.TryParseIdent | src/tokenizer.rs:229-231 | the same test as `parse_ident`, run on a copy so the cursor does not move |
| Lexer.Tokenizer.BoolToken | src/tokenizer.rs:221-227 | yields the boolean spanning `true` or `false` and moves past that word |
| Lexer.Tokenizer.OpReferenceFunctionToken | src/tokenizer.rs:162-196 | reads a word as `WordScan` specifies |
| Lexer.Tokenizer.OtherToken | src/tokenizer.rs:57-66 | reads a boolean, a word or an unsupported character as `OtherScan` specifies |
| Lexer.Tokenizer.Next | src/tokenizer.rs:38-55 | `next` returns what `Scan` specifies and moves there; the old current token becomes the previous token, and on success the result becomes the current one |
| Lexer.Tokenizer.Dispatch | src/tokenizer.rs:41-53 | the dispatch on the first character reads the token that `ScanFrom` specifies |
| Lexer.Tokenizer.Peek | src/tokenizer.rs:68-70 | `peek` returns what `next` would return and leaves the tokenizer unchanged |
| Lexer.Tokenizer.Expect | src/tokenizer.rs:72-96 | `expect` advances as `next` does and returns the verdict of `ExpectVerdict` on the token it consumed |
| LexerLaws.SkipSpaceIdempotent | src/tokenizer.rs:247-257 | skipping whitespace twice is skipping it once |
| LexerLaws.WhitespaceIsSkipped | src/tokenizer.rs:38-55 | whitespace before a token does not change the token: scanning from before it is scanning from the first non-blank character |
| LexerLaws.EofIsSticky | src/tokenizer.rs:38-55 | at the end of the input `next` keeps returning `EOF` and stays put |
| LexerLaws.SpanIsConsumedText | src/tokenizer.rs:38-160 | every token's span runs from its first character to where the cursor stops |
| LexerLaws.OperatorIsMaximalRun | src/tokenizer.rs:119-136 | an operator token is the whole run of operator characters from its start, whether or not it is registered |
| LexerLaws.OperatorExamples | src/tokenizer.rs:119-136 | `2++ *3` lexes `++` after the `2`, and `a=-3` lexes `=-` after the `a` |
| LexerLaws.NumberEndMeaning | src/tokenizer.rs:138-160 | the number loop takes exactly the digit characters other than a sign, and stops at the end, at a sign or at a non-digit character |
| LexerLaws.NumberHasNoSign | src/tokenizer.rs:138-160 | a number token starts with a digit and contains no sign; its value is the parse of its text, and text the parse rejects gives `InvalidNumber` with that text |
| LexerLaws.ExponentSignEndsNumber | src/tokenizer.rs:146-152 | the number in `1e-3` ends before the `-` |
| LexerLaws.StringContents | src/tokenizer.rs:198-219 | a string token holds exactly the characters up to the next matching quote; an unclosed string fails with `UnterminatedString` |
| LexerLaws.SingleCharacterTokens | src/tokenizer.rs:98-117 | brackets, `,` and `;` are one-character tokens, and they are the only ones |
| LexerLaws.UnsupportedCharacter | src/tokenizer.rs:57-66 | a character no token can start with fails with `NotSupportedChar`, carrying its offset |
| LexerLaws.BooleanPrefix | src/tokenizer.rs:57-66 | `true` becomes a boolean covering just those four letters, even when more identifier characters follow |
| LexerLaws.BooleanFalsePrefix | src/tokenizer.rs:57-66 | `false` becomes a boolean covering just those five letters, even when more identifier characters follow |
| LexerLaws.WordIsScannedAsWord | src/tokenizer.rs:57-66 | an identifier that does not start with `true` or `false` is read by the word rule |
| LexerLaws.WordIsMaximalRun | src/tokenizer.rs:162-196 | a word is the whole run of identifier characters from its start |
| LexerLaws.WordClassification | src/tokenizer.rs:162-196 | a registered operator word is an operator; any other word is a function name exactly when the next token is `(`, and a reference otherwise; an error in that next token is the word's error |
| LexerLaws.Utf8Len | src/tokenizer.rs:28-36 | the number of bytes UTF-8 gives a character: one exactly for ASCII, never more than four |
| LexerLaws.ByteOffset | src/tokenizer.rs:28-36 | the byte offset `char_indices` reports for a character index: at least the index and at most four times it |
| LexerLaws.AsciiOffsets | src/tokenizer.rs:28-36 | while the input before an index is ASCII, the byte offset equals the character index, so the model's offsets are the source's |
| LexerLaws.WideCharShiftsOffsets | src/tokenizer.rs:28-36 | after a non-ASCII character every byte offset exceeds its character index, so there the model's offsets differ from the source's |
| Parsing.Advance | src/parser.rs:441-443 | reading a token never moves backwards, keeps `EOF` at the end only, and consumes input unless the current token is `EOF` |
| Parsing.ExpectOp | src/parser.rs:445-447 | a successful `expect` consumes a token |
| Parsing.TokenExpr | src/parser.rs:449-474 | `parse_token` never panics, and when it succeeds it has consumed input |
| Parsing.Primary | src/parser.rs:498-506 | `parse_primary` never panics and, on success, has consumed input |
| Parsing.Expression | src/parser.rs:493-496 | `parse_expression` never panics and, on success, has consumed input |
| Parsing.OpClimb | src/parser.rs:508-548 | the operator loop never panics and never moves backwards |
| Parsing.TernaryTail | src/parser.rs:522-528 | the ternary branch never panics and, on success, has consumed input |
| Parsing.TernaryBranches | src/parser.rs:524-527 | what follows the `?` never panics and, on success, has consumed input |
| Parsing.RightOperand | src/parser.rs:536-541 | the right operand of an operator never panics and, on success, has consumed input |
| Parsing.Delimited | src/parser.rs:557-565 | `parse_delim` never panics and, on success, has consumed input |
| Parsing.ParenExpr | src/parser.rs:567-575 | `parse_open_paren` never panics and, on success, has consumed input |
| Parsing.BracketExpr | src/parser.rs:577-591 | `parse_open_bracket` never panics and, on success, has consumed input |
| Parsing.BracketItems | src/parser.rs:577-591 | the list loop never panics and, on success, has consumed input |
| Parsing.BraceExpr | src/parser.rs:593-610 | `parse_open_brace` never panics and, on success, has consumed input |
| Parsing.BraceItems | src/parser.rs:593-610 | the map loop never panics and, on success, has consumed input |
| Parsing.UnaryExpr | src/parser.rs:612-615 | `parse_unary` never panics and, on success, has consumed input |
| Parsing.FunctionCall | src/parser.rs:617-639 | `parse_function` never panics and, on success, has consumed input |
| Parsing.CallArgs | src/parser.rs:617-639 | the argument loop never panics and, on success, has consumed input |
| Parsing.ChainItems | src/parser.rs:476-491 | the statement loop never panics and, on success, stops at `EOF` |
| Parsing.ChainExpression | src/parser.rs:476-491 | `parse_chain_expression` never panics |
| Parsing.Start | src/parser.rs:429-435 | a parser starts in a consistent tokenizer state when it starts at all |
| Parsing.Parser.New | src/parser.rs:429-435 | `Parser::new` succeeds exactly when reading the first token does, and then stands where `Start` says; otherwise it returns that error |
| Parsing.Parser.FromTokenizer | src/parser.rs:429-435 | a parser over the given tokenizer |
| Parsing.Parser.Next | src/parser.rs:441-443 | `next` moves the tokenizer as `Advance` says and returns the new current token, or the error of reading it |
| Parsing.Parser.Expect | src/parser.rs:445-447 | `expect` moves the tokenizer as `ExpectOp` says and returns its verdict |
| Parsing.Parser.ParseToken | src/parser.rs:449-474 | returns the tree `TokenExpr` specifies and leaves the tokenizer where it says |
| Parsing.Parser.ParseChainExpression | src/parser.rs:476-491 | returns the tree `ChainExpression` specifies and leaves the tokenizer where it says |
| Parsing.Parser.ParseExpression | src/parser.rs:493-496 | returns the tree `Expression` specifies and leaves the tokenizer where it says |
| Parsing.Parser.ParsePrimary | src/parser.rs:498-506 | returns the tree `Primary` specifies and leaves the tokenizer where it says |
| Parsing.Parser.ParseOp | src/parser.rs:508-548 | the loop returns the tree `OpClimb` specifies and leaves the tokenizer where it says |
| Parsing.Parser.ParseTernaryTail | src/parser.rs:522-528 | returns the ternary `TernaryTail` specifies |
| Parsing.Parser.ParseTernaryBranches | src/parser.rs:524-527 | reads the two branches and the `:` between them as `TernaryBranches` specifies, the errors included |
| Parsing.Parser.ParseRightOperand | src/parser.rs:536-541 | returns the right operand `RightOperand` specifies |
| Parsing.Parser.ParseDelim | src/parser.rs:557-565 | returns the tree `Delimited` specifies |
| Parsing.Parser.ParseOpenParen | src/parser.rs:567-575 | returns the tree `ParenExpr` specifies |
| Parsing.Parser.ParseOpenBracket | src/parser.rs:577-591 | the loop returns the list `BracketExpr` specifies |
| Parsing.Parser.ParseOpenBrace | src/parser.rs:593-610 | the loop returns the map `BraceExpr` specifies |
| Parsing.Parser.ParseEntry | src/parser.rs:600-606 | one `key: value` entry and its `,` leave the map loop where `BraceItems` continues, with the entry appended; a failure is the error `BraceItems` gives |
| Parsing.Parser.ParseUnary | src/parser.rs:612-615 | returns the tree `UnaryExpr` specifies |
| Parsing.Parser.ParseFunction | src/parser.rs:617-639 | the loop returns the call `FunctionCall` specifies |
| ParserLaws.OperandAtEnd | src/parser.rs:449-474 | end of input where an operand is due fails with `UnexpectedEOF(0)` |
| ParserLaws.UnclosedAtEnd | src/parser.rs:577-639 | a list, map or argument list still open at the end of input fails |
| ParserLaws.ClimbStopsAtOperand | src/parser.rs:511-513 | a token that is no operator ends the climb without being consumed |
| ParserLaws.ClimbStopsBelowMinimum | src/parser.rs:529-532 | an operator binding looser than the minimum ends the climb without being consumed |
| ParserLaws.UnregisteredOperatorStops | src/parser.rs:529-532 | an operator missing from the infix table ends every climb |
| ParserLaws.PendingNotDropped | src/parser.rs:514-532 | a pending `not` is dropped when the operator after it stops the climb |
| ParserLaws.PrecedenceNesting | src/parser.rs:529-546 | in `a op1 b op2 c` a strictly tighter `op2` nests to the right; otherwise the operators group to the left |
| ParserLaws.NotWrapsBinary | src/parser.rs:514-546 | `a not op b` parses as `not (a op b)` |
| ParserLaws.NotNeedsOperator | src/parser.rs:514-519 | `not` followed by anything other than a binary operator fails with `ExpectBinOpToken` |
| ParserLaws.TernaryShape | src/parser.rs:522-528 | `cond ? a : b` parses as a ternary whose branches are whole expressions |
| ParserLaws.ClimbAtQuestionMark | src/parser.rs:522-528 | at a `?` the operator climb is exactly the ternary branch, whatever the precedence floor and pending `not` |
| ParserLaws.EmptyInputIsEmptyChain | src/parser.rs:476-491 | input holding no statement parses as the empty chain |
| ParserLaws.SingleStatement | src/parser.rs:476-491 | one statement, with or without a final `;`, stands for itself |
| ParserLaws.TwoStatements | src/parser.rs:476-491 | two statements make a two-item chain in order, with or without a `;` between them |
| ParserLaws.ParseReadsEverything | src/parser.rs:476-491 | a successful parse has read the whole input |
| Evaluation.LiteralValue | src/parser.rs:126-132 | a number, bool or string literal evaluates to that number, bool or string |
| Evaluation.ReferenceName | src/parser.rs:235-240 | only a reference node has a name; any other node gives `NotReferenceExpr`. The older evaluator (`src/ast.rs:353-358`, the same code) applies it to the translated node |
| Evaluation.CallFunction | src/parser.rs:138-156 | a function bound in the context is called first, then the registry's; a name found in neither gives `InnerFunctionNotRegistered` |
| Evaluation.Exec | src/parser.rs:109-226 | `exec` returns the value and leaves the bindings that the evaluation function gives |
| Evaluation.Eval | src/parser.rs:109-226 | defines `exec` as a function of the tree and the bindings; `Evaluation.Exec` computes it and the `EvaluationLaws` lemmas state its properties |
| Evaluation.EvalBinary | src/parser.rs:162-180 | defines `exec_binary`; `EvaluationLaws.UnknownOperatorFailsFirst`, `CalculationOrder`, `AssignmentWrites` and `AssignmentNeedsReference` state its cases |
| Evaluation.ExecBinary | src/parser.rs:162-180 | `exec_binary` returns the value and leaves the bindings the specification gives |
| Evaluation.ExecItems | src/parser.rs:204-210 | the item loop evaluates the items in order as specified |
| Evaluation.ExecMap | src/parser.rs:220-226 | the map loop evaluates keys and values in order as specified |
| Evaluation.ExecChain | src/parser.rs:212-218 | the chain loop runs its statements in order as specified |
| EvaluationLaws.UnknownOperatorFailsFirst | src/parser.rs:162-170 | an operator missing from the infix table fails before either operand is evaluated |
| EvaluationLaws.CalculationOrder | src/parser.rs:162-180 | a calculation evaluates the left operand, then the right one from the bindings the left left, then applies the handler, writing nothing itself |
| EvaluationLaws.AssignmentWrites | src/parser.rs:162-180 | an assignment to a name binds it to the handler's result, returns `None` and changes no other name |
| EvaluationLaws.AssignmentNeedsReference | src/parser.rs:170-178 | an assignment whose left side is not a name fails with `NotReferenceExpr` after both operands are evaluated |
| EvaluationLaws.BuiltinAssign | src/operator.rs:45 | the built-in `=` is a setter whose handler returns its right operand |
| EvaluationLaws.PlainAssignment | src/parser.rs:162-180 | `name = rhs` with that `=` binds the name to the value of `rhs` |
| EvaluationLaws.AssignExample | src/parser.rs:887-976 | with the built-in table, `a = 3` binds `a` to 3 and evaluates to `None` |
| EvaluationLaws.PlusExample | src/parser.rs:887-976 | with `a` bound to 3, `a + 1` evaluates to 4 and writes nothing |
| EvaluationLaws.MinusOfNumbers | src/parser.rs:887-976 | with the built-in table, `-` on two operands that evaluate to numbers without writing gives their difference and writes nothing |
| EvaluationLaws.AssignThenRead | src/parser.rs:887-976 | in the chain `a = 3; a + 1` the second statement reads the value the first wrote |
| EvaluationLaws.TernarySelects | src/parser.rs:186-202 | only the branch the condition selects is evaluated; a condition that is no bool fails with `ShouldBeBool` |
| EvaluationLaws.ContextFunctionFirst | src/parser.rs:138-156 | a function bound in the context shadows the registry's function of the same name |
| EvaluationLaws.UnknownFunction | src/parser.rs:138-156 | a call to a name bound nowhere fails with `InnerFunctionNotRegistered` after its arguments are evaluated |
| EvaluationLaws.ChainOfOne | src/parser.rs:212-218 | a chain of one statement evaluates as that statement |
| EvaluationLaws.ChainOfTwo | src/parser.rs:212-218 | a chain of two statements runs the second from the bindings the first left |
| EvaluationLaws.EmptyChain | src/parser.rs:212-218 | the empty chain evaluates to `None` and writes nothing |
| EvaluationLaws.ItemsAppend | src/parser.rs:204-210 | items are evaluated in order: the values of `xs + ys` are those of `xs` followed by those of `ys` |
| EvaluationLaws.ItemsShift | src/parser.rs:204-210 | evaluating `xs + ys` from the position after `xs` plus `j` is evaluating `ys` from `j` |
| EvaluationLaws.ChainAppend | src/parser.rs:212-218 | the chain `xs + ys` runs `xs` and then `ys` |
| EvaluationLaws.ChainShift | src/parser.rs:212-218 | running `xs + ys` from the position after `xs` plus `j` is running `ys` from `j` |
| EvaluationLaws.OnlyAssignmentsWrite | src/parser.rs:109-226 | an expression without assignments leaves the bindings unchanged, whatever it returns |
| EvaluationLaws.ItemsWriteNothing | src/parser.rs:204-210 | items without assignments leave the bindings unchanged |
| EvaluationLaws.PairsWriteNothing | src/parser.rs:220-226 | map entries without assignments leave the bindings unchanged |
| EvaluationLaws.ChainWritesNothing | src/parser.rs:212-218 | statements without assignments leave the bindings unchanged |
| Printing.LiteralText | src/parser.rs:261-274 | a string is written in double quotes, a bool as `true`/`false` |
| Printing.Expr | src/parser.rs:244-368 | defines `expr`, the current renderer; `ParenthesesRule`, `CompoundTexts` and the text lemmas state what it writes |
| Printing.NodePrecedence | src/parser.rs:228-233 | only a binary node has a precedence, the one registered for its operator |
| Printing.Rendered | src/parser.rs:330-366 | the rendered texts of the items, one per item and in order |
| Printing.RenderedPairs | src/parser.rs:342-355 | the `key:value` texts of a map's entries, one per entry and in order |
| Printing.ItemsTextIsJoin | src/parser.rs:330-340 | the index loop writes the items' texts joined by the separator |
| Printing.PairsTextIsJoin | src/parser.rs:342-355 | the map loop writes the entries' texts joined by commas |
| Printing.CompoundTexts | src/parser.rs:280-366 | lists, maps, calls and chains render as their brackets around the joined texts of their parts |
| Printing.RenderLosesGrouping | src/parser.rs:297-315 | the rendering drops grouping that precedence does not force: `1 - (2 - 3)` and `(1 - 2) - 3` with the built-in table both print `1 - 2 - 3`, yet evaluate to 2 and -4 |
| Printing.ParenthesesRule | src/parser.rs:297-315 | for every operator and operands: an operand is parenthesised exactly when it is a binary node whose operator has strictly lower precedence than the parent's |
| Printing.ArithmeticTexts | src/parser.rs:297-315 | the source's examples `2 + 3 * 5`, `(2 + 3) * 5` and `a() ++ * 2 - 7` render as written when `+` and `-` are below `*` |
| Printing.BuiltinArithmeticTexts | src/parser.rs:978-1015 | with the built-in table the source's arithmetic examples render as expected |
| Printing.OtherTexts | src/parser.rs:293-328 | prefix, ternary and empty list and map renderings |
| Printing.MapText | src/parser.rs:342-355 | a map renders its entries as `key:value`, comma-separated, with strings quoted |
| Hooks.DefaultUnary | src/descriptor.rs:216-218 | the operator followed by the operand |
| Hooks.DefaultBinary | src/descriptor.rs:220-222 | left operand, operator and right operand, with no spaces |
| Hooks.DefaultTernary | src/descriptor.rs:224-226 | `cond?lhs:rhs` |
| Hooks.DefaultFunction | src/descriptor.rs:228-230 | the name, then the arguments joined by commas in parentheses |
| Hooks.DefaultReference | src/descriptor.rs:232-234 | the name itself |
| Hooks.DefaultList | src/descriptor.rs:236-238 | the items joined by commas in square brackets |
| Hooks.DefaultChain | src/descriptor.rs:248-250 | the statements joined by `;` |
| Hooks.EntryTexts | src/descriptor.rs:240-246 | one `key:value` text per entry, in order |
| Hooks.DefaultMap | src/descriptor.rs:240-246 | the loop writes the entries' `key:value` texts joined by commas in braces |
| Hooks.UnaryIn | src/descriptor.rs:70-80 | the unary formatter stored for the operator, else the default |
| Hooks.BinaryIn | src/descriptor.rs:89-99 | a binary formatter stored under the operator's unary key, else the default |
| Hooks.TernaryIn | src/descriptor.rs:108-118 | the stored ternary formatter; the ternary default when none is stored; the binary default when a formatter of another kind is stored |
| Hooks.FunctionIn | src/descriptor.rs:127-137 | the function formatter stored for the name, else the default |
| Hooks.ReferenceIn | src/descriptor.rs:146-156 | the reference formatter stored for the name, else the default |
| Hooks.ListIn | src/descriptor.rs:165-175 | the stored list formatter, else the default |
| Hooks.MapIn | src/descriptor.rs:184-194 | the stored map formatter, else the default |
| Hooks.ChainIn | src/descriptor.rs:203-213 | the stored chain formatter, else the default |
| Hooks.HookTable.GetUnary | src/descriptor.rs:70-80 | the unary formatter stored for the operator, else the default |
| Hooks.HookTable.GetBinary | src/descriptor.rs:89-99 | in a table filled by the setters, always the binary default |
| Hooks.HookTable.GetTernary | src/descriptor.rs:108-118 | the stored ternary formatter, else the ternary default |
| Hooks.HookTable.GetFunction | src/descriptor.rs:127-137 | the function formatter stored for the name, else the default |
| Hooks.HookTable.GetReference | src/descriptor.rs:146-156 | the reference formatter stored for the name, else the default |
| Hooks.HookTable.GetList | src/descriptor.rs:165-175 | the stored list formatter, else the default |
| Hooks.HookTable.GetMap | src/descriptor.rs:184-194 | the stored map formatter, else the default |
| Hooks.HookTable.GetChain | src/descriptor.rs:203-213 | the stored chain formatter, else the default |
| Hooks.HookTable.constructor | src/descriptor.rs:43-47 | a new table is empty |
| Hooks.HookTable.SetUnary | src/descriptor.rs:63-68 | stores under the unary key of the operator only; its getter then returns that formatter |
| Hooks.HookTable.SetBinary | src/descriptor.rs:82-87 | stores under the binary key of the operator only; its getter still returns the default |
| Hooks.HookTable.SetTernary | src/descriptor.rs:101-106 | stores under the ternary key only; its getter then returns that formatter |
| Hooks.HookTable.SetFunction | src/descriptor.rs:120-125 | stores under the function key of the name only; its getter then returns that formatter |
| Hooks.HookTable.SetReference | src/descriptor.rs:139-144 | stores under the reference key of the name only; its getter then returns that formatter |
| Hooks.HookTable.SetList | src/descriptor.rs:158-163 | stores under the list key only; its getter then returns that formatter |
| Hooks.HookTable.SetMap | src/descriptor.rs:177-182 | stores under the map key only; its getter then returns that formatter |
| Hooks.HookTable.SetChain | src/descriptor.rs:196-201 | stores under the chain key only; its getter then returns that formatter |
| Hooks.SetThenGet | src/decorator.rs:49-213 | every setter except the binary one makes the matching getter return the formatter it stored |
| Hooks.SetLeavesOtherKeys | src/decorator.rs:49-213 | storing under one key leaves every getter that reads another key unchanged |
| Hooks.SettersKeepWellKeyed | src/decorator.rs:63-201 | the setters keep every formatter under a key of its own kind |
| Hooks.BinaryLookupIsDefault | src/decorator.rs:89-99 | in a table filled by the setters the binary getter always returns the default |
| Hooks.TernaryLookupIsTernary | src/decorator.rs:108-118 | in such a table the ternary getter never falls back to the binary default |
| Hooks.SetBinaryIsIgnored | src/decorator.rs:82-99 | a binary formatter that was set is never returned |
| Hooks.RenderedEntries | src/descriptor.rs:240-246 | the key and value texts of each map entry, in order |
| Hooks.DefaultsMatchPrinter | src/decorator.rs:228-250 | with nothing set, the function, reference, list, map and chain defaults lay out their parts as the renderer does |
| Hooks.DescribeAll | src/parser.rs:370-417 | describes each item, in order |
| Hooks.DescribePairs | src/parser.rs:406-414 | describes both halves of each map entry, in order |
| Hooks.Describe | src/parser.rs:370-417 | defines `describe` through the formatters of the table; `DescribeMatchesPrinter`, `DescribeOperators` and `DescribeIgnoresBinaryHooks` state what it writes |
| Hooks.DescribeMatchesPrinter | src/parser.rs:370-417 | with nothing set, a tree without operators is described exactly as the renderer prints it |
| Hooks.DescribeAllMatchesPrinter | src/parser.rs:370-417 | the same for a sequence of such trees |
| Hooks.DescribeOperators | src/parser.rs:370-417 | with nothing set, or only a binary formatter set, an operator is written right next to its operands |
| Hooks.DescribeIgnoresBinaryHooks | src/parser.rs:370-417 | a table holding a binary formatter describes every tree as the empty table does |
| Hooks.DescribeAllIgnoresBinaryHooks | src/parser.rs:370-417 | the same for a sequence of trees |
| LegacyTree.Translate | src/ast.rs:12-26 | maps an older tree to the current one, keeping each node's kind, text and children; there is no postfix node |
| LegacyTree.TranslateAll | src/ast.rs:12-26 | translates each item, in order |
| LegacyTree.TranslatePairs | src/ast.rs:12-26 | translates both halves of each map entry, in order |
| LegacyEvaluation.ReferenceValue | src/ast.rs:117-122 | a reference reads a variable's value; a function or missing name reads as `None` |
| LegacyEvaluation.Exec | src/ast.rs:88-208 | `exec` returns the value and leaves the bindings that the older evaluation function gives |
| LegacyEvaluation.Eval | src/ast.rs:88-208 | defines the older `exec` as a function of the tree and the bindings; `LegacyEvaluationLaws.AgreesWithCurrent` states that it agrees with `Evaluation.Eval` on the translated tree |
| LegacyEvaluation.EvalBinary | src/ast.rs:148-166 | defines the older `exec_binary`; `LegacyEvaluationLaws.BinaryAgrees` relates it to the current one |
| LegacyEvaluation.ExecBinary | src/ast.rs:148-166 | `exec_binary` returns the value and leaves the bindings the specification gives |
| LegacyEvaluation.ExecItems | src/ast.rs:186-192 | the item loop evaluates the items in order as specified |
| LegacyEvaluation.ExecMap | src/ast.rs:202-208 | the map loop evaluates keys and values in order as specified |
| LegacyEvaluation.ExecChain | src/ast.rs:194-200 | the chain loop runs its statements in order as specified |
| LegacyEvaluationLaws.AgreesWithCurrent | src/ast.rs:88-208 | on bindings without functions the older evaluator gives the result and bindings the current one gives on the translated tree |
| LegacyEvaluationLaws.UnaryAgrees | src/ast.rs:144-146 | a prefix node evaluates alike in both evaluators once its operand does |
| LegacyEvaluationLaws.BinaryAgrees | src/ast.rs:148-166 | a binary node, assignments included, evaluates alike in both evaluators once its operands do, and still binds no function |
| LegacyEvaluationLaws.TernaryAgrees | src/ast.rs:168-184 | a conditional evaluates alike in both evaluators once its condition and branches do |
| LegacyEvaluationLaws.ItemsAgree | src/ast.rs:186-192 | the same for a sequence of items |
| LegacyEvaluationLaws.PairsAgree | src/ast.rs:202-208 | the same for map entries |
| LegacyEvaluationLaws.ChainAgrees | src/ast.rs:194-200 | the same for chains |
| LegacyEvaluationLaws.ReadingNames | src/ast.rs:117-122 | a name bound to a function reads as `None` in the older evaluator, while the current one calls the function; a missing name reads as `None` in both |
| LegacyParsing.TokenExpr | src/ast.rs:394-419 | `parse_token` never panics and never moves backwards; at the end of input it yields `None` |
| LegacyParsing.Primary | src/ast.rs:443-445 | `parse_primary` never panics and never moves backwards |
| LegacyParsing.Expression | src/ast.rs:421-441 | `parse_expression` never panics |
| LegacyParsing.ExprItems | src/ast.rs:421-441 | the statement loop never panics |
| LegacyParsing.Binop | src/ast.rs:454-471 | `parse_binop` never panics and never moves backwards |
| LegacyParsing.BinopOperand | src/ast.rs:465-468 | the right operand, with its nested climb, never panics and never moves backwards |
| LegacyParsing.Statement | src/ast.rs:423-429 | one statement never panics, consumes input unless at the end, and is `None` at the end of input |
| LegacyParsing.Terop | src/ast.rs:473-486 | `parse_terop` never panics and never moves backwards |
| LegacyParsing.TeropBranches | src/ast.rs:475-485 | what follows the `?` never panics and, on success, has consumed input |
| LegacyParsing.Delimited | src/ast.rs:495-503 | `parse_delim` never panics and never moves backwards |
| LegacyParsing.ParenExpr | src/ast.rs:505-513 | `parse_open_paren` never panics and never moves backwards |
| LegacyParsing.BracketExpr | src/ast.rs:535-551 | `parse_open_bracket` never panics and never moves backwards |
| LegacyParsing.BracketItems | src/ast.rs:535-551 | the list loop never panics and never moves backwards |
| LegacyParsing.BraceExpr | src/ast.rs:515-533 | `parse_open_brace` never panics and never moves backwards |
| LegacyParsing.BraceItems | src/ast.rs:515-533 | the map loop never panics and never moves backwards |
| LegacyParsing.UnaryExpr | src/ast.rs:553-556 | `parse_unary` never panics and never moves backwards |
| LegacyParsing.FunctionCall | src/ast.rs:558-580 | `parse_function` never panics and never moves backwards |
| LegacyParsing.CallArgs | src/ast.rs:558-580 | the argument loop never panics and never moves backwards |
| LegacyParsing.AST.New | src/ast.rs:374-380 | `AST::new` succeeds exactly when reading the first token does, and otherwise returns that error |
| LegacyParsing.AST.FromTokenizer | src/ast.rs:374-380 | a parser over the given tokenizer |
| LegacyParsing.AST.Next | src/ast.rs:382-384 | `next` moves the tokenizer one token, as specified |
| LegacyParsing.AST.Expect | src/ast.rs:390-392 | `expect` moves the tokenizer as specified and returns its verdict |
| LegacyParsing.AST.ParseToken | src/ast.rs:394-419 | returns the tree `TokenExpr` specifies and leaves the tokenizer where it says |
| LegacyParsing.AST.ParseExpression | src/ast.rs:421-441 | the loop returns the tree `Expression` specifies |
| LegacyParsing.AST.ParseStatement | src/ast.rs:423-429 | returns the statement `Statement` specifies |
| LegacyParsing.AST.ParsePrimary | src/ast.rs:443-445 | returns the tree `Primary` specifies |
| LegacyParsing.AST.ParseBinop | src/ast.rs:454-471 | the loop returns the tree `Binop` specifies |
| LegacyParsing.AST.ParseBinopOperand | src/ast.rs:465-468 | returns the right operand `BinopOperand` specifies |
| LegacyParsing.AST.ParseTerop | src/ast.rs:473-486 | returns the tree `Terop` specifies |
| LegacyParsing.AST.ParseTeropBranches | src/ast.rs:475-485 | returns the ternary `TeropBranches` specifies |
| LegacyParsing.AST.ParseDelim | src/ast.rs:495-503 | returns the tree `Delimited` specifies |
| LegacyParsing.AST.ParseOpenParen | src/ast.rs:505-513 | returns the tree `ParenExpr` specifies |
| LegacyParsing.AST.ParseOpenBracket | src/ast.rs:535-551 | the loop returns the list `BracketExpr` specifies |
| LegacyParsing.AST.ParseOpenBrace | src/ast.rs:515-533 | the loop returns the map `BraceExpr` specifies |
| LegacyParsing.AST.ParseUnary | src/ast.rs:553-556 | returns the tree `UnaryExpr` specifies |
| LegacyParsing.AST.ParseFunction | src/ast.rs:558-580 | the loop returns the call `FunctionCall` specifies |
| LegacyParserLaws.ExprItemsRunToEnd | src/ast.rs:421-441 | a successful statement loop has read the whole input |
| LegacyParserLaws.ExpressionRunsToEnd | src/ast.rs:421-441 | a successful `parse_expression` has read the whole input |
| LegacyParserLaws.EndIsNone | src/ast.rs:394-419 | at the end of input an operand is `None`, and so is a whole expression |
| LegacyParserLaws.ExpectAtEnd | src/ast.rs:390-392 | `expect` at the end of input fails with `ExpectedOpNotExist` |
| LegacyParserLaws.ParenNeverCloses | src/ast.rs:505-513 | a parenthesised expression never parses, because the inner expression has read up to the end |
| LegacyParserLaws.BracketItemsFail | src/ast.rs:535-551 | the list loop never succeeds |
| LegacyParserLaws.OnlyEmptyList | src/ast.rs:535-551 | the only list that parses is `[]`, which consumes its `]` |
| LegacyParserLaws.BraceItemsFail | src/ast.rs:515-533 | the map loop never succeeds |
| LegacyParserLaws.OnlyEmptyMap | src/ast.rs:515-533 | the only map that parses is `{}`, which leaves its `}` as the current token |
| LegacyParserLaws.OnlyCallsWithoutArguments | src/ast.rs:558-580 | only calls without arguments parse |
| LegacyParserLaws.CallArgsFail | src/ast.rs:558-580 | the argument loop never succeeds |
| LegacyParserLaws.TernaryNeverParses | src/ast.rs:473-486 | a ternary never parses: when its first branch parses it has read to the end, and the error is `InvalidTernaryExprNeedColon` |
| LegacyParserLaws.PrecedenceNesting | src/ast.rs:454-471 | in `a op1 b op2 c` a strictly tighter `op2` nests to the right; otherwise the operators group to the left |
| LegacyParserLaws.TighterNests | src/ast.rs:454-471 | a strictly tighter second operator nests to the right of the first |
| LegacyParserLaws.LooserGroupsLeft | src/ast.rs:454-471 | a second operator no tighter than the first takes `a op1 b` as its left operand |
| LegacyParserLaws.BinopStep | src/ast.rs:459-469 | an operator whose operand is not followed by a tighter one folds onto the left side and the climb continues after the operand |
| LegacyParserLaws.BinopNestedStep | src/ast.rs:459-469 | an operator whose operand is followed by a tighter one takes the nested climb from the next precedence up as its right operand |
| LegacyParserLaws.DanglingOperator | src/ast.rs:454-471 | a binary operator at the end of input takes `None` as its right operand |
| LegacyParserLaws.TrailingSemicolon | src/ast.rs:421-441 | `e;` parses as `Chain([e, None])` |
| LegacyParserLaws.TwoStatements | src/ast.rs:421-441 | two statements separated by `;` make a two-item chain, in order |
| LegacyPrinting.NodePrecedence | src/ast.rs:346-351 | only a binary node has a precedence, the one registered for its operator |
| LegacyPrinting.Expr | src/ast.rs:210-345 | defines the older `expr`; `PlainTreesPrintAlike`, `PrefixSpacing`, `StringQuotes`, `TernaryParens` and `MapSeparator` relate it to the current renderer |
| LegacyPrinting.Rendered | src/ast.rs:311-321 | the rendered texts of the items, one per item and in order |
| LegacyPrinting.RenderedPairs | src/ast.rs:323-333 | the `key:value` texts of a map's entries, in order |
| LegacyPrinting.ItemsTextIsJoin | src/ast.rs:311-321 | the index loop writes the items' texts joined by the separator |
| LegacyPrinting.PairsTextIsJoin | src/ast.rs:323-333 | the map loop writes the entries' texts joined by `, `, with one more `, ` after the last |
| LegacyPrinting.PlainTreesPrintAlike | src/ast.rs:210-358 | on trees without strings, prefixes, ternaries or maps the older renderer writes what the current one writes for the translated tree |
| LegacyPrinting.BinaryPrintsAlike | src/ast.rs:210-358 | a binary node prints alike in both renderers once its operands do |
| LegacyPrinting.PlainItemsPrintAlike | src/ast.rs:311-321 | the same for a sequence of such trees |
| LegacyPrinting.PrefixSpacing | src/ast.rs:256-260 | for every prefix operator and plain operand, the older renderer writes the operator directly against the operand's text and the current one puts one space between them |
| LegacyPrinting.StringQuotes | src/ast.rs:236-238 | for every string, the older renderer writes its text bare and the current one puts it in double quotes |
| LegacyPrinting.TernaryParens | src/ast.rs:282-309 | for every binary or ternary condition, the older renderer wraps the condition in parentheses and the current one writes it bare; a plain condition has the same text in both |
| LegacyPrinting.OlderTernaryText | src/ast.rs:282-309 | the older renderer wraps a binary or ternary condition in parentheses and writes the branches through the same rule |
| LegacyPrinting.CurrentTernaryText | src/parser.rs:321-328 | the current renderer writes condition, `?`, first branch, `:` and second branch with no parentheses |
| LegacyPrinting.MapSeparator | src/ast.rs:323-333 | for every map, the older renderer joins the `key:value` texts by `, ` and writes one more `, ` after the last, while the current one joins them by `,` alone |
| LegacyPrinting.OlderMapText | src/ast.rs:323-333 | the older renderer writes `{`, each entry's `key:value` followed by `, `, then `}` |
| LegacyPrinting.CurrentMapText | src/parser.rs:342-355 | the current renderer writes `{`, the entries' `key:value` texts joined by `,`, then `}` |

## Left out

- Lexer.Scan: positions, spans and error offsets are character indices, where the source reports UTF-8 byte offsets from `char_indices` and `current()`. This holds for `Lexer.StringScan`, `Lexer.OtherScan`, `Lexer.Tokenizer.PeekOne`, `LexerLaws.SpanIsConsumedText`, `LexerLaws.StringContents` and `LexerLaws.UnsupportedCharacter`. `LexerLaws.ByteOffset` gives the source's number for an index. The two agree while the input is ASCII (`LexerLaws.AsciiOffsets`) and differ after any wider character (`LexerLaws.WideCharShiftsOffsets`). Token texts and string contents are the same either way.
- LexerLaws.SpanIsConsumedText: the span's bounds are character indices; the source's are `ByteOffset` of them.
- LexerLaws.StringContents: the offset in `UnterminatedString` is the input's length in characters; the source's is its length in bytes.
- LexerLaws.UnsupportedCharacter: the offset in `NotSupportedChar` is a character index; the source's is `ByteOffset` of it.
- The shared statics and the mutexes behind the registries and the context. Each registry or context is one object here, and there is no concurrency. The `OnceCell` guard of `init` is the `started` flag of `Registry.Engine`; the other statics' lazy creation is not modelled.
- `Value::float` and every floating-point conversion.
- The `Display` implementations of `Error`, `Value`, `Token`, `Literal` and of both syntax trees. They are formatting only; error values are compared as data.
- `store.rs` and the `create_context` macro. They are conveniences over `Context` and the registries.
- The decimal library. Numbers are exact reals, so the scale of a decimal and overflow of its 96-bit mantissa are not modelled. The library rounds the results of `/` and `*` to 28 significant digits, so `1 / 3 * 3 == 1` is false in the source and true in the model. The conversion between text and number is a parameter, `parseNumber` in the lexer and `numberText` in the renderers and `describe`.
- Values.Value.Integer: the source prints the decimal and parses the text, so a number such as `3.0` that prints with a fractional part fails there. Here every integral number in range succeeds, because the scale of a decimal is not modelled.
- Hash-map iteration order. `operators()` sorts its names by precedence with `sort_by`, which the model proves of `Operators.BinaryOpFuncManager.Operators`; only the order among names of equal precedence comes from the `HashMap`'s iteration, and the model leaves that order unspecified (its loop takes the names in an arbitrary order). The map formatter receives a `HashMap`, which both removes duplicate keys and loses their order. The model passes the entries in order, duplicates included.
- Evaluation.Exec: the source panics where a handler panics, for a division by zero or a shift out of range. The method requires that evaluation does not panic, and the evaluation function marks those cases as `Panic`.
- Operators.BinaryOpFuncManager.Redirect: requires the target to be registered, where the source panics.
- The postfix formatter of `describe`. `descriptor.rs` defines no postfix getter, so it is a parameter of `Hooks.Describe`.
- Callbacks that panic or never return. Every formatter, handler and function is a total Dafny function value, apart from the partial operator handlers.
