# ArcScript core in Dafny

ArcScript is a small dynamically typed scripting language with a
tree-walking interpreter. This project models its core: the lexer
(`src/lexer.rs`), the parser with its syntax tree (`src/parser.rs`,
`src/ast.rs`) and the interpreter (`src/interpreter.rs`). It then proves
properties of that model.

- **Lexer.** The lexer is a cursor over the source bytes. It tracks the
  offset, line and column. `Lexing.Lexer` is a class whose methods advance
  that cursor in place. Each method is proved equal to a pure function:
  `Lexing.Step`, `Lexing.SkipTrivia` or `Lexing.ScanToken`.
  `Lexing.Tokenize` is the whole token stream, ending in `Eof`.
- **Parser.** The parser is a recursive-descent parser with error
  recovery. `Parsing.Parser` is a class over a token sequence. Its fields
  are the position, the current token and the recorded errors, and each
  method changes them as the Rust methods do, except that function
  declarations are parsed by the corrected `ParseSpec.ParseFuncDecl` (see
  "## Findings"). Every method is proved equal to a function of `ParseSpec`, which works on the tokens and a
  position-and-errors state. The properties proved are about those
  functions. They cover:
  - precedence and left associativity;
  - prefix and postfix nesting;
  - table literals;
  - optional syntax;
  - recovery with `synchronize`.
- **Interpreter.** `Interpreting.Interpreter` is a class. Its fields are
  the current environment (a chain of scopes) and the output written by
  `print` and `println`. The output is kept as a log of bytes.
  - Each `eval_*` method is proved equal to a function of `Evaluation`.
    Calls use the corrected `Evaluation.Enter`, which puts the caller's
    environment back even when the body fails (see "## Findings").
  - Scoping, calls, closures, `return`, tables and objects are proved as
    lemmas over those functions.
  - The evaluation part of each of the interpreter's own unit tests is
    proved, on the syntax tree the corrected parser builds. For the
    string-escape test the lexing of the literal is proved as well.
- **Values.** Integers are `i64`, and arithmetic that leaves that range
  is the debug-build overflow panic (`Fault.Overflow`). Floats are 64-bit
  patterns whose arithmetic, comparison and formatting come from a
  `FloatHost` parameter.
- **Termination.** The Rust interpreter can loop forever. So the
  evaluation functions take a `fuel` bound and stop with `OutOfFuel` when
  it is exhausted. Each interpreter method requires that its evaluation
  `Finishes`, which means it did not run out of fuel.

Modules:

| module | file | role |
|---|---|---|
| `Wrappers` | wrappers.dfy | `Option`, `Result` |
| `Text` | text.dfy | bytes, `i64` range, decimal text and `str::parse::<i64>` |
| `Ast` | ast.dfy | the syntax tree of `src/ast.rs` |
| `Lexing`, `LexerProperties` | lexer.dfy, lexer_properties.dfy | the lexer and what it guarantees |
| `ParseSpec`, `Parsing`, `ParserProperties` | parse_spec.dfy, parser.dfy, parser_properties.dfy | the parser |
| `Values`, `ValueProperties` | values.dfy, value_properties.dfy | values, environments, operators, built-ins |
| `Evaluation`, `Interpreting`, `EvalProperties`, `EvalScenarios` | eval_spec.dfy, interpreter.dfy, eval_properties.dfy, eval_scenarios.dfy | evaluation |
| `StringScenario` | string_scenario.dfy | the string-escape test, from the literal's bytes to the binding |

Besides the two defects under "## Findings", the language's intended
semantics and the code disagree in one place. `and` and `or` are meant to
short-circuit. The code does not:
`apply_binary` evaluates both operands first (`src/interpreter.rs:406-410`,
`492-493`). The model follows the code, as
`EvalProperties.AndEvaluatesBoth` and `EvalProperties.OrEvaluatesBoth`
state.

## Model

| member | source | states |
|---|---|---|
| Text.Ascii | src/lexer.rs:276-299 | keyword and built-in spellings are the byte strings of their ASCII text, byte for byte |
| Text.DigitByte | src/interpreter.rs:259-270 | every digit written for a number is an ASCII decimal digit |
| Text.NatToDecimal | src/interpreter.rs:259-270 | a number's decimal text is non-empty, all digits, and has no leading zero |
| Text.DecimalRoundTrip | src/interpreter.rs:259-270 | reading back the decimal text of `n` gives `n` |
| Text.ParseI64RoundTrip | src/interpreter.rs:215-238 | `parse::<i64>` of the text `Display` writes for an `i64` gives that `i64` back |
| Values.FloatNeg | src/interpreter.rs:395-405 | negating a float flips exactly its sign bit |
| Values.Env.Chain | src/interpreter.rs:56-84 | the scope chain starts with the innermost scope's own bindings |
| Values.Env.Get | src/interpreter.rs:75-83 | lookup finds the innermost scope's binding first and fails with no scope to fall back on |
| Values.Env.Define | src/interpreter.rs:71-73 | `define` binds the name in the innermost scope, changes no other name's lookup, and keeps the parent |
| Values.Child | src/interpreter.rs:56-69 | a fresh child scope sees exactly what its parent sees |
| Values.IntResult | src/interpreter.rs:497-526 | an `i64` result is produced exactly when the mathematical result fits; otherwise the overflow panic |
| Values.LengthAsI64 | src/interpreter.rs:204-214 | `len` as an `i64` is the exact length whenever the length fits |
| ValueProperties.GetIsInnermost | src/interpreter.rs:75-83 | a name is unbound iff no scope of the chain has it; otherwise lookup returns the innermost binding |
| ValueProperties.DefineKeepsOuterScopes | src/interpreter.rs:71-73 | `define` changes only the innermost scope, never an enclosing one |
| ValueProperties.ShadowInChild | src/interpreter.rs:290-305 | defining a name in a block's child scope shadows the outer binding and keeps the outer scope as parent |
| ValueProperties.FalsyValues | src/interpreter.rs:463-469 | exactly `false` and `nil` are falsy |
| ValueProperties.EqualityNeverFails | src/interpreter.rs:486-487 | `==` and `!=` never fail and are each other's negation; values of different kinds, functions, tables and built-ins are never equal |
| ValueProperties.EqualityOnPlainValues | src/interpreter.rs:550-559 | on integers, booleans, strings and `nil`, `==` is structural equality |
| ValueProperties.LogicalOperators | src/interpreter.rs:492-493 | `and`, `or` and `not` give the boolean of the operands' truthiness and never fail |
| ValueProperties.ArithmeticTypeErrors | src/interpreter.rs:497-548 | arithmetic on operands outside its domain raises that operator's type error |
| ValueProperties.IntArithmetic | src/interpreter.rs:497-526 | integer `+ - *` give the exact result when it fits in `i64` and overflow otherwise |
| ValueProperties.StringConcatenation | src/interpreter.rs:503 | `+` on strings concatenates them |
| ValueProperties.DivisionByZero | src/interpreter.rs:528-548 | dividing by an integer or float zero raises the division-by-zero error |
| ValueProperties.TruncDivRounds | src/interpreter.rs:530-534 | integer division truncates toward zero: the remainder has the dividend's sign and is smaller than the divisor |
| ValueProperties.RoundsBySign | src/interpreter.rs:530-534 | the sign-adjusted magnitude quotient leaves a remainder of the dividend's sign that is smaller than the divisor |
| ValueProperties.IntDivisionOverflow | src/interpreter.rs:528-535 | integer division overflows exactly for `i64::MIN / -1`, and otherwise gives the truncated quotient |
| ValueProperties.TruncDivInRange | src/interpreter.rs:528-535 | apart from `i64::MIN / -1`, the truncated quotient of two `i64` is an `i64` |
| ValueProperties.SignedQuotientInRange | src/interpreter.rs:528-535 | a quotient of magnitude at most the dividend's, and at most half of it for divisors of magnitude two or more, lies in `i64` |
| ValueProperties.ComparisonErrors | src/interpreter.rs:561-573 | comparison fails exactly when an operand is not a number, with the compare error, and otherwise yields a boolean |
| ValueProperties.Negation | src/interpreter.rs:395-405 | unary minus negates integers (overflow at `i64::MIN`), flips a float's sign, and raises an error on anything else |
| ValueProperties.MemberAccess | src/interpreter.rs:414-422 | `.field` succeeds exactly on tables: the entry or `nil`; on anything else the member error |
| ValueProperties.IndexAccess | src/interpreter.rs:423-433 | `[key]` succeeds exactly on a table with a string key: the entry or `nil`; otherwise the matching error |
| ValueProperties.MemberIsStringIndex | src/interpreter.rs:414-433 | on a table, `t.name` and `t["name"]` are the same |
| ValueProperties.IntOfStrRoundTrip | src/interpreter.rs:215-238 | `str` of an integer is its decimal text, and `int` of that text gives the integer back |
| ValueProperties.LengthCounts | src/interpreter.rs:204-214 | `len` counts a string's bytes or a table's entries, and raises an error on other values |
| Lexing.Step | src/lexer.rs:97-109 | `advance` moves one byte forward unless at the end |
| Lexing.SkipTrivia | src/lexer.rs:227-262 | skipping whitespace and comments moves forward and stays within the source |
| Lexing.ScanToken | src/lexer.rs:120-216 | `next_token` never moves backwards, and consumes at least one byte whenever input is left after whitespace and comments |
| Lexing.Tokenize | src/lexer.rs:120-136 | the token stream of any source is non-empty and ends with `Eof` |
| Lexing.Lexer.constructor | src/lexer.rs:84-91 | a new lexer is at offset 0, line 1, column 1 of its source |
| Lexing.Lexer.Peek | src/lexer.rs:93-95 | `peek` is the byte at the cursor, or none at the end |
| Lexing.Lexer.Advance | src/lexer.rs:97-109 | `advance` returns the current byte and moves the cursor as `Step`, counting lines and columns |
| Lexing.Lexer.MatchNext | src/lexer.rs:111-118 | `match_next` consumes the expected byte exactly when it is next |
| Lexing.Lexer.NextToken | src/lexer.rs:120-216 | `next_token` returns the token `ScanToken` scans and leaves the cursor where it ends |
| Lexing.Lexer.SkipWhitespaceAndComments | src/lexer.rs:227-262 | the loop leaves the cursor where `SkipTrivia` says |
| Lexing.Lexer.LexIdentifierOrKeyword | src/lexer.rs:264-301 | the identifier-or-keyword loop ends where `IdentRun` does and classifies the run with the keyword table |
| Lexing.Lexer.LexNumber | src/lexer.rs:303-324 | the number loop ends where `NumberRun` does and gives `Float` exactly when a `.` was read |
| Lexing.Lexer.LexString | src/lexer.rs:326-352 | the string loop ends where `StringBody` does and yields its unescaped bytes |
| Lexing.LexAll | src/lexer.rs:120-136 | calling `next_token` until `Eof` yields exactly `Tokenize(source)` |
| LexerProperties.LineStart | src/lexer.rs:97-109 | the start of the line holding an offset is at or before that offset |
| LexerProperties.StepTracks | src/lexer.rs:97-109 | `advance` keeps line and column in step with the offset: a newline starts line+1 at column 1, any other byte moves one column |
| LexerProperties.SkipLineCommentTracks | src/lexer.rs:234-242 | skipping a line comment keeps line and column in step with the offset |
| LexerProperties.SkipBlockCommentTracks | src/lexer.rs:243-254 | skipping a block comment keeps line and column in step with the offset |
| LexerProperties.SkipTriviaTracks | src/lexer.rs:227-262 | skipping whitespace and comments keeps line and column in step with the offset |
| LexerProperties.IdentRunTracks | src/lexer.rs:264-274 | reading an identifier keeps line and column in step with the offset |
| LexerProperties.NumberRunTracks | src/lexer.rs:303-320 | reading a number keeps line and column in step with the offset |
| LexerProperties.StringBodyTracks | src/lexer.rs:326-352 | reading a string, escapes included, keeps line and column in step with the offset |
| LexerProperties.TokenPosition | src/lexer.rs:120-125 | every token carries the line and column of its first byte, counted from the source, and the lexer keeps tracking |
| LexerProperties.StartTracks | src/lexer.rs:84-91 | the initial line 1, column 1 is right for offset 0 |
| LexerProperties.AtEndIsStable | src/lexer.rs:126-136 | at the end of input the lexer returns an empty `Eof` and returns it again without moving |
| LexerProperties.ScanTokenProgress | src/lexer.rs:120-216 | at the very end nothing moves; anywhere else every token consumes at least one byte |
| LexerProperties.LineCommentEnds | src/lexer.rs:234-242 | a `//` comment stops at the first newline, which it leaves, or at the end |
| LexerProperties.BlockCommentEnds | src/lexer.rs:243-254 | a block comment ends just after the first `*/`, or runs to the end of input when there is none |
| LexerProperties.SkipTriviaStops | src/lexer.rs:227-262 | skipping stops at the end or at a byte that starts neither whitespace nor a comment |
| LexerProperties.OperatorMunch | src/lexer.rs:152-208 | an operator byte followed by `=` lexes as the two-byte token, otherwise as the one-byte token; a lone `!` is `not` |
| LexerProperties.OperatorBytesStartNothingElse | src/lexer.rs:139-208 | operator bytes start no identifier, number, string or delimiter token |
| LexerProperties.UnrecognisedByte | src/lexer.rs:209-214 | a byte that starts no token yields an empty `Eof` token and is consumed |
| LexerProperties.IdentRunMaximal | src/lexer.rs:266-274 | an identifier run takes every identifier byte that follows and stops at the first other byte |
| LexerProperties.KeywordInTable | src/lexer.rs:276-299 | a table lookup gives `Identifier` iff no entry spells the text, and otherwise the kind of an entry that does |
| LexerProperties.IdentifierToken | src/lexer.rs:139-301 | a token starting with a letter or `_` is the maximal identifier run, classified as a keyword exactly when the table spells it |
| LexerProperties.IdentifierRun | src/lexer.rs:264-301 | an identifier token's lexeme is its source bytes, all identifier bytes, with no identifier byte after it |
| LexerProperties.KeywordKindSpelled | src/lexer.rs:276-299 | the keyword kind is `Identifier` iff no keyword is spelled that way, and otherwise it is that keyword's kind |
| LexerProperties.KeywordsAreReserved | src/lexer.rs:276-299 | every entry of the keyword table is a keyword kind, never `Identifier` |
| LexerProperties.NumberRunShape | src/lexer.rs:303-320 | a number run is digits and dots with at most one dot, and stops at the first byte that cannot continue it |
| LexerProperties.NumberToken | src/lexer.rs:140-324 | a number token is its source bytes: a digit, then digits and at most one `.`, `Float` exactly when it holds a `.`, and maximal |
| LexerProperties.EscapeByte | src/lexer.rs:333-345 | a byte is written as itself unless it is a quote or backslash, or as a backslash and a byte that unescapes to it |
| LexerProperties.StringRoundTrip | src/lexer.rs:326-352 | lexing the escaped text of any byte string, then a closing quote, gives the byte string back and ends after the quote |
| LexerProperties.EscapePlain | src/lexer.rs:345-347 | a byte other than a quote, a backslash or an escapable control byte stands for itself inside a string, so plain text is its own escaped form |
| LexerProperties.EscapeNewline | src/lexer.rs:332-335 | between plain text, a newline byte is written as a backslash and `n` |
| LexerProperties.EscapedNewline | src/lexer.rs:325-352 | the literal `"a\nb"` with `a` and `b` plain lexes, from the start of input, as one string token at line 1, column 1 holding `a`, a newline byte and `b`, and the lexer stops after the closing quote |
| LexerProperties.StringHead | src/lexer.rs:330-348 | reading a string body takes its first escaped byte and then reads the rest |
| LexerProperties.StringBodyEnds | src/lexer.rs:326-352 | a string ends just after an unescaped quote, or runs to the end of input |
| LexerProperties.TokensEndWithEof | src/lexer.rs:126-136 | the token stream ends with the empty `Eof` placed after the final whitespace and comments |
| LexerProperties.LastStart | src/lexer.rs:126-136 | the cursor from which the last token is lexed is at the end of input |
| ParseSpec.ErrorAt | src/parser.rs:35-37 | a parse error carries the current token's line and column and the message |
| ParseSpec.Advance | src/parser.rs:78-80 | `advance` moves one token forward, except on the final `Eof`, and records nothing |
| ParseSpec.Consume | src/parser.rs:51-58 | `consume` succeeds iff the current token has the expected kind, then moves past it; otherwise it fails at that token without moving |
| ParseSpec.Synchronize | src/parser.rs:39-49 | recovery moves forward within the tokens, records nothing, and skips at least the current token unless it is the final `Eof` |
| ParseSpec.Recover | src/parser.rs:64-68 | a failed statement's error is appended to the errors recorded so far |
| ParseSpec.ProgramLoop | src/parser.rs:60-76 | the program loop keeps the statements it has and stops only at `Eof` |
| ParseSpec.BlockLoop | src/parser.rs:144-156 | the block loop keeps the statements it has and stops at `}` or `Eof` |
| ParseSpec.ParseStatement | src/parser.rs:90-116 | a statement moves forward within the tokens, and a parsed one consumes at least one token |
| ParseSpec.IfEnd | src/parser.rs:173-189 | an `if` statement is built from the condition, the then block and the `elif` clauses in order |
| ParseSpec.ElifLoop | src/parser.rs:164-171 | the `elif` loop stops only where no `elif` follows |
| ParseSpec.ElifClause | src/parser.rs:165-170 | an `elif` clause consumes tokens and its body is a block |
| ParseSpec.ParseElse | src/parser.rs:173-179 | there is an `else` branch exactly when `else` is the current token |
| ParseSpec.ParseWhile | src/parser.rs:191-201 | a parsed `while` consumes tokens and its body is a block |
| ParseSpec.ParamsLoop | src/parser.rs:226-245 | the parameter loop keeps the names it has, consumes tokens, and records nothing |
| ParseSpec.ParseFuncDeclAsWritten | src/parser.rs:216-264 | the declaration as written consumes tokens and has a block body |
| ParseSpec.ParseFuncDecl | src/parser.rs:216-264 | the corrected declaration consumes tokens and has a block body |
| ParseSpec.MembersLoop | src/parser.rs:281-300 | the object-member loop keeps the members it has and stops at `}` or `Eof` |
| ParseSpec.ParseEventDecl | src/parser.rs:308-345 | an event declaration consumes tokens and has a block body |
| ParseSpec.ParseExpression | src/parser.rs:385-387 | a parsed expression consumes tokens, records nothing, and stops where no binary operator follows |
| ParseSpec.ParseLevel | src/parser.rs:389-509 | a precedence level stops where no operator of it or of a looser level follows |
| ParseSpec.LevelLoop | src/parser.rs:389-509 | a level's loop stops only where none of its operators follows |
| ParseSpec.PostfixLoop | src/parser.rs:584-634 | the postfix loop stops only where no `(`, `.` or `[` follows |
| ParseSpec.ArgsLoop | src/parser.rs:588-601 | the argument loop keeps the arguments it has and stops where no `,` follows |
| ParseSpec.FieldsLoop | src/parser.rs:347-383 | the table-field loop keeps the fields it has, in order |
| Parsing.Parser.constructor | src/parser.rs:30-33 | a new parser stands on the first token with no errors |
| Parsing.Parser.Advance | src/parser.rs:78-80 | the method moves as `ParseSpec.Advance` |
| Parsing.Parser.Consume | src/parser.rs:51-58 | the method succeeds, fails and moves as `ParseSpec.Consume` |
| Parsing.Parser.SkipSemicolon | src/parser.rs:110-112 | an optional `;` is skipped as `ParseSpec.SkipSemicolon` |
| Parsing.Parser.SkipAnnotation | src/parser.rs:128-134 | an optional `: TYPE` annotation is skipped as `ParseSpec.SkipAnnotation` |
| Parsing.Parser.Synchronize | src/parser.rs:39-49 | the recovery loop stops where `ParseSpec.Synchronize` does |
| Parsing.Parser.ParseProgram | src/parser.rs:60-76 | the result and the new state are `ParseSpec.ParseProgramAt`: the program, or every recorded error, after which the list is cleared |
| Parsing.Parser.ParseProgramBody | src/parser.rs:61-69 | the statement loop records each failure, recovers, and ends as `ParseSpec.ProgramLoop` |
| Parsing.Parser.ParseStatement | src/parser.rs:90-116 | statement dispatch agrees with `ParseSpec.ParseStatement` |
| Parsing.Parser.ParseOtherStatement | src/parser.rs:97-115 | function, object, block and expression statements agree with `ParseSpec.ParseOtherStatement` |
| Parsing.Parser.ParseVarDecl | src/parser.rs:118-142 | `var` declarations agree with `ParseSpec.ParseVarDecl` |
| Parsing.Parser.ParseBlock | src/parser.rs:144-156 | blocks agree with `ParseSpec.ParseBlock` |
| Parsing.Parser.ParseStatements | src/parser.rs:146-153 | the block's statement loop agrees with `ParseSpec.BlockLoop` |
| Parsing.Parser.ParseIf | src/parser.rs:158-189 | `if` statements agree with `ParseSpec.ParseIf` |
| Parsing.Parser.ParseIfTail | src/parser.rs:162-189 | the rest of an `if` agrees with `ParseSpec.IfTail` |
| Parsing.Parser.ParseIfEnd | src/parser.rs:173-189 | the `else` part and closing `end` agree with `ParseSpec.IfEnd` |
| Parsing.Parser.ParseElifs | src/parser.rs:164-171 | the `elif` loop agrees with `ParseSpec.ElifLoop` |
| Parsing.Parser.ParseElifClause | src/parser.rs:165-170 | one `elif` clause agrees with `ParseSpec.ElifClause` |
| Parsing.Parser.ParseElse | src/parser.rs:173-179 | the optional `else` agrees with `ParseSpec.ParseElse` |
| Parsing.Parser.ParseWhile | src/parser.rs:191-201 | `while` agrees with `ParseSpec.ParseWhile` |
| Parsing.Parser.ParseReturn | src/parser.rs:203-214 | `return` agrees with `ParseSpec.ParseReturn` |
| Parsing.Parser.ParseParams | src/parser.rs:226-245 | the parameter list agrees with `ParseSpec.ParamList` |
| Parsing.Parser.ParseFuncDecl | src/parser.rs:216-264 | function declarations agree with the corrected `ParseSpec.ParseFuncDecl` |
| Parsing.Parser.ParseFuncHeader | src/parser.rs:217-245 | `func NAME (params)` agrees with `ParseSpec.FuncHeader` |
| Parsing.Parser.ParseFuncBody | src/parser.rs:256-263 | the body block and `end` agree with `ParseSpec.FuncBody` |
| Parsing.Parser.ParseObjectDecl | src/parser.rs:266-306 | object declarations agree with `ParseSpec.ParseObjectDecl` |
| Parsing.Parser.ParseObjectHeader | src/parser.rs:269-279 | `object NAME : {` agrees with `ParseSpec.ObjectHeader` |
| Parsing.Parser.ParseObjectBody | src/parser.rs:281-305 | the members, `}` and `end` agree with `ParseSpec.ObjectBody` |
| Parsing.Parser.ParseMembers | src/parser.rs:281-300 | the member loop agrees with `ParseSpec.MembersLoop` |
| Parsing.Parser.ParseEventDecl | src/parser.rs:308-345 | event declarations agree with `ParseSpec.ParseEventDecl` |
| Parsing.Parser.ParseEventHeader | src/parser.rs:311-340 | `on NAME (params) :` agrees with `ParseSpec.EventHeader` |
| Parsing.Parser.ParseExpression | src/parser.rs:385-387 | expressions agree with `ParseSpec.ParseExpression` |
| Parsing.Parser.ParseLevel | src/parser.rs:389-509 | the binary-operator levels `or` … `*`/`/` agree with `ParseSpec.ParseLevel` |
| Parsing.Parser.ParseOperand | src/parser.rs:389-509 | a level's operand, parsed at the next tighter level, agrees with `ParseSpec.ParseOperand` |
| Parsing.Parser.ParseUnary | src/parser.rs:511-531 | prefix `-` and `!`/`not` agree with `ParseSpec.ParseUnary` |
| Parsing.Parser.ParsePrimary | src/parser.rs:533-637 | primary expressions with their postfix chain agree with `ParseSpec.ParsePrimary` |
| Parsing.Parser.ParseHead | src/parser.rs:534-581 | literals, names, parentheses and table literals agree with `ParseSpec.PrimaryHead` |
| Parsing.Parser.ParseArguments | src/parser.rs:586-606 | call arguments agree with `ParseSpec.ArgList` |
| Parsing.Parser.ParseTableLiteral | src/parser.rs:347-383 | table literals agree with `ParseSpec.ParseTableLiteral` |
| Parsing.Parser.ParseField | src/parser.rs:352-375 | one table field agrees with `ParseSpec.ParseField` |
| Parsing.ParseSource | src/parser.rs:30-76 | lexing a source and parsing its tokens gives `ParseProgram(Tokenize(source))`, whose function declarations use the corrected `ParseSpec.ParseFuncDecl` |
| ParserProperties.ProgramOkIffNoErrors | src/parser.rs:60-76 | `parse_program` succeeds exactly when no error was recorded; otherwise it returns the non-empty list of errors and clears it |
| ParserProperties.FailedStatementIsReported | src/parser.rs:62-68 | the error of a failing statement is recorded after the earlier ones and kept to the end |
| ParserProperties.SyncLoopStops | src/parser.rs:42-48 | the recovery loop stops just after the first `;`, or at the first statement keyword or `Eof`, with none met before |
| ParserProperties.SyncedBefore | src/parser.rs:42-48 | a token that neither stops nor ends recovery can precede the stop it leads to |
| ParserProperties.SynchronizeStops | src/parser.rs:39-49 | recovery always skips the current token unless it is the final `Eof`, then stops at the first boundary |
| ParserProperties.LevelLoopFoldsLeft | src/parser.rs:389-509 | operators of one level fold their operands to the left |
| ParserProperties.LevelFoldsLeft | src/parser.rs:389-509 | `e1 op e2 op e3 …` at one level is `((e1 op e2) op e3) …` |
| ParserProperties.NoOpBelow | src/parser.rs:389-509 | a token with no operator from a level on has none at that level nor from the next one on |
| ParserProperties.TermIsExpression | src/parser.rs:385-486 | an additive expression followed by no operator is the whole expression |
| ParserProperties.TermIsLevel | src/parser.rs:389-486 | an additive expression followed by no operator is also the expression of every looser level |
| ParserProperties.LevelPassesUp | src/parser.rs:389-486 | a level with none of its operators after the tighter level's expression is that expression |
| ParserProperties.LevelIsOperand | src/parser.rs:389-509 | a level whose operator does not follow its operand is that operand |
| ParserProperties.Atom | src/parser.rs:534-581 | a literal or name token is no postfix, no `(` or `{`, and not `Eof` |
| ParserProperties.AtomUnary | src/parser.rs:511-581 | a single literal or name is a unary expression of exactly one token |
| ParserProperties.AtomLevel | src/parser.rs:389-581 | a single literal or name followed by no operator is every level's expression |
| ParserProperties.AtomExpression | src/parser.rs:385-581 | a single literal or name followed by a token that continues nothing is a whole expression |
| ParserProperties.EndsStop | src/parser.rs:389-509 | every level's loop stops at a token that continues no expression |
| ParserProperties.LevelStep | src/parser.rs:465-486 | one turn of a level's loop folds `op right` into the left operand |
| ParserProperties.NameTerm | src/parser.rs:465-486 | a name as an operand of `+`/`-` is just that name when no `*`, `/` or postfix follows |
| ParserProperties.SubtractionIsLeftAssociative | src/parser.rs:465-486 | `a - b - c` parses as `(a - b) - c` |
| ParserProperties.SubtractionTerm | src/parser.rs:465-486 | the additive level parses `a - b - c` as `(a - b) - c` |
| ParserProperties.NameThenLoop | src/parser.rs:465-486 | a name as the first operand of `+`/`-` is followed by that level's loop |
| ParserProperties.MinusMinus | src/parser.rs:465-486 | the additive loop takes `- b - c` after `a` as `(a - b) - c` |
| ParserProperties.NameStep | src/parser.rs:465-486 | the additive loop takes `op name` in one turn |
| ParserProperties.ProductBindsTighter | src/parser.rs:465-509 | `a + b * c` parses as `a + (b * c)` |
| ParserProperties.SumOfProductTerm | src/parser.rs:465-509 | the additive level parses `a + b * c` as `a + (b * c)` |
| ParserProperties.PlusProduct | src/parser.rs:465-509 | the additive loop takes `+ b * c` as `+ (b * c)` |
| ParserProperties.ProductOperand | src/parser.rs:488-509 | `b * c` is a single operand of `+` |
| ParserProperties.ProductLevel | src/parser.rs:488-509 | the multiplicative level parses `b * c` as that product |
| ParserProperties.LevelFromOperand | src/parser.rs:389-509 | a level is its operand followed by its loop |
| ParserProperties.ProductTail | src/parser.rs:488-509 | the multiplicative loop takes `* c` |
| ParserProperties.PostfixCall | src/parser.rs:586-606 | a call applies the arguments up to `)` to the expression so far |
| ParserProperties.PostfixMember | src/parser.rs:607-621 | `.name` selects a field of the expression so far |
| ParserProperties.PostfixIndex | src/parser.rs:622-631 | `[e]` indexes the expression so far |
| ParserProperties.OneArgument | src/parser.rs:588-601 | `( x )` passes the single argument `x` |
| ParserProperties.PrefixOverPostfix | src/parser.rs:511-637 | a prefix operator takes the whole primary with its calls, fields and indexes: `- f(x).y` is `-((f(x)).y)` |
| ParserProperties.PrefixStep | src/parser.rs:511-531 | prefix operators nest to the right |
| ParserProperties.UnaryIsPrimary | src/parser.rs:511-531 | without a prefix operator a unary expression is a primary one |
| ParserProperties.PostfixChain | src/parser.rs:533-637 | `f(x).y[z]` is `((f(x)).y)[z]` |
| ParserProperties.CallHead | src/parser.rs:533-606 | `f ( x )` at the head of a primary expression is the call `f(x)` |
| ParserProperties.MemberThenIndex | src/parser.rs:607-631 | `.y [ z ]` after `e` is `(e.y)[z]` |
| ParserProperties.IndexThenStop | src/parser.rs:622-634 | `[ z ]` followed by a non-postfix token ends the chain after the index |
| ParserProperties.PostfixEnds | src/parser.rs:584-634 | the postfix loop stops at a token that starts no postfix operation |
| ParserProperties.FieldShapes | src/parser.rs:352-375 | only `name:` gives a field a key; a name not followed by `:` is a positional field holding just that name |
| ParserProperties.TrailingComma | src/parser.rs:347-383 | fields are collected in source order and a `,` before the closing `}` is accepted |
| ParserProperties.TypedVarDecl | src/parser.rs:118-142 | `var NAME : TYPE = expr` declares NAME with the value; the annotation is dropped and a `;` after is skipped |
| ParserProperties.PlainVarDecl | src/parser.rs:118-142 | `var NAME = expr` gives the same declaration as with an annotation |
| ParserProperties.VarDeclFrom | src/parser.rs:118-142 | a `var` declaration is its name, the annotation skip, `=`, the value and an optional `;` |
| ParserProperties.VarStatement | src/parser.rs:92 | a statement starting with `var` is a `var` declaration |
| ParserProperties.FuncStatement | src/parser.rs:96-99 | a statement starting with `func` is a function-declaration statement, failing as the declaration does |
| ParserProperties.OtherStatement | src/parser.rs:96-115 | a statement starting with no `var`, `if`, `while` or `return` is handled by the remaining cases |
| ParserProperties.ReturnValue | src/parser.rs:203-214 | `return` right before `;` has no value; otherwise it takes an expression, with or without `;` |
| ParserProperties.IntegerLiteralValue | src/parser.rs:535-539 | an integer literal is its decimal value when that fits in `i64`, and 0 when it does not |
| ParserProperties.ElifsAreBlocks | src/parser.rs:164-171 | every `elif` body the loop adds is a block |
| ParserProperties.IfBranchesAreBlocks | src/parser.rs:158-189 | every branch of a parsed `if`, `elif` and `else` is a block |
| ParserProperties.IfTailBlocks | src/parser.rs:162-189 | the `elif` and `else` branches of the rest of an `if` are blocks |
| ParserProperties.MalformedParameters | src/parser.rs:229-236 | `func NAME (` followed by neither a name nor `)` fails with `expected parameter name` at that token |
| ParserProperties.HeaderFailureIsFinal | src/parser.rs:216-245 | a declaration whose header fails fails with the header's error |
| ParserProperties.HeaderRejectsParameters | src/parser.rs:229-236 | the header fails at a bad parameter token |
| ParserProperties.AsWrittenNeedsTwoColons | src/parser.rs:247-255 | as written, a declaration gets past its return type only with `: NAME :` or `: :` |
| ParserProperties.AsWrittenColonAfterAnnotation | src/parser.rs:247-255 | as written, `:` must follow the skipped return type for the body to be reached |
| ParserProperties.AnnotationThenColon | src/parser.rs:247-255 | `: NAME :` is a valid return-type form |
| ParserProperties.UntypedRejectedAsWritten | src/parser.rs:247-255 | as written, `func f(): { … } end` fails with `expected ':'` at the `{` |
| ParserProperties.CorrectedUntypedBody | src/parser.rs:247-255 | with the correction, the body of an untyped declaration starts right after its `:` |
| ParserProperties.CorrectionAgreesElsewhere | src/parser.rs:247-255 | apart from the untyped `:` form, the correction and the code as written agree on every input |
| ParserProperties.TypedAgree | src/parser.rs:247-255 | with a return type the correction and the code as written reach the same body |
| Evaluation.Lift | src/interpreter.rs:406-410 | an operator's result or error becomes the evaluation's outcome in an unchanged state |
| Evaluation.Declare | src/interpreter.rs:352-381 | an object declaration binds its name to the table of its members, or fails as building them failed |
| Evaluation.Restore | src/interpreter.rs:290-305 | a block's outcome is kept, its output kept, and the enclosing environment put back |
| Evaluation.Discard | src/interpreter.rs:306-331 | a branch or loop body runs for its effect, with any `return` value dropped and errors passed on |
| Interpreting.Interpreter.constructor | src/interpreter.rs:91-108 | a new interpreter has only the built-ins in its global scope and no output |
| Interpreting.Interpreter.GetGlobal | src/interpreter.rs:575-577 | `get_global` is the lookup of the name in the current environment |
| Interpreting.Interpreter.EvalProgram | src/interpreter.rs:272-277 | running a program gives the outcome and new state of `Evaluation.Run`, whose calls use the corrected `Evaluation.Enter` |
| Interpreting.Interpreter.EvalStmt | src/interpreter.rs:279-383 | each statement gives the outcome and new state of `Evaluation.Statement` |
| Interpreting.Interpreter.EvalBlock | src/interpreter.rs:290-305 | a block agrees with `Evaluation.Statement`, with the enclosing scope put back |
| Interpreting.Interpreter.EvalIf | src/interpreter.rs:306-325 | `if` agrees with `Evaluation.Statement` |
| Interpreting.Interpreter.EvalWhile | src/interpreter.rs:326-331 | `while` agrees with `Evaluation.Statement` |
| Interpreting.Interpreter.EvalObject | src/interpreter.rs:352-381 | object declarations agree with `Evaluation.Statement` |
| Interpreting.Interpreter.EvalExpr | src/interpreter.rs:385-451 | each expression gives the value and state of `Evaluation.Expression` |
| Interpreting.Interpreter.EvalTable | src/interpreter.rs:434-449 | table literals agree with `Evaluation.Expression` |
| Interpreting.Interpreter.EvalCall | src/interpreter.rs:126-164 | calls agree with `Evaluation.Expression` |
| Interpreting.Interpreter.CallFunction | src/interpreter.rs:126-164 | a function call agrees with the corrected `Evaluation.CallFunction`, which restores the caller's scope on every exit |
| Interpreting.Interpreter.EvalBody | src/interpreter.rs:110-124 | a function body agrees with `Evaluation.Body` |
| Interpreting.Interpreter.CallBuiltin | src/interpreter.rs:166-257 | built-in calls agree with `Evaluation.CallBuiltin` |
| EvalProperties.ExpressionKeepsEnv | src/interpreter.rs:385-451 | with calls that restore the caller's environment on failure (the corrected `Evaluation.Enter`), evaluating an expression never changes the environment, whatever the outcome |
| EvalProperties.BinaryKeepsEnv | src/interpreter.rs:406-410 | binary expressions keep the environment |
| EvalProperties.IndexKeepsEnv | src/interpreter.rs:423-433 | index expressions keep the environment |
| EvalProperties.FieldsKeepEnv | src/interpreter.rs:434-449 | table fields keep the environment |
| EvalProperties.CallKeepsEnv | src/interpreter.rs:126-164 | with the corrected `Evaluation.Enter`, calls keep the caller's environment, whatever the outcome |
| EvalProperties.CallFunctionKeepsEnv | src/interpreter.rs:126-164 | with the corrected `Evaluation.Enter`, a function call puts the caller's environment back, even when the body fails |
| EvalProperties.BindKeepsEnv | src/interpreter.rs:149-157 | binding the arguments keeps the caller's environment |
| EvalProperties.CallBuiltinKeepsEnv | src/interpreter.rs:166-257 | built-ins keep the environment |
| EvalProperties.PrintKeepsEnv | src/interpreter.rs:168-186 | `print` and `println` keep the environment |
| EvalProperties.IdentifierLookup | src/interpreter.rs:388-394 | a name evaluates to its innermost binding, and is an undefined-identifier error exactly when no scope binds it |
| EvalProperties.AndEvaluatesBoth | src/interpreter.rs:406-410 | `and` evaluates its right operand even when the left is false, and raises its error |
| EvalProperties.OrEvaluatesBoth | src/interpreter.rs:406-410 | `or` evaluates its right operand even when the left is true |
| EvalProperties.FailingCallScope | src/interpreter.rs:159-163 | a call whose body fails leaves the interpreter in the call scope as written, and in the caller's scope once corrected |
| EvalProperties.BlockScope | src/interpreter.rs:290-305 | a block runs in a child scope, puts the enclosing environment back on every exit, and yields what its statements yield |
| EvalProperties.ReturnSkipsRest | src/interpreter.rs:293-299 | once a statement of a block returns or fails, the statements after it do not run |
| EvalProperties.IfYieldsNone | src/interpreter.rs:306-325 | an `if` completes with no value, dropping a `return` inside a branch |
| EvalProperties.ElifsYieldNone | src/interpreter.rs:312-320 | the `elif` clauses complete with no value |
| EvalProperties.WhileYieldsNone | src/interpreter.rs:326-331 | a `while` completes with no value and a `return` in its body does not stop it |
| EvalProperties.ProgramSequence | src/interpreter.rs:272-277 | running `a + b` runs `a`, stops if it failed, and otherwise runs `b` from where `a` left off |
| EvalProperties.ProgramFromSequence | src/interpreter.rs:272-277 | the same from any position within `a` |
| EvalProperties.ProgramFromShift | src/interpreter.rs:272-277 | running `a + b` from the position just past `a`, plus `j`, is running `b` from `j` |
| EvalProperties.TopLevelReturnContinues | src/interpreter.rs:272-339 | a top-level `return` does not stop the program |
| EvalProperties.CallingNonFunction | src/interpreter.rs:126-164 | calling a value that is neither a function nor a built-in raises an error after the callee is evaluated |
| EvalProperties.BindDefinesParams | src/interpreter.rs:149-157 | binding defines every parameter, and nothing else, in the call scope and leaves its parent alone |
| EvalProperties.MissingArgumentsAreNil | src/interpreter.rs:149-157 | parameters without an argument are bound to `nil` |
| EvalProperties.ExtraArgumentsIgnored | src/interpreter.rs:149-157 | arguments beyond the parameters are never evaluated |
| EvalProperties.SelfCallUndefined | src/interpreter.rs:340-351 | a function captures the scope before its own name is defined, so calling itself by name is an undefined identifier |
| EvalProperties.TableLiteralKeys | src/interpreter.rs:434-449 | a table literal has one key per field — its name, or its position in decimal — and no other |
| EvalProperties.EntryName | src/interpreter.rs:352-381 | `var` members and methods contribute their name as a key; events contribute none |
| EvalProperties.ObjectMembers | src/interpreter.rs:352-381 | an object's table has an entry for each `var` and method member, none for events, and the environment is left alone |
| EvalScenarios.BlockShadowing | src/interpreter.rs:604-617 | `var x = 1; { var x = 2; }` leaves `x` at 1 |
| EvalScenarios.DivisionByZeroStops | src/interpreter.rs:631-641 | `var x = 1 / 0;` stops with the division-by-zero error |
| EvalScenarios.TableLiteralEntries | src/interpreter.rs:644-657 | `{x: 10, y: 20}` is a table of exactly those entries |
| EvalScenarios.MemberAccess | src/interpreter.rs:660-671 | `t.x` of `{x: 5}` is 5 |
| EvalScenarios.IndexAccess | src/interpreter.rs:674-685 | `t["name"]` of `{name: "test"}` is the string |
| EvalScenarios.ObjectDeclaration | src/interpreter.rs:688-701 | `Player.hp` of an object declaring `var hp = 100` is 100 |
| EvalScenarios.FunctionSeesGlobal | src/interpreter.rs:587-602 | a function returning the global `g` gives 10 when `g` is 10 |
| EvalScenarios.CallReturnsCaptured | src/interpreter.rs:587-602 | calling `f` returns the captured global's value and leaves the state as it was |
| EvalScenarios.ClosureCapturesOuterVariable | src/interpreter.rs:704-722 | the `makeAdder` program gives `result` the value 15 |
| EvalScenarios.ClosureCalls | src/interpreter.rs:704-722 | the two calls of that program, once `makeAdder` is defined, bind `adder` and then 15 |
| EvalScenarios.DefineStep | src/interpreter.rs:281-285 | a `var` whose initialiser yields `v` binds its name to `v` and moves on |
| StringScenario.StringEscapes | src/interpreter.rs:618-628 | `"line1\nline2"` lexes to `line1`, byte 10, `line2`, and `var s` bound to that literal leaves `s` holding exactly those bytes |
| EvalScenarios.MakeAdderReturnsInner | src/interpreter.rs:704-722 | `makeAdder()` returns `inner` closed over that call's scope |
| EvalScenarios.AdderAddsToCaptured | src/interpreter.rs:704-722 | `adder(5)` with `x` captured as 10 gives 15 |

## Left out

- `src/main.rs`: the command line, file reading and the REPL are I/O and are not part of this model.
- Console output is a log of bytes in the interpreter state. Nothing is written to a terminal.
- Floating point: float arithmetic, comparison, parsing and formatting are operations of a `FloatHost` parameter. Only negation (a sign-bit flip) and the test for zero are fixed.
- Integer overflow is modelled as the debug-build panic (`Fault.Overflow`). A release build wraps around instead.
- The panicking second `consume` (src/parser.rs:82-88) has the same name as the first. That duplicate and the unmatched brace at src/parser.rs:662 keep the file from compiling as shown. Every caller uses the `Result` form (51-58), which is the one modelled.
- The parser reads a token sequence produced by `Lexing.Tokenize`. It does not pull tokens from a live lexer. `Parsing.ParseSource` proves the two agree.
- `String::from_utf8(..).unwrap_or_default()` (src/lexer.rs:275, 321, 350) cannot fail on bytes cut from a `&str`, so it is modelled as the identity on bytes.
- Error text: runtime-error messages are modelled as bytes by `Values.Message`, and parse errors carry their line, column and message (`ParseSpec.ErrorAt`). Only the `{:?}` formatting of a token kind inside a parse message is not modelled: the message holds the kind itself.
- `Stmt::Assignment`, `Stmt::For`, `Stmt::Break`, `Stmt::Continue` (src/ast.rs:80-104) and `BinaryOp::Mod` (src/ast.rs:52) are not in `Ast`. The parser never builds them, and `eval_stmt` (src/interpreter.rs:279-383) and `apply_binary` (src/interpreter.rs:479-495) have no arm for them. The lexer still produces `Percent` and the compound-assignment tokens (src/lexer.rs:150-180), and `Lexing` models those tokens; no parser function consumes them.
- Parsing.ParseSource, Parsing.Parser.ParseProgram and ParseSpec.ParseProgram parse function declarations with the corrected `ParseSpec.ParseFuncDecl`, not the code as written (`ParseSpec.ParseFuncDeclAsWritten`). They differ from the Rust parser on declarations: `func f(): { return 1; } end` parses in the model and fails in the code, `func f() : : { } end` parses in the code and fails in the model, and after `func f() :` a token that is not `{`, `:` or a name gives a different message.
- Interpreting.Interpreter.EvalProgram, Interpreting.Interpreter.EvalExpr, Interpreting.Interpreter.EvalCall and Evaluation.Run call functions through the corrected `Evaluation.Enter`, not the code as written (`Evaluation.EnterAsWritten`). After a call whose body fails, the model is back in the caller's environment, where the Rust interpreter stays in the call scope.
- The `line` field of `RuntimeError` is not modelled, because `with_line` (src/interpreter.rs:21-26) is never called.
- `negate` (src/interpreter.rs:471-477) is never called and is not modelled.
- Evaluation takes a `fuel` bound. `OutOfFuel` has no counterpart in the Rust code.
- Interpreting.Interpreter.EvalProgram and the other `Eval*` methods require `Finishes` of their evaluation: they are stated only for runs that end within the fuel.
- `HashMap` iteration order does not matter: tables are maps.
- Events in objects are parsed and then skipped by the interpreter, as in the code.
- A function value without a captured scope falls back to the current scope, as written. The interpreter never builds such a value, because declarations always capture their scope.
- Values.Globals has no contract of its own. `Interpreting.Interpreter.constructor` states what it holds.
- Most ParseSpec functions for single statements state only progress: they move forward within the tokens and consume tokens on success. Their exact results are stated through the lemmas in `ParserProperties`.

## Findings

| source | as written | input that shows it | evidently intended | confidence | as-written member | corrected member |
|---|---|---|---|---|---|---|
| src/parser.rs:247-255 | The optional return-type check takes the mandatory `:`, then `consume(Colon)` demands a second one. | `func f(): { return 1; } end`, the form the interpreter tests (src/interpreter.rs:590, 707) and src/main.rs:21-23 use: it fails with `expected ':'` at `{`. | The return type is `: NAME` before the body's `:`. A plain `:` starts the body. | not executed | ParserProperties.UntypedRejectedAsWritten | ParserProperties.CorrectedUntypedBody |
| src/interpreter.rs:160-162 | `eval_function_body(..)?` returns before `self.env = saved_env`, so a failing body leaves the interpreter in the call scope. | The REPL line `func f(): T: { y; } end f()` with `y` undefined (the typed form, which the parser as written accepts): the call fails, and the interpreter stays in the call scope, whose parent is the scope captured before `f` was defined. The next REPL line `f()` then fails with `Undefined identifier 'f'`. The REPL (src/main.rs:52-83) keeps using the interpreter after an error. | The caller's environment is restored on every exit, as the comment at src/interpreter.rs:159 and the block case at 297-301 do. | not executed | EvalProperties.FailingCallScope | EvalProperties.CallFunctionKeepsEnv |
