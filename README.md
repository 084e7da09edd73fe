# yal: scanner, parser and interpreter, modelled in Dafny

yal is a small scripting language written in TypeScript. A program is a list of
imports of native functions followed by `func` definitions; `interpret` runs
`main`. This project models the three stages of the language pipeline and
proves what each one guarantees:

- **Scanner** (`results.dfy`, `scanner.dfy`, `scanner_properties.dfy`).
  It turns text into `Token(kind, source, line, col)` values. Runs of `' '`
  are skipped. At every other position the recognisers are tried in a fixed
  order:
  - the one-character tokens;
  - `!=` and `==`;
  - a maximal digit run (a Number);
  - a maximal word run, classified as `func`, `return`, `true`/`false` or
    Identifier;
  - `:=`.

  Anything else is a `LexError` at that offset. The scan loop and the
  line/column loop are methods proved equal to recursive spec functions.
- **Parser** (`parser.dfy`, `parser_properties.dfy`). It does recursive
  descent over the token array. Every sub-parser returns a node whose `tokens`
  is the slice it consumed, and the caller moves past it. Each loop of the
  source is a method proved equal to a spec function:
  - the argument list;
  - the parameter list;
  - the statement body;
  - the import names;
  - the import and function loops of `parse`.

  Reading a token past the end of the array makes the source crash with a
  JavaScript TypeError. The model gives `ParseError(|toks|, OutOfTokens)`.
- **Interpreter** (`interpreter.dfy`, `interpreter_properties.dfy`). It walks
  the tree.
  - The source's `Function` record is class `Frame`, with its `vars` scope
    map updated in place by `RunDeclarationStatement`.
  - The statement loop of `runFunction` and the argument loop of
    `runCallExpression` are methods. Each is proved to compute a spec
    function (`RunScript`, `EvalExpr`).
  - Natives come from a `Registry` parameter: module name, then function name,
    then arity and callable.
  - Script-call depth is bounded by a `fuel` argument.

Quirks of the source that the model keeps as they are:
- The right operand of `==`, `!=`, `+`, `-`, `*` and `/` is a whole
  expression. So `5 - 3 - 4` is `5 - (3 - 4)` and `a * b + c` is `a * (b + c)`.
- A declaration reports only `[name, :=]` as consumed. The function body then
  parses its initializer again as the next expression statement, so the
  initializer runs twice.
- `+` tags its result Number even when it concatenates two strings. So
  `("a" + "b") == "ab"` is false, because operands of different kinds are
  never equal.
- The parser tests for token kinds `KeyImport`, `KeyFrom` and `String`, which
  the scanner never emits.

Where the prose description of the language and the code disagree, the model
follows the code:
- Commas in parameter and import lists are skipped wherever they appear, so
  `(a,,b,)` is accepted.
- A newline after a statement is optional; the body loop skips one when it is
  there.
- A lexical error carries only its offset.

## Model

| member | source | states |
|---|---|---|
| Scanner.RunLength | src/scanner/index.ts:133-143 | the run is non-empty exactly when the character at the position is in the class, and it stays inside the input |
| Scanner.RunLengthMaximal | src/scanner/index.ts:183-190 | a `\d+`/`\w+` match is made of class characters and cannot be extended (maximal munch) |
| Scanner.GetMatch | src/scanner/index.ts:183-190 | a match is non-empty and lies inside the input |
| Scanner.GetMatchMeaning | src/scanner/index.ts:183-190 | a match is the text at the position; `!=`, `==`, `:=` match exactly when those two characters are there; runs are maximal |
| Scanner.GetSpaces | src/scanner/index.ts:57-64 | spaces are found exactly when the character at the position is `' '` |
| Scanner.GetSpacesMeaning | src/scanner/index.ts:57-64 | the skipped text is all the spaces at the position and nothing else |
| Scanner.LineColMeaning | src/scanner/index.ts:196-205 | line = number of `'\n'` before the position; col = characters since the last `'\n'` (or since the start) |
| Scanner.GetLineAndColForPosition | src/scanner/index.ts:196-205 | the counting loop computes LineCol: the newline count and the distance to the last newline |
| Scanner.WordKind | src/scanner/index.ts:143-167 | `func` gives KeyFunc, `return` gives KeyReturn, `true`/`false` give Bool, every other word is Identifier (each an if-and-only-if) |
| Scanner.GetToken | src/scanner/index.ts:66-181 | a token's source is non-empty and inside the input |
| Scanner.GetTokenText | src/scanner/index.ts:66-181 | a token's source is the input text at the position, with the line/column of that position |
| Scanner.GetTokenChars | src/scanner/index.ts:66-181 | a token is made of token characters and its kind is one the scanner's enum has |
| Scanner.GetTokenFound | src/scanner/index.ts:66-181 | a token is found exactly when one of the five recognisers applies at the position |
| Scanner.GetTokenSingleChar | src/scanner/index.ts:69-111 | newline, parentheses, `+ - * /`, comma and braces are always one-character tokens, before any other rule |
| Scanner.GetTokenComparison | src/scanner/index.ts:113-131 | otherwise `!=` is NotEqual and `==` is Equal, two characters each |
| Scanner.GetTokenNumber | src/scanner/index.ts:133-141 | a digit starts a Number token, and a Number token is the maximal digit run |
| Scanner.GetTokenWord | src/scanner/index.ts:143-168 | a non-digit word character starts a word token, which is the maximal word run classified by WordKind; so no Identifier starts with a digit |
| Scanner.GetTokenDeclaration | src/scanner/index.ts:170-178 | `:=` at a position is a Declaration token `:=` with that position's line and column, and a Declaration token is found only where `:=` stands |
| Scanner.ScanLoopSkip | src/scanner/index.ts:38-42 | a run of spaces is skipped without emitting anything |
| Scanner.ScanLoopEmit | src/scanner/index.ts:44-48 | a token is pushed and the position moves past its source |
| Scanner.ScanLoopStuck | src/scanner/index.ts:51 | where neither rule applies the scan fails with a LexError at that offset |
| Scanner.Scan | src/scanner/index.ts:29-55 | the scan loop over a mutable position and token array computes ScanAll |
| ScannerProperties.ScanLoopPreservesText | src/scanner/index.ts:33-55 | from any position, the emitted sources are the remaining text with its spaces removed |
| ScannerProperties.ScanPreservesText | src/scanner/index.ts:33-64 | on success, concatenating the token sources gives the input with every `' '` removed and nothing else removed |
| ScannerProperties.GetTokenWellShaped | src/scanner/index.ts:66-181 | every token has a non-empty source of token characters and a kind the scanner's enum has |
| ScannerProperties.ScanStepTokenShapes | src/scanner/index.ts:33-55 | one step of a scan loop that succeeds moves forward, leaves the loop's result unchanged, and appends only well-shaped tokens |
| ScannerProperties.ScanLoopTokenShapes | src/scanner/index.ts:44-48 | the scan loop only pushes well-shaped tokens |
| ScannerProperties.ScanTokenShapes | src/scanner/index.ts:44-48 | every scanned token is well-shaped; in particular its source is non-empty, so the position strictly increases |
| ScannerProperties.ScanNeverProducesParserOnlyKinds | src/scanner/index.ts:8-27 | no scanned token is a String, KeyImport or KeyFrom |
| ScannerProperties.ScanLoopFailure | src/scanner/index.ts:44-51 | a failure is a LexError at a reached offset holding neither a space nor the start of a token |
| ScannerProperties.ScanFailureIsUnrecognisedChar | src/scanner/index.ts:44-51 | scanning fails only at a character that is not a space and starts no token |
| ScannerProperties.ScanRejectsForeignCharacter | src/scanner/index.ts:44-51 | any input holding a character that can be in no token and is not `' '` (a tab, `"`, `;`, ...) fails to scan |
| ScannerProperties.TokenOperatorChar | src/scanner/index.ts:113-131 | inside a token, `!` and `:` occur only as the first character of `!=` or `:=` |
| ScannerProperties.TokenEqualsChar | src/scanner/index.ts:113-131 | inside a token, `=` is the first character of `==` or comes right after `!`, `:` or `=` |
| ScannerProperties.ScanStepOperatorChars | src/scanner/index.ts:33-55 | one step of a scan loop that succeeds moves forward, leaves the loop's result unchanged, and every `!`, `:` or `=` it passes over lies inside `!=`, `==` or `:=` (OperatorCharPaired) |
| ScannerProperties.ScanLoopOperatorChars | src/scanner/index.ts:33-55 | from any position, if the scan loop succeeds, every `!` or `:` it passes over is followed by `=`, and every `=` is followed by `=` or comes after `!`, `:` or `=` |
| ScannerProperties.ScanPairsOperatorChars | src/scanner/index.ts:29-55 | in an input that scans, every `!` and every `:` is immediately followed by `=`; so a lone `!` or `:` makes scanning fail |
| ScannerProperties.ScanLoneEquals | src/scanner/index.ts:29-55 | in an input that scans, an `=` not followed by `=` comes right after `!`, `:` or `=`; so a lone `=` makes scanning fail |
| ScannerProperties.ExampleNumberToken | src/scanner/index.ts:133-141 | `12ab` starts with Number `12` at line 0, column 0 |
| ScannerProperties.ExampleWordToken | src/scanner/index.ts:143-168 | at offset 2 of `12ab` the token is Identifier `ab` |
| ScannerProperties.ScanNumberThenIdentifier | src/scanner/index.ts:29-55 | `12ab` scans to exactly Number `12` then Identifier `ab` |
| Parser.StringValue | src/parser/index.ts:452-458 | a String token's value drops its first and last characters; a source shorter than two characters is kept whole (substring's bound swap) |
| Parser.ParseExpression | src/parser/index.ts:319-321 | on success at least one token is consumed, none past the end; errors are reported at or after the start |
| Parser.ParseEqualityExpression | src/parser/index.ts:323-345 | the same consumption and error-position bounds for the Equality level |
| Parser.ParseTermExpression | src/parser/index.ts:347-369 | the same bounds for the Term level |
| Parser.ParseFactorExpression | src/parser/index.ts:371-393 | the same bounds for the Factor level |
| Parser.CallExpressionAt | src/parser/index.ts:395-425 | the same bounds for a call or primary |
| Parser.ParseArgs | src/parser/index.ts:401-413 | the argument loop ends past its start and inside the input, or fails at or after its start (that it ends just after `)` is ParserProperties.ArgsEndAtCloseParen) |
| Parser.ParsePrimaryExpression | src/parser/index.ts:427-467 | a primary consumes exactly one token |
| Parser.ParseStatement | src/parser/index.ts:284-317 | a statement consumes at least one token, none past the end |
| Parser.ParseParams | src/parser/index.ts:229-245 | the parameter loop ends past its start and inside the input, or fails at or after its start (that it ends just after `)` is ParserProperties.ParamsEndAtCloseParen) |
| Parser.ParseBody | src/parser/index.ts:257-272 | the body loop ends past its start and inside the input, or fails at or after its start (that it ends just after `}` is ParserProperties.BodyEndsAtCloseCurly) |
| Parser.FunctionAt | src/parser/index.ts:213-281 | a function consumes at least one token, none past the end |
| Parser.FunctionRest | src/parser/index.ts:247-281 | after the parameters: `{`, a newline, then the body loop; a function it yields consumes at least one token from `func` and none past the end; its errors lie between `func` and the end of the input |
| Parser.ImportNames | src/parser/index.ts:176-193 | the name loop stops inside the input or fails at or after its start |
| Parser.ImportAt | src/parser/index.ts:164-211 | an import consumes at least one token, none past the end |
| Parser.ImportTail | src/parser/index.ts:195-210 | the import consumes at least one token, none past the end; errors lie at or after the end of the names (its tokens are ParserProperties.ImportTailShape) |
| Parser.ImportsLoop | src/parser/index.ts:122-143 | the import loop stops inside the input |
| Parser.FunctionsLoop | src/parser/index.ts:146-159 | errors of the function loop lie at or after its start |
| Parser.CallAtArgs | src/parser/index.ts:396-421 | an identifier followed by `(` is a call whose arguments are those of the argument loop and whose tokens run to where that loop stops, or the loop's error (that this is its `)` is ParserProperties.CallEndsAtCloseParen) |
| Parser.CallAtPrimary | src/parser/index.ts:422-424 | anything else is a primary expression |
| Parser.ArgsComma | src/parser/index.ts:406-409 | a comma in an argument list is skipped |
| Parser.ArgsStep | src/parser/index.ts:410-412 | an argument is appended and the cursor moves past its tokens |
| Parser.ArgsFail | src/parser/index.ts:410 | an argument that fails to parse fails the call |
| Parser.BodyStep | src/parser/index.ts:268-271 | a statement is appended; one newline after it is skipped; a statement that ends the input is an error |
| Parser.BodyResume | src/parser/index.ts:267-270 | after a statement that ends inside the input, the loop resumes past it and past one newline after it |
| Parser.BodyEnd | src/parser/index.ts:260-266 | at the end of the input the body loop fails as unterminated; at `}` it stops just after it with the statements read so far |
| Parser.BodyFail | src/parser/index.ts:268 | a statement that fails to parse fails the function |
| Parser.ImportsSkip | src/parser/index.ts:124-127 | newlines between imports are skipped |
| Parser.ImportsStep | src/parser/index.ts:129-139 | an import records its names and the loop resumes after its tokens |
| Parser.ImportsFail | src/parser/index.ts:130 | an import that fails to parse fails the program |
| Parser.FunctionsStep | src/parser/index.ts:153-158 | a function is parsed, rejected if its name is recorded, else recorded; the loop resumes after its tokens |
| Parser.AddNatives | src/parser/index.ts:131-138 | defines the recording of an import's names as natives (ParserProperties.AddNativesMeaning) |
| Parser.ParseProgram | src/parser/index.ts:117-162 | defines parse: the import loop, then the function loop (ParserProperties.ProgramEntries) |
| Parser.ParseArgumentList | src/parser/index.ts:399-413 | the argument loop computes ParseArgs |
| Parser.ParseCallExpression | src/parser/index.ts:395-425 | parseCallExpression computes CallExpressionAt |
| Parser.ParseParameterList | src/parser/index.ts:229-245 | the parameter loop computes ParseParams |
| Parser.ParseFunctionBody | src/parser/index.ts:257-272 | the statement loop computes ParseBody |
| Parser.ParseFunction | src/parser/index.ts:213-281 | parseFunction computes FunctionAt |
| Parser.ParseImportNames | src/parser/index.ts:176-193 | the import-name loop computes ImportNames |
| Parser.ParseImportTail | src/parser/index.ts:195-210 | the end of parseImport computes ImportTail |
| Parser.ParseImport | src/parser/index.ts:164-211 | parseImport computes ImportAt |
| Parser.RecordNatives | src/parser/index.ts:131-138 | the inner loop records every imported name as AddNatives does |
| Parser.ParseImports | src/parser/index.ts:122-143 | the import loop computes ImportsLoop |
| Parser.ParseFunctions | src/parser/index.ts:146-159 | the function loop computes FunctionsLoop |
| Parser.Parse | src/parser/index.ts:117-162 | parse computes ParseProgram |
| ParserProperties.CallExpressionShape | src/parser/index.ts:395-425 | a parsed call or primary is the slice at its start and begins with a Number, Bool, Identifier or String token |
| ParserProperties.FactorExpressionShape | src/parser/index.ts:371-393 | the same for the Factor level |
| ParserProperties.TermExpressionShape | src/parser/index.ts:347-369 | the same for the Term level |
| ParserProperties.ExpressionShape | src/parser/index.ts:319-345 | every parsed expression's tokens are the contiguous slice at its start |
| ParserProperties.StatementSpans | src/parser/index.ts:284-317 | a statement's tokens are the slice at its start |
| ParserProperties.FunctionSpans | src/parser/index.ts:274-280 | a function's tokens are the contiguous slice at its start (that it begins with `func` is FunctionHeader, that it ends with `}` is FunctionShape) |
| ParserProperties.ParamsEndAtCloseParen | src/parser/index.ts:229-245 | the parameter loop stops only just after a `)` |
| ParserProperties.ArgsEndAtCloseParen | src/parser/index.ts:401-413 | the argument loop stops only just after a `)` |
| ParserProperties.BodyEndsAtCloseCurly | src/parser/index.ts:257-272 | the body loop stops only just after a `}` |
| ParserProperties.FunctionHeader | src/parser/index.ts:213-245 | a parsed function starts with `func`, takes the next token as its name whatever its kind, then `(`; its parameters are the parameter loop's |
| ParserProperties.FunctionShape | src/parser/index.ts:229-281 | after the parameter loop come `)`, `{` and a newline; the function's last token is the `}` that ends the body |
| ParserProperties.FunctionOpensBody | src/parser/index.ts:247-255 | in a parsed function, `{` and then a newline follow the parameters |
| ParserProperties.FunctionBody | src/parser/index.ts:257-280 | a parsed function's body loop succeeds; the function's statements are that loop's, and its tokens run from `func` to where that loop stops |
| ParserProperties.FunctionAtBody | src/parser/index.ts:247-281 | once the head, the parameters, `{` and the newline are read, the function is the body loop's statements and tokens up to its end, or the body loop's error |
| ParserProperties.FunctionBodyErrors | src/parser/index.ts:247-272 | after the parameters, running out of tokens, a missing `{`, a missing newline after it, or a failing body loop fails the function, each with its own error |
| ParserProperties.ImportTailShape | src/parser/index.ts:195-210 | a parsed import's tail is `from` then a String token, which ends its tokens; its names are the name loop's and its module is the String's value |
| ParserProperties.ImportSpans | src/parser/index.ts:206-210 | an import's tokens are the slice at its start |
| ParserProperties.DeclarationTokens | src/parser/index.ts:296-307 | a declaration's tokens are exactly `[name, :=]`, and its initializer is the expression parsed after them |
| ParserProperties.DeclarationInitializerReparsed | src/parser/index.ts:268-271 | after a declaration the body loop resumes at its initializer and parses it again as an expression statement |
| ParserProperties.EqualityOperands | src/parser/index.ts:323-345 | an Equality's lhs comes from the Term level, its operator is `==`/`!=`, and its rhs is a whole expression |
| ParserProperties.TermOperands | src/parser/index.ts:347-369 | a Term's lhs comes from the Factor level, its operator is `+`/`-`, its rhs is a whole expression |
| ParserProperties.FactorOperands | src/parser/index.ts:371-393 | a Factor's lhs is a call or primary, its operator is `*`/`/`, its rhs is a whole expression |
| ParserProperties.Leaf | src/parser/index.ts:427-467 | a lone number or identifier before `,`, `)` or a newline is a primary |
| ParserProperties.Difference | src/parser/index.ts:347-369 | `y - z` before a newline is a Term of two literals |
| ParserProperties.SubtractionNestsRight | src/parser/index.ts:356 | `5 - 3 - 4` parses as `5 - (3 - 4)` |
| ParserProperties.Sum | src/parser/index.ts:347-369 | `b + c` before a newline is a Term of two names |
| ParserProperties.ProductCapturesSum | src/parser/index.ts:380 | `a * b + c` parses as `a * (b + c)` |
| ParserProperties.CallRecognised | src/parser/index.ts:395-425 | a call is produced exactly when an identifier is immediately followed by `(`; its arguments are the argument loop's |
| ParserProperties.CallEndsAtCloseParen | src/parser/index.ts:395-421 | a parsed call starts with its name and `(`, and its last token is the `)` that closes its arguments |
| ParserProperties.CallWithTwoArguments | src/parser/index.ts:401-413 | `f(x, 7)` has arguments `x` then `7`, the comma skipped |
| ParserProperties.PrimaryLiteral | src/parser/index.ts:427-461 | Number gives its digits' value, Bool is true iff its source is `true`, String drops its quotes, Identifier is a reference, any other kind is an error |
| ParserProperties.ScannedNumbersAreExact | src/parser/index.ts:431-437 | every Number token the scanner produces is a digit run and parses to its exact decimal value |
| ParserProperties.DigitsValueExamples | src/parser/index.ts:434 | `0`, `12`, `305` read as 0, 12, 305 |
| ParserProperties.ParamsMeaning | src/parser/index.ts:229-245 | the parameters are the identifiers before `)`, in order, commas skipped anywhere; any other token is an error; running out of tokens is an error |
| ParserProperties.ImportNamesMeaning | src/parser/index.ts:176-193 | the imported names are the identifiers before `}`, in order, commas skipped; any other token is an error |
| ParserProperties.FunctionParameters | src/parser/index.ts:213-245 | a parsed function's parameters are the identifiers between its parentheses |
| ParserProperties.FirstNonListToken | src/parser/index.ts:229-245 | the list loops run over identifiers and commas: the result is the first position at or after the start that holds neither, every position before it holds one, and it lies inside the input |
| ParserProperties.AddNativesMeaning | src/parser/index.ts:131-138 | an import makes each imported name a native of its module, overwriting silently, and leaves every other entry alone |
| ParserProperties.AddNativesKeepsNative | src/parser/index.ts:131-138 | recording natives keeps an all-native record all native and loses no name |
| ParserProperties.ImportsLoopImport | src/parser/index.ts:129-130 | an import keyword that the import loop gets past starts an import that parses |
| ParserProperties.ImportsTurn | src/parser/index.ts:122-143 | one pass of the import loop over a newline or an import moves forward and records the names of one import (none for a newline), leaving the loop's result unchanged |
| ParserProperties.ImportsLoopNatives | src/parser/index.ts:122-143 | the import loop only records natives and never drops an entry |
| ParserProperties.FunctionsLoopFunction | src/parser/index.ts:153-158 | a function the function loop gets past parses, its name is not recorded yet, and the loop resumes after its tokens with it recorded |
| ParserProperties.FunctionsTurn | src/parser/index.ts:146-159 | one pass of the function loop moves forward, keeps every entry, and adds only script functions under their own names |
| ParserProperties.FunctionsLoopKeeps | src/parser/index.ts:146-159 | the function loop never replaces an entry; each entry it adds is the script function of that name |
| ParserProperties.RedeclarationRejected | src/parser/index.ts:153-156 | a function whose name is already recorded, by a function or by an import, fails the parse at its `func` |
| ParserProperties.ProgramEntries | src/parser/index.ts:117-162 | a parsed program keeps every import as a native, and every other entry is the script function of that name |
| Interpreter.RunNative | src/interpreter/index.ts:96-110 | defines runNativeFunction: module, then function, then arity check, then the callable on the payloads (proved in InterpreterProperties.NativeRules) |
| Interpreter.EqualityValue | src/interpreter/index.ts:142-164 | defines the equality rule on two values (proved in InterpreterProperties.EqualityRules) |
| Interpreter.TermValue | src/interpreter/index.ts:170-195 | defines the `+`/`-` rule on two values (InterpreterProperties.TermRules, TermOnNumbers, TermOnStrings) |
| Interpreter.FactorValue | src/interpreter/index.ts:201-220 | defines the `*`/`/` rule on two values (InterpreterProperties.FactorRules, FactorOnNumbers) |
| Interpreter.PrimaryValue | src/interpreter/index.ts:246-273 | defines runPrimaryExpression: literals wrap their payload, identifiers read the scope (InterpreterProperties.UnboundIdentifierFails) |
| Interpreter.EvalExpr | src/interpreter/index.ts:121-137 | defines runExpression with its operand order (InterpreterProperties.OperandsLeftToRight, CallRules, EvalReadsOnlyMentioned) |
| Interpreter.EvalArgs | src/interpreter/index.ts:229-233 | defines the argument loop of runCallExpression (InterpreterProperties.ArgsSucceedIffEach, FirstFailingArgumentWins, ArgumentValuesInOrder) |
| Interpreter.CallFunction | src/interpreter/index.ts:235-243 | defines the dispatch on the callee's kind (InterpreterProperties.CallRules) |
| Interpreter.Declare | src/interpreter/index.ts:112-119 | defines runDeclarationStatement on a scope value (InterpreterProperties.DeclareMeaning) |
| Interpreter.ExecStmts | src/interpreter/index.ts:75-93 | defines the statement loop of runFunction (InterpreterProperties.StatementsRunInOrder, FirstReturnWins, RunningOffTheEndYieldsVoid) |
| Interpreter.Bind | src/interpreter/index.ts:64-67 | defines the reduce building the parameter scope (InterpreterProperties.BindKeys, BindValues) |
| Interpreter.RunScript | src/interpreter/index.ts:60-94 | defines runFunction (InterpreterProperties.RunScriptScope) |
| Interpreter.InterpretProgram | src/interpreter/index.ts:51-58 | defines interpret (InterpreterProperties.InterpretOutcome) |
| Interpreter.Payloads | src/interpreter/index.ts:108 | the callable receives each argument's payload, in order |
| Interpreter.Frame.constructor | src/interpreter/index.ts:68-73 | a new frame holds the function and the given scope |
| Interpreter.BindParameters | src/interpreter/index.ts:64-67 | the reduce over the parameters computes Bind |
| Interpreter.RunDeclarationStatement | src/interpreter/index.ts:112-119 | the frame's scope becomes Declare's result, or stays as it was on an error |
| Interpreter.RunExpression | src/interpreter/index.ts:121-137 | runExpression computes EvalExpr, reading the frame's scope without changing it |
| Interpreter.RunCallExpression | src/interpreter/index.ts:223-244 | the argument loop and the dispatch compute EvalExpr of the call; the caller's frame is not modified |
| Interpreter.RunFunction | src/interpreter/index.ts:60-94 | the arity check, the fresh frame and the statement loop compute RunScript |
| Interpreter.Interpret | src/interpreter/index.ts:51-58 | interpret computes InterpretProgram |
| InterpreterProperties.InterpretOutcome | src/interpreter/index.ts:51-63 | a missing `main` fails; a `main` with parameters fails the arity check; on success the result is the payload of main's value |
| InterpreterProperties.BindKeys | src/interpreter/index.ts:64-67 | the parameter scope binds exactly the parameter names |
| InterpreterProperties.BindValues | src/interpreter/index.ts:64-67 | each parameter name is bound to the argument at its last position |
| InterpreterProperties.RunScriptScope | src/interpreter/index.ts:60-73 | a wrong argument count fails before any statement; otherwise the statements run in a scope holding exactly the parameters, bound positionally |
| InterpreterProperties.StatementsRunInOrder | src/interpreter/index.ts:75-91 | a return-free prefix runs first, and the rest runs in the scope it leaves unless it failed |
| InterpreterProperties.FirstReturnWins | src/interpreter/index.ts:84-87 | the first `return` gives the result and no later statement runs |
| InterpreterProperties.RunningOffTheEndYieldsVoid | src/interpreter/index.ts:93 | a body that finishes without `return` yields Void |
| InterpreterProperties.DeclareMeaning | src/interpreter/index.ts:112-119 | the initializer's error wins; then a bound name fails; otherwise exactly one binding is added and no other changes |
| InterpreterProperties.ParameterCannotBeRedeclared | src/interpreter/index.ts:112-119 | declaring a parameter's name fails with RedeclaredVariable |
| InterpreterProperties.EvalReadsOnlyMentioned | src/interpreter/index.ts:121-137 | an expression's value depends on the scope only through the names it mentions; a callee never sees the caller's scope |
| InterpreterProperties.ArgsReadOnlyMentioned | src/interpreter/index.ts:229-233 | the same for the argument list |
| InterpreterProperties.UnboundIdentifierFails | src/interpreter/index.ts:258-265 | an identifier has a value exactly when it is bound, and it is then the bound value; otherwise UndeclaredVariable |
| InterpreterProperties.OperandsLeftToRight | src/interpreter/index.ts:139-221 | the lhs is evaluated first and its error wins; then the rhs; then the operator rule |
| InterpreterProperties.EqualityRules | src/interpreter/index.ts:139-165 | differing kinds give Bool false under `==` and `!=` alike; one kind compares payloads; the result is always a Bool |
| InterpreterProperties.TermRules | src/interpreter/index.ts:167-196 | differing kinds fail; `-` needs Numbers, `+` Numbers or Strings; every result is tagged Number |
| InterpreterProperties.TermOnNumbers | src/interpreter/index.ts:174-190 | two numbers are added or subtracted |
| InterpreterProperties.TermOnStrings | src/interpreter/index.ts:182-195 | two strings are concatenated by `+` into a Number-tagged value; `-` refuses them |
| InterpreterProperties.FactorRules | src/interpreter/index.ts:198-221 | both operands must be Numbers; the result is a Number |
| InterpreterProperties.FactorOnNumbers | src/interpreter/index.ts:205-215 | `*` multiplies; `/` succeeds only with an exact quotient of a non-zero divisor |
| InterpreterProperties.ArgsSucceedIffEach | src/interpreter/index.ts:229-233 | the argument list has values exactly when every argument has one |
| InterpreterProperties.FirstFailingArgumentWins | src/interpreter/index.ts:229-233 | arguments run left to right: the first failing one gives the error |
| InterpreterProperties.ArgumentValuesInOrder | src/interpreter/index.ts:229-233 | the argument values come in argument order |
| InterpreterProperties.CallRules | src/interpreter/index.ts:223-244 | an unknown callee fails before any argument is evaluated; a native callee gets the argument values; a script callee runs with one unit of fuel less |
| InterpreterProperties.NativeRules | src/interpreter/index.ts:96-110 | the module is checked, then the function, then the arity; the callable's result on the unwrapped payloads is returned unchanged |
| InterpreterProperties.ConcatenationIsNotAString | src/interpreter/index.ts:142-147 | `"a" + "b"` is a Number-tagged `"ab"`, so comparing it with the string `"ab"` gives false |

## Left out

- Floating point. Numbers are unbounded integers. These results are `Err(Unmodelled)`:
  - a `/` that is not exact (including division by zero, which gives Infinity or NaN in JavaScript);
  - `+`/`-`/`*` on payloads of the wrong type, i.e. JavaScript coercions such as a string plus a number;
  - `===` on an unrepresented number.

  Negative zero and the loss of precision above 2^53 are not modelled.
- Parser.NumberValue: `parseFloat` of a Number token that is not a digit run is `Unrepresented`; the scanner never produces one (ScannedNumbersAreExact).
- Non-termination. A script call uses one unit of `fuel`. A program that nests calls deeper than the fuel gives `Err(OutOfFuel)` where the source would recurse on or overflow its stack.
- async/await. Evaluation is strictly sequential, so the model is synchronous.
- Native modules. `native-modules.ts` and the `fs`, `http`, `io` and `server` modules are file, network and console I/O. They are not part of this model. The registry is a parameter, and each callable is a deterministic function from payloads to a result; `Err` stands for the exception it throws.
- Exceptions. Each thrown exception is one `Error` constructor. Message texts, and the `console.error` before an undeclared-variable error, are not modelled.
- JavaScript object quirks. A record lookup by a name such as `toString` finds an inherited prototype member in the source; here the name is simply absent.
- Defensive defaults. The `default` branches for unknown statement, expression, value and function kinds cannot be reached, because those kinds are closed datatypes.
- A `main` that is a native import makes the source crash reading its parameter list. The model reports it as `NotAScriptFunction`.
- Import module names. A module name is the String token with its first and last characters dropped, because the scanner has no String tokens to produce a real one.
