/**
 * The yal parser (src/parser/index.ts): recursive descent over the token
 * array. Every sub-parser takes the array and a start position and returns a
 * node whose `tokens` field is the slice it consumed; the caller moves its
 * cursor past that slice.
 *
 * The spec functions below follow the source branch by branch. The four
 * parsers that the source writes as loops over a mutable cursor (parse,
 * parseImport, parseFunction, parseCallExpression) are also given as methods
 * with those loops, each proved to compute its spec function.
 *
 * Reading a token past the end of the array makes the source crash with a
 * JavaScript TypeError; here that is ParseError(|toks|, OutOfTokens).
 */
module Parser {
  import opened Results
  import opened Scanner

  // ---------------------------------------------------------------------------
  // The AST.

  /** What a literal carries (the `any` of the source). Number literals are
      parsed with parseFloat; a source that is not a digit run has no exact
      integer reading and is `Unrepresented`. */
  datatype Payload = Num(n: int) | Str(s: string) | Flag(b: bool) | Null | Unrepresented

  /** ValueType of the parser. */
  datatype LiteralKind = NumberLit | IdentifierLit | BoolLit | StringLit

  datatype Literal = Literal(kind: LiteralKind, value: Payload, tokens: seq<Token>)

  datatype Expr =
    | Equality(lhs: Expr, op: Token, rhs: Expr, tokens: seq<Token>)
    | Term(lhs: Expr, op: Token, rhs: Expr, tokens: seq<Token>)
    | Factor(lhs: Expr, op: Token, rhs: Expr, tokens: seq<Token>)
    | Call(funcName: Token, params: seq<Expr>, tokens: seq<Token>)
    | Primary(value: Literal, tokens: seq<Token>)

  datatype Statement =
    | ExpressionStmt(expression: Expr, tokens: seq<Token>)
    | ReturnStmt(expression: Expr, tokens: seq<Token>)
    | DeclarationStmt(varName: Token, expression: Expr, tokens: seq<Token>)

  /** A script function, or a native one brought in by an import. */
  datatype FunctionDef =
    | Script(name: Token, args: seq<Token>, statements: seq<Statement>, tokens: seq<Token>)
    | Native(functionName: string, moduleName: string)

  /** The functions record, keyed by name. */
  type Program = map<string, FunctionDef>

  /** An import: the imported names, the module name's string value, and the
      consumed tokens. */
  datatype Import = Import(functions: seq<Token>, moduleName: string, tokens: seq<Token>)

  /** `ts` is a non-empty slice of `toks` starting at `pos`. */
  predicate Spans(toks: seq<Token>, pos: nat, ts: seq<Token>) {
    0 < |ts| && pos + |ts| <= |toks| && ts == toks[pos..pos + |ts|]
  }

  /** A node consumed `|ts|` tokens at `pos`: at least one, none past the end. */
  predicate Consumes(toks: seq<Token>, pos: nat, ts: seq<Token>) {
    0 < |ts| && pos + |ts| <= |toks|
  }

  /** A parse error reported at a position in [lo, hi]. */
  predicate ErrorWithin(e: Error, lo: nat, hi: nat) {
    e.ParseError? && lo <= e.at <= hi
  }

  // ---------------------------------------------------------------------------
  // Literal values.

  /** The integer a non-empty run of decimal digits denotes. */
  function DigitsValue(s: string): (n: nat)
    requires AllIn(s, Digit)
  {
    if s == [] then 0
    else DigitsValue(s[..|s| - 1]) * 10 + (s[|s| - 1] as int - '0' as int)
  }

  /** parseFloat of a Number token's source: exact on a digit run. */
  function NumberValue(source: string): Payload {
    if 0 < |source| && AllIn(source, Digit) then Num(DigitsValue(source)) else Unrepresented
  }

  /** JavaScript's String.prototype.substring: both bounds clamped to
      [0, |s|], then swapped if out of order. */
  function Substring(s: string, start: int, end: int): string {
    var a := if start < 0 then 0 else if start > |s| then |s| else start;
    var b := if end < 0 then 0 else if end > |s| then |s| else end;
    if a <= b then s[a..b] else s[b..a]
  }

  /** A String token's value, `source.substring(1, source.length - 1)`:
      the quotes are dropped, and a source shorter than two characters is
      kept whole (the bounds swap). */
  function StringValue(source: string): (r: string)
    ensures |source| >= 2 ==> r == source[1..|source| - 1]
    ensures |source| < 2 ==> r == source
  {
    Substring(source, 1, |source| - 1)
  }

  // ---------------------------------------------------------------------------
  // Expressions. The measure is (tokens left, level): every parser either
  // calls one level down at the same position or calls parseExpression
  // further right.

  function ParseExpression(toks: seq<Token>, pos: nat): (r: Result<Expr>)
    requires pos <= |toks|
    decreases |toks| - pos, 5
    ensures r.Ok? ==> Consumes(toks, pos, r.value.tokens)
    ensures r.Err? ==> ErrorWithin(r.error, pos, |toks|)
  {
    ParseEqualityExpression(toks, pos)
  }

  /** A Term-level expression, then optionally `==`/`!=` and a whole
      expression as the right operand. */
  function ParseEqualityExpression(toks: seq<Token>, pos: nat): (r: Result<Expr>)
    requires pos <= |toks|
    decreases |toks| - pos, 4
    ensures r.Ok? ==> Consumes(toks, pos, r.value.tokens)
    ensures r.Ok? && r.value.Equality? ==> !r.value.lhs.Equality?
    ensures r.Err? ==> ErrorWithin(r.error, pos, |toks|)
  {
    var lhs :- ParseTermExpression(toks, pos);
    var lp := pos + |lhs.tokens|;
    if lp >= |toks| then Err(ParseError(|toks|, OutOfTokens))
    else if toks[lp].kind == NotEqual || toks[lp].kind == Equal then
      var rhs :- ParseExpression(toks, lp + 1);
      Ok(Equality(lhs, toks[lp], rhs, toks[pos..lp + 1 + |rhs.tokens|]))
    else Ok(lhs)
  }

  /** A Factor-level expression, then optionally `+`/`-` and a whole
      expression as the right operand. */
  function ParseTermExpression(toks: seq<Token>, pos: nat): (r: Result<Expr>)
    requires pos <= |toks|
    decreases |toks| - pos, 3
    ensures r.Ok? ==> Consumes(toks, pos, r.value.tokens)
    ensures r.Ok? ==> !r.value.Equality?
    ensures r.Ok? && r.value.Term? ==> r.value.lhs.Factor? || r.value.lhs.Call? || r.value.lhs.Primary?
    ensures r.Err? ==> ErrorWithin(r.error, pos, |toks|)
  {
    var lhs :- ParseFactorExpression(toks, pos);
    var lp := pos + |lhs.tokens|;
    if lp >= |toks| then Err(ParseError(|toks|, OutOfTokens))
    else if toks[lp].kind == Plus || toks[lp].kind == Minus then
      var rhs :- ParseExpression(toks, lp + 1);
      Ok(Term(lhs, toks[lp], rhs, toks[pos..lp + 1 + |rhs.tokens|]))
    else Ok(lhs)
  }

  /** A Call or Primary, then optionally `*`/`/` and a whole expression as
      the right operand. */
  function ParseFactorExpression(toks: seq<Token>, pos: nat): (r: Result<Expr>)
    requires pos <= |toks|
    decreases |toks| - pos, 2
    ensures r.Ok? ==> Consumes(toks, pos, r.value.tokens)
    ensures r.Ok? ==> r.value.Factor? || r.value.Call? || r.value.Primary?
    ensures r.Ok? && r.value.Factor? ==> r.value.lhs.Call? || r.value.lhs.Primary?
    ensures r.Err? ==> ErrorWithin(r.error, pos, |toks|)
  {
    var lhs :- CallExpressionAt(toks, pos);
    var lp := pos + |lhs.tokens|;
    if lp >= |toks| then Err(ParseError(|toks|, OutOfTokens))
    else if toks[lp].kind == Star || toks[lp].kind == Slash then
      var rhs :- ParseExpression(toks, lp + 1);
      Ok(Factor(lhs, toks[lp], rhs, toks[pos..lp + 1 + |rhs.tokens|]))
    else Ok(lhs)
  }

  /** parseCallExpression: an Identifier followed by `(` starts a call whose
      arguments run up to `)`; anything else is a primary expression. */
  function CallExpressionAt(toks: seq<Token>, pos: nat): (r: Result<Expr>)
    requires pos <= |toks|
    decreases |toks| - pos, 1
    ensures r.Ok? ==> Consumes(toks, pos, r.value.tokens)
    ensures r.Ok? ==> r.value.Call? || r.value.Primary?
    ensures r.Err? ==> ErrorWithin(r.error, pos, |toks|)
  {
    if pos >= |toks| then Err(ParseError(|toks|, OutOfTokens))
    else if toks[pos].kind == Identifier && pos + 1 >= |toks| then Err(ParseError(|toks|, OutOfTokens))
    else if toks[pos].kind == Identifier && toks[pos + 1].kind == OpenParen then
      var args :- ParseArgs(toks, pos + 2, []);
      Ok(Call(toks[pos], args.0, toks[pos..args.1]))
    else ParsePrimaryExpression(toks, pos)
  }

  /** The argument loop of parseCallExpression from `lp`, with `acc` the
      arguments so far: the arguments and the position after `)`. */
  function ParseArgs(toks: seq<Token>, lp: nat, acc: seq<Expr>): (r: Result<(seq<Expr>, nat)>)
    requires lp <= |toks|
    decreases |toks| - lp, 6
    ensures r.Ok? ==> lp < r.value.1 <= |toks|
    ensures r.Err? ==> ErrorWithin(r.error, lp, |toks|)
  {
    if lp >= |toks| then Err(ParseError(|toks|, OutOfTokens))
    else if toks[lp].kind == CloseParen then Ok((acc, lp + 1))
    else if toks[lp].kind == Comma then ParseArgs(toks, lp + 1, acc)
    else
      var e :- ParseExpression(toks, lp);
      ParseArgs(toks, lp + |e.tokens|, acc + [e])
  }

  /** parsePrimaryExpression: one token becomes a literal. */
  function ParsePrimaryExpression(toks: seq<Token>, pos: nat): (r: Result<Expr>)
    requires pos <= |toks|
    ensures r.Ok? ==> Consumes(toks, pos, r.value.tokens)
    ensures r.Ok? ==> pos < |toks| && r.value.Primary? && r.value.tokens == [toks[pos]] && r.value.value.tokens == [toks[pos]]
    ensures r.Err? ==> ErrorWithin(r.error, pos, |toks|)
  {
    if pos >= |toks| then Err(ParseError(|toks|, OutOfTokens))
    else
      var token := toks[pos];
      var value :- match token.kind
        case Number => Ok(Literal(NumberLit, NumberValue(token.source), [token]))
        case Bool => Ok(Literal(BoolLit, Flag(token.source == "true"), [token]))
        case Identifier => Ok(Literal(IdentifierLit, Null, [token]))
        case String => Ok(Literal(StringLit, Str(StringValue(token.source)), [token]))
        case _ => Err(ParseError(pos, UnexpectedPrimary));
      Ok(Primary(value, toks[pos..pos + 1]))
  }

  // ---------------------------------------------------------------------------
  // Statements.

  /** parseStatement: `return e`, `name := e`, or a bare expression. A
      declaration reports only its first two tokens as consumed. */
  function ParseStatement(toks: seq<Token>, pos: nat): (r: Result<Statement>)
    requires pos <= |toks|
    ensures r.Ok? ==> Consumes(toks, pos, r.value.tokens)
    ensures r.Err? ==> ErrorWithin(r.error, pos, |toks|)
  {
    if pos >= |toks| then Err(ParseError(|toks|, OutOfTokens))
    else if toks[pos].kind == KeyReturn then
      var e :- ParseExpression(toks, pos + 1);
      Ok(ReturnStmt(e, toks[pos..pos + 1 + |e.tokens|]))
    else if toks[pos].kind == Identifier && pos + 1 >= |toks| then Err(ParseError(|toks|, OutOfTokens))
    else if toks[pos].kind == Identifier && toks[pos + 1].kind == Declaration then
      var e :- ParseExpression(toks, pos + 2);
      Ok(DeclarationStmt(toks[pos], e, toks[pos..pos + 2]))
    else
      var e :- ParseExpression(toks, pos);
      Ok(ExpressionStmt(e, e.tokens))
  }

  // ---------------------------------------------------------------------------
  // Function definitions.

  /** The parameter loop from `lp`: the parameter tokens and the position
      after `)`. */
  function ParseParams(toks: seq<Token>, lp: nat, acc: seq<Token>): (r: Result<(seq<Token>, nat)>)
    requires lp <= |toks|
    decreases |toks| - lp
    ensures r.Ok? ==> lp < r.value.1 <= |toks|
    ensures r.Err? ==> ErrorWithin(r.error, lp, |toks|)
  {
    if lp >= |toks| then Err(ParseError(|toks|, OutOfTokens))
    else if toks[lp].kind == CloseParen then Ok((acc, lp + 1))
    else if toks[lp].kind == Identifier then ParseParams(toks, lp + 1, acc + [toks[lp]])
    else if toks[lp].kind == Comma then ParseParams(toks, lp + 1, acc)
    else Err(ParseError(lp, UnexpectedParameter))
  }

  /** The body loop from `lp`: the statements and the position after `}`.
      After each statement one NewLine, if present, is skipped. */
  function ParseBody(toks: seq<Token>, lp: nat, acc: seq<Statement>): (r: Result<(seq<Statement>, nat)>)
    requires lp <= |toks|
    decreases |toks| - lp
    ensures r.Ok? ==> lp < r.value.1 <= |toks|
    ensures r.Err? ==> ErrorWithin(r.error, lp, |toks|)
  {
    if lp >= |toks| then Err(ParseError(|toks|, UnterminatedBody))
    else if toks[lp].kind == CloseCurly then Ok((acc, lp + 1))
    else
      var stmt :- ParseStatement(toks, lp);
      var next := lp + |stmt.tokens|;
      if next >= |toks| then Err(ParseError(|toks|, OutOfTokens))
      else if toks[next].kind == NewLine then ParseBody(toks, next + 1, acc + [stmt])
      else ParseBody(toks, next, acc + [stmt])
  }

  /** parseFunction: `func NAME ( params ) { NEWLINE body }`. The name token
      is taken as it is, whatever its kind. */
  function FunctionAt(toks: seq<Token>, pos: nat): (r: Result<FunctionDef>)
    requires pos <= |toks|
    ensures r.Ok? ==> r.value.Script? && Consumes(toks, pos, r.value.tokens)
    ensures r.Err? ==> ErrorWithin(r.error, pos, |toks|)
  {
    if pos >= |toks| then Err(ParseError(|toks|, OutOfTokens))
    else if toks[pos].kind != KeyFunc then Err(ParseError(pos, ExpectedFunc))
    else if pos + 2 >= |toks| then Err(ParseError(|toks|, OutOfTokens))
    else if toks[pos + 2].kind != OpenParen then Err(ParseError(pos + 2, ExpectedOpenParen))
    else
      var params :- ParseParams(toks, pos + 3, []);
      FunctionRest(toks, pos, params.0, params.1)
  }

  /** The rest of parseFunction once the parameter loop stopped at `lp`:
      `{`, a newline, then the body loop. */
  function FunctionRest(toks: seq<Token>, pos: nat, args: seq<Token>, lp: nat): (r: Result<FunctionDef>)
    requires pos + 3 < lp <= |toks|
    ensures r.Ok? ==> r.value.Script? && Consumes(toks, pos, r.value.tokens)
    ensures r.Err? ==> ErrorWithin(r.error, pos, |toks|)
  {
    if lp >= |toks| then Err(ParseError(|toks|, OutOfTokens))
    else if toks[lp].kind != OpenCurly then Err(ParseError(lp, ExpectedBodyCurly))
    else if lp + 1 >= |toks| then Err(ParseError(|toks|, OutOfTokens))
    else if toks[lp + 1].kind != NewLine then Err(ParseError(lp + 1, ExpectedNewLine))
    else
      var body :- ParseBody(toks, lp + 2, []);
      Ok(Script(toks[pos + 1], args, body.0, toks[pos..body.1]))
  }

  // ---------------------------------------------------------------------------
  // Imports.

  /** The name loop of parseImport from `lp`: the imported names and the
      position after `}` (or the end of the array, where the loop stops
      without an error). */
  function ImportNames(toks: seq<Token>, lp: nat, acc: seq<Token>): (r: Result<(seq<Token>, nat)>)
    requires lp <= |toks|
    decreases |toks| - lp
    ensures r.Ok? ==> lp <= r.value.1 <= |toks|
    ensures r.Err? ==> ErrorWithin(r.error, lp, |toks|)
  {
    if lp >= |toks| then Ok((acc, lp))
    else if toks[lp].kind == CloseCurly then Ok((acc, lp + 1))
    else if toks[lp].kind == Comma then ImportNames(toks, lp + 1, acc)
    else if toks[lp].kind != Identifier then Err(ParseError(lp, ExpectedImportName))
    else ImportNames(toks, lp + 1, acc + [toks[lp]])
  }

  /** parseImport: `import { names } from "module"`. */
  function ImportAt(toks: seq<Token>, pos: nat): (r: Result<Import>)
    requires pos <= |toks|
    ensures r.Ok? ==> Consumes(toks, pos, r.value.tokens)
    ensures r.Err? ==> ErrorWithin(r.error, pos, |toks|)
  {
    if pos >= |toks| then Err(ParseError(|toks|, OutOfTokens))
    else if toks[pos].kind != KeyImport then Err(ParseError(pos, ExpectedImport))
    else if pos + 1 >= |toks| then Err(ParseError(|toks|, OutOfTokens))
    else if toks[pos + 1].kind != OpenCurly then Err(ParseError(pos + 1, ExpectedImportCurly))
    else
      var names :- ImportNames(toks, pos + 2, []);
      ImportTail(toks, pos, names.0, names.1)
  }

  /** The rest of parseImport after the names, from `lp`: `from` and the
      module name, a String token. */
  function ImportTail(toks: seq<Token>, pos: nat, names: seq<Token>, lp: nat): (r: Result<Import>)
    requires pos < lp <= |toks|
    ensures r.Ok? ==> Consumes(toks, pos, r.value.tokens)
    ensures r.Err? ==> ErrorWithin(r.error, lp, |toks|)
  {
    if lp >= |toks| then Err(ParseError(|toks|, OutOfTokens))
    else if toks[lp].kind != KeyFrom then Err(ParseError(lp, ExpectedFrom))
    else if lp + 1 >= |toks| then Err(ParseError(|toks|, OutOfTokens))
    else if toks[lp + 1].kind != String then Err(ParseError(lp + 1, ExpectedModuleName))
    else Ok(Import(names, StringValue(toks[lp + 1].source), toks[pos..lp + 2]))
  }

  // ---------------------------------------------------------------------------
  // The program.

  /** Records each imported name as a native function of `moduleName`, in
      order, overwriting whatever the record held under that name. */
  function AddNatives(fns: Program, names: seq<Token>, moduleName: string): Program
    decreases |names|
  {
    if names == [] then fns
    else AddNatives(fns[names[0].source := Native(names[0].source, moduleName)], names[1..], moduleName)
  }

  /** The import loop of parse: NewLines are skipped, imports recorded; it
      stops at the end or at the first other token. Returns the record and
      the position where it stopped. */
  function ImportsLoop(toks: seq<Token>, pos: nat, fns: Program): (r: Result<(Program, nat)>)
    requires pos <= |toks|
    decreases |toks| - pos
    ensures r.Ok? ==> pos <= r.value.1 <= |toks|
    ensures r.Err? ==> ErrorWithin(r.error, pos, |toks|)
  {
    if pos >= |toks| then Ok((fns, pos))
    else if toks[pos].kind == NewLine then ImportsLoop(toks, pos + 1, fns)
    else if toks[pos].kind == KeyImport then
      var imp :- ImportAt(toks, pos);
      ImportsLoop(toks, pos + |imp.tokens|, AddNatives(fns, imp.functions, imp.moduleName))
    else Ok((fns, pos))
  }

  /** The function loop of parse: NewLines are skipped; every other item is
      a function definition whose name must not be in the record yet. */
  function FunctionsLoop(toks: seq<Token>, pos: nat, fns: Program): (r: Result<Program>)
    requires pos <= |toks|
    decreases |toks| - pos
    ensures r.Err? ==> ErrorWithin(r.error, pos, |toks|)
  {
    if pos >= |toks| then Ok(fns)
    else if toks[pos].kind == NewLine then FunctionsLoop(toks, pos + 1, fns)
    else
      var f :- FunctionAt(toks, pos);
      if f.name.source in fns then Err(ParseError(pos, RedeclaredFunction(f.name.source)))
      else FunctionsLoop(toks, pos + |f.tokens|, fns[f.name.source := f])
  }

  /** parse: the imports, then the functions. */
  function ParseProgram(toks: seq<Token>): Result<Program> {
    var imports :- ImportsLoop(toks, 0, map[]);
    FunctionsLoop(toks, imports.1, imports.0)
  }

  // ---------------------------------------------------------------------------
  // The loops of the source, each proved to compute its spec function.

  // One turn of each loop, as lemmas the methods below call.

  lemma CallAtArgs(toks: seq<Token>, pos: nat)
    requires pos + 1 < |toks| && toks[pos].kind == Identifier && toks[pos + 1].kind == OpenParen
    ensures var args := ParseArgs(toks, pos + 2, []);
      CallExpressionAt(toks, pos)
      == if args.Ok? then Ok(Call(toks[pos], args.value.0, toks[pos..args.value.1])) else Err(args.error)
  {
  }

  lemma CallAtPrimary(toks: seq<Token>, pos: nat)
    requires pos <= |toks|
    requires pos < |toks| && toks[pos].kind == Identifier ==> pos + 1 < |toks| && toks[pos + 1].kind != OpenParen
    ensures CallExpressionAt(toks, pos) == ParsePrimaryExpression(toks, pos)
  {
  }

  lemma ArgsComma(toks: seq<Token>, lp: nat, acc: seq<Expr>)
    requires lp < |toks| && toks[lp].kind == Comma
    ensures ParseArgs(toks, lp, acc) == ParseArgs(toks, lp + 1, acc)
  {
  }

  lemma ArgsStep(toks: seq<Token>, lp: nat, acc: seq<Expr>, e: Expr)
    requires lp < |toks| && toks[lp].kind != CloseParen && toks[lp].kind != Comma
    requires ParseExpression(toks, lp) == Ok(e)
    ensures ParseArgs(toks, lp, acc) == ParseArgs(toks, lp + |e.tokens|, acc + [e])
  {
  }

  lemma ArgsFail(toks: seq<Token>, lp: nat, acc: seq<Expr>)
    requires lp < |toks| && toks[lp].kind != CloseParen && toks[lp].kind != Comma
    requires ParseExpression(toks, lp).Err?
    ensures ParseArgs(toks, lp, acc) == Err(ParseExpression(toks, lp).error)
  {
  }

  lemma BodyStep(toks: seq<Token>, lp: nat, acc: seq<Statement>, s: Statement)
    requires lp < |toks| && toks[lp].kind != CloseCurly && ParseStatement(toks, lp) == Ok(s)
    ensures var next := lp + |s.tokens|;
      ParseBody(toks, lp, acc)
      == if next >= |toks| then Err(ParseError(|toks|, OutOfTokens))
         else if toks[next].kind == NewLine then ParseBody(toks, next + 1, acc + [s])
         else ParseBody(toks, next, acc + [s])
  {
  }

  /** The body loop resumes after a statement, past one newline if there is
      one. */
  lemma BodyResume(toks: seq<Token>, lp: nat, acc: seq<Statement>, s: Statement, next: nat)
    requires lp < |toks| && toks[lp].kind != CloseCurly && ParseStatement(toks, lp) == Ok(s)
    requires lp + |s.tokens| < |toks|
    requires next == if toks[lp + |s.tokens|].kind == NewLine then lp + |s.tokens| + 1 else lp + |s.tokens|
    ensures next <= |toks| && ParseBody(toks, lp, acc) == ParseBody(toks, next, acc + [s])
  {
    BodyStep(toks, lp, acc, s);
  }

  lemma BodyEnd(toks: seq<Token>, lp: nat, acc: seq<Statement>)
    requires lp <= |toks|
    ensures lp == |toks| ==> ParseBody(toks, lp, acc) == Err(ParseError(|toks|, UnterminatedBody))
    ensures lp < |toks| && toks[lp].kind == CloseCurly ==> ParseBody(toks, lp, acc) == Ok((acc, lp + 1))
  {
  }

  lemma BodyFail(toks: seq<Token>, lp: nat, acc: seq<Statement>)
    requires lp < |toks| && toks[lp].kind != CloseCurly && ParseStatement(toks, lp).Err?
    ensures ParseBody(toks, lp, acc) == Err(ParseStatement(toks, lp).error)
  {
  }

  lemma ImportsSkip(toks: seq<Token>, pos: nat, fns: Program)
    requires pos < |toks| && toks[pos].kind == NewLine
    ensures ImportsLoop(toks, pos, fns) == ImportsLoop(toks, pos + 1, fns)
  {
  }

  lemma ImportsStep(toks: seq<Token>, pos: nat, fns: Program, imp: Import)
    requires pos < |toks| && toks[pos].kind == KeyImport && ImportAt(toks, pos) == Ok(imp)
    ensures ImportsLoop(toks, pos, fns) == ImportsLoop(toks, pos + |imp.tokens|, AddNatives(fns, imp.functions, imp.moduleName))
  {
    var next := AddNatives(fns, imp.functions, imp.moduleName);
    calc {
      ImportsLoop(toks, pos, fns);
      { assert toks[pos].kind != NewLine; }
      ImportsLoop(toks, pos + |imp.tokens|, next);
    }
  }

  lemma ImportsFail(toks: seq<Token>, pos: nat, fns: Program)
    requires pos < |toks| && toks[pos].kind == KeyImport && ImportAt(toks, pos).Err?
    ensures ImportsLoop(toks, pos, fns) == Err(ImportAt(toks, pos).error)
  {
  }

  lemma FunctionsStep(toks: seq<Token>, pos: nat, fns: Program)
    requires pos < |toks| && toks[pos].kind != NewLine
    ensures var f := FunctionAt(toks, pos);
      FunctionsLoop(toks, pos, fns)
      == if f.Err? then Err(f.error)
         else if f.value.name.source in fns then Err(ParseError(pos, RedeclaredFunction(f.value.name.source)))
         else FunctionsLoop(toks, pos + |f.value.tokens|, fns[f.value.name.source := f.value])
  {
  }

  /** The argument loop of parseCallExpression, from just after `(`. */
  method ParseArgumentList(toks: seq<Token>, start: nat) returns (r: Result<(seq<Expr>, nat)>)
    requires start <= |toks|
    ensures r == ParseArgs(toks, start, [])
  {
    var lp := start;
    var params: seq<Expr> := [];
    while true
      invariant start <= lp <= |toks|
      invariant ParseArgs(toks, lp, params) == ParseArgs(toks, start, [])
      decreases |toks| - lp
    {
      if lp >= |toks| {
        return Err(ParseError(|toks|, OutOfTokens));
      }
      if toks[lp].kind == CloseParen {
        return Ok((params, lp + 1));
      }
      if toks[lp].kind == Comma {
        ArgsComma(toks, lp, params);
        lp := lp + 1;
        continue;
      }
      var expr := ParseExpression(toks, lp);
      if expr.Err? {
        ArgsFail(toks, lp, params);
        return Err(expr.error);
      }
      ArgsStep(toks, lp, params, expr.value);
      params := params + [expr.value];
      lp := lp + |expr.value.tokens|;
    }
  }

  /** parseCallExpression: a call when an identifier is followed by `(`,
      a primary expression otherwise. */
  method ParseCallExpression(toks: seq<Token>, pos: nat) returns (r: Result<Expr>)
    requires pos <= |toks|
    ensures r == CallExpressionAt(toks, pos)
  {
    if pos < |toks| && toks[pos].kind == Identifier {
      if pos + 1 >= |toks| {
        return Err(ParseError(|toks|, OutOfTokens));
      }
      if toks[pos + 1].kind == OpenParen {
        CallAtArgs(toks, pos);
        var args := ParseArgumentList(toks, pos + 2);
        if args.Err? {
          return Err(args.error);
        }
        return Ok(Call(toks[pos], args.value.0, toks[pos..args.value.1]));
      }
    }
    CallAtPrimary(toks, pos);
    r := ParsePrimaryExpression(toks, pos);
  }

  /** The parameter loop of parseFunction, from just after `(`. */
  method ParseParameterList(toks: seq<Token>, start: nat) returns (r: Result<(seq<Token>, nat)>)
    requires start <= |toks|
    ensures r == ParseParams(toks, start, [])
  {
    var lp := start;
    var args: seq<Token> := [];
    while true
      invariant start <= lp <= |toks|
      invariant ParseParams(toks, lp, args) == ParseParams(toks, start, [])
      decreases |toks| - lp
    {
      if lp >= |toks| {
        return Err(ParseError(|toks|, OutOfTokens));
      }
      if toks[lp].kind == CloseParen {
        return Ok((args, lp + 1));
      }
      if toks[lp].kind == Identifier {
        args := args + [toks[lp]];
        lp := lp + 1;
        continue;
      }
      if toks[lp].kind == Comma {
        lp := lp + 1;
        continue;
      }
      return Err(ParseError(lp, UnexpectedParameter));
    }
  }

  /** The body loop of parseFunction, from just after `{` and its NewLine. */
  method ParseFunctionBody(toks: seq<Token>, start: nat) returns (r: Result<(seq<Statement>, nat)>)
    requires start <= |toks|
    ensures r == ParseBody(toks, start, [])
  {
    var lp := start;
    var statements: seq<Statement> := [];
    while true
      invariant start <= lp <= |toks|
      invariant ParseBody(toks, lp, statements) == ParseBody(toks, start, [])
      decreases |toks| - lp
    {
      BodyEnd(toks, lp, statements);
      if lp >= |toks| {
        return Err(ParseError(|toks|, UnterminatedBody));
      }
      if toks[lp].kind == CloseCurly {
        return Ok((statements, lp + 1));
      }
      var stmt := ParseStatement(toks, lp);
      if stmt.Err? {
        BodyFail(toks, lp, statements);
        return Err(stmt.error);
      }
      ghost var at, done := lp, statements;
      statements := statements + [stmt.value];
      lp := lp + |stmt.value.tokens|;
      if lp >= |toks| {
        BodyStep(toks, at, done, stmt.value);
        return Err(ParseError(|toks|, OutOfTokens));
      }
      if toks[lp].kind == NewLine {
        lp := lp + 1;
      }
      BodyResume(toks, at, done, stmt.value, lp);
    }
  }

  /** parseFunction: the header, the parameter loop, the body loop. */
  method ParseFunction(toks: seq<Token>, pos: nat) returns (r: Result<FunctionDef>)
    requires pos <= |toks|
    ensures r == FunctionAt(toks, pos)
  {
    if pos >= |toks| {
      return Err(ParseError(|toks|, OutOfTokens));
    }
    if toks[pos].kind != KeyFunc {
      return Err(ParseError(pos, ExpectedFunc));
    }
    if pos + 2 >= |toks| {
      return Err(ParseError(|toks|, OutOfTokens));
    }
    var name := toks[pos + 1];
    if toks[pos + 2].kind != OpenParen {
      return Err(ParseError(pos + 2, ExpectedOpenParen));
    }
    var params := ParseParameterList(toks, pos + 3);
    if params.Err? {
      return Err(params.error);
    }
    var lp := params.value.1;
    if lp >= |toks| {
      return Err(ParseError(|toks|, OutOfTokens));
    }
    if toks[lp].kind != OpenCurly {
      return Err(ParseError(lp, ExpectedBodyCurly));
    }
    if lp + 1 >= |toks| {
      return Err(ParseError(|toks|, OutOfTokens));
    }
    if toks[lp + 1].kind != NewLine {
      return Err(ParseError(lp + 1, ExpectedNewLine));
    }
    var body := ParseFunctionBody(toks, lp + 2);
    if body.Err? {
      return Err(body.error);
    }
    return Ok(Script(name, params.value.0, body.value.0, toks[pos..body.value.1]));
  }

  /** The name loop of parseImport, from just after `{`. */
  method ParseImportNames(toks: seq<Token>, start: nat) returns (r: Result<(seq<Token>, nat)>)
    requires start <= |toks|
    ensures r == ImportNames(toks, start, [])
  {
    var lp := start;
    var functions: seq<Token> := [];
    while true
      invariant start <= lp <= |toks|
      invariant ImportNames(toks, lp, functions) == ImportNames(toks, start, [])
      decreases |toks| - lp
    {
      if lp >= |toks| {
        break;
      }
      if toks[lp].kind == CloseCurly {
        lp := lp + 1;
        break;
      }
      if toks[lp].kind == Comma {
        lp := lp + 1;
        continue;
      }
      if toks[lp].kind != Identifier {
        return Err(ParseError(lp, ExpectedImportName));
      }
      functions := functions + [toks[lp]];
      lp := lp + 1;
    }
    return Ok((functions, lp));
  }

  /** parseImport: the header, the name loop, `from` and the module name. */
  method ParseImport(toks: seq<Token>, pos: nat) returns (r: Result<Import>)
    requires pos <= |toks|
    ensures r == ImportAt(toks, pos)
  {
    if pos >= |toks| {
      return Err(ParseError(|toks|, OutOfTokens));
    }
    if toks[pos].kind != KeyImport {
      return Err(ParseError(pos, ExpectedImport));
    }
    if pos + 1 >= |toks| {
      return Err(ParseError(|toks|, OutOfTokens));
    }
    if toks[pos + 1].kind != OpenCurly {
      return Err(ParseError(pos + 1, ExpectedImportCurly));
    }
    var names := ParseImportNames(toks, pos + 2);
    if names.Err? {
      return Err(names.error);
    }
    r := ParseImportTail(toks, pos, names.value.0, names.value.1);
  }

  /** The end of parseImport: `from` and the module name. */
  method ParseImportTail(toks: seq<Token>, pos: nat, functions: seq<Token>, start: nat) returns (r: Result<Import>)
    requires pos < start <= |toks|
    ensures r == ImportTail(toks, pos, functions, start)
  {
    var lp := start;
    if lp >= |toks| {
      return Err(ParseError(|toks|, OutOfTokens));
    }
    if toks[lp].kind != KeyFrom {
      return Err(ParseError(lp, ExpectedFrom));
    }
    lp := lp + 1;
    if lp >= |toks| {
      return Err(ParseError(|toks|, OutOfTokens));
    }
    if toks[lp].kind != String {
      return Err(ParseError(lp, ExpectedModuleName));
    }
    var moduleName := StringValue(toks[lp].source);
    lp := lp + 1;
    return Ok(Import(functions, moduleName, toks[pos..lp]));
  }

  /** The inner loop of parse's import loop: each imported name is recorded
      as a native function of the module, overwriting any earlier entry. */
  method RecordNatives(functions: Program, names: seq<Token>, moduleName: string) returns (m: Program)
    ensures m == AddNatives(functions, names, moduleName)
  {
    m := functions;
    for i := 0 to |names|
      invariant AddNatives(m, names[i..], moduleName) == AddNatives(functions, names, moduleName)
    {
      assert names[i..][1..] == names[i + 1..];
      m := m[names[i].source := Native(names[i].source, moduleName)];
    }
    assert names[|names|..] == [];
  }

  /** The import loop of parse, from the start of the tokens. */
  method ParseImports(toks: seq<Token>) returns (r: Result<(Program, nat)>)
    ensures r == ImportsLoop(toks, 0, map[])
  {
    var functions: Program := map[];
    var position := 0;
    ghost var outcome := ImportsLoop(toks, position, functions);
    while true
      invariant position <= |toks|
      invariant ImportsLoop(toks, position, functions) == outcome
      decreases |toks| - position
    {
      if position >= |toks| {
        return Ok((functions, position));
      }
      if toks[position].kind == NewLine {
        ImportsSkip(toks, position, functions);
        position := position + 1;
        continue;
      }
      if toks[position].kind != KeyImport {
        return Ok((functions, position));
      }
      var imp := ParseImport(toks, position);
      if imp.Err? {
        ImportsFail(toks, position, functions);
        return Err(imp.error);
      }
      ImportsStep(toks, position, functions, imp.value);
      functions := RecordNatives(functions, imp.value.functions, imp.value.moduleName);
      position := position + |imp.value.tokens|;
    }
  }

  /** The function loop of parse, from where the imports stopped. */
  method ParseFunctions(toks: seq<Token>, start: nat, imported: Program) returns (r: Result<Program>)
    requires start <= |toks|
    ensures r == FunctionsLoop(toks, start, imported)
  {
    var functions := imported;
    var position := start;
    while true
      invariant start <= position <= |toks|
      invariant FunctionsLoop(toks, position, functions) == FunctionsLoop(toks, start, imported)
      decreases |toks| - position
    {
      if position >= |toks| {
        return Ok(functions);
      }
      if toks[position].kind == NewLine {
        position := position + 1;
        continue;
      }
      FunctionsStep(toks, position, functions);
      var func := ParseFunction(toks, position);
      if func.Err? {
        return Err(func.error);
      }
      if func.value.name.source in functions {
        return Err(ParseError(position, RedeclaredFunction(func.value.name.source)));
      }
      functions := functions[func.value.name.source := func.value];
      position := position + |func.value.tokens|;
    }
  }

  /** parse: the import loop, then the function loop, over one cursor and
      one functions record. */
  method Parse(toks: seq<Token>) returns (r: Result<Program>)
    ensures r == ParseProgram(toks)
  {
    var imports := ParseImports(toks);
    if imports.Err? {
      return Err(imports.error);
    }
    r := ParseFunctions(toks, imports.value.1, imports.value.0);
  }
}
