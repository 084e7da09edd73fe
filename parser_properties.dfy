/**
 * Properties of the yal parser, stated over its spec functions (which the
 * parsing methods are proved to compute).
 */
module ParserProperties {
  import opened Results
  import opened Scanner
  import opened Parser
  import ScannerProperties

  // ---------------------------------------------------------------------------
  // Every node's tokens are the contiguous slice it consumed, and every
  // expression starts with a token a primary expression accepts.

  /** The token kinds parsePrimaryExpression turns into a literal. */
  predicate PrimaryKind(k: TokenKind) {
    k == Number || k == Bool || k == Identifier || k == String
  }

  /** A parsed expression: a slice of `toks` at `pos` that starts with a
      literal token. */
  predicate ExpressionAt(toks: seq<Token>, pos: nat, e: Expr) {
    Spans(toks, pos, e.tokens) && PrimaryKind(toks[pos].kind)
  }

  lemma CallExpressionShape(toks: seq<Token>, pos: nat)
    requires pos <= |toks|
    ensures var r := CallExpressionAt(toks, pos); r.Ok? ==> ExpressionAt(toks, pos, r.value)
  {
  }

  lemma FactorExpressionShape(toks: seq<Token>, pos: nat)
    requires pos <= |toks|
    ensures var r := ParseFactorExpression(toks, pos); r.Ok? ==> ExpressionAt(toks, pos, r.value)
  {
    CallExpressionShape(toks, pos);
  }

  lemma TermExpressionShape(toks: seq<Token>, pos: nat)
    requires pos <= |toks|
    ensures var r := ParseTermExpression(toks, pos); r.Ok? ==> ExpressionAt(toks, pos, r.value)
  {
    FactorExpressionShape(toks, pos);
  }

  lemma ExpressionShape(toks: seq<Token>, pos: nat)
    requires pos <= |toks|
    ensures var r := ParseExpression(toks, pos); r.Ok? ==> ExpressionAt(toks, pos, r.value)
  {
    TermExpressionShape(toks, pos);
  }

  /** A statement's tokens are the slice at its start. */
  lemma StatementSpans(toks: seq<Token>, pos: nat)
    requires pos <= |toks|
    ensures var r := ParseStatement(toks, pos); r.Ok? ==> Spans(toks, pos, r.value.tokens)
  {
    ExpressionShape(toks, pos);
  }

  /** The parameter loop stops only just after a `)`. */
  lemma {:induction false} ParamsEndAtCloseParen(toks: seq<Token>, lp: nat, acc: seq<Token>, args: seq<Token>, p: nat)
    requires lp <= |toks| && ParseParams(toks, lp, acc) == Ok((args, p))
    decreases |toks| - lp
    ensures 0 < p && toks[p - 1].kind == CloseParen
  {
    if toks[lp].kind == Identifier {
      ParamsEndAtCloseParen(toks, lp + 1, acc + [toks[lp]], args, p);
    } else if toks[lp].kind == Comma {
      ParamsEndAtCloseParen(toks, lp + 1, acc, args, p);
    }
  }

  /** The argument loop stops only just after a `)`. */
  lemma {:induction false} ArgsEndAtCloseParen(toks: seq<Token>, lp: nat, acc: seq<Expr>, args: seq<Expr>, p: nat)
    requires lp <= |toks| && ParseArgs(toks, lp, acc) == Ok((args, p))
    decreases |toks| - lp
    ensures 0 < p && toks[p - 1].kind == CloseParen
  {
    if toks[lp].kind == Comma {
      ArgsEndAtCloseParen(toks, lp + 1, acc, args, p);
    } else if toks[lp].kind != CloseParen {
      var e := ParseExpression(toks, lp).value;
      ArgsEndAtCloseParen(toks, lp + |e.tokens|, acc + [e], args, p);
    }
  }

  /** The body loop stops only just after a `}`. */
  lemma {:induction false} BodyEndsAtCloseCurly(toks: seq<Token>, lp: nat, acc: seq<Statement>, out: seq<Statement>, e: nat)
    requires lp <= |toks| && ParseBody(toks, lp, acc) == Ok((out, e))
    decreases |toks| - lp
    ensures 0 < e && toks[e - 1].kind == CloseCurly
  {
    if toks[lp].kind != CloseCurly {
      var s := ParseStatement(toks, lp).value;
      BodyStep(toks, lp, acc, s);
      var next := lp + |s.tokens|;
      if toks[next].kind == NewLine {
        BodyEndsAtCloseCurly(toks, next + 1, acc + [s], out, e);
      } else {
        BodyEndsAtCloseCurly(toks, next, acc + [s], out, e);
      }
    }
  }

  /** An import's tail is `from` and a String token, which ends the import;
      the names are those the name loop read. */
  lemma ImportTailShape(toks: seq<Token>, pos: nat, names: seq<Token>, lp: nat, imp: Import)
    requires pos < lp <= |toks| && ImportTail(toks, pos, names, lp) == Ok(imp)
    ensures lp + 1 < |toks| && toks[lp].kind == KeyFrom && toks[lp + 1].kind == String
    ensures imp.tokens == toks[pos..lp + 2]
    ensures imp.functions == names && imp.moduleName == StringValue(toks[lp + 1].source)
  {
  }

  /** A function's tokens are the slice at its start (FunctionHeader and
      FunctionShape give its first and last tokens, `func` and `}`). */
  lemma FunctionSpans(toks: seq<Token>, pos: nat)
    requires pos <= |toks|
    ensures var r := FunctionAt(toks, pos); r.Ok? ==> Spans(toks, pos, r.value.tokens)
  {
  }

  /** The head of a parsed function: `func`, the name token, `(`, then the
      parameter loop, which succeeds and gives the parameters. */
  lemma FunctionHeader(toks: seq<Token>, pos: nat, f: FunctionDef)
    requires pos <= |toks| && FunctionAt(toks, pos) == Ok(f)
    ensures pos + 2 < |toks| && toks[pos].kind == KeyFunc && toks[pos + 2].kind == OpenParen
    ensures f.Script? && f.name == toks[pos + 1]
    ensures ParseParams(toks, pos + 3, []).Ok? && f.args == ParseParams(toks, pos + 3, []).value.0
  {
  }

  /** The rest of a parsed function, after the parameter loop stopped at
      `p`: the `)` before `p`, then `{` and a newline; its tokens end with
      the `}` that closes the body. */
  lemma FunctionShape(toks: seq<Token>, pos: nat, f: FunctionDef, args: seq<Token>, p: nat)
    requires pos + 3 <= |toks| && FunctionAt(toks, pos) == Ok(f)
    requires ParseParams(toks, pos + 3, []) == Ok((args, p))
    ensures p + 1 < |toks| && toks[p - 1].kind == CloseParen
    ensures toks[p].kind == OpenCurly && toks[p + 1].kind == NewLine
    ensures 0 < |f.tokens| && pos + |f.tokens| <= |toks| && toks[pos + |f.tokens| - 1].kind == CloseCurly
  {
    FunctionOpensBody(toks, pos, f, args, p);
    ParamsEndAtCloseParen(toks, pos + 3, [], args, p);
    var stmts, e := FunctionBody(toks, pos, f, args, p);
    BodyEndsAtCloseCurly(toks, p + 2, [], stmts, e);
  }

  /** A parsed function has `{` and a newline where its parameters end. */
  lemma FunctionOpensBody(toks: seq<Token>, pos: nat, f: FunctionDef, args: seq<Token>, p: nat)
    requires pos + 3 <= |toks| && FunctionAt(toks, pos) == Ok(f)
    requires ParseParams(toks, pos + 3, []) == Ok((args, p))
    ensures p + 1 < |toks| && toks[p].kind == OpenCurly && toks[p + 1].kind == NewLine
  {
  }

  /** A parsed function's body loop succeeds, and the function's tokens run
      up to where that loop stops. */
  lemma FunctionBody(toks: seq<Token>, pos: nat, f: FunctionDef, args: seq<Token>, p: nat) returns (stmts: seq<Statement>, e: nat)
    requires pos + 3 <= |toks| && FunctionAt(toks, pos) == Ok(f)
    requires ParseParams(toks, pos + 3, []) == Ok((args, p))
    ensures p + 2 <= |toks| && ParseBody(toks, p + 2, []) == Ok((stmts, e))
    ensures f.statements == stmts && f.tokens == toks[pos..e] && pos + |f.tokens| == e
  {
    FunctionOpensBody(toks, pos, f, args, p);
    FunctionAtBody(toks, pos, args, p);
    stmts, e := ParseBody(toks, p + 2, []).value.0, ParseBody(toks, p + 2, []).value.1;
  }

  /** parseFunction once its head, its parameters, `{` and the newline are
      read: the body loop's result. */
  lemma FunctionAtBody(toks: seq<Token>, pos: nat, args: seq<Token>, p: nat)
    requires pos + 2 < |toks| && toks[pos].kind == KeyFunc && toks[pos + 2].kind == OpenParen
    requires ParseParams(toks, pos + 3, []) == Ok((args, p))
    requires p + 1 < |toks| && toks[p].kind == OpenCurly && toks[p + 1].kind == NewLine
    ensures var b := ParseBody(toks, p + 2, []);
      FunctionAt(toks, pos) == if b.Ok? then Ok(Script(toks[pos + 1], args, b.value.0, toks[pos..b.value.1])) else Err(b.error)
  {
    assert FunctionAt(toks, pos) == FunctionRest(toks, pos, args, p);
  }

  /** After the parameters, a missing `{`, a missing newline after it, or a
      body that fails (running out of tokens before `}` included) fails the
      function, each at its own position. */
  lemma FunctionBodyErrors(toks: seq<Token>, pos: nat)
    requires pos + 2 < |toks| && toks[pos].kind == KeyFunc && toks[pos + 2].kind == OpenParen
    requires ParseParams(toks, pos + 3, []).Ok?
    ensures var p := ParseParams(toks, pos + 3, []).value.1;
      && (p >= |toks| ==> FunctionAt(toks, pos) == Err(ParseError(|toks|, OutOfTokens)))
      && (p < |toks| && toks[p].kind != OpenCurly ==> FunctionAt(toks, pos) == Err(ParseError(p, ExpectedBodyCurly)))
      && (p < |toks| && toks[p].kind == OpenCurly && p + 1 >= |toks|
          ==> FunctionAt(toks, pos) == Err(ParseError(|toks|, OutOfTokens)))
      && (p + 1 < |toks| && toks[p].kind == OpenCurly && toks[p + 1].kind != NewLine
          ==> FunctionAt(toks, pos) == Err(ParseError(p + 1, ExpectedNewLine)))
      && (p + 1 < |toks| && toks[p].kind == OpenCurly && toks[p + 1].kind == NewLine && ParseBody(toks, p + 2, []).Err?
          ==> FunctionAt(toks, pos) == Err(ParseBody(toks, p + 2, []).error))
  {
    var params := ParseParams(toks, pos + 3, []).value;
    assert FunctionAt(toks, pos) == FunctionRest(toks, pos, params.0, params.1);
  }

  lemma ImportSpans(toks: seq<Token>, pos: nat)
    requires pos <= |toks|
    ensures var r := ImportAt(toks, pos); r.Ok? ==> Spans(toks, pos, r.value.tokens)
  {
  }

  // ---------------------------------------------------------------------------
  // Declarations consume only `name :=`, so their initializer is parsed
  // again as the next statement of the body.

  lemma DeclarationTokens(toks: seq<Token>, pos: nat)
    requires pos <= |toks|
    ensures var r := ParseStatement(toks, pos);
      r.Ok? && r.value.DeclarationStmt? ==>
        && r.value.tokens == [toks[pos], toks[pos + 1]]
        && r.value.varName == toks[pos]
        && toks[pos].kind == Identifier && toks[pos + 1].kind == Declaration
        && ParseExpression(toks, pos + 2) == Ok(r.value.expression)
  {
  }

  /** After a declaration at `lp`, the body loop resumes at `lp + 2` — on
      the initializer — and, unless the initializer itself begins another
      declaration, reads it again as an expression statement. */
  lemma DeclarationInitializerReparsed(toks: seq<Token>, lp: nat, acc: seq<Statement>, s: Statement)
    requires lp < |toks| && ParseStatement(toks, lp) == Ok(s) && s.DeclarationStmt?
    requires !(lp + 3 < |toks| && toks[lp + 2].kind == Identifier && toks[lp + 3].kind == Declaration)
    ensures lp + 2 < |toks|
    ensures ParseBody(toks, lp, acc) == ParseBody(toks, lp + 2, acc + [s])
    ensures ParseStatement(toks, lp + 2) == Ok(ExpressionStmt(s.expression, s.expression.tokens))
  {
    DeclarationTokens(toks, lp);
    ExpressionShape(toks, lp + 2);
    BodyStep(toks, lp, acc, s);
  }

  // ---------------------------------------------------------------------------
  // Binary operators: the left operand comes from the next level down, the
  // right operand is a whole expression, so chains nest to the right.

  lemma EqualityOperands(toks: seq<Token>, pos: nat, e: Expr)
    requires pos <= |toks| && ParseEqualityExpression(toks, pos) == Ok(e) && e.Equality?
    ensures var lp := pos + |e.lhs.tokens|;
      && lp < |toks| && e.op == toks[lp] && (toks[lp].kind == Equal || toks[lp].kind == NotEqual)
      && ParseTermExpression(toks, pos) == Ok(e.lhs)
      && ParseExpression(toks, lp + 1) == Ok(e.rhs)
  {
    var lhs := ParseTermExpression(toks, pos);
    assert lhs.Ok? && !lhs.value.Equality?;
  }

  lemma TermOperands(toks: seq<Token>, pos: nat, e: Expr)
    requires pos <= |toks| && ParseTermExpression(toks, pos) == Ok(e) && e.Term?
    ensures var lp := pos + |e.lhs.tokens|;
      && lp < |toks| && e.op == toks[lp] && (toks[lp].kind == Plus || toks[lp].kind == Minus)
      && ParseFactorExpression(toks, pos) == Ok(e.lhs)
      && ParseExpression(toks, lp + 1) == Ok(e.rhs)
  {
    var lhs := ParseFactorExpression(toks, pos);
    assert lhs.Ok? && !lhs.value.Term?;
    var lp := pos + |lhs.value.tokens|;
    assert lp < |toks| && (toks[lp].kind == Plus || toks[lp].kind == Minus);
    var rhs := ParseExpression(toks, lp + 1);
    assert rhs.Ok? && e == Term(lhs.value, toks[lp], rhs.value, toks[pos..lp + 1 + |rhs.value.tokens|]);
  }

  lemma FactorOperands(toks: seq<Token>, pos: nat, e: Expr)
    requires pos <= |toks| && ParseFactorExpression(toks, pos) == Ok(e) && e.Factor?
    ensures var lp := pos + |e.lhs.tokens|;
      && lp < |toks| && e.op == toks[lp] && (toks[lp].kind == Star || toks[lp].kind == Slash)
      && CallExpressionAt(toks, pos) == Ok(e.lhs)
      && ParseExpression(toks, lp + 1) == Ok(e.rhs)
  {
    var lhs := CallExpressionAt(toks, pos);
    assert lhs.Ok? && !lhs.value.Factor?;
  }

  /** The literal node parsePrimaryExpression makes of a number token. */
  function NumberNode(t: Token): Expr {
    Primary(Literal(NumberLit, NumberValue(t.source), [t]), [t])
  }

  /** The literal node parsePrimaryExpression makes of an identifier token. */
  function NameNode(t: Token): Expr {
    Primary(Literal(IdentifierLit, Null, [t]), [t])
  }

  /** The node of a number or identifier literal. */
  function LeafNode(t: Token): Expr {
    if t.kind == Number then NumberNode(t) else NameNode(t)
  }

  /** Tokens that end an operand without continuing the expression. */
  predicate Closes(k: TokenKind) {
    k == Comma || k == CloseParen || k == NewLine
  }

  /** A lone number or identifier, followed by `,`, `)` or a newline, is a
      whole expression. */
  lemma Leaf(toks: seq<Token>, i: nat)
    requires i + 1 < |toks| && (toks[i].kind == Number || toks[i].kind == Identifier) && Closes(toks[i + 1].kind)
    ensures ParseExpression(toks, i) == Ok(LeafNode(toks[i]))
  {
    var leaf := LeafNode(toks[i]);
    assert toks[i + 1].kind != OpenParen;
    assert CallExpressionAt(toks, i) == ParsePrimaryExpression(toks, i);
    assert CallExpressionAt(toks, i) == Ok(leaf);
    assert ParseFactorExpression(toks, i) == Ok(leaf);
    assert ParseTermExpression(toks, i) == Ok(leaf);
  }

  /** `y - z` before a newline, at any position. */
  lemma Difference(toks: seq<Token>, i: nat)
    requires i + 3 < |toks|
    requires toks[i].kind == Number && toks[i + 1].kind == Minus && toks[i + 2].kind == Number && toks[i + 3].kind == NewLine
    ensures ParseExpression(toks, i) == Ok(Term(NumberNode(toks[i]), toks[i + 1], NumberNode(toks[i + 2]), toks[i..i + 3]))
  {
    var z := NumberNode(toks[i + 2]);
    assert CallExpressionAt(toks, i + 2) == Ok(z);
    assert ParseFactorExpression(toks, i + 2) == Ok(z);
    assert ParseTermExpression(toks, i + 2) == Ok(z);
    assert ParseExpression(toks, i + 2) == Ok(z);
    assert CallExpressionAt(toks, i) == Ok(NumberNode(toks[i]));
    assert ParseFactorExpression(toks, i) == Ok(NumberNode(toks[i]));
    assert ParseTermExpression(toks, i) == Ok(Term(NumberNode(toks[i]), toks[i + 1], z, toks[i..i + 3]));
  }

  /** `x - y - z` (three number tokens, then a newline) parses as
      `x - (y - z)`. */
  lemma SubtractionNestsRight(toks: seq<Token>)
    requires |toks| == 6
    requires toks[0].kind == Number && toks[1].kind == Minus && toks[2].kind == Number
    requires toks[3].kind == Minus && toks[4].kind == Number && toks[5].kind == NewLine
    ensures ParseExpression(toks, 0)
      == Ok(Term(NumberNode(toks[0]), toks[1],
                 Term(NumberNode(toks[2]), toks[3], NumberNode(toks[4]), toks[2..5]),
                 toks[0..5]))
  {
    Difference(toks, 2);
    var inner := Term(NumberNode(toks[2]), toks[3], NumberNode(toks[4]), toks[2..5]);
    assert |inner.tokens| == 3;
    assert CallExpressionAt(toks, 0) == Ok(NumberNode(toks[0]));
    assert ParseFactorExpression(toks, 0) == Ok(NumberNode(toks[0]));
    var whole := Term(NumberNode(toks[0]), toks[1], inner, toks[0..5]);
    assert ParseTermExpression(toks, 0) == Ok(whole);
    assert ParseEqualityExpression(toks, 0) == Ok(whole);
  }

  /** `b + c` before a newline, at any position. */
  lemma Sum(toks: seq<Token>, i: nat)
    requires i + 3 < |toks|
    requires toks[i].kind == Identifier && toks[i + 1].kind == Plus && toks[i + 2].kind == Identifier && toks[i + 3].kind == NewLine
    ensures ParseExpression(toks, i) == Ok(Term(NameNode(toks[i]), toks[i + 1], NameNode(toks[i + 2]), toks[i..i + 3]))
  {
    var c := NameNode(toks[i + 2]);
    assert CallExpressionAt(toks, i + 2) == Ok(c);
    assert ParseFactorExpression(toks, i + 2) == Ok(c);
    assert ParseTermExpression(toks, i + 2) == Ok(c);
    assert ParseExpression(toks, i + 2) == Ok(c);
    assert CallExpressionAt(toks, i) == Ok(NameNode(toks[i]));
    assert ParseFactorExpression(toks, i) == Ok(NameNode(toks[i]));
    assert ParseTermExpression(toks, i) == Ok(Term(NameNode(toks[i]), toks[i + 1], c, toks[i..i + 3]));
  }

  /** `a * b + c` (three identifiers, then a newline) parses as
      `a * (b + c)`: the `*` captures the sum. */
  lemma ProductCapturesSum(toks: seq<Token>)
    requires |toks| == 6
    requires toks[0].kind == Identifier && toks[1].kind == Star && toks[2].kind == Identifier
    requires toks[3].kind == Plus && toks[4].kind == Identifier && toks[5].kind == NewLine
    ensures ParseExpression(toks, 0)
      == Ok(Factor(NameNode(toks[0]), toks[1],
                   Term(NameNode(toks[2]), toks[3], NameNode(toks[4]), toks[2..5]),
                   toks[0..5]))
  {
    Sum(toks, 2);
    var sum := Term(NameNode(toks[2]), toks[3], NameNode(toks[4]), toks[2..5]);
    assert |sum.tokens| == 3;
    assert CallExpressionAt(toks, 0) == Ok(NameNode(toks[0]));
    var product := Factor(NameNode(toks[0]), toks[1], sum, toks[0..5]);
    assert ParseFactorExpression(toks, 0) == Ok(product);
    assert ParseTermExpression(toks, 0) == Ok(product);
    assert ParseEqualityExpression(toks, 0) == Ok(product);
  }

  // ---------------------------------------------------------------------------
  // Calls and primary expressions.

  /** A call is recognised exactly when an identifier is immediately
      followed by `(`; its arguments are what the argument loop collects. */
  lemma CallRecognised(toks: seq<Token>, pos: nat)
    requires pos <= |toks|
    ensures var r := CallExpressionAt(toks, pos);
      r.Ok? ==>
        && pos + 1 <= |toks|
        && (r.value.Call? <==> pos + 1 < |toks| && toks[pos].kind == Identifier && toks[pos + 1].kind == OpenParen)
        && (r.value.Call? ==> r.value.funcName == toks[pos]
                              && ParseArgs(toks, pos + 2, []) == Ok((r.value.params, pos + |r.value.tokens|)))
  {
  }

  /** A call's tokens run from its name to the `)` that closes its
      arguments. */
  lemma CallEndsAtCloseParen(toks: seq<Token>, pos: nat, e: Expr)
    requires pos <= |toks| && CallExpressionAt(toks, pos) == Ok(e) && e.Call?
    ensures e.tokens[0] == toks[pos] && toks[pos + 1].kind == OpenParen
    ensures toks[pos + |e.tokens| - 1].kind == CloseParen
  {
    CallRecognised(toks, pos);
    ArgsEndAtCloseParen(toks, pos + 2, [], e.params, pos + |e.tokens|);
  }

  /** `f(x, 7)`: the arguments in order, the comma skipped. */
  lemma CallWithTwoArguments(toks: seq<Token>)
    requires |toks| == 7
    requires toks[0].kind == Identifier && toks[1].kind == OpenParen && toks[2].kind == Identifier
    requires toks[3].kind == Comma && toks[4].kind == Number && toks[5].kind == CloseParen
    requires toks[6].kind == NewLine
    ensures CallExpressionAt(toks, 0) == Ok(Call(toks[0], [NameNode(toks[2]), NumberNode(toks[4])], toks[0..6]))
  {
    var x := NameNode(toks[2]);
    var seven := NumberNode(toks[4]);
    Leaf(toks, 2);
    Leaf(toks, 4);
    ArgsStep(toks, 2, [], x);
    assert [] + [x] == [x];
    ArgsComma(toks, 3, [x]);
    ArgsStep(toks, 4, [x], seven);
    assert [x] + [seven] == [x, seven];
    assert ParseArgs(toks, 5, [x, seven]) == Ok(([x, seven], 6));
    CallAtArgs(toks, 0);
  }

  /** What each token kind becomes as a primary expression. */
  lemma PrimaryLiteral(toks: seq<Token>, pos: nat)
    requires pos < |toks|
    ensures var r := ParsePrimaryExpression(toks, pos); var t := toks[pos];
      && (r.Ok? <==> PrimaryKind(t.kind))
      && (r.Err? ==> r.error == ParseError(pos, UnexpectedPrimary))
      && (r.Ok? ==> r.value.value.tokens == [t])
      && (t.kind == Number && 0 < |t.source| && AllIn(t.source, Digit) ==>
            r.value.value.kind == NumberLit && r.value.value.value == Num(DigitsValue(t.source)))
      && (t.kind == Bool ==> r.value.value.kind == BoolLit && (r.value.value.value == Flag(true) <==> t.source == "true"))
      && (t.kind == String && |t.source| >= 2 ==>
            r.value.value.kind == StringLit && r.value.value.value == Str(t.source[1..|t.source| - 1]))
      && (t.kind == Identifier ==> r.value.value.kind == IdentifierLit)
  {
  }

  /** Every number literal the scanner produces has its exact decimal value. */
  lemma ScannedNumbersAreExact(s: string)
    requires ScanAll(s).Ok?
    ensures var toks := ScanAll(s).value;
      forall i | 0 <= i < |toks| && toks[i].kind == Number ::
        && AllIn(toks[i].source, Digit)
        && ParsePrimaryExpression(toks, i) == Ok(Primary(Literal(NumberLit, Num(DigitsValue(toks[i].source)), [toks[i]]), [toks[i]]))
  {
    var toks := ScanAll(s).value;
    ScannerProperties.ScanTokenShapes(s);
    forall i | 0 <= i < |toks| && toks[i].kind == Number
      ensures AllIn(toks[i].source, Digit)
      ensures ParsePrimaryExpression(toks, i) == Ok(Primary(Literal(NumberLit, Num(DigitsValue(toks[i].source)), [toks[i]]), [toks[i]]))
    {
      assert ScannerProperties.WellShaped(toks[i]);
    }
  }

  /** The decimal reading of digit strings. */
  lemma DigitsValueExamples()
    ensures DigitsValue("0") == 0 && DigitsValue("12") == 12 && DigitsValue("305") == 305
  {
    assert "12"[..1] == "1";
    assert "305"[..2] == "30" && "30"[..1] == "3";
  }

  // ---------------------------------------------------------------------------
  // Name lists: the parameters of a function and the names of an import.

  /** Tokens a parameter or import-name list may hold before its closer. */
  predicate ListToken(t: Token) {
    t.kind == Identifier || t.kind == Comma
  }

  /** The identifiers of a token run, in order (the commas dropped). */
  function IdentifiersOf(ts: seq<Token>): seq<Token> {
    if ts == [] then []
    else (if ts[0].kind == Identifier then [ts[0]] else []) + IdentifiersOf(ts[1..])
  }

  /** The parameter loop, for the run of identifiers and commas from `lp` up
      to `e`: at `)` it yields exactly the identifiers of the run, in order;
      at any other token it fails there; at the end it reads past the array. */
  lemma {:induction false} ParamsMeaning(toks: seq<Token>, lp: nat, acc: seq<Token>, e: nat)
    requires lp <= e <= |toks|
    requires forall i | lp <= i < e :: ListToken(toks[i])
    requires e < |toks| ==> !ListToken(toks[e])
    decreases e - lp
    ensures ParseParams(toks, lp, acc)
      == if e == |toks| then Err(ParseError(|toks|, OutOfTokens))
         else if toks[e].kind == CloseParen then Ok((acc + IdentifiersOf(toks[lp..e]), e + 1))
         else Err(ParseError(e, UnexpectedParameter))
  {
    if lp == e {
      assert toks[lp..e] == [];
      assert acc + [] == acc;
    } else {
      assert toks[lp..e][1..] == toks[lp + 1..e];
      if toks[lp].kind == Identifier {
        ParamsMeaning(toks, lp + 1, acc + [toks[lp]], e);
        assert acc + [toks[lp]] + IdentifiersOf(toks[lp + 1..e]) == acc + IdentifiersOf(toks[lp..e]);
      } else {
        assert IdentifiersOf(toks[lp..e]) == IdentifiersOf(toks[lp + 1..e]);
        ParamsMeaning(toks, lp + 1, acc, e);
      }
    }
  }

  /** The name loop of an import, for the run of identifiers and commas from
      `lp` up to `e`: at `}` or at the end of the array it yields exactly the
      identifiers of the run; at any other token it fails there. */
  lemma {:induction false} ImportNamesMeaning(toks: seq<Token>, lp: nat, acc: seq<Token>, e: nat)
    requires lp <= e <= |toks|
    requires forall i | lp <= i < e :: ListToken(toks[i])
    requires e < |toks| ==> !ListToken(toks[e])
    decreases e - lp
    ensures ImportNames(toks, lp, acc)
      == if e == |toks| then Ok((acc + IdentifiersOf(toks[lp..e]), e))
         else if toks[e].kind == CloseCurly then Ok((acc + IdentifiersOf(toks[lp..e]), e + 1))
         else Err(ParseError(e, ExpectedImportName))
  {
    if lp == e {
      assert toks[lp..e] == [];
      assert acc + [] == acc;
    } else {
      assert toks[lp..e][1..] == toks[lp + 1..e];
      if toks[lp].kind == Identifier {
        ImportNamesMeaning(toks, lp + 1, acc + [toks[lp]], e);
        assert acc + [toks[lp]] + IdentifiersOf(toks[lp + 1..e]) == acc + IdentifiersOf(toks[lp..e]);
      } else {
        assert IdentifiersOf(toks[lp..e]) == IdentifiersOf(toks[lp + 1..e]);
        ImportNamesMeaning(toks, lp + 1, acc, e);
      }
    }
  }

  /** The parameters of a parsed function are the identifiers between its
      parentheses, and nothing but identifiers and commas stands there. */
  lemma FunctionParameters(toks: seq<Token>, pos: nat)
    requires pos <= |toks|
    ensures var r := FunctionAt(toks, pos);
      r.Ok? ==> exists e :: pos + 3 <= e < |toks| && toks[e].kind == CloseParen
                  && (forall i | pos + 3 <= i < e :: ListToken(toks[i]))
                  && r.value.args == IdentifiersOf(toks[pos + 3..e])
  {
    var r := FunctionAt(toks, pos);
    if r.Ok? {
      var e := FirstNonListToken(toks, pos + 3);
      ParamsMeaning(toks, pos + 3, [], e);
      assert [] + IdentifiersOf(toks[pos + 3..e]) == IdentifiersOf(toks[pos + 3..e]);
    }
  }

  /** The first position at or after `lp` that does not hold an identifier
      or a comma (`|toks|` if there is none). */
  function FirstNonListToken(toks: seq<Token>, lp: nat): (e: nat)
    requires lp <= |toks|
    decreases |toks| - lp
    ensures lp <= e <= |toks|
    ensures forall i | lp <= i < e :: ListToken(toks[i])
    ensures e < |toks| ==> !ListToken(toks[e])
  {
    if lp == |toks| || !ListToken(toks[lp]) then lp else FirstNonListToken(toks, lp + 1)
  }

  // ---------------------------------------------------------------------------
  // The program record.

  /** The names an import brings in. */
  function SourcesOf(names: seq<Token>): set<string> {
    set t | t in names :: t.source
  }

  /** Recording an import makes every imported name a native function of
      the module (whatever was there before) and leaves every other entry
      as it was. */
  lemma {:induction false} AddNativesMeaning(fns: Program, names: seq<Token>, moduleName: string)
    decreases |names|
    ensures var r := AddNatives(fns, names, moduleName);
      && r.Keys == fns.Keys + SourcesOf(names)
      && (forall k | k in SourcesOf(names) :: r[k] == Native(k, moduleName))
      && (forall k | k in fns && k !in SourcesOf(names) :: r[k] == fns[k])
  {
    if names != [] {
      var next := fns[names[0].source := Native(names[0].source, moduleName)];
      AddNativesMeaning(next, names[1..], moduleName);
      assert SourcesOf(names) == {names[0].source} + SourcesOf(names[1..]) by {
        assert names == [names[0]] + names[1..];
      }
    }
  }

  /** Only natives are entered by the import loop. */
  predicate AllNative(fns: Program) {
    forall k | k in fns :: fns[k].Native?
  }

  /** Recording natives keeps a record of natives all native and loses no
      name. */
  lemma {:induction false} AddNativesKeepsNative(fns: Program, names: seq<Token>, moduleName: string)
    requires AllNative(fns)
    decreases |names|
    ensures AllNative(AddNatives(fns, names, moduleName)) && fns.Keys <= AddNatives(fns, names, moduleName).Keys
  {
    if names != [] {
      AddNativesKeepsNative(fns[names[0].source := Native(names[0].source, moduleName)], names[1..], moduleName);
    }
  }

  /** An import keyword the import loop gets past starts an import that
      parses. */
  lemma ImportsLoopImport(toks: seq<Token>, pos: nat, fns: Program) returns (imp: Import)
    requires pos < |toks| && toks[pos].kind == KeyImport && ImportsLoop(toks, pos, fns).Ok?
    ensures ImportAt(toks, pos) == Ok(imp)
  {
    if ImportAt(toks, pos).Err? {
      ImportsFail(toks, pos, fns);
    }
    imp := ImportAt(toks, pos).value;
  }

  /** One turn of the import loop over a newline or an import records the
      names of some import (none for a newline). */
  lemma ImportsTurn(toks: seq<Token>, pos: nat, fns: Program) returns (next: nat, names: seq<Token>, moduleName: string)
    requires pos < |toks| && ImportsLoop(toks, pos, fns).Ok?
    requires toks[pos].kind == NewLine || toks[pos].kind == KeyImport
    ensures pos < next <= |toks|
    ensures ImportsLoop(toks, next, AddNatives(fns, names, moduleName)) == ImportsLoop(toks, pos, fns)
  {
    if toks[pos].kind == NewLine {
      ImportsSkip(toks, pos, fns);
      next, names, moduleName := pos + 1, [], "";
    } else {
      var imp := ImportsLoopImport(toks, pos, fns);
      ImportsStep(toks, pos, fns, imp);
      next, names, moduleName := pos + |imp.tokens|, imp.functions, imp.moduleName;
    }
  }

  lemma {:induction false} ImportsLoopNatives(toks: seq<Token>, pos: nat, fns: Program, out: Program, stop: nat)
    requires pos <= |toks| && AllNative(fns)
    requires ImportsLoop(toks, pos, fns) == Ok((out, stop))
    decreases |toks| - pos
    ensures AllNative(out) && fns.Keys <= out.Keys
  {
    if pos < |toks| && (toks[pos].kind == NewLine || toks[pos].kind == KeyImport) {
      var next, names, moduleName := ImportsTurn(toks, pos, fns);
      AddNativesKeepsNative(fns, names, moduleName);
      ImportsLoopNatives(toks, next, AddNatives(fns, names, moduleName), out, stop);
    }
  }

  /** A function the function loop gets past parses and has a name not
      recorded yet; the loop resumes after it with it recorded. */
  lemma FunctionsLoopFunction(toks: seq<Token>, pos: nat, fns: Program) returns (f: FunctionDef)
    requires pos < |toks| && toks[pos].kind != NewLine && FunctionsLoop(toks, pos, fns).Ok?
    ensures FunctionAt(toks, pos) == Ok(f) && f.Script? && f.name.source !in fns
    ensures FunctionsLoop(toks, pos, fns) == FunctionsLoop(toks, pos + |f.tokens|, fns[f.name.source := f])
  {
    FunctionsStep(toks, pos, fns);
    f := FunctionAt(toks, pos).value;
  }

  /** One turn of the function loop keeps every entry and adds only script
      functions under their own names. */
  lemma FunctionsTurn(toks: seq<Token>, pos: nat, fns: Program) returns (next: nat, nfns: Program)
    requires pos < |toks| && FunctionsLoop(toks, pos, fns).Ok?
    ensures pos < next <= |toks| && FunctionsLoop(toks, next, nfns) == FunctionsLoop(toks, pos, fns)
    ensures forall k | k in fns :: k in nfns && nfns[k] == fns[k]
    ensures forall k | k in nfns && k !in fns :: nfns[k].Script? && nfns[k].name.source == k
  {
    if toks[pos].kind == NewLine {
      assert FunctionsLoop(toks, pos, fns) == FunctionsLoop(toks, pos + 1, fns);
      next, nfns := pos + 1, fns;
    } else {
      var f := FunctionsLoopFunction(toks, pos, fns);
      next, nfns := pos + |f.tokens|, fns[f.name.source := f];
    }
  }

  /** The function loop never replaces an entry; every entry it adds is the
      script function of that name. */
  lemma {:induction false} FunctionsLoopKeeps(toks: seq<Token>, pos: nat, fns: Program)
    requires pos <= |toks|
    decreases |toks| - pos
    ensures var r := FunctionsLoop(toks, pos, fns);
      r.Ok? ==>
        && (forall k | k in fns :: k in r.value && r.value[k] == fns[k])
        && (forall k | k in r.value && k !in fns :: r.value[k].Script? && r.value[k].name.source == k)
  {
    if pos < |toks| && FunctionsLoop(toks, pos, fns).Ok? {
      var next, nfns := FunctionsTurn(toks, pos, fns);
      FunctionsLoopKeeps(toks, next, nfns);
    }
  }

  /** A function whose name is already recorded — by an earlier function or
      by an import — stops the parse at its `func`. */
  lemma RedeclarationRejected(toks: seq<Token>, pos: nat, fns: Program, f: FunctionDef)
    requires pos < |toks| && toks[pos].kind != NewLine && FunctionAt(toks, pos) == Ok(f)
    requires f.name.source in fns
    ensures FunctionsLoop(toks, pos, fns) == Err(ParseError(pos, RedeclaredFunction(f.name.source)))
  {
    FunctionsStep(toks, pos, fns);
  }

  /** A parsed program keeps every import as a native function, and every
      other entry is the script function of that name. */
  lemma ProgramEntries(toks: seq<Token>)
    requires ParseProgram(toks).Ok?
    ensures var imports := ImportsLoop(toks, 0, map[]);
      var prog := ParseProgram(toks).value;
      && imports.Ok?
      && (forall k | k in imports.value.0 :: k in prog && prog[k] == imports.value.0[k] && prog[k].Native?)
      && (forall k | k in prog && k !in imports.value.0 :: prog[k].Script? && prog[k].name.source == k)
  {
    var imports := ImportsLoop(toks, 0, map[]);
    ImportsLoopNatives(toks, 0, map[], imports.value.0, imports.value.1);
    FunctionsLoopKeeps(toks, imports.value.1, imports.value.0);
  }
}
