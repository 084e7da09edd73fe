/**
 * Properties of the interpreter model: how `main` is run, how a call's scope
 * is built, the order in which statements run, what a declaration does to
 * the scope, what an expression can read, and the rules of each operator.
 */
module InterpreterProperties {
  import opened Results
  import opened Scanner
  import opened Parser
  import opened Interpreter

  // ---------------------------------------------------------------------------
  // interpret.

  /** `main` must be present and a script; it is called with no arguments, so
      a `main` with parameters fails the arity check; the result is the
      payload of main's value. */
  lemma InterpretOutcome(prog: Program, reg: Registry, fuel: nat)
    ensures MainFunctionId !in prog ==> InterpretProgram(prog, reg, fuel) == Err(NoMainFunction)
    ensures MainFunctionId in prog && prog[MainFunctionId].Script? && |prog[MainFunctionId].args| != 0
            ==> InterpretProgram(prog, reg, fuel) == Err(ArityMismatch(prog[MainFunctionId].name.source))
    ensures InterpretProgram(prog, reg, fuel).Ok?
            ==> MainFunctionId in prog && prog[MainFunctionId].Script? && prog[MainFunctionId].args == []
                && RunScript(prog, reg, prog[MainFunctionId], [], fuel).Ok?
                && InterpretProgram(prog, reg, fuel).value == RunScript(prog, reg, prog[MainFunctionId], [], fuel).value.payload
  {
  }

  // ---------------------------------------------------------------------------
  // The parameter scope.

  /** No later parameter has the same name as parameter `i`. */
  predicate LastOccurrence(names: seq<Token>, i: nat)
    requires i < |names|
  {
    forall j :: i < j < |names| ==> names[j].source != names[i].source
  }

  /** The parameter scope binds exactly the parameter names. */
  lemma {:induction false} BindKeys(names: seq<Token>, vals: seq<Value>)
    requires |names| == |vals|
    decreases |names|
    ensures forall k :: k in Bind(names, vals) <==> exists i :: 0 <= i < |names| && names[i].source == k
  {
    if names != [] {
      var n := |names| - 1;
      var front, fvals := names[..n], vals[..n];
      BindKeys(front, fvals);
      forall k
        ensures k in Bind(names, vals) <==> exists i :: 0 <= i < |names| && names[i].source == k
      {
        if k in Bind(front, fvals) {
          var i :| 0 <= i < |front| && front[i].source == k;
          assert names[i].source == k;
        }
        if exists i :: 0 <= i < |names| && names[i].source == k {
          var i :| 0 <= i < |names| && names[i].source == k;
          if i < n {
            assert front[i].source == k;
          }
        }
      }
    }
  }

  /** Each parameter name is bound to the argument at its last position. */
  lemma {:induction false} BindValues(names: seq<Token>, vals: seq<Value>)
    requires |names| == |vals|
    decreases |names|
    ensures forall i :: 0 <= i < |names| && LastOccurrence(names, i)
              ==> names[i].source in Bind(names, vals) && Bind(names, vals)[names[i].source] == vals[i]
  {
    BindKeys(names, vals);
    if names != [] {
      var n := |names| - 1;
      var front, fvals := names[..n], vals[..n];
      BindValues(front, fvals);
      forall i | 0 <= i < |names| && LastOccurrence(names, i)
        ensures names[i].source in Bind(names, vals) && Bind(names, vals)[names[i].source] == vals[i]
      {
        if i < n {
          assert names[n].source != names[i].source;
          assert front[i] == names[i];
          assert LastOccurrence(front, i);
        }
      }
    }
  }

  /** runFunction checks the arity before anything else; otherwise the
      statements run in a scope holding exactly the parameters. */
  lemma RunScriptScope(prog: Program, reg: Registry, f: FunctionDef, args: seq<Value>, fuel: nat)
    requires f.Script?
    ensures |f.args| != |args| ==> RunScript(prog, reg, f, args, fuel) == Err(ArityMismatch(f.name.source))
    ensures |f.args| == |args| ==>
      exists scope: Scope ::
        && RunScript(prog, reg, f, args, fuel) == ExecStmts(prog, reg, f.statements, scope, fuel)
        && (forall k :: k in scope <==> exists i :: 0 <= i < |f.args| && f.args[i].source == k)
        && (forall i :: 0 <= i < |f.args| && LastOccurrence(f.args, i) ==> scope[f.args[i].source] == args[i])
  {
    if |f.args| == |args| {
      BindKeys(f.args, args);
      BindValues(f.args, args);
      var scope := Bind(f.args, args);
      assert RunScript(prog, reg, f, args, fuel) == ExecStmts(prog, reg, f.statements, scope, fuel);
    }
  }

  // ---------------------------------------------------------------------------
  // Statements.

  /** The statement loop runs statements in order and stops at the first
      `return`; ExecPrefix is the scope after a run of statements that has no
      `return`. */
  predicate NoReturn(stmts: seq<Statement>) {
    forall s <- stmts :: !s.ReturnStmt?
  }

  function ExecPrefix(prog: Program, reg: Registry, stmts: seq<Statement>, vars: Scope, fuel: nat): Result<Scope>
    requires NoReturn(stmts)
  {
    if stmts == [] then Ok(vars)
    else if stmts[0].DeclarationStmt? then
      var next :- Declare(prog, reg, vars, stmts[0], fuel);
      ExecPrefix(prog, reg, stmts[1..], next, fuel)
    else
      var v :- EvalExpr(prog, reg, vars, stmts[0].expression, fuel);
      ExecPrefix(prog, reg, stmts[1..], vars, fuel)
  }

  /** Statements run in order: a `return`-free prefix runs first, and the
      rest runs in the scope it leaves, unless it failed. */
  lemma {:induction false} StatementsRunInOrder(prog: Program, reg: Registry, before: seq<Statement>,
                                                after: seq<Statement>, vars: Scope, fuel: nat)
    requires NoReturn(before)
    decreases |before|
    ensures ExecStmts(prog, reg, before + after, vars, fuel)
            == match ExecPrefix(prog, reg, before, vars, fuel)
               case Ok(scope) => ExecStmts(prog, reg, after, scope, fuel)
               case Err(e) => Err(e)
  {
    if before != [] {
      assert (before + after)[0] == before[0];
      assert (before + after)[1..] == before[1..] + after;
      assert !before[0].ReturnStmt?;
      if before[0].DeclarationStmt? {
        var d := Declare(prog, reg, vars, before[0], fuel);
        if d.Ok? {
          StatementsRunInOrder(prog, reg, before[1..], after, d.value, fuel);
        }
      } else {
        var v := EvalExpr(prog, reg, vars, before[0].expression, fuel);
        if v.Ok? {
          StatementsRunInOrder(prog, reg, before[1..], after, vars, fuel);
        }
      }
    } else {
      assert before + after == after;
    }
  }

  /** The first `return` gives the result, and no later statement runs. */
  lemma FirstReturnWins(prog: Program, reg: Registry, before: seq<Statement>, e: Expr, ts: seq<Token>,
                        after: seq<Statement>, vars: Scope, fuel: nat)
    requires NoReturn(before)
    ensures ExecStmts(prog, reg, before + [ReturnStmt(e, ts)] + after, vars, fuel)
            == match ExecPrefix(prog, reg, before, vars, fuel)
               case Ok(scope) => EvalExpr(prog, reg, scope, e, fuel)
               case Err(err) => Err(err)
  {
    assert before + [ReturnStmt(e, ts)] + after == before + ([ReturnStmt(e, ts)] + after);
    StatementsRunInOrder(prog, reg, before, [ReturnStmt(e, ts)] + after, vars, fuel);
  }

  /** Running off the end of a function yields Void. */
  lemma RunningOffTheEndYieldsVoid(prog: Program, reg: Registry, stmts: seq<Statement>, vars: Scope, fuel: nat)
    requires NoReturn(stmts)
    ensures ExecStmts(prog, reg, stmts, vars, fuel)
            == if ExecPrefix(prog, reg, stmts, vars, fuel).Ok? then Ok(Void)
               else Err(ExecPrefix(prog, reg, stmts, vars, fuel).error)
  {
    StatementsRunInOrder(prog, reg, stmts, [], vars, fuel);
    assert stmts + [] == stmts;
  }

  // ---------------------------------------------------------------------------
  // Declarations.

  /** A declaration evaluates its initializer first (its error wins even when
      the name is taken), then fails on a bound name; otherwise it adds that
      one binding and changes nothing else. */
  lemma DeclareMeaning(prog: Program, reg: Registry, vars: Scope, s: Statement, fuel: nat)
    requires s.DeclarationStmt?
    ensures var v := EvalExpr(prog, reg, vars, s.expression, fuel);
      && (v.Err? ==> Declare(prog, reg, vars, s, fuel) == Err(v.error))
      && (v.Ok? && s.varName.source in vars ==> Declare(prog, reg, vars, s, fuel) == Err(RedeclaredVariable(s.varName.source)))
      && (Declare(prog, reg, vars, s, fuel).Ok? ==>
            var m := Declare(prog, reg, vars, s, fuel).value;
            && v.Ok? && s.varName.source !in vars
            && m.Keys == vars.Keys + {s.varName.source}
            && m[s.varName.source] == v.value
            && forall k :: k in vars ==> m[k] == vars[k])
  {
  }

  /** A parameter cannot be redeclared: a function whose first statement
      declares one of its parameter names fails once the initializer has a
      value. */
  lemma ParameterCannotBeRedeclared(prog: Program, reg: Registry, f: FunctionDef, args: seq<Value>, fuel: nat, i: nat)
    requires f.Script? && |f.args| == |args| && 0 < |f.statements| && f.statements[0].DeclarationStmt?
    requires i < |f.args| && f.args[i].source == f.statements[0].varName.source
    requires EvalExpr(prog, reg, Bind(f.args, args), f.statements[0].expression, fuel).Ok?
    ensures RunScript(prog, reg, f, args, fuel) == Err(RedeclaredVariable(f.args[i].source))
  {
    BindKeys(f.args, args);
    var scope := Bind(f.args, args);
    var s := f.statements[0];
    assert f.args[i].source in scope;
    assert Declare(prog, reg, scope, s, fuel) == Err(RedeclaredVariable(f.args[i].source));
    assert ExecStmts(prog, reg, f.statements, scope, fuel) == Err(RedeclaredVariable(f.args[i].source));
  }

  // ---------------------------------------------------------------------------
  // Expressions read only the names they mention.

  /** The names an expression reads from the scope. A call's callee runs in
      its own scope, so only the call's arguments count. */
  function Mentions(e: Expr): set<string>
    decreases e
  {
    match e
    case Equality(lhs, _, rhs, _) => Mentions(lhs) + Mentions(rhs)
    case Term(lhs, _, rhs, _) => Mentions(lhs) + Mentions(rhs)
    case Factor(lhs, _, rhs, _) => Mentions(lhs) + Mentions(rhs)
    case Primary(lit, _) =>
      if lit.kind == IdentifierLit && 0 < |lit.tokens| then {lit.tokens[0].source} else {}
    case Call(_, params, _) => MentionsAll(params)
  }

  function MentionsAll(ps: seq<Expr>): set<string>
    decreases ps
  {
    if ps == [] then {} else Mentions(ps[0]) + MentionsAll(ps[1..])
  }

  /** Two scopes agree on a set of names: same presence, same values. */
  predicate AgreeOn(v1: Scope, v2: Scope, names: set<string>) {
    forall n :: n in names ==> (n in v1 <==> n in v2) && (n in v1 ==> v1[n] == v2[n])
  }

  /** Evaluation depends on the scope only through the names the expression
      mentions: the caller's other variables are invisible, and a script
      callee sees nothing of the caller's scope at all. */
  lemma {:induction false} EvalReadsOnlyMentioned(prog: Program, reg: Registry, v1: Scope, v2: Scope, e: Expr, fuel: nat)
    requires AgreeOn(v1, v2, Mentions(e))
    decreases e
    ensures EvalExpr(prog, reg, v1, e, fuel) == EvalExpr(prog, reg, v2, e, fuel)
  {
    match e
    case Equality(lhs, _, rhs, _) =>
      EvalReadsOnlyMentioned(prog, reg, v1, v2, lhs, fuel);
      EvalReadsOnlyMentioned(prog, reg, v1, v2, rhs, fuel);
    case Term(lhs, _, rhs, _) =>
      EvalReadsOnlyMentioned(prog, reg, v1, v2, lhs, fuel);
      EvalReadsOnlyMentioned(prog, reg, v1, v2, rhs, fuel);
    case Factor(lhs, _, rhs, _) =>
      EvalReadsOnlyMentioned(prog, reg, v1, v2, lhs, fuel);
      EvalReadsOnlyMentioned(prog, reg, v1, v2, rhs, fuel);
    case Primary(lit, _) =>
    case Call(_, params, _) =>
      ArgsReadOnlyMentioned(prog, reg, v1, v2, params, [], fuel);
  }

  lemma {:induction false} ArgsReadOnlyMentioned(prog: Program, reg: Registry, v1: Scope, v2: Scope,
                                                 ps: seq<Expr>, acc: seq<Value>, fuel: nat)
    requires AgreeOn(v1, v2, MentionsAll(ps))
    decreases ps
    ensures EvalArgs(prog, reg, v1, ps, acc, fuel) == EvalArgs(prog, reg, v2, ps, acc, fuel)
  {
    if ps != [] {
      EvalReadsOnlyMentioned(prog, reg, v1, v2, ps[0], fuel);
      var v := EvalExpr(prog, reg, v1, ps[0], fuel);
      if v.Ok? {
        ArgsReadOnlyMentioned(prog, reg, v1, v2, ps[1..], acc + [v.value], fuel);
      }
    }
  }

  /** An identifier that is not bound fails. */
  lemma UnboundIdentifierFails(prog: Program, reg: Registry, vars: Scope, e: Expr, fuel: nat)
    requires e.Primary? && e.value.kind == IdentifierLit && 0 < |e.value.tokens|
    ensures e.value.tokens[0].source in vars <==> EvalExpr(prog, reg, vars, e, fuel).Ok?
    ensures e.value.tokens[0].source !in vars
            ==> EvalExpr(prog, reg, vars, e, fuel) == Err(UndeclaredVariable(e.value.tokens[0].source))
    ensures e.value.tokens[0].source in vars
            ==> EvalExpr(prog, reg, vars, e, fuel) == Ok(vars[e.value.tokens[0].source])
  {
  }

  // ---------------------------------------------------------------------------
  // Operators.

  /** The operands of a binary node are evaluated lhs first: an lhs error
      wins over an rhs error. */
  lemma OperandsLeftToRight(prog: Program, reg: Registry, vars: Scope, e: Expr, fuel: nat)
    requires e.Equality? || e.Term? || e.Factor?
    ensures var l := EvalExpr(prog, reg, vars, e.lhs, fuel);
      var r := EvalExpr(prog, reg, vars, e.rhs, fuel);
      && (l.Err? ==> EvalExpr(prog, reg, vars, e, fuel) == Err(l.error))
      && (l.Ok? && r.Err? ==> EvalExpr(prog, reg, vars, e, fuel) == Err(r.error))
      && (l.Ok? && r.Ok? && e.Equality? ==> EvalExpr(prog, reg, vars, e, fuel) == EqualityValue(e.op, l.value, r.value))
      && (l.Ok? && r.Ok? && e.Term? ==> EvalExpr(prog, reg, vars, e, fuel) == TermValue(e.op, l.value, r.value))
      && (l.Ok? && r.Ok? && e.Factor? ==> EvalExpr(prog, reg, vars, e, fuel) == FactorValue(e.op, l.value, r.value))
  {
  }

  /** Equality: operands of differing kinds are unequal under `==` and under
      `!=` alike; operands of one kind compare their payloads; the result is
      always a Bool. */
  lemma EqualityRules(op: Token, lhs: Value, rhs: Value)
    ensures lhs.kind != rhs.kind ==> EqualityValue(op, lhs, rhs) == Ok(Value(BoolKind, Flag(false)))
    ensures lhs.kind == rhs.kind && Comparable(lhs.payload, rhs.payload) && op.kind == Equal
            ==> EqualityValue(op, lhs, rhs) == Ok(Value(BoolKind, Flag(lhs.payload == rhs.payload)))
    ensures lhs.kind == rhs.kind && Comparable(lhs.payload, rhs.payload) && op.kind == NotEqual
            ==> EqualityValue(op, lhs, rhs) == Ok(Value(BoolKind, Flag(lhs.payload != rhs.payload)))
    ensures lhs.kind == rhs.kind && op.kind != Equal && op.kind != NotEqual
            ==> EqualityValue(op, lhs, rhs) == Err(UnrecognizedOperator)
    ensures EqualityValue(op, lhs, rhs).Ok? ==> EqualityValue(op, lhs, rhs).value.kind == BoolKind
  {
  }

  /** Term: the kinds must agree, `-` needs Numbers, `+` Numbers or Strings,
      and the result is tagged Number. */
  lemma TermRules(op: Token, lhs: Value, rhs: Value)
    ensures lhs.kind != rhs.kind ==> TermValue(op, lhs, rhs) == Err(KindMismatch)
    ensures TermValue(op, lhs, rhs).Ok? ==>
      && lhs.kind == rhs.kind
      && TermValue(op, lhs, rhs).value.kind == NumberKind
      && (op.kind == Minus ==> lhs.kind == NumberKind)
      && (op.kind == Plus ==> lhs.kind == NumberKind || lhs.kind == StringKind)
      && (op.kind == Minus || op.kind == Plus)
  {
  }

  /** Term on two numbers adds or subtracts them. */
  lemma TermOnNumbers(op: Token, a: int, b: int)
    ensures TermValue(op, Value(NumberKind, Num(a)), Value(NumberKind, Num(b)))
            == if op.kind == Plus then Ok(Value(NumberKind, Num(a + b)))
               else if op.kind == Minus then Ok(Value(NumberKind, Num(a - b)))
               else Err(UnrecognizedOperator)
  {
  }

  /** Term on two strings: `+` concatenates and tags the result Number;
      `-` is refused. */
  lemma TermOnStrings(op: Token, a: string, b: string)
    ensures TermValue(op, Value(StringKind, Str(a)), Value(StringKind, Str(b)))
            == if op.kind == Plus then Ok(Value(NumberKind, Str(a + b)))
               else if op.kind == Minus then Err(CannotSubtract)
               else Err(UnrecognizedOperator)
  {
  }

  /** Factor: both operands must be Numbers, the result is a Number. */
  lemma FactorRules(op: Token, lhs: Value, rhs: Value)
    ensures lhs.kind != NumberKind || rhs.kind != NumberKind ==> FactorValue(op, lhs, rhs) == Err(NotNumbers)
    ensures FactorValue(op, lhs, rhs).Ok? ==>
      lhs.kind == NumberKind && rhs.kind == NumberKind && FactorValue(op, lhs, rhs).value.kind == NumberKind
      && (op.kind == Star || op.kind == Slash)
  {
  }

  /** Factor on two numbers: `*` multiplies; `/` gives the quotient when it
      is exact, which needs a non-zero divisor. */
  lemma FactorOnNumbers(op: Token, a: int, b: int)
    ensures op.kind == Star ==> FactorValue(op, Value(NumberKind, Num(a)), Value(NumberKind, Num(b))) == Ok(Value(NumberKind, Num(a * b)))
    ensures op.kind == Slash && FactorValue(op, Value(NumberKind, Num(a)), Value(NumberKind, Num(b))).Ok?
            ==> var q := FactorValue(op, Value(NumberKind, Num(a)), Value(NumberKind, Num(b))).value.payload;
                b != 0 && q.Num? && q.n * b == a
    ensures op.kind == Slash && b != 0 && a % b == 0
            ==> FactorValue(op, Value(NumberKind, Num(a)), Value(NumberKind, Num(b))).Ok?
  {
  }

  // ---------------------------------------------------------------------------
  // Calls.

  /** The arguments are evaluated left to right: the argument list has
      values exactly when every argument has one. */
  lemma {:induction false} ArgsSucceedIffEach(prog: Program, reg: Registry, vars: Scope, ps: seq<Expr>,
                                              acc: seq<Value>, fuel: nat)
    decreases |ps|
    ensures EvalArgs(prog, reg, vars, ps, acc, fuel).Ok?
            <==> forall i :: 0 <= i < |ps| ==> EvalExpr(prog, reg, vars, ps[i], fuel).Ok?
  {
    if ps != [] {
      var v := EvalExpr(prog, reg, vars, ps[0], fuel);
      if v.Ok? {
        ArgsSucceedIffEach(prog, reg, vars, ps[1..], acc + [v.value], fuel);
        if forall i :: 0 <= i < |ps| ==> EvalExpr(prog, reg, vars, ps[i], fuel).Ok? {
          forall i | 0 <= i < |ps| - 1
            ensures EvalExpr(prog, reg, vars, ps[1..][i], fuel).Ok?
          {
            assert ps[1..][i] == ps[i + 1];
          }
        } else {
          var i :| 0 <= i < |ps| && !EvalExpr(prog, reg, vars, ps[i], fuel).Ok?;
          assert ps[1..][i - 1] == ps[i];
        }
      }
    }
  }

  /** The first failing argument gives the error; later ones are not
      evaluated. */
  lemma {:induction false} FirstFailingArgumentWins(prog: Program, reg: Registry, vars: Scope, ps: seq<Expr>,
                                                    acc: seq<Value>, fuel: nat, k: nat)
    requires k < |ps| && EvalExpr(prog, reg, vars, ps[k], fuel).Err?
    requires forall j :: 0 <= j < k ==> EvalExpr(prog, reg, vars, ps[j], fuel).Ok?
    decreases k
    ensures EvalArgs(prog, reg, vars, ps, acc, fuel) == Err(EvalExpr(prog, reg, vars, ps[k], fuel).error)
  {
    if k > 0 {
      var v := EvalExpr(prog, reg, vars, ps[0], fuel);
      assert v.Ok?;
      assert ps[1..][k - 1] == ps[k];
      forall j | 0 <= j < k - 1
        ensures EvalExpr(prog, reg, vars, ps[1..][j], fuel).Ok?
      {
        assert ps[1..][j] == ps[j + 1];
      }
      FirstFailingArgumentWins(prog, reg, vars, ps[1..], acc + [v.value], fuel, k - 1);
    }
  }

  /** On success the values follow those already gathered, in argument
      order. */
  lemma {:induction false} ArgumentValuesInOrder(prog: Program, reg: Registry, vars: Scope, ps: seq<Expr>,
                                                 acc: seq<Value>, fuel: nat)
    requires EvalArgs(prog, reg, vars, ps, acc, fuel).Ok?
    decreases |ps|
    ensures var vs := EvalArgs(prog, reg, vars, ps, acc, fuel).value;
      |vs| == |acc| + |ps| && vs[..|acc|] == acc
      && forall i :: 0 <= i < |ps| ==> EvalExpr(prog, reg, vars, ps[i], fuel) == Ok(vs[|acc| + i])
  {
    if ps != [] {
      var v := EvalExpr(prog, reg, vars, ps[0], fuel);
      var vs := EvalArgs(prog, reg, vars, ps, acc, fuel).value;
      ArgumentValuesInOrder(prog, reg, vars, ps[1..], acc + [v.value], fuel);
      forall i | 0 <= i < |ps|
        ensures EvalExpr(prog, reg, vars, ps[i], fuel) == Ok(vs[|acc| + i])
      {
        if i > 0 {
          assert ps[1..][i - 1] == ps[i];
        }
      }
      assert vs[..|acc|] == vs[..|acc| + 1][..|acc|];
    }
  }

  /** A call looks its callee up before evaluating any argument; a native
      callee gets the argument values, a script callee one unit of fuel
      less. */
  lemma CallRules(prog: Program, reg: Registry, vars: Scope, e: Expr, fuel: nat)
    requires e.Call?
    ensures e.funcName.source !in prog ==> EvalExpr(prog, reg, vars, e, fuel) == Err(UnknownFunction(e.funcName.source))
    ensures e.funcName.source in prog ==>
      var args := EvalArgs(prog, reg, vars, e.params, [], fuel);
      var callee := prog[e.funcName.source];
      && (args.Err? ==> EvalExpr(prog, reg, vars, e, fuel) == Err(args.error))
      && (args.Ok? && callee.Native? ==> EvalExpr(prog, reg, vars, e, fuel) == RunNative(reg, callee, args.value))
      && (args.Ok? && callee.Script? && fuel == 0 ==> EvalExpr(prog, reg, vars, e, fuel) == Err(OutOfFuel))
      && (args.Ok? && callee.Script? && fuel > 0
          ==> EvalExpr(prog, reg, vars, e, fuel) == RunScript(prog, reg, callee, args.value, fuel - 1))
  {
  }

  /** A native call checks the module, then the function, then the arity,
      and returns the callable's result on the unwrapped payloads as it is. */
  lemma NativeRules(reg: Registry, f: FunctionDef, args: seq<Value>)
    requires f.Native?
    ensures f.moduleName !in reg ==> RunNative(reg, f, args) == Err(UnknownModule(f.moduleName))
    ensures f.moduleName in reg && f.functionName !in reg[f.moduleName]
            ==> RunNative(reg, f, args) == Err(UnknownNativeFunction(f.functionName))
    ensures f.moduleName in reg && f.functionName in reg[f.moduleName]
            && |reg[f.moduleName][f.functionName].args| != |args|
            ==> RunNative(reg, f, args) == Err(ArityMismatch(f.functionName))
    ensures f.moduleName in reg && f.functionName in reg[f.moduleName]
            && |reg[f.moduleName][f.functionName].args| == |args|
            ==> exists ps: seq<Payload> ::
                  && |ps| == |args| && (forall i :: 0 <= i < |args| ==> ps[i] == args[i].payload)
                  && RunNative(reg, f, args) == reg[f.moduleName][f.functionName].call(ps)
  {
    if f.moduleName in reg && f.functionName in reg[f.moduleName] && |reg[f.moduleName][f.functionName].args| == |args| {
      var ps := Payloads(args);
      assert RunNative(reg, f, args) == reg[f.moduleName][f.functionName].call(ps);
    }
  }

  // ---------------------------------------------------------------------------
  // An example of the tagging quirk.

  /** Because `+` tags a concatenation Number, comparing it with the string
      it spells gives false: `("a" + "b") == "ab"` evaluates to Bool false. */
  lemma ConcatenationIsNotAString(prog: Program, reg: Registry, vars: Scope, fuel: nat,
                                  a: Literal, b: Literal, ab: Literal, plus: Token, eq: Token)
    requires a == Literal(StringLit, Str("a"), a.tokens) && b == Literal(StringLit, Str("b"), b.tokens)
    requires ab == Literal(StringLit, Str("ab"), ab.tokens)
    requires plus.kind == Plus && eq.kind == Equal
    ensures var sum := Term(Primary(a, a.tokens), plus, Primary(b, b.tokens), []);
      && EvalExpr(prog, reg, vars, sum, fuel) == Ok(Value(NumberKind, Str("ab")))
      && EvalExpr(prog, reg, vars, Equality(sum, eq, Primary(ab, ab.tokens), []), fuel) == Ok(Value(BoolKind, Flag(false)))
  {
    var sum := Term(Primary(a, a.tokens), plus, Primary(b, b.tokens), []);
    assert EvalExpr(prog, reg, vars, Primary(a, a.tokens), fuel) == Ok(Value(StringKind, Str("a")));
    assert EvalExpr(prog, reg, vars, Primary(b, b.tokens), fuel) == Ok(Value(StringKind, Str("b")));
    assert "a" + "b" == "ab";
    assert EvalExpr(prog, reg, vars, sum, fuel) == Ok(Value(NumberKind, Str("ab")));
  }
}
