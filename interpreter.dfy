/**
 * The yal interpreter (src/interpreter/index.ts): a tree walk over the parsed
 * program. `interpret` runs `main`; every script call gets a fresh scope of
 * its parameters, which declarations then extend in place; expressions only
 * read the scope.
 *
 * The evaluators the source writes as plain recursion over the AST are spec
 * functions here. The parts that work by changing state (the statement loop
 * of runFunction, the scope update of runDeclarationStatement, the argument
 * loop of runCallExpression) are methods over a `Frame` object, each proved
 * to compute its spec function.
 *
 * Native functions come from a registry passed in as a parameter. Script
 * calls are bounded by `fuel`, the depth of nested script calls allowed.
 */
module Interpreter {
  import opened Results
  import opened Scanner
  import opened Parser

  /** The name of the function `interpret` runs. */
  const MainFunctionId: string := "main"

  /** ValueType of the interpreter. */
  datatype Kind = NumberKind | BoolKind | VoidKind | StringKind

  /** A runtime value: a kind tag and the payload it wraps. The tag is not
      always the payload's own type: `+` tags a concatenated string Number. */
  datatype Value = Value(kind: Kind, payload: Payload)

  /** What a function without a `return` yields. */
  const Void: Value := Value(VoidKind, Null)

  /** A native function: its declared parameter names and the callable. The
      callable receives the unwrapped payloads; an `Err` stands for the
      exception the callable throws. */
  datatype NativeFunction = NativeFunction(args: seq<string>, call: seq<Payload> -> Result<Value>)

  /** Module name -> function name -> native function. */
  type Registry = map<string, map<string, NativeFunction>>

  /** The variables of one running function, by name. */
  type Scope = map<string, Value>

  // ---------------------------------------------------------------------------
  // Arithmetic and comparison on payloads. A result that JavaScript would
  // produce by floating-point rounding or by coercing mismatched payloads is
  // `Unmodelled`.

  function PayloadSum(a: Payload, b: Payload): Result<Payload> {
    if a.Num? && b.Num? then Ok(Num(a.n + b.n))
    else if a.Str? && b.Str? then Ok(Str(a.s + b.s))
    else Err(Unmodelled)
  }

  function PayloadDifference(a: Payload, b: Payload): Result<Payload> {
    if a.Num? && b.Num? then Ok(Num(a.n - b.n)) else Err(Unmodelled)
  }

  function PayloadProduct(a: Payload, b: Payload): Result<Payload> {
    if a.Num? && b.Num? then Ok(Num(a.n * b.n)) else Err(Unmodelled)
  }

  /** Division is exact only when the divisor is non-zero and divides the
      dividend; then every rounding convention gives the same quotient. */
  function PayloadQuotient(a: Payload, b: Payload): Result<Payload> {
    if a.Num? && b.Num? && b.n != 0 && a.n % b.n == 0 then Ok(Num(a.n / b.n)) else Err(Unmodelled)
  }

  /** `===` on payloads, known exactly unless one side is unrepresented. */
  predicate Comparable(a: Payload, b: Payload) {
    !a.Unrepresented? && !b.Unrepresented?
  }

  // ---------------------------------------------------------------------------
  // The per-kind evaluators, once both operands are values.

  /** runEqualityExpression after its operands: differing kinds are unequal
      whatever the operator; otherwise the payloads are compared. */
  function EqualityValue(op: Token, lhs: Value, rhs: Value): Result<Value> {
    if lhs.kind != rhs.kind then Ok(Value(BoolKind, Flag(false)))
    else if op.kind == Equal then
      if Comparable(lhs.payload, rhs.payload) then Ok(Value(BoolKind, Flag(lhs.payload == rhs.payload)))
      else Err(Unmodelled)
    else if op.kind == NotEqual then
      if Comparable(lhs.payload, rhs.payload) then Ok(Value(BoolKind, Flag(lhs.payload != rhs.payload)))
      else Err(Unmodelled)
    else Err(UnrecognizedOperator)
  }

  /** runTermExpression after its operands. The result is tagged Number even
      when two strings are concatenated. */
  function TermValue(op: Token, lhs: Value, rhs: Value): Result<Value> {
    if lhs.kind != rhs.kind then Err(KindMismatch)
    else if op.kind == Minus then
      if lhs.kind != NumberKind then Err(CannotSubtract)
      else
        var p :- PayloadDifference(lhs.payload, rhs.payload);
        Ok(Value(NumberKind, p))
    else if op.kind == Plus then
      if lhs.kind != StringKind && lhs.kind != NumberKind then Err(CannotAdd)
      else
        var p :- PayloadSum(lhs.payload, rhs.payload);
        Ok(Value(NumberKind, p))
    else Err(UnrecognizedOperator)
  }

  /** runFactorExpression after its operands. */
  function FactorValue(op: Token, lhs: Value, rhs: Value): Result<Value> {
    if lhs.kind != NumberKind || rhs.kind != NumberKind then Err(NotNumbers)
    else if op.kind == Star then
      var p :- PayloadProduct(lhs.payload, rhs.payload);
      Ok(Value(NumberKind, p))
    else if op.kind == Slash then
      var p :- PayloadQuotient(lhs.payload, rhs.payload);
      Ok(Value(NumberKind, p))
    else Err(UnrecognizedOperator)
  }

  /** runPrimaryExpression: literals wrap their payload; an identifier reads
      the scope by the source of its first token. */
  function PrimaryValue(lit: Literal, vars: Scope): Result<Value> {
    match lit.kind
    case NumberLit => Ok(Value(NumberKind, lit.value))
    case BoolLit => Ok(Value(BoolKind, lit.value))
    case StringLit => Ok(Value(StringKind, lit.value))
    case IdentifierLit =>
      if |lit.tokens| == 0 then Err(MissingIdentifierToken)
      else if lit.tokens[0].source !in vars then Err(UndeclaredVariable(lit.tokens[0].source))
      else Ok(vars[lit.tokens[0].source])
  }

  /** The payloads handed to a native callable, `params.map(p => p.value)`. */
  function Payloads(vs: seq<Value>): (ps: seq<Payload>)
    ensures |ps| == |vs| && forall i :: 0 <= i < |vs| ==> ps[i] == vs[i].payload
  {
    if vs == [] then [] else [vs[0].payload] + Payloads(vs[1..])
  }

  /** runNativeFunction: the module, then the function, then the arity; the
      callable's result is returned as it is. */
  function RunNative(reg: Registry, f: FunctionDef, args: seq<Value>): Result<Value>
    requires f.Native?
  {
    if f.moduleName !in reg then Err(UnknownModule(f.moduleName))
    else if f.functionName !in reg[f.moduleName] then Err(UnknownNativeFunction(f.functionName))
    else if |reg[f.moduleName][f.functionName].args| != |args| then Err(ArityMismatch(f.functionName))
    else reg[f.moduleName][f.functionName].call(Payloads(args))
  }

  /** The parameter scope of runFunction: a left fold over the parameters,
      so a later parameter of the same name wins. */
  function Bind(names: seq<Token>, vals: seq<Value>): Scope
    requires |names| == |vals|
    decreases |names|
  {
    if names == [] then map[]
    else Bind(names[..|names| - 1], vals[..|vals| - 1])[names[|names| - 1].source := vals[|vals| - 1]]
  }

  // ---------------------------------------------------------------------------
  // The spec functions. The measure is (fuel, rank, structure): a script call
  // costs one unit of fuel, everything else descends in the AST or the
  // statement list.

  /** runExpression. */
  function EvalExpr(prog: Program, reg: Registry, vars: Scope, e: Expr, fuel: nat): Result<Value>
    decreases fuel, 1, e
  {
    match e
    case Equality(lhs, op, rhs, _) =>
      var l :- EvalExpr(prog, reg, vars, lhs, fuel);
      var r :- EvalExpr(prog, reg, vars, rhs, fuel);
      EqualityValue(op, l, r)
    case Term(lhs, op, rhs, _) =>
      var l :- EvalExpr(prog, reg, vars, lhs, fuel);
      var r :- EvalExpr(prog, reg, vars, rhs, fuel);
      TermValue(op, l, r)
    case Factor(lhs, op, rhs, _) =>
      var l :- EvalExpr(prog, reg, vars, lhs, fuel);
      var r :- EvalExpr(prog, reg, vars, rhs, fuel);
      FactorValue(op, l, r)
    case Primary(lit, _) => PrimaryValue(lit, vars)
    case Call(name, params, _) =>
      if name.source !in prog then Err(UnknownFunction(name.source))
      else
        var args :- EvalArgs(prog, reg, vars, params, [], fuel);
        CallFunction(prog, reg, prog[name.source], args, fuel)
  }

  /** The argument loop of runCallExpression: `acc` holds the values of the
      arguments already evaluated, left to right. */
  function EvalArgs(prog: Program, reg: Registry, vars: Scope, params: seq<Expr>, acc: seq<Value>, fuel: nat)
    : Result<seq<Value>>
    decreases fuel, 1, params
  {
    if params == [] then Ok(acc)
    else
      var v :- EvalExpr(prog, reg, vars, params[0], fuel);
      EvalArgs(prog, reg, vars, params[1..], acc + [v], fuel)
  }

  /** The dispatch of runCallExpression on the callee's kind. */
  function CallFunction(prog: Program, reg: Registry, callee: FunctionDef, args: seq<Value>, fuel: nat): Result<Value>
    decreases fuel, 0, 0
  {
    match callee
    case Native(_, _) => RunNative(reg, callee, args)
    case Script(_, _, _, _) =>
      if fuel == 0 then Err(OutOfFuel) else RunScript(prog, reg, callee, args, fuel - 1)
  }

  /** runDeclarationStatement: the initializer is evaluated first, then the
      name must be unbound; the scope gains that one binding. */
  function Declare(prog: Program, reg: Registry, vars: Scope, s: Statement, fuel: nat): Result<Scope>
    requires s.DeclarationStmt?
    decreases fuel, 2, 0
  {
    var v :- EvalExpr(prog, reg, vars, s.expression, fuel);
    if s.varName.source in vars then Err(RedeclaredVariable(s.varName.source))
    else Ok(vars[s.varName.source := v])
  }

  /** The statement loop of runFunction: statements in order, the first
      `return` ends the run, and running off the end yields Void. */
  function ExecStmts(prog: Program, reg: Registry, stmts: seq<Statement>, vars: Scope, fuel: nat): Result<Value>
    decreases fuel, 3, stmts
  {
    if stmts == [] then Ok(Void)
    else match stmts[0]
      case DeclarationStmt(_, _, _) =>
        var next :- Declare(prog, reg, vars, stmts[0], fuel);
        ExecStmts(prog, reg, stmts[1..], next, fuel)
      case ExpressionStmt(e, _) =>
        var v :- EvalExpr(prog, reg, vars, e, fuel);
        ExecStmts(prog, reg, stmts[1..], vars, fuel)
      case ReturnStmt(e, _) => EvalExpr(prog, reg, vars, e, fuel)
  }

  /** runFunction: the arity check, then the statements in a fresh scope
      holding only the parameters. */
  function RunScript(prog: Program, reg: Registry, f: FunctionDef, args: seq<Value>, fuel: nat): Result<Value>
    requires f.Script?
    decreases fuel, 4, 0
  {
    if |f.args| != |args| then Err(ArityMismatch(f.name.source))
    else ExecStmts(prog, reg, f.statements, Bind(f.args, args), fuel)
  }

  /** interpret: `main` must be present and be a script; it runs with no
      arguments and the payload of its value is the result. A native `main`
      makes the source crash reading its parameter list. */
  function InterpretProgram(prog: Program, reg: Registry, fuel: nat): Result<Payload> {
    if MainFunctionId !in prog then Err(NoMainFunction)
    else if prog[MainFunctionId].Native? then Err(NotAScriptFunction(MainFunctionId))
    else
      var v :- RunScript(prog, reg, prog[MainFunctionId], [], fuel);
      Ok(v.payload)
  }

  // ---------------------------------------------------------------------------
  // The running function, and the methods that change state.

  /** The `Function` record of the source: the parsed function and its
      variables, which declarations update in place. */
  class Frame {
    const pFunc: FunctionDef
    var vars: Scope

    constructor (pFunc: FunctionDef, vars: Scope)
      ensures this.pFunc == pFunc && this.vars == vars
    {
      this.pFunc := pFunc;
      this.vars := vars;
    }
  }

  /** The reduce of runFunction that builds the parameter scope. */
  method BindParameters(names: seq<Token>, vals: seq<Value>) returns (m: Scope)
    requires |names| == |vals|
    ensures m == Bind(names, vals)
  {
    m := map[];
    for i := 0 to |names|
      invariant m == Bind(names[..i], vals[..i])
    {
      assert names[..i + 1][..i] == names[..i] && vals[..i + 1][..i] == vals[..i];
      m := m[names[i].source := vals[i]];
    }
    assert names[..|names|] == names && vals[..|vals|] == vals;
  }

  /** runDeclarationStatement on the frame's scope. On failure the scope is
      left as it was. */
  method RunDeclarationStatement(stmt: Statement, func: Frame, prog: Program, reg: Registry, fuel: nat)
    returns (r: Result<()>)
    requires stmt.DeclarationStmt?
    modifies func
    decreases fuel, 2
    ensures var d := Declare(prog, reg, old(func.vars), stmt, fuel);
      if d.Ok? then r == Ok(()) && func.vars == d.value
      else r == Err(d.error) && func.vars == old(func.vars)
  {
    var varName := stmt.varName.source;
    var val := RunExpression(stmt.expression, func, prog, reg, fuel);
    if val.Err? {
      return Err(val.error);
    }
    if varName in func.vars {
      return Err(RedeclaredVariable(varName));
    }
    func.vars := func.vars[varName := val.value];
    r := Ok(());
  }

  /** runExpression: a call goes through runCallExpression; every other
      kind is handed to EvalExpr. runEqualityExpression,
      runTermExpression, runFactorExpression and runPrimaryExpression hold
      no loop and change nothing, so they exist only as the functions
      EqualityValue, TermValue, FactorValue and PrimaryValue that EvalExpr
      applies; this method is not a rendering of them. */
  method RunExpression(expr: Expr, func: Frame, prog: Program, reg: Registry, fuel: nat) returns (r: Result<Value>)
    decreases fuel, 1
    ensures r == EvalExpr(prog, reg, func.vars, expr, fuel)
  {
    if expr.Call? {
      r := RunCallExpression(expr, func, prog, reg, fuel);
    } else {
      r := EvalExpr(prog, reg, func.vars, expr, fuel);
    }
  }

  /** runCallExpression: the callee is looked up before any argument is
      evaluated; the arguments are evaluated left to right. */
  method RunCallExpression(expr: Expr, func: Frame, prog: Program, reg: Registry, fuel: nat) returns (r: Result<Value>)
    requires expr.Call?
    decreases fuel, 0
    ensures r == EvalExpr(prog, reg, func.vars, expr, fuel)
  {
    var name := expr.funcName.source;
    if name !in prog {
      return Err(UnknownFunction(name));
    }
    var callFunc := prog[name];
    ghost var outcome := EvalArgs(prog, reg, func.vars, expr.params, [], fuel);
    var params: seq<Value> := [];
    for i := 0 to |expr.params|
      invariant EvalArgs(prog, reg, func.vars, expr.params[i..], params, fuel) == outcome
    {
      var paramValue := EvalExpr(prog, reg, func.vars, expr.params[i], fuel);
      assert expr.params[i..][0] == expr.params[i] && expr.params[i..][1..] == expr.params[i + 1..];
      if paramValue.Err? {
        return Err(paramValue.error);
      }
      params := params + [paramValue.value];
    }
    assert expr.params[|expr.params|..] == [];
    match callFunc
    case Script(_, _, _, _) =>
      if fuel == 0 {
        return Err(OutOfFuel);
      }
      r := RunFunction(callFunc, params, prog, reg, fuel - 1);
    case Native(_, _) =>
      r := RunNative(reg, callFunc, params);
  }

  /** runFunction: the arity check, the parameter scope, then the statement
      loop over a fresh frame. */
  method RunFunction(pFunc: FunctionDef, params: seq<Value>, prog: Program, reg: Registry, fuel: nat)
    returns (r: Result<Value>)
    requires pFunc.Script?
    decreases fuel, 3
    ensures r == RunScript(prog, reg, pFunc, params, fuel)
  {
    if |pFunc.args| != |params| {
      return Err(ArityMismatch(pFunc.name.source));
    }
    var paramMap := BindParameters(pFunc.args, params);
    var func := new Frame(pFunc, paramMap);
    var stmts := func.pFunc.statements;
    ghost var outcome := RunScript(prog, reg, pFunc, params, fuel);
    var i := 0;
    while i < |stmts|
      invariant 0 <= i <= |stmts|
      invariant ExecStmts(prog, reg, stmts[i..], func.vars, fuel) == outcome
      decreases |stmts| - i
    {
      var stmt := stmts[i];
      assert stmts[i..][0] == stmt && stmts[i..][1..] == stmts[i + 1..];
      match stmt {
        case DeclarationStmt(_, _, _) =>
          var done := RunDeclarationStatement(stmt, func, prog, reg, fuel);
          if done.Err? {
            return Err(done.error);
          }
        case ExpressionStmt(e, _) =>
          var val := RunExpression(e, func, prog, reg, fuel);
          if val.Err? {
            return Err(val.error);
          }
        case ReturnStmt(e, _) =>
          r := RunExpression(e, func, prog, reg, fuel);
          return;
      }
      i := i + 1;
    }
    return Ok(Void);
  }

  /** interpret. */
  method Interpret(prog: Program, reg: Registry, fuel: nat) returns (r: Result<Payload>)
    ensures r == InterpretProgram(prog, reg, fuel)
  {
    if MainFunctionId !in prog {
      return Err(NoMainFunction);
    }
    var mainFunc := prog[MainFunctionId];
    if mainFunc.Native? {
      return Err(NotAScriptFunction(MainFunctionId));
    }
    var val := RunFunction(mainFunc, [], prog, reg, fuel);
    if val.Err? {
      return Err(val.error);
    }
    return Ok(val.value.payload);
  }
}
