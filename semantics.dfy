/** What noir_interpreter.py does to a program, as functions of the state:
    each `execute_*` and `evaluate_*` handler is a function from a node and
    a state to an outcome and the state after it. Exceptions are results:
    a `RuntimeError` is `Fault`, a `ReturnValue` is `Returning`, an uncaught
    Python exception is `Crash`. A `fuel` bound is spent by every function
    call and by every loop iteration after the first; when it is exhausted
    the outcome is `OutOfFuel`.

    Every handler leaves the environment chain as long as it found it: the
    `finally` clauses of `execute_forloop` and of the function closure put
    `self.environment` back on every exit. */
module Semantics {
  import opened Common
  import opened Tokens
  import opened Types
  import opened Ast
  import opened Values
  import opened TypeChecker
  import opened Environment
  import opened Operators

  /** The result of evaluating or executing a node, with the state after it. */
  datatype Outcome<+T> = Outcome(result: Result<T, Signal>, st: State)

  /** The fuel left after one call or loop iteration. */
  function Spend(fuel: nat): (r: nat)
    requires fuel > 0
    ensures r < fuel
  {
    fuel - 1
  }

  /** The result of a statement that completed normally. */
  const Normal: Result<(), Signal> := Ok(())

  /** An abrupt outcome of one kind as an outcome of another. */
  function Abrupt<T, U>(o: Outcome<T>): Outcome<U>
    requires o.result.Err?
  {
    Outcome(Err(o.result.error), o.st)
  }

  /** Where a type checker TypeError is caught and raised again as a
      RuntimeError: with its own message (declarations, assignments and
      casts), or prefixed for an argument or a return value. */
  datatype CheckSite = Plain | InArgument | InReturn

  /** A type checker error raised again by the interpreter: its TypeError as
      the RuntimeError of the site that catches it, anything else as it is. */
  function Reraise<T>(r: Result<T, CheckError>, site: CheckSite): Result<T, Signal> {
    match r
    case Ok(v) => Ok(v)
    case Err(TypeError(reason)) =>
      Err(Fault(match site
        case Plain => Rejected(reason)
        case InArgument => ArgumentRejected(reason)
        case InReturn => ReturnRejected(reason)))
    case Err(Py(e)) => Err(Crash(e))
  }

  // ---------------------------------------------------------------------
  // Expressions

  /** `evaluate`. */
  function Eval(e: Expr, st: State, fuel: nat): (o: Outcome<Value>)
    requires |st.frames| > 0
    ensures SameScopes(st.frames, o.st.frames)
    decreases fuel, e, 1
  {
    match e
    case Literal(payload, kind) => Outcome(EvalLiteral(payload, kind), st)
    case Identifier(name) => Outcome(Lookup(st.frames, name), st)
    case BinaryOp(_, _, _) => EvalBinary(e, st, fuel)
    case UnaryOp(op, operand) =>
      var x := Eval(operand, st, fuel);
      if x.result.Err? then x else Outcome(ApplyUnary(op.kind, x.result.value), x.st)
    case FunctionCall(_, _) => EvalCall(e, st, fuel)
    case MethodCall(_, _, _) => Outcome(Err(Fault(UnknownExpression("MethodCall"))), st)
    case ArrayAccess(_, _) => Outcome(Err(Fault(UnknownExpression("ArrayAccess"))), st)
    case ArrayLiteral(elements) =>
      var xs := EvalList(elements, 0, [], st, fuel);
      if xs.result.Err? then Abrupt(xs) else Outcome(Ok(VList(xs.result.value)), xs.st)
    case TypeCast(operand, target) =>
      var x := Eval(operand, st, fuel);
      if x.result.Err? then x
      else
        var v := x.result.value;
        Outcome(Reraise(CastByName(v, GetTypeName(v), target.name), Plain), x.st)
    case Assign(name, rhs) =>
      var x := Eval(rhs, st, fuel);
      if x.result.Err? then x
      else match AssignIn(x.st.frames, name, x.result.value)
        case Err(s) => Outcome(Err(s), x.st)
        case Ok(frames) => Outcome(x.result, x.st.(frames := frames))
  }

  /** `evaluate_binaryop`: the left operand, then the right, then the operator. */
  function EvalBinary(e: Expr, st: State, fuel: nat): (o: Outcome<Value>)
    requires e.BinaryOp? && |st.frames| > 0
    ensures SameScopes(st.frames, o.st.frames)
    decreases fuel, e, 0
  {
    var l := Eval(e.left, st, fuel);
    if l.result.Err? then l
    else
      var r := Eval(e.right, l.st, fuel);
      if r.result.Err? then r
      else Outcome(ApplyBinary(e.op.kind, l.result.value, r.result.value), r.st)
  }

  /** Evaluating `es[i..]` left to right after the values `acc`, stopping at
      the first abrupt outcome (the argument list and array literal comprehensions). */
  function EvalList(es: seq<Expr>, i: nat, acc: seq<Value>, st: State, fuel: nat): (o: Outcome<seq<Value>>)
    requires i <= |es| && |st.frames| > 0
    ensures SameScopes(st.frames, o.st.frames)
    ensures o.result.Ok? ==> |o.result.value| == |acc| + |es| - i
    decreases fuel, es, |es| - i
  {
    if i == |es| then Outcome(Ok(acc), st)
    else
      var x := Eval(es[i], st, fuel);
      if x.result.Err? then Abrupt(x)
      else EvalList(es, i + 1, acc + [x.result.value], x.st, fuel)
  }

  /** `evaluate_functioncall`: look the callee up, evaluate the arguments,
      then call it: the built-in `print` records its arguments and gives
      None, a declared function runs, anything else cannot be called. */
  function EvalCall(e: Expr, st: State, fuel: nat): (o: Outcome<Value>)
    requires e.FunctionCall? && |st.frames| > 0
    ensures SameScopes(st.frames, o.st.frames)
    decreases fuel, e, 0
  {
    match Lookup(st.frames, e.callee)
    case Err(s) => Outcome(Err(s), st)
    case Ok(callee) =>
      var args := EvalList(e.arguments, 0, [], st, fuel);
      if args.result.Err? then Abrupt(args)
      else if callee.VBuiltinPrint? then Outcome(Ok(VNone), args.st.(output := args.st.output + [args.result.value]))
      else if callee.VFunc? then
        if fuel == 0 then Outcome(Err(OutOfFuel), args.st)
        else CallFunction(callee.decl, args.result.value, args.st, Spend(fuel))
      else Outcome(Err(Fault(NotCallable)), args.st)
  }

  /** The closure `execute_functiondecl` defines: check the argument count,
      bind the arguments in a new scope whose parent is the caller's current
      scope, run the body there, catch its `return`, check the returned
      value against the declared return type, and give the caller its
      scope back on every exit. */
  function CallFunction(decl: FunctionDecl, args: seq<Value>, st: State, fuel: nat): (o: Outcome<Value>)
    requires |st.frames| > 0
    ensures SameScopes(st.frames, o.st.frames)
    decreases fuel, decl
  {
    if |args| != |decl.params| then Outcome(Err(Fault(ArgumentCount(|decl.params|, |args|))), st)
    else match BindArguments(decl.params, args, 0, map[])
      case Err(s) => Outcome(Err(s), st)
      case Ok(scope) =>
        var body := ExecBlock(decl.body.statements, 0, st.(frames := st.frames + [scope]), fuel);
        CallerScopesKept(st.frames, scope, body.st.frames);
        Outcome(FunctionResult(decl, body.result), body.st.(frames := body.st.frames[..|st.frames|]))
  }

  /** Whatever a function body declares stays in its own scope: dropping
      that scope gives back the caller's scopes. */
  lemma CallerScopesKept(frames: seq<Frame>, scope: Frame, after: seq<Frame>)
    requires |frames| > 0 && OuterScopesKept(frames + [scope], after)
    ensures |after| == |frames| + 1 && SameScopes(frames, after[..|frames|])
  {
    assert (frames + [scope])[..|frames|] == frames;
    ShapePrefix(frames + [scope], |frames|);
    ShapePrefix(after, |frames|);
  }

  /** The parameter loop: each argument is validated against its
      parameter's type name and bound under the parameter's name. */
  function BindArguments(params: seq<FunctionParam>, args: seq<Value>, i: nat, scope: Frame): Result<Frame, Signal>
    requires |params| == |args| && i <= |params|
    decreases |params| - i
  {
    if i == |params| then Ok(scope)
    else
      var t := params[i].typeAnnotation.name;
      match Reraise(ValidateByName(t, args[i]), InArgument)
      case Err(s) => Err(s)
      case Ok(v) => BindArguments(params, args, i + 1, scope[params[i].name := Binding(v, t)])
  }

  /** One parameter of `BindArguments`: a refused argument ends the binding,
      an accepted one is bound under the parameter's name. */
  lemma BindStep(params: seq<FunctionParam>, args: seq<Value>, i: nat, scope: Frame, c: Result<Value, Signal>)
    requires |params| == |args| && i < |params|
    requires c == Reraise(ValidateByName(params[i].typeAnnotation.name, args[i]), InArgument)
    ensures c.Err? ==> BindArguments(params, args, i, scope) == Err(c.error)
    ensures c.Ok? ==>
      BindArguments(params, args, i, scope) ==
      BindArguments(params, args, i + 1, scope[params[i].name := Binding(c.value, params[i].typeAnnotation.name)])
  {
  }

  /** What the closure returns once its body has finished: the value of the
      `return` that ended it, None if the body ran to its end; with a
      declared return type, None is refused and any other value is checked. */
  function FunctionResult(decl: FunctionDecl, body: Result<(), Signal>): Result<Value, Signal> {
    var result := if body.Ok? then Ok(VNone) else if body.error.Returning? then Ok(body.error.value) else Err(body.error);
    if result.Err? || decl.returnType.None? then result
    else if result.value == VNone then Err(Fault(NoReturnValue))
    else Reraise(ValidateByName(decl.returnType.value.name, result.value), InReturn)
  }

  // ---------------------------------------------------------------------
  // Statements

  /** `execute`. */
  function Exec(s: Stmt, st: State, fuel: nat): (o: Outcome<()>)
    requires |st.frames| > 0
    ensures OuterScopesKept(st.frames, o.st.frames)
    decreases fuel, s, 3, 0
  {
    match s
    case VariableDecl(_, _, _) => ExecVariableDecl(s, st, fuel)
    case Assignment(target, value) =>
      var x := Eval(value, st, fuel);
      if x.result.Err? then Abrupt(x)
      else (match AssignIn(x.st.frames, target, x.result.value)
        case Err(sig) => Outcome(Err(sig), x.st)
        case Ok(frames) => Outcome(Normal, x.st.(frames := frames)))
    case BlockStmt(b) => ExecBlock(b.statements, 0, st, fuel)
    case IfStatement(_, _, _, _) => ExecIf(s, st, fuel)
    case ForLoop(_, _, _, _, _, _) => ExecFor(s, st, fuel)
    case WhileLoop(_, _) => WhileFrom(s, st, fuel)
    case FunctionDeclStmt(decl) => Outcome(Normal, st.(frames := DefineIn(st.frames, decl.name, VFunc(decl), "Function")))
    case ReturnStatement(value) =>
      if value.None? then Outcome(Err(Returning(VNone)), st)
      else
        var x := Eval(value.value, st, fuel);
        Outcome(Err(if x.result.Ok? then Returning(x.result.value) else x.result.error), x.st)
    case ExpressionStmt(expression) =>
      var x := Eval(expression, st, fuel);
      if x.result.Err? then Abrupt(x) else Outcome(Normal, x.st)
    case EnumDeclaration(_, _, _) => Outcome(Err(Fault(UnknownStatement("EnumDeclaration"))), st)
    case ProtocolDeclaration(_, _, _) => Outcome(Err(Fault(UnknownStatement("ProtocolDeclaration"))), st)
  }

  /** `execute_block`: the statements in order, in the current scope. */
  function ExecBlock(ss: seq<Stmt>, i: nat, st: State, fuel: nat): (o: Outcome<()>)
    requires i <= |ss| && |st.frames| > 0
    ensures OuterScopesKept(st.frames, o.st.frames)
    decreases fuel, ss, |ss| - i
  {
    if i == |ss| then Outcome(Normal, st)
    else
      var x := Exec(ss[i], st, fuel);
      if x.result.Err? then x else ExecBlock(ss, i + 1, x.st, fuel)
  }

  /** `execute_variabledecl`: evaluate and check the initializer (a cast is
      not checked again), then define the name in the current scope with the
      annotation's name as its type, unless the name is ":". */
  function ExecVariableDecl(s: Stmt, st: State, fuel: nat): (o: Outcome<()>)
    requires s.VariableDecl? && |st.frames| > 0
    ensures OuterScopesKept(st.frames, o.st.frames)
    decreases fuel, s, 2, 0
  {
    var init := if s.initializer.None? then Outcome(Ok(VNone), st) else InitialValue(s.initializer.value, s.typeAnnotation, st, fuel);
    if init.result.Err? then Abrupt(init)
    else if s.name == ":" then Outcome(Normal, init.st)
    else
      var frames := DefineIn(init.st.frames, s.name, init.result.value, s.typeAnnotation.name);
      KeptAfterSame(st.frames, init.st.frames, frames);
      Outcome(Normal, init.st.(frames := frames))
  }

  /** Scopes that only changed values, then a declaration in the current
      scope, keep the outer scopes. */
  lemma KeptAfterSame(before: seq<Frame>, mid: seq<Frame>, after: seq<Frame>)
    requires |before| > 0 && SameScopes(before, mid) && OuterScopesKept(mid, after)
    ensures OuterScopesKept(before, after)
  {
  }

  function InitialValue(x: Expr, ann: TypeAnnotation, st: State, fuel: nat): (o: Outcome<Value>)
    requires |st.frames| > 0
    ensures SameScopes(st.frames, o.st.frames)
    decreases fuel, x, 2
  {
    var v := Eval(x, st, fuel);
    if v.result.Err? || x.TypeCast? then v
    else
      var valueType := MakeAnnotation(GetTypeName(v.result.value), [], Primitive);
      Outcome(Reraise(ValidateAssignment(ann, v.result.value, valueType), Plain), v.st)
  }

  /** `execute_ifstatement`: the then-block when the condition is truthy,
      otherwise the elif branches. */
  function ExecIf(s: Stmt, st: State, fuel: nat): (o: Outcome<()>)
    requires s.IfStatement? && |st.frames| > 0
    ensures OuterScopesKept(st.frames, o.st.frames)
    decreases fuel, s, 2, 0
  {
    var c := Eval(s.condition, st, fuel);
    if c.result.Err? then Abrupt(c)
    else match Truthy(c.result.value)
      case Err(e) => Outcome(Err(Crash(e)), c.st)
      case Ok(true) => ExecBlock(s.thenBranch.statements, 0, c.st, fuel)
      case Ok(false) => ExecElifs(s, 0, c.st, fuel)
  }

  /** The elif loop from branch `i`: the body of the first branch whose
      condition is truthy, and then nothing more; the else block (if any)
      when none is. */
  function ExecElifs(s: Stmt, i: nat, st: State, fuel: nat): (o: Outcome<()>)
    requires s.IfStatement? && i <= |s.elifBranches| && |st.frames| > 0
    ensures OuterScopesKept(st.frames, o.st.frames)
    decreases fuel, s, 1, |s.elifBranches| - i
  {
    if i == |s.elifBranches| then
      if s.elseBranch.Some? then ExecBlock(s.elseBranch.value.statements, 0, st, fuel) else Outcome(Normal, st)
    else
      var c := Eval(s.elifBranches[i].condition, st, fuel);
      if c.result.Err? then Abrupt(c)
      else match Truthy(c.result.value)
        case Err(e) => Outcome(Err(Crash(e)), c.st)
        case Ok(true) => ExecBlock(s.elifBranches[i].body.statements, 0, c.st, fuel)
        case Ok(false) => ExecElifs(s, i + 1, c.st, fuel)
  }

  /** `execute_whileloop`, from one test of the condition on. */
  function WhileFrom(s: Stmt, st: State, fuel: nat): (o: Outcome<()>)
    requires s.WhileLoop? && |st.frames| > 0
    ensures OuterScopesKept(st.frames, o.st.frames)
    decreases fuel, s, 1, 0
  {
    var c := Eval(s.condition, st, fuel);
    if c.result.Err? then Abrupt(c)
    else match Truthy(c.result.value)
      case Err(e) => Outcome(Err(Crash(e)), c.st)
      case Ok(false) => Outcome(Normal, c.st)
      case Ok(true) =>
        var body := ExecBlock(s.body.statements, 0, c.st, fuel);
        if body.result.Err? then body
        else if fuel == 0 then Outcome(Err(OutOfFuel), body.st)
        else WhileFrom(s, body.st, Spend(fuel))
  }

  /** The bound an exclusive (`to`) range runs to: one less than the end
      for a positive step, one more otherwise. */
  function ExclusiveBound(end: Value, step: Value): Result<Value, Signal> {
    match PyCompare(Gt, step, VInt(0))
    case Err(e) => Err(Crash(e))
    case Ok(true) => Sub(end, VInt(1))
    case Ok(false) => Add(end, VInt(1))
  }

  /** The for-loop test: `i <= end` for a positive step, `i >= end` otherwise. */
  function KeepGoing(i: Value, end: Value, step: Value): Result<bool, Signal> {
    match PyCompare(Gt, step, VInt(0))
    case Err(e) => Err(Crash(e))
    case Ok(up) =>
      match PyCompare(if up then Le else Ge, i, end)
      case Err(e) => Err(Crash(e))
      case Ok(b) => Ok(b)
  }

  /** `execute_forloop`: start, end and step (1 when absent) are evaluated
      once, the end is adjusted for `to`, and the iterations run in one new
      scope holding the iterator as an Int; that scope is dropped on every
      exit. */
  function ExecFor(s: Stmt, st: State, fuel: nat): (o: Outcome<()>)
    requires s.ForLoop? && |st.frames| > 0
    ensures SameScopes(st.frames, o.st.frames)
    decreases fuel, s, 2, 0
  {
    var start := Eval(s.start, st, fuel);
    if start.result.Err? then Abrupt(start)
    else
      var end := Eval(s.end, start.st, fuel);
      if end.result.Err? then Abrupt(end)
      else
        var step := if s.step.None? then Outcome(Ok(VInt(1)), end.st) else Eval(s.step.value, end.st, fuel);
        if step.result.Err? then Abrupt(step)
        else
          var bound := if s.isInclusive then Ok(end.result.value) else ExclusiveBound(end.result.value, step.result.value);
          if bound.Err? then Outcome(Err(bound.error), step.st)
          else ForScope(s, start.result.value, bound.value, step.result.value, step.st, fuel)
  }

  /** The iterations of a for-loop in a new scope holding the iterator as
      an Int, which is dropped again however they end. */
  function ForScope(s: Stmt, start: Value, end: Value, step: Value, st: State, fuel: nat): (o: Outcome<()>)
    requires s.ForLoop? && |st.frames| > 0
    ensures SameScopes(st.frames, o.st.frames)
    decreases fuel, s, 1, 1
  {
    var n := |st.frames|;
    var loopScope := st.(frames := DefineIn(st.frames + [map[]], s.iteratorName, start, "Int"));
    var run := ForFrom(s, start, end, step, loopScope, fuel);
    assert loopScope.frames[..n] == st.frames;
    ShapePrefix(loopScope.frames, n);
    ShapePrefix(run.st.frames, n);
    Outcome(run.result, run.st.(frames := run.st.frames[..n]))
  }

  /** The for-loop's iterations from iterator value `i`: assign `i` to the
      iterator, run the body, add the step. */
  function ForFrom(s: Stmt, i: Value, end: Value, step: Value, st: State, fuel: nat): (o: Outcome<()>)
    requires s.ForLoop? && |st.frames| > 0
    ensures OuterScopesKept(st.frames, o.st.frames)
    decreases fuel, s, 1, 0
  {
    match KeepGoing(i, end, step)
    case Err(e) => Outcome(Err(e), st)
    case Ok(false) => Outcome(Normal, st)
    case Ok(true) =>
      match AssignIn(st.frames, s.iteratorName, i)
      case Err(e) => Outcome(Err(e), st)
      case Ok(frames) =>
        var body := ExecBlock(s.body.statements, 0, st.(frames := frames), fuel);
        if body.result.Err? then body
        else match Add(i, step)
          case Err(e) => Outcome(Err(e), body.st)
          case Ok(next) =>
            if fuel == 0 then Outcome(Err(OutOfFuel), body.st)
            else ForFrom(s, next, end, step, body.st, Spend(fuel))
  }

  // ---------------------------------------------------------------------
  // Programs

  /** How `interpret` ends: every statement ran, or a RuntimeError was
      reported and the remaining statements skipped, or some other exception
      escaped it (a top-level `return` among them). */
  datatype Report = Finished | Reported(fault: RuntimeFault) | Escaped(signal: Signal)

  /** The state `Interpreter()` starts from. */
  const Initial: State := State([Prelude], [])

  /** `interpret` from statement `i` on. */
  function InterpretFrom(ss: seq<Stmt>, i: nat, st: State, fuel: nat): (r: (Report, State))
    requires i <= |ss| && |st.frames| > 0
    ensures |r.1.frames| == |st.frames|
    decreases |ss| - i
  {
    if i == |ss| then (Finished, st)
    else
      var x := Exec(ss[i], st, fuel);
      if x.result.Ok? then InterpretFrom(ss, i + 1, x.st, fuel)
      else if x.result.error.Fault? then (Reported(x.result.error.fault), x.st)
      else (Escaped(x.result.error), x.st)
  }
}
