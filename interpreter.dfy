/** The `Interpreter` of noir_interpreter.py as an object whose state
    changes: `frames` is `self.environment` with its ancestors (outermost
    first), which `define` and `assign` update in place and which a for-loop
    or a call extends and cuts back; `output` is what the built-in `print`
    has been given. Every handler is proved to do exactly what its function
    in `Semantics` describes. */
module Interpreter {
  import opened Common
  import opened Tokens
  import opened Types
  import opened Ast
  import opened Values
  import opened TypeChecker
  import opened Environment
  import opened Operators
  import opened Semantics

  class Interpreter {
    var frames: seq<Frame>
    var output: seq<seq<Value>>

    function Snapshot(): State
      reads this
    {
      State(frames, output)
    }

    /** `Interpreter()`: one scope, holding the built-in `print`. */
    constructor ()
      ensures Snapshot() == Initial
    {
      frames := [map[]];
      output := [];
      new;
      Define("print", VBuiltinPrint, "Function");
    }

    // -------------------------------------------------------------------
    // Environment

    /** `define` on the current scope. */
    method Define(name: string, v: Value, typeName: string)
      requires |frames| > 0
      modifies this
      ensures frames == DefineIn(old(frames), name, v, typeName) && output == old(output)
    {
      var n := |frames|;
      frames := frames[n - 1 := frames[n - 1][name := Binding(v, typeName)]];
      assert frames == old(frames)[..n - 1] + [old(frames)[n - 1][name := Binding(v, typeName)]];
    }

    /** `assign`: resolve, check against the recorded type, store. */
    method AssignExisting(name: string, v: Value) returns (r: Result<(), Signal>)
      modifies this
      ensures AssignIn(old(frames), name, v).Ok? ==> r == Normal && frames == AssignIn(old(frames), name, v).value
      ensures AssignIn(old(frames), name, v).Err? ==> r == Err(AssignIn(old(frames), name, v).error) && frames == old(frames)
      ensures output == old(output)
    {
      var k := Resolve(frames, name);
      if k.None? {
        return Err(Fault(UndefinedVariable(name)));
      }
      var t := frames[k.value][name].typeName;
      var checked := CheckAgainst(t, v);
      if checked.Err? {
        return Err(checked.error);
      }
      frames := frames[k.value := frames[k.value][name := Binding(checked.value, t)]];
      r := Normal;
    }

    /** `get`. */
    method Get(name: string) returns (r: Result<Value, Signal>)
      ensures r == Lookup(frames, name)
    {
      var k := Resolve(frames, name);
      if k.None? {
        return Err(Fault(UndefinedVariable(name)));
      }
      r := Ok(frames[k.value][name].value);
    }

    /** `get_type`. */
    method GetType(name: string) returns (r: Result<string, Signal>)
      ensures r == TypeOf(frames, name)
    {
      var k := Resolve(frames, name);
      if k.None? {
        return Err(Fault(UndefinedVariable(name)));
      }
      r := Ok(frames[k.value][name].typeName);
    }

    /** `evaluate_identifier`: walk from the current scope outwards to the
        first one that binds the name. */
    method EvaluateIdentifier(name: string) returns (r: Result<Value, Signal>)
      ensures r == Lookup(frames, name)
    {
      var k := |frames|;
      while k > 0
        invariant 0 <= k <= |frames|
        invariant forall j :: k <= j < |frames| ==> name !in frames[j]
      {
        if name in frames[k - 1] {
          return Ok(frames[k - 1][name].value);
        }
        k := k - 1;
      }
      return Err(Fault(UndefinedVariable(name)));
    }

    // -------------------------------------------------------------------
    // Expressions

    /** `evaluate`. */
    method Evaluate(e: Expr, fuel: nat) returns (r: Result<Value, Signal>)
      requires |frames| > 0
      modifies this
      ensures Outcome(r, Snapshot()) == Eval(e, old(Snapshot()), fuel)
      decreases fuel, e, 1
    {
      match e
      case Literal(payload, kind) =>
        r := EvalLiteral(payload, kind);
      case Identifier(name) =>
        r := EvaluateIdentifier(name);
      case BinaryOp(_, _, _) =>
        r := EvaluateBinary(e, fuel);
      case UnaryOp(_, _) =>
        r := EvaluateUnary(e, fuel);
      case FunctionCall(_, _) =>
        r := EvaluateCall(e, fuel);
      case MethodCall(_, _, _) =>
        r := Err(Fault(UnknownExpression("MethodCall")));
      case ArrayAccess(_, _) =>
        r := Err(Fault(UnknownExpression("ArrayAccess")));
      case ArrayLiteral(elements) =>
        var xs := EvaluateList(elements, fuel);
        r := if xs.Ok? then Ok(VList(xs.value)) else Err(xs.error);
      case TypeCast(_, _) =>
        r := EvaluateTypeCast(e, fuel);
      case Assign(_, _) =>
        r := EvaluateAssignment(e, fuel);
    }

    /** `evaluate_binaryop`. */
    method EvaluateBinary(e: Expr, fuel: nat) returns (r: Result<Value, Signal>)
      requires e.BinaryOp? && |frames| > 0
      modifies this
      ensures Outcome(r, Snapshot()) == EvalBinary(e, old(Snapshot()), fuel)
      decreases fuel, e, 0
    {
      var left := Evaluate(e.left, fuel);
      if left.Err? {
        return left;
      }
      var right := Evaluate(e.right, fuel);
      if right.Err? {
        return right;
      }
      r := ApplyBinary(e.op.kind, left.value, right.value);
    }

    /** `evaluate_unaryop`. */
    method EvaluateUnary(e: Expr, fuel: nat) returns (r: Result<Value, Signal>)
      requires e.UnaryOp? && |frames| > 0
      modifies this
      ensures Outcome(r, Snapshot()) == Eval(e, old(Snapshot()), fuel)
      decreases fuel, e, 0
    {
      var operand := Evaluate(e.operand, fuel);
      if operand.Err? {
        return operand;
      }
      r := ApplyUnary(e.op.kind, operand.value);
    }

    /** The list comprehensions over argument and element expressions. */
    method EvaluateList(es: seq<Expr>, fuel: nat) returns (r: Result<seq<Value>, Signal>)
      requires |frames| > 0
      modifies this
      ensures Outcome(r, Snapshot()) == EvalList(es, 0, [], old(Snapshot()), fuel)
      decreases fuel, es
    {
      var acc := [];
      var i := 0;
      while i < |es|
        invariant i <= |es| && |frames| > 0
        invariant EvalList(es, 0, [], old(Snapshot()), fuel) == EvalList(es, i, acc, Snapshot(), fuel)
      {
        var x := Evaluate(es[i], fuel);
        if x.Err? {
          return Err(x.error);
        }
        acc := acc + [x.value];
        i := i + 1;
      }
      r := Ok(acc);
    }

    /** `evaluate_functioncall`. */
    method EvaluateCall(e: Expr, fuel: nat) returns (r: Result<Value, Signal>)
      requires e.FunctionCall? && |frames| > 0
      modifies this
      ensures Outcome(r, Snapshot()) == EvalCall(e, old(Snapshot()), fuel)
      decreases fuel, e, 0
    {
      var callee := Get(e.callee);
      if callee.Err? {
        return Err(callee.error);
      }
      var args := EvaluateList(e.arguments, fuel);
      if args.Err? {
        return Err(args.error);
      }
      if callee.value.VBuiltinPrint? {
        output := output + [args.value];
        r := Ok(VNone);
      } else if callee.value.VFunc? {
        if fuel == 0 {
          r := Err(OutOfFuel);
        } else {
          r := Call(callee.value.decl, args.value, Spend(fuel));
        }
      } else {
        r := Err(Fault(NotCallable));
      }
    }

    /** The closure a function declaration defines, applied to `args`. */
    method Call(decl: FunctionDecl, args: seq<Value>, fuel: nat) returns (r: Result<Value, Signal>)
      requires |frames| > 0
      modifies this
      ensures Outcome(r, Snapshot()) == CallFunction(decl, args, old(Snapshot()), fuel)
      decreases fuel, decl
    {
      if |args| != |decl.params| {
        return Err(Fault(ArgumentCount(|decl.params|, |args|)));
      }
      var scope := BindParameters(decl.params, args);
      if scope.Err? {
        return Err(scope.error);
      }
      var previous := |frames|;
      frames := frames + [scope.value];
      var body := ExecuteBlock(decl.body.statements, fuel);
      frames := frames[..previous];
      r := FunctionResult(decl, body);
    }

    /** The parameter loop of the closure, building the new scope. */
    method BindParameters(params: seq<FunctionParam>, args: seq<Value>) returns (r: Result<Frame, Signal>)
      requires |params| == |args|
      ensures r == BindArguments(params, args, 0, map[])
    {
      var scope: Frame := map[];
      var i := 0;
      while i < |params|
        invariant i <= |params|
        invariant BindArguments(params, args, 0, map[]) == BindArguments(params, args, i, scope)
      {
        var t := params[i].typeAnnotation.name;
        var converted := Reraise(ValidateByName(t, args[i]), InArgument);
        BindStep(params, args, i, scope, converted);
        if converted.Err? {
          return Err(converted.error);
        }
        scope := scope[params[i].name := Binding(converted.value, t)];
        i := i + 1;
      }
      r := Ok(scope);
    }

    /** `evaluate_typecast`. */
    method EvaluateTypeCast(e: Expr, fuel: nat) returns (r: Result<Value, Signal>)
      requires e.TypeCast? && |frames| > 0
      modifies this
      ensures Outcome(r, Snapshot()) == Eval(e, old(Snapshot()), fuel)
      decreases fuel, e, 0
    {
      var x := Evaluate(e.expr, fuel);
      if x.Err? {
        return x;
      }
      r := Reraise(CastByName(x.value, GetTypeName(x.value), e.targetType.name), Plain);
    }

    /** `evaluate_assignment`: the value assigned is the expression's value. */
    method EvaluateAssignment(e: Expr, fuel: nat) returns (r: Result<Value, Signal>)
      requires e.Assign? && |frames| > 0
      modifies this
      ensures Outcome(r, Snapshot()) == Eval(e, old(Snapshot()), fuel)
      decreases fuel, e, 0
    {
      var x := Evaluate(e.rhs, fuel);
      if x.Err? {
        return x;
      }
      var stored := AssignExisting(e.assignee, x.value);
      if stored.Err? {
        return Err(stored.error);
      }
      r := x;
    }

    // -------------------------------------------------------------------
    // Statements

    /** `execute`. */
    method Execute(s: Stmt, fuel: nat) returns (r: Result<(), Signal>)
      requires |frames| > 0
      modifies this
      ensures Outcome(r, Snapshot()) == Exec(s, old(Snapshot()), fuel)
      decreases fuel, s, 3
    {
      match s
      case VariableDecl(_, _, _) =>
        r := ExecuteVariableDecl(s, fuel);
      case Assignment(_, _) =>
        r := ExecuteAssignment(s, fuel);
      case BlockStmt(b) =>
        r := ExecuteBlock(b.statements, fuel);
      case IfStatement(_, _, _, _) =>
        r := ExecuteIf(s, fuel);
      case ForLoop(_, _, _, _, _, _) =>
        r := ExecuteFor(s, fuel);
      case WhileLoop(_, _) =>
        r := ExecuteWhile(s, fuel);
      case FunctionDeclStmt(decl) =>
        Define(decl.name, VFunc(decl), "Function");
        r := Normal;
      case ReturnStatement(_) =>
        r := ExecuteReturn(s, fuel);
      case ExpressionStmt(expression) =>
        var x := Evaluate(expression, fuel);
        r := if x.Err? then Err(x.error) else Normal;
      case EnumDeclaration(_, _, _) =>
        r := Err(Fault(UnknownStatement("EnumDeclaration")));
      case ProtocolDeclaration(_, _, _) =>
        r := Err(Fault(UnknownStatement("ProtocolDeclaration")));
    }

    /** `execute_block`: the statements in order, in the current scope. */
    method ExecuteBlock(ss: seq<Stmt>, fuel: nat) returns (r: Result<(), Signal>)
      requires |frames| > 0
      modifies this
      ensures Outcome(r, Snapshot()) == ExecBlock(ss, 0, old(Snapshot()), fuel)
      decreases fuel, ss, 0
    {
      var i := 0;
      while i < |ss|
        invariant i <= |ss| && |frames| > 0
        invariant ExecBlock(ss, 0, old(Snapshot()), fuel) == ExecBlock(ss, i, Snapshot(), fuel)
      {
        var x := Execute(ss[i], fuel);
        if x.Err? {
          return x;
        }
        i := i + 1;
      }
      r := Normal;
    }

    /** `execute_variabledecl`. */
    method ExecuteVariableDecl(s: Stmt, fuel: nat) returns (r: Result<(), Signal>)
      requires s.VariableDecl? && |frames| > 0
      modifies this
      ensures Outcome(r, Snapshot()) == ExecVariableDecl(s, old(Snapshot()), fuel)
      decreases fuel, s, 2
    {
      var value := VNone;
      if s.initializer.Some? {
        var x := Evaluate(s.initializer.value, fuel);
        if x.Err? {
          return Err(x.error);
        }
        value := x.value;
        if !s.initializer.value.TypeCast? {
          var valueType := MakeAnnotation(GetTypeName(value), [], Primitive);
          var checked := Reraise(ValidateAssignment(s.typeAnnotation, value, valueType), Plain);
          if checked.Err? {
            return Err(checked.error);
          }
          value := checked.value;
        }
      }
      if s.name != ":" {
        Define(s.name, value, s.typeAnnotation.name);
      }
      r := Normal;
    }

    /** `execute_assignment`. */
    method ExecuteAssignment(s: Stmt, fuel: nat) returns (r: Result<(), Signal>)
      requires s.Assignment? && |frames| > 0
      modifies this
      ensures Outcome(r, Snapshot()) == Exec(s, old(Snapshot()), fuel)
      decreases fuel, s, 2
    {
      var x := Evaluate(s.value, fuel);
      if x.Err? {
        return Err(x.error);
      }
      r := AssignExisting(s.target, x.value);
    }

    /** `execute_returnstatement`: raise the value (None without one). */
    method ExecuteReturn(s: Stmt, fuel: nat) returns (r: Result<(), Signal>)
      requires s.ReturnStatement? && |frames| > 0
      modifies this
      ensures Outcome(r, Snapshot()) == Exec(s, old(Snapshot()), fuel)
      decreases fuel, s, 2
    {
      var value := VNone;
      if s.result.Some? {
        var x := Evaluate(s.result.value, fuel);
        if x.Err? {
          return Err(x.error);
        }
        value := x.value;
      }
      r := Err(Returning(value));
    }

    /** `execute_ifstatement`. */
    method ExecuteIf(s: Stmt, fuel: nat) returns (r: Result<(), Signal>)
      requires s.IfStatement? && |frames| > 0
      modifies this
      ensures Outcome(r, Snapshot()) == ExecIf(s, old(Snapshot()), fuel)
      decreases fuel, s, 2
    {
      var c := Evaluate(s.condition, fuel);
      if c.Err? {
        return Err(c.error);
      }
      var truth := Truthy(c.value);
      if truth.Err? {
        return Err(Crash(truth.error));
      }
      if truth.value {
        r := ExecuteBlock(s.thenBranch.statements, fuel);
        return;
      }
      r := ExecuteElifs(s, fuel);
    }

    /** The elif loop of `execute_ifstatement`, then the else block. */
    method ExecuteElifs(s: Stmt, fuel: nat) returns (r: Result<(), Signal>)
      requires s.IfStatement? && |frames| > 0
      modifies this
      ensures Outcome(r, Snapshot()) == ExecElifs(s, 0, old(Snapshot()), fuel)
      decreases fuel, s, 1
    {
      var i := 0;
      while i < |s.elifBranches|
        invariant i <= |s.elifBranches| && |frames| > 0
        invariant ExecElifs(s, 0, old(Snapshot()), fuel) == ExecElifs(s, i, Snapshot(), fuel)
      {
        var c := Evaluate(s.elifBranches[i].condition, fuel);
        if c.Err? {
          return Err(c.error);
        }
        var truth := Truthy(c.value);
        if truth.Err? {
          return Err(Crash(truth.error));
        }
        if truth.value {
          r := ExecuteBlock(s.elifBranches[i].body.statements, fuel);
          return;
        }
        i := i + 1;
      }
      if s.elseBranch.Some? {
        r := ExecuteBlock(s.elseBranch.value.statements, fuel);
      } else {
        r := Normal;
      }
    }

    /** `execute_whileloop`. */
    method ExecuteWhile(s: Stmt, fuel: nat) returns (r: Result<(), Signal>)
      requires s.WhileLoop? && |frames| > 0
      modifies this
      ensures Outcome(r, Snapshot()) == WhileFrom(s, old(Snapshot()), fuel)
      decreases fuel, s, 2
    {
      var f: nat := fuel;
      while true
        invariant f <= fuel && |frames| > 0
        invariant WhileFrom(s, old(Snapshot()), fuel) == WhileFrom(s, Snapshot(), f)
        decreases f
      {
        var c := Evaluate(s.condition, f);
        if c.Err? {
          return Err(c.error);
        }
        var truth := Truthy(c.value);
        if truth.Err? {
          return Err(Crash(truth.error));
        }
        if !truth.value {
          return Normal;
        }
        r := ExecuteBlock(s.body.statements, f);
        if r.Err? {
          return;
        }
        if f == 0 {
          return Err(OutOfFuel);
        }
        f := Spend(f);
      }
    }

    /** `execute_forloop`: evaluate the range once, run the iterations in a
        new scope, and drop that scope on every exit. */
    method ExecuteFor(s: Stmt, fuel: nat) returns (r: Result<(), Signal>)
      requires s.ForLoop? && |frames| > 0
      modifies this
      ensures Outcome(r, Snapshot()) == ExecFor(s, old(Snapshot()), fuel)
      decreases fuel, s, 2
    {
      var start := Evaluate(s.start, fuel);
      if start.Err? {
        return Err(start.error);
      }
      var end := Evaluate(s.end, fuel);
      if end.Err? {
        return Err(end.error);
      }
      var step := Ok(VInt(1));
      if s.step.Some? {
        step := Evaluate(s.step.value, fuel);
        if step.Err? {
          return Err(step.error);
        }
      }
      var bound := if s.isInclusive then Ok(end.value) else ExclusiveBound(end.value, step.value);
      if bound.Err? {
        return Err(bound.error);
      }
      r := IterateInScope(s, start.value, bound.value, step.value, fuel);
    }

    /** The iterations in a new scope holding the iterator, which the
        `finally` drops again. */
    method IterateInScope(s: Stmt, start: Value, end: Value, step: Value, fuel: nat) returns (r: Result<(), Signal>)
      requires s.ForLoop? && |frames| > 0
      modifies this
      ensures Outcome(r, Snapshot()) == ForScope(s, start, end, step, old(Snapshot()), fuel)
      decreases fuel, s, 1, 1
    {
      var previous := |frames|;
      frames := frames + [map[]];
      Define(s.iteratorName, start, "Int");
      r := Iterate(s, start, end, step, fuel);
      frames := frames[..previous];
    }

    /** The while-loop inside `execute_forloop`. */
    method Iterate(s: Stmt, start: Value, end: Value, step: Value, fuel: nat) returns (r: Result<(), Signal>)
      requires s.ForLoop? && |frames| > 0
      modifies this
      ensures Outcome(r, Snapshot()) == ForFrom(s, start, end, step, old(Snapshot()), fuel)
      decreases fuel, s, 1, 0
    {
      var i := start;
      var f: nat := fuel;
      while true
        invariant f <= fuel && |frames| > 0
        invariant ForFrom(s, start, end, step, old(Snapshot()), fuel) == ForFrom(s, i, end, step, Snapshot(), f)
        decreases f
      {
        var go := KeepGoing(i, end, step);
        if go.Err? {
          return Err(go.error);
        }
        if !go.value {
          return Normal;
        }
        r := AssignExisting(s.iteratorName, i);
        if r.Err? {
          return;
        }
        r := ExecuteBlock(s.body.statements, f);
        if r.Err? {
          return;
        }
        var next := Add(i, step);
        if next.Err? {
          return Err(next.error);
        }
        if f == 0 {
          return Err(OutOfFuel);
        }
        i, f := next.value, Spend(f);
      }
    }

    // -------------------------------------------------------------------
    // Programs

    /** `interpret`: the statements in order until one raises; a
        RuntimeError is reported and ends the run, anything else escapes. */
    method Interpret(statements: seq<Stmt>, fuel: nat) returns (report: Report)
      requires |frames| > 0
      modifies this
      ensures (report, Snapshot()) == InterpretFrom(statements, 0, old(Snapshot()), fuel)
    {
      var i := 0;
      while i < |statements|
        invariant i <= |statements| && |frames| > 0
        invariant InterpretFrom(statements, 0, old(Snapshot()), fuel) == InterpretFrom(statements, i, Snapshot(), fuel)
      {
        var x := Execute(statements[i], fuel);
        if x.Err? {
          return if x.error.Fault? then Reported(x.error.fault) else Escaped(x.error);
        }
        i := i + 1;
      }
      report := Finished;
    }
  }
}
