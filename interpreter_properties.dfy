/** What the interpreter's semantics promise about whole statements and
    programs: the range a for-loop runs over, the scope it runs in, which
    branch of an if-statement runs, how a call finds its variables and how
    a `return` or an error ends the statements after it. */
module InterpreterProperties {
  import opened Common
  import opened Tokens
  import opened Types
  import opened Ast
  import opened Values
  import opened TypeChecker
  import opened Environment
  import opened Operators
  import opened Semantics

  // ---------------------------------------------------------------------
  // For-loop ranges

  /** With integers, `to` stops one short of the end in the direction of
      the step, the loop goes on while the iterator has not passed the
      end (`i <= end` for a positive step, `i >= end` otherwise), and the
      next iterator value is `i + step`. */
  lemma IntegerRange(i: int, end: int, step: int)
    ensures ExclusiveBound(VInt(end), VInt(step)) == Ok(VInt(if step > 0 then end - 1 else end + 1))
    ensures KeepGoing(VInt(i), VInt(end), VInt(step)) == Ok(if step > 0 then i <= end else i >= end)
    ensures Add(VInt(i), VInt(step)) == Ok(VInt(i + step))
  {
  }

  /** The loop test on integers: the iterator has not passed the end in
      the direction of the step. */
  predicate InRange(i: int, end: int, step: int) {
    if step > 0 then i <= end else i >= end
  }

  /** How many iterator values are left; zero once the range is passed. */
  function Remaining(i: int, end: int, step: int): nat {
    if !InRange(i, end, step) then 0 else if step > 0 then end - i + 1 else i - end + 1
  }

  /** The iterator values `i, i + step, ...` as far as `end`: upwards for a
      positive step, downwards otherwise. A zero step inside the range
      never ends, so it is excluded. */
  function RangeFrom(i: int, end: int, step: int): (r: seq<int>)
    requires step != 0 || !InRange(i, end, step)
    ensures r == [] <==> !InRange(i, end, step)
    ensures r != [] ==> r[0] == i
    decreases Remaining(i, end, step)
  {
    if !InRange(i, end, step) then [] else [i] + RangeFrom(i + step, end, step)
  }

  /** Within the range, the values from `i` are `i` and then those from `i + step`. */
  lemma RangeFromStep(i: int, end: int, step: int)
    requires step != 0 && InRange(i, end, step)
    ensures |RangeFrom(i, end, step)| == 1 + |RangeFrom(i + step, end, step)|
  {
  }

  /** The `j`-th iterator value is `i + j * step` and lies between `i` and
      `end`, and every value on that progression that has not passed `end`
      is one of them. */
  lemma {:induction false} RangeFromValues(i: int, end: int, step: int)
    requires step != 0 || !InRange(i, end, step)
    ensures forall j :: 0 <= j < |RangeFrom(i, end, step)| ==> RangeFrom(i, end, step)[j] == i + j * step
    ensures forall j :: 0 <= j < |RangeFrom(i, end, step)| ==>
      if step > 0 then i <= RangeFrom(i, end, step)[j] <= end else end <= RangeFrom(i, end, step)[j] <= i
    ensures forall j: nat :: InRange(i + j * step, end, step) ==> j < |RangeFrom(i, end, step)|
    decreases Remaining(i, end, step)
  {
    if InRange(i, end, step) {
      var r := RangeFrom(i, end, step);
      RangeFromValues(i + step, end, step);
      forall j | 0 < j < |r|
        ensures r[j] == i + j * step
      {
        assert r[j] == RangeFrom(i + step, end, step)[j - 1];
        assert (i + step) + (j - 1) * step == i + j * step;
      }
      forall j | 0 <= j < |r|
        ensures if step > 0 then i <= r[j] <= end else end <= r[j] <= i
      {
        if j > 0 {
          assert r[j] == RangeFrom(i + step, end, step)[j - 1];
        }
      }
      forall j: nat | InRange(i + j * step, end, step)
        ensures j < |r|
      {
        if j > 0 {
          assert (i + step) + (j - 1) * step == i + j * step;
        }
      }
    }
  }

  /** The argument lists `print(i)` is given for each value in turn. */
  function Printed(xs: seq<int>): (r: seq<seq<Value>>)
    ensures |r| == |xs|
  {
    if xs == [] then [] else [[VInt(xs[0])]] + Printed(xs[1..])
  }

  /** The `j`-th argument list is `[xs[j]]`. */
  lemma {:induction false} PrintedValues(xs: seq<int>)
    ensures forall j :: 0 <= j < |xs| ==> Printed(xs)[j] == [VInt(xs[j])]
  {
    if xs != [] {
      PrintedValues(xs[1..]);
      forall j | 0 < j < |xs|
        ensures Printed(xs)[j] == [VInt(xs[j])]
      {
        assert Printed(xs)[j] == Printed(xs[1..])[j - 1];
      }
    }
  }

  /** Printing `x` and then `rest` gives `[x]` and then the lists for `rest`. */
  lemma PrintedCons(x: int, rest: seq<int>)
    ensures Printed([x] + rest) == [[VInt(x)]] + Printed(rest)
  {
    assert ([x] + rest)[1..] == rest;
  }

  /** The statement `print(name)`. */
  function PrintOf(name: string): Stmt {
    ExpressionStmt(FunctionCall("print", [Expr.Identifier(name)]))
  }

  /** The argument list `(name)` evaluates to the name's value and changes nothing. */
  lemma NameArgument(name: string, v: Value, st: State, fuel: nat)
    requires |st.frames| > 0 && Lookup(st.frames, name) == Ok(v)
    ensures EvalList([Expr.Identifier(name)], 0, [], st, fuel) == Outcome(Ok([v]), st)
  {
    var args := [Expr.Identifier(name)];
    var none: seq<Value> := [];
    assert none + [v] == [v];
    assert Eval(args[0], st, fuel) == Outcome(Ok(v), st);
    assert EvalList(args, 1, [v], st, fuel) == Outcome(Ok([v]), st);
  }

  /** `print(name)` gives the built-in the name's value and changes nothing else. */
  lemma PrintStep(name: string, v: Value, st: State, fuel: nat)
    requires |st.frames| > 0 && Lookup(st.frames, name) == Ok(v) && Lookup(st.frames, "print") == Ok(VBuiltinPrint)
    ensures ExecBlock([PrintOf(name)], 0, st, fuel) == Outcome(Normal, st.(output := st.output + [[v]]))
  {
    var args := [Expr.Identifier(name)];
    NameArgument(name, v, st, fuel);
    var after := st.(output := st.output + [[v]]);
    assert Eval(FunctionCall("print", args), st, fuel) == Outcome(Ok(VNone), after);
    assert Exec(PrintOf(name), st, fuel) == Outcome(Normal, after);
  }

  /** Assigning an integer to an Int iterator bound in the current scope
      stores it there as it is, and `print` still reads as the built-in. */
  lemma StoreIterator(chain: seq<Frame>, name: string, i: int)
    requires |chain| > 0 && name != "print" && Lookup(chain, "print") == Ok(VBuiltinPrint)
    requires name in chain[|chain| - 1] && chain[|chain| - 1][name].typeName == "Int"
    ensures var n := |chain|; var after := chain[n - 1 := chain[n - 1][name := Binding(VInt(i), "Int")]];
      AssignIn(chain, name, VInt(i)) == Ok(after) &&
      Lookup(after, name) == Ok(VInt(i)) && Lookup(after, "print") == Ok(VBuiltinPrint)
  {
    var n := |chain|;
    assert Resolve(chain, name) == Some(n - 1);
    AssignSameType(chain, name, VInt(i));
    AssignUpdatesResolvedScope(chain, name, VInt(i));
    AssignKeepsOthers(chain, name, VInt(i), "print");
  }

  /** One iteration of a for-loop that completes normally: the loop goes on
      from the next iterator value, in the state the body left, with one
      unit of fuel less. */
  lemma ForStep(s: Stmt, i: Value, end: Value, step: Value, st: State, fuel: nat, frames: seq<Frame>, st2: State, next: Value)
    requires s.ForLoop? && |st.frames| > 0 && |frames| > 0 && fuel > 0
    requires KeepGoing(i, end, step) == Ok(true) && AssignIn(st.frames, s.iteratorName, i) == Ok(frames)
    requires ExecBlock(s.body.statements, 0, st.(frames := frames), fuel) == Outcome(Normal, st2)
    requires Add(i, step) == Ok(next)
    ensures |st2.frames| > 0
    ensures ForFrom(s, i, end, step, st, fuel) == ForFrom(s, next, end, step, st2, Spend(fuel))
  {
  }

  /** A for-loop whose body is `print(i)`, over a state where the iterator is
      an Int of the current scope and `print` reads as the built-in. */
  ghost predicate PrintingSetup(s: Stmt, st: State)
  {
    s.ForLoop? && s.iteratorName != "print" &&
    |st.frames| > 0 && Lookup(st.frames, "print") == Ok(VBuiltinPrint) &&
    s.iteratorName in st.frames[|st.frames| - 1] && st.frames[|st.frames| - 1][s.iteratorName].typeName == "Int"
  }

  /** The state after one printing iteration with iterator value `i`: the
      iterator holds `i` and `print` has been given `[i]`. */
  function AfterPrint(name: string, i: int, st: State): State {
    var n := |st.frames|;
    if n == 0 then st
    else State(st.frames[n - 1 := st.frames[n - 1][name := Binding(VInt(i), "Int")]], st.output + [[VInt(i)]])
  }

  /** One printing iteration keeps the setup. */
  lemma AfterPrintKeepsSetup(s: Stmt, i: int, st: State)
    requires PrintingSetup(s, st)
    ensures PrintingSetup(s, AfterPrint(s.iteratorName, i, st))
  {
    var n := |st.frames|;
    var name := s.iteratorName;
    var after: seq<Frame> := st.frames[n - 1 := st.frames[n - 1][name := Binding(VInt(i), "Int")]];
    assert AfterPrint(name, i, st).frames == after;
    ResolveAfterChange(st.frames, after, n - 1, "print");
    var k := Resolve(st.frames, "print").value;
    assert after[k]["print"] == st.frames[k]["print"];
  }

  /** One printing iteration prints `[i]` and keeps the outer scopes. */
  lemma AfterPrintKeepsScopes(name: string, i: int, st: State)
    requires |st.frames| > 0
    ensures var r := AfterPrint(name, i, st);
      r.output == st.output + [[VInt(i)]] &&
      |r.frames| == |st.frames| && r.frames[..|st.frames| - 1] == st.frames[..|st.frames| - 1]
  {
    var n := |st.frames|;
    var r := AfterPrint(name, i, st);
    assert r.frames[..n - 1] == st.frames[..n - 1];
  }

  /** The state printing iterations from `i` on end in. */
  function PrintRun(name: string, i: int, end: int, step: int, st: State): State
    requires step != 0 || !InRange(i, end, step)
    decreases Remaining(i, end, step)
  {
    if !InRange(i, end, step) then st else PrintRun(name, i + step, end, step, AfterPrint(name, i, st))
  }

  /** Within the range, the run from `i` is the run from `i + step` after
      printing `i`. */
  lemma PrintRunStep(name: string, i: int, end: int, step: int, st: State)
    requires step != 0 && InRange(i, end, step)
    ensures PrintRun(name, i, end, step, st) == PrintRun(name, i + step, end, step, AfterPrint(name, i, st))
  {
  }

  /** The printing iterations print each value of the range in order. */
  lemma {:induction false} PrintRunPrints(name: string, i: int, end: int, step: int, st: State)
    requires |st.frames| > 0 && (step != 0 || !InRange(i, end, step))
    ensures PrintRun(name, i, end, step, st).output == st.output + Printed(RangeFrom(i, end, step))
    decreases Remaining(i, end, step)
  {
    if InRange(i, end, step) {
      var mid := AfterPrint(name, i, st);
      var rest := RangeFrom(i + step, end, step);
      AfterPrintKeepsScopes(name, i, st);
      PrintRunPrints(name, i + step, end, step, mid);
      PrintRunStep(name, i, end, step, st);
      assert RangeFrom(i, end, step) == [i] + rest;
      PrintedCons(i, rest);
      assert st.output + ([[VInt(i)]] + Printed(rest)) == (st.output + [[VInt(i)]]) + Printed(rest);
    }
  }

  /** The printing iterations change no scope but the current one. */
  lemma {:induction false} PrintRunKeepsScopes(name: string, i: int, end: int, step: int, st: State)
    requires |st.frames| > 0 && (step != 0 || !InRange(i, end, step))
    ensures var r := PrintRun(name, i, end, step, st);
      |r.frames| == |st.frames| && r.frames[..|st.frames| - 1] == st.frames[..|st.frames| - 1]
    decreases Remaining(i, end, step)
  {
    if InRange(i, end, step) {
      var n := |st.frames|;
      var mid := AfterPrint(name, i, st);
      AfterPrintKeepsScopes(name, i, st);
      PrintRunKeepsScopes(name, i + step, end, step, mid);
      var r := PrintRun(name, i, end, step, st);
      assert r.frames[..n - 1] == mid.frames[..n - 1];
    }
  }


  /** The body of a printing iteration: storing `i` in the iterator and
      running `print(i)` leads to the state AfterPrint describes. */
  lemma PrintingBody(s: Stmt, i: int, st: State, fuel: nat) returns (frames: seq<Frame>)
    requires PrintingSetup(s, st) && s.body.statements == [PrintOf(s.iteratorName)]
    ensures |frames| > 0 && AssignIn(st.frames, s.iteratorName, VInt(i)) == Ok(frames)
    ensures ExecBlock(s.body.statements, 0, st.(frames := frames), fuel) == Outcome(Normal, AfterPrint(s.iteratorName, i, st))
  {
    var n := |st.frames|;
    StoreIterator(st.frames, s.iteratorName, i);
    frames := st.frames[n - 1 := st.frames[n - 1][s.iteratorName := Binding(VInt(i), "Int")]];
    PrintStep(s.iteratorName, VInt(i), st.(frames := frames), fuel);
  }

  /** The loop's iterations from iterator value `i` in `st` with `fuel`
      end in `o`. Stated for every fuel equal to `fuel`, so that the
      iterations' definition is unfolded only where a proof asks for it. */
  ghost predicate Runs(s: Stmt, i: int, end: int, step: int, st: State, fuel: nat, o: Outcome<()>)
    requires s.ForLoop? && |st.frames| > 0
  {
    forall f: nat {:trigger ForFrom(s, VInt(i), VInt(end), VInt(step), st, f)} ::
      f == fuel ==> o == ForFrom(s, VInt(i), VInt(end), VInt(step), st, f)
  }

  /** One printing iteration: the loop's outcome from `i` is its outcome
      from `i + step` in the state after printing `i`, with one unit of fuel
      less, and that state and fuel still suit the rest of the range. */
  lemma PrintingIteration(s: Stmt, i: int, end: int, step: int, st: State, fuel: nat, o: Outcome<()>) returns (o2: Outcome<()>)
    requires PrintingSetup(s, st) && s.body.statements == [PrintOf(s.iteratorName)] && step != 0 && InRange(i, end, step)
    requires fuel >= |RangeFrom(i, end, step)|
    requires Runs(s, i, end, step, st, fuel, o)
    ensures PrintingSetup(s, AfterPrint(s.iteratorName, i, st)) && Spend(fuel) >= |RangeFrom(i + step, end, step)|
    ensures Runs(s, i + step, end, step, AfterPrint(s.iteratorName, i, st), Spend(fuel), o2) && o == o2
  {
    RangeFromStep(i, end, step);
    AfterPrintKeepsSetup(s, i, st);
    assert o == ForFrom(s, VInt(i), VInt(end), VInt(step), st, fuel);
    IntegerRange(i, end, step);
    var frames := PrintingBody(s, i, st, fuel);
    ForStep(s, VInt(i), VInt(end), VInt(step), st, fuel, frames, AfterPrint(s.iteratorName, i, st), VInt(i + step));
    o2 := ForFrom(s, VInt(i + step), VInt(end), VInt(step), AfterPrint(s.iteratorName, i, st), Spend(fuel));
  }

  /** Past the end of the range the iterations stop at once. */
  lemma PrintingDone(s: Stmt, i: int, end: int, step: int, st: State, fuel: nat, o: Outcome<()>)
    requires PrintingSetup(s, st) && !InRange(i, end, step)
    requires Runs(s, i, end, step, st, fuel, o)
    ensures o == Outcome(Normal, PrintRun(s.iteratorName, i, end, step, st))
  {
    assert o == ForFrom(s, VInt(i), VInt(end), VInt(step), st, fuel);
    IntegerRange(i, end, step);
  }

  /** Given enough fuel, the for-loop's iterations with body `print(i)`
      complete normally in the state PrintRun describes. */
  lemma {:induction false} PrintingLoop(s: Stmt, i: int, end: int, step: int, st: State, fuel: nat, o: Outcome<()>)
    requires PrintingSetup(s, st) && s.body.statements == [PrintOf(s.iteratorName)] && (step != 0 || !InRange(i, end, step))
    requires fuel >= |RangeFrom(i, end, step)|
    requires Runs(s, i, end, step, st, fuel, o)
    ensures o == Outcome(Normal, PrintRun(s.iteratorName, i, end, step, st))
    decreases Remaining(i, end, step)
  {
    if InRange(i, end, step) {
      var o2 := PrintingIteration(s, i, end, step, st, fuel, o);
      PrintingLoop(s, i + step, end, step, AfterPrint(s.iteratorName, i, st), Spend(fuel), o2);
      PrintRunStep(s.iteratorName, i, end, step, st);
    } else {
      PrintingDone(s, i, end, step, st, fuel, o);
    }
  }

  /** The loop's own scope, holding the iterator as an Int, over the caller's
      scopes: `print` still reads as the built-in there, and running the
      printing iterations in it leaves the caller's scopes as they were. */
  lemma PrintingLoopScope(s: Stmt, start: int, last: int, step: int, st: State, fuel: nat)
    requires s.ForLoop? && s.body.statements == [PrintOf(s.iteratorName)] && s.iteratorName != "print"
    requires (step != 0 || !InRange(start, last, step)) && |st.frames| > 0 && Lookup(st.frames, "print") == Ok(VBuiltinPrint)
    requires fuel >= |RangeFrom(start, last, step)|
    ensures ForScope(s, VInt(start), VInt(last), VInt(step), st, fuel) ==
      Outcome(Normal, st.(output := st.output + Printed(RangeFrom(start, last, step))))
  {
    var n := |st.frames|;
    var top: Frame := map[s.iteratorName := Binding(VInt(start), "Int")];
    var loopScope := st.(frames := DefineIn(st.frames + [map[]], s.iteratorName, VInt(start), "Int"));
    assert loopScope.frames == st.frames + [top];
    ResolveBelow(st.frames, top, "print");
    assert Lookup(loopScope.frames, "print") == Ok(VBuiltinPrint) by {
      var k := Resolve(st.frames, "print").value;
      assert loopScope.frames[k] == st.frames[k];
    }
    assert PrintingSetup(s, loopScope);
    PrintingLoop(s, start, last, step, loopScope, fuel, ForFrom(s, VInt(start), VInt(last), VInt(step), loopScope, fuel));
    PrintRunPrints(s.iteratorName, start, last, step, loopScope);
    PrintRunKeepsScopes(s.iteratorName, start, last, step, loopScope);
    var run := PrintRun(s.iteratorName, start, last, step, loopScope);
    assert run.frames[..n] == loopScope.frames[..n] == st.frames;
  }

  /** The step a for-loop runs with: its step expression's value, 1 when it
      has none. */
  predicate StepIs(s: Stmt, st: State, fuel: nat, step: int)
    requires s.ForLoop? && |st.frames| > 0
  {
    if s.step.None? then step == 1 else Eval(s.step.value, st, fuel) == Outcome(Ok(VInt(step)), st)
  }

  /** The last value a for-loop may reach: its end with `thru`; with `to`,
      one short of it in the direction of the step. */
  function Last(s: Stmt, end: int, step: int): int
    requires s.ForLoop?
  {
    if s.isInclusive then end else if step > 0 then end - 1 else end + 1
  }

  /** `for i in start to/thru end [by step]: print(i)` with integer bounds
      prints `start, start + step, ...` as far
      as `end` (stopping one short of it for `to`), counting up for a
      positive step and down for a negative one, and afterwards every scope
      is exactly as before: the iterator lived only in the loop's own scope.
      A zero step prints nothing when `start` is short of the last value
      and loops forever otherwise, which is excluded. */
  lemma PrintingForLoop(s: Stmt, st: State, fuel: nat, start: int, end: int, step: int)
    requires s.ForLoop? && s.body.statements == [PrintOf(s.iteratorName)] && s.iteratorName != "print"
    requires |st.frames| > 0 && Lookup(st.frames, "print") == Ok(VBuiltinPrint)
    requires Eval(s.start, st, fuel) == Outcome(Ok(VInt(start)), st)
    requires Eval(s.end, st, fuel) == Outcome(Ok(VInt(end)), st)
    requires StepIs(s, st, fuel, step) && (step != 0 || !InRange(start, Last(s, end, step), step))
    requires fuel >= |RangeFrom(start, Last(s, end, step), step)|
    ensures ExecFor(s, st, fuel) == Outcome(Normal, st.(output := st.output + Printed(RangeFrom(start, Last(s, end, step), step))))
  {
    var last := Last(s, end, step);
    IntegerRange(start, end, step);
    assert ExecFor(s, st, fuel) == ForScope(s, VInt(start), VInt(last), VInt(step), st, fuel);
    PrintingLoopScope(s, start, last, step, st, fuel);
  }

  // ---------------------------------------------------------------------
  // Scopes

  /** A name no scope binds before a for-loop is bound by none after it:
      what the body declares lives in the loop's own scope and goes with it. */
  lemma ForDeclarationsVanish(s: Stmt, st: State, fuel: nat, name: string)
    requires s.ForLoop? && |st.frames| > 0 && Resolve(st.frames, name).None?
    ensures Resolve(ExecFor(s, st, fuel).st.frames, name).None?
    ensures Lookup(ExecFor(s, st, fuel).st.frames, name) == Err(Fault(UndefinedVariable(name)))
  {
    var after := ExecFor(s, st, fuel).st.frames;
    forall k | 0 <= k < |after|
      ensures name !in after[k]
    {
      assert Shape(after)[k] == Shape(st.frames)[k];
    }
  }

  /** A block is not a scope: a declaration in it defines the name in the
      current scope, where it stays after the block. */
  lemma BlockDeclaresInCurrentScope(name: string, ann: TypeAnnotation, st: State, fuel: nat)
    requires |st.frames| > 0 && name != ":"
    ensures Exec(BlockStmt(Block([VariableDecl(name, ann, None)])), st, fuel) ==
      Outcome(Normal, st.(frames := DefineIn(st.frames, name, VNone, ann.name)))
    ensures Lookup(DefineIn(st.frames, name, VNone, ann.name), name) == Ok(VNone)
  {
    var d := VariableDecl(name, ann, None);
    var after := st.(frames := DefineIn(st.frames, name, VNone, ann.name));
    assert ExecVariableDecl(d, st, fuel) == Outcome(Normal, after);
    assert Exec(d, st, fuel) == Outcome(Normal, after);
    assert ExecBlock([d], 1, after, fuel) == Outcome(Normal, after);
    assert ExecBlock([d], 0, st, fuel) == Outcome(Normal, after);
    DefineThenGet(st.frames, name, VNone, ann.name, name + "'");
  }

  // ---------------------------------------------------------------------
  // If-statements

  /** Every elif condition is a boolean literal. */
  predicate LiteralConditions(s: Stmt)
    requires s.IfStatement?
  {
    forall k :: 0 <= k < |s.elifBranches| ==>
      s.elifBranches[k].condition.Literal? && s.elifBranches[k].condition.kind == BoolLit &&
      s.elifBranches[k].condition.payload.LBool?
  }

  /** An elif branch with a literal condition runs its block when the
      literal is true and passes on to the next branch otherwise. */
  lemma ElifStep(s: Stmt, i: nat, st: State, fuel: nat)
    requires s.IfStatement? && LiteralConditions(s) && i < |s.elifBranches| && |st.frames| > 0
    ensures ExecElifs(s, i, st, fuel) ==
      if s.elifBranches[i].condition.payload.b then ExecBlock(s.elifBranches[i].body.statements, 0, st, fuel)
      else ExecElifs(s, i + 1, st, fuel)
  {
    var c := s.elifBranches[i].condition;
    assert Eval(c, st, fuel) == Outcome(Ok(VBool(c.payload.b)), st);
  }

  /** The first elif branch from `i` on whose literal condition is true, or
      the number of branches when there is none. */
  function FirstTrue(s: Stmt, i: nat): (j: nat)
    requires s.IfStatement? && LiteralConditions(s) && i <= |s.elifBranches|
    ensures i <= j <= |s.elifBranches|
    ensures j < |s.elifBranches| ==> s.elifBranches[j].condition.payload.b
    ensures forall k :: i <= k < j ==> !s.elifBranches[k].condition.payload.b
    decreases |s.elifBranches| - i
  {
    if i == |s.elifBranches| || s.elifBranches[i].condition.payload.b then i else FirstTrue(s, i + 1)
  }

  /** Once the condition is false, only the first true elif runs, and the
      else block only when no elif is true. */
  lemma {:induction false} FirstTrueElifRuns(s: Stmt, i: nat, st: State, fuel: nat)
    requires s.IfStatement? && LiteralConditions(s) && i <= |s.elifBranches| && |st.frames| > 0
    ensures var j := FirstTrue(s, i);
      ExecElifs(s, i, st, fuel) ==
        if j < |s.elifBranches| then ExecBlock(s.elifBranches[j].body.statements, 0, st, fuel)
        else if s.elseBranch.Some? then ExecBlock(s.elseBranch.value.statements, 0, st, fuel)
        else Outcome(Normal, st)
    decreases |s.elifBranches| - i
  {
    if i == |s.elifBranches| {
      assert FirstTrue(s, i) == i;
    } else if s.elifBranches[i].condition.payload.b {
      ElifStep(s, i, st, fuel);
      assert FirstTrue(s, i) == i;
    } else {
      ElifStep(s, i, st, fuel);
      FirstTrueElifRuns(s, i + 1, st, fuel);
      assert FirstTrue(s, i) == FirstTrue(s, i + 1);
    }
  }

  /** After a truthy elif condition the later branches are not looked at:
      cutting them off, and the else block, changes nothing. */
  lemma LaterBranchesIgnored(s: Stmt, i: nat, st: State, fuel: nat)
    requires s.IfStatement? && i < |s.elifBranches| && |st.frames| > 0
    requires var c := Eval(s.elifBranches[i].condition, st, fuel); c.result.Ok? && Truthy(c.result.value) == Ok(true)
    ensures ExecElifs(s, i, st, fuel) ==
      ExecElifs(s.(elifBranches := s.elifBranches[..i + 1], elseBranch := None), i, st, fuel)
  {
    var t := s.(elifBranches := s.elifBranches[..i + 1], elseBranch := None);
    assert t.elifBranches[i] == s.elifBranches[i];
  }

  // ---------------------------------------------------------------------
  // Calls

  /** A call with the wrong number of arguments fails before anything is
      bound or run. */
  lemma WrongArgumentCount(decl: FunctionDecl, args: seq<Value>, st: State, fuel: nat)
    requires |st.frames| > 0 && |args| != |decl.params|
    ensures CallFunction(decl, args, st, fuel) == Outcome(Err(Fault(ArgumentCount(|decl.params|, |args|))), st)
  {
  }

  /** A function with a declared return type whose body ends without
      `return`, or returns None, fails with "Function did not return a value". */
  lemma MissingReturnValue(decl: FunctionDecl, body: Result<(), Signal>)
    requires decl.returnType.Some? && (body.Ok? || body == Err(Returning(VNone)))
    ensures FunctionResult(decl, body) == Err(Fault(NoReturnValue))
  {
  }

  /** The value a `return` carries is what the call gives, when no return
      type is declared; any other abrupt end passes through the call. */
  lemma ReturnReachesCall(decl: FunctionDecl, body: Result<(), Signal>)
    requires decl.returnType.None?
    ensures body.Ok? ==> FunctionResult(decl, body) == Ok(VNone)
    ensures body.Err? && body.error.Returning? ==> FunctionResult(decl, body) == Ok(body.error.value)
    ensures body.Err? && !body.error.Returning? ==> FunctionResult(decl, body) == Err(body.error)
  {
  }

  /** Pushing a scope that does not bind a name leaves its resolution alone. */
  lemma ResolveBelow(chain: seq<Frame>, top: Frame, name: string)
    requires name !in top
    ensures Resolve(chain + [top], name) == Resolve(chain, name)
  {
    assert (chain + [top])[..|chain|] == chain;
  }

  /** Dynamic scoping: a parameterless function whose body is `return x`
      gives the value `x` has where it is called, not where it was
      declared, and the caller's scopes are as they were. */
  lemma CallerVariablesVisible(decl: FunctionDecl, x: string, st: State, fuel: nat)
    requires decl.params == [] && decl.returnType.None? && |st.frames| > 0
    requires decl.body.statements == [ReturnStatement(Some(Expr.Identifier(x)))]
    ensures CallFunction(decl, [], st, fuel) == Outcome(Lookup(st.frames, x), st)
  {
    var inner := st.(frames := st.frames + [map[]]);
    ResolveBelow(st.frames, map[], x);
    assert inner.frames[..|st.frames|] == st.frames;
    assert Lookup(inner.frames, x) == Lookup(st.frames, x) by {
      if Resolve(st.frames, x).Some? {
        assert inner.frames[Resolve(st.frames, x).value] == st.frames[Resolve(st.frames, x).value];
      }
    }
    assert BindArguments(decl.params, [], 0, map[]) == Ok(map[]);
    var ret := ReturnStatement(Some(Expr.Identifier(x)));
    var v := Lookup(st.frames, x);
    assert Eval(Expr.Identifier(x), inner, fuel) == Outcome(v, inner);
    assert Exec(ret, inner, fuel) == Outcome(Err(if v.Ok? then Returning(v.value) else v.error), inner);
    assert ExecBlock([ret], 0, inner, fuel) == Outcome(Err(if v.Ok? then Returning(v.value) else v.error), inner);
  }

  // ---------------------------------------------------------------------
  // Abrupt ends

  /** The statements of a block run in order: when `ss` ends abruptly the
      statements after it never run; otherwise they run from the state
      `ss` leaves. */
  lemma {:induction false} BlockSequence(ss: seq<Stmt>, rest: seq<Stmt>, i: nat, st: State, fuel: nat)
    requires i <= |ss| && |st.frames| > 0
    ensures var first := ExecBlock(ss, i, st, fuel);
      ExecBlock(ss + rest, i, st, fuel) ==
        if first.result.Err? then first else ExecBlock(ss + rest, |ss|, first.st, fuel)
    decreases |ss| - i
  {
    if i < |ss| {
      assert (ss + rest)[i] == ss[i];
      var x := Exec(ss[i], st, fuel);
      if x.result.Ok? {
        BlockSequence(ss, rest, i + 1, x.st, fuel);
      }
    }
  }

  /** A `return` inside a while-loop's body ends the loop with it: nothing
      between the `return` and the call catches it. */
  lemma ReturnLeavesWhile(s: Stmt, st: State, fuel: nat)
    requires s.WhileLoop? && |st.frames| > 0 && s.body.statements == [ReturnStatement(None)]
    requires Eval(s.condition, st, fuel) == Outcome(Ok(VBool(true)), st)
    ensures WhileFrom(s, st, fuel) == Outcome(Err(Returning(VNone)), st)
  {
    assert Truthy(VBool(true)) == Ok(true);
    assert Exec(ReturnStatement(None), st, fuel) == Outcome(Err(Returning(VNone)), st);
    assert ExecBlock(s.body.statements, 0, st, fuel) == Outcome(Err(Returning(VNone)), st);
  }

  /** `interpret` runs statements until one raises: a RuntimeError is
      reported and ends the run, any other exception escapes it, and the
      statements after it never run. */
  lemma {:induction false} InterpretStopsAtFirstError(ss: seq<Stmt>, rest: seq<Stmt>, i: nat, st: State, fuel: nat)
    requires i <= |ss| && |st.frames| > 0
    ensures var first := InterpretFrom(ss, i, st, fuel);
      InterpretFrom(ss + rest, i, st, fuel) ==
        if first.0.Finished? then InterpretFrom(ss + rest, |ss|, first.1, fuel) else first
    decreases |ss| - i
  {
    if i < |ss| {
      assert (ss + rest)[i] == ss[i];
      var x := Exec(ss[i], st, fuel);
      if x.result.Ok? {
        InterpretStopsAtFirstError(ss, rest, i + 1, x.st, fuel);
      }
    }
  }

  /** A `return` outside any function is not an interpreter error: it
      escapes `interpret` instead of being reported. */
  lemma TopLevelReturnEscapes(rest: seq<Stmt>, st: State, fuel: nat)
    requires |st.frames| > 0
    ensures InterpretFrom([ReturnStatement(None)] + rest, 0, st, fuel) == (Escaped(Returning(VNone)), st)
  {
  }

  /** Method calls, indexing, enums and protocols have no handler: each is
      the "Unknown ... type" RuntimeError, raised before anything is evaluated. */
  lemma UnhandledNodes(st: State, fuel: nat, obj: string, m: string, args: seq<Expr>, a: Expr, b: Expr, e: Stmt, p: Stmt)
    requires |st.frames| > 0 && e.EnumDeclaration? && p.ProtocolDeclaration?
    ensures Eval(MethodCall(obj, m, args), st, fuel) == Outcome(Err(Fault(UnknownExpression("MethodCall"))), st)
    ensures Eval(ArrayAccess(a, b), st, fuel) == Outcome(Err(Fault(UnknownExpression("ArrayAccess"))), st)
    ensures Exec(e, st, fuel) == Outcome(Err(Fault(UnknownStatement("EnumDeclaration"))), st)
    ensures Exec(p, st, fuel) == Outcome(Err(Fault(UnknownStatement("ProtocolDeclaration"))), st)
  {
  }

  /** Dividing by the literal 0 is the interpreter's "Division by zero"
      RuntimeError whatever the left operand evaluated to, raised after it. */
  lemma DivideByLiteralZero(l: Expr, op: Token, st: State, fuel: nat)
    requires |st.frames| > 0 && op.kind == Divide && Eval(l, st, fuel).result.Ok?
    ensures Eval(BinaryOp(l, op, Literal(LText("0"), IntegerLit)), st, fuel) ==
      Outcome(Err(Fault(DivisionByZero)), Eval(l, st, fuel).st)
  {
    var left := Eval(l, st, fuel);
    ZeroLiteral(left.st, fuel);
    assert PyEquals(VInt(0), VInt(0)) == Ok(true);
  }

  /** The integer literal `0` evaluates to 0 and changes nothing. */
  lemma ZeroLiteral(st: State, fuel: nat)
    requires |st.frames| > 0
    ensures Eval(Literal(LText("0"), IntegerLit), st, fuel) == Outcome(Ok(VInt(0)), st)
  {
    ZeroLiteralValue();
  }

  /** The interpreter starts with `print` bound to the built-in. */
  lemma InitialBindings()
    ensures Lookup(Initial.frames, "print") == Ok(VBuiltinPrint) && TypeOf(Initial.frames, "print") == Ok("Function")
    ensures forall name :: name != "print" ==> Lookup(Initial.frames, name) == Err(Fault(UndefinedVariable(name)))
  {
  }
}
