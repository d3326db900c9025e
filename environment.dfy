/** The scopes of the interpreter (the `Environment` class of
    noir_interpreter.py) and the signals that end a statement abruptly.

    An `Environment` object holds a `values` and a `types` dictionary and a
    parent link. The chain the interpreter uses is only ever extended at its
    current end (a for-loop or a call makes a child of `self.environment`)
    and cut back to the same point (the `finally` that restores it), and no
    other reference to a scope outlives that, so the chain is modelled as a
    sequence of scopes: the outermost first, the current one last. */
module Environment {
  import opened Common
  import opened Types
  import opened Values
  import opened TypeChecker
  import Tokens

  /** A variable's value and the type name `define` recorded for it. */
  datatype Binding = Binding(value: Value, typeName: string)

  /** One scope. The `values` and `types` dictionaries are kept as one map:
      `define` writes both and nothing else adds a name to either. */
  type Frame = map<string, Binding>

  /** The message of a `RuntimeError`, the interpreter's own error. */
  datatype RuntimeFault =
    | UndefinedVariable(name: string)
    | UnknownStatement(nodeType: string)
    | UnknownExpression(nodeType: string)
    | UnknownBinaryOperator(op: Tokens.TokenKind)
    | UnknownUnaryOperator(op: Tokens.TokenKind)
    | DivisionByZero
    | ArgumentCount(expected: nat, got: nat)
    | NotCallable
    | NoReturnValue
      /** `str(e)` of a type checker `TypeError`, raised again as a RuntimeError. */
    | Rejected(reason: TypeErrorReason)
      /** "Type error in function argument: ..." */
    | ArgumentRejected(reason: TypeErrorReason)
      /** "Type error in return value: ..." */
    | ReturnRejected(reason: TypeErrorReason)

  /** Why a statement or expression did not complete normally. */
  datatype Signal =
      /** A `RuntimeError`: `interpret` reports it and stops. */
    | Fault(fault: RuntimeFault)
      /** A `ReturnValue` travelling to the innermost function call. */
    | Returning(value: Value)
      /** A Python exception no handler of the interpreter catches, or a
          float or `repr` detail the model does not follow. */
    | Crash(err: PyError)
      /** The fuel bound was exhausted (a loop or call nest longer than the model follows). */
    | OutOfFuel

  /** The interpreter's state: the environment chain and the argument lists
      the built-in `print` has been given, in order. */
  datatype State = State(frames: seq<Frame>, output: seq<seq<Value>>)

  /** The scope `Interpreter.__init__` builds: `print` bound to the built-in. */
  const Prelude: Frame := map["print" := Binding(VBuiltinPrint, "Function")]

  /** `resolve`: the index of the nearest scope, from the current one
      outwards, that binds `name`. */
  function Resolve(chain: seq<Frame>, name: string): (r: Option<nat>)
    ensures r.Some? ==> (r.value < |chain| && name in chain[r.value] &&
      forall k :: r.value < k < |chain| ==> name !in chain[k])
    ensures r.None? ==> forall k :: 0 <= k < |chain| ==> name !in chain[k]
    decreases |chain|
  {
    if |chain| == 0 then None
    else if name in chain[|chain| - 1] then Some(|chain| - 1)
    else Resolve(chain[..|chain| - 1], name)
  }

  /** `get` and identifier evaluation: the value in the scope `resolve` finds. */
  function Lookup(chain: seq<Frame>, name: string): Result<Value, Signal> {
    match Resolve(chain, name)
    case Some(k) => Ok(chain[k][name].value)
    case None => Err(Fault(UndefinedVariable(name)))
  }

  /** `get_type`: the type name recorded in the scope `resolve` finds. */
  function TypeOf(chain: seq<Frame>, name: string): Result<string, Signal> {
    match Resolve(chain, name)
    case Some(k) => Ok(chain[k][name].typeName)
    case None => Err(Fault(UndefinedVariable(name)))
  }

  /** `define` on the current scope. */
  function DefineIn(chain: seq<Frame>, name: string, v: Value, typeName: string): (r: seq<Frame>)
    requires |chain| > 0
    ensures OuterScopesKept(chain, r)
  {
    chain[..|chain| - 1] + [chain[|chain| - 1][name := Binding(v, typeName)]]
  }

  /** `validate_assignment` of a value against a type name, both names made
      primitive annotations, as `assign`, the call and the return check do. */
  function ValidateByName(typeName: string, v: Value): Result<Value, CheckError> {
    ValidateAssignment(MakeAnnotation(typeName, [], Primitive), v, MakeAnnotation(GetTypeName(v), [], Primitive))
  }

  /** The check `assign` makes against the recorded type, its TypeError
      raised again as a RuntimeError. */
  function CheckAgainst(typeName: string, v: Value): Result<Value, Signal> {
    match ValidateByName(typeName, v)
    case Ok(w) => Ok(w)
    case Err(TypeError(reason)) => Err(Fault(Rejected(reason)))
    case Err(Py(e)) => Err(Crash(e))
  }

  /** `assign`: validate against the recorded type and store the converted
      value in the scope `resolve` finds. */
  function AssignIn(chain: seq<Frame>, name: string, v: Value): (r: Result<seq<Frame>, Signal>)
    ensures r.Ok? ==> SameScopes(chain, r.value)
  {
    match Resolve(chain, name)
    case None => Err(Fault(UndefinedVariable(name)))
    case Some(k) =>
      var t := chain[k][name].typeName;
      match CheckAgainst(t, v)
      case Err(s) => Err(s)
      case Ok(w) =>
        ShapeAfterStore(chain, k, name, Binding(w, t));
        Ok(chain[k := chain[k][name := Binding(w, t)]])
  }

  /** The type names a scope records, by variable name. */
  function TypesIn(f: Frame): (r: map<string, string>)
    ensures r.Keys == f.Keys
  {
    map n | n in f :: f[n].typeName
  }

  /** The names and recorded types of every scope in a chain. */
  function Shape(chain: seq<Frame>): (r: seq<map<string, string>>)
    ensures |r| == |chain| && forall k :: 0 <= k < |chain| ==> r[k] == TypesIn(chain[k])
  {
    seq(|chain|, k requires 0 <= k < |chain| => TypesIn(chain[k]))
  }

  /** Two chains of the same length whose scopes bind the same names with
      the same types: only values differ. */
  predicate SameScopes(before: seq<Frame>, after: seq<Frame>) {
    Shape(before) == Shape(after)
  }

  /** As SameScopes, except that the current scope may gain names and
      record new types, as a declaration in it does. */
  predicate OuterScopesKept(before: seq<Frame>, after: seq<Frame>) {
    |after| == |before| && |before| > 0 &&
    Shape(before)[..|before| - 1] == Shape(after)[..|after| - 1] &&
    Shape(before)[|before| - 1].Keys <= Shape(after)[|after| - 1].Keys
  }

  /** The shape of a prefix of a chain is that prefix of its shape. */
  lemma ShapePrefix(chain: seq<Frame>, n: nat)
    requires n <= |chain|
    ensures Shape(chain[..n]) == Shape(chain)[..n]
  {
  }

  /** Storing a new value under a name a scope binds keeps its shape. */
  lemma ShapeAfterStore(chain: seq<Frame>, k: nat, name: string, b: Binding)
    requires k < |chain| && name in chain[k] && chain[k][name].typeName == b.typeName
    ensures Shape(chain[k := chain[k][name := b]]) == Shape(chain)
  {
    assert TypesIn(chain[k][name := b]) == TypesIn(chain[k]);
  }

  // ---------------------------------------------------------------------
  // Properties of the environment operations

  /** `get` and `get_type` read the nearest scope that binds the name, and
      fail with "Undefined variable" exactly when no scope does. */
  lemma LookupNearest(chain: seq<Frame>, name: string)
    ensures Lookup(chain, name).Ok? <==> exists k :: 0 <= k < |chain| && name in chain[k]
    ensures TypeOf(chain, name).Ok? <==> Lookup(chain, name).Ok?
    ensures Lookup(chain, name).Err? ==> (Lookup(chain, name).error == Fault(UndefinedVariable(name)) &&
      TypeOf(chain, name).error == Fault(UndefinedVariable(name)))
    ensures forall k :: 0 <= k < |chain| && name in chain[k] && (forall j :: k < j < |chain| ==> name !in chain[j]) ==>
      Lookup(chain, name) == Ok(chain[k][name].value) && TypeOf(chain, name) == Ok(chain[k][name].typeName)
  {
    var r := Resolve(chain, name);
    if r.Some? {
      forall k | 0 <= k < |chain| && name in chain[k] && (forall j :: k < j < |chain| ==> name !in chain[j])
        ensures k == r.value
      {
      }
    }
  }

  /** `define` writes the current scope only: afterwards the name reads back
      as the value and the type given, every other name reads as before, and
      the outer scopes are untouched. */
  lemma DefineThenGet(chain: seq<Frame>, name: string, v: Value, typeName: string, other: string)
    requires |chain| > 0 && other != name
    ensures var after := DefineIn(chain, name, v, typeName);
      |after| == |chain| && after[..|chain| - 1] == chain[..|chain| - 1] &&
      Lookup(after, name) == Ok(v) && TypeOf(after, name) == Ok(typeName) &&
      Lookup(after, other) == Lookup(chain, other) && TypeOf(after, other) == TypeOf(chain, other) &&
      OuterScopesKept(chain, after)
  {
    var after := DefineIn(chain, name, v, typeName);
    ResolveAfterChange(chain, after, |chain| - 1, other);
  }

  /** Replacing one scope by another that binds `name` exactly when the old
      one did leaves `resolve` of `name` unchanged. */
  lemma ResolveAfterChange(chain: seq<Frame>, after: seq<Frame>, k: nat, name: string)
    requires |after| == |chain| && k < |chain|
    requires forall j :: 0 <= j < |chain| && j != k ==> after[j] == chain[j]
    requires (name in after[k]) == (name in chain[k])
    ensures Resolve(after, name) == Resolve(chain, name)
    ensures forall j :: 0 <= j < |chain| && j != k ==> after[j] == chain[j]
    decreases |chain|
  {
    var n := |chain|;
    if n > 0 && name !in chain[n - 1] {
      if k < n - 1 {
        ResolveAfterChange(chain[..n - 1], after[..n - 1], k, name);
      } else {
        assert after[..n - 1] == chain[..n - 1];
      }
    }
  }

  /** `assign` fails with "Undefined variable" when no scope binds the name;
      otherwise it changes the value in the scope `resolve` finds and nothing
      else, to the value `validate_assignment` converts to, or fails with
      that check's error and changes nothing. */
  lemma AssignUpdatesResolvedScope(chain: seq<Frame>, name: string, v: Value)
    ensures Resolve(chain, name).None? ==> AssignIn(chain, name, v) == Err(Fault(UndefinedVariable(name)))
    ensures Resolve(chain, name).Some? ==>
      var k := Resolve(chain, name).value;
      var check := CheckAgainst(chain[k][name].typeName, v);
      (AssignIn(chain, name, v).Err? <==> check.Err?) &&
      (check.Err? ==> AssignIn(chain, name, v).error == check.error) &&
      (check.Ok? ==>
        var after := AssignIn(chain, name, v).value;
        |after| == |chain| &&
        (forall j :: 0 <= j < |chain| && j != k ==> after[j] == chain[j]) &&
        after[k] == chain[k][name := Binding(check.value, chain[k][name].typeName)] &&
        Lookup(after, name) == Ok(check.value) && TypeOf(after, name) == TypeOf(chain, name) &&
        SameScopes(chain, after))
  {
    var r := Resolve(chain, name);
    if r.Some? {
      var k := r.value;
      var check := CheckAgainst(chain[k][name].typeName, v);
      if check.Ok? {
        var after := AssignIn(chain, name, v).value;
        ResolveAfterChange(chain, after, k, name);
      }
    }
  }

  /** A successful `assign` leaves every other name reading as before and
      every recorded type as it was. */
  lemma AssignKeepsOthers(chain: seq<Frame>, name: string, v: Value, other: string)
    requires AssignIn(chain, name, v).Ok? && other != name
    ensures Lookup(AssignIn(chain, name, v).value, other) == Lookup(chain, other)
    ensures TypeOf(AssignIn(chain, name, v).value, other) == TypeOf(chain, other)
    ensures TypeOf(AssignIn(chain, name, v).value, name) == TypeOf(chain, name)
  {
    var k := Resolve(chain, name).value;
    var after := AssignIn(chain, name, v).value;
    ResolveAfterChange(chain, after, k, other);
    ResolveAfterChange(chain, after, k, name);
  }

  /** A value whose type name is the recorded one is stored as it is. */
  lemma AssignSameType(chain: seq<Frame>, name: string, v: Value)
    requires Resolve(chain, name).Some?
    requires var k := Resolve(chain, name).value; (chain[k][name].typeName == GetTypeName(v) &&
      !IsSingleUpper(GetTypeName(v)))
    ensures AssignIn(chain, name, v).Ok? && Lookup(AssignIn(chain, name, v).value, name) == Ok(v)
  {
    AssignUpdatesResolvedScope(chain, name, v);
  }
}
