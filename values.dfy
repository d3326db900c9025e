/** Run-time values of the interpreter and the Python operations on them that
    the type checker and the interpreter rely on: truthiness, `==`, ordering
    and `str()`. Floats are opaque: an operation whose answer depends on a
    float's value reports `NotModelled`. */
module Values {
  import opened Common
  import opened Ast

  datatype Value =
    | VInt(i: int)
    | VBool(b: bool)
    | VFloat                   // a Python float whose value the model does not track
    | VStr(s: string)
    | VList(elems: seq<Value>)
    | VFunc(decl: FunctionDecl) // a function defined by `execute_functiondecl`
    | VBuiltinPrint            // the built-in `print`
    | VNone

  /** An outcome outside the interpreter's own errors: a float or `repr`
      detail the model does not follow, or a Python built-in exception
      (TypeError, ZeroDivisionError, ...) that no handler of the program catches. */
  datatype PyError = NotModelled(what: string) | HostError(what: string)

  /** `bool` is a subclass of `int`: both take part in integer arithmetic. */
  predicate IsIntLike(v: Value) { v.VInt? || v.VBool? }

  function AsInt(v: Value): int
    requires IsIntLike(v)
  {
    if v.VInt? then v.i else if v.b then 1 else 0
  }

  const MaxExactFloatInt: int := 0x20_0000_0000_0000   // 2^53: integers a float holds exactly

  /** An integer (or boolean) that `float()` converts exactly. Converting a
      larger one rounds it, and one beyond the float range raises
      OverflowError; the model does not follow either. */
  predicate ExactAsFloat(v: Value)
    requires IsIntLike(v)
  {
    -MaxExactFloatInt <= AsInt(v) <= MaxExactFloatInt
  }

  /** Python truthiness. */
  function Truthy(v: Value): (r: Result<bool, PyError>)
    ensures r.Err? <==> v.VFloat?
    ensures IsIntLike(v) ==> r == Ok(AsInt(v) != 0)
    ensures v.VStr? ==> r == Ok(|v.s| > 0)
    ensures v.VList? ==> r == Ok(|v.elems| > 0)
    ensures v.VNone? ==> r == Ok(false)
  {
    match v
    case VInt(i) => Ok(i != 0)
    case VBool(b) => Ok(b)
    case VFloat => Err(NotModelled("truth value of a float"))
    case VStr(s) => Ok(|s| > 0)
    case VList(xs) => Ok(|xs| > 0)
    case VFunc(_) => Ok(true)
    case VBuiltinPrint => Ok(true)
    case VNone => Ok(false)
  }

  /** Python `==`. Lists compare element by element after their lengths; two
      function values compare by identity, which the model does not track. */
  function PyEquals(a: Value, b: Value): Result<bool, PyError>
    decreases a, 1
  {
    if IsIntLike(a) && IsIntLike(b) then Ok(AsInt(a) == AsInt(b))
    else if (a.VFloat? && (IsIntLike(b) || b.VFloat?)) || (b.VFloat? && IsIntLike(a)) then
      Err(NotModelled("float comparison"))
    else if a.VStr? && b.VStr? then Ok(a.s == b.s)
    else if a.VList? && b.VList? then
      if |a.elems| != |b.elems| then Ok(false) else ElementsEqual(a, b, 0)
    else if a.VNone? && b.VNone? then Ok(true)
    else if a.VBuiltinPrint? && b.VBuiltinPrint? then Ok(true)
    else if a.VFunc? && b.VFunc? then Err(NotModelled("function identity"))
    else Ok(false)
  }

  function ElementsEqual(a: Value, b: Value, i: nat): Result<bool, PyError>
    requires a.VList? && b.VList? && |a.elems| == |b.elems| && i <= |a.elems|
    decreases a, 0, |a.elems| - i
  {
    if i == |a.elems| then Ok(true)
    else match PyEquals(a.elems[i], b.elems[i])
      case Err(e) => Err(e)
      case Ok(false) => Ok(false)
      case Ok(true) => ElementsEqual(a, b, i + 1)
  }

  /** `==` is reflexive on values without floats or functions. */
  predicate Plain(v: Value)
    decreases v
  {
    match v
    case VFloat => false
    case VFunc(_) => false
    case VList(xs) => forall i :: 0 <= i < |xs| ==> Plain(xs[i])
    case _ => true
  }

  lemma {:induction false} PyEqualsReflexive(v: Value)
    requires Plain(v)
    ensures PyEquals(v, v) == Ok(true)
    decreases v, 1
  {
    if v.VList? {
      ElementsEqualReflexive(v, 0);
    }
  }

  lemma {:induction false} ElementsEqualReflexive(v: Value, i: nat)
    requires v.VList? && Plain(v) && i <= |v.elems|
    ensures ElementsEqual(v, v, i) == Ok(true)
    decreases v, 0, |v.elems| - i
  {
    if i < |v.elems| {
      PyEqualsReflexive(v.elems[i]);
      ElementsEqualReflexive(v, i + 1);
    }
  }

  /** Python's ordering of strings: by code point, a proper prefix first. */
  function StrLess(s: string, t: string): bool
    decreases |s|
  {
    if |t| == 0 then false
    else if |s| == 0 then true
    else if s[0] != t[0] then s[0] < t[0]
    else StrLess(s[1..], t[1..])
  }

  lemma {:induction false} StrLessIrreflexive(s: string)
    ensures !StrLess(s, s)
    decreases |s|
  {
    if |s| > 0 {
      StrLessIrreflexive(s[1..]);
    }
  }

  datatype Comparison = Lt | Le | Gt | Ge

  function Compare(op: Comparison, x: int, y: int): bool {
    match op
    case Lt => x < y
    case Le => x <= y
    case Gt => x > y
    case Ge => x >= y
  }

  function CompareStr(op: Comparison, s: string, t: string): bool {
    match op
    case Lt => StrLess(s, t)
    case Le => StrLess(s, t) || s == t
    case Gt => StrLess(t, s)
    case Ge => StrLess(t, s) || s == t
  }

  /** Python `<`, `<=`, `>`, `>=`: integers (and booleans) numerically, strings
      by code point, lists lexicographically; mixing other types raises a
      built-in TypeError. */
  function PyCompare(op: Comparison, a: Value, b: Value): (r: Result<bool, PyError>)
    ensures IsIntLike(a) && IsIntLike(b) ==> r == Ok(Compare(op, AsInt(a), AsInt(b)))
    ensures a.VStr? && b.VStr? ==> r == Ok(CompareStr(op, a.s, b.s))
    decreases a, 1
  {
    if IsIntLike(a) && IsIntLike(b) then Ok(Compare(op, AsInt(a), AsInt(b)))
    else if a.VStr? && b.VStr? then Ok(CompareStr(op, a.s, b.s))
    else if (a.VFloat? || IsIntLike(a)) && (b.VFloat? || IsIntLike(b)) then Err(NotModelled("float comparison"))
    else if a.VList? && b.VList? then ListCompare(op, a, b, 0)
    else Err(HostError("ordering not supported between these types"))
  }

  /** Python's list ordering from index `i` on: the first pair of elements
      that are not `==` decides, compared with the operator itself; when one
      list runs out first, the lengths decide. */
  function ListCompare(op: Comparison, a: Value, b: Value, i: nat): Result<bool, PyError>
    requires a.VList? && b.VList? && i <= |a.elems| && i <= |b.elems|
    decreases a, 0, |a.elems| - i
  {
    if i == |a.elems| || i == |b.elems| then Ok(Compare(op, |a.elems|, |b.elems|))
    else match PyEquals(a.elems[i], b.elems[i])
      case Err(e) => Err(e)
      case Ok(true) => ListCompare(op, a, b, i + 1)
      case Ok(false) => PyCompare(op, a.elems[i], b.elems[i])
  }

  /** A list of integers as a value. */
  function IntList(xs: seq<int>): (v: Value)
    ensures v.VList? && |v.elems| == |xs| && forall i :: 0 <= i < |xs| ==> v.elems[i] == VInt(xs[i])
  {
    VList(seq(|xs|, i requires 0 <= i < |xs| => VInt(xs[i])))
  }

  /** The lexicographic order on integer sequences: the first position where
      they differ decides, and a proper prefix comes first. */
  function IntsLess(xs: seq<int>, ys: seq<int>): bool
    decreases |xs|
  {
    if |ys| == 0 then false
    else if |xs| == 0 then true
    else if xs[0] != ys[0] then xs[0] < ys[0]
    else IntsLess(xs[1..], ys[1..])
  }

  /** `<` between two lists of integers is the lexicographic order. */
  lemma IntListsCompareLexicographically(xs: seq<int>, ys: seq<int>)
    ensures PyCompare(Lt, IntList(xs), IntList(ys)) == Ok(IntsLess(xs, ys))
  {
    IntListSuffixes(xs, ys, 0);
  }

  lemma {:induction false} IntListSuffixes(xs: seq<int>, ys: seq<int>, i: nat)
    requires i <= |xs| && i <= |ys|
    ensures ListCompare(Lt, IntList(xs), IntList(ys), i) == Ok(IntsLess(xs[i..], ys[i..]))
    decreases |xs| - i
  {
    var a, b := IntList(xs), IntList(ys);
    if i < |xs| && i < |ys| {
      assert a.elems[i] == VInt(xs[i]) && b.elems[i] == VInt(ys[i]);
      assert xs[i..][1..] == xs[i + 1..] && ys[i..][1..] == ys[i + 1..];
      if xs[i] == ys[i] {
        IntListSuffixes(xs, ys, i + 1);
      }
    }
  }

  /** `str(v)` where the model knows the text: integers, booleans, strings and None. */
  function PyStr(v: Value): Option<string> {
    match v
    case VInt(i) => Some(IntToString(i))
    case VBool(b) => Some(if b then "True" else "False")
    case VStr(s) => Some(s)
    case VNone => Some("None")
    case _ => None
  }
}
