/** The value-level cases of the interpreter (noir_interpreter.py):
    `evaluate_literal`, and the Python operators `evaluate_binaryop` and
    `evaluate_unaryop` apply to the evaluated operands. Integers and booleans
    follow Python's integer arithmetic; a result that would be a float is
    the opaque `VFloat`. */
module Operators {
  import opened Common
  import opened Tokens
  import opened Ast
  import opened Values
  import opened Environment

  predicate IsNumber(v: Value) { IsIntLike(v) || v.VFloat? }

  /** A Python TypeError from an operator applied to operands it does not support. */
  function Unsupported(what: string): Signal { Crash(HostError(what)) }

  /** `evaluate_literal`: the Python conversion its token type selects. */
  function EvalLiteral(payload: LitValue, kind: TokenKind): (r: Result<Value, Signal>)
    ensures (kind == IntegerLit && payload.LText? && |payload.text| > 0 &&
      (forall i :: 0 <= i < |payload.text| ==> IsAsciiDigit(payload.text[i]))) ==>
      r == Ok(VInt(DigitsValue(payload.text)))
    ensures kind in {StringLit, CharLit} && payload.LText? ==> r == Ok(VStr(payload.text))
    ensures kind == BoolLit && payload.LBool? ==> r == Ok(VBool(payload.b))
    ensures kind == Empty ==> r == Ok(VList([]))
    ensures kind in {FloatLit, DoubleLit} ==> r == Ok(VFloat)
  {
    if kind == IntegerLit then
      (match payload
       case LBool(b) => Ok(VInt(if b then 1 else 0))
       case LText(t) =>
         if |t| > 0 && forall i :: 0 <= i < |t| ==> IsAsciiDigit(t[i]) then Ok(VInt(DigitsValue(t)))
         else Err(Crash(NotModelled("int() of text other than ASCII digits"))))
    else if kind == FloatLit || kind == DoubleLit then Ok(VFloat)
    else if kind == StringLit || kind == CharLit then Ok(VStr(LiteralText(payload)))
    else if kind == BoolLit then
      (match payload
       case LBool(b) => Ok(VBool(b))
       case LText(t) => Ok(VBool(|t| > 0)))
    else if kind == Empty then Ok(VList([]))
    else
      (match payload
       case LBool(b) => Ok(VBool(b))
       case LText(t) => Ok(VStr(t)))
  }

  /** `str(value)` of a literal's payload. */
  function LiteralText(payload: LitValue): string {
    match payload
    case LText(t) => t
    case LBool(b) => if b then "True" else "False"
  }

  /** `s * n` for a string or list: `n` copies, none when `n` is not positive. */
  function Repeat<T>(s: seq<T>, n: int): seq<T>
    decreases if n <= 0 then 0 else n
  {
    if n <= 0 then [] else s + Repeat(s, n - 1)
  }

  /** Python's `%` on integers: the remainder takes the divisor's sign. */
  function FloorMod(a: int, b: int): int
    requires b != 0
  {
    var m := a % b;
    if b < 0 && m != 0 then m + b else m
  }

  /** Python's `//` on integers: the quotient rounds toward minus infinity. */
  function FloorDiv(a: int, b: int): int
    requires b != 0
  {
    if b < 0 && a % b != 0 then a / b - 1 else a / b
  }

  /** Arithmetic with a float operand first converts an integer operand with
      `float()`, which raises OverflowError when the integer is beyond the
      float range; the model stops where the conversion is no longer exact. */
  function FloatArith(a: Value, b: Value): Result<Value, Signal>
    requires IsNumber(a) && IsNumber(b)
  {
    if (IsIntLike(a) && !ExactAsFloat(a)) || (IsIntLike(b) && !ExactAsFloat(b)) then
      Err(Crash(NotModelled("float conversion of a large integer")))
    else Ok(VFloat)
  }

  /** Python's `/`: two integers are divided exactly and the quotient rounded,
      which raises OverflowError only when the quotient is beyond the float
      range; with a dividend a float holds exactly that cannot happen. */
  function TrueDivide(a: Value, b: Value): Result<Value, Signal>
    requires IsNumber(a) && IsNumber(b)
  {
    if IsIntLike(a) && IsIntLike(b) then
      if ExactAsFloat(a) then Ok(VFloat)
      else Err(Crash(NotModelled("true division of a large integer")))
    else FloatArith(a, b)
  }

  function Add(a: Value, b: Value): Result<Value, Signal> {
    if IsIntLike(a) && IsIntLike(b) then Ok(VInt(AsInt(a) + AsInt(b)))
    else if IsNumber(a) && IsNumber(b) then FloatArith(a, b)
    else if a.VStr? && b.VStr? then Ok(VStr(a.s + b.s))
    else if a.VList? && b.VList? then Ok(VList(a.elems + b.elems))
    else Err(Unsupported("unsupported operand type(s) for +"))
  }

  function Sub(a: Value, b: Value): Result<Value, Signal> {
    if IsIntLike(a) && IsIntLike(b) then Ok(VInt(AsInt(a) - AsInt(b)))
    else if IsNumber(a) && IsNumber(b) then FloatArith(a, b)
    else Err(Unsupported("unsupported operand type(s) for -"))
  }

  function Mul(a: Value, b: Value): Result<Value, Signal> {
    if IsIntLike(a) && IsIntLike(b) then Ok(VInt(AsInt(a) * AsInt(b)))
    else if IsNumber(a) && IsNumber(b) then FloatArith(a, b)
    else if a.VStr? && IsIntLike(b) then Ok(VStr(Repeat(a.s, AsInt(b))))
    else if IsIntLike(a) && b.VStr? then Ok(VStr(Repeat(b.s, AsInt(a))))
    else if a.VList? && IsIntLike(b) then Ok(VList(Repeat(a.elems, AsInt(b))))
    else if IsIntLike(a) && b.VList? then Ok(VList(Repeat(b.elems, AsInt(a))))
    else Err(Unsupported("unsupported operand type(s) for *"))
  }

  function Mod(a: Value, b: Value): Result<Value, Signal> {
    if IsIntLike(a) && IsIntLike(b) then
      if AsInt(b) == 0 then Err(Crash(HostError("integer modulo by zero")))
      else Ok(VInt(FloorMod(AsInt(a), AsInt(b))))
    else if IsNumber(a) && IsNumber(b) then Err(Crash(NotModelled("float remainder")))
    else if a.VStr? then Err(Crash(NotModelled("printf-style string formatting")))
    else Err(Unsupported("unsupported operand type(s) for %"))
  }

  /** `evaluate_binaryop` once both operands are evaluated. Only `/` has the
      interpreter's own zero test; `%` by zero is Python's ZeroDivisionError. */
  function ApplyBinary(op: TokenKind, l: Value, r: Value): Result<Value, Signal> {
    if op == Plus then Add(l, r)
    else if op == Minus then Sub(l, r)
    else if op == Multiply then Mul(l, r)
    else if op == Divide then
      (match PyEquals(r, VInt(0))
       case Err(e) => Err(Crash(e))
       case Ok(true) => Err(Fault(DivisionByZero))
       case Ok(false) => if IsNumber(l) && IsNumber(r) then TrueDivide(l, r) else Err(Unsupported("unsupported operand type(s) for /")))
    else if op == Modulo then Mod(l, r)
    else if op == Equals then Truth(PyEquals(l, r), false)
    else if op == NotEquals then Truth(PyEquals(l, r), true)
    else if op == LessThan then Truth(PyCompare(Lt, l, r), false)
    else if op == LessEqual then Truth(PyCompare(Le, l, r), false)
    else if op == GreaterThan then Truth(PyCompare(Gt, l, r), false)
    else if op == GreaterEqual then Truth(PyCompare(Ge, l, r), false)
    else Err(Fault(UnknownBinaryOperator(op)))
  }

  /** A Python boolean result as a value, negated when `negate` holds. */
  function Truth(b: Result<bool, PyError>, negate: bool): Result<Value, Signal> {
    match b
    case Ok(x) => Ok(VBool(if negate then !x else x))
    case Err(e) => Err(Crash(e))
  }

  /** `evaluate_unaryop` once the operand is evaluated. */
  function ApplyUnary(op: TokenKind, v: Value): Result<Value, Signal> {
    if op == Minus then
      if IsIntLike(v) then Ok(VInt(-AsInt(v)))
      else if v.VFloat? then Ok(VFloat)
      else Err(Unsupported("bad operand type for unary -"))
    else if op == Bang then
      (match Truthy(v)
       case Ok(b) => Ok(VBool(!b))
       case Err(e) => Err(Crash(e)))
    else Err(Fault(UnknownUnaryOperator(op)))
  }

  // ---------------------------------------------------------------------
  // Properties

  /** Python's integer `//` and `%` agree: `a == (a // b) * b + a % b`, and
      the remainder lies between zero and the divisor, on the divisor's side. */
  lemma FloorDivision(a: int, b: int)
    requires b != 0
    ensures a == FloorDiv(a, b) * b + FloorMod(a, b)
    ensures b > 0 ==> 0 <= FloorMod(a, b) < b
    ensures b < 0 ==> b < FloorMod(a, b) <= 0
  {
    var q := a / b;
    var m := a % b;
    assert a == q * b + m;
    if b < 0 && m != 0 {
      assert (q - 1) * b + (m + b) == q * b + m;
    }
  }

  /** On integers (and booleans, which Python treats as 0 and 1) the
      arithmetic operators are exact and the comparisons are the integer
      ones. */
  lemma IntegerArithmetic(a: Value, b: Value)
    requires IsIntLike(a) && IsIntLike(b)
    ensures ApplyBinary(Plus, a, b) == Ok(VInt(AsInt(a) + AsInt(b)))
    ensures ApplyBinary(Minus, a, b) == Ok(VInt(AsInt(a) - AsInt(b)))
    ensures ApplyBinary(Multiply, a, b) == Ok(VInt(AsInt(a) * AsInt(b)))
    ensures AsInt(b) != 0 ==> ApplyBinary(Modulo, a, b) == Ok(VInt(FloorMod(AsInt(a), AsInt(b))))
  {
  }

  lemma IntegerComparisons(a: Value, b: Value)
    requires IsIntLike(a) && IsIntLike(b)
    ensures ApplyBinary(Equals, a, b) == Ok(VBool(AsInt(a) == AsInt(b)))
    ensures ApplyBinary(NotEquals, a, b) == Ok(VBool(AsInt(a) != AsInt(b)))
    ensures ApplyBinary(LessThan, a, b) == Ok(VBool(AsInt(a) < AsInt(b)))
    ensures ApplyBinary(GreaterEqual, a, b) == Ok(VBool(AsInt(a) >= AsInt(b)))
  {
    IntegerEquality(a, b);
    IntegerOrder(a, b);
  }

  lemma IntegerEquality(a: Value, b: Value)
    requires IsIntLike(a) && IsIntLike(b)
    ensures ApplyBinary(Equals, a, b) == Ok(VBool(AsInt(a) == AsInt(b)))
    ensures ApplyBinary(NotEquals, a, b) == Ok(VBool(AsInt(a) != AsInt(b)))
  {
  }

  lemma IntegerOrder(a: Value, b: Value)
    requires IsIntLike(a) && IsIntLike(b)
    ensures ApplyBinary(LessThan, a, b) == Ok(VBool(AsInt(a) < AsInt(b)))
    ensures ApplyBinary(GreaterEqual, a, b) == Ok(VBool(AsInt(a) >= AsInt(b)))
  {
  }

  /** The literal text `0` of an integer token is the integer 0. */
  lemma ZeroLiteralValue()
    ensures EvalLiteral(LText("0"), IntegerLit) == Ok(VInt(0))
  {
    var zero := "0";
    assert |zero| == 1 && zero[0] == '0' && zero[..0] == [];
    assert forall i :: 0 <= i < |zero| ==> IsAsciiDigit(zero[i]);
    assert DigitsValue(zero) == 10 * DigitsValue([]) + 0 == 0;
  }

  /** Dividing by an integer zero (or False) is the interpreter's "Division by
      zero" RuntimeError, whatever the dividend; the remainder by zero is
      instead a Python ZeroDivisionError, which `interpret` does not catch. */
  lemma DivideByZero(a: Value, b: Value)
    requires IsIntLike(b) && AsInt(b) == 0
    ensures ApplyBinary(Divide, a, b) == Err(Fault(DivisionByZero))
    ensures IsIntLike(a) ==> ApplyBinary(Modulo, a, b).Err? && ApplyBinary(Modulo, a, b).error.Crash?
  {
    assert PyEquals(b, VInt(0)) == Ok(true);
  }

  /** A non-zero integer divisor gives a float when the integer operands
      convert exactly: an integer dividend a float holds exactly, or a float
      dividend and a divisor a float holds exactly. Otherwise the model
      reports `NotModelled`, standing for the rounding and, for large enough
      operands, Python's OverflowError. */
  lemma DivideByNonZero(a: Value, b: Value)
    requires IsIntLike(b) && AsInt(b) != 0 && IsNumber(a)
    ensures IsIntLike(a) && ExactAsFloat(a) ==> ApplyBinary(Divide, a, b) == Ok(VFloat)
    ensures IsIntLike(a) && !ExactAsFloat(a) ==>
      ApplyBinary(Divide, a, b) == Err(Crash(NotModelled("true division of a large integer")))
    ensures a.VFloat? && ExactAsFloat(b) ==> ApplyBinary(Divide, a, b) == Ok(VFloat)
    ensures a.VFloat? && !ExactAsFloat(b) ==>
      ApplyBinary(Divide, a, b) == Err(Crash(NotModelled("float conversion of a large integer")))
  {
    assert PyEquals(b, VInt(0)) == Ok(false);
    assert ApplyBinary(Divide, a, b) == TrueDivide(a, b);
  }

  /** `+`, `-` and `*` with a float operand give a float exactly when an
      integer operand is one a float holds exactly; otherwise the model
      reports `NotModelled`, standing for the rounding and, beyond the float
      range, Python's OverflowError. */
  lemma MixedFloatArithmetic(a: Value, b: Value)
    requires IsNumber(a) && IsNumber(b) && (a.VFloat? || b.VFloat?)
    ensures (IsIntLike(a) ==> ExactAsFloat(a)) && (IsIntLike(b) ==> ExactAsFloat(b)) ==>
      ApplyBinary(Plus, a, b) == Ok(VFloat) && ApplyBinary(Minus, a, b) == Ok(VFloat) && ApplyBinary(Multiply, a, b) == Ok(VFloat)
    ensures (IsIntLike(a) && !ExactAsFloat(a)) || (IsIntLike(b) && !ExactAsFloat(b)) ==>
      var e := Err(Crash(NotModelled("float conversion of a large integer")));
      ApplyBinary(Plus, a, b) == e && ApplyBinary(Minus, a, b) == e && ApplyBinary(Multiply, a, b) == e
  {
    assert ApplyBinary(Plus, a, b) == Add(a, b) == FloatArith(a, b);
    assert ApplyBinary(Minus, a, b) == Sub(a, b) == FloatArith(a, b);
    assert ApplyBinary(Multiply, a, b) == Mul(a, b) == FloatArith(a, b);
  }

  /** The parser builds `and`/`or` as binary operations, but the interpreter
      has no case for them: they always fail, after both operands are
      evaluated. */
  lemma LogicalOperatorsUnknown(a: Value, b: Value)
    ensures ApplyBinary(And, a, b) == Err(Fault(UnknownBinaryOperator(And)))
    ensures ApplyBinary(Or, a, b) == Err(Fault(UnknownBinaryOperator(Or)))
  {
  }

  /** String `+` concatenates and string `*` repeats; `-` negates an integer
      and `!` is the negated truthiness. */
  lemma StringAndUnaryOperators(s: string, t: string, n: nat, v: Value)
    ensures ApplyBinary(Plus, VStr(s), VStr(t)) == Ok(VStr(s + t))
    ensures ApplyBinary(Multiply, VStr(s), VInt(n)) == Ok(VStr(Repeat(s, n)))
    ensures |Repeat(s, n)| == n * |s|
    ensures IsIntLike(v) ==> ApplyUnary(Minus, v) == Ok(VInt(-AsInt(v)))
    ensures !v.VFloat? ==> ApplyUnary(Bang, v) == Ok(VBool(!Truthy(v).value))
  {
    assert ApplyBinary(Plus, VStr(s), VStr(t)) == Add(VStr(s), VStr(t));
    assert ApplyBinary(Multiply, VStr(s), VInt(n)) == Mul(VStr(s), VInt(n));
    RepeatLength(s, n);
  }

  lemma {:induction false} RepeatLength<T>(s: seq<T>, n: nat)
    ensures |Repeat(s, n)| == n * |s|
  {
    if n > 0 {
      RepeatLength(s, n - 1);
    }
  }
}
