/** The decision procedures of noir_type_checker.py over type names and
    values: the subtype table, implicit and explicit conversion, value
    conversion, assignment and cast validation, and generic compatibility.
    The module's own `TypeError` is `CheckError.TypeError`; Python's built-in
    exceptions, which its handlers do not catch, are `CheckError.Py`. */
module TypeChecker {
  import opened Common
  import opened Types
  import opened Values

  datatype TypeErrorReason =
    | CannotConvert(fromType: string, toType: string)
    | UnsupportedConversion(fromType: string, toType: string)
    | NonGenericToGeneric(targetType: string)
    | CannotAssign(valueType: string, targetType: string)
    | InvalidAnnotations
    | CannotCastGeneric(fromType: string, toType: string)
    | CannotCastValue(fromType: string, toType: string)
    | UnsupportedCast(fromType: string, toType: string)

  datatype CheckError = TypeError(reason: TypeErrorReason) | Py(err: PyError)

  // ---------------------------------------------------------------------
  // Subtypes and conversions between type names

  /** The table built in `TypeChecker.__init__`. */
  const SubtypeRelations: map<string, set<string>> :=
    map["Int" := {"Float", "Double"}, "Float" := {"Double"}, "Char" := {"String"}]

  /** `is_subtype`: reflexive, plus Int ⊑ Float, Int ⊑ Double, Float ⊑ Double and Char ⊑ String. */
  function IsSubtype(sub: string, super: string): (r: bool)
    ensures r <==> (sub == super ||
      (sub == "Int" && super == "Float") || (sub == "Int" && super == "Double") ||
      (sub == "Float" && super == "Double") || (sub == "Char" && super == "String"))
  {
    sub == super || (sub in SubtypeRelations && super in SubtypeRelations[sub])
  }

  /** The subtype relation is a partial order. */
  lemma SubtypeIsPartialOrder(a: string, b: string, c: string)
    ensures IsSubtype(a, a)
    ensures IsSubtype(a, b) && IsSubtype(b, a) ==> a == b
    ensures IsSubtype(a, b) && IsSubtype(b, c) ==> IsSubtype(a, c)
  {
  }

  /** `can_implicitly_convert`: exactly Int → Float, Int → Double and Char → String. */
  function CanImplicitlyConvert(fromType: string, toType: string): (r: bool)
    ensures r <==> ((fromType == "Int" && (toType == "Float" || toType == "Double")) ||
      (fromType == "Char" && toType == "String"))
  {
    if fromType == "Int" then toType in ["Float", "Double"]
    else if fromType == "Char" then toType == "String"
    else false
  }

  /** Implicit conversions are the strict subtypes, apart from Float ⊑ Double. */
  lemma ImplicitConversionsAreStrictSubtypes(a: string, b: string)
    ensures CanImplicitlyConvert(a, b) <==> IsSubtype(a, b) && a != b && !(a == "Float" && b == "Double")
  {
  }

  predicate IsDigitString(s: string) {
    |s| > 0 && forall i :: 0 <= i < |s| ==> IsAsciiDigit(s[i])
  }

  predicate IsAscii(s: string) {
    forall i :: 0 <= i < |s| ==> s[i] < 128 as char
  }

  /** Some character of `s` is ASCII but not a digit, so `s.isdigit()` is
      false whatever the other characters are. */
  predicate HasAsciiNonDigit(s: string) {
    exists i :: 0 <= i < |s| && s[i] < 128 as char && !IsAsciiDigit(s[i])
  }

  /** `s.strip('-')`: drop every leading and trailing '-'. */
  function StripDashes(s: string): (r: string)
    ensures |r| <= |s|
    ensures |r| > 0 ==> r[0] != '-' && r[|r| - 1] != '-'
    ensures forall c :: c in r ==> c in s
    decreases |s|
  {
    if |s| == 0 then ""
    else if s[0] == '-' then StripDashes(s[1..])
    else if s[|s| - 1] == '-' then StripDashes(s[..|s| - 1])
    else s
  }

  /** `str(value)` has length one; the text of a float, list or function is
      always longer, so only the known texts need to be looked at. */
  predicate StrHasLengthOne(v: Value) {
    PyStr(v).Some? && |PyStr(v).value| == 1
  }

  /** `can_explicitly_convert`. Whether a string parses as a float is not
      modelled, nor whether a non-ASCII character is a Unicode digit for
      `str.isdigit`: such a text is decided only when it holds an ASCII
      character that is not a digit. */
  function CanExplicitlyConvert(fromType: string, toType: string, v: Value): Result<bool, CheckError> {
    if fromType == toType then Ok(true)
    else if fromType in ["Float", "Double"] && toType in ["Float", "Double", "Int"] then Ok(true)
    else if fromType == "String" && toType == "Int" then
      if PyStr(v).None? then Err(Py(NotModelled("repr of a value")))
      else
        var t := StripDashes(PyStr(v).value);
        if IsDigitString(t) then Ok(true)
        else if |t| == 0 || HasAsciiNonDigit(t) then Ok(false)
        else Err(Py(NotModelled("str.isdigit on non-ASCII characters")))
    else if fromType == "String" && toType == "Float" then Err(Py(NotModelled("float parsing")))
    else if fromType == "String" && toType == "Char" then Ok(StrHasLengthOne(v))
    else if fromType in ["Int", "Float", "Double"] && toType == "Bool" then Ok(true)
    else Ok(false)
  }

  /** Same type is always allowed; String to Int, for ASCII text, iff the
      text without its leading and trailing dashes is non-empty digits, and
      never when that text holds an ASCII non-digit; String to Char iff it
      has one character; the only errors are String to Float and a String
      to Int whose text is unknown or holds non-ASCII characters; and every
      other allowed pair is a float narrowing or a number to Bool. */
  lemma CanExplicitlyConvertCases(fromType: string, toType: string, v: Value)
    ensures var r := CanExplicitlyConvert(fromType, toType, v);
      (fromType == toType ==> r == Ok(true)) &&
      (fromType != toType && fromType == "String" && toType == "Int" && v.VStr? && IsAscii(StripDashes(v.s)) ==>
        r == Ok(IsDigitString(StripDashes(v.s)))) &&
      (fromType != toType && fromType == "String" && toType == "Int" && v.VStr? && HasAsciiNonDigit(StripDashes(v.s)) ==>
        r == Ok(false)) &&
      (fromType != toType && fromType == "String" && toType == "Char" ==> r == Ok(StrHasLengthOne(v))) &&
      (r.Err? ==>
         fromType == "String" &&
         (toType == "Float" || (toType == "Int" && (PyStr(v).None? || !IsAscii(StripDashes(PyStr(v).value)))))) &&
      (r == Ok(true) && fromType != toType ==>
        (fromType in ["Float", "Double"] && toType in ["Float", "Double", "Int"]) ||
        (fromType == "String" && (toType == "Int" || toType == "Char")) ||
        (fromType in ["Int", "Float", "Double"] && toType == "Bool"))
  {
  }

  // ---------------------------------------------------------------------
  // Converting values

  /** An optional '-' followed by a non-empty run of ASCII digits. */
  predicate IsSignedDigits(s: string) {
    IsDigitString(s) || (|s| > 0 && s[0] == '-' && IsDigitString(s[1..]))
  }

  function SignedDigitsValue(s: string): int
    requires IsSignedDigits(s)
  {
    if IsDigitString(s) then DigitsValue(s) else -(DigitsValue(s[1..]) as int)
  }

  /** `int(float(value))`, where the model knows the answer. */
  function IntOfFloatOf(v: Value, fromType: string, toType: string): Result<Value, CheckError> {
    if IsIntLike(v) then
      if ExactAsFloat(v) then Ok(VInt(AsInt(v)))
      else Err(Py(NotModelled("float rounding of a large integer")))
    else if v.VStr? then
      if IsSignedDigits(v.s) then
        var n := SignedDigitsValue(v.s);
        if -MaxExactFloatInt <= n <= MaxExactFloatInt then Ok(VInt(n))
        else Err(Py(NotModelled("float rounding of a large integer")))
      else if IsDigitString(StripDashes(v.s)) then
        // dashes around the digits in any other arrangement: float() raises ValueError
        Err(TypeError(CannotConvert(fromType, toType)))
      else Err(Py(NotModelled("float parsing")))
    else if v.VFloat? then Err(Py(NotModelled("float truncation")))
    else Err(Py(HostError("float() argument must be a string or a real number")))
  }

  function FloatOf(v: Value): Result<Value, CheckError> {
    if IsIntLike(v) then
      if ExactAsFloat(v) then Ok(VFloat)
      else Err(Py(NotModelled("float conversion of a large integer")))
    else if v.VFloat? then Ok(VFloat)
    else if v.VStr? then Err(Py(NotModelled("float parsing")))
    else Err(Py(HostError("float() argument must be a string or a real number")))
  }

  const TrueWords: seq<string> := ["true", "1", "yes"]

  /** `convert_value`: to Int through a float, to Float/Double as a float, to
      String as `str`, to Char only a one-character text, to Bool by
      truthiness (strings by lower-case membership in "true", "1", "yes");
      any other target is an unsupported conversion. */
  function ConvertValue(v: Value, fromType: string, toType: string): Result<Value, CheckError> {
    if toType == "Int" then IntOfFloatOf(v, fromType, toType)
    else if toType == "Float" || toType == "Double" then FloatOf(v)
    else if toType == "String" then
      if PyStr(v).Some? then Ok(VStr(PyStr(v).value)) else Err(Py(NotModelled("repr of a value")))
    else if toType == "Char" then
      if StrHasLengthOne(v) then Ok(VStr(PyStr(v).value)) else Err(TypeError(CannotConvert(fromType, toType)))
    else if toType == "Bool" then
      if IsIntLike(v) then Ok(VBool(AsInt(v) != 0))
      else if v.VStr? then Ok(VBool(ToLower(v.s) in TrueWords))
      else match Truthy(v)
        case Ok(b) => Ok(VBool(b))
        case Err(e) => Err(Py(e))
    else Err(TypeError(UnsupportedConversion(fromType, toType)))
  }

  /** What each conversion target gives: `str` for String, exactly one
      character for Char, non-zero or a true word for Bool, a refusal for
      any name the table does not know. */
  lemma ConvertValueCases(v: Value, fromType: string, toType: string)
    ensures var r := ConvertValue(v, fromType, toType);
      (toType == "String" && PyStr(v).Some? ==> r == Ok(VStr(PyStr(v).value))) &&
      (toType == "Char" ==> (r.Ok? <==> StrHasLengthOne(v))) &&
      (toType == "Char" && r.Ok? ==> r.value == VStr(PyStr(v).value)) &&
      (toType == "Char" && r.Err? ==> r.error == TypeError(CannotConvert(fromType, toType))) &&
      (toType == "Bool" && IsIntLike(v) ==> r == Ok(VBool(AsInt(v) != 0))) &&
      (toType == "Bool" && v.VStr? ==> r == Ok(VBool(ToLower(v.s) in TrueWords))) &&
      (toType !in ["Int", "Float", "Double", "String", "Char", "Bool"] ==>
        r == Err(TypeError(UnsupportedConversion(fromType, toType))))
  {
  }

  lemma {:induction false} DigitsOfNat(n: nat)
    ensures IsDigitString(NatToString(n)) && DigitsValue(NatToString(n)) == n
  {
    NatToStringRoundTrip(n);
  }

  /** Converting an integer to String and back to Int gives the integer again. */
  lemma IntStringRoundTrip(i: int)
    requires -MaxExactFloatInt <= i <= MaxExactFloatInt
    ensures ConvertValue(VInt(i), "Int", "String") == Ok(VStr(IntToString(i)))
    ensures ConvertValue(VStr(IntToString(i)), "String", "Int") == Ok(VInt(i))
  {
    var s := IntToString(i);
    if i < 0 {
      DigitsOfNat(-i);
      assert s[1..] == NatToString(-i);
      assert !IsDigitString(s) by { assert s[0] == '-'; }
      assert IsSignedDigits(s) && SignedDigitsValue(s) == i;
    } else {
      DigitsOfNat(i);
      assert IsSignedDigits(s) && SignedDigitsValue(s) == i;
    }
  }

  /** `get_type_name`: booleans are ints to `isinstance`, so they are "Int";
      one-character strings are "Char". */
  function GetTypeName(v: Value): (r: string)
    ensures r in ["Int", "Float", "Char", "String", "Unknown"]
    ensures v.VBool? ==> r == "Int"
    ensures v.VStr? ==> (r == "Char" <==> |v.s| == 1)
  {
    match v
    case VInt(_) => "Int"
    case VBool(_) => "Int"
    case VFloat => "Float"
    case VStr(s) => if |s| == 1 then "Char" else "String"
    case _ => "Unknown"
  }

  // ---------------------------------------------------------------------
  // Generic instantiation and compatibility

  /** `is_valid_instantiation`: a GENERIC type and an INSTANTIATED type of
      the same name and arity, whose arguments satisfy the type parameters'
      constraints and instantiate the nested generic parameters. */
  function IsValidInstantiation(g: TypeAnnotation, inst: TypeAnnotation): (r: bool)
    ensures r ==> (IsGeneric(g) && IsInstantiated(inst) && g.name == inst.name &&
      |g.parameters| == |inst.parameters|)
    decreases g, 1
  {
    IsGeneric(g) && IsInstantiated(inst) && g.name == inst.name &&
    |g.parameters| == |inst.parameters| && ArgumentsValid(g, inst, 0)
  }

  function ArgumentsValid(g: TypeAnnotation, inst: TypeAnnotation, i: nat): bool
    requires |g.parameters| == |inst.parameters| && i <= |g.parameters|
    decreases g, 0, |g.parameters| - i
  {
    if i == |g.parameters| then true
    else
      inst.parameters[i].Concrete? &&
      match g.parameters[i]
      case Param(p) => IsSatisfiedBy(p, inst.parameters[i].ann, IsSubtype) && ArgumentsValid(g, inst, i + 1)
      case Concrete(a) => IsValidInstantiation(a, inst.parameters[i].ann) && ArgumentsValid(g, inst, i + 1)
  }

  predicate Unconstrained(g: TypeAnnotation) {
    forall i :: 0 <= i < |g.parameters| ==> g.parameters[i].Param? && |g.parameters[i].param.constraints| == 0
  }

  lemma {:induction false} ArgumentsValidUnconstrained(g: TypeAnnotation, inst: TypeAnnotation, i: nat)
    requires Unconstrained(g) && |g.parameters| == |inst.parameters| && i <= |g.parameters|
    requires forall j :: 0 <= j < |inst.parameters| ==> inst.parameters[j].Concrete?
    ensures ArgumentsValid(g, inst, i)
    decreases |g.parameters| - i
  {
    if i < |g.parameters| {
      ArgumentsValidUnconstrained(g, inst, i + 1);
    }
  }

  /** Instantiating a generic type whose parameters are unconstrained (as all
      the predefined ones are) with as many arguments as parameters gives an
      instance that `is_valid_instantiation` accepts. */
  lemma InstantiateIsValid(g: TypeAnnotation, args: seq<TypeAnnotation>)
    requires IsGeneric(g) && Unconstrained(g) && |args| == |g.parameters| > 0
    ensures Instantiate(g, args).Ok? && IsValidInstantiation(g, Instantiate(g, args).value)
  {
    ArgumentsValidUnconstrained(g, Instantiate(g, args).value, 0);
  }

  /** `are_types_compatible`. */
  function AreTypesCompatible(target: TypeAnnotation, valueType: TypeAnnotation): bool {
    if target.name == valueType.name then
      if IsGeneric(target) || IsInstantiated(target) then
        if !IsGeneric(valueType) && !IsInstantiated(valueType) then false
        else IsValidInstantiation(target, valueType)
      else true
    else if IsPrimitive(target) && IsPrimitive(valueType) then
      CanImplicitlyConvert(valueType.name, target.name) || IsSubtype(valueType.name, target.name)
    else false
  }

  /** Between primitive annotations, compatibility is exactly the subtype relation. */
  lemma PrimitiveCompatibility(target: TypeAnnotation, valueType: TypeAnnotation)
    requires IsPrimitive(target) && IsPrimitive(valueType)
    ensures AreTypesCompatible(target, valueType) <==> IsSubtype(valueType.name, target.name)
  {
  }

  /** Two INSTANTIATED annotations of the same name are never compatible,
      because `is_valid_instantiation` wants a GENERIC target. */
  lemma InstantiatedNeverCompatible(target: TypeAnnotation, valueType: TypeAnnotation)
    requires IsInstantiated(target) && target.name == valueType.name
    ensures !AreTypesCompatible(target, valueType)
  {
  }

  // ---------------------------------------------------------------------
  // Assignment and cast validation

  predicate IsNumericName(name: string) { name in ["Int", "Float", "Double"] }

  /** `validate_assignment`. */
  function ValidateAssignment(target: TypeAnnotation, v: Value, valueType: TypeAnnotation): Result<Value, CheckError> {
    if IsGeneric(target) || IsInstantiated(target) then
      if !AreTypesCompatible(target, valueType) then Err(TypeError(CannotAssign(valueType.name, target.name)))
      else Ok(v)
    else if IsPrimitive(target) && IsPrimitive(valueType) then
      if target.name == valueType.name then Ok(v)
      else if CanImplicitlyConvert(valueType.name, target.name) || IsSubtype(valueType.name, target.name) ||
              (target.name == "Bool" && IsNumericName(valueType.name)) then
        ConvertValue(v, valueType.name, target.name)
      else Err(TypeError(CannotAssign(valueType.name, target.name)))
    else Err(TypeError(InvalidAnnotations))
  }

  /** A generic or instantiated target is checked for compatibility alone;
      equal primitive names pass the value through; any other pair that is
      not two primitives is refused as invalid annotations. */
  lemma ValidateAssignmentCases(target: TypeAnnotation, v: Value, valueType: TypeAnnotation)
    ensures var r := ValidateAssignment(target, v, valueType);
      ((IsGeneric(target) || IsInstantiated(target)) ==>
        r == (if AreTypesCompatible(target, valueType) then Ok(v)
              else Err(TypeError(CannotAssign(valueType.name, target.name))))) &&
      (IsPrimitive(target) && IsPrimitive(valueType) && target.name == valueType.name ==> r == Ok(v)) &&
      (!(IsGeneric(target) || IsInstantiated(target)) && !(IsPrimitive(target) && IsPrimitive(valueType)) ==>
        r == Err(TypeError(InvalidAnnotations)))
  {
  }

  /** Between different primitive names an assignment is refused as "cannot
      assign" exactly when the value's type is neither a subtype of the
      target nor a number assigned to Bool; otherwise the value is converted. */
  lemma AssignmentDecision(target: TypeAnnotation, v: Value, valueType: TypeAnnotation)
    requires IsPrimitive(target) && IsPrimitive(valueType) && target.name != valueType.name
    ensures var allowed := IsSubtype(valueType.name, target.name) ||
        (target.name == "Bool" && IsNumericName(valueType.name));
      (ValidateAssignment(target, v, valueType) == Err(TypeError(CannotAssign(valueType.name, target.name)))) <==> !allowed
    ensures IsSubtype(valueType.name, target.name) || (target.name == "Bool" && IsNumericName(valueType.name)) ==>
      ValidateAssignment(target, v, valueType) == ConvertValue(v, valueType.name, target.name)
  {
    var r := ConvertValue(v, valueType.name, target.name);
    assert r.Err? && r.error.TypeError? ==> !r.error.reason.CannotAssign?;
  }

  /** An Int is widened to Float on assignment; a Float is never narrowed to Int. */
  lemma NumericAssignments(i: int)
    requires -MaxExactFloatInt <= i <= MaxExactFloatInt
    ensures ValidateAssignment(MakeAnnotation("Float", [], Primitive), VInt(i), MakeAnnotation("Int", [], Primitive)) == Ok(VFloat)
    ensures ValidateAssignment(MakeAnnotation("Int", [], Primitive), VFloat, MakeAnnotation("Float", [], Primitive)) ==
      Err(TypeError(CannotAssign("Float", "Int")))
  {
  }

  /** `validate_type_cast` on annotations. */
  function ValidateTypeCast(v: Value, fromType: TypeAnnotation, toType: TypeAnnotation): Result<Value, CheckError> {
    if IsGeneric(toType) || IsGeneric(fromType) then
      if !IsValidInstantiation(fromType, toType) then Err(TypeError(CannotCastGeneric(fromType.name, toType.name)))
      else Ok(v)
    else if IsPrimitive(fromType) && IsPrimitive(toType) then
      match CanExplicitlyConvert(fromType.name, toType.name, v)
      case Err(e) => Err(e)
      case Ok(false) => Err(TypeError(CannotCastValue(fromType.name, toType.name)))
      case Ok(true) => ConvertValue(v, fromType.name, toType.name)
    else Err(TypeError(UnsupportedCast(fromType.name, toType.name)))
  }

  /** A generic side needs a valid instantiation; between two primitives
      the cast is refused as "cannot cast" exactly when explicit conversion
      says no; any other pair is an unsupported cast. */
  lemma ValidateTypeCastCases(v: Value, fromType: TypeAnnotation, toType: TypeAnnotation)
    ensures var r := ValidateTypeCast(v, fromType, toType);
      ((IsGeneric(fromType) || IsGeneric(toType)) ==>
        r == (if IsValidInstantiation(fromType, toType) then Ok(v)
              else Err(TypeError(CannotCastGeneric(fromType.name, toType.name))))) &&
      (!(IsGeneric(fromType) || IsGeneric(toType)) && IsPrimitive(fromType) && IsPrimitive(toType) ==>
        (CanExplicitlyConvert(fromType.name, toType.name, v) == Ok(false) <==>
         r == Err(TypeError(CannotCastValue(fromType.name, toType.name))))) &&
      (!(IsGeneric(fromType) || IsGeneric(toType)) && !(IsPrimitive(fromType) && IsPrimitive(toType)) ==>
        r == Err(TypeError(UnsupportedCast(fromType.name, toType.name))))
  {
    var c := ConvertValue(v, fromType.name, toType.name);
    assert c.Err? && c.error.TypeError? ==> !c.error.reason.CannotCastValue?;
  }

  /** `validate_type_cast` called with type names, as the interpreter does:
      the names become annotations through the constructor. */
  function CastByName(v: Value, fromName: string, toName: string): Result<Value, CheckError> {
    ValidateTypeCast(v, MakeAnnotation(fromName, [], Primitive), MakeAnnotation(toName, [], Primitive))
  }

  /** Even an identity cast fails when the name is not one `convert_value` knows. */
  lemma IdentityCastToUnknownFails(v: Value)
    ensures CastByName(v, "Unknown", "Unknown") == Err(TypeError(UnsupportedConversion("Unknown", "Unknown")))
  {
  }

  /** A cast names its source type by `get_type_name`, so a multi-character
      string is never cast to Char, and an integer is never cast to String. */
  lemma RefusedCasts(s: string, i: int)
    requires |s| != 1
    ensures CastByName(VStr(s), GetTypeName(VStr(s)), "Char") == Err(TypeError(CannotCastValue("String", "Char")))
    ensures CastByName(VInt(i), GetTypeName(VInt(i)), "String") == Err(TypeError(CannotCastValue("Int", "String")))
  {
  }

  /** A string of digits with a leading '-' is cast to the integer it spells. */
  lemma StringToIntCast(i: int)
    requires -MaxExactFloatInt <= i <= MaxExactFloatInt && (i < 0 || i >= 10)
    ensures GetTypeName(VStr(IntToString(i))) == "String"
    ensures CastByName(VStr(IntToString(i)), "String", "Int") == Ok(VInt(i))
  {
    var s := IntToString(i);
    IntStringRoundTrip(i);
    if i < 0 {
      assert |s| >= 2;
      assert s[1..] == NatToString(-i);
      DigitsOfNat(-i);
      StripDashesOfDigits(s[1..]);
      assert StripDashes(s) == StripDashes(s[1..]);
    } else {
      DigitsOfNat(i);
      StripDashesOfDigits(s);
      assert NatToString(i / 10) + [s[|s| - 1]] == s;
    }
  }

  lemma StripDashesOfDigits(s: string)
    requires IsDigitString(s)
    ensures StripDashes(s) == s
  {
  }
}
