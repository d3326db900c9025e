/** The type vocabulary of noir_types.py: kinds, constraints, type parameters
    and type annotations, the kind derivation `__post_init__` performs, and
    the `instantiate` and `substitute` operations. */
module Types {
  import opened Common

  datatype TypeKind = Primitive | Generic | Parameter | Instantiated

  /** A constraint on a type parameter; `kind` is 'subtype', 'supertype' or 'equals'. */
  datatype TypeConstraint = TypeConstraint(kind: string, typeName: string)

  /** A type parameter such as T in Set<T>; a missing constraint list is empty. */
  datatype TypeParameter = TypeParameter(name: string, constraints: seq<TypeConstraint>)

  /** An element of an annotation's parameter list: an annotation or a type parameter. */
  datatype TypeArg = Concrete(ann: TypeAnnotation) | Param(param: TypeParameter)

  /** A type annotation. A missing parameter list (`None`) and an empty one are
      both the empty sequence here. They differ in noir_types.py where code calls
      `len` on the list: there `None` raises a TypeError, while this model goes on
      as for an empty list (see `Instantiate` and `ArgumentsValid`). */
  datatype TypeAnnotation = TypeAnnotation(name: string, parameters: seq<TypeArg>, kind: TypeKind)

  /** `name.isupper() and len(name) == 1` on ASCII names. */
  predicate IsSingleUpper(name: string) {
    |name| == 1 && 'A' <= name[0] <= 'Z'
  }

  predicate HasTypeParameter(params: seq<TypeArg>) {
    exists i :: 0 <= i < |params| && params[i].Param?
  }

  /** Building a `TypeAnnotation`: `__post_init__` replaces the requested kind
      by GENERIC or INSTANTIATED whenever there are parameters, and by
      PARAMETER for a parameterless one-letter upper-case name. */
  function MakeAnnotation(name: string, params: seq<TypeArg>, kind: TypeKind): (r: TypeAnnotation)
    ensures r.name == name && r.parameters == params
    ensures |params| > 0 ==> (r.kind == Generic <==> HasTypeParameter(params))
    ensures |params| > 0 ==> (r.kind == Instantiated <==> !HasTypeParameter(params))
    ensures |params| == 0 && IsSingleUpper(name) ==> r.kind == Parameter
    ensures |params| == 0 && !IsSingleUpper(name) ==> r.kind == kind
  {
    var k :=
      if |params| > 0 then (if HasTypeParameter(params) then Generic else Instantiated)
      else if IsSingleUpper(name) then Parameter
      else kind;
    TypeAnnotation(name, params, k)
  }

  /** Re-deriving the kind of an annotation that was built by the constructor changes nothing. */
  lemma MakeAnnotationIdempotent(name: string, params: seq<TypeArg>, kind: TypeKind)
    ensures var r := MakeAnnotation(name, params, kind);
      MakeAnnotation(r.name, r.parameters, r.kind) == r
  {
  }

  /** An annotation some constructor call can produce, all the way down. */
  predicate WellFormed(a: TypeAnnotation)
    decreases a
  {
    MakeAnnotation(a.name, a.parameters, a.kind) == a &&
    forall i :: 0 <= i < |a.parameters| ==> a.parameters[i].Concrete? ==> WellFormed(a.parameters[i].ann)
  }

  predicate IsGeneric(a: TypeAnnotation) { a.kind == Generic }
  predicate IsInstantiated(a: TypeAnnotation) { a.kind == Instantiated }
  predicate IsPrimitive(a: TypeAnnotation) { a.kind == Primitive }

  /** The three kind tests are exclusive, and none holds for a PARAMETER. */
  lemma KindTestsExclusive(a: TypeAnnotation)
    ensures !(IsGeneric(a) && IsInstantiated(a)) && !(IsGeneric(a) && IsPrimitive(a))
    ensures !(IsInstantiated(a) && IsPrimitive(a))
    ensures a.kind == Parameter ==> !IsGeneric(a) && !IsInstantiated(a) && !IsPrimitive(a)
  {
  }

  /** Why `instantiate` refuses. */
  datatype InstantiateError = NotGeneric(name: string) | WrongArgumentCount(name: string)

  function AsArgs(anns: seq<TypeAnnotation>): (r: seq<TypeArg>)
    ensures |r| == |anns| && forall i :: 0 <= i < |r| ==> r[i] == Concrete(anns[i])
  {
    seq(|anns|, i requires 0 <= i < |anns| => Concrete(anns[i]))
  }

  /** `instantiate`: only a GENERIC annotation with as many arguments as
      parameters can be instantiated; the result keeps the name, takes the
      arguments as parameters and is INSTANTIATED (or, with no parameters at
      all, whatever the constructor derives for the bare name). */
  function Instantiate(a: TypeAnnotation, args: seq<TypeAnnotation>): (r: Result<TypeAnnotation, InstantiateError>)
    ensures r.Ok? <==> IsGeneric(a) && |args| == |a.parameters|
    ensures !IsGeneric(a) ==> r == Err(NotGeneric(a.name))
    ensures IsGeneric(a) && |args| != |a.parameters| ==> r == Err(WrongArgumentCount(a.name))
    ensures r.Ok? ==> r.value.name == a.name && r.value.parameters == AsArgs(args)
    ensures r.Ok? && |args| > 0 ==> IsInstantiated(r.value)
  {
    if !IsGeneric(a) then Err(NotGeneric(a.name))
    else if |args| != |a.parameters| then Err(WrongArgumentCount(a.name))
    else Ok(MakeAnnotation(a.name, AsArgs(args), Instantiated))
  }

  /** `substitute`: a PARAMETER is looked up in `m` (kept when absent); the
      annotation parameters of a parameterised annotation are substituted and
      its type parameters kept; anything else is returned unchanged. */
  function Substitute(a: TypeAnnotation, m: map<string, TypeAnnotation>): TypeAnnotation
    decreases a, 1
  {
    if a.kind == Parameter then (if a.name in m then m[a.name] else a)
    else if |a.parameters| > 0 then MakeAnnotation(a.name, SubstituteArgs(a, a.parameters, m), a.kind)
    else a
  }

  function SubstituteArgs(ghost owner: TypeAnnotation, params: seq<TypeArg>, m: map<string, TypeAnnotation>): (r: seq<TypeArg>)
    requires forall i :: 0 <= i < |params| ==> params[i] < owner
    ensures |r| == |params|
    ensures forall i :: 0 <= i < |params| ==> r[i].Param? == params[i].Param?
    ensures forall i :: 0 <= i < |params| ==> params[i].Param? ==> r[i] == params[i]
    decreases owner, 0, |params|
  {
    if |params| == 0 then []
    else
      var first := match params[0]
        case Concrete(ann) => Concrete(Substitute(ann, m))
        case Param(p) => Param(p);
      [first] + SubstituteArgs(owner, params[1..], m)
  }

  /** Substitution keeps the name, the number of parameters, every type
      parameter and, for an annotation built by the constructor, its kind.
      In particular it never turns a GENERIC annotation whose parameters are
      type parameters into an INSTANTIATED one. */
  lemma SubstituteKeepsShape(a: TypeAnnotation, m: map<string, TypeAnnotation>)
    requires WellFormed(a) && a.kind != Parameter
    ensures var r := Substitute(a, m);
      r.name == a.name && r.kind == a.kind && |r.parameters| == |a.parameters| &&
      forall i :: 0 <= i < |a.parameters| ==> a.parameters[i].Param? ==> r.parameters[i] == a.parameters[i]
  {
    if |a.parameters| > 0 {
      var ps := SubstituteArgs(a, a.parameters, m);
      assert HasTypeParameter(ps) <==> HasTypeParameter(a.parameters) by {
        if HasTypeParameter(a.parameters) {
          var i :| 0 <= i < |a.parameters| && a.parameters[i].Param?;
          assert ps[i].Param?;
        }
        if HasTypeParameter(ps) {
          var i :| 0 <= i < |ps| && ps[i].Param?;
          assert a.parameters[i].Param?;
        }
      }
    }
  }

  /** Substituting with an empty map is the identity on annotations built by the constructor. */
  lemma {:induction false} SubstituteEmpty(a: TypeAnnotation)
    requires WellFormed(a)
    ensures Substitute(a, map[]) == a
    decreases a, 1
  {
    if a.kind != Parameter && |a.parameters| > 0 {
      SubstituteArgsEmpty(a, a.parameters);
    }
  }

  lemma {:induction false} SubstituteArgsEmpty(owner: TypeAnnotation, params: seq<TypeArg>)
    requires forall i :: 0 <= i < |params| ==> params[i] < owner
    requires forall i :: 0 <= i < |params| ==> params[i].Concrete? ==> WellFormed(params[i].ann)
    ensures SubstituteArgs(owner, params, map[]) == params
    decreases owner, 0, |params|
  {
    if |params| > 0 {
      if params[0].Concrete? {
        SubstituteEmpty(params[0].ann);
      }
      SubstituteArgsEmpty(owner, params[1..]);
      assert [params[0]] + params[1..] == params;
    }
  }

  /** A parameter annotation is replaced by its binding, if any. */
  lemma SubstituteParameter(a: TypeAnnotation, m: map<string, TypeAnnotation>)
    requires a.kind == Parameter
    ensures a.name in m ==> Substitute(a, m) == m[a.name]
    ensures a.name !in m ==> Substitute(a, m) == a
  {
  }

  // ---------------------------------------------------------------------
  // Constraint satisfaction

  /** One constraint against a candidate type; unknown constraint kinds hold. */
  predicate ConstraintHolds(c: TypeConstraint, a: TypeAnnotation, isSubtype: (string, string) -> bool) {
    if c.kind == "subtype" then isSubtype(a.name, c.typeName)
    else if c.kind == "supertype" then isSubtype(c.typeName, a.name)
    else if c.kind == "equals" then a.name == c.typeName
    else true
  }

  /** `is_satisfied_by`: the constraints are checked in order and the first
      failing one answers false. */
  function IsSatisfiedBy(p: TypeParameter, a: TypeAnnotation, isSubtype: (string, string) -> bool): (r: bool)
    ensures r <==> forall i :: 0 <= i < |p.constraints| ==> ConstraintHolds(p.constraints[i], a, isSubtype)
  {
    SatisfiedFrom(p.constraints, 0, a, isSubtype)
  }

  function SatisfiedFrom(cs: seq<TypeConstraint>, i: nat, a: TypeAnnotation, isSubtype: (string, string) -> bool): (r: bool)
    requires i <= |cs|
    ensures r <==> forall j :: i <= j < |cs| ==> ConstraintHolds(cs[j], a, isSubtype)
    decreases |cs| - i
  {
    if i == |cs| then true
    else if !ConstraintHolds(cs[i], a, isSubtype) then false
    else SatisfiedFrom(cs, i + 1, a, isSubtype)
  }

  // ---------------------------------------------------------------------
  // The predefined generic types

  const ListType := MakeAnnotation("List", [Param(TypeParameter("T", []))], Generic)
  const SetType := MakeAnnotation("Set", [Param(TypeParameter("T", []))], Generic)
  const OrderedSetType := MakeAnnotation("OSet", [Param(TypeParameter("T", []))], Generic)
  const DictionaryType := MakeAnnotation("Dict", [Param(TypeParameter("K", [])), Param(TypeParameter("V", []))], Generic)

  /** List, Set and OSet take one unconstrained parameter T, Dict takes K and
      V; all four are GENERIC, built by the constructor, and left unchanged by
      any substitution. */
  lemma PredefinedTypes(m: map<string, TypeAnnotation>)
    ensures IsGeneric(ListType) && IsGeneric(SetType) && IsGeneric(OrderedSetType) && IsGeneric(DictionaryType)
    ensures ListType.parameters == SetType.parameters == OrderedSetType.parameters == [Param(TypeParameter("T", []))]
    ensures DictionaryType.parameters == [Param(TypeParameter("K", [])), Param(TypeParameter("V", []))]
    ensures WellFormed(ListType) && WellFormed(SetType) && WellFormed(OrderedSetType) && WellFormed(DictionaryType)
    ensures Substitute(ListType, m) == ListType && Substitute(DictionaryType, m) == DictionaryType
  {
    assert HasTypeParameter(ListType.parameters) by { assert ListType.parameters[0].Param?; }
    assert HasTypeParameter(SetType.parameters) by { assert SetType.parameters[0].Param?; }
    assert HasTypeParameter(OrderedSetType.parameters) by { assert OrderedSetType.parameters[0].Param?; }
    assert HasTypeParameter(DictionaryType.parameters) by { assert DictionaryType.parameters[0].Param?; }
    SubstituteKeepsShape(ListType, m);
    SubstituteKeepsShape(DictionaryType, m);
    var l := Substitute(ListType, m);
    assert l.parameters == ListType.parameters;
    var d := Substitute(DictionaryType, m);
    assert d.parameters == DictionaryType.parameters;
  }
}
