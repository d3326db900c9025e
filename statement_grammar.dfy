/** The parts of the statement grammar of noir_parser.py that do not touch
    the block stack, as functions over a token sequence and a position in the
    style of module Grammar: function signatures, for-loop headers, protocol
    members and enum variants. The statement routines of the `Parser` class
    are proved to compute these and state their block-stack effects on top. */
module StatementGrammar {
  import opened Common
  import opened Tokens
  import opened Types
  import opened Ast
  import opened Grammar

  /** NEWLINE and COMMENT, which enum and protocol bodies skip between members. */
  const Layout: set<TokenKind> := {Newline, Comment}

  /** The members of the token enumeration that `declaration` and
      `enum_declaration` look up but that the enumeration does not define;
      the lookup raises an AttributeError, an `InternalError` here. */
  const NoEnumMember: string := "ENUM"
  const NoConformanceMember: string := "CONFORMANCE"

  // ---------------------------------------------------------------------
  // Variable declarations

  /** `finish_variable_declaration`, started where `parse_type_annotation`
      starts: a type, a required `=`, and the initializer. */
  function VariableDeclAt(toks: seq<Token>, pos: nat, name: string): (r: Parsed<Stmt>)
    requires pos <= |toks|
    ensures pos <= r.next <= |toks|
    ensures r.Done? ==> r.value.VariableDecl? && r.value.name == name && r.value.initializer.Some?
  {
    match AnnotationAt(toks, pos)
    case Failed(e, p) => Failed(e, p)
    case Done(t, p) => InitializerAt(toks, p, name, t)
  }

  /** The rest of a declaration once its type `t` is read: `=` and the
      initializer, which every declaration must have. */
  function InitializerAt(toks: seq<Token>, p: nat, name: string, t: TypeAnnotation): (r: Parsed<Stmt>)
    requires p <= |toks|
    ensures p <= r.next <= |toks|
    ensures r.Done? ==> r.value.VariableDecl? && r.value.name == name && r.value.typeAnnotation == t && r.value.initializer.Some?
  {
    if !CheckAt(toks, p, TokenKind.Assign) then Failed(ParseError(VariablesMustBeInitialized, PeekAt(toks, p)), p)
    else
      match ExpressionAt(toks, p + 1)
      case Failed(e, q) => Failed(e, q)
      case Done(init, q) => Done(VariableDecl(name, t, Some(init)), q)
  }

  /** Once a type is read, the declaration is decided by what follows it. */
  lemma AfterAnnotation(toks: seq<Token>, pos: nat, name: string, t: TypeAnnotation, p: nat)
    requires pos <= p <= |toks| && AnnotationAt(toks, pos) == Done(t, p)
    ensures VariableDeclAt(toks, pos, name) == InitializerAt(toks, p, name, t)
  {
  }

  /** A type with no `=` after it is refused: every variable needs an initializer. */
  lemma InitializerMissing(toks: seq<Token>, p: nat, name: string, t: TypeAnnotation)
    requires p <= |toks| && !CheckAt(toks, p, TokenKind.Assign)
    ensures InitializerAt(toks, p, name, t) == Failed(ParseError(VariablesMustBeInitialized, PeekAt(toks, p)), p)
  {
  }

  /** `=` and an initializer after the type complete the declaration. */
  lemma InitializerDone(toks: seq<Token>, p: nat, name: string, t: TypeAnnotation, start: nat, init: Expr, q: nat)
    requires p < |toks| && CheckAt(toks, p, TokenKind.Assign) && start == p + 1 && ExpressionAt(toks, start) == Done(init, q)
    ensures InitializerAt(toks, p, name, t) == Done(VariableDecl(name, t, Some(init)), q)
  {
  }

  /** An initializer that fails to parse fails the declaration where it stopped. */
  lemma InitializerFailed(toks: seq<Token>, p: nat, name: string, t: TypeAnnotation, start: nat, e: ParseFailure, q: nat)
    requires p < |toks| && CheckAt(toks, p, TokenKind.Assign) && start == p + 1 && ExpressionAt(toks, start) == Failed(e, q)
    ensures InitializerAt(toks, p, name, t) == Failed(e, q)
  {
  }

  /** `declaration` hands `finish_variable_declaration` the cursor AT the
      colon it has only checked for, and a colon cannot start a type: every
      variable declaration is refused with ExpectedTypeName at its colon. */
  lemma VariableDeclarationRefused(toks: seq<Token>, pos: nat, name: string)
    requires pos <= |toks| && CheckAt(toks, pos, Colon)
    ensures VariableDeclAt(toks, pos, name) == Failed(ParseError(ExpectedTypeName, toks[pos]), pos)
  {
    NotATypeName(toks, pos);
  }

  // ---------------------------------------------------------------------
  // Parameters and return types

  /** Function declarations and protocol methods parse parameters alike
      but word their errors differently. */
  datatype ParamStyle = FunctionParams | MemberParams
  {
    function NameMessage(): Message {
      if FunctionParams? then ExpectedParameterName else ExpectedMemberParameterName
    }
    function ColonMessage(): Message {
      if FunctionParams? then ExpectedParameterColon else ExpectedMemberParameterColon
    }
    function CloseMessage(): Message {
      if FunctionParams? then ExpectedParametersClose else ExpectedMemberParametersClose
    }
  }

  /** One `name: Type` parameter; the messages differ between function
      declarations and protocol methods. */
  function ParameterAt(toks: seq<Token>, pos: nat, style: ParamStyle): (r: Parsed<FunctionParam>)
    requires pos <= |toks|
    ensures pos <= r.next <= |toks| && (r.Done? ==> pos + 2 < r.next)
    ensures r.Done? ==> r.value.name == toks[pos].lexeme && toks[pos].kind == TokenKind.Identifier
  {
    match ConsumeAt(toks, pos, TokenKind.Identifier, style.NameMessage())
    case Failed(e, p) => Failed(e, p)
    case Done(name, p) =>
      match ConsumeAt(toks, p, Colon, style.ColonMessage())
      case Failed(e, q) => Failed(e, q)
      case Done(_, q) =>
        match AnnotationAt(toks, q)
        case Failed(e, q2) => Failed(e, q2)
        case Done(t, q2) => Done(FunctionParam(name.lexeme, t), q2)
  }

  /** Parameters separated by commas, at least one. */
  function ParameterListAt(toks: seq<Token>, pos: nat, acc: seq<FunctionParam>, style: ParamStyle): (r: Parsed<seq<FunctionParam>>)
    requires pos <= |toks|
    ensures pos <= r.next <= |toks| && (r.Done? ==> pos < r.next)
    decreases |toks| - pos, 1
  {
    match ParameterAt(toks, pos, style)
    case Failed(e, p) => Failed(e, p)
    case Done(param, p) => ParameterListAfter(toks, p, acc + [param], style)
  }

  /** After a parameter: a comma continues the list, anything else ends it. */
  function ParameterListAfter(toks: seq<Token>, p: nat, acc: seq<FunctionParam>, style: ParamStyle): (r: Parsed<seq<FunctionParam>>)
    requires p <= |toks|
    ensures p <= r.next <= |toks|
    ensures !CheckAt(toks, p, Comma) ==> r == Done(acc, p)
    decreases |toks| - p, 0
  {
    if CheckAt(toks, p, Comma) then ParameterListAt(toks, p + 1, acc, style)
    else Done(acc, p)
  }

  /** A parameter list after its `(`, possibly empty, with the closing `)`. */
  function ParametersAt(toks: seq<Token>, pos: nat, style: ParamStyle): (r: Parsed<seq<FunctionParam>>)
    requires pos <= |toks|
    ensures pos <= r.next <= |toks| && (r.Done? ==> pos < r.next)
  {
    var ps := if CheckAt(toks, pos, RParen) then Done([], pos) else ParameterListAt(toks, pos, [], style);
    match ps
    case Failed(e, p) => Failed(e, p)
    case Done(params, p) =>
      match ConsumeAt(toks, p, RParen, style.CloseMessage())
      case Failed(e, q) => Failed(e, q)
      case Done(_, q) => Done(params, q)
  }

  /** An optional `-> Type`. */
  function ReturnTypeAt(toks: seq<Token>, pos: nat): (r: Parsed<Option<TypeAnnotation>>)
    requires pos <= |toks|
    ensures pos <= r.next <= |toks|
    ensures !CheckAt(toks, pos, Arrow) ==> r == Done(None, pos)
    ensures r.Done? && r.value.Some? ==> CheckAt(toks, pos, Arrow) && pos < r.next
  {
    if CheckAt(toks, pos, Arrow) then
      match AnnotationAt(toks, pos + 1)
      case Failed(e, p) => Failed(e, p)
      case Done(t, p) => Done(Some(t), p)
    else Done(None, pos)
  }

  /** What a function declaration states between its name and its body. */
  datatype Signature = Signature(params: seq<FunctionParam>, returnType: Option<TypeAnnotation>)

  /** A function declaration after its name, up to and including the `:`
      that opens the body. */
  function SignatureAt(toks: seq<Token>, pos: nat): (r: Parsed<Signature>)
    requires pos <= |toks|
    ensures pos <= r.next <= |toks| && (r.Done? ==> pos < r.next)
  {
    match ConsumeAt(toks, pos, LParen, ExpectedFunctionParen)
    case Failed(e, p) => Failed(e, p)
    case Done(_, p) =>
      match ParametersAt(toks, p, FunctionParams)
      case Failed(e, q) => Failed(e, q)
      case Done(params, q) => SignatureTailAt(toks, q, params)
  }

  /** The return type and the `:` of a signature, after its parameter list. */
  function SignatureTailAt(toks: seq<Token>, pos: nat, params: seq<FunctionParam>): (r: Parsed<Signature>)
    requires pos <= |toks|
    ensures pos <= r.next <= |toks| && (r.Done? ==> pos < r.next && r.value.params == params)
  {
    match ReturnTypeAt(toks, pos)
    case Failed(e, p) => Failed(e, p)
    case Done(ret, p) =>
      match ConsumeAt(toks, p, Colon, ExpectedBodyColon)
      case Failed(e, q) => Failed(e, q)
      case Done(_, q) => Done(Signature(params, ret), q)
  }

  // ---------------------------------------------------------------------
  // For-loop headers

  /** What a for loop states before its body. */
  datatype ForHeader = ForHeader(variable: string, start: Expr, end: Expr, step: Option<Expr>, inclusive: bool)

  /** A for loop after its `for` keyword, up to and including the `:` that
      opens the body: the variable, `in`, the start, `to` or `thru`, the end,
      an optional `by` step. */
  function ForHeaderAt(toks: seq<Token>, pos: nat): (r: Parsed<ForHeader>)
    requires pos <= |toks|
    ensures pos <= r.next <= |toks| && (r.Done? ==> pos < r.next)
    ensures r.Done? ==> r.value.variable == toks[pos].lexeme
  {
    match ConsumeAt(toks, pos, TokenKind.Identifier, ExpectedIteratorName)
    case Failed(e, p) => Failed(e, p)
    case Done(name, p) =>
      match ConsumeAt(toks, p, In, ExpectedIn)
      case Failed(e, q) => Failed(e, q)
      case Done(_, q) => ForRangeAt(toks, q, name.lexeme)
  }

  /** The start of the range and the keyword that makes it exclusive (`to`)
      or inclusive (`thru`). */
  function ForRangeAt(toks: seq<Token>, pos: nat, variable: string): (r: Parsed<ForHeader>)
    requires pos <= |toks|
    ensures pos <= r.next <= |toks| && (r.Done? ==> pos < r.next)
    ensures r.Done? ==> r.value.variable == variable
  {
    match ExpressionAt(toks, pos)
    case Failed(e, p) => Failed(e, p)
    case Done(start, p) =>
      if CheckAt(toks, p, To) then ForEndAt(toks, p + 1, variable, start, false)
      else if CheckAt(toks, p, Thru) then ForEndAt(toks, p + 1, variable, start, true)
      else Failed(ParseError(ExpectedRangeKeyword, PeekAt(toks, p)), p)
  }

  /** The end of the range, the optional step and the `:`. */
  function ForEndAt(toks: seq<Token>, pos: nat, variable: string, start: Expr, inclusive: bool): (r: Parsed<ForHeader>)
    requires pos <= |toks|
    ensures pos <= r.next <= |toks| && (r.Done? ==> pos < r.next)
    ensures r.Done? ==> r.value.variable == variable && r.value.start == start && r.value.inclusive == inclusive
  {
    match ExpressionAt(toks, pos)
    case Failed(e, p) => Failed(e, p)
    case Done(end, p) =>
      match StepAt(toks, p)
      case Failed(e, q) => Failed(e, q)
      case Done(step, q) =>
        match ConsumeAt(toks, q, Colon, ExpectedForColon)
        case Failed(e, q2) => Failed(e, q2)
        case Done(_, q2) => Done(ForHeader(variable, start, end, step, inclusive), q2)
  }

  /** An optional `by` step. */
  function StepAt(toks: seq<Token>, pos: nat): (r: Parsed<Option<Expr>>)
    requires pos <= |toks|
    ensures pos <= r.next <= |toks|
    ensures !CheckAt(toks, pos, By) ==> r == Done(None, pos)
    ensures r.Done? && r.value.Some? ==> CheckAt(toks, pos, By) && pos < r.next
  {
    if CheckAt(toks, pos, By) then
      match ExpressionAt(toks, pos + 1)
      case Failed(e, p) => Failed(e, p)
      case Done(step, p) => Done(Some(step), p)
    else Done(None, pos)
  }

  // ---------------------------------------------------------------------
  // Protocol members

  /** A protocol member: a property `name: Type` or a method `name(params) [-> Type]`. */
  datatype Member = PropertyMember(property: ProtocolProperty) | MethodMember(signature: ProtocolMethod)

  /** The members collected so far, properties and methods apart. */
  datatype Members = Members(properties: seq<ProtocolProperty>, methods: seq<ProtocolMethod>)
  {
    function With(m: Member): (r: Members)
      ensures m.PropertyMember? ==> r == Members(properties + [m.property], methods)
      ensures m.MethodMember? ==> r == Members(properties, methods + [m.signature])
    {
      match m
      case PropertyMember(p) => Members(properties + [p], methods)
      case MethodMember(s) => Members(properties, methods + [s])
    }
  }

  /** A member after its name: `:` and a type, or a parenthesised parameter
      list and an optional return type; anything else is an error at the
      token after the name. */
  function MemberAt(toks: seq<Token>, pos: nat, name: string): (r: Parsed<Member>)
    requires pos <= |toks|
    ensures pos <= r.next <= |toks| && (r.Done? ==> pos < r.next)
    ensures r.Done? ==> (r.value.PropertyMember? <==> CheckAt(toks, pos, Colon))
    ensures r.Done? && r.value.PropertyMember? ==> r.value.property.name == name
    ensures r.Done? && r.value.MethodMember? ==> r.value.signature.name == name
    ensures !MatchesAny(toks, pos, {Colon, LParen}) ==> r == Failed(ParseError(ExpectedMemberForm, PeekAt(toks, pos)), pos)
  {
    if CheckAt(toks, pos, Colon) then
      match AnnotationAt(toks, pos + 1)
      case Failed(e, p) => Failed(e, p)
      case Done(t, p) => Done(PropertyMember(ProtocolProperty(name, t)), p)
    else if CheckAt(toks, pos, LParen) then
      match ParametersAt(toks, pos + 1, MemberParams)
      case Failed(e, p) => Failed(e, p)
      case Done(params, p) =>
        match ReturnTypeAt(toks, p)
        case Failed(e, q) => Failed(e, q)
        case Done(ret, q) => Done(MethodMember(ProtocolMethod(name, params, ret)), q)
    else Failed(ParseError(ExpectedMemberForm, PeekAt(toks, pos)), pos)
  }

  /** A member is a property after `:` or a method after `(`, read from
      just past that token. */
  lemma MemberEntry(toks: seq<Token>, pos: nat, name: string, inner: nat)
    requires pos < |toks| && inner == pos + 1
    ensures CheckAt(toks, pos, Colon) ==>
      var a := AnnotationAt(toks, inner);
      MemberAt(toks, pos, name) == if a.Failed? then Failed(a.error, a.next) else Done(PropertyMember(ProtocolProperty(name, a.value)), a.next)
    ensures !CheckAt(toks, pos, Colon) && CheckAt(toks, pos, LParen) ==>
      var ps := ParametersAt(toks, inner, MemberParams);
      MemberAt(toks, pos, name) ==
        if ps.Failed? then Failed(ps.error, ps.next)
        else
          var rt := ReturnTypeAt(toks, ps.next);
          if rt.Failed? then Failed(rt.error, rt.next) else Done(MethodMember(ProtocolMethod(name, ps.value, rt.value)), rt.next)
  {
  }

  /** The member loop of a protocol body: it stops at `::` or EOF, and
      otherwise takes the next member after the layout tokens. */
  function MembersAt(toks: seq<Token>, pos: nat, acc: Members): (r: Parsed<Members>)
    requires pos <= |toks|
    ensures pos <= r.next <= |toks|
    ensures CheckAt(toks, pos, DoubleColon) || AtEnd(toks, pos) ==> r == Done(acc, pos)
    decreases |toks| - pos, 1
  {
    if CheckAt(toks, pos, DoubleColon) || AtEnd(toks, pos) then Done(acc, pos)
    else NextMemberAt(toks, SkipFrom(toks, pos, Layout), acc)
  }

  /** One turn of the member loop after the layout tokens: `empty` ends the
      list, a name starts a member, anything else ends the list. */
  function NextMemberAt(toks: seq<Token>, pos: nat, acc: Members): (r: Parsed<Members>)
    requires pos <= |toks|
    ensures pos <= r.next <= |toks|
    decreases |toks| - pos, 0
  {
    if CheckAt(toks, pos, Empty) then Done(acc, SkipFrom(toks, pos + 1, Layout))
    else if CheckAt(toks, pos, TokenKind.Identifier) then
      match MemberAt(toks, pos + 1, toks[pos].lexeme)
      case Failed(e, q) => Failed(e, q)
      case Done(m, q) => MembersAt(toks, SkipFrom(toks, q, Layout), acc.With(m))
    else Done(acc, pos)
  }

  /** A protocol declaration after its `protocol` keyword, through its `::`. */
  function ProtocolAt(toks: seq<Token>, pos: nat): (r: Parsed<Stmt>)
    requires pos <= |toks|
    ensures pos <= r.next <= |toks|
    ensures r.Done? ==> pos < r.next && toks[r.next - 1].kind == DoubleColon
    ensures r.Done? ==> r.value.ProtocolDeclaration? && r.value.name == toks[pos].lexeme
  {
    match ConsumeAt(toks, pos, TokenKind.Identifier, ExpectedProtocolName)
    case Failed(e, p) => Failed(e, p)
    case Done(name, p) =>
      match ConsumeAt(toks, p, Colon, ExpectedProtocolColon)
      case Failed(e, q) => Failed(e, q)
      case Done(_, q) => ProtocolBodyAt(toks, q, name.lexeme)
  }

  /** A protocol body after its `:`, with the `::` that ends it. */
  function ProtocolBodyAt(toks: seq<Token>, pos: nat, name: string): (r: Parsed<Stmt>)
    requires pos <= |toks|
    ensures pos <= r.next <= |toks|
    ensures r.Done? ==> pos < r.next && toks[r.next - 1].kind == DoubleColon
    ensures r.Done? ==> r.value.ProtocolDeclaration? && r.value.name == name
  {
    match MembersAt(toks, SkipFrom(toks, pos, Layout), Members([], []))
    case Failed(e, q) => Failed(e, q)
    case Done(ms, q) =>
      match ConsumeAt(toks, q, DoubleColon, ExpectedProtocolTerminator)
      case Failed(e, q2) => Failed(e, q2)
      case Done(_, q2) => Done(ProtocolDeclaration(name, ms.properties, ms.methods), q2)
  }

  // ---------------------------------------------------------------------
  // Enum variants

  /** The variant loop of an enum body: one variant per identifier, layout
      tokens skipped around them; it stops at `::`, at EOF, or before a
      token that is not an identifier. It never fails. */
  function VariantsAt(toks: seq<Token>, pos: nat, acc: seq<string>): (r: Parsed<seq<string>>)
    requires pos <= |toks|
    ensures r.Done? && pos <= r.next <= |toks|
    ensures |r.value| >= |acc| && r.value[..|acc|] == acc
    ensures !CheckAt(toks, r.next, TokenKind.Identifier)
    decreases |toks| - pos
  {
    if CheckAt(toks, pos, DoubleColon) || AtEnd(toks, pos) then Done(acc, pos)
    else
      var p := SkipFrom(toks, pos, Layout);
      if CheckAt(toks, p, TokenKind.Identifier) then
        assert (acc + [toks[p].lexeme])[..|acc|] == acc;
        VariantsAt(toks, SkipFrom(toks, p + 1, Layout), acc + [toks[p].lexeme])
      else Done(acc, p)
  }

  /** The rest of an enum declaration after its name and optional
      conformance: `:`, the variants, and the `::` that ends it. */
  function EnumBodyAt(toks: seq<Token>, pos: nat, name: string, conformance: Option<string>): (r: Parsed<Stmt>)
    requires pos <= |toks|
    ensures pos <= r.next <= |toks|
    ensures r.Done? ==> r.value.EnumDeclaration? && r.value == EnumDeclaration(name, r.value.variants, conformance)
  {
    match ConsumeAt(toks, pos, Colon, ExpectedEnumColon)
    case Failed(e, p) => Failed(e, p)
    case Done(_, p) =>
      var first := SkipFrom(toks, p, Layout);
      var vs := VariantsAt(toks, first, []);
      EnumCloseAt(toks, vs.next, name, vs.value, conformance)
  }

  /** The `::` that ends an enum declaration, after its variants. */
  function EnumCloseAt(toks: seq<Token>, pos: nat, name: string, variants: seq<string>, conformance: Option<string>): (r: Parsed<Stmt>)
    requires pos <= |toks|
    ensures pos <= r.next <= |toks|
    ensures r.Done? ==> r.next == pos + 1 && toks[pos].kind == DoubleColon && r.value == EnumDeclaration(name, variants, conformance)
  {
    match ConsumeAt(toks, pos, DoubleColon, ExpectedEnumTerminator)
    case Failed(e, q) => Failed(e, q)
    case Done(_, q) => Done(EnumDeclaration(name, variants, conformance), q)
  }

  /** An enum declaration that parses ends just after a `::`, past its colon. */
  lemma EnumBodyCloses(toks: seq<Token>, pos: nat, name: string, conformance: Option<string>)
    requires pos <= |toks| && EnumBodyAt(toks, pos, name, conformance).Done?
    ensures var r := EnumBodyAt(toks, pos, name, conformance);
      pos + 1 < r.next && toks[r.next - 1].kind == DoubleColon
  {
    assert ConsumeAt(toks, pos, Colon, ExpectedEnumColon) == Done(toks[pos], pos + 1);
    var first := SkipFrom(toks, pos + 1, Layout);
    var vs := VariantsAt(toks, first, []);
    assert pos + 1 <= first <= vs.next;
    assert EnumBodyAt(toks, pos, name, conformance) == EnumCloseAt(toks, vs.next, name, vs.value, conformance);
  }

  // ---------------------------------------------------------------------
  // Single steps of the loops above, for the parser's loop proofs

  lemma ParameterListFails(toks: seq<Token>, pos: nat, acc: seq<FunctionParam>, style: ParamStyle, e: ParseFailure, p: nat)
    requires pos <= |toks| && ParameterAt(toks, pos, style) == Failed(e, p)
    ensures ParameterListAt(toks, pos, acc, style) == Failed(e, p)
  {
  }

  /** A parameter read, the list goes on as `ParameterListAfter` says. */
  lemma ParameterListNext(toks: seq<Token>, pos: nat, acc: seq<FunctionParam>, style: ParamStyle, param: FunctionParam, p: nat)
    requires pos <= |toks| && ParameterAt(toks, pos, style) == Done(param, p)
    ensures ParameterListAt(toks, pos, acc, style) == ParameterListAfter(toks, p, acc + [param], style)
  {
  }

  /** A comma after a parameter starts the next one. */
  lemma ParameterListComma(toks: seq<Token>, p: nat, acc: seq<FunctionParam>, style: ParamStyle)
    requires p <= |toks| && CheckAt(toks, p, Comma)
    ensures p < |toks| && ParameterListAfter(toks, p, acc, style) == ParameterListAt(toks, p + 1, acc, style)
  {
  }

  lemma MembersStep(toks: seq<Token>, pos: nat, acc: Members, m: Member, q: nat)
    requires pos < |toks| && CheckAt(toks, pos, TokenKind.Identifier)
    requires MemberAt(toks, pos + 1, toks[pos].lexeme) == Done(m, q)
    ensures NextMemberAt(toks, pos, acc) == MembersAt(toks, SkipFrom(toks, q, Layout), acc.With(m))
  {
  }

  lemma MembersEnter(toks: seq<Token>, pos: nat, acc: Members)
    requires pos <= |toks| && !CheckAt(toks, pos, DoubleColon) && !AtEnd(toks, pos)
    ensures MembersAt(toks, pos, acc) == NextMemberAt(toks, SkipFrom(toks, pos, Layout), acc)
  {
  }

  lemma NextMemberEnds(toks: seq<Token>, pos: nat, acc: Members)
    requires pos <= |toks| && !CheckAt(toks, pos, TokenKind.Identifier)
    ensures CheckAt(toks, pos, Empty) ==> NextMemberAt(toks, pos, acc) == Done(acc, SkipFrom(toks, pos + 1, Layout))
    ensures !CheckAt(toks, pos, Empty) ==> NextMemberAt(toks, pos, acc) == Done(acc, pos)
  {
  }

  lemma NextMemberFails(toks: seq<Token>, pos: nat, acc: Members, e: ParseFailure, q: nat)
    requires pos <= |toks| && CheckAt(toks, pos, TokenKind.Identifier)
    requires MemberAt(toks, pos + 1, toks[pos].lexeme) == Failed(e, q)
    ensures NextMemberAt(toks, pos, acc) == Failed(e, q)
  {
  }

  /** After its `:` and the layout that follows, an enum body is its
      variants and then the closing `::`. */
  lemma EnumBodyEntry(toks: seq<Token>, pos: nat, name: string, conformance: Option<string>, inner: nat, first: nat, variants: seq<string>, mid: nat)
    requires pos < |toks| && CheckAt(toks, pos, Colon) && inner == pos + 1
    requires first == SkipFrom(toks, inner, Layout) && VariantsAt(toks, first, []) == Done(variants, mid)
    ensures EnumBodyAt(toks, pos, name, conformance) == EnumCloseAt(toks, mid, name, variants, conformance)
  {
    assert ConsumeAt(toks, pos, Colon, ExpectedEnumColon) == Done(toks[pos], pos + 1);
  }

  lemma VariantsStop(toks: seq<Token>, pos: nat, acc: seq<string>, p: nat)
    requires pos <= |toks| && !CheckAt(toks, pos, DoubleColon) && !AtEnd(toks, pos)
    requires p == SkipFrom(toks, pos, Layout) && !CheckAt(toks, p, TokenKind.Identifier)
    ensures VariantsAt(toks, pos, acc) == Done(acc, p)
  {
  }

  lemma VariantsStep(toks: seq<Token>, pos: nat, acc: seq<string>, p: nat)
    requires pos <= |toks| && !CheckAt(toks, pos, DoubleColon) && !AtEnd(toks, pos)
    requires p == SkipFrom(toks, pos, Layout) && CheckAt(toks, p, TokenKind.Identifier)
    ensures VariantsAt(toks, pos, acc) == VariantsAt(toks, SkipFrom(toks, p + 1, Layout), acc + [toks[p].lexeme])
  {
  }
}
