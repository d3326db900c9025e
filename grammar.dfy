/** The expression and type-annotation grammar of noir_parser.py as functions
    over a token sequence and a cursor position. Each function gives the tree
    the corresponding parser routine builds and the position it leaves the
    cursor at, or the ParseError it raises and the position it raises it at.
    The `Parser` class methods are proved to compute exactly these. */
module Grammar {
  import opened Common
  import opened Tokens
  import opened Types
  import opened Ast

  /** A failure of the parser: its own ParseError, or a Python exception
      raised inside it (the AttributeError of an enum member that the token
      enum does not define). */
  datatype ParseFailure = ParseError(message: Message, token: Token) | InternalError(what: string)

  /** The kinds of block that `begin_block` records, with the name it records. */
  datatype BlockKind = EnumBlock | ProtocolBlock | FunctionBlock | IfBlock | ElseIfBlock | ElseBlock | ForBlock | WhileBlock
  {
    function Name(): string {
      match this
      case EnumBlock => "enum"
      case ProtocolBlock => "protocol"
      case FunctionBlock => "function"
      case IfBlock => "if"
      case ElseIfBlock => "else if"
      case ElseBlock => "else"
      case ForBlock => "for"
      case WhileBlock => "while"
    }
  }

  /** The messages a ParseError carries; `Text` gives the wording. The two
      block messages are the ones `check_unclosed_blocks` and the if, for and
      while bodies build from the block's kind and position. */
  datatype Message =
      ExpectedTypeName
    | SetNeedsElementType
    | ExpectedArrayTypeClose
    | ExpectedDictTypeClose
    | ExpectedTypeParametersClose
    | ExpectedSetParameterClose
    | InvalidAssignmentTarget
    | ExpectedExpression
    | ExpectedArgumentsClose
    | ExpectedElementsClose
    | ExpectedMethodName
    | ExpectedMethodParen
    | ExpectedIndexClose
    | ExpectedGroupingClose
    | UnmatchedTerminator
    | ExpectedFunctionName
    | VariablesMustBeInitialized
    | ExpectedFunctionParen
    | ExpectedParameterName
    | ExpectedParameterColon
    | ExpectedParametersClose
    | ExpectedBodyColon
    | ExpectedBodyTerminator
    | ExpectedEnumName
    | ExpectedProtocolAfterConformance
    | ExpectedEnumColon
    | ExpectedEnumTerminator
    | ExpectedProtocolName
    | ExpectedProtocolColon
    | ExpectedMemberParameterName
    | ExpectedMemberParameterColon
    | ExpectedMemberParametersClose
    | ExpectedMemberForm
    | ExpectedProtocolTerminator
    | ExpectedIfColon
    | ExpectedElseIfColon
    | ExpectedElseColon
    | ExpectedElseTerminator
    | ExpectedIteratorName
    | ExpectedIn
    | ExpectedRangeKeyword
    | ExpectedForColon
    | ExpectedWhileColon
    | UnclosedBlock(kind: BlockKind, line: int, column: int)
    | MissingTerminator(kind: BlockKind, line: int)
  {
    function Text(): string {
      match this
      case ExpectedTypeName => "Expected type name"
      case SetNeedsElementType => "Set types must specify their element type"
      case ExpectedArrayTypeClose => "Expected ']' after array element type."
      case ExpectedDictTypeClose => "Expected ']' after dictionary type."
      case ExpectedTypeParametersClose => "Expected '>' after type parameters."
      case ExpectedSetParameterClose => "Expected '>' after set type parameter."
      case InvalidAssignmentTarget => "Invalid assignment target."
      case ExpectedExpression => "Expected expression."
      case ExpectedArgumentsClose => "Expected ')' after arguments"
      case ExpectedElementsClose => "Expected ']' after array elements."
      case ExpectedMethodName => "Expected method name after '.'"
      case ExpectedMethodParen => "Expected '(' after method name"
      case ExpectedIndexClose => "Expected ']' after array index"
      case ExpectedGroupingClose => "Expected ')' after expression."
      case UnmatchedTerminator => "Unexpected '::' terminator with no matching block."
      case ExpectedFunctionName => "Expected function name after 'func' keyword"
      case VariablesMustBeInitialized => "Variables must be initialized at declaration."
      case ExpectedFunctionParen => "Expected '(' after function name."
      case ExpectedParameterName => "Expected parameter name."
      case ExpectedParameterColon => "Expected ':' after parameter name."
      case ExpectedParametersClose => "Expected ')' after parameters."
      case ExpectedBodyColon => "Expected ':' before function body."
      case ExpectedBodyTerminator => "Expected '::' after function body."
      case ExpectedEnumName => "Expected enum name"
      case ExpectedProtocolAfterConformance => "Expected protocol name after conformance operator"
      case ExpectedEnumColon => "Expected ':' after enum name"
      case ExpectedEnumTerminator => "Expected '::' to terminate enum declaration"
      case ExpectedProtocolName => "Expected protocol name"
      case ExpectedProtocolColon => "Expected ':' after protocol name"
      case ExpectedMemberParameterName => "Expected parameter name"
      case ExpectedMemberParameterColon => "Expected ':' after parameter name"
      case ExpectedMemberParametersClose => "Expected ')' after parameters"
      case ExpectedMemberForm => "Expected ':' or '(' after member name"
      case ExpectedProtocolTerminator => "Expected '::' to terminate protocol declaration"
      case ExpectedIfColon => "Expected ':' after if condition."
      case ExpectedElseIfColon => "Expected ':' after else if condition."
      case ExpectedElseColon => "Expected ':' after else."
      case ExpectedElseTerminator => "Expected '::' after else block."
      case ExpectedIteratorName => "Expected iterator variable name."
      case ExpectedIn => "Expected 'in' after for loop variable."
      case ExpectedRangeKeyword => "Expected 'to' or 'thru' in for loop range."
      case ExpectedForColon => "Expected ':' after for loop range."
      case ExpectedWhileColon => "Expected ':' after while condition."
      case UnclosedBlock(kind, line, column) =>
        "Missing '::' terminator for " + kind.Name() + " block starting at line " + IntToString(line) + ", column " + IntToString(column)
      case MissingTerminator(kind, line) =>
        "Missing '::' terminator for " + kind.Name() + " block starting at line " + IntToString(line)
    }
  }

  /** The outcome of a parsing routine started at some position. */
  datatype Parsed<T> = Done(value: T, next: nat) | Failed(error: ParseFailure, next: nat)
  {
    function ToResult(): Result<T, ParseFailure> {
      if Done? then Ok(value) else Err(error)
    }
  }

  /** What `peek` returns past the end of the list. */
  const EofToken: Token := Token(Eof, "", 0, 0)

  function PeekAt(toks: seq<Token>, pos: nat): Token {
    if pos < |toks| then toks[pos] else EofToken
  }

  /** What `previous` returns: the token before `pos`, where Python's index
      -1 reads the last token at position 0. */
  function PreviousAt(toks: seq<Token>, pos: nat): Token
    requires 0 < |toks| && pos <= |toks|
  {
    if pos == 0 then toks[|toks| - 1] else toks[pos - 1]
  }

  predicate AtEnd(toks: seq<Token>, pos: nat) {
    PeekAt(toks, pos).kind == Eof
  }

  predicate CheckAt(toks: seq<Token>, pos: nat, k: TokenKind) {
    !AtEnd(toks, pos) && PeekAt(toks, pos).kind == k
  }

  /** `match(*kinds)` would succeed. */
  predicate MatchesAny(toks: seq<Token>, pos: nat, ks: set<TokenKind>) {
    !AtEnd(toks, pos) && PeekAt(toks, pos).kind in ks
  }

  lemma CheckedIsInside(toks: seq<Token>, pos: nat)
    requires !AtEnd(toks, pos)
    ensures pos < |toks|
  {
  }

  function ConsumeAt(toks: seq<Token>, pos: nat, k: TokenKind, message: Message): (r: Parsed<Token>)
    requires pos <= |toks|
    ensures r.Done? <==> CheckAt(toks, pos, k)
    ensures r.Done? ==> r.next == pos + 1 && r.value == toks[pos]
    ensures r.Failed? ==> r == Failed(ParseError(message, PeekAt(toks, pos)), pos)
  {
    if CheckAt(toks, pos, k) then Done(toks[pos], pos + 1)
    else Failed(ParseError(message, PeekAt(toks, pos)), pos)
  }

  // ---------------------------------------------------------------------
  // Type annotations

  /** The names the parser gives `[T]` and `[K: V]`. */
  const ArrayName: string := "Array"
  const DictName: string := "Dict"

  const BuiltinTypeKinds: set<TokenKind> := {TokenKind.Int, TokenKind.Float, TokenKind.Double, TokenKind.String, TokenKind.Char, TokenKind.Bool}
  const SetKinds: set<TokenKind> := {TokenKind.Set, TokenKind.OSet}

  /** What the parser's annotations look like: never GENERIC, all parameters
      annotations (never type parameters), PARAMETER only for a bare
      one-letter upper-case name, INSTANTIATED whenever there are parameters. */
  predicate ParserShaped(a: TypeAnnotation) {
    a.kind != Generic &&
    (forall i :: 0 <= i < |a.parameters| ==> a.parameters[i].Concrete?) &&
    (a.kind == Parameter ==> IsSingleUpper(a.name) && |a.parameters| == 0) &&
    (|a.parameters| > 0 ==> a.kind == Instantiated)
  }

  /** `parse_type_annotation`. */
  function AnnotationAt(toks: seq<Token>, pos: nat): (r: Parsed<TypeAnnotation>)
    requires pos <= |toks|
    ensures pos <= r.next <= |toks| && (r.Done? ==> pos < r.next && ParserShaped(r.value))
    decreases |toks| - pos, 1
  {
    if CheckAt(toks, pos, LBracket) then BracketAnnotationAt(toks, pos + 1)
    else if CheckAt(toks, pos, TokenKind.Identifier) then NamedAnnotationAt(toks, pos)
    else if MatchesAny(toks, pos, BuiltinTypeKinds) then Done(MakeAnnotation(toks[pos].lexeme, [], Primitive), pos + 1)
    else if MatchesAny(toks, pos, SetKinds) then SetAnnotationAt(toks, pos)
    else Failed(ParseError(ExpectedTypeName, PeekAt(toks, pos)), pos)
  }

  /** `[T]` and `[K: V]`, after the `[`. */
  function BracketAnnotationAt(toks: seq<Token>, pos: nat): (r: Parsed<TypeAnnotation>)
    requires pos <= |toks|
    ensures pos <= r.next <= |toks| && (r.Done? ==> pos < r.next && ParserShaped(r.value))
    ensures r.Done? ==> ((r.value.name == ArrayName && |r.value.parameters| == 1) ||
      (r.value.name == DictName && |r.value.parameters| == 2))
    decreases |toks| - pos, 2
  {
    match AnnotationAt(toks, pos)
    case Failed(e, p) => Failed(e, p)
    case Done(elem, p) =>
      if CheckAt(toks, p, Colon) then DictTailAt(toks, p + 1, elem)
      else
        match ConsumeAt(toks, p, RBracket, ExpectedArrayTypeClose)
        case Failed(e, q) => Failed(e, q)
        case Done(_, q) => Done(Shaped(ArrayName, [elem]), q)
  }

  /** The value type and `]` of `[K: V]`, after the colon. */
  function DictTailAt(toks: seq<Token>, pos: nat, key: TypeAnnotation): (r: Parsed<TypeAnnotation>)
    requires pos <= |toks|
    ensures pos <= r.next <= |toks| && (r.Done? ==> pos < r.next)
    ensures r.Done? ==> AnnotationAt(toks, pos).Done? && r.value == Shaped(DictName, [key, AnnotationAt(toks, pos).value])
    decreases |toks| - pos, 3
  {
    match AnnotationAt(toks, pos)
    case Failed(e, q) => Failed(e, q)
    case Done(val, q) =>
      match ConsumeAt(toks, q, RBracket, ExpectedDictTypeClose)
      case Failed(e, q2) => Failed(e, q2)
      case Done(_, q2) => Done(Shaped(DictName, [key, val]), q2)
  }

  /** The annotation the parser builds from a name and non-empty parameter
      annotations: whatever kind it requests, the constructor makes it
      INSTANTIATED. */
  function Shaped(name: string, params: seq<TypeAnnotation>): (r: TypeAnnotation)
    requires |params| > 0
    ensures r == MakeAnnotation(name, AsArgs(params), Instantiated)
    ensures r == MakeAnnotation(name, AsArgs(params), Generic)
    ensures ParserShaped(r) && r.name == name && |r.parameters| == |params|
  {
    assert !HasTypeParameter(AsArgs(params));
    TypeAnnotation(name, AsArgs(params), Instantiated)
  }

  /** A type named by an identifier: a type parameter, `Name<...>`, or a plain name. */
  function NamedAnnotationAt(toks: seq<Token>, pos: nat): (r: Parsed<TypeAnnotation>)
    requires pos < |toks|
    ensures pos < r.next <= |toks| && (r.Done? ==> ParserShaped(r.value))
    decreases |toks| - pos, 0
  {
    var name := toks[pos].lexeme;
    if IsSingleUpper(name) then Done(MakeAnnotation(name, [], Parameter), pos + 1)
    else if CheckAt(toks, pos + 1, LessThan) then TypeArgumentsAt(toks, pos + 2, name)
    else Done(MakeAnnotation(name, [], Primitive), pos + 1)
  }

  /** The annotation `Name<params>` builds: GENERIC when a parameter is a type
      parameter, INSTANTIATED otherwise. */
  function WithArguments(name: string, params: seq<TypeAnnotation>): (r: TypeAnnotation)
    requires !IsSingleUpper(name)
    ensures ParserShaped(r) && r.name == name && r.parameters == AsArgs(params)
  {
    var isGeneric := exists i :: 0 <= i < |params| && params[i].kind == Parameter;
    MakeAnnotation(name, AsArgs(params), if isGeneric then Generic else Instantiated)
  }

  /** The parameter list of `Name<...>` after its `<`, with the closing `>`. */
  function TypeArgumentsAt(toks: seq<Token>, pos: nat, name: string): (r: Parsed<TypeAnnotation>)
    requires pos <= |toks| && !IsSingleUpper(name)
    ensures pos <= r.next <= |toks| && (r.Done? ==> pos < r.next && ParserShaped(r.value))
    decreases |toks| - pos, 4
  {
    var ps := if CheckAt(toks, pos, GreaterThan) then Done([], pos) else AnnotationListAt(toks, pos, []);
    match ps
    case Failed(e, p) => Failed(e, p)
    case Done(params, p) =>
      match ConsumeAt(toks, p, GreaterThan, ExpectedTypeParametersClose)
      case Failed(e, q) => Failed(e, q)
      case Done(_, q) => Done(WithArguments(name, params), q)
  }

  /** `Set<T>` and `OSet<T>`; the element type is required. */
  function SetAnnotationAt(toks: seq<Token>, pos: nat): (r: Parsed<TypeAnnotation>)
    requires pos < |toks|
    ensures pos < r.next <= |toks| && (r.Done? ==> ParserShaped(r.value))
    decreases |toks| - pos, 0
  {
    if CheckAt(toks, pos + 1, LessThan) then SetElementAt(toks, pos + 2, toks[pos].lexeme)
    else Failed(ParseError(SetNeedsElementType, PeekAt(toks, pos + 1)), pos + 1)
  }

  /** The element type of a set type after its `<`, with the closing `>`. */
  function SetElementAt(toks: seq<Token>, pos: nat, base: string): (r: Parsed<TypeAnnotation>)
    requires pos <= |toks|
    ensures pos <= r.next <= |toks| && (r.Done? ==> pos < r.next && ParserShaped(r.value))
    ensures r.Done? ==> r.value.name == base && |r.value.parameters| == 1
    decreases |toks| - pos, 2
  {
    match AnnotationAt(toks, pos)
    case Failed(e, p) => Failed(e, p)
    case Done(elem, p) =>
      match ConsumeAt(toks, p, GreaterThan, ExpectedSetParameterClose)
      case Failed(e, q) => Failed(e, q)
      case Done(_, q) =>
        Done(MakeAnnotation(base, [Concrete(elem)], if elem.kind != Parameter then Instantiated else Generic), q)
  }

  /** Brackets give Array (one parameter) or Dict (two). */
  lemma BracketAnnotation(toks: seq<Token>, pos: nat)
    requires pos <= |toks| && CheckAt(toks, pos, LBracket) && AnnotationAt(toks, pos).Done?
    ensures var a := AnnotationAt(toks, pos).value;
      (a.name == ArrayName && |a.parameters| == 1) || (a.name == DictName && |a.parameters| == 2)
  {
    assert AnnotationAt(toks, pos) == BracketAnnotationAt(toks, pos + 1);
  }

  /** Set and OSet without `<` are refused. */
  lemma SetWithoutElementTypeRefused(toks: seq<Token>, pos: nat)
    requires pos <= |toks| && MatchesAny(toks, pos, SetKinds) && !CheckAt(toks, pos + 1, LessThan)
    ensures AnnotationAt(toks, pos) == Failed(ParseError(SetNeedsElementType, PeekAt(toks, pos + 1)), pos + 1)
  {
  }

  /** A token that cannot start a type is refused with ExpectedTypeName. */
  lemma NotATypeName(toks: seq<Token>, pos: nat)
    requires pos <= |toks| && !MatchesAny(toks, pos, {LBracket, TokenKind.Identifier} + BuiltinTypeKinds + SetKinds)
    ensures AnnotationAt(toks, pos) == Failed(ParseError(ExpectedTypeName, PeekAt(toks, pos)), pos)
  {
  }

  /** The comma-separated annotations between `<` and `>`. */
  function AnnotationListAt(toks: seq<Token>, pos: nat, acc: seq<TypeAnnotation>): (r: Parsed<seq<TypeAnnotation>>)
    requires pos <= |toks|
    ensures pos <= r.next <= |toks| && (r.Done? ==> pos < r.next && |r.value| > |acc|)
    decreases |toks| - pos, 3
  {
    match AnnotationAt(toks, pos)
    case Failed(e, p) => Failed(e, p)
    case Done(t, p) =>
      if CheckAt(toks, p, Comma) then AnnotationListAt(toks, p + 1, acc + [t])
      else Done(acc + [t], p)
  }

  /** A one-letter upper-case name is a type parameter annotation. */
  lemma TypeParameterAnnotation(toks: seq<Token>, pos: nat)
    requires pos < |toks| && toks[pos].kind == TokenKind.Identifier && IsSingleUpper(toks[pos].lexeme)
    ensures AnnotationAt(toks, pos) == Done(TypeAnnotation(toks[pos].lexeme, [], Parameter), pos + 1)
  {
  }

  // ---------------------------------------------------------------------
  // Expressions

  /** The operators of the six binary levels, loosest first: or, and,
      equality, comparison, term, factor. */
  function LevelOps(level: nat): set<TokenKind> {
    if level == 0 then {TokenKind.Or}
    else if level == 1 then {TokenKind.And}
    else if level == 2 then {Equals, NotEquals}
    else if level == 3 then {LessThan, GreaterThan, LessEqual, GreaterEqual}
    else if level == 4 then {Plus, Minus}
    else {Multiply, Divide, Modulo}
  }

  const LastLevel: nat := 5

  const LiteralKinds: set<TokenKind> := {IntegerLit, FloatLit, DoubleLit, StringLit, CharLit}

  /** `expression`. */
  function ExpressionAt(toks: seq<Token>, pos: nat): (r: Parsed<Expr>)
    requires pos <= |toks|
    ensures pos <= r.next <= |toks| && (r.Done? ==> pos < r.next)
    decreases |toks| - pos, 9, 0
  {
    AssignmentAt(toks, pos)
  }

  /** `assignment`: a logical-or expression, and if `=` follows, an
      assignment to it of the (right-associative) rest. */
  function AssignmentAt(toks: seq<Token>, pos: nat): (r: Parsed<Expr>)
    requires pos <= |toks|
    ensures pos <= r.next <= |toks| && (r.Done? ==> pos < r.next)
    decreases |toks| - pos, 8, 0
  {
    match BinaryAt(0, toks, pos)
    case Failed(e, p) => Failed(e, p)
    case Done(target, p) =>
      if !CheckAt(toks, p, TokenKind.Assign) then Done(target, p)
      else
        match AssignmentAt(toks, p + 1)
        case Failed(e, q) => Failed(e, q)
        case Done(value, q) =>
          if target.Identifier? then Done(Expr.Assign(target.name, value), q)
          else Failed(ParseError(InvalidAssignmentTarget, toks[p]), q)
  }

  /** The operand of a binary level: the next level, or `unary` below factor. */
  function OperandAt(level: nat, toks: seq<Token>, pos: nat): (r: Parsed<Expr>)
    requires level <= LastLevel && pos <= |toks|
    ensures pos <= r.next <= |toks| && (r.Done? ==> pos < r.next)
    decreases |toks| - pos, 7 - level, 0
  {
    if level == LastLevel then UnaryAt(toks, pos) else BinaryAt(level + 1, toks, pos)
  }

  /** `logical_or`, `logical_and`, `equality`, `comparison`, `term` and `factor`. */
  function BinaryAt(level: nat, toks: seq<Token>, pos: nat): (r: Parsed<Expr>)
    requires level <= LastLevel && pos <= |toks|
    ensures pos <= r.next <= |toks| && (r.Done? ==> pos < r.next)
    decreases |toks| - pos, 7 - level, 1
  {
    match OperandAt(level, toks, pos)
    case Failed(e, p) => Failed(e, p)
    case Done(first, p) => BinaryLoopAt(level, toks, p, first)
  }

  /** The `while self.match(...)` loop of a binary level: each operator and
      following operand extend the tree built so far on the left. */
  function BinaryLoopAt(level: nat, toks: seq<Token>, pos: nat, left: Expr): (r: Parsed<Expr>)
    requires level <= LastLevel && pos <= |toks|
    ensures pos <= r.next <= |toks|
    ensures !MatchesAny(toks, pos, LevelOps(level)) ==> r == Done(left, pos)
    decreases |toks| - pos, 0, 0
  {
    if !MatchesAny(toks, pos, LevelOps(level)) then Done(left, pos)
    else
      match OperandAt(level, toks, pos + 1)
      case Failed(e, p) => Failed(e, p)
      case Done(right, p) => BinaryLoopAt(level, toks, p, BinaryOp(left, toks[pos], right))
  }

  /** `unary`: prefix `-` and `!` nest to the right. */
  function UnaryAt(toks: seq<Token>, pos: nat): (r: Parsed<Expr>)
    requires pos <= |toks|
    ensures pos <= r.next <= |toks| && (r.Done? ==> pos < r.next)
    decreases |toks| - pos, 1, 3
  {
    if MatchesAny(toks, pos, {Minus, Bang}) then
      match UnaryAt(toks, pos + 1)
      case Failed(e, p) => Failed(e, p)
      case Done(operand, p) => Done(UnaryOp(toks[pos], operand), p)
    else CastAt(toks, pos)
  }

  /** `type_cast`: a primary expression, optionally followed by `as` and a type. */
  function CastAt(toks: seq<Token>, pos: nat): (r: Parsed<Expr>)
    requires pos <= |toks|
    ensures pos <= r.next <= |toks| && (r.Done? ==> pos < r.next)
    decreases |toks| - pos, 1, 2
  {
    match PrimaryAt(toks, pos)
    case Failed(e, p) => Failed(e, p)
    case Done(expr, p) =>
      if !CheckAt(toks, p, As) then Done(expr, p)
      else
        match AnnotationAt(toks, p + 1)
        case Failed(e, q) => Failed(e, q)
        case Done(t, q) => Done(TypeCast(expr, t), q)
  }

  /** The optional comma-separated expressions before a closing `close`. */
  function ElementsAt(toks: seq<Token>, pos: nat, close: TokenKind): (r: Parsed<seq<Expr>>)
    requires pos <= |toks|
    ensures pos <= r.next <= |toks|
    ensures CheckAt(toks, pos, close) ==> r == Done([], pos)
    decreases |toks| - pos, 11, 0
  {
    if CheckAt(toks, pos, close) then Done([], pos) else ExpressionListAt(toks, pos, [])
  }

  /** `while True: append(expression()); if not match(COMMA): break`. */
  function ExpressionListAt(toks: seq<Token>, pos: nat, acc: seq<Expr>): (r: Parsed<seq<Expr>>)
    requires pos <= |toks|
    ensures pos <= r.next <= |toks| && (r.Done? ==> pos < r.next && |r.value| > |acc|)
    decreases |toks| - pos, 10, 0
  {
    match ExpressionAt(toks, pos)
    case Failed(e, p) => Failed(e, p)
    case Done(e, p) =>
      if CheckAt(toks, p, Comma) then ExpressionListAt(toks, p + 1, acc + [e])
      else Done(acc + [e], p)
  }

  /** The argument list of a call after its `(`, with the closing `)`. */
  function ArgumentsAt(toks: seq<Token>, pos: nat): (r: Parsed<seq<Expr>>)
    requires pos <= |toks|
    ensures pos <= r.next <= |toks| && (r.Done? ==> pos < r.next)
    decreases |toks| - pos, 12, 0
  {
    match ElementsAt(toks, pos, RParen)
    case Failed(e, p) => Failed(e, p)
    case Done(args, p) =>
      match ConsumeAt(toks, p, RParen, ExpectedArgumentsClose)
      case Failed(e, q) => Failed(e, q)
      case Done(_, q) => Done(args, q)
  }

  /** `primary`: a literal, or one of the forms `CompoundAt` handles. */
  function PrimaryAt(toks: seq<Token>, pos: nat): (r: Parsed<Expr>)
    requires pos <= |toks|
    ensures pos <= r.next <= |toks| && (r.Done? ==> pos < r.next)
    decreases |toks| - pos, 1, 1
  {
    if CheckAt(toks, pos, TokenKind.False) then Done(Literal(LBool(false), BoolLit), pos + 1)
    else if CheckAt(toks, pos, TokenKind.True) then Done(Literal(LBool(true), BoolLit), pos + 1)
    else if MatchesAny(toks, pos, LiteralKinds) then Done(Literal(LText(toks[pos].lexeme), toks[pos].kind), pos + 1)
    else CompoundAt(toks, pos)
  }

  /** The rest of `primary`: an array literal, an identifier with what
      follows it, a parenthesised expression, or ExpectedExpression. */
  function CompoundAt(toks: seq<Token>, pos: nat): (r: Parsed<Expr>)
    requires pos <= |toks|
    ensures pos <= r.next <= |toks| && (r.Done? ==> pos < r.next)
    decreases |toks| - pos, 1, 0
  {
    if CheckAt(toks, pos, LBracket) then ArrayLiteralAt(toks, pos + 1)
    else if CheckAt(toks, pos, TokenKind.Identifier) then IdentifierTailAt(toks, pos + 1, toks[pos].lexeme)
    else if CheckAt(toks, pos, LParen) then GroupingAt(toks, pos + 1)
    else Failed(ParseError(ExpectedExpression, PeekAt(toks, pos)), pos)
  }

  /** An array literal after its `[`. */
  function ArrayLiteralAt(toks: seq<Token>, pos: nat): (r: Parsed<Expr>)
    requires pos <= |toks|
    ensures pos <= r.next <= |toks| && (r.Done? ==> pos < r.next && r.value.ArrayLiteral?)
    decreases |toks| - pos, 13, 0
  {
    match ElementsAt(toks, pos, RBracket)
    case Failed(e, p) => Failed(e, p)
    case Done(elements, p) =>
      match ConsumeAt(toks, p, RBracket, ExpectedElementsClose)
      case Failed(e, q) => Failed(e, q)
      case Done(_, q) => Done(ArrayLiteral(elements), q)
  }

  /** What follows an identifier in primary position: `.m(args)`, `[index]`,
      `(args)`, or nothing. */
  function IdentifierTailAt(toks: seq<Token>, pos: nat, name: string): (r: Parsed<Expr>)
    requires pos <= |toks|
    ensures pos <= r.next <= |toks|
    ensures !MatchesAny(toks, pos, {Dot, LBracket, LParen}) ==> r == Done(Expr.Identifier(name), pos)
    decreases |toks| - pos, 0, 0
  {
    if CheckAt(toks, pos, Dot) then MethodCallAt(toks, pos + 1, name)
    else if CheckAt(toks, pos, LBracket) then IndexAt(toks, pos + 1, name)
    else if CheckAt(toks, pos, LParen) then
      match ArgumentsAt(toks, pos + 1)
      case Failed(e, p) => Failed(e, p)
      case Done(args, p) => Done(FunctionCall(name, args), p)
    else Done(Expr.Identifier(name), pos)
  }

  /** `name.m(args)` after the dot. */
  function MethodCallAt(toks: seq<Token>, pos: nat, name: string): (r: Parsed<Expr>)
    requires pos <= |toks|
    ensures pos <= r.next <= |toks| && (r.Done? ==> pos < r.next && r.value.MethodCall? && r.value.obj == name)
    decreases |toks| - pos, 14, 0
  {
    match ConsumeAt(toks, pos, TokenKind.Identifier, ExpectedMethodName)
    case Failed(e, p) => Failed(e, p)
    case Done(m, p) =>
      match ConsumeAt(toks, p, LParen, ExpectedMethodParen)
      case Failed(e, q) => Failed(e, q)
      case Done(_, q) =>
        match ArgumentsAt(toks, q)
        case Failed(e, q2) => Failed(e, q2)
        case Done(args, q2) => Done(MethodCall(name, m.lexeme, args), q2)
  }

  /** `name[index]` after the `[`: only a bare identifier can be indexed. */
  function IndexAt(toks: seq<Token>, pos: nat, name: string): (r: Parsed<Expr>)
    requires pos <= |toks|
    ensures pos <= r.next <= |toks| && (r.Done? ==> pos < r.next && r.value.ArrayAccess? && r.value == ArrayAccess(Expr.Identifier(name), r.value.index))
    decreases |toks| - pos, 14, 0
  {
    match ExpressionAt(toks, pos)
    case Failed(e, p) => Failed(e, p)
    case Done(index, p) =>
      match ConsumeAt(toks, p, RBracket, ExpectedIndexClose)
      case Failed(e, q) => Failed(e, q)
      case Done(_, q) => Done(ArrayAccess(Expr.Identifier(name), index), q)
  }

  /** A parenthesised expression after its `(`; no node records the parentheses. */
  function GroupingAt(toks: seq<Token>, pos: nat): (r: Parsed<Expr>)
    requires pos <= |toks|
    ensures pos <= r.next <= |toks| && (r.Done? ==> pos < r.next)
    decreases |toks| - pos, 13, 0
  {
    match ExpressionAt(toks, pos)
    case Failed(e, p) => Failed(e, p)
    case Done(inner, p) =>
      match ConsumeAt(toks, p, RParen, ExpectedGroupingClose)
      case Failed(e, q) => Failed(e, q)
      case Done(_, q) => Done(inner, q)
  }

  // ---------------------------------------------------------------------
  // Properties of the expression grammar

  /** When `=` follows a logical-or expression, the result is an assignment
      exactly when that expression is a bare identifier, and its value is
      itself a whole assignment expression (`=` is right-associative); any
      other target is refused with InvalidAssignmentTarget at the `=`. */
  lemma AssignmentShape(toks: seq<Token>, pos: nat)
    requires pos <= |toks|
    requires BinaryAt(0, toks, pos).Done? && CheckAt(toks, BinaryAt(0, toks, pos).next, TokenKind.Assign)
    ensures var target := BinaryAt(0, toks, pos);
      var value := AssignmentAt(toks, target.next + 1);
      var r := AssignmentAt(toks, pos);
      (r.Done? <==> target.value.Identifier? && value.Done?) &&
      (r.Done? ==> r == Done(Expr.Assign(target.value.name, value.value), value.next)) &&
      (value.Done? && !target.value.Identifier? ==>
        r == Failed(ParseError(InvalidAssignmentTarget, toks[target.next]), value.next))
  {
  }

  /** Without a following `=`, `assignment` returns the logical-or expression. */
  lemma NoAssignment(toks: seq<Token>, pos: nat)
    requires pos <= |toks|
    requires BinaryAt(0, toks, pos).Done? && !CheckAt(toks, BinaryAt(0, toks, pos).next, TokenKind.Assign)
    ensures AssignmentAt(toks, pos) == BinaryAt(0, toks, pos)
  {
  }

  /** A binary level that consumed at least one of its operators returns a
      tree whose root is the LAST such operator and whose right child is a
      single operand ending where the whole expression ends: the levels
      associate to the left. */
  lemma {:induction false} BinaryLoopLeftNested(level: nat, toks: seq<Token>, pos: nat, left: Expr)
    requires level <= LastLevel && pos <= |toks|
    requires MatchesAny(toks, pos, LevelOps(level)) && BinaryLoopAt(level, toks, pos, left).Done?
    ensures var r := BinaryLoopAt(level, toks, pos, left);
      r.value.BinaryOp? && r.value.op.kind in LevelOps(level) &&
      exists q :: pos < q <= r.next && toks[q - 1] == r.value.op && OperandAt(level, toks, q) == Done(r.value.right, r.next) &&
        !MatchesAny(toks, r.next, LevelOps(level))
    decreases |toks| - pos
  {
    var right := OperandAt(level, toks, pos + 1);
    var built := BinaryOp(left, toks[pos], right.value);
    if MatchesAny(toks, right.next, LevelOps(level)) {
      BinaryLoopLeftNested(level, toks, right.next, built);
    } else {
      assert BinaryLoopAt(level, toks, pos, left) == Done(built, right.next);
      assert toks[(pos + 1) - 1] == built.op;
    }
  }

  /** The same, for a whole level started at `pos`: when the first operand is
      followed by an operator of the level, the result's root is the last
      operator and its right child one operand. */
  lemma BinaryLeftNested(level: nat, toks: seq<Token>, pos: nat)
    requires level <= LastLevel && pos <= |toks|
    requires OperandAt(level, toks, pos).Done? && MatchesAny(toks, OperandAt(level, toks, pos).next, LevelOps(level))
    requires BinaryAt(level, toks, pos).Done?
    ensures var r := BinaryAt(level, toks, pos);
      r.value.BinaryOp? && r.value.op.kind in LevelOps(level) &&
      exists q :: pos < q <= r.next && toks[q - 1] == r.value.op && OperandAt(level, toks, q) == Done(r.value.right, r.next)
  {
    var first := OperandAt(level, toks, pos);
    BinaryLoopLeftNested(level, toks, first.next, first.value);
  }

  // ---------------------------------------------------------------------
  // Resynchronisation

  const StatementStarts: set<TokenKind> := {TokenKind.If, TokenKind.For, TokenKind.While, TokenKind.Return, TokenKind.Identifier}

  /** The first position at or after `pos` whose token is not of a kind in
      `ks`: where `while self.match(*ks): pass` leaves the cursor. */
  function SkipFrom(toks: seq<Token>, pos: nat, ks: set<TokenKind>): (r: nat)
    requires pos <= |toks|
    ensures pos <= r <= |toks| && !MatchesAny(toks, r, ks)
    decreases |toks| - pos
  {
    if MatchesAny(toks, pos, ks) then SkipFrom(toks, pos + 1, ks) else pos
  }

  /** Where the loop of `synchronize` stops, started at `pos` (after its
      first `advance`). */
  function SyncFrom(toks: seq<Token>, pos: nat): (r: nat)
    requires pos <= |toks| && (1 <= pos || AtEnd(toks, pos))
    ensures pos <= r <= |toks|
    decreases |toks| - pos
  {
    if AtEnd(toks, pos) then pos
    else if toks[pos - 1].kind == DoubleColon then SkipFrom(toks, pos, {Newline})
    else if PeekAt(toks, pos).kind in StatementStarts then pos
    else SyncFrom(toks, pos + 1)
  }

  /** Where `synchronize` leaves the cursor. */
  function SyncStop(toks: seq<Token>, pos: nat): nat
    requires pos <= |toks|
  {
    SyncFrom(toks, if AtEnd(toks, pos) then pos else pos + 1)
  }

  predicate Terminated(toks: seq<Token>, j: nat) {
    1 <= j <= |toks| && toks[j - 1].kind == DoubleColon
  }

  /** A place where `synchronize` stops looking: EOF, right after a `::`, or
      before a token that starts a statement. */
  predicate SyncPoint(toks: seq<Token>, j: nat) {
    AtEnd(toks, j) || Terminated(toks, j) || PeekAt(toks, j).kind in StatementStarts
  }

  /** The loop of `synchronize` stops at the FIRST sync point `s`, and then
      skips the NEWLINEs after a `::`. */
  lemma {:induction false} SyncFromStops(toks: seq<Token>, pos: nat) returns (s: nat)
    requires pos <= |toks| && (1 <= pos || AtEnd(toks, pos))
    ensures pos <= s <= |toks| && SyncPoint(toks, s)
    ensures forall j :: pos <= j < s ==> !SyncPoint(toks, j)
    ensures SyncFrom(toks, pos) == if !AtEnd(toks, s) && Terminated(toks, s) then SkipFrom(toks, s, {Newline}) else s
    decreases |toks| - pos
  {
    if SyncPoint(toks, pos) {
      s := pos;
    } else {
      s := SyncFromStops(toks, pos + 1);
    }
  }

  lemma SyncStopProgress(toks: seq<Token>, pos: nat)
    requires pos <= |toks|
    ensures pos <= SyncStop(toks, pos)
    ensures !AtEnd(toks, pos) ==> pos < SyncStop(toks, pos)
  {
  }

  // ---------------------------------------------------------------------
  // Single steps of the grammar functions that the loops and the set
  // annotation routine of the parser take; their proofs call these.

  /** After a target and `=`, an assignment is the assignment read from
      `inner`, kept only when the target is an identifier. */
  lemma AssignmentTail(toks: seq<Token>, pos: nat, target: Expr, p: nat, inner: nat)
    requires pos <= |toks| && BinaryAt(0, toks, pos) == Done(target, p) && CheckAt(toks, p, TokenKind.Assign) && inner == p + 1
    ensures var v := AssignmentAt(toks, inner);
      AssignmentAt(toks, pos) ==
        if v.Failed? then v
        else if target.Identifier? then Done(Expr.Assign(target.name, v.value), v.next)
        else Failed(ParseError(InvalidAssignmentTarget, toks[p]), v.next)
  {
    var v := AssignmentAt(toks, p + 1);
    assert v.Failed? ==> v == Failed(v.error, v.next);
  }

  /** After an identifier, a `.`, `[` or `(` hands over to the form read
      just past it. */
  lemma IdentifierTailEntry(toks: seq<Token>, pos: nat, name: string, inner: nat)
    requires pos < |toks| && inner == pos + 1
    ensures CheckAt(toks, pos, Dot) ==> IdentifierTailAt(toks, pos, name) == MethodCallAt(toks, inner, name)
    ensures !CheckAt(toks, pos, Dot) && CheckAt(toks, pos, LBracket) ==> IdentifierTailAt(toks, pos, name) == IndexAt(toks, inner, name)
    ensures !CheckAt(toks, pos, Dot) && !CheckAt(toks, pos, LBracket) && CheckAt(toks, pos, LParen) ==>
      var a := ArgumentsAt(toks, inner);
      IdentifierTailAt(toks, pos, name) == if a.Failed? then Failed(a.error, a.next) else Done(FunctionCall(name, a.value), a.next)
  {
  }

  /** A type starting with `[` is the bracket form read after it. */
  lemma BracketAnnotationEntry(toks: seq<Token>, pos: nat, inner: nat)
    requires pos < |toks| && CheckAt(toks, pos, LBracket) && inner == pos + 1
    ensures AnnotationAt(toks, pos) == BracketAnnotationAt(toks, inner)
  {
    assert AnnotationAt(toks, pos) == BracketAnnotationAt(toks, pos + 1);
  }

  lemma BracketAnnotationStep(toks: seq<Token>, pos: nat, elem: TypeAnnotation, p: nat, inner: nat)
    requires pos <= |toks| && AnnotationAt(toks, pos) == Done(elem, p)
    requires inner == if CheckAt(toks, p, Colon) then p + 1 else p
    ensures BracketAnnotationAt(toks, pos) ==
      if CheckAt(toks, p, Colon) then DictTailAt(toks, inner, elem)
      else
        var c := ConsumeAt(toks, p, RBracket, ExpectedArrayTypeClose);
        if c.Failed? then Failed(c.error, c.next) else Done(Shaped(ArrayName, [elem]), c.next)
  {
  }

  lemma CastStep(toks: seq<Token>, pos: nat, e: Expr, p: nat, inner: nat)
    requires pos <= |toks| && PrimaryAt(toks, pos) == Done(e, p)
    requires inner == if CheckAt(toks, p, As) then p + 1 else p
    ensures CastAt(toks, pos) ==
      if !CheckAt(toks, p, As) then Done(e, p)
      else
        var t := AnnotationAt(toks, inner);
        if t.Failed? then Failed(t.error, t.next) else Done(TypeCast(e, t.value), t.next)
  {
  }

  lemma SetAnnotationStep(toks: seq<Token>, pos: nat, next: nat, base: string, inner: nat)
    requires pos < |toks| && next == pos + 1 && base == toks[pos].lexeme
    requires inner == if CheckAt(toks, next, LessThan) then next + 1 else next
    ensures SetAnnotationAt(toks, pos) ==
      if CheckAt(toks, next, LessThan) then SetElementAt(toks, inner, base)
      else Failed(ParseError(SetNeedsElementType, PeekAt(toks, next)), next)
  {
  }

  lemma AnnotationListStep(toks: seq<Token>, pos: nat, acc: seq<TypeAnnotation>, t: TypeAnnotation, p: nat, q: nat)
    requires pos <= |toks| && AnnotationAt(toks, pos) == Done(t, p)
    requires q == if CheckAt(toks, p, Comma) then p + 1 else p
    ensures AnnotationListAt(toks, pos, acc) ==
      if CheckAt(toks, p, Comma) then AnnotationListAt(toks, q, acc + [t]) else Done(acc + [t], p)
  {
  }

  lemma BinaryLoopStep(level: nat, toks: seq<Token>, pos: nat, left: Expr, inner: nat, op: Token, right: Expr, p: nat)
    requires level <= LastLevel && pos <= |toks| && MatchesAny(toks, pos, LevelOps(level)) && inner == pos + 1 && op == toks[inner - 1]
    requires OperandAt(level, toks, inner).ToResult() == Ok(right) && OperandAt(level, toks, inner).next == p
    ensures BinaryLoopAt(level, toks, pos, left) == BinaryLoopAt(level, toks, p, BinaryOp(left, op, right))
  {
  }

  /** An operand that parses consumes at least one token. */
  lemma OperandAdvances(level: nat, toks: seq<Token>, pos: nat, e: Expr, p: nat)
    requires level <= LastLevel && pos <= |toks|
    requires OperandAt(level, toks, pos).ToResult() == Ok(e) && OperandAt(level, toks, pos).next == p
    ensures pos < p
  {
  }

  lemma BinaryLoopFails(level: nat, toks: seq<Token>, pos: nat, left: Expr, inner: nat)
    requires level <= LastLevel && pos <= |toks| && MatchesAny(toks, pos, LevelOps(level)) && inner == pos + 1
    requires OperandAt(level, toks, inner).Failed?
    ensures BinaryLoopAt(level, toks, pos, left) == OperandAt(level, toks, inner)
  {
  }

  lemma ExpressionListStep(toks: seq<Token>, pos: nat, acc: seq<Expr>, e: Expr, p: nat, q: nat)
    requires pos <= |toks| && ExpressionAt(toks, pos) == Done(e, p)
    requires q == if CheckAt(toks, p, Comma) then p + 1 else p
    ensures ExpressionListAt(toks, pos, acc) ==
      if CheckAt(toks, p, Comma) then ExpressionListAt(toks, q, acc + [e]) else Done(acc + [e], p)
  {
  }
}
