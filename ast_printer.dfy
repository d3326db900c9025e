/** The tree printer of ast_printer.py.

    `ASTPrinter` keeps the indentation depth in its field `indentLevel`.
    `print_block`, `print_arrayliteral` and `print_methodcall` raise it around
    the children they print and lower it again; every other routine renders
    one node at the current depth. The functions `ExprText`, `StmtText`,
    `BlockText`, `TypeText` and `NodeText` say what each routine returns for
    a node printed at a given depth; the methods of the class are proved to
    return exactly that and to leave `indentLevel` as they found it. The
    lemmas state what the layout promises: two spaces per level, Python's
    quoting of literal text (which can be read back), the order of the
    `elif` sections of an `if`, and the keywords of a `for` loop. */
module AstPrinter {
  import opened Common
  import opened Tokens
  import opened Types
  import opened Ast

  /** `indent_size`: the spaces one level of depth adds. */
  const IndentSize: nat := 2

  /** A run of `n` spaces. */
  function Spaces(n: nat): (r: string)
    ensures |r| == n
    ensures forall i :: 0 <= i < n ==> r[i] == ' '
  {
    if n == 0 then "" else Spaces(n - 1) + " "
  }

  /** What `indent()` returns at depth `level`. */
  function Padding(level: nat): string {
    Spaces(IndentSize * level)
  }

  /** One level deeper is two more spaces, and a deeper padding extends a
      shallower one. */
  lemma PaddingNests(level: nat, deeper: nat)
    requires level <= deeper
    ensures Padding(level + 1) == Padding(level) + "  "
    ensures Padding(level) <= Padding(deeper)
  {
  }

  /** `sep.join(parts)`. */
  function Join(parts: seq<string>, sep: string): string {
    if |parts| == 0 then ""
    else if |parts| == 1 then parts[0]
    else Join(parts[..|parts| - 1], sep) + sep + parts[|parts| - 1]
  }

  /** A non-empty join ends with the end of its last part. */
  lemma {:induction false} JoinEndsWithLast(parts: seq<string>, sep: string)
    requires |parts| > 0 && |parts[|parts| - 1]| > 0
    ensures |Join(parts, sep)| > 0
    ensures Join(parts, sep)[|Join(parts, sep)| - 1] == parts[|parts| - 1][|parts[|parts| - 1]| - 1]
  {
  }

  // ----- repr() of literal text -----

  /** A hexadecimal digit as `repr` writes it (lower case). */
  function HexDigit(d: nat): (c: char)
    requires d < 16
  {
    if d < 10 then ('0' as int + d) as char else ('a' as int + d - 10) as char
  }

  /** The value of a lower-case hexadecimal digit. */
  function HexValue(c: char): (r: Option<nat>)
    ensures r.Some? ==> r.value < 16
  {
    if '0' <= c <= '9' then Some(c as int - '0' as int)
    else if 'a' <= c <= 'f' then Some(c as int - 'a' as int + 10)
    else None
  }

  /** The quote `repr` puts around `s`: a double quote when `s` holds a single
      quote and no double quote, a single quote otherwise. */
  function QuoteFor(s: string): (q: char)
    ensures q == '\'' || q == '"'
    ensures q == '"' <==> '\'' in s && '"' !in s
  {
    if '\'' in s && '"' !in s then '"' else '\''
  }

  /** The characters up to U+00FF that `repr` does not print as they are:
      the C0 controls, DEL, the C1 controls, the no-break space U+00A0 and
      the soft hyphen U+00AD. */
  predicate HexEscaped(c: char) {
    (c as int) < 32 || (127 <= (c as int) <= 0xa0) || (c as int) == 0xad
  }

  /** How `repr` writes one character between quotes `q`: the backslash and
      the quote itself are escaped, tab, newline and carriage return get
      their letter escapes, the other `HexEscaped` characters a `\xNN`
      escape. */
  function EscapeChar(c: char, q: char): string {
    if c == '\\' || c == q then ['\\', c]
    else if c == '\t' then "\\t"
    else if c == '\n' then "\\n"
    else if c == '\r' then "\\r"
    else if HexEscaped(c) then
      ['\\', 'x', HexDigit(c as int / 16), HexDigit(c as int % 16)]
    else [c]
  }

  /** The text between the quotes of `repr`. */
  function Escape(s: string, q: char): string {
    if s == [] then "" else EscapeChar(s[0], q) + Escape(s[1..], q)
  }

  /** `repr(s)` for a Python `str`. */
  function Repr(s: string): (r: string)
    ensures |r| >= 2 && r[0] == QuoteFor(s) && r[|r| - 1] == QuoteFor(s)
  {
    var q := QuoteFor(s);
    [q] + Escape(s, q) + [q]
  }

  function Prepend(c: char, o: Option<string>): Option<string> {
    match o
    case Some(t) => Some([c] + t)
    case None => None
  }

  /** Reads the inside of a quoted text back, undoing `Escape`; `None` when
      it holds a bare quote or an escape `Escape` never writes. */
  function Unescape(t: string, q: char): Option<string> {
    if t == [] then Some("")
    else if t[0] == q then None
    else if t[0] != '\\' then Prepend(t[0], Unescape(t[1..], q))
    else if |t| < 2 then None
    else if t[1] == '\\' || t[1] == q then Prepend(t[1], Unescape(t[2..], q))
    else if t[1] == 't' then Prepend('\t', Unescape(t[2..], q))
    else if t[1] == 'n' then Prepend('\n', Unescape(t[2..], q))
    else if t[1] == 'r' then Prepend('\r', Unescape(t[2..], q))
    else if t[1] == 'x' && |t| >= 4 && HexValue(t[2]).Some? && HexValue(t[3]).Some? then
      Prepend((HexValue(t[2]).value * 16 + HexValue(t[3]).value) as char, Unescape(t[4..], q))
    else None
  }

  /** Reads a quoted text back: the inverse of `Repr`. */
  function Unrepr(t: string): Option<string> {
    if |t| >= 2 && t[0] == t[|t| - 1] && (t[0] == '\'' || t[0] == '"') then
      Unescape(t[1..|t| - 1], t[0])
    else None
  }

  lemma UnescapeStep(c: char, q: char, rest: string)
    requires q == '\'' || q == '"'
    ensures Unescape(EscapeChar(c, q) + rest, q) == Prepend(c, Unescape(rest, q))
  {
    var t := EscapeChar(c, q) + rest;
    if c == '\\' || c == q {
      assert t[2..] == rest;
    } else if c == '\t' || c == '\n' || c == '\r' {
      assert t[2..] == rest;
    } else if HexEscaped(c) {
      assert t[4..] == rest;
      assert HexValue(t[2]) == Some(c as int / 16);
      assert HexValue(t[3]) == Some(c as int % 16);
    } else {
      assert t[1..] == rest;
    }
  }

  lemma {:induction false} EscapeRoundTrip(s: string, q: char)
    requires q == '\'' || q == '"'
    ensures Unescape(Escape(s, q), q) == Some(s)
  {
    if s != [] {
      EscapeRoundTrip(s[1..], q);
      UnescapeStep(s[0], q, Escape(s[1..], q));
      assert [s[0]] + s[1..] == s;
    }
  }

  /** Reading a printed literal text back gives the text. */
  lemma ReprRoundTrip(s: string)
    ensures Unrepr(Repr(s)) == Some(s)
  {
    var q := QuoteFor(s);
    var r := Repr(s);
    assert r[1..|r| - 1] == Escape(s, q);
    EscapeRoundTrip(s, q);
  }

  /** The no-break space is written as a `\xNN` escape, as Python's `repr`
      writes it. */
  lemma ReprNoBreakSpace()
    ensures Repr("a\U{00A0}b") == "'a\\xa0b'"
  {
  }

  lemma {:induction false} EscapeOneLine(s: string, q: char)
    requires q != '\n'
    ensures '\n' !in Escape(s, q)
  {
    if s != [] {
      EscapeOneLine(s[1..], q);
    }
  }

  /** A printed literal text stays on one line, whatever the text holds. */
  lemma ReprOneLine(s: string)
    ensures '\n' !in Repr(s)
  {
    EscapeOneLine(s, QuoteFor(s));
  }

  // ----- what each print_* routine returns -----

  /** What `print_ast` is handed: nothing (`None`, a statement the parser gave
      up on), a node of the tree, or the bare method name a `MethodCall`
      holds (a Python `str`, for which there is no printing routine). */
  datatype Node =
    | NoNode
    | ExprNode(expr: Expr)
    | StmtNode(stmt: Stmt)
    | BlockNode(block: Block)
    | TypeNode(ann: TypeAnnotation)
    | TypeParamNode(typeParam: TypeParameter)
    | ParamNode(funcParam: FunctionParam)
    | TextNode(text: string)

  /** `print_ast(None)`. */
  function InvalidText(level: nat): string {
    Padding(level) + "<invalid statement: parsing error>"
  }

  /** `print_unknown` on an object of class `className`. */
  function UnknownText(className: string, level: nat): string {
    Padding(level) + "<unknown node type: " + className + ">"
  }

  /** `print_identifier`: every name of the tree is an `Identifier` node. */
  function NameText(name: string, level: nat): string {
    Padding(level) + "IDENTIFIER(" + name + ")"
  }

  /** `repr` of a literal's value: its token text, or a Python `bool`. */
  function ValueText(v: LitValue): string {
    match v
    case LText(t) => Repr(t)
    case LBool(b) => if b then "True" else "False"
  }

  /** `print_typeannotation`: the parameters are printed at the same depth
      and joined with commas inside angle brackets. */
  function TypeText(t: TypeAnnotation, level: nat): string
    decreases t, 1
  {
    if |t.parameters| > 0 then
      Padding(level) + "TYPE(" + t.name + "<"
      + Join(TypeArgTexts(t.parameters, level), ", ")
      + ">)"
    else Padding(level) + "TYPE(" + t.name + ")"
  }

  /** The texts of an annotation's parameters, each at depth `level`. */
  function TypeArgTexts(ps: seq<TypeArg>, level: nat): (r: seq<string>)
    ensures |r| == |ps|
    decreases ps
  {
    if ps == [] then [] else TypeArgTexts(ps[..|ps| - 1], level) + [TypeArgText(ps[|ps| - 1], level)]
  }

  /** A type parameter has no printing routine of its own. */
  function TypeArgText(a: TypeArg, level: nat): string
    decreases a, 0
  {
    match a
    case Concrete(ann) => TypeText(ann, level)
    case Param(_) => UnknownText("TypeParameter", level)
  }

  /** `print_assignment`, for the statement and the expression alike. */
  function AssignmentText(target: string, valueText: string, level: nat): string {
    Padding(level) + "ASSIGNMENT\n" + NameText(target, level) + "\n" + valueText
  }

  /** The `print_*` routine of each expression class. */
  function ExprText(e: Expr, level: nat): string
    decreases e
  {
    var pad := Padding(level);
    match e
    case Literal(payload, kind) => pad + KindName(kind) + "(" + ValueText(payload) + ")"
    case Identifier(name) => NameText(name, level)
    case BinaryOp(left, op, right) =>
      pad + "BINARY_OP(" + KindName(op.kind) + ")\n" + ExprText(left, level) + "\n" + ExprText(right, level)
    case UnaryOp(op, operand) =>
      pad + "UNARY_OP(" + KindName(op.kind) + ")\n" + ExprText(operand, level)
    case FunctionCall(callee, args) =>
      Join([pad + "FUNCTION_CALL", NameText(callee, level), pad + "ARGUMENTS:"] + ExprTexts(args, level), "\n")
    case MethodCall(obj, _, args) =>
      Join([pad + "METHOD_CALL", pad + "OBJECT:", NameText(obj, level), pad + "METHOD:",
            UnknownText("str", level), pad + "ARGUMENTS:"] + ExprTexts(args, level + 1), "\n")
    case ArrayAccess(indexed, index) =>
      pad + "ARRAY_ACCESS\n" + pad + "ARRAY:\n" + ExprText(indexed, level) + "\n"
      + pad + "INDEX:\n" + ExprText(index, level)
    case ArrayLiteral(elements) => Join([pad + "ARRAY_LITERAL"] + ExprTexts(elements, level + 1), "\n")
    case TypeCast(operand, target) =>
      pad + "TYPE_CAST\n" + ExprText(operand, level) + "\n" + pad + "TO:\n" + TypeText(target, level)
    case Assign(assignee, rhs) => AssignmentText(assignee, ExprText(rhs, level), level)
  }

  /** The texts of a list of expressions, each at depth `level`. */
  function ExprTexts(es: seq<Expr>, level: nat): (r: seq<string>)
    ensures |r| == |es|
    decreases es
  {
    if es == [] then [] else ExprTexts(es[..|es| - 1], level) + [ExprText(es[|es| - 1], level)]
  }

  /** `print_functionparam`. */
  function ParamText(p: FunctionParam, level: nat): string {
    Padding(level) + "PARAMETER\n" + NameText(p.name, level) + "\n" + TypeText(p.typeAnnotation, level)
  }

  /** The `print_*` routine of each statement class; enumeration and protocol
      declarations have none. */
  function StmtText(s: Stmt, level: nat): string
    decreases s, 1
  {
    var pad := Padding(level);
    match s
    case VariableDecl(name, ann, init) =>
      Join([pad + "VARIABLE_DECLARATION", NameText(name, level), TypeText(ann, level)]
           + (if init.Some? then [ExprText(init.value, level)] else []), "\n")
    case Assignment(target, value) => AssignmentText(target, ExprText(value, level), level)
    case BlockStmt(block) => BlockText(block, level)
    case IfStatement(_, _, _, _) => Join(IfParts(s, level), "\n")
    case ForLoop(_, _, _, _, _, _) => Join(ForParts(s, level), "\n")
    case WhileLoop(condition, body) =>
      pad + "WHILE_LOOP\n" + pad + "CONDITION:\n" + ExprText(condition, level) + "\n"
      + pad + "BODY:\n" + BlockText(body, level)
    case FunctionDeclStmt(decl) => FunctionDeclText(decl, level)
    case ReturnStatement(result) =>
      Join([pad + "RETURN"] + (if result.Some? then [ExprText(result.value, level)] else []), "\n")
    case ExpressionStmt(expression) => pad + "EXPRESSION_STATEMENT\n" + ExprText(expression, level)
    case EnumDeclaration(_, _, _) => UnknownText("EnumDeclaration", level)
    case ProtocolDeclaration(_, _, _) => UnknownText("ProtocolDeclaration", level)
  }

  /** The lines `print_ifstatement` joins: the condition and the then-block,
      one section of four lines per `elif`, and the else-block if any. */
  function IfParts(s: Stmt, level: nat): seq<string>
    requires s.IfStatement?
    decreases s, 0
  {
    var pad := Padding(level);
    [pad + "IF_STATEMENT", pad + "CONDITION:", ExprText(s.condition, level), pad + "THEN:", BlockText(s.thenBranch, level)]
    + ElifParts(s.elifBranches, level)
    + (if s.elseBranch.Some? then [pad + "ELSE:", BlockText(s.elseBranch.value, level)] else [])
  }

  /** The lines of one `elif` section. */
  function ElifSection(branch: ElifBranch, level: nat): seq<string>
    decreases branch
  {
    var pad := Padding(level);
    [pad + "ELIF_CONDITION:", ExprText(branch.condition, level), pad + "ELIF_BODY:", BlockText(branch.body, level)]
  }

  /** The `elif` sections of a list of branches, one per branch. */
  function ElifSections(branches: seq<ElifBranch>, level: nat): (r: seq<seq<string>>)
    ensures |r| == |branches|
    ensures forall k :: 0 <= k < |branches| ==> r[k] == ElifSection(branches[k], level)
    decreases branches, 0
  {
    seq(|branches|, k requires 0 <= k < |branches| => ElifSection(branches[k], level))
  }

  /** The lines of all `elif` sections, one section after another. */
  function ElifParts(branches: seq<ElifBranch>, level: nat): seq<string>
    decreases branches, 1
  {
    Concat(ElifSections(branches, level))
  }

  /** Groups of lines, one group after another. */
  function Concat<T>(groups: seq<seq<T>>): seq<T> {
    if groups == [] then [] else Concat(groups[..|groups| - 1]) + groups[|groups| - 1]
  }

  /** The lines `print_forloop` puts one per line. */
  function ForParts(s: Stmt, level: nat): seq<string>
    requires s.ForLoop?
    decreases s, 0
  {
    var pad := Padding(level);
    [pad + "FOR_LOOP", NameText(s.iteratorName, level),
     pad + "FROM:", ExprText(s.start, level),
     pad + (if s.isInclusive then "THROUGH:" else "TO:"), ExprText(s.end, level),
     pad + "STEP:", if s.step.Some? then ExprText(s.step.value, level) else pad + "DEFAULT",
     pad + "BODY:", BlockText(s.body, level)]
  }

  /** The texts of a list of parameters, each at depth `level`. */
  function ParamTexts(ps: seq<FunctionParam>, level: nat): (r: seq<string>)
    ensures |r| == |ps|
  {
    if ps == [] then [] else ParamTexts(ps[..|ps| - 1], level) + [ParamText(ps[|ps| - 1], level)]
  }

  /** `print_functiondecl`. */
  function FunctionDeclText(d: FunctionDecl, level: nat): string
    decreases d
  {
    var pad := Padding(level);
    Join([pad + "FUNCTION_DECLARATION", NameText(d.name, level), pad + "PARAMETERS:"]
         + ParamTexts(d.params, level)
         + (if d.returnType.Some? then [pad + "RETURN_TYPE:", TypeText(d.returnType.value, level)] else [])
         + [pad + "BODY:", BlockText(d.body, level)], "\n")
  }

  /** `print_block`: the statements one level deeper, one after another. */
  function BlockText(b: Block, level: nat): string
    decreases b
  {
    Join(StmtTexts(b.statements, level + 1), "\n")
  }

  /** The texts of a list of statements, each at depth `level`. */
  function StmtTexts(ss: seq<Stmt>, level: nat): (r: seq<string>)
    ensures |r| == |ss|
    decreases ss
  {
    if ss == [] then [] else StmtTexts(ss[..|ss| - 1], level) + [StmtText(ss[|ss| - 1], level)]
  }

  /** `print_ast`: the routine named after the node's class, or
      `print_unknown` when there is none. */
  function NodeText(n: Node, level: nat): string {
    match n
    case NoNode => InvalidText(level)
    case ExprNode(e) => ExprText(e, level)
    case StmtNode(s) => StmtText(s, level)
    case BlockNode(b) => BlockText(b, level)
    case TypeNode(t) => TypeText(t, level)
    case TypeParamNode(_) => UnknownText("TypeParameter", level)
    case ParamNode(p) => ParamText(p, level)
    case TextNode(_) => UnknownText("str", level)
  }

  /** The module-level `print_ast`: every statement at depth 0, one per line. */
  function ProgramText(program: seq<Stmt>): string {
    Join(StmtTexts(program, 0), "\n")
  }

  // ----- what the layout promises -----

  /** Entry `i` of a list of type arguments is the printout of argument `i`. */
  lemma {:induction false} TypeArgTextsInOrder(ps: seq<TypeArg>, level: nat, i: nat)
    requires i < |ps|
    ensures TypeArgTexts(ps, level)[i] == TypeArgText(ps[i], level)
  {
    var front := ps[..|ps| - 1];
    if i < |front| {
      TypeArgTextsInOrder(front, level, i);
      assert front[i] == ps[i];
    }
  }

  /** Entry `i` of a list of expressions is the printout of expression `i`. */
  lemma {:induction false} ExprTextsInOrder(es: seq<Expr>, level: nat, i: nat)
    requires i < |es|
    ensures ExprTexts(es, level)[i] == ExprText(es[i], level)
  {
    var front := es[..|es| - 1];
    if i < |front| {
      ExprTextsInOrder(front, level, i);
      assert front[i] == es[i];
    }
  }

  /** Entry `i` of a parameter list is the printout of parameter `i`. */
  lemma {:induction false} ParamTextsInOrder(ps: seq<FunctionParam>, level: nat, i: nat)
    requires i < |ps|
    ensures ParamTexts(ps, level)[i] == ParamText(ps[i], level)
  {
    var front := ps[..|ps| - 1];
    if i < |front| {
      ParamTextsInOrder(front, level, i);
      assert front[i] == ps[i];
    }
  }

  /** Entry `i` of a list of statements is the printout of statement `i`. */
  lemma {:induction false} StmtTextsInOrder(ss: seq<Stmt>, level: nat, i: nat)
    requires i < |ss|
    ensures StmtTexts(ss, level)[i] == StmtText(ss[i], level)
  {
    var front := ss[..|ss| - 1];
    if i < |front| {
      StmtTextsInOrder(front, level, i);
      assert front[i] == ss[i];
    }
  }

  /** Concatenating one more group appends it. */
  lemma ConcatSnoc<T>(groups: seq<seq<T>>, last: seq<T>)
    ensures Concat(groups + [last]) == Concat(groups) + last
  {
    assert (groups + [last])[..|groups|] == groups;
  }

  /** The groups before `i + 1` are those before `i` and then group `i`. */
  lemma ConcatPrefixStep<T>(groups: seq<seq<T>>, i: nat)
    requires i < |groups|
    ensures Concat(groups[..i + 1]) == Concat(groups[..i]) + groups[i]
  {
    assert groups[..i + 1] == groups[..i] + [groups[i]];
    ConcatSnoc(groups[..i], groups[i]);
  }

  /** Groups of four lines each sit one after another: group `k` is lines
      `4k` to `4k + 3`. */
  lemma {:induction false} ConcatInOrder<T>(groups: seq<seq<T>>)
    requires forall k :: 0 <= k < |groups| ==> |groups[k]| == 4
    ensures |Concat(groups)| == 4 * |groups|
    ensures forall k :: 0 <= k < |groups| ==> Concat(groups)[4 * k .. 4 * k + 4] == groups[k]
  {
    if groups != [] {
      var n := |groups| - 1;
      var front := groups[..n];
      ConcatInOrder(front);
      var before := Concat(front);
      forall k | 0 <= k < |groups|
        ensures Concat(groups)[4 * k .. 4 * k + 4] == groups[k]
      {
        if k < n {
          assert groups[k] == front[k];
          assert Concat(groups)[4 * k .. 4 * k + 4] == before[4 * k .. 4 * k + 4];
        }
      }
    }
  }

  /** The `elif` sections follow one another in the order of the branches:
      section `k` is lines `4k` to `4k + 3`. */
  lemma ElifPartsInOrder(branches: seq<ElifBranch>, level: nat)
    ensures |ElifParts(branches, level)| == 4 * |branches|
    ensures forall k :: 0 <= k < |branches| ==>
      ElifParts(branches, level)[4 * k .. 4 * k + 4] == ElifSection(branches[k], level)
  {
    ConcatInOrder(ElifSections(branches, level));
  }

  /** The printout of an `if`: five lines for the condition and the
      then-block, then every `elif` section in order, then `ELSE:` and the
      else-block exactly when there is one. */
  lemma IfSections(s: Stmt, level: nat)
    requires s.IfStatement?
    ensures var parts := IfParts(s, level);
      var n := |s.elifBranches|;
      |parts| == 5 + 4 * n + (if s.elseBranch.Some? then 2 else 0)
      && parts[2] == ExprText(s.condition, level)
      && parts[4] == BlockText(s.thenBranch, level)
      && (forall k :: 0 <= k < n ==> parts[5 + 4 * k .. 9 + 4 * k] == ElifSection(s.elifBranches[k], level))
      && (s.elseBranch.Some? ==> parts[5 + 4 * n ..] == [Padding(level) + "ELSE:", BlockText(s.elseBranch.value, level)])
  {
    var pad := Padding(level);
    var head := [pad + "IF_STATEMENT", pad + "CONDITION:", ExprText(s.condition, level), pad + "THEN:", BlockText(s.thenBranch, level)];
    var elifs := ElifParts(s.elifBranches, level);
    var tail := if s.elseBranch.Some? then [pad + "ELSE:", BlockText(s.elseBranch.value, level)] else [];
    var parts := IfParts(s, level);
    assert parts == head + elifs + tail;
    ElifPartsInOrder(s.elifBranches, level);
    forall k | 0 <= k < |s.elifBranches|
      ensures parts[5 + 4 * k .. 9 + 4 * k] == ElifSection(s.elifBranches[k], level)
    {
      assert parts[5 + 4 * k .. 9 + 4 * k] == elifs[4 * k .. 4 * k + 4];
    }
    assert parts[5 + 4 * |s.elifBranches| ..] == tail;
  }

  /** The text ends with the `)` of a node, the `:` of `ARGUMENTS:` or the
      `L` of `ARRAY_LITERAL`. */
  predicate EndsAsExpr(t: string) {
    |t| > 0 && (t[|t| - 1] == ')' || t[|t| - 1] == ':' || t[|t| - 1] == 'L')
  }

  lemma EndsAfter(front: string, t: string)
    requires EndsAsExpr(t)
    ensures EndsAsExpr(front + t)
  {
    assert (front + t)[|front + t| - 1] == t[|t| - 1];
  }

  /** Lines joined by newlines end as the last line does. */
  lemma JoinEnds(parts: seq<string>)
    requires parts != [] && EndsAsExpr(parts[|parts| - 1])
    ensures EndsAsExpr(Join(parts, "\n"))
  {
    JoinEndsWithLast(parts, "\n");
  }

  /** Every expression's printout ends with `)`, `:` or `L`. */
  lemma {:induction false} ExprTextEnd(e: Expr, level: nat)
    ensures EndsAsExpr(ExprText(e, level))
    decreases e, 1
  {
    var pad := Padding(level);
    match e
    case Literal(payload, kind) =>
      EndsAfter(pad + KindName(kind) + "(" + ValueText(payload), ")");
    case Identifier(name) =>
      EndsAfter(pad + "IDENTIFIER(" + name, ")");
    case BinaryOp(left, op, right) =>
      ExprTextEnd(right, level);
      EndsAfter(pad + "BINARY_OP(" + KindName(op.kind) + ")\n" + ExprText(left, level) + "\n", ExprText(right, level));
    case UnaryOp(op, operand) =>
      ExprTextEnd(operand, level);
      EndsAfter(pad + "UNARY_OP(" + KindName(op.kind) + ")\n", ExprText(operand, level));
    case FunctionCall(_, _) =>
      OperandsTextEnd(e, level);
    case MethodCall(_, _, _) =>
      OperandsTextEnd(e, level);
    case ArrayAccess(indexed, index) =>
      ExprTextEnd(index, level);
      EndsAfter(pad + "ARRAY_ACCESS\n" + pad + "ARRAY:\n" + ExprText(indexed, level) + "\n" + pad + "INDEX:\n",
                ExprText(index, level));
    case ArrayLiteral(_) =>
      OperandsTextEnd(e, level);
    case TypeCast(operand, target) =>
      var tt := TypeText(target, level);
      if |target.parameters| > 0 {
        EndsAfter(pad + "TYPE(" + target.name + "<" + Join(TypeArgTexts(target.parameters, level), ", ") + ">", ")");
      } else {
        EndsAfter(pad + "TYPE(" + target.name, ")");
      }
      EndsAfter(pad + "TYPE_CAST\n" + ExprText(operand, level) + "\n" + pad + "TO:\n", tt);
    case Assign(assignee, rhs) =>
      ExprTextEnd(rhs, level);
      EndsAfter(pad + "ASSIGNMENT\n" + NameText(assignee, level) + "\n", ExprText(rhs, level));
  }

  /** A call or a list literal ends as its last operand does, or with the
      header line when it has none. */
  lemma {:induction false} OperandsTextEnd(e: Expr, level: nat)
    requires e.FunctionCall? || e.MethodCall? || e.ArrayLiteral?
    ensures EndsAsExpr(ExprText(e, level))
    decreases e, 0
  {
    var pad := Padding(level);
    var depth := if e.FunctionCall? then level else level + 1;
    var operands := if e.ArrayLiteral? then e.elements else e.arguments;
    var header :=
      if e.FunctionCall? then [pad + "FUNCTION_CALL", NameText(e.callee, level), pad + "ARGUMENTS:"]
      else if e.MethodCall? then
        [pad + "METHOD_CALL", pad + "OBJECT:", NameText(e.obj, level), pad + "METHOD:",
         UnknownText("str", level), pad + "ARGUMENTS:"]
      else [pad + "ARRAY_LITERAL"];
    var parts := header + ExprTexts(operands, depth);
    assert ExprText(e, level) == Join(parts, "\n");
    if operands != [] {
      ExprTextEnd(operands[|operands| - 1], depth);
      assert parts[|parts| - 1] == ExprText(operands[|operands| - 1], depth);
    } else {
      assert parts == header;
    }
    JoinEnds(parts);
  }

  /** The printout of a `for` loop names its range `THROUGH` exactly when the
      end is included, and its step line reads `DEFAULT` exactly when the
      loop has no `by` clause: no step expression prints as that line. */
  lemma ForKeywords(s: Stmt, level: nat)
    requires s.ForLoop?
    ensures |ForParts(s, level)| == 10
    ensures ForParts(s, level)[4] == Padding(level) + "THROUGH:" <==> s.isInclusive
    ensures ForParts(s, level)[4] == Padding(level) + "TO:" <==> !s.isInclusive
    ensures ForParts(s, level)[7] == Padding(level) + "DEFAULT" <==> s.step.None?
  {
    var pad := Padding(level);
    if s.step.Some? {
      var t := ExprText(s.step.value, level);
      ExprTextEnd(s.step.value, level);
    }
    if s.isInclusive {
      assert |pad + "THROUGH:"| != |pad + "TO:"|;
    }
  }

  /** `print_block` prints its statements one level deeper than itself. */
  lemma BlockNests(s: Stmt, level: nat)
    ensures BlockText(Block([s]), level) == StmtText(s, level + 1)
    ensures BlockText(Block([]), level) == ""
  {
    assert StmtTexts([s], level + 1) == [StmtText(s, level + 1)];
    assert StmtTexts([], level + 1) == [];
  }

  /** An annotation with two parameters prints as `TYPE(name<p1, p2>)`,
      each parameter printed at the annotation's own depth (so inside a
      block the padding repeats after the comma). */
  lemma TypeWithTwoParameters(name: string, kind: TypeKind, first: TypeAnnotation, second: TypeAnnotation, level: nat)
    ensures TypeText(TypeAnnotation(name, [Concrete(first), Concrete(second)], kind), level)
            == Padding(level) + "TYPE(" + name + "<" + TypeText(first, level) + ", " + TypeText(second, level) + ">)"
  {
    var ps := [Concrete(first), Concrete(second)];
    var a := TypeText(first, level);
    var b := TypeText(second, level);
    assert ps[..1] == [Concrete(first)] && ps[..1][..0] == [];
    assert TypeArgTexts(ps[..1], level) == [a];
    assert TypeArgText(ps[1], level) == b;
    var texts := TypeArgTexts(ps, level);
    assert texts == TypeArgTexts(ps[..1], level) + [TypeArgText(ps[1], level)];
    assert texts[..1] == [a];
    assert Join(texts, ", ") == a + ", " + b;
  }

  /** What `print_ast` prints for objects it has no routine for: `None`, a
      type parameter, a bare method name, and enumeration and protocol
      declarations. */
  lemma UnhandledNodes(level: nat, p: TypeParameter, text: string)
    ensures NodeText(NoNode, level) == InvalidText(level)
    ensures NodeText(TypeParamNode(p), level) == UnknownText("TypeParameter", level)
    ensures NodeText(TextNode(text), level) == UnknownText("str", level)
  {
  }

  lemma UnprintedDeclarations(name: string, variants: seq<string>, conformance: Option<string>,
                              properties: seq<ProtocolProperty>, methods: seq<ProtocolMethod>, level: nat)
    ensures NodeText(StmtNode(EnumDeclaration(name, variants, conformance)), level)
            == UnknownText("EnumDeclaration", level)
    ensures NodeText(StmtNode(ProtocolDeclaration(name, properties, methods)), level)
            == UnknownText("ProtocolDeclaration", level)
  {
  }

  /** The module-level `print_ast` puts each further statement on a line of
      its own after the ones before it. */
  lemma ProgramAppend(program: seq<Stmt>, s: Stmt)
    ensures program == [] ==> ProgramText([s]) == StmtText(s, 0)
    ensures program != [] ==> ProgramText(program + [s]) == ProgramText(program) + "\n" + StmtText(s, 0)
  {
    var texts := StmtTexts(program + [s], 0);
    assert texts[..|texts| - 1] == StmtTexts(program, 0);
  }

  // ----- the printer object -----

  /** The `ASTPrinter` object: `indentLevel` is the depth of the node being
      printed; every routine hands it back as it found it. */
  class ASTPrinter {
    var indentLevel: nat

    /** `indent_level` starts at 0 (`indent_size` is the constant `IndentSize`). */
    constructor ()
      ensures indentLevel == 0
    {
      indentLevel := 0;
    }

    /** `indent()`: two spaces per level. */
    function Indent(): (r: string)
      reads this
      ensures |r| == IndentSize * indentLevel
      ensures forall i :: 0 <= i < |r| ==> r[i] == ' '
    {
      Padding(indentLevel)
    }

    /** `print_ast`: dispatch on the class of `n`. */
    method PrintAst(n: Node) returns (s: string)
      modifies this
      ensures s == NodeText(n, old(indentLevel))
      ensures indentLevel == old(indentLevel)
    {
      match n
      case NoNode => s := Indent() + "<invalid statement: parsing error>";
      case ExprNode(e) => s := PrintExpr(e);
      case StmtNode(st) => s := PrintStmt(st);
      case BlockNode(b) => s := PrintBlock(b);
      case TypeNode(t) => s := PrintTypeAnnotation(t);
      case TypeParamNode(_) => s := PrintUnknown("TypeParameter");
      case ParamNode(p) => s := PrintFunctionParam(p);
      case TextNode(_) => s := PrintUnknown("str");
    }

    /** `print_unknown`. */
    method PrintUnknown(className: string) returns (s: string)
      ensures s == UnknownText(className, indentLevel)
    {
      s := Indent() + "<unknown node type: " + className + ">";
    }

    /** `print_identifier`. */
    method PrintIdentifier(name: string) returns (s: string)
      ensures s == NameText(name, indentLevel)
    {
      s := Indent() + "IDENTIFIER(" + name + ")";
    }

    /** `print_typeannotation`. */
    method PrintTypeAnnotation(t: TypeAnnotation) returns (s: string)
      ensures s == TypeText(t, indentLevel)
      decreases t, 1
    {
      if |t.parameters| > 0 {
        var level := indentLevel;
        var parts: seq<string> := [];
        var i := 0;
        while i < |t.parameters|
          invariant 0 <= i <= |t.parameters|
          invariant parts == TypeArgTexts(t.parameters[..i], level)
        {
          var p := PrintTypeArg(t.parameters[i]);
          assert t.parameters[..i + 1][..i] == t.parameters[..i];
          parts := parts + [p];
          i := i + 1;
        }
        assert t.parameters[..i] == t.parameters;
        s := Indent() + "TYPE(" + t.name + "<" + Join(parts, ", ") + ">)";
      } else {
        s := Indent() + "TYPE(" + t.name + ")";
      }
    }

    /** `print_ast` on an element of an annotation's parameter list. */
    method PrintTypeArg(a: TypeArg) returns (s: string)
      ensures s == TypeArgText(a, indentLevel)
      decreases a, 0
    {
      match a
      case Concrete(ann) => s := PrintTypeAnnotation(ann);
      case Param(_) => s := PrintUnknown("TypeParameter");
    }

    /** `print_functionparam`. */
    method PrintFunctionParam(p: FunctionParam) returns (s: string)
      ensures s == ParamText(p, indentLevel)
    {
      var name := PrintIdentifier(p.name);
      var ann := PrintTypeAnnotation(p.typeAnnotation);
      s := Indent() + "PARAMETER\n" + name + "\n" + ann;
    }

    /** `print_ast` on an expression: `print_literal`, `print_identifier`,
        `print_binaryop`, `print_unaryop`, `print_arrayaccess`,
        `print_typecast` and `print_assignment` here, the routines with
        loops below. */
    method PrintExpr(e: Expr) returns (s: string)
      modifies this
      ensures s == ExprText(e, old(indentLevel))
      ensures indentLevel == old(indentLevel)
      decreases e, 2
    {
      match e
      case Literal(payload, kind) =>
        s := Indent() + KindName(kind) + "(" + ValueText(payload) + ")";
      case Identifier(name) =>
        s := PrintIdentifier(name);
      case BinaryOp(left, op, right) =>
        var l := PrintExpr(left);
        var r := PrintExpr(right);
        s := Indent() + "BINARY_OP(" + KindName(op.kind) + ")\n" + l + "\n" + r;
      case UnaryOp(op, operand) =>
        var x := PrintExpr(operand);
        s := Indent() + "UNARY_OP(" + KindName(op.kind) + ")\n" + x;
      case FunctionCall(_, _) =>
        s := PrintFunctionCall(e);
      case MethodCall(_, _, _) =>
        s := PrintMethodCall(e);
      case ArrayAccess(indexed, index) =>
        var a := PrintExpr(indexed);
        var x := PrintExpr(index);
        s := Indent() + "ARRAY_ACCESS\n" + Indent() + "ARRAY:\n" + a + "\n" + Indent() + "INDEX:\n" + x;
      case ArrayLiteral(_) =>
        s := PrintArrayLiteral(e);
      case TypeCast(operand, target) =>
        var x := PrintExpr(operand);
        var t := PrintTypeAnnotation(target);
        s := Indent() + "TYPE_CAST\n" + x + "\n" + Indent() + "TO:\n" + t;
      case Assign(assignee, rhs) =>
        var name := PrintIdentifier(assignee);
        var x := PrintExpr(rhs);
        s := Indent() + "ASSIGNMENT\n" + name + "\n" + x;
    }

    /** The argument loop shared by `print_functioncall`,
        `print_methodcall` and `print_arrayliteral`: each argument (or
        element) printed in order at the current level. */
    method PrintOperands(e: Expr) returns (texts: seq<string>)
      requires e.FunctionCall? || e.MethodCall? || e.ArrayLiteral?
      modifies this
      ensures texts == ExprTexts(if e.ArrayLiteral? then e.elements else e.arguments, old(indentLevel))
      ensures indentLevel == old(indentLevel)
      decreases e, 0
    {
      var operands := if e.ArrayLiteral? then e.elements else e.arguments;
      texts := [];
      var i := 0;
      while i < |operands|
        invariant 0 <= i <= |operands|
        invariant indentLevel == old(indentLevel)
        invariant texts == ExprTexts(operands[..i], indentLevel)
      {
        var a := PrintExpr(operands[i]);
        assert operands[..i + 1][..i] == operands[..i];
        texts := texts + [a];
        i := i + 1;
      }
      assert operands[..i] == operands;
    }

    /** `print_functioncall`: the arguments at the call's own depth. */
    method PrintFunctionCall(e: Expr) returns (s: string)
      requires e.FunctionCall?
      modifies this
      ensures s == ExprText(e, old(indentLevel))
      ensures indentLevel == old(indentLevel)
      decreases e, 1
    {
      var callee := PrintIdentifier(e.callee);
      var arguments := PrintOperands(e);
      s := Join([Indent() + "FUNCTION_CALL", callee, Indent() + "ARGUMENTS:"] + arguments, "\n");
    }

    /** `print_methodcall`: the arguments one level deeper, the level restored
        afterwards. The method name is a bare string and prints as an
        unknown node. */
    method PrintMethodCall(e: Expr) returns (s: string)
      requires e.MethodCall?
      modifies this
      ensures s == ExprText(e, old(indentLevel))
      ensures indentLevel == old(indentLevel)
      decreases e, 1
    {
      var obj := PrintIdentifier(e.obj);
      var methodName := PrintUnknown("str");
      var header := [Indent() + "METHOD_CALL", Indent() + "OBJECT:", obj, Indent() + "METHOD:",
                     methodName, Indent() + "ARGUMENTS:"];
      indentLevel := indentLevel + 1;
      var arguments := PrintOperands(e);
      indentLevel := indentLevel - 1;
      s := Join(header + arguments, "\n");
    }

    /** `print_arrayliteral`: the elements one level deeper, the level
        restored afterwards. */
    method PrintArrayLiteral(e: Expr) returns (s: string)
      requires e.ArrayLiteral?
      modifies this
      ensures s == ExprText(e, old(indentLevel))
      ensures indentLevel == old(indentLevel)
      decreases e, 1
    {
      var header := [Indent() + "ARRAY_LITERAL"];
      indentLevel := indentLevel + 1;
      var elements := PrintOperands(e);
      indentLevel := indentLevel - 1;
      s := Join(header + elements, "\n");
    }

    /** `print_ast` on a statement: `print_variabledecl`,
        `print_assignment`, `print_whileloop`, `print_returnstatement` and
        `print_expressionstmt` here, the others below. */
    method PrintStmt(st: Stmt) returns (s: string)
      modifies this
      ensures s == StmtText(st, old(indentLevel))
      ensures indentLevel == old(indentLevel)
      decreases st, 3
    {
      var level := indentLevel;
      match st
      case VariableDecl(name, ann, init) =>
        var n := PrintIdentifier(name);
        var t := PrintTypeAnnotation(ann);
        var parts := [Indent() + "VARIABLE_DECLARATION", n, t];
        if init.Some? {
          var x := PrintExpr(init.value);
          parts := parts + [x];
        }
        assert parts == [Padding(level) + "VARIABLE_DECLARATION", n, t]
                        + (if init.Some? then [ExprText(init.value, level)] else []);
        s := Join(parts, "\n");
      case Assignment(target, value) =>
        var n := PrintIdentifier(target);
        var x := PrintExpr(value);
        s := Indent() + "ASSIGNMENT\n" + n + "\n" + x;
      case BlockStmt(block) =>
        s := PrintBlock(block);
      case IfStatement(_, _, _, _) =>
        s := PrintIfStatement(st);
      case ForLoop(_, _, _, _, _, _) =>
        s := PrintForLoop(st);
      case WhileLoop(condition, body) =>
        var c := PrintExpr(condition);
        var b := PrintBlock(body);
        s := Indent() + "WHILE_LOOP\n" + Indent() + "CONDITION:\n" + c + "\n" + Indent() + "BODY:\n" + b;
      case FunctionDeclStmt(decl) =>
        s := PrintFunctionDecl(decl);
      case ReturnStatement(result) =>
        var parts := [Indent() + "RETURN"];
        if result.Some? {
          var x := PrintExpr(result.value);
          parts := parts + [x];
        }
        assert parts == [Padding(level) + "RETURN"] + (if result.Some? then [ExprText(result.value, level)] else []);
        s := Join(parts, "\n");
      case ExpressionStmt(expression) =>
        var x := PrintExpr(expression);
        s := Indent() + "EXPRESSION_STATEMENT\n" + x;
      case EnumDeclaration(_, _, _) =>
        s := PrintUnknown("EnumDeclaration");
      case ProtocolDeclaration(_, _, _) =>
        s := PrintUnknown("ProtocolDeclaration");
    }

    /** `print_block`: the statements one level deeper, the level restored
        afterwards. */
    method PrintBlock(b: Block) returns (s: string)
      modifies this
      ensures s == BlockText(b, old(indentLevel))
      ensures indentLevel == old(indentLevel)
      decreases b
    {
      indentLevel := indentLevel + 1;
      var parts: seq<string> := [];
      var i := 0;
      while i < |b.statements|
        invariant 0 <= i <= |b.statements|
        invariant indentLevel == old(indentLevel) + 1
        invariant parts == StmtTexts(b.statements[..i], indentLevel)
      {
        var x := PrintStmt(b.statements[i]);
        assert b.statements[..i + 1][..i] == b.statements[..i];
        parts := parts + [x];
        i := i + 1;
      }
      indentLevel := indentLevel - 1;
      assert b.statements[..i] == b.statements;
      s := Join(parts, "\n");
    }

    /** `print_ifstatement`. */
    method PrintIfStatement(st: Stmt) returns (s: string)
      requires st.IfStatement?
      modifies this
      ensures s == StmtText(st, old(indentLevel))
      ensures indentLevel == old(indentLevel)
      decreases st, 2
    {
      var c := PrintExpr(st.condition);
      var t := PrintBlock(st.thenBranch);
      var elifs := PrintElifSections(st);
      var parts := [Indent() + "IF_STATEMENT", Indent() + "CONDITION:", c, Indent() + "THEN:", t] + elifs;
      if st.elseBranch.Some? {
        var e := PrintBlock(st.elseBranch.value);
        parts := parts + [Indent() + "ELSE:", e];
      }
      assert parts == IfParts(st, indentLevel);
      s := Join(parts, "\n");
    }

    /** The `elif` loop of `print_ifstatement`: four lines per branch, in order. */
    method PrintElifSections(st: Stmt) returns (lines: seq<string>)
      requires st.IfStatement?
      modifies this
      ensures lines == ElifParts(st.elifBranches, old(indentLevel))
      ensures indentLevel == old(indentLevel)
      decreases st, 1
    {
      var branches := st.elifBranches;
      ghost var sections := ElifSections(branches, indentLevel);
      lines := [];
      var i := 0;
      while i < |branches|
        invariant 0 <= i <= |branches|
        invariant indentLevel == old(indentLevel)
        invariant lines == Concat(sections[..i])
      {
        var section := PrintElifSection(st, i);
        ConcatPrefixStep(sections, i);
        lines := lines + section;
        i := i + 1;
      }
      assert sections[..i] == sections;
    }

    /** One turn of the `elif` loop: the condition and the body of branch `k`. */
    method PrintElifSection(st: Stmt, k: nat) returns (section: seq<string>)
      requires st.IfStatement? && k < |st.elifBranches|
      modifies this
      ensures section == ElifSection(st.elifBranches[k], old(indentLevel))
      ensures indentLevel == old(indentLevel)
      decreases st, 0
    {
      var branch := st.elifBranches[k];
      var ec := PrintExpr(branch.condition);
      var eb := PrintBlock(branch.body);
      section := [Indent() + "ELIF_CONDITION:", ec, Indent() + "ELIF_BODY:", eb];
    }

    /** `print_forloop`. */
    method PrintForLoop(st: Stmt) returns (s: string)
      requires st.ForLoop?
      modifies this
      ensures s == StmtText(st, old(indentLevel))
      ensures indentLevel == old(indentLevel)
      decreases st, 0
    {
      var iter := PrintIdentifier(st.iteratorName);
      var start := PrintExpr(st.start);
      var end := PrintExpr(st.end);
      var step;
      if st.step.Some? {
        step := PrintExpr(st.step.value);
      } else {
        step := Indent() + "DEFAULT";
      }
      var body := PrintBlock(st.body);
      var pad := Indent();
      s := Join([pad + "FOR_LOOP", iter, pad + "FROM:", start,
                 pad + (if st.isInclusive then "THROUGH:" else "TO:"), end,
                 pad + "STEP:", step, pad + "BODY:", body], "\n");
    }

    /** `print_functiondecl`: the parameters at the declaration's depth, the
        return type when there is one, then the body. */
    method PrintFunctionDecl(d: FunctionDecl) returns (s: string)
      modifies this
      ensures s == FunctionDeclText(d, old(indentLevel))
      ensures indentLevel == old(indentLevel)
      decreases d
    {
      var level := indentLevel;
      var name := PrintIdentifier(d.name);
      var head := [Indent() + "FUNCTION_DECLARATION", name, Indent() + "PARAMETERS:"];
      var parts := head;
      var i := 0;
      while i < |d.params|
        invariant 0 <= i <= |d.params|
        invariant indentLevel == level
        invariant parts == head + ParamTexts(d.params[..i], level)
      {
        var p := PrintFunctionParam(d.params[i]);
        assert d.params[..i + 1][..i] == d.params[..i];
        parts := parts + [p];
        i := i + 1;
      }
      assert d.params[..i] == d.params;
      if d.returnType.Some? {
        var t := PrintTypeAnnotation(d.returnType.value);
        parts := parts + [Indent() + "RETURN_TYPE:", t];
      }
      var body := PrintBlock(d.body);
      assert parts == head + ParamTexts(d.params, level)
                      + (if d.returnType.Some? then [Padding(level) + "RETURN_TYPE:", TypeText(d.returnType.value, level)] else []);
      parts := parts + [Indent() + "BODY:", body];
      s := Join(parts, "\n");
    }
  }

  /** The module-level `print_ast`: a fresh printer, every statement printed
      from depth 0, one per line. */
  method PrintProgram(program: seq<Stmt>) returns (s: string)
    ensures s == ProgramText(program)
  {
    var printer := new ASTPrinter();
    var parts: seq<string> := [];
    var i := 0;
    while i < |program|
      invariant 0 <= i <= |program|
      invariant printer.indentLevel == 0
      invariant parts == StmtTexts(program[..i], 0)
    {
      var x := printer.PrintAst(StmtNode(program[i]));
      assert program[..i + 1][..i] == program[..i];
      parts := parts + [x];
      i := i + 1;
    }
    assert program[..i] == program;
    s := Join(parts, "\n");
  }
}
