/** Declarations, blocks and the program loop of noir_parser.py as functions
    over a token sequence and a position, in the style of module Grammar.
    Only `func` declarations can succeed (every other leading token ends in
    the ENUM lookup), so a block is a run of function declarations, comments
    and newlines up to `::` or EOF. The block stack is left to the `Parser`
    class: these functions give the tree, the error and the position. */
module BlockGrammar {
  import opened Common
  import opened Tokens
  import opened Types
  import opened Ast
  import opened Grammar
  import opened StatementGrammar

  // ---------------------------------------------------------------------
  // Declarations and blocks

  /** `func` followed by a name: a declaration that pushes a function block
      record, which stays open when the rest of it fails. */
  predicate OpensFunction(toks: seq<Token>, pos: nat) {
    CheckAt(toks, pos, Func) && CheckAt(toks, pos + 1, TokenKind.Identifier)
  }

  /** `declaration`: a name followed by `:` is a variable declaration, read
      from the colon; anything else is a function declaration. */
  function DeclarationAt(toks: seq<Token>, pos: nat): (r: Parsed<Stmt>)
    requires pos <= |toks|
    ensures pos <= r.next <= |toks|
    ensures r.Done? || r.error.ParseError? ==> pos < r.next
    decreases |toks| - pos, 1
  {
    if CheckAt(toks, pos, TokenKind.Identifier) && CheckAt(toks, pos + 1, Colon) then
      VariableDeclarationRefused(toks, pos + 1, toks[pos].lexeme);
      VariableDeclAt(toks, pos + 1, toks[pos].lexeme)
    else FunctionDeclarationAt(toks, pos)
  }

  /** The rest of `declaration`: `func` and a name, or the failed lookup of
      the ENUM member on any other token. */
  function FunctionDeclarationAt(toks: seq<Token>, pos: nat): (r: Parsed<Stmt>)
    requires pos <= |toks|
    ensures pos <= r.next <= |toks|
    ensures r.Done? || r.error.ParseError? ==> pos < r.next
    decreases |toks| - pos, 0
  {
    if !CheckAt(toks, pos, Func) then Failed(InternalError(NoEnumMember), pos)
    else if !CheckAt(toks, pos + 1, TokenKind.Identifier) then
      Failed(ParseError(ExpectedFunctionName, PeekAt(toks, pos + 1)), pos + 1)
    else FunctionAt(toks, pos + 2, toks[pos + 1].lexeme)
  }

  /** `finish_function_declaration` after the name: signature, body, `::`. */
  function FunctionAt(toks: seq<Token>, pos: nat, name: string): (r: Parsed<Stmt>)
    requires pos <= |toks|
    ensures pos <= r.next <= |toks|
    ensures r.Done? ==> pos < r.next && r.value.FunctionDeclStmt? && r.value.decl.name == name
    decreases |toks| - pos, 5
  {
    match SignatureAt(toks, pos)
    case Failed(e, p) => Failed(e, p)
    case Done(sig, p) =>
      match FunctionBodyAt(toks, p)
      case Failed(e, q) => Failed(e, q)
      case Done(body, q) => Done(FunctionDeclStmt(FunctionDecl(name, sig.params, sig.returnType, body)), q)
  }

  /** A function body and the `::` that must follow it. */
  function FunctionBodyAt(toks: seq<Token>, pos: nat): (r: Parsed<Block>)
    requires pos <= |toks|
    ensures pos <= r.next <= |toks|
    ensures r.Done? ==> pos < r.next && toks[r.next - 1].kind == DoubleColon
    decreases |toks| - pos, 4
  {
    match BlockAt(toks, pos)
    case Failed(e, p) => Failed(e, p)
    case Done(body, p) =>
      match ConsumeAt(toks, p, DoubleColon, ExpectedBodyTerminator)
      case Failed(e, q) => Failed(e, q)
      case Done(_, q) => Done(body, q)
  }

  /** `block`: leading newlines, then statements up to `::` or EOF. */
  function BlockAt(toks: seq<Token>, pos: nat): (r: Parsed<Block>)
    requires pos <= |toks|
    ensures pos <= r.next <= |toks|
    ensures r.Done? ==> CheckAt(toks, r.next, DoubleColon) || AtEnd(toks, r.next)
    decreases |toks| - pos, 3
  {
    BlockLoopAt(toks, SkipFrom(toks, pos, {Newline}), [])
  }

  /** The loop of `block` from `pos`, with `acc` read so far: a comment is
      skipped, a declaration is appended and the newlines after it skipped. */
  function BlockLoopAt(toks: seq<Token>, pos: nat, acc: seq<Stmt>): (r: Parsed<Block>)
    requires pos <= |toks|
    ensures pos <= r.next <= |toks|
    ensures r.Done? ==> CheckAt(toks, r.next, DoubleColon) || AtEnd(toks, r.next)
    decreases |toks| - pos, 2
  {
    if CheckAt(toks, pos, DoubleColon) || AtEnd(toks, pos) then Done(Block(acc), pos)
    else if CheckAt(toks, pos, Comment) then BlockLoopAt(toks, pos + 1, acc)
    else
      match DeclarationAt(toks, pos)
      case Failed(e, p) => Failed(e, p)
      case Done(d, p) => BlockLoopAt(toks, SkipFrom(toks, p, {Newline}), acc + [d])
  }

  // ---------------------------------------------------------------------
  // Loop bodies

  /** The body of an if, for or while block and the `::` after it; without
      the `::` the error names the line of the token before the cursor. */
  function TerminatedAt(toks: seq<Token>, pos: nat, kind: BlockKind): (r: Parsed<Block>)
    requires 0 < |toks| && pos <= |toks|
    ensures pos <= r.next <= |toks|
    ensures r.Done? ==> pos < r.next && toks[r.next - 1].kind == DoubleColon
  {
    match BlockAt(toks, pos)
    case Failed(e, p) => Failed(e, p)
    case Done(body, p) =>
      if CheckAt(toks, p, DoubleColon) then Done(body, p + 1)
      else Failed(ParseError(MissingTerminator(kind, PreviousAt(toks, p).line), PeekAt(toks, p)), p)
  }

  /** `while_statement` after `while`: condition, `:`, terminated body. */
  function WhileAt(toks: seq<Token>, pos: nat): (r: Parsed<Stmt>)
    requires 0 < |toks| && pos <= |toks|
    ensures pos <= r.next <= |toks|
    ensures r.Done? ==> r.value.WhileLoop? && pos < r.next
  {
    match ExpressionAt(toks, pos)
    case Failed(e, p) => Failed(e, p)
    case Done(condition, p) =>
      match ConsumeAt(toks, p, Colon, ExpectedWhileColon)
      case Failed(e, q) => Failed(e, q)
      case Done(_, q) =>
        match TerminatedAt(toks, q, WhileBlock)
        case Failed(e, n) => Failed(e, n)
        case Done(body, n) => Done(WhileLoop(condition, body), n)
  }

  /** `for_statement` after `for`: header through `:`, terminated body. */
  function ForAt(toks: seq<Token>, pos: nat): (r: Parsed<Stmt>)
    requires 0 < |toks| && pos <= |toks|
    ensures pos <= r.next <= |toks|
    ensures r.Done? ==> r.value.ForLoop? && pos < r.next
  {
    match ForHeaderAt(toks, pos)
    case Failed(e, p) => Failed(e, p)
    case Done(h, p) =>
      match TerminatedAt(toks, p, ForBlock)
      case Failed(e, n) => Failed(e, n)
      case Done(body, n) => Done(ForLoop(h.variable, h.start, h.end, h.step, body, h.inclusive), n)
  }

  // ---------------------------------------------------------------------
  // If statements

  /** `if_statement` after `if`: condition, `:`, newlines, then the
      then-block and what follows it. */
  function IfAt(toks: seq<Token>, pos: nat): (r: Parsed<Stmt>)
    requires 0 < |toks| && pos <= |toks|
    ensures pos <= r.next <= |toks|
    ensures r.Done? ==> r.value.IfStatement? && pos < r.next
  {
    match ExpressionAt(toks, pos)
    case Failed(e, p) => Failed(e, p)
    case Done(condition, p) =>
      match ConsumeAt(toks, p, Colon, ExpectedIfColon)
      case Failed(e, q) => Failed(e, q)
      case Done(_, q) => IfThenAt(toks, SkipFrom(toks, q, {Newline}), condition)
  }

  /** The then-block of an if statement and its `::` (the missing-terminator
      error names the if block), newlines, then the `else` tail. */
  function IfThenAt(toks: seq<Token>, pos: nat, condition: Expr): (r: Parsed<Stmt>)
    requires 0 < |toks| && pos <= |toks|
    ensures pos <= r.next <= |toks|
    ensures r.Done? ==> r.value.IfStatement? && r.value.condition == condition && pos < r.next
  {
    match TerminatedAt(toks, pos, IfBlock)
    case Failed(e, n) => Failed(e, n)
    case Done(thenBranch, n) =>
      match ElseTailAt(toks, SkipFrom(toks, n, {Newline}))
      case Failed(e, m) => Failed(e, m)
      case Done(tail, m) => Done(Stmt.IfStatement(condition, thenBranch, tail.0, tail.1), m)
  }

  /** What follows the `::` of an if block: nothing; `else if`, a condition,
      `:` and a body whose `::` is left unread; or `else`, `:`, a body and
      its `::`. */
  function ElseTailAt(toks: seq<Token>, pos: nat): (r: Parsed<(seq<ElifBranch>, Option<Block>)>)
    requires pos <= |toks|
    ensures pos <= r.next <= |toks|
    ensures r.Done? ==> |r.value.0| <= 1 && (r.value.0 != [] ==> r.value.1.None?)
  {
    if !CheckAt(toks, pos, Else) then Done(([], None), pos)
    else if CheckAt(toks, pos + 1, TokenKind.If) then
      match ElseIfAt(toks, pos + 2)
      case Failed(e, p) => Failed(e, p)
      case Done(branch, p) => Done(([branch], None), p)
    else
      match ElseBlockAt(toks, pos + 1)
      case Failed(e, p) => Failed(e, p)
      case Done(body, p) => Done(([], Some(body)), p)
  }

  /** After `else if`: the condition, `:`, newlines and the body. */
  function ElseIfAt(toks: seq<Token>, pos: nat): (r: Parsed<ElifBranch>)
    requires pos <= |toks|
    ensures pos <= r.next <= |toks|
    ensures r.Done? ==> CheckAt(toks, r.next, DoubleColon) || AtEnd(toks, r.next)
  {
    match ExpressionAt(toks, pos)
    case Failed(e, p) => Failed(e, p)
    case Done(condition, p) =>
      match ConsumeAt(toks, p, Colon, ExpectedElseIfColon)
      case Failed(e, q) => Failed(e, q)
      case Done(_, q) => ElifBodyAt(toks, SkipFrom(toks, q, {Newline}), condition)
  }

  /** The body of an else-if branch, which stops at its `::` without
      reading it. */
  function ElifBodyAt(toks: seq<Token>, pos: nat, condition: Expr): (r: Parsed<ElifBranch>)
    requires pos <= |toks|
    ensures pos <= r.next <= |toks|
    ensures r.Done? ==> r.value.condition == condition && (CheckAt(toks, r.next, DoubleColon) || AtEnd(toks, r.next))
  {
    match BlockAt(toks, pos)
    case Failed(e, n) => Failed(e, n)
    case Done(body, n) => Done(ElifBranch(condition, body), n)
  }

  /** After a plain `else`: `:`, newlines, then the body and its `::`. */
  function ElseBlockAt(toks: seq<Token>, pos: nat): (r: Parsed<Block>)
    requires pos <= |toks|
    ensures pos <= r.next <= |toks|
    ensures r.Done? ==> pos < r.next && toks[r.next - 1].kind == DoubleColon
  {
    match ConsumeAt(toks, pos, Colon, ExpectedElseColon)
    case Failed(e, q) => Failed(e, q)
    case Done(_, q) => ElseBodyAt(toks, SkipFrom(toks, q, {Newline}))
  }

  /** The body of an else block and the `::` that must follow it. */
  function ElseBodyAt(toks: seq<Token>, pos: nat): (r: Parsed<Block>)
    requires pos <= |toks|
    ensures pos <= r.next <= |toks|
    ensures r.Done? ==> pos < r.next && toks[r.next - 1].kind == DoubleColon
  {
    match BlockAt(toks, pos)
    case Failed(e, n) => Failed(e, n)
    case Done(body, n) =>
      match ConsumeAt(toks, n, DoubleColon, ExpectedElseTerminator)
      case Failed(e, m) => Failed(e, m)
      case Done(_, m) => Done(body, m)
  }

  /** The outcomes of `if_statement` up to its `:`: the condition's error
      `c`, the missing `:`, or the rest of the statement read after the `:`
      and its newlines. */
  lemma IfOutcomes(toks: seq<Token>, pos: nat, c: Parsed<Expr>)
    requires 0 < |toks| && pos <= |toks| && c == ExpressionAt(toks, pos)
    ensures var r := IfAt(toks, pos);
      (c.Failed? ==> r == Failed(c.error, c.next)) &&
      (c.Done? && !CheckAt(toks, c.next, Colon) ==> r == Failed(ParseError(ExpectedIfColon, PeekAt(toks, c.next)), c.next)) &&
      (c.Done? && CheckAt(toks, c.next, Colon) ==> r == IfThenAt(toks, SkipFrom(toks, c.next + 1, {Newline}), c.value))
  {
    if c.Failed? {
      IfConditionFails(toks, pos, c.error, c.next);
    } else if !CheckAt(toks, c.next, Colon) {
      IfColonMissing(toks, pos, c.value, c.next);
    } else {
      IfEntry(toks, pos, c.value, c.next, SkipFrom(toks, c.next + 1, {Newline}));
    }
  }

  /** The outcomes of an if statement after its `:`: the then block's error,
      the missing `::` after it, the else tail's error, or the statement
      of the condition, the then block and the else tail, ending where the
      else tail does. */
  lemma IfThenOutcomes(toks: seq<Token>, pos: nat, condition: Expr, b: Parsed<Block>)
    requires 0 < |toks| && pos <= |toks| && b == BlockAt(toks, pos)
    ensures var r := IfThenAt(toks, pos, condition);
      (b.Failed? ==> r == Failed(b.error, b.next)) &&
      (b.Done? && !CheckAt(toks, b.next, DoubleColon) ==>
        r == Failed(ParseError(MissingTerminator(IfBlock, PreviousAt(toks, b.next).line), PeekAt(toks, b.next)), b.next)) &&
      (b.Done? && CheckAt(toks, b.next, DoubleColon) ==>
        var t := ElseTailAt(toks, SkipFrom(toks, b.next + 1, {Newline}));
        (t.Failed? ==> r == Failed(t.error, t.next)) &&
        (t.Done? ==> r == Done(Stmt.IfStatement(condition, b.value, t.value.0, t.value.1), t.next)))
  {
    if b.Failed? {
      TerminatedBlockFails(toks, pos, IfBlock, b.error, b.next);
      IfThenFails(toks, pos, condition, b.error, b.next);
    } else if !CheckAt(toks, b.next, DoubleColon) {
      TerminatedAfterBlock(toks, pos, IfBlock, b.value, b.next);
      IfThenFails(toks, pos, condition, ParseError(MissingTerminator(IfBlock, PreviousAt(toks, b.next).line), PeekAt(toks, b.next)), b.next);
    } else {
      TerminatedAfterBlock(toks, pos, IfBlock, b.value, b.next);
      IfThenTail(toks, pos, condition, b.value, b.next + 1, SkipFrom(toks, b.next + 1, {Newline}));
    }
  }

  /** The outcomes of the `else` tail: no `else` reads nothing; `else if`
      gives one elif branch and stops at the `::` of its body, unread, or at
      EOF; `else` gives the else block and stops just after its `::`. */
  lemma ElseTailOutcomes(toks: seq<Token>, pos: nat)
    requires pos <= |toks|
    ensures var r := ElseTailAt(toks, pos);
      (!CheckAt(toks, pos, Else) ==> r == Done(([], None), pos)) &&
      (CheckAt(toks, pos, Else) && CheckAt(toks, pos + 1, TokenKind.If) ==>
        var e := ElseIfAt(toks, pos + 2);
        (e.Failed? ==> r == Failed(e.error, e.next)) &&
        (e.Done? ==> r == Done(([e.value], None), e.next) && (CheckAt(toks, e.next, DoubleColon) || AtEnd(toks, e.next)))) &&
      (CheckAt(toks, pos, Else) && !CheckAt(toks, pos + 1, TokenKind.If) ==>
        var b := ElseBlockAt(toks, pos + 1);
        (b.Failed? ==> r == Failed(b.error, b.next)) &&
        (b.Done? ==> r == Done(([], Some(b.value)), b.next) && toks[b.next - 1].kind == DoubleColon))
  {
    if !CheckAt(toks, pos, Else) {
    } else if CheckAt(toks, pos + 1, TokenKind.If) {
      ElseTailElseIf(toks, pos, pos + 2);
    } else {
      ElseTailElse(toks, pos, pos + 1);
      ElseBlockCloses(toks, pos + 1);
    }
  }

  /** A plain else block that parses ends just after its `::`; without
      that `::` it fails where the body stopped. */
  lemma ElseBlockCloses(toks: seq<Token>, pos: nat)
    requires pos <= |toks|
    ensures var r := ElseBlockAt(toks, pos); r.Done? ==> pos < r.next && toks[r.next - 1].kind == DoubleColon
    ensures CheckAt(toks, pos, Colon) ==> (var b := BlockAt(toks, SkipFrom(toks, pos + 1, {Newline}));
      b.Done? && !CheckAt(toks, b.next, DoubleColon) ==>
        ElseBlockAt(toks, pos) == Failed(ParseError(ExpectedElseTerminator, PeekAt(toks, b.next)), b.next))
  {
    if CheckAt(toks, pos, Colon) {
      var q := SkipFrom(toks, pos + 1, {Newline});
      ElseEntry(toks, pos, q);
      var b := BlockAt(toks, q);
      if b.Done? {
        ElseBodyClosed(toks, q, b.value, b.next);
      }
    }
  }

  // Single steps of the if grammar, for the parser's proofs

  lemma IfConditionFails(toks: seq<Token>, pos: nat, e: ParseFailure, p: nat)
    requires 0 < |toks| && pos <= |toks| && ExpressionAt(toks, pos) == Failed(e, p)
    ensures IfAt(toks, pos) == Failed(e, p)
  {
  }

  lemma IfColonMissing(toks: seq<Token>, pos: nat, c: Expr, p: nat)
    requires 0 < |toks| && pos <= |toks| && ExpressionAt(toks, pos) == Done(c, p) && !CheckAt(toks, p, Colon)
    ensures IfAt(toks, pos) == Failed(ParseError(ExpectedIfColon, PeekAt(toks, p)), p)
  {
  }

  lemma IfEntry(toks: seq<Token>, pos: nat, c: Expr, p: nat, q: nat)
    requires 0 < |toks| && pos <= |toks| && ExpressionAt(toks, pos) == Done(c, p) && CheckAt(toks, p, Colon)
    requires q == SkipFrom(toks, p + 1, {Newline})
    ensures IfAt(toks, pos) == IfThenAt(toks, q, c)
  {
  }

  lemma IfThenFails(toks: seq<Token>, pos: nat, c: Expr, e: ParseFailure, n: nat)
    requires 0 < |toks| && pos <= |toks| && TerminatedAt(toks, pos, IfBlock) == Failed(e, n)
    ensures IfThenAt(toks, pos, c) == Failed(e, n)
  {
  }

  lemma IfThenTail(toks: seq<Token>, pos: nat, c: Expr, body: Block, n: nat, m: nat)
    requires 0 < |toks| && pos <= |toks| && TerminatedAt(toks, pos, IfBlock) == Done(body, n)
    requires m == SkipFrom(toks, n, {Newline})
    ensures var t := ElseTailAt(toks, m);
      IfThenAt(toks, pos, c) == if t.Failed? then Failed(t.error, t.next) else Done(Stmt.IfStatement(c, body, t.value.0, t.value.1), t.next)
  {
  }

  lemma ElseTailElseIf(toks: seq<Token>, pos: nat, inner: nat)
    requires pos <= |toks| && CheckAt(toks, pos, Else) && CheckAt(toks, pos + 1, TokenKind.If) && inner == pos + 2
    ensures var e := ElseIfAt(toks, inner);
      ElseTailAt(toks, pos) == if e.Failed? then Failed(e.error, e.next) else Done(([e.value], None), e.next)
  {
  }

  lemma ElseTailElse(toks: seq<Token>, pos: nat, inner: nat)
    requires pos <= |toks| && CheckAt(toks, pos, Else) && !CheckAt(toks, pos + 1, TokenKind.If) && inner == pos + 1
    ensures var b := ElseBlockAt(toks, inner);
      ElseTailAt(toks, pos) == if b.Failed? then Failed(b.error, b.next) else Done(([], Some(b.value)), b.next)
  {
  }

  lemma ElseIfConditionFails(toks: seq<Token>, pos: nat, e: ParseFailure, p: nat)
    requires pos <= |toks| && ExpressionAt(toks, pos) == Failed(e, p)
    ensures ElseIfAt(toks, pos) == Failed(e, p)
  {
  }

  lemma ElseIfColonMissing(toks: seq<Token>, pos: nat, c: Expr, p: nat)
    requires pos <= |toks| && ExpressionAt(toks, pos) == Done(c, p) && !CheckAt(toks, p, Colon)
    ensures ElseIfAt(toks, pos) == Failed(ParseError(ExpectedElseIfColon, PeekAt(toks, p)), p)
  {
  }

  lemma ElifBodyFails(toks: seq<Token>, pos: nat, c: Expr, e: ParseFailure, n: nat)
    requires pos <= |toks| && BlockAt(toks, pos) == Failed(e, n)
    ensures ElifBodyAt(toks, pos, c) == Failed(e, n)
  {
  }

  lemma ElifBodyDone(toks: seq<Token>, pos: nat, c: Expr, body: Block, n: nat)
    requires pos <= |toks| && BlockAt(toks, pos) == Done(body, n)
    ensures ElifBodyAt(toks, pos, c) == Done(ElifBranch(c, body), n)
  {
  }

  lemma ElseColonMissing(toks: seq<Token>, pos: nat)
    requires pos <= |toks| && !CheckAt(toks, pos, Colon)
    ensures ElseBlockAt(toks, pos) == Failed(ParseError(ExpectedElseColon, PeekAt(toks, pos)), pos)
  {
  }

  lemma ElseEntry(toks: seq<Token>, pos: nat, q: nat)
    requires pos <= |toks| && CheckAt(toks, pos, Colon) && q == SkipFrom(toks, pos + 1, {Newline})
    ensures ElseBlockAt(toks, pos) == ElseBodyAt(toks, q)
  {
  }

  lemma ElseBodyClosed(toks: seq<Token>, pos: nat, body: Block, n: nat)
    requires pos <= |toks| && BlockAt(toks, pos) == Done(body, n)
    ensures CheckAt(toks, n, DoubleColon) ==> ElseBodyAt(toks, pos) == Done(body, n + 1)
    ensures !CheckAt(toks, n, DoubleColon) ==> ElseBodyAt(toks, pos) == Failed(ParseError(ExpectedElseTerminator, PeekAt(toks, n)), n)
  {
  }

  // ---------------------------------------------------------------------
  // Statements, each entered just after its keyword

  /** `return_statement`: no value when `::` follows at once, else an
      expression. */
  function ReturnAt(toks: seq<Token>, pos: nat): (r: Parsed<Stmt>)
    requires pos <= |toks|
    ensures pos <= r.next <= |toks|
    ensures r.Done? ==> r.value.ReturnStatement? && (r.value.result.None? <==> CheckAt(toks, pos, DoubleColon))
  {
    if CheckAt(toks, pos, DoubleColon) then Done(Stmt.ReturnStatement(None), pos)
    else
      match ExpressionAt(toks, pos)
      case Failed(e, p) => Failed(e, p)
      case Done(value, p) => Done(Stmt.ReturnStatement(Some(value)), p)
  }

  /** `expression_statement`: newlines, an expression, newlines. */
  function ExpressionStatementAt(toks: seq<Token>, pos: nat): (r: Parsed<Stmt>)
    requires pos <= |toks|
    ensures pos <= r.next <= |toks|
    ensures r.Done? ==> r.value.ExpressionStmt? && pos < r.next && !MatchesAny(toks, r.next, {Newline})
  {
    match ExpressionAt(toks, SkipFrom(toks, pos, {Newline}))
    case Failed(e, p) => Failed(e, p)
    case Done(e, p) => Done(ExpressionStmt(e), SkipFrom(toks, p, {Newline}))
  }

  /** The statement kind that each keyword before the cursor selects. */
  predicate Dispatched(keyword: TokenKind, s: Stmt) {
    if keyword == TokenKind.If then s.IfStatement?
    else if keyword == TokenKind.For then s.ForLoop?
    else if keyword == TokenKind.While then s.WhileLoop?
    else if keyword == TokenKind.Return then s.ReturnStatement?
    else s.ExpressionStmt?
  }

  /** The routine `statement` selects by the token before `pos`, before any
      ParseError is caught. */
  function StatementAt(toks: seq<Token>, pos: nat): (r: Parsed<Stmt>)
    requires 0 < |toks| && pos <= |toks|
    ensures pos <= r.next <= |toks|
    ensures r.Done? ==> Dispatched(PreviousAt(toks, pos).kind, r.value)
  {
    var keyword := PreviousAt(toks, pos).kind;
    if keyword == TokenKind.If then IfAt(toks, pos)
    else if keyword == TokenKind.For then ForAt(toks, pos)
    else if keyword == TokenKind.While then WhileAt(toks, pos)
    else if keyword == TokenKind.Return then ReturnAt(toks, pos)
    else ExpressionStatementAt(toks, pos)
  }

  // ---------------------------------------------------------------------
  // The loop of `parse`

  /** One turn of the loop of `parse`: newlines and a comment are skipped,
      a declaration is read, a ParseError is reported and the cursor moved
      to where `synchronize` stops, or a failure that is not a ParseError
      ends the loop. A reported failure leaves a function block `unclosed`
      when the declaration began with `func` and a name. */
  datatype Turn = Skipped(next: nat) | Declared(stmt: Stmt, next: nat) | Reported(error: ParseFailure, next: nat, unclosed: bool) | Fatal(error: ParseFailure)

  function TurnAt(toks: seq<Token>, pos: nat): (r: Turn)
    requires pos <= |toks| && !AtEnd(toks, pos)
    ensures !r.Fatal? ==> pos < r.next <= |toks|
    ensures r.Reported? ==> r.error.ParseError?
    ensures r.Fatal? ==> r.error.InternalError?
  {
    var p := SkipFrom(toks, pos, {Newline});
    if AtEnd(toks, p) then Skipped(p)
    else if CheckAt(toks, p, Comment) then Skipped(p + 1)
    else
      match DeclarationAt(toks, p)
      case Done(d, q) => Declared(d, q)
      case Failed(e, q) =>
        if e.InternalError? then Fatal(e)
        else
          SyncStopProgress(toks, q);
          Reported(e, SyncStop(toks, q), OpensFunction(toks, p))
  }

  /** The count of open function blocks after a reported turn. */
  function OpenAfter(t: Turn, unclosed: nat): (r: nat)
    requires t.Reported?
    ensures r == unclosed || r == unclosed + 1
  {
    if t.unclosed then unclosed + 1 else unclosed
  }

  /** What the loop of `parse` reads: the declarations in order, the
      ParseErrors reported on the way, how many of those left a function
      block open, and the failure that ended it, if one that is not a
      ParseError did. */
  datatype ProgramRead = ProgramRead(statements: seq<Stmt>, reported: seq<ParseFailure>, unclosed: nat, fatal: Option<ParseFailure>)

  /** The loop of `parse` from `pos`, with `acc` read, `log` reported and
      `unclosed` function blocks left open so far: turns until EOF or a fatal
      failure. */
  function ProgramFrom(toks: seq<Token>, pos: nat, acc: seq<Stmt>, log: seq<ParseFailure>, unclosed: nat): (r: ProgramRead)
    requires pos <= |toks|
    decreases |toks| - pos
  {
    if AtEnd(toks, pos) then ProgramRead(acc, log, unclosed, None)
    else
      match TurnAt(toks, pos)
      case Skipped(n) => ProgramFrom(toks, n, acc, log, unclosed)
      case Declared(d, n) => ProgramFrom(toks, n, acc + [d], log, unclosed)
      case Reported(e, n, o) => ProgramFrom(toks, n, acc, log + [e], if o then unclosed + 1 else unclosed)
      case Fatal(e) => ProgramRead(acc, log, unclosed, Some(e))
  }

  // ---------------------------------------------------------------------
  // What the functions above promise

  /** The three outcomes of `declaration` by its leading tokens: a name and
      `:` fail at the colon, `func` without a name fails after `func`, and
      any other token fails on the ENUM lookup without moving; a declaration
      that parses is a function declaration named by the token after `func`. */
  lemma DeclarationOutcomes(toks: seq<Token>, pos: nat)
    requires pos <= |toks|
    ensures var r := DeclarationAt(toks, pos);
      (CheckAt(toks, pos, TokenKind.Identifier) && CheckAt(toks, pos + 1, Colon) ==>
        r == Failed(ParseError(ExpectedTypeName, toks[pos + 1]), pos + 1)) &&
      (CheckAt(toks, pos, Func) && !CheckAt(toks, pos + 1, TokenKind.Identifier) ==>
        r == Failed(ParseError(ExpectedFunctionName, PeekAt(toks, pos + 1)), pos + 1)) &&
      (!CheckAt(toks, pos, Func) && !(CheckAt(toks, pos, TokenKind.Identifier) && CheckAt(toks, pos + 1, Colon)) ==>
        r == Failed(InternalError(NoEnumMember), pos)) &&
      (r.Done? ==>
        CheckAt(toks, pos, Func) && pos + 1 < |toks| && r.value.FunctionDeclStmt? && r.value.decl.name == toks[pos + 1].lexeme)
  {
    if CheckAt(toks, pos, TokenKind.Identifier) && CheckAt(toks, pos + 1, Colon) {
      VariableDeclarationRefused(toks, pos + 1, toks[pos].lexeme);
    }
  }

  /** A block that parses stops at `::` or EOF and holds, in order, the
      declarations read after each run of newlines and comments. */
  lemma {:induction false} BlockLoopKeeps(toks: seq<Token>, pos: nat, acc: seq<Stmt>)
    requires pos <= |toks|
    ensures var r := BlockLoopAt(toks, pos, acc);
      r.Done? ==> |acc| <= |r.value.statements| && r.value.statements[..|acc|] == acc
    decreases |toks| - pos
  {
    if CheckAt(toks, pos, DoubleColon) || AtEnd(toks, pos) {
      assert acc[..|acc|] == acc;
    } else if CheckAt(toks, pos, Comment) {
      BlockLoopKeeps(toks, pos + 1, acc);
    } else {
      match DeclarationAt(toks, pos)
      case Failed(e, p) =>
      case Done(d, p) =>
        var n := SkipFrom(toks, p, {Newline});
        BlockLoopKeeps(toks, n, acc + [d]);
        var r := BlockLoopAt(toks, n, acc + [d]);
        if r.Done? {
          assert r.value.statements[..|acc|] == r.value.statements[..|acc| + 1][..|acc|];
          assert (acc + [d])[..|acc|] == acc;
        }
    }
  }

  /** The outcomes of a terminated body: the block's own failure, the
      missing-terminator error at the token after the block, or the block
      with its `::` consumed. */
  lemma TerminatedOutcomes(toks: seq<Token>, pos: nat, kind: BlockKind)
    requires 0 < |toks| && pos <= |toks|
    ensures var b := BlockAt(toks, pos); var r := TerminatedAt(toks, pos, kind);
      (b.Failed? ==> r == Failed(b.error, b.next)) &&
      (b.Done? && !CheckAt(toks, b.next, DoubleColon) ==>
        r == Failed(ParseError(MissingTerminator(kind, PreviousAt(toks, b.next).line), PeekAt(toks, b.next)), b.next)) &&
      (b.Done? && CheckAt(toks, b.next, DoubleColon) ==> r == Done(b.value, b.next + 1) && toks[b.next].kind == DoubleColon)
  {
  }

  /** The outcomes of `while_statement`: the condition's error, the missing
      `:`, or the outcome of the terminated body after the `:`. */
  lemma WhileOutcomes(toks: seq<Token>, pos: nat, c: Parsed<Expr>)
    requires 0 < |toks| && pos <= |toks| && c == ExpressionAt(toks, pos)
    ensures var r := WhileAt(toks, pos);
      (c.Failed? ==> r == Failed(c.error, c.next)) &&
      (c.Done? && !CheckAt(toks, c.next, Colon) ==> r == Failed(ParseError(ExpectedWhileColon, PeekAt(toks, c.next)), c.next)) &&
      (c.Done? && CheckAt(toks, c.next, Colon) ==>
        var b := TerminatedAt(toks, c.next + 1, WhileBlock);
        (b.Failed? ==> r == Failed(b.error, b.next)) &&
        (b.Done? ==> r == Done(WhileLoop(c.value, b.value), b.next)))
  {
    if c.Failed? {
      WhileConditionFails(toks, pos, c.error, c.next);
    } else {
      WhileColon(toks, pos, c.value, c.next);
    }
  }

  /** The outcomes of `for_statement`: the header's error, or the outcome of
      the terminated body after it, carrying the header's parts. */
  lemma ForOutcomes(toks: seq<Token>, pos: nat)
    requires 0 < |toks| && pos <= |toks|
    ensures var h := ForHeaderAt(toks, pos); var r := ForAt(toks, pos);
      (h.Failed? ==> r == Failed(h.error, h.next)) &&
      (h.Done? ==>
        var b := TerminatedAt(toks, h.next, ForBlock);
        (b.Failed? ==> r == Failed(b.error, b.next)) &&
        (b.Done? ==> r == Done(ForLoop(h.value.variable, h.value.start, h.value.end, h.value.step, b.value, h.value.inclusive), b.next)))
  {
  }

  /** The loop of `parse` keeps the declarations it has read, in order. */
  lemma {:induction false} ProgramKeepsStatements(toks: seq<Token>, pos: nat, acc: seq<Stmt>, log: seq<ParseFailure>, unclosed: nat)
    requires pos <= |toks|
    ensures var r := ProgramFrom(toks, pos, acc, log, unclosed); |acc| <= |r.statements| && r.statements[..|acc|] == acc
    decreases |toks| - pos
  {
    if AtEnd(toks, pos) {
      ProgramEnds(toks, pos, acc, log, unclosed);
      assert acc[..|acc|] == acc;
    } else {
      ProgramTurn(toks, pos, acc, log, unclosed);
      var t := TurnAt(toks, pos);
      if t.Skipped? {
        ProgramKeepsStatements(toks, t.next, acc, log, unclosed);
      } else if t.Declared? {
        ProgramKeepsStatements(toks, t.next, acc + [t.stmt], log, unclosed);
        KeptPrefix(ProgramFrom(toks, t.next, acc + [t.stmt], log, unclosed).statements, acc, t.stmt);
      } else if t.Reported? {
        ProgramKeepsStatements(toks, t.next, acc, log + [t.error], OpenAfter(t, unclosed));
      } else {
        assert acc[..|acc|] == acc;
      }
    }
  }

  /** `after` is `before` followed by ParseErrors only. */
  ghost predicate ReportedSince(before: seq<ParseFailure>, after: seq<ParseFailure>) {
    |before| <= |after| && after[..|before|] == before &&
    forall i :: |before| <= i < |after| ==> after[i].ParseError?
  }

  lemma ReportedNothing(log: seq<ParseFailure>)
    ensures ReportedSince(log, log)
  {
    assert log[..|log|] == log;
  }

  lemma ReportOne(before: seq<ParseFailure>, after: seq<ParseFailure>, e: ParseFailure)
    requires ReportedSince(before, after) && e.ParseError?
    ensures ReportedSince(before, after + [e]) && after + [e] != before
  {
    assert (after + [e])[..|before|] == after[..|before|];
  }

  lemma ReportedTransitive(a: seq<ParseFailure>, b: seq<ParseFailure>, c: seq<ParseFailure>)
    requires ReportedSince(a, b) && ReportedSince(b, c)
    ensures ReportedSince(a, c) && (c == a ==> b == a)
  {
    assert c[..|a|] == c[..|b|][..|a|];
  }

  /** The loop of `parse` keeps what it has reported and reports only
      ParseErrors; a failure that ends it is not a ParseError. */
  lemma {:induction false} ProgramReportsParseErrors(toks: seq<Token>, pos: nat, acc: seq<Stmt>, log: seq<ParseFailure>, unclosed: nat)
    requires pos <= |toks|
    ensures var r := ProgramFrom(toks, pos, acc, log, unclosed);
      ReportedSince(log, r.reported) && (r.fatal.Some? ==> !r.fatal.value.ParseError?)
    decreases |toks| - pos
  {
    assert log[..|log|] == log;
    if AtEnd(toks, pos) {
      ProgramEnds(toks, pos, acc, log, unclosed);
    } else {
      ProgramTurn(toks, pos, acc, log, unclosed);
      var t := TurnAt(toks, pos);
      if t.Skipped? {
        ProgramReportsParseErrors(toks, t.next, acc, log, unclosed);
      } else if t.Declared? {
        ProgramReportsParseErrors(toks, t.next, acc + [t.stmt], log, unclosed);
      } else if t.Reported? {
        ProgramReportsParseErrors(toks, t.next, acc, log + [t.error], OpenAfter(t, unclosed));
        ReportOne(log, log, t.error);
        ReportedTransitive(log, log + [t.error], ProgramFrom(toks, t.next, acc, log + [t.error], OpenAfter(t, unclosed)).reported);
      }
    }
  }

  /** From `pos`, the tokens of `func NAME ( ) :` followed by EOF. */
  predicate UnterminatedFunction(toks: seq<Token>, pos: nat) {
    pos + 6 == |toks| && toks[pos].kind == Func && toks[pos + 1].kind == TokenKind.Identifier &&
    toks[pos + 2].kind == LParen && toks[pos + 3].kind == RParen && toks[pos + 4].kind == Colon && toks[pos + 5].kind == Eof
  }

  /** Such a declaration opens a function and fails at EOF for want of the
      `::` that ends the body. */
  lemma UnterminatedFunctionFails(toks: seq<Token>, pos: nat)
    requires UnterminatedFunction(toks, pos)
    ensures OpensFunction(toks, pos)
    ensures DeclarationAt(toks, pos) == Failed(ParseError(ExpectedBodyTerminator, toks[pos + 5]), pos + 5)
  {
    EmptySignature(toks, pos + 2);
    BodyAtEnd(toks, pos + 5);
    FunctionAfterSignature(toks, pos + 2, toks[pos + 1].lexeme, Signature([], None), pos + 5);
    NamedFunctionStep(toks, pos, pos + 2);
    FunctionDeclarationStep(toks, pos);
  }

  /** The loop of `parse` over such tokens reports the missing `::` and
      leaves one function block open, which `parse` then reports as
      unclosed. */
  lemma UnterminatedFunctionLeftOpen(toks: seq<Token>, pos: nat)
    requires UnterminatedFunction(toks, pos)
    ensures ProgramFrom(toks, pos, [], [], 0) == ProgramRead([], [ParseError(ExpectedBodyTerminator, toks[pos + 5])], 1, None)
  {
    var e := ParseError(ExpectedBodyTerminator, toks[pos + 5]);
    UnterminatedFunctionFails(toks, pos);
    assert SkipFrom(toks, pos, {Newline}) == pos;
    assert SyncStop(toks, pos + 5) == pos + 5;
    assert TurnAt(toks, pos) == Reported(e, pos + 5, true);
    ProgramTurn(toks, pos, [], [], 0);
    ProgramEnds(toks, pos + 5, [], [e], 1);
  }

  lemma EmptySignature(toks: seq<Token>, pos: nat)
    requires pos + 3 <= |toks| && CheckAt(toks, pos, LParen) && CheckAt(toks, pos + 1, RParen) && CheckAt(toks, pos + 2, Colon)
    ensures SignatureAt(toks, pos) == Done(Signature([], None), pos + 3)
  {
  }

  lemma BodyAtEnd(toks: seq<Token>, pos: nat)
    requires pos <= |toks| && AtEnd(toks, pos)
    ensures FunctionBodyAt(toks, pos) == Failed(ParseError(ExpectedBodyTerminator, PeekAt(toks, pos)), pos)
  {
    BlockEntry(toks, pos, pos);
    BlockLoopStops(toks, pos, []);
    FunctionBodyAfterBlock(toks, pos, Block([]), pos);
  }

  /** A sequence that starts with `xs + [x]` starts with `xs`. */
  lemma KeptPrefix<T>(s: seq<T>, xs: seq<T>, x: T)
    requires |xs| + 1 <= |s| && s[..|xs| + 1] == xs + [x]
    ensures s[..|xs|] == xs
  {
    assert s[..|xs|] == s[..|xs| + 1][..|xs|];
    assert (xs + [x])[..|xs|] == xs;
  }

  // ---------------------------------------------------------------------
  // Single steps of the functions above, for the parser's proofs

  lemma VariableDeclarationStep(toks: seq<Token>, pos: nat)
    requires pos <= |toks| && CheckAt(toks, pos, TokenKind.Identifier) && CheckAt(toks, pos + 1, Colon)
    ensures DeclarationAt(toks, pos) == Failed(ParseError(ExpectedTypeName, toks[pos + 1]), pos + 1)
  {
    VariableDeclarationRefused(toks, pos + 1, toks[pos].lexeme);
  }

  lemma FunctionDeclarationStep(toks: seq<Token>, pos: nat)
    requires pos <= |toks| && !(CheckAt(toks, pos, TokenKind.Identifier) && CheckAt(toks, pos + 1, Colon))
    ensures DeclarationAt(toks, pos) == FunctionDeclarationAt(toks, pos)
  {
  }

  lemma NamedFunctionStep(toks: seq<Token>, pos: nat, inner: nat)
    requires pos <= |toks| && CheckAt(toks, pos, Func) && CheckAt(toks, pos + 1, TokenKind.Identifier) && inner == pos + 2
    ensures FunctionDeclarationAt(toks, pos) == FunctionAt(toks, inner, toks[pos + 1].lexeme)
  {
  }

  lemma SignatureFails(toks: seq<Token>, pos: nat, name: string, e: ParseFailure, p: nat)
    requires pos <= |toks| && SignatureAt(toks, pos) == Failed(e, p)
    ensures FunctionAt(toks, pos, name) == Failed(e, p)
  {
  }

  lemma FunctionAfterSignature(toks: seq<Token>, pos: nat, name: string, sig: Signature, p: nat)
    requires pos <= |toks| && SignatureAt(toks, pos) == Done(sig, p)
    ensures var b := FunctionBodyAt(toks, p);
      FunctionAt(toks, pos, name) ==
        if b.Failed? then Failed(b.error, b.next)
        else Done(FunctionDeclStmt(FunctionDecl(name, sig.params, sig.returnType, b.value)), b.next)
  {
  }

  lemma FunctionBodyBlockFails(toks: seq<Token>, pos: nat, e: ParseFailure, p: nat)
    requires pos <= |toks| && BlockAt(toks, pos) == Failed(e, p)
    ensures FunctionBodyAt(toks, pos) == Failed(e, p)
  {
  }

  lemma FunctionBodyAfterBlock(toks: seq<Token>, pos: nat, b: Block, p: nat)
    requires pos <= |toks| && BlockAt(toks, pos) == Done(b, p)
    ensures CheckAt(toks, p, DoubleColon) ==> FunctionBodyAt(toks, pos) == Done(b, p + 1)
    ensures !CheckAt(toks, p, DoubleColon) ==>
      FunctionBodyAt(toks, pos) == Failed(ParseError(ExpectedBodyTerminator, PeekAt(toks, p)), p)
  {
  }

  lemma BlockEntry(toks: seq<Token>, pos: nat, p: nat)
    requires pos <= |toks| && p == SkipFrom(toks, pos, {Newline})
    ensures BlockAt(toks, pos) == BlockLoopAt(toks, p, [])
  {
  }

  lemma BlockLoopStops(toks: seq<Token>, pos: nat, acc: seq<Stmt>)
    requires pos <= |toks| && (CheckAt(toks, pos, DoubleColon) || AtEnd(toks, pos))
    ensures BlockLoopAt(toks, pos, acc) == Done(Block(acc), pos)
  {
  }

  lemma BlockLoopComment(toks: seq<Token>, pos: nat, acc: seq<Stmt>)
    requires pos < |toks| && CheckAt(toks, pos, Comment)
    ensures BlockLoopAt(toks, pos, acc) == BlockLoopAt(toks, pos + 1, acc)
  {
  }

  lemma BlockLoopFails(toks: seq<Token>, pos: nat, acc: seq<Stmt>, e: ParseFailure, p: nat)
    requires pos <= |toks| && !CheckAt(toks, pos, DoubleColon) && !AtEnd(toks, pos) && !CheckAt(toks, pos, Comment)
    requires DeclarationAt(toks, pos) == Failed(e, p)
    ensures BlockLoopAt(toks, pos, acc) == Failed(e, p)
  {
  }

  lemma BlockLoopDeclared(toks: seq<Token>, pos: nat, acc: seq<Stmt>, d: Stmt, p: nat, n: nat)
    requires pos <= |toks| && !CheckAt(toks, pos, DoubleColon) && !AtEnd(toks, pos) && !CheckAt(toks, pos, Comment)
    requires DeclarationAt(toks, pos) == Done(d, p) && n == SkipFrom(toks, p, {Newline})
    ensures BlockLoopAt(toks, pos, acc) == BlockLoopAt(toks, n, acc + [d])
  {
  }

  lemma ProgramEnds(toks: seq<Token>, pos: nat, acc: seq<Stmt>, log: seq<ParseFailure>, unclosed: nat)
    requires pos <= |toks| && AtEnd(toks, pos)
    ensures ProgramFrom(toks, pos, acc, log, unclosed) == ProgramRead(acc, log, unclosed, None)
  {
  }

  lemma ProgramTurn(toks: seq<Token>, pos: nat, acc: seq<Stmt>, log: seq<ParseFailure>, unclosed: nat)
    requires pos <= |toks| && !AtEnd(toks, pos)
    ensures var t := TurnAt(toks, pos);
      (t.Skipped? ==> ProgramFrom(toks, pos, acc, log, unclosed) == ProgramFrom(toks, t.next, acc, log, unclosed)) &&
      (t.Declared? ==> ProgramFrom(toks, pos, acc, log, unclosed) == ProgramFrom(toks, t.next, acc + [t.stmt], log, unclosed)) &&
      (t.Reported? ==> ProgramFrom(toks, pos, acc, log, unclosed) == ProgramFrom(toks, t.next, acc, log + [t.error], OpenAfter(t, unclosed))) &&
      (t.Fatal? ==> ProgramFrom(toks, pos, acc, log, unclosed) == ProgramRead(acc, log, unclosed, Some(t.error)))
  {
  }

  lemma ForHeaderFails(toks: seq<Token>, pos: nat, e: ParseFailure, p: nat)
    requires 0 < |toks| && pos <= |toks| && ForHeaderAt(toks, pos) == Failed(e, p)
    ensures ForAt(toks, pos) == Failed(e, p)
  {
  }

  lemma ForAfterHeader(toks: seq<Token>, pos: nat, h: ForHeader, p: nat)
    requires 0 < |toks| && pos <= |toks| && ForHeaderAt(toks, pos) == Done(h, p)
    ensures var b := TerminatedAt(toks, p, ForBlock);
      ForAt(toks, pos) == if b.Failed? then Failed(b.error, b.next) else Done(ForLoop(h.variable, h.start, h.end, h.step, b.value, h.inclusive), b.next)
  {
  }

  lemma WhileConditionFails(toks: seq<Token>, pos: nat, e: ParseFailure, p: nat)
    requires 0 < |toks| && pos <= |toks| && ExpressionAt(toks, pos) == Failed(e, p)
    ensures WhileAt(toks, pos) == Failed(e, p)
  {
  }

  lemma WhileColon(toks: seq<Token>, pos: nat, c: Expr, p: nat)
    requires 0 < |toks| && pos <= |toks| && ExpressionAt(toks, pos) == Done(c, p)
    ensures !CheckAt(toks, p, Colon) ==> WhileAt(toks, pos) == Failed(ParseError(ExpectedWhileColon, PeekAt(toks, p)), p)
    ensures CheckAt(toks, p, Colon) ==> (var b := TerminatedAt(toks, p + 1, WhileBlock);
      WhileAt(toks, pos) == if b.Failed? then Failed(b.error, b.next) else Done(WhileLoop(c, b.value), b.next))
  {
  }

  lemma TerminatedBlockFails(toks: seq<Token>, pos: nat, kind: BlockKind, e: ParseFailure, p: nat)
    requires 0 < |toks| && pos <= |toks| && BlockAt(toks, pos) == Failed(e, p)
    ensures TerminatedAt(toks, pos, kind) == Failed(e, p)
  {
  }

  lemma TerminatedAfterBlock(toks: seq<Token>, pos: nat, kind: BlockKind, b: Block, p: nat)
    requires 0 < |toks| && pos <= |toks| && BlockAt(toks, pos) == Done(b, p)
    ensures CheckAt(toks, p, DoubleColon) ==> TerminatedAt(toks, pos, kind) == Done(b, p + 1)
    ensures !CheckAt(toks, p, DoubleColon) ==>
      TerminatedAt(toks, pos, kind) == Failed(ParseError(MissingTerminator(kind, PreviousAt(toks, p).line), PeekAt(toks, p)), p)
  {
  }
}
