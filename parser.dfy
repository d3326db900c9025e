/** The recursive-descent parser of noir_parser.py: a cursor `current` over
    the token list and a `block_stack` pairing every block opener with the
    shared `::` terminator. The expression and type routines are proved to
    compute the functions of module Grammar. */
module Parser {
  import opened Common
  import opened Tokens
  import opened Types
  import opened Ast
  import opened Grammar
  import opened StatementGrammar
  import opened BlockGrammar

  /** An entry of `block_stack`: the block's kind and where it starts. */
  datatype BlockRecord = BlockRecord(kind: BlockKind, line: int, column: int)

  /** A function declaration whose body holds only function declarations,
      all the way down: the only statements `declaration` can return. */
  predicate FunctionsOnly(s: Stmt)
    decreases s
  {
    s.FunctionDeclStmt? && AllFunctions(s.decl.body.statements)
  }

  /** Every statement of `ss` is a function declaration of that kind. */
  predicate AllFunctions(ss: seq<Stmt>)
    decreases ss
  {
    forall i :: 0 <= i < |ss| ==> FunctionsOnly(ss[i])
  }

  lemma AllFunctionsAppend(ss: seq<Stmt>, s: Stmt)
    requires AllFunctions(ss) && FunctionsOnly(s)
    ensures AllFunctions(ss + [s])
  {
  }

  /** `after` is `before` with function records pushed on top: what a
      failed declaration leaves on the block stack. */
  ghost predicate PushedFunctions(before: seq<BlockRecord>, after: seq<BlockRecord>) {
    |before| <= |after| && after[..|before|] == before &&
    forall i :: |before| <= i < |after| ==> after[i].kind == FunctionBlock
  }

  lemma PushedNothing(stack: seq<BlockRecord>)
    ensures PushedFunctions(stack, stack)
  {
    assert stack[..|stack|] == stack;
  }

  lemma PushedFunctionsTransitive(a: seq<BlockRecord>, b: seq<BlockRecord>, c: seq<BlockRecord>)
    requires PushedFunctions(a, b) && PushedFunctions(b, c)
    ensures PushedFunctions(a, c)
  {
    assert c[..|a|] == c[..|b|][..|a|];
  }

  /** The block stack and the reports of `parse` since it started from
      `stack0` and `log0`: only function records were pushed, only
      ParseErrors reported, and `leftOpen` counts the turns that left a
      function block open. */
  ghost predicate OpenSince(stack0: seq<BlockRecord>, stack: seq<BlockRecord>, log0: seq<ParseFailure>, log: seq<ParseFailure>, leftOpen: nat) {
    PushedFunctions(stack0, stack) && ReportedSince(log0, log) &&
    (log == log0 ==> stack == stack0) &&
    (leftOpen == 0 ==> stack == stack0) && (leftOpen > 0 ==> |stack0| < |stack|)
  }

  /** What the loop of `parse` keeps between turns: from `pos`, with
      `statements` read and `leftOpen` function blocks left open, the rest of
      the loop reads `goal`, and the block stack and reports are `OpenSince`
      the start. */
  ghost predicate Reading(toks: seq<Token>, pos: nat, statements: seq<Stmt>, leftOpen: nat, goal: ProgramRead,
                          stack0: seq<BlockRecord>, stack: seq<BlockRecord>, log0: seq<ParseFailure>, log: seq<ParseFailure>) {
    pos <= |toks| && ProgramFrom(toks, pos, statements, log, leftOpen) == goal &&
    AllFunctions(statements) && OpenSince(stack0, stack, log0, log, leftOpen)
  }

  /** One turn of `parse` that either grows the block stack or leaves it
      as it was, and grows it only when it reports. */
  lemma OpenStep(stack0: seq<BlockRecord>, stack: seq<BlockRecord>, after: seq<BlockRecord>,
                 log0: seq<ParseFailure>, log: seq<ParseFailure>, rep: seq<ParseFailure>, leftOpen: nat)
    requires OpenSince(stack0, stack, log0, log, leftOpen)
    requires PushedFunctions(stack, after) && ReportedSince(log, rep)
    requires !(|stack| < |after|) ==> after == stack
    requires rep == log ==> after == stack
    ensures OpenSince(stack0, after, log0, rep, if |stack| < |after| then leftOpen + 1 else leftOpen)
  {
    PushedFunctionsTransitive(stack0, stack, after);
    ReportedTransitive(log0, log, rep);
  }

  /** Records pushed on top of one more record keep that record in place. */
  lemma PushedAbove(before: seq<BlockRecord>, rec: BlockRecord, after: seq<BlockRecord>)
    requires PushedFunctions(before + [rec], after)
    ensures |before| < |after| && after[..|before|] == before && after[|before|] == rec
  {
    assert after[..|before|] == (before + [rec])[..|before|];
  }

  class Parser {
    const tokens: seq<Token>
    var current: nat
    var blockStack: seq<BlockRecord>
    /** The ParseErrors `parse` reports and recovers from, in order. */
    var reported: seq<ParseFailure>

    ghost predicate Valid()
      reads this
    {
      current <= |tokens|
    }

    constructor(tokens: seq<Token>)
      ensures Valid() && this.tokens == tokens && current == 0 && blockStack == [] && reported == []
    {
      this.tokens := tokens;
      current := 0;
      blockStack := [];
      reported := [];
    }

    /** The routine's outcome and final cursor are those of the grammar function. */
    static ghost predicate Yields<T>(r: Result<T, ParseFailure>, s: Parsed<T>, at: nat) {
      r == s.ToResult() && at == s.next
    }

    // -------------------------------------------------------------------
    // Cursor helpers

    /** `peek`: the current token, or a synthetic EOF past the end of the list. */
    function Peek(): (t: Token)
      reads this
      ensures current < |tokens| ==> t == tokens[current]
      ensures current >= |tokens| ==> t == Token(Eof, "", 0, 0)
    {
      PeekAt(tokens, current)
    }

    /** `previous`: the token before the cursor; at position 0 Python's index
        -1 reads the last token. */
    function Previous(): (t: Token)
      requires Valid() && |tokens| > 0
      reads this
      ensures current > 0 ==> t == tokens[current - 1]
      ensures current == 0 ==> t == tokens[|tokens| - 1]
    {
      PreviousAt(tokens, current)
    }

    /** The token just consumed is a `::`. */
    predicate AfterTerminator()
      reads this
    {
      0 < current <= |tokens| && tokens[current - 1].kind == DoubleColon
    }

    predicate IsAtEnd()
      reads this
    {
      AtEnd(tokens, current)
    }

    /** `check`: false at the end whatever kind is asked for. */
    predicate Check(k: TokenKind)
      reads this
      ensures Check(k) ==> current < |tokens| && tokens[current].kind == k && !IsAtEnd()
    {
      CheckAt(tokens, current, k)
    }

    /** `advance`: one step forward, never past an EOF token. */
    method Advance()
      requires Valid()
      modifies this`current
      ensures Valid() && current == if old(IsAtEnd()) then old(current) else old(current) + 1
    {
      if !IsAtEnd() {
        current := current + 1;
      }
    }

    /** `match`: consume the current token if it has one of the kinds. */
    method Match(ks: set<TokenKind>) returns (b: bool)
      requires Valid()
      modifies this`current
      ensures Valid() && b == old(MatchesAny(tokens, current, ks)) && current == if b then old(current) + 1 else old(current)
    {
      b := MatchesAny(tokens, current, ks);
      if b {
        Advance();
      }
    }

    /** `consume`: the expected token, or a ParseError at the current token
        without moving. */
    method Consume(k: TokenKind, message: Message) returns (r: Result<Token, ParseFailure>)
      requires Valid()
      modifies this`current
      ensures Valid() && Yields(r, ConsumeAt(tokens, old(current), k, message), current)
    {
      if Check(k) {
        var t := Peek();
        Advance();
        return Ok(t);
      }
      return Err(ParseError(message, Peek()));
    }

    /** `while self.match(*ks): pass`. */
    method Skip(ks: set<TokenKind>)
      requires Valid()
      modifies this`current
      ensures Valid() && current == SkipFrom(tokens, old(current), ks)
    {
      while true
        invariant Valid() && old(current) <= current
        invariant SkipFrom(tokens, current, ks) == SkipFrom(tokens, old(current), ks)
        decreases |tokens| - current
      {
        var more := Match(ks);
        if !more {
          return;
        }
      }
    }

    // -------------------------------------------------------------------
    // The block stack

    /** `begin_block`: push exactly one record. */
    method BeginBlock(kind: BlockKind, line: int, column: int)
      modifies this`blockStack
      ensures blockStack == old(blockStack) + [BlockRecord(kind, line, column)]
    {
      blockStack := blockStack + [BlockRecord(kind, line, column)];
    }

    /** `end_block`: pop exactly the top record, or fail on an empty stack. */
    method EndBlock() returns (failure: Option<ParseFailure>)
      modifies this`blockStack
      ensures old(blockStack) == [] ==>
        failure == Some(ParseError(UnmatchedTerminator, Peek())) && blockStack == []
      ensures old(blockStack) != [] ==> failure == None && blockStack == old(blockStack)[..|old(blockStack)| - 1]
    {
      if blockStack == [] {
        return Some(ParseError(UnmatchedTerminator, Peek()));
      }
      blockStack := blockStack[..|blockStack| - 1];
      return None;
    }

    /** `check_unclosed_blocks`: the error names the most recently unclosed
        unterminated block. */
    function UnclosedBlocks(): (r: Option<ParseFailure>)
      reads this
      ensures r.None? <==> blockStack == []
      ensures r.Some? ==> r.value == ParseError(UnclosedBlock(blockStack[|blockStack| - 1].kind, blockStack[|blockStack| - 1].line, blockStack[|blockStack| - 1].column), Peek())
    {
      if blockStack == [] then None
      else Some(ParseError(UnclosedBlock(blockStack[|blockStack| - 1].kind, blockStack[|blockStack| - 1].line, blockStack[|blockStack| - 1].column), Peek()))
    }

    // -------------------------------------------------------------------
    // Type annotations

    /** `parse_type_annotation`. */
    method ParseTypeAnnotation() returns (r: Result<TypeAnnotation, ParseFailure>)
      requires Valid()
      modifies this`current
      ensures Valid() && Yields(r, AnnotationAt(tokens, old(current)), current)
      decreases |tokens| - current, 1
    {
      ghost var start := current;
      var isBracket := Match({LBracket});
      if isBracket {
        BracketAnnotationEntry(tokens, start, current);
        r := BracketAnnotation();
        return;
      }
      if Check(TokenKind.Identifier) {
        r := NamedAnnotation();
        return;
      }
      var isBuiltin := Match(BuiltinTypeKinds);
      if isBuiltin {
        return Ok(MakeAnnotation(Previous().lexeme, [], Primitive));
      }
      if Check(TokenKind.Set) || Check(TokenKind.OSet) {
        assert AnnotationAt(tokens, start) == SetAnnotationAt(tokens, start);
        r := SetAnnotation();
        return;
      }
      return Err(ParseError(ExpectedTypeName, Peek()));
    }

    method BracketAnnotation() returns (r: Result<TypeAnnotation, ParseFailure>)
      requires Valid()
      modifies this`current
      ensures Valid() && Yields(r, BracketAnnotationAt(tokens, old(current)), current)
      decreases |tokens| - current, 2
    {
      var elem := ParseTypeAnnotation();
      if elem.Err? {
        return Err(elem.error);
      }
      ghost var mid := current;
      var isDict := Match({Colon});
      BracketAnnotationStep(tokens, old(current), elem.value, mid, current);
      if isDict {
        r := DictTail(elem.value);
        return;
      }
      var close := Consume(RBracket, ExpectedArrayTypeClose);
      if close.Err? {
        return Err(close.error);
      }
      return Ok(Shaped(ArrayName, [elem.value]));
    }

    method DictTail(key: TypeAnnotation) returns (r: Result<TypeAnnotation, ParseFailure>)
      requires Valid()
      modifies this`current
      ensures Valid() && Yields(r, DictTailAt(tokens, old(current), key), current)
      decreases |tokens| - current, 3
    {
      var val := ParseTypeAnnotation();
      if val.Err? {
        return Err(val.error);
      }
      var close := Consume(RBracket, ExpectedDictTypeClose);
      if close.Err? {
        return Err(close.error);
      }
      return Ok(Shaped(DictName, [key, val.value]));
    }

    method NamedAnnotation() returns (r: Result<TypeAnnotation, ParseFailure>)
      requires Valid() && Check(TokenKind.Identifier)
      modifies this`current
      ensures Valid() && Yields(r, NamedAnnotationAt(tokens, old(current)), current)
      decreases |tokens| - current, 0
    {
      Advance();
      var name := Previous().lexeme;
      if IsSingleUpper(name) {
        return Ok(MakeAnnotation(name, [], Parameter));
      }
      var isGenericForm := Match({LessThan});
      if isGenericForm {
        r := TypeArguments(name);
        return;
      }
      return Ok(MakeAnnotation(name, [], Primitive));
    }

    /** The parameters of `Name<...>` after the `<`, with the closing `>`. */
    method TypeArguments(name: string) returns (r: Result<TypeAnnotation, ParseFailure>)
      requires Valid() && !IsSingleUpper(name)
      modifies this`current
      ensures Valid() && Yields(r, TypeArgumentsAt(tokens, old(current), name), current)
      decreases |tokens| - current, 4
    {
      var params: seq<TypeAnnotation> := [];
      if !Check(GreaterThan) {
        var list := AnnotationList();
        if list.Err? {
          return Err(list.error);
        }
        params := list.value;
      }
      var close := Consume(GreaterThan, ExpectedTypeParametersClose);
      if close.Err? {
        return Err(close.error);
      }
      return Ok(WithArguments(name, params));
    }

    method SetAnnotation() returns (r: Result<TypeAnnotation, ParseFailure>)
      requires Valid() && (Check(TokenKind.Set) || Check(TokenKind.OSet))
      modifies this`current
      ensures Valid() && Yields(r, SetAnnotationAt(tokens, old(current)), current)
      decreases |tokens| - current, 0
    {
      Advance();
      var base := Previous().lexeme;
      ghost var next := current;
      var open := Match({LessThan});
      SetAnnotationStep(tokens, old(current), next, base, current);
      if open {
        r := SetElement(base);
        return;
      }
      return Err(ParseError(SetNeedsElementType, Peek()));
    }

    /** The element type of a set type after the `<`, with the closing `>`. */
    method SetElement(base: string) returns (r: Result<TypeAnnotation, ParseFailure>)
      requires Valid()
      modifies this`current
      ensures Valid() && Yields(r, SetElementAt(tokens, old(current), base), current)
      decreases |tokens| - current, 2
    {
      var elem := ParseTypeAnnotation();
      if elem.Err? {
        return Err(elem.error);
      }
      var close := Consume(GreaterThan, ExpectedSetParameterClose);
      if close.Err? {
        return Err(close.error);
      }
      return Ok(MakeAnnotation(base, [Concrete(elem.value)], if elem.value.kind != Parameter then Instantiated else Generic));
    }

    /** The comma-separated annotations between `<` and `>`. */
    method AnnotationList() returns (r: Result<seq<TypeAnnotation>, ParseFailure>)
      requires Valid()
      modifies this`current
      ensures Valid() && Yields(r, AnnotationListAt(tokens, old(current), []), current)
      decreases |tokens| - current, 3
    {
      var params: seq<TypeAnnotation> := [];
      while true
        invariant Valid() && old(current) <= current
        invariant AnnotationListAt(tokens, current, params) == AnnotationListAt(tokens, old(current), [])
        decreases |tokens| - current
      {
        ghost var before := current;
        var param := ParseTypeAnnotation();
        if param.Err? {
          return Err(param.error);
        }
        ghost var mid := current;
        var more := Match({Comma});
        AnnotationListStep(tokens, before, params, param.value, mid, current);
        params := params + [param.value];
        if !more {
          return Ok(params);
        }
      }
    }

    // -------------------------------------------------------------------
    // Expressions

    /** `expression`. */
    method Expression() returns (r: Result<Expr, ParseFailure>)
      requires Valid()
      modifies this`current
      ensures Valid() && Yields(r, ExpressionAt(tokens, old(current)), current)
      decreases |tokens| - current, 9, 0
    {
      r := Assignment();
    }

    /** `assignment`. */
    method Assignment() returns (r: Result<Expr, ParseFailure>)
      requires Valid()
      modifies this`current
      ensures Valid() && Yields(r, AssignmentAt(tokens, old(current)), current)
      decreases |tokens| - current, 8, 0
    {
      var target := Binary(0);
      if target.Err? {
        return target;
      }
      ghost var p := current;
      var isAssign := Match({TokenKind.Assign});
      if isAssign {
        var equals := Previous();
        assert equals == tokens[p];
        AssignmentTail(tokens, old(current), target.value, p, current);
        var value := Assignment();
        if value.Err? {
          return value;
        }
        if target.value.Identifier? {
          return Ok(Expr.Assign(target.value.name, value.value));
        }
        return Err(ParseError(InvalidAssignmentTarget, equals));
      }
      return target;
    }

    /** The operand of a binary level: the next level, or `unary` below factor. */
    method Operand(level: nat) returns (r: Result<Expr, ParseFailure>)
      requires Valid() && level <= LastLevel
      modifies this`current
      ensures Valid() && Yields(r, OperandAt(level, tokens, old(current)), current)
      decreases |tokens| - current, 7 - level, 0
    {
      if level == LastLevel {
        r := Unary();
      } else {
        r := Binary(level + 1);
      }
    }

    /** `logical_or` (level 0), `logical_and`, `equality`, `comparison`,
        `term` and `factor` (level 5). */
    method Binary(level: nat) returns (r: Result<Expr, ParseFailure>)
      requires Valid() && level <= LastLevel
      modifies this`current
      ensures Valid() && Yields(r, BinaryAt(level, tokens, old(current)), current)
      decreases |tokens| - current, 7 - level, 1
    {
      var first := Operand(level);
      if first.Err? {
        return first;
      }
      var expr := first.value;
      ghost var goal := BinaryAt(level, tokens, old(current));
      while true
        invariant Valid() && old(current) < current
        invariant BinaryLoopAt(level, tokens, current, expr) == goal
        decreases |tokens| - current
      {
        ghost var before := current;
        var isOperator := Match(LevelOps(level));
        if !isOperator {
          return Ok(expr);
        }
        var extended := ExtendBinary(level, expr, before);
        if extended.Err? {
          return extended;
        }
        expr := extended.value;
      }
    }

    /** One turn of the loop of a binary level, once `match` has consumed an
        operator of the level at `before`: `previous` is that operator, and
        it joins the tree built so far to the operand that follows. */
    method ExtendBinary(level: nat, left: Expr, ghost before: nat) returns (r: Result<Expr, ParseFailure>)
      requires Valid() && level <= LastLevel && current == before + 1 && MatchesAny(tokens, before, LevelOps(level))
      modifies this`current
      ensures Valid() && old(current) <= current
      ensures r.Ok? ==> old(current) < current && BinaryLoopAt(level, tokens, before, left) == BinaryLoopAt(level, tokens, current, r.value)
      ensures r.Err? ==> Yields(r, BinaryLoopAt(level, tokens, before, left), current)
      decreases |tokens| - current, 7 - level, 1
    {
      ghost var inner := current;
      var operator := Previous();
      assert operator == tokens[before];
      var right := Operand(level);
      if right.Err? {
        BinaryLoopFails(level, tokens, before, left, inner);
        return right;
      }
      BinaryLoopStep(level, tokens, before, left, inner, operator, right.value, current);
      OperandAdvances(level, tokens, inner, right.value, current);
      return Ok(BinaryOp(left, operator, right.value));
    }

    /** `unary`. */
    method Unary() returns (r: Result<Expr, ParseFailure>)
      requires Valid()
      modifies this`current
      ensures Valid() && Yields(r, UnaryAt(tokens, old(current)), current)
      decreases |tokens| - current, 1, 3
    {
      var isPrefix := Match({Minus, Bang});
      if isPrefix {
        var operator := Previous();
        var operand := Unary();
        if operand.Err? {
          return operand;
        }
        return Ok(UnaryOp(operator, operand.value));
      }
      r := TypeCastExpr();
    }

    /** `type_cast`. */
    method TypeCastExpr() returns (r: Result<Expr, ParseFailure>)
      requires Valid()
      modifies this`current
      ensures Valid() && Yields(r, CastAt(tokens, old(current)), current)
      decreases |tokens| - current, 1, 2
    {
      var expr := Primary();
      if expr.Err? {
        return expr;
      }
      ghost var mid := current;
      var isCast := Match({As});
      CastStep(tokens, old(current), expr.value, mid, current);
      if isCast {
        var target := ParseTypeAnnotation();
        if target.Err? {
          return Err(target.error);
        }
        return Ok(TypeCast(expr.value, target.value));
      }
      return expr;
    }

    /** `primary`: the literals. */
    method Primary() returns (r: Result<Expr, ParseFailure>)
      requires Valid()
      modifies this`current
      ensures Valid() && Yields(r, PrimaryAt(tokens, old(current)), current)
      decreases |tokens| - current, 1, 1
    {
      if Check(TokenKind.False) {
        Advance();
        return Ok(Literal(LBool(false), BoolLit));
      }
      if Check(TokenKind.True) {
        Advance();
        return Ok(Literal(LBool(true), BoolLit));
      }
      if MatchesAny(tokens, current, LiteralKinds) {
        Advance();
        return Ok(Literal(LText(Previous().lexeme), Previous().kind));
      }
      r := Compound();
    }

    /** `primary`: arrays, identifiers and groupings. */
    method Compound() returns (r: Result<Expr, ParseFailure>)
      requires Valid()
      modifies this`current
      ensures Valid() && Yields(r, CompoundAt(tokens, old(current)), current)
      decreases |tokens| - current, 1, 0
    {
      if Check(LBracket) {
        Advance();
        r := ArrayLiteralTail();
        return;
      }
      if Check(TokenKind.Identifier) {
        Advance();
        r := IdentifierTail(Previous().lexeme);
        return;
      }
      if Check(LParen) {
        Advance();
        r := Grouping();
        return;
      }
      return Err(ParseError(ExpectedExpression, Peek()));
    }

    /** An array literal after its `[`. */
    method ArrayLiteralTail() returns (r: Result<Expr, ParseFailure>)
      requires Valid()
      modifies this`current
      ensures Valid() && Yields(r, ArrayLiteralAt(tokens, old(current)), current)
      decreases |tokens| - current, 13, 0
    {
      var elements := Elements(RBracket);
      if elements.Err? {
        return Err(elements.error);
      }
      var close := Consume(RBracket, ExpectedElementsClose);
      if close.Err? {
        return Err(close.error);
      }
      return Ok(ArrayLiteral(elements.value));
    }

    /** What follows an identifier in `primary`: a method call, an index or a call. */
    method IdentifierTail(name: string) returns (r: Result<Expr, ParseFailure>)
      requires Valid()
      modifies this`current
      ensures Valid() && Yields(r, IdentifierTailAt(tokens, old(current), name), current)
      decreases |tokens| - current, 0, 0
    {
      ghost var start := current;
      if Check(Dot) {
        Advance();
        IdentifierTailEntry(tokens, start, name, current);
        r := MethodCallTail(name);
        return;
      }
      if Check(LBracket) {
        Advance();
        IdentifierTailEntry(tokens, start, name, current);
        r := IndexTail(name);
        return;
      }
      if Check(LParen) {
        Advance();
        IdentifierTailEntry(tokens, start, name, current);
        var args := Arguments();
        if args.Err? {
          return Err(args.error);
        }
        return Ok(FunctionCall(name, args.value));
      }
      return Ok(Expr.Identifier(name));
    }

    /** `name.m(args)` after the dot. */
    method MethodCallTail(name: string) returns (r: Result<Expr, ParseFailure>)
      requires Valid()
      modifies this`current
      ensures Valid() && Yields(r, MethodCallAt(tokens, old(current), name), current)
      decreases |tokens| - current, 14, 0
    {
      var m := Consume(TokenKind.Identifier, ExpectedMethodName);
      if m.Err? {
        return Err(m.error);
      }
      var open := Consume(LParen, ExpectedMethodParen);
      if open.Err? {
        return Err(open.error);
      }
      var args := Arguments();
      if args.Err? {
        return Err(args.error);
      }
      return Ok(MethodCall(name, m.value.lexeme, args.value));
    }

    /** `name[index]` after the `[`. */
    method IndexTail(name: string) returns (r: Result<Expr, ParseFailure>)
      requires Valid()
      modifies this`current
      ensures Valid() && Yields(r, IndexAt(tokens, old(current), name), current)
      decreases |tokens| - current, 14, 0
    {
      var index := Expression();
      if index.Err? {
        return index;
      }
      var close := Consume(RBracket, ExpectedIndexClose);
      if close.Err? {
        return Err(close.error);
      }
      return Ok(ArrayAccess(Expr.Identifier(name), index.value));
    }

    /** A parenthesised expression after its `(`. */
    method Grouping() returns (r: Result<Expr, ParseFailure>)
      requires Valid()
      modifies this`current
      ensures Valid() && Yields(r, GroupingAt(tokens, old(current)), current)
      decreases |tokens| - current, 13, 0
    {
      var inner := Expression();
      if inner.Err? {
        return inner;
      }
      var close := Consume(RParen, ExpectedGroupingClose);
      if close.Err? {
        return Err(close.error);
      }
      return inner;
    }

    /** A call's arguments after its `(`, with the closing `)`. */
    method Arguments() returns (r: Result<seq<Expr>, ParseFailure>)
      requires Valid()
      modifies this`current
      ensures Valid() && Yields(r, ArgumentsAt(tokens, old(current)), current)
      decreases |tokens| - current, 12, 0
    {
      var args := Elements(RParen);
      if args.Err? {
        return args;
      }
      var close := Consume(RParen, ExpectedArgumentsClose);
      if close.Err? {
        return Err(close.error);
      }
      return args;
    }

    /** `if not self.check(close): <expression list>`. */
    method Elements(close: TokenKind) returns (r: Result<seq<Expr>, ParseFailure>)
      requires Valid()
      modifies this`current
      ensures Valid() && Yields(r, ElementsAt(tokens, old(current), close), current)
      decreases |tokens| - current, 11, 0
    {
      if Check(close) {
        return Ok([]);
      }
      r := ExpressionList();
    }

    /** `while True: append(expression()); if not match(COMMA): break`. */
    method ExpressionList() returns (r: Result<seq<Expr>, ParseFailure>)
      requires Valid()
      modifies this`current
      ensures Valid() && Yields(r, ExpressionListAt(tokens, old(current), []), current)
      decreases |tokens| - current, 10, 0
    {
      var elements: seq<Expr> := [];
      while true
        invariant Valid() && old(current) <= current
        invariant ExpressionListAt(tokens, current, elements) == ExpressionListAt(tokens, old(current), [])
        decreases |tokens| - current
      {
        ghost var before := current;
        var e := Expression();
        if e.Err? {
          return Err(e.error);
        }
        ghost var mid := current;
        var more := Match({Comma});
        ExpressionListStep(tokens, before, elements, e.value, mid, current);
        elements := elements + [e.value];
        if !more {
          return Ok(elements);
        }
      }
    }

    /** `synchronize`: skip to the next place a statement can start. */
    method Synchronize()
      requires Valid() && |tokens| > 0
      modifies this`current
      ensures Valid() && current == SyncStop(tokens, old(current))
    {
      Advance();
      while !IsAtEnd()
        invariant Valid() && (1 <= current || IsAtEnd())
        invariant SyncFrom(tokens, current) == SyncStop(tokens, old(current))
        decreases |tokens| - current
      {
        if Previous().kind == DoubleColon {
          Skip({Newline});
          return;
        }
        if Peek().kind in StatementStarts {
          return;
        }
        Advance();
      }
    }

    // -------------------------------------------------------------------
    // Parameters and signatures

    /** One `name: Type` parameter. */
    method FunctionParameter(style: ParamStyle) returns (r: Result<FunctionParam, ParseFailure>)
      requires Valid()
      modifies this`current
      ensures Valid() && Yields(r, ParameterAt(tokens, old(current), style), current)
    {
      var name := Consume(TokenKind.Identifier, style.NameMessage());
      if name.Err? {
        return Err(name.error);
      }
      var colon := Consume(Colon, style.ColonMessage());
      if colon.Err? {
        return Err(colon.error);
      }
      var t := ParseTypeAnnotation();
      if t.Err? {
        return Err(t.error);
      }
      return Ok(FunctionParam(name.value.lexeme, t.value));
    }

    /** Parameters separated by commas: `while True: ...; if not
        self.match(COMMA): break`. */
    method ParameterList(style: ParamStyle) returns (r: Result<seq<FunctionParam>, ParseFailure>)
      requires Valid()
      modifies this`current
      ensures Valid() && Yields(r, ParameterListAt(tokens, old(current), [], style), current)
    {
      var params: seq<FunctionParam> := [];
      while true
        invariant Valid() && old(current) <= current
        invariant ParameterListAt(tokens, current, params, style) == ParameterListAt(tokens, old(current), [], style)
        decreases |tokens| - current
      {
        var next, more := NextParameter(params, style);
        if next.Err? || !more {
          return next;
        }
        params := next.value;
      }
    }

    /** One turn of the parameter loop: a parameter, then a comma to go on. */
    method NextParameter(params: seq<FunctionParam>, style: ParamStyle) returns (r: Result<seq<FunctionParam>, ParseFailure>, more: bool)
      requires Valid()
      modifies this`current
      ensures Valid() && old(current) <= current && (more ==> old(current) < current)
      ensures r.Err? ==> ParameterListAt(tokens, old(current), params, style) == Failed(r.error, current)
      ensures r.Ok? && more ==> ParameterListAt(tokens, old(current), params, style) == ParameterListAt(tokens, current, r.value, style)
      ensures r.Ok? && !more ==> ParameterListAt(tokens, old(current), params, style) == Done(r.value, current)
    {
      ghost var before := current;
      var param := FunctionParameter(style);
      if param.Err? {
        ParameterListFails(tokens, before, params, style, param.error, current);
        return Err(param.error), false;
      }
      ParameterListNext(tokens, before, params, style, param.value, current);
      r := Ok(params + [param.value]);
      more := ParameterSeparator(r.value, style);
    }

    /** The comma that decides whether the parameter loop goes on. */
    method ParameterSeparator(ghost acc: seq<FunctionParam>, ghost style: ParamStyle) returns (more: bool)
      requires Valid()
      modifies this`current
      ensures Valid() && current == if more then old(current) + 1 else old(current)
      ensures more ==> ParameterListAfter(tokens, old(current), acc, style) == ParameterListAt(tokens, current, acc, style)
      ensures !more ==> ParameterListAfter(tokens, old(current), acc, style) == Done(acc, current)
    {
      if CheckAt(tokens, current, Comma) {
        ParameterListComma(tokens, current, acc, style);
      }
      assert MatchesAny(tokens, current, {Comma}) == CheckAt(tokens, current, Comma);
      more := Match({Comma});
    }

    /** A parameter list after its `(`, with the closing `)`. */
    method Parameters(style: ParamStyle) returns (r: Result<seq<FunctionParam>, ParseFailure>)
      requires Valid()
      modifies this`current
      ensures Valid() && Yields(r, ParametersAt(tokens, old(current), style), current)
    {
      var params: seq<FunctionParam> := [];
      if !Check(RParen) {
        var list := ParameterList(style);
        if list.Err? {
          return list;
        }
        params := list.value;
      }
      var close := Consume(RParen, style.CloseMessage());
      if close.Err? {
        return Err(close.error);
      }
      return Ok(params);
    }

    /** An optional `-> Type`. */
    method ReturnType() returns (r: Result<Option<TypeAnnotation>, ParseFailure>)
      requires Valid()
      modifies this`current
      ensures Valid() && Yields(r, ReturnTypeAt(tokens, old(current)), current)
    {
      var arrow := Match({Arrow});
      if !arrow {
        return Ok(None);
      }
      var t := ParseTypeAnnotation();
      if t.Err? {
        return Err(t.error);
      }
      return Ok(Some(t.value));
    }

    /** A function declaration between its name and its body. */
    method FunctionSignature() returns (r: Result<Signature, ParseFailure>)
      requires Valid()
      modifies this`current
      ensures Valid() && Yields(r, SignatureAt(tokens, old(current)), current)
    {
      var open := Consume(LParen, ExpectedFunctionParen);
      if open.Err? {
        return Err(open.error);
      }
      var params := Parameters(FunctionParams);
      if params.Err? {
        return Err(params.error);
      }
      r := SignatureTail(params.value);
    }

    method SignatureTail(params: seq<FunctionParam>) returns (r: Result<Signature, ParseFailure>)
      requires Valid()
      modifies this`current
      ensures Valid() && Yields(r, SignatureTailAt(tokens, old(current), params), current)
    {
      var ret := ReturnType();
      if ret.Err? {
        return Err(ret.error);
      }
      var colon := Consume(Colon, ExpectedBodyColon);
      if colon.Err? {
        return Err(colon.error);
      }
      return Ok(Signature(params, ret.value));
    }

    // -------------------------------------------------------------------
    // Declarations and blocks

    /** `declaration`. A name followed by `:` goes to the variable
        declaration; any other token goes on to the function declaration. */
    method Declaration() returns (r: Result<Stmt, ParseFailure>)
      requires Valid()
      modifies this`current, this`blockStack
      ensures Valid() && Yields(r, DeclarationAt(tokens, old(current)), current)
      ensures r.Ok? ==> blockStack == old(blockStack) && FunctionsOnly(r.value)
      ensures r.Err? ==> PushedFunctions(old(blockStack), blockStack)
      ensures r.Err? && OpensFunction(tokens, old(current)) ==> |old(blockStack)| < |blockStack|
      ensures !OpensFunction(tokens, old(current)) ==> blockStack == old(blockStack)
      decreases |tokens| - current, 2
    {
      ghost var start := current;
      var isVariable := VariableAhead();
      if isVariable {
        VariableDeclarationStep(tokens, start);
        PushedNothing(blockStack);
        r := RefusedVariableDeclaration(Previous());
        return;
      }
      FunctionDeclarationStep(tokens, start);
      r := FunctionDeclaration();
    }

    /** The look-ahead of `declaration`: a name is matched, and when no `:`
        follows it the cursor is moved back onto the name. */
    method VariableAhead() returns (b: bool)
      requires Valid()
      modifies this`current
      ensures Valid()
      ensures b <==> CheckAt(tokens, old(current), TokenKind.Identifier) && CheckAt(tokens, old(current) + 1, Colon)
      ensures current == if b then old(current) + 1 else old(current)
    {
      var isName := Match({TokenKind.Identifier});
      if isName {
        if Check(Colon) {
          return true;
        }
        current := current - 1;
      }
      return false;
    }

    /** The rest of `declaration`: `func` and a name go to the function
        declaration; on any other token the lookup of the ENUM member that
        the token enumeration does not define fails before anything else is
        tried. */
    method FunctionDeclaration() returns (r: Result<Stmt, ParseFailure>)
      requires Valid()
      modifies this`current, this`blockStack
      ensures Valid() && Yields(r, FunctionDeclarationAt(tokens, old(current)), current)
      ensures r.Ok? ==> blockStack == old(blockStack) && FunctionsOnly(r.value)
      ensures r.Err? ==> PushedFunctions(old(blockStack), blockStack)
      ensures r.Err? && OpensFunction(tokens, old(current)) ==> |old(blockStack)| < |blockStack|
      ensures !OpensFunction(tokens, old(current)) ==> blockStack == old(blockStack)
      decreases |tokens| - current, 1
    {
      PushedNothing(blockStack);
      var isFunc := Match({Func});
      if !isFunc {
        return Err(InternalError(NoEnumMember));
      }
      var named := Match({TokenKind.Identifier});
      if !named {
        return Err(ParseError(ExpectedFunctionName, Peek()));
      }
      var name := Previous();
      assert name == tokens[old(current) + 1];
      NamedFunctionStep(tokens, old(current), current);
      r := FinishFunctionDeclaration(name);
    }

    /** `finish_variable_declaration` as `declaration` reaches it: at the
        colon, where no type name can be, so it always fails there. */
    method RefusedVariableDeclaration(name: Token) returns (r: Result<Stmt, ParseFailure>)
      requires Valid() && CheckAt(tokens, current, Colon)
      modifies this`current
      ensures Valid() && current == old(current) && r == Err(ParseError(ExpectedTypeName, tokens[current]))
    {
      VariableDeclarationRefused(tokens, current, name.lexeme);
      r := FinishVariableDeclaration(name);
    }

    /** `finish_variable_declaration`, which starts AT the colon. */
    method FinishVariableDeclaration(name: Token) returns (r: Result<Stmt, ParseFailure>)
      requires Valid()
      modifies this`current
      ensures Valid() && Yields(r, VariableDeclAt(tokens, old(current), name.lexeme), current)
    {
      ghost var start := current;
      var t := ParseTypeAnnotation();
      if t.Err? {
        return Err(t.error);
      }
      ghost var p := current;
      AfterAnnotation(tokens, start, name.lexeme, t.value, p);
      assert MatchesAny(tokens, p, {TokenKind.Assign}) == CheckAt(tokens, p, TokenKind.Assign);
      var assign := Match({TokenKind.Assign});
      if !assign {
        InitializerMissing(tokens, p, name.lexeme, t.value);
        return Err(ParseError(VariablesMustBeInitialized, Peek()));
      }
      ghost var q := current;
      var init := Expression();
      if init.Err? {
        InitializerFailed(tokens, p, name.lexeme, t.value, q, init.error, current);
        return Err(init.error);
      }
      InitializerDone(tokens, p, name.lexeme, t.value, q, init.value, current);
      return Ok(VariableDecl(name.lexeme, t.value, Some(init.value)));
    }

    /** `finish_function_declaration`, after the name. The function record
        is pushed first and popped only after the closing `::`. */
    method FinishFunctionDeclaration(name: Token) returns (r: Result<Stmt, ParseFailure>)
      requires Valid()
      modifies this`current, this`blockStack
      ensures Valid() && Yields(r, FunctionAt(tokens, old(current), name.lexeme), current)
      ensures r.Ok? ==> blockStack == old(blockStack) && FunctionsOnly(r.value)
      ensures r.Err? ==> |old(blockStack)| < |blockStack| && PushedFunctions(old(blockStack), blockStack)
      ensures SignatureAt(tokens, old(current)).Failed? ==>
        blockStack == old(blockStack) + [BlockRecord(FunctionBlock, name.line, name.column)]
      decreases |tokens| - current, 1
    {
      ghost var record := BlockRecord(FunctionBlock, name.line, name.column);
      BeginBlock(FunctionBlock, name.line, name.column);
      r := FunctionParts(name, record);
      if r.Err? {
        PushedAbove(old(blockStack), record, blockStack);
        PushedFunctionsTransitive(old(blockStack), old(blockStack) + [record], blockStack);
      }
    }

    /** The signature and the body of a function whose record is on top of
        the block stack; the body's `::` pops it. */
    method FunctionParts(name: Token, ghost record: BlockRecord) returns (r: Result<Stmt, ParseFailure>)
      requires Valid() && record.kind == FunctionBlock
      requires blockStack != [] && blockStack[|blockStack| - 1] == record
      modifies this`current, this`blockStack
      ensures Valid() && Yields(r, FunctionAt(tokens, old(current), name.lexeme), current)
      ensures r.Ok? ==> blockStack == old(blockStack)[..|old(blockStack)| - 1] && FunctionsOnly(r.value)
      ensures r.Err? ==> PushedFunctions(old(blockStack), blockStack)
      ensures SignatureAt(tokens, old(current)).Failed? ==> blockStack == old(blockStack)
      decreases |tokens| - current, 0
    {
      var signature := FunctionSignature();
      if signature.Err? {
        SignatureFails(tokens, old(current), name.lexeme, signature.error, current);
        return Err(signature.error);
      }
      FunctionAfterSignature(tokens, old(current), name.lexeme, signature.value, current);
      assert blockStack == old(blockStack);
      var body := FunctionBody(record);
      if body.Err? {
        return Err(body.error);
      }
      return Ok(FunctionDeclStmt(FunctionDecl(name.lexeme, signature.value.params, signature.value.returnType, body.value)));
    }

    /** A function body through its `::`, which pops the function's record. */
    method FunctionBody(ghost record: BlockRecord) returns (r: Result<Ast.Block, ParseFailure>)
      requires Valid() && record.kind == FunctionBlock
      requires blockStack != [] && blockStack[|blockStack| - 1] == record
      modifies this`current, this`blockStack
      ensures Valid() && Yields(r, FunctionBodyAt(tokens, old(current)), current)
      ensures r.Ok? ==> blockStack == old(blockStack)[..|old(blockStack)| - 1]
      ensures r.Ok? ==> AllFunctions(r.value.statements)
      ensures r.Err? ==> PushedFunctions(old(blockStack), blockStack)
      decreases |tokens| - current, 5
    {
      var body := Block();
      if body.Err? {
        FunctionBodyBlockFails(tokens, old(current), body.error, current);
        return body;
      }
      FunctionBodyAfterBlock(tokens, old(current), body.value, current);
      var close := Consume(DoubleColon, ExpectedBodyTerminator);
      if close.Err? {
        return Err(close.error);
      }
      var unmatched := EndBlock();
      assert unmatched.None?;
      return body;
    }

    /** `block`: statements up to `::` or EOF, which it does not consume. */
    method Block() returns (r: Result<Ast.Block, ParseFailure>)
      requires Valid()
      modifies this`current, this`blockStack
      ensures Valid() && Yields(r, BlockAt(tokens, old(current)), current)
      ensures r.Ok? ==> blockStack == old(blockStack)
      ensures r.Ok? ==> AllFunctions(r.value.statements)
      ensures r.Err? ==> PushedFunctions(old(blockStack), blockStack)
      decreases |tokens| - current, 4
    {
      Skip({Newline});
      BlockEntry(tokens, old(current), current);
      ghost var goal := BlockAt(tokens, old(current));
      var statements: seq<Stmt> := [];
      while !Check(DoubleColon) && !IsAtEnd()
        invariant Valid() && old(current) <= current
        invariant blockStack == old(blockStack)
        invariant AllFunctions(statements)
        invariant BlockLoopAt(tokens, current, statements) == goal
        decreases |tokens| - current
      {
        var d := BlockStatement(statements);
        if d.Err? {
          return Err(d.error);
        }
        if d.value.Some? {
          AllFunctionsAppend(statements, d.value.value);
          statements := statements + [d.value.value];
        }
      }
      BlockLoopStops(tokens, current, statements);
      return Ok(Ast.Block(statements));
    }

    /** One turn of the loop of `block`: a comment is passed over, a
        declaration is read and the newlines after it skipped. Stated as the
        step it takes in `BlockLoopAt` from the statements read so far. */
    method BlockStatement(ghost acc: seq<Stmt>) returns (r: Result<Option<Stmt>, ParseFailure>)
      requires Valid() && !Check(DoubleColon) && !IsAtEnd()
      modifies this`current, this`blockStack
      ensures Valid()
      ensures r.Err? ==> BlockLoopAt(tokens, old(current), acc) == Failed(r.error, current) && PushedFunctions(old(blockStack), blockStack)
      ensures r.Ok? ==> (old(current) < current && blockStack == old(blockStack) &&
        BlockLoopAt(tokens, old(current), acc) == BlockLoopAt(tokens, current, if r.value.Some? then acc + [r.value.value] else acc))
      ensures r.Ok? && r.value.Some? ==> FunctionsOnly(r.value.value)
      decreases |tokens| - current, 3
    {
      ghost var p := current;
      var isComment := Match({Comment});
      if isComment {
        BlockLoopComment(tokens, p, acc);
        return Ok(None);
      }
      var d := Declaration();
      if d.Err? {
        BlockLoopFails(tokens, p, acc, d.error, current);
        return Err(d.error);
      }
      ghost var q := current;
      Skip({Newline});
      BlockLoopDeclared(tokens, p, acc, d.value, q, current);
      return Ok(Some(d.value));
    }

    /** One turn of the loop of `parse`: skip newlines, then a comment or a
        declaration. A ParseError is reported and the cursor resynchronised;
        any other failure is handed back. */
    method TopLevelDeclaration() returns (d: Option<Stmt>, fatal: Option<ParseFailure>)
      requires Valid() && !IsAtEnd()
      modifies this`current, this`blockStack, this`reported
      ensures Valid()
      ensures var T := TurnAt(tokens, old(current));
        (T.Skipped? ==> d.None? && fatal.None? && current == T.next && reported == old(reported)) &&
        (T.Declared? ==> d == Some(T.stmt) && fatal.None? && current == T.next && reported == old(reported)) &&
        (T.Reported? ==> (d.None? && fatal.None? && current == T.next && reported == old(reported) + [T.error] &&
          (T.unclosed ==> |old(blockStack)| < |blockStack|) && (!T.unclosed ==> blockStack == old(blockStack)))) &&
        (T.Fatal? ==> d.None? && fatal == Some(T.error) && reported == old(reported))
      ensures d.Some? ==> FunctionsOnly(d.value)
      ensures PushedFunctions(old(blockStack), blockStack)
      ensures ReportedSince(old(reported), reported)
      ensures fatal.None? && reported == old(reported) ==> blockStack == old(blockStack)
    {
      PushedNothing(blockStack);
      ReportedNothing(reported);
      Skip({Newline});
      if IsAtEnd() {
        return None, None;
      }
      var isComment := Match({Comment});
      if isComment {
        return None, None;
      }
      d, fatal := RecoveringDeclaration();
    }

    /** One turn of the loop of `parse`, stated as the step it takes in
        `ProgramFrom` from the statements read so far, with `unclosed`
        function blocks left open; the turn opens one more exactly when the
        block stack grows. */
    method NextDeclaration(ghost acc: seq<Stmt>, ghost unclosed: nat) returns (d: Option<Stmt>, fatal: Option<ParseFailure>)
      requires Valid() && !IsAtEnd()
      modifies this`current, this`blockStack, this`reported
      ensures Valid()
      ensures fatal.Some? ==> ProgramFrom(tokens, old(current), acc, old(reported), unclosed) == ProgramRead(acc, old(reported), unclosed, fatal)
      ensures fatal.None? ==> (var grown := |old(blockStack)| < |blockStack|;
        ProgramFrom(tokens, old(current), acc, old(reported), unclosed) ==
          ProgramFrom(tokens, current, if d.Some? then acc + [d.value] else acc, reported, if grown then unclosed + 1 else unclosed) &&
        (!grown ==> blockStack == old(blockStack)))
      ensures fatal.Some? ==> fatal.value.InternalError? && reported == old(reported)
      ensures fatal.None? ==> old(current) < current
      ensures d.Some? ==> FunctionsOnly(d.value)
      ensures PushedFunctions(old(blockStack), blockStack)
      ensures ReportedSince(old(reported), reported)
      ensures fatal.None? && reported == old(reported) ==> blockStack == old(blockStack)
    {
      ProgramTurn(tokens, current, acc, reported, unclosed);
      d, fatal := TopLevelDeclaration();
    }

    /** The `try` around `declaration` in `parse`. */
    method RecoveringDeclaration() returns (d: Option<Stmt>, fatal: Option<ParseFailure>)
      requires Valid()
      modifies this`current, this`blockStack, this`reported
      ensures Valid() && old(current) <= current
      ensures var D := DeclarationAt(tokens, old(current));
        (D.Done? ==> d == Some(D.value) && fatal.None? && current == D.next && reported == old(reported)) &&
        (D.Failed? && D.error.InternalError? ==> d.None? && fatal == Some(D.error) && reported == old(reported)) &&
        (D.Failed? && D.error.ParseError? ==> (d.None? && fatal.None? && current == SyncStop(tokens, D.next) &&
          reported == old(reported) + [D.error]))
      ensures fatal.None? ==> old(current) < current
      ensures d.Some? ==> FunctionsOnly(d.value)
      ensures PushedFunctions(old(blockStack), blockStack)
      ensures ReportedSince(old(reported), reported)
      ensures fatal.None? && reported == old(reported) ==> blockStack == old(blockStack)
      ensures d.None? && OpensFunction(tokens, old(current)) ==> |old(blockStack)| < |blockStack|
      ensures !OpensFunction(tokens, old(current)) ==> blockStack == old(blockStack)
    {
      var r := Declaration();
      if r.Ok? {
        return Some(r.value), None;
      }
      if r.error.InternalError? {
        return None, Some(r.error);
      }
      Recover(r.error);
      return None, None;
    }

    /** The `except ParseError` of `parse`: the error is reported and the
        cursor moved to the next statement boundary. */
    method Recover(e: ParseFailure)
      requires Valid() && |tokens| > 0 && e.ParseError?
      modifies this`current, this`reported
      ensures Valid() && current == SyncStop(tokens, old(current))
      ensures old(current) <= current && (!AtEnd(tokens, old(current)) ==> old(current) < current)
      ensures reported == old(reported) + [e] && ReportedSince(old(reported), reported)
    {
      ReportOne(reported, reported, e);
      reported := reported + [e];
      ghost var at := current;
      Synchronize();
      SyncStopProgress(tokens, at);
    }

    /** One turn of the loop of `parse`, keeping `Reading`. */
    method ParseTurn(ghost stack0: seq<BlockRecord>, ghost log0: seq<ParseFailure>, statements: seq<Stmt>, ghost leftOpen: nat, ghost goal: ProgramRead)
      returns (statements': seq<Stmt>, ghost leftOpen': nat, fatal: Option<ParseFailure>)
      requires Valid() && !IsAtEnd() && Reading(tokens, current, statements, leftOpen, goal, stack0, blockStack, log0, reported)
      modifies this`current, this`blockStack, this`reported
      ensures Valid()
      ensures fatal.None? ==> old(current) < current && Reading(tokens, current, statements', leftOpen', goal, stack0, blockStack, log0, reported)
      ensures fatal.Some? ==> fatal.value.InternalError? && goal == ProgramRead(statements, reported, leftOpen, fatal)
      ensures PushedFunctions(stack0, blockStack) && ReportedSince(log0, reported)
    {
      ghost var stack := blockStack;
      ghost var log := reported;
      var d;
      d, fatal := NextDeclaration(statements, leftOpen);
      PushedFunctionsTransitive(stack0, stack, blockStack);
      ReportedTransitive(log0, log, reported);
      statements', leftOpen' := statements, leftOpen;
      if fatal.Some? {
        return;
      }
      OpenStep(stack0, stack, blockStack, log0, log, reported, leftOpen);
      if |stack| < |blockStack| {
        leftOpen' := leftOpen + 1;
      }
      if d.Some? {
        AllFunctionsAppend(statements, d.value);
        statements' := statements + [d.value];
      }
    }

    /** `parse`: declarations until EOF. A ParseError is reported and
        recovered from by `synchronize`; any other failure ends the parse;
        a block left open at the end is a ParseError that is not caught. The
        statements and the reports are those of `ProgramFrom`; without a
        fatal failure the parse succeeds exactly when it starts with no open
        block and no reported failure left a function block open. */
    method Parse() returns (r: Result<seq<Stmt>, ParseFailure>)
      requires Valid()
      modifies this`current, this`blockStack, this`reported
      ensures Valid()
      ensures var prog := ProgramFrom(tokens, old(current), [], old(reported), 0);
        reported == prog.reported &&
        (prog.fatal.Some? ==> r == Err(prog.fatal.value)) &&
        (prog.fatal.None? ==> ((r.Ok? ==> r.value == prog.statements) && (r.Err? ==> r.error.ParseError?) &&
          (r.Ok? <==> old(blockStack) == [] && prog.unclosed == 0)))
      ensures r.Ok? ==> IsAtEnd() && blockStack == [] && AllFunctions(r.value)
      ensures r.Err? && r.error.ParseError? ==> IsAtEnd() && blockStack != [] && UnclosedBlocks() == Some(r.error)
      ensures PushedFunctions(old(blockStack), blockStack)
      ensures ReportedSince(old(reported), reported)
      ensures old(blockStack) == [] && reported == old(reported) ==> r.Ok? || r.error.InternalError?
      ensures old(blockStack) == [] && r.Err? && r.error.ParseError? ==>
        r.error.message.UnclosedBlock? && r.error.message.kind == FunctionBlock
    {
      ghost var goal := ProgramFrom(tokens, old(current), [], old(reported), 0);
      ghost var leftOpen: nat := 0;
      var statements: seq<Stmt> := [];
      assert old(reported)[..|old(reported)|] == old(reported);
      assert old(blockStack)[..|old(blockStack)|] == old(blockStack);
      while !IsAtEnd()
        invariant Valid() && Reading(tokens, current, statements, leftOpen, goal, old(blockStack), blockStack, old(reported), reported)
        decreases |tokens| - current, if IsAtEnd() then 0 else 1
      {
        var fatal;
        statements, leftOpen, fatal := ParseTurn(old(blockStack), old(reported), statements, leftOpen, goal);
        if fatal.Some? {
          return Err(fatal.value);
        }
      }
      ProgramEnds(tokens, current, statements, reported, leftOpen);
      var unclosed := UnclosedBlocks();
      if unclosed.Some? {
        return Err(unclosed.value);
      }
      return Ok(statements);
    }

    // -------------------------------------------------------------------
    // Statements, each entered just after its keyword

    /** `statement`: dispatch on the token BEFORE the cursor. A ParseError
        inside the statement is caught (`caught`): the parser resynchronises
        from `stopped`, where the failing routine left the cursor, and the
        statement is None. Any other failure passes through. */
    method Statement() returns (r: Result<Option<Stmt>, ParseFailure>, ghost stopped: nat, ghost caught: Option<ParseFailure>)
      requires Valid() && |tokens| > 0
      modifies this`current, this`blockStack
      ensures Valid()
      ensures caught.Some? <==> r == Ok(None)
      ensures caught.Some? ==> caught.value.ParseError? && stopped <= |tokens| && current == SyncStop(tokens, stopped)
      ensures r.Err? ==> r.error.InternalError?
      ensures r.Ok? && r.value.Some? ==> Dispatched(old(Previous().kind), r.value.value)
      ensures var s := StatementAt(tokens, old(current));
        (s.Done? ==> r == Ok(Some(s.value)) && current == s.next) &&
        (s.Failed? && s.error.ParseError? ==> r == Ok(None) && stopped == s.next && current == SyncStop(tokens, s.next)) &&
        (s.Failed? && !s.error.ParseError? ==> r == Err(s.error) && current == s.next)
    {
      caught := None;
      var keyword := Previous().kind;
      var s: Result<Stmt, ParseFailure>;
      if keyword == TokenKind.If {
        s := IfStatement();
      } else if keyword == TokenKind.For {
        s := ForStatement();
      } else if keyword == TokenKind.While {
        s := WhileStatement();
      } else if keyword == TokenKind.Return {
        s := ReturnStatement();
      } else {
        s := ExpressionStatement();
      }
      stopped := current;
      if s.Err? {
        if s.error.ParseError? {
          caught := Some(s.error);
          Synchronize();
          return Ok(None), stopped, caught;
        }
        return Err(s.error), stopped, caught;
      }
      return Ok(Some(s.value)), stopped, caught;
    }

    /** `expression_statement`: newlines, an expression, newlines. */
    method ExpressionStatement() returns (r: Result<Stmt, ParseFailure>)
      requires Valid()
      modifies this`current
      ensures Valid()
      ensures Yields(r, ExpressionStatementAt(tokens, old(current)), current)
    {
      Skip({Newline});
      var e := Expression();
      if e.Err? {
        return Err(e.error);
      }
      Skip({Newline});
      return Ok(ExpressionStmt(e.value));
    }

    /** `return_statement`: a value unless `::` follows at once. */
    method ReturnStatement() returns (r: Result<Stmt, ParseFailure>)
      requires Valid()
      modifies this`current
      ensures Valid()
      ensures Yields(r, ReturnAt(tokens, old(current)), current)
    {
      if Check(DoubleColon) {
        return Ok(Stmt.ReturnStatement(None));
      }
      var e := Expression();
      if e.Err? {
        return Err(e.error);
      }
      return Ok(Stmt.ReturnStatement(Some(e.value)));
    }

    /** `while_statement`: the record pushed for the `while` keyword is
        popped exactly when the body's `::` follows. */
    method WhileStatement() returns (r: Result<Stmt, ParseFailure>)
      requires Valid() && |tokens| > 0
      modifies this`current, this`blockStack
      ensures Valid() && Yields(r, WhileAt(tokens, old(current)), current)
      ensures r.Ok? ==> blockStack == old(blockStack)
      ensures r.Err? ==> PushedFunctions(old(blockStack) + [BlockRecord(WhileBlock, PreviousAt(tokens, old(current)).line, PreviousAt(tokens, old(current)).column)], blockStack)
    {
      var keyword := Previous();
      BeginBlock(WhileBlock, keyword.line, keyword.column);
      var condition := Expression();
      if condition.Err? {
        WhileConditionFails(tokens, old(current), condition.error, current);
        return Err(condition.error);
      }
      WhileColon(tokens, old(current), condition.value, current);
      var colon := Consume(Colon, ExpectedWhileColon);
      if colon.Err? {
        return Err(colon.error);
      }
      var body := TerminatedBody(WhileBlock, BlockRecord(WhileBlock, keyword.line, keyword.column));
      if body.Err? {
        return Err(body.error);
      }
      return Ok(WhileLoop(condition.value, body.value));
    }

    /** The body of an if, for or while block and the `::` that must follow
        it, which pops the block's record; without it the error names the
        line of the token before the cursor. */
    method TerminatedBody(kind: BlockKind, ghost record: BlockRecord) returns (r: Result<Ast.Block, ParseFailure>)
      requires Valid() && |tokens| > 0
      requires blockStack != [] && blockStack[|blockStack| - 1] == record
      modifies this`current, this`blockStack
      ensures Valid() && Yields(r, TerminatedAt(tokens, old(current), kind), current)
      ensures r.Ok? ==> blockStack == old(blockStack)[..|old(blockStack)| - 1]
      ensures r.Err? ==> PushedFunctions(old(blockStack), blockStack)
    {
      var body := Block();
      if body.Err? {
        TerminatedBlockFails(tokens, old(current), kind, body.error, current);
        return body;
      }
      TerminatedAfterBlock(tokens, old(current), kind, body.value, current);
      var missing := Terminator(kind, record);
      if missing.Some? {
        return Err(missing.value);
      }
      return body;
    }

    /** The `::` after the body of an if, for or while block, which pops the
        block's record; without it the error names the line of the token
        before the cursor. */
    method Terminator(kind: BlockKind, ghost record: BlockRecord) returns (missing: Option<ParseFailure>)
      requires Valid() && |tokens| > 0
      requires blockStack != [] && blockStack[|blockStack| - 1] == record
      modifies this`current, this`blockStack
      ensures Valid()
      ensures CheckAt(tokens, old(current), DoubleColon) ==>
        missing.None? && current == old(current) + 1 && blockStack == old(blockStack)[..|old(blockStack)| - 1]
      ensures !CheckAt(tokens, old(current), DoubleColon) ==>
        missing == Some(ParseError(MissingTerminator(kind, PreviousAt(tokens, old(current)).line), PeekAt(tokens, old(current)))) &&
        current == old(current) && blockStack == old(blockStack)
    {
      var closed := Match({DoubleColon});
      if !closed {
        return Some(ParseError(MissingTerminator(kind, Previous().line), Peek()));
      }
      var unmatched := EndBlock();
      assert unmatched.None?;
      return None;
    }

    /** `for_statement`: the record pushed for the `for` keyword is popped
        exactly when the body's `::` follows. */
    method ForStatement() returns (r: Result<Stmt, ParseFailure>)
      requires Valid() && |tokens| > 0
      modifies this`current, this`blockStack
      ensures Valid() && Yields(r, ForAt(tokens, old(current)), current)
      ensures r.Ok? ==> blockStack == old(blockStack)
      ensures r.Err? ==> PushedFunctions(old(blockStack) + [BlockRecord(ForBlock, PreviousAt(tokens, old(current)).line, PreviousAt(tokens, old(current)).column)], blockStack)
    {
      var keyword := Previous();
      BeginBlock(ForBlock, keyword.line, keyword.column);
      var header := ForLoopHeader();
      if header.Err? {
        ForHeaderFails(tokens, old(current), header.error, current);
        return Err(header.error);
      }
      ForAfterHeader(tokens, old(current), header.value, current);
      var body := TerminatedBody(ForBlock, BlockRecord(ForBlock, keyword.line, keyword.column));
      if body.Err? {
        return Err(body.error);
      }
      var h := header.value;
      return Ok(ForLoop(h.variable, h.start, h.end, h.step, body.value, h.inclusive));
    }

    /** The header of a for loop after `for`, through the `:`. */
    method ForLoopHeader() returns (r: Result<ForHeader, ParseFailure>)
      requires Valid()
      modifies this`current
      ensures Valid() && Yields(r, ForHeaderAt(tokens, old(current)), current)
    {
      var name := Consume(TokenKind.Identifier, ExpectedIteratorName);
      if name.Err? {
        return Err(name.error);
      }
      var keyword := Consume(In, ExpectedIn);
      if keyword.Err? {
        return Err(keyword.error);
      }
      r := ForRange(name.value.lexeme);
    }

    /** The start of a for loop's range and its `to` or `thru`. */
    method ForRange(variable: string) returns (r: Result<ForHeader, ParseFailure>)
      requires Valid()
      modifies this`current
      ensures Valid() && Yields(r, ForRangeAt(tokens, old(current), variable), current)
    {
      var start := Expression();
      if start.Err? {
        return Err(start.error);
      }
      if Check(To) {
        Advance();
        r := ForEnd(variable, start.value, false);
        return;
      }
      if Check(Thru) {
        Advance();
        r := ForEnd(variable, start.value, true);
        return;
      }
      return Err(ParseError(ExpectedRangeKeyword, Peek()));
    }

    /** The end of a for loop's range, its step and the `:`. */
    method ForEnd(variable: string, start: Expr, inclusive: bool) returns (r: Result<ForHeader, ParseFailure>)
      requires Valid()
      modifies this`current
      ensures Valid() && Yields(r, ForEndAt(tokens, old(current), variable, start, inclusive), current)
    {
      var end := Expression();
      if end.Err? {
        return Err(end.error);
      }
      var step := Step();
      if step.Err? {
        return Err(step.error);
      }
      var colon := Consume(Colon, ExpectedForColon);
      if colon.Err? {
        return Err(colon.error);
      }
      return Ok(ForHeader(variable, start, end.value, step.value, inclusive));
    }

    /** An optional `by` step. */
    method Step() returns (r: Result<Option<Expr>, ParseFailure>)
      requires Valid()
      modifies this`current
      ensures Valid() && Yields(r, StepAt(tokens, old(current)), current)
    {
      var hasStep := Match({By});
      if !hasStep {
        return Ok(None);
      }
      var step := Expression();
      if step.Err? {
        return Err(step.error);
      }
      return Ok(Some(step.value));
    }

    /** `if_statement`. Plain `if` and `if`/`else` return with the stack as
        they found it; `else if` pushes a record for the `if` after `else`
        and returns without popping it. */
    method IfStatement() returns (r: Result<Stmt, ParseFailure>)
      requires Valid() && |tokens| > 0
      modifies this`current, this`blockStack
      ensures Valid() && old(current) <= current && Yields(r, IfAt(tokens, old(current)), current)
      ensures r.Ok? ==> (ExpressionAt(tokens, old(current)).Done? && r.value.IfStatement? &&
        r.value.condition == ExpressionAt(tokens, old(current)).value)
      ensures r.Ok? ==> |r.value.elifBranches| <= 1 && (r.value.elifBranches != [] ==> r.value.elseBranch.None?)
      ensures r.Ok? && r.value.elifBranches == [] ==> blockStack == old(blockStack)
      ensures r.Ok? && r.value.elifBranches != [] ==> (
        |blockStack| == |old(blockStack)| + 1 && blockStack[..|old(blockStack)|] == old(blockStack) &&
        blockStack[|old(blockStack)|].kind == ElseIfBlock)
      ensures r.Err? ==> |old(blockStack)| < |blockStack| && blockStack[..|old(blockStack)|] == old(blockStack)
    {
      ghost var at := current;
      var keyword := Previous();
      ghost var record := BlockRecord(IfBlock, keyword.line, keyword.column);
      BeginBlock(IfBlock, keyword.line, keyword.column);
      var condition := Expression();
      if condition.Err? {
        IfConditionFails(tokens, at, condition.error, current);
        return Err(condition.error);
      }
      ghost var p := current;
      var colon := Consume(Colon, ExpectedIfColon);
      if colon.Err? {
        IfColonMissing(tokens, at, condition.value, p);
        return Err(colon.error);
      }
      Skip({Newline});
      r := IfThen(condition.value, old(blockStack), record);
    }

    /** The rest of `if_statement` from the then-block on, with the if
        block's record on top of the stack: the then-block, its `::`, which
        pops the record, newlines and the `else` tail. */
    method IfThen(condition: Expr, ghost below: seq<BlockRecord>, ghost record: BlockRecord) returns (r: Result<Stmt, ParseFailure>)
      requires Valid() && |tokens| > 0 && blockStack == below + [record]
      modifies this`current, this`blockStack
      ensures Valid() && Yields(r, IfThenAt(tokens, old(current), condition), current)
      ensures r.Ok? ==> |r.value.elifBranches| <= 1 && (r.value.elifBranches != [] ==> r.value.elseBranch.None?)
      ensures r.Ok? && r.value.elifBranches == [] ==> blockStack == below
      ensures r.Ok? && r.value.elifBranches != [] ==> (
        |blockStack| == |below| + 1 && blockStack[..|below|] == below && blockStack[|below|].kind == ElseIfBlock)
      ensures r.Err? ==> |below| < |blockStack| && blockStack[..|below|] == below
    {
      ghost var q := current;
      var thenBranch := TerminatedBody(IfBlock, record);
      if thenBranch.Err? {
        IfThenFails(tokens, q, condition, thenBranch.error, current);
        PushedAbove(below, record, blockStack);
        return Err(thenBranch.error);
      }
      ghost var n := current;
      Skip({Newline});
      ghost var m := current;
      var tail := ElseTail();
      IfThenTail(tokens, q, condition, thenBranch.value, n, m);
      if tail.Err? {
        return Err(tail.error);
      }
      return Ok(Stmt.IfStatement(condition, thenBranch.value, tail.value.0, tail.value.1));
    }

    /** What follows the `::` of an if block: nothing, `else if` with a
        condition and a body left open, or `else` with a terminated body. */
    method ElseTail() returns (r: Result<(seq<ElifBranch>, Option<Ast.Block>), ParseFailure>)
      requires Valid()
      modifies this`current, this`blockStack
      ensures Valid() && old(current) <= current && Yields(r, ElseTailAt(tokens, old(current)), current)
      ensures !CheckAt(tokens, old(current), Else) ==> r == Ok(([], None)) && current == old(current) && blockStack == old(blockStack)
      ensures r.Ok? ==> |r.value.0| <= 1 && (r.value.0 != [] ==> r.value.1.None?)
      ensures r.Ok? && r.value.0 == [] ==> blockStack == old(blockStack)
      ensures r.Ok? && r.value.0 != [] ==> (old(current) + 1 < |tokens| &&
        blockStack == old(blockStack) + [BlockRecord(ElseIfBlock, tokens[old(current) + 1].line, tokens[old(current) + 1].column)] &&
        ExpressionAt(tokens, old(current) + 2).Done? && r.value.0[0].condition == ExpressionAt(tokens, old(current) + 2).value)
      ensures r.Err? ==> |old(blockStack)| < |blockStack| && blockStack[..|old(blockStack)|] == old(blockStack)
    {
      ghost var at := current;
      var isElse := Match({Else});
      if !isElse {
        return Ok(([], None));
      }
      r := ElseClause(at);
    }

    /** The rest of an else tail once its `else` (at `at`) is consumed. */
    method ElseClause(ghost at: nat) returns (r: Result<(seq<ElifBranch>, Option<Ast.Block>), ParseFailure>)
      requires Valid() && current == at + 1 && CheckAt(tokens, at, Else)
      modifies this`current, this`blockStack
      ensures Valid() && old(current) <= current && Yields(r, ElseTailAt(tokens, at), current)
      ensures r.Ok? ==> |r.value.0| <= 1 && (r.value.0 != [] ==> r.value.1.None?)
      ensures r.Ok? && r.value.0 == [] ==> blockStack == old(blockStack)
      ensures r.Ok? && r.value.0 != [] ==> (at + 1 < |tokens| &&
        blockStack == old(blockStack) + [BlockRecord(ElseIfBlock, tokens[at + 1].line, tokens[at + 1].column)] &&
        ExpressionAt(tokens, at + 2).Done? && r.value.0[0].condition == ExpressionAt(tokens, at + 2).value)
      ensures r.Err? ==> |old(blockStack)| < |blockStack| && blockStack[..|old(blockStack)|] == old(blockStack)
    {
      var isElseIf := Match({TokenKind.If});
      var keyword := Previous();
      if isElseIf {
        assert current == at + 2 && keyword == tokens[at + 1];
        ElseTailElseIf(tokens, at, current);
        var branch := ElseIfTail(keyword);
        if branch.Err? {
          return Err(branch.error);
        }
        return Ok(([branch.value], None));
      }
      var body := ElseBlockTail(keyword);
      if body.Err? {
        return Err(body.error);
      }
      return Ok(([], Some(body.value)));
    }

    /** After `else if`: the condition and a body, left open in an else-if
        block record. */
    method ElseIfTail(keyword: Token) returns (r: Result<ElifBranch, ParseFailure>)
      requires Valid()
      modifies this`current, this`blockStack
      ensures Valid() && old(current) <= current && Yields(r, ElseIfAt(tokens, old(current)), current)
      ensures r.Ok? ==> (blockStack == old(blockStack) + [BlockRecord(ElseIfBlock, keyword.line, keyword.column)] &&
        ExpressionAt(tokens, old(current)).Done? && r.value.condition == ExpressionAt(tokens, old(current)).value)
      ensures r.Err? ==> |old(blockStack)| < |blockStack| && blockStack[..|old(blockStack)|] == old(blockStack)
    {
      ghost var at := current;
      ghost var record := BlockRecord(ElseIfBlock, keyword.line, keyword.column);
      BeginBlock(ElseIfBlock, keyword.line, keyword.column);
      var condition := Expression();
      if condition.Err? {
        ElseIfConditionFails(tokens, at, condition.error, current);
        PushedAbove(old(blockStack), record, blockStack);
        return Err(condition.error);
      }
      ghost var p := current;
      var colon := Consume(Colon, ExpectedElseIfColon);
      if colon.Err? {
        ElseIfColonMissing(tokens, at, condition.value, p);
        PushedAbove(old(blockStack), record, blockStack);
        return Err(colon.error);
      }
      Skip({Newline});
      ghost var q := current;
      var body := Block();
      if body.Err? {
        ElifBodyFails(tokens, q, condition.value, body.error, current);
        PushedAbove(old(blockStack), record, blockStack);
        return Err(body.error);
      }
      ElifBodyDone(tokens, q, condition.value, body.value, current);
      return Ok(ElifBranch(condition.value, body.value));
    }

    /** After a plain `else`: `:`, a body, and the `::` that closes the else
        block record it opens. */
    method ElseBlockTail(keyword: Token) returns (r: Result<Ast.Block, ParseFailure>)
      requires Valid()
      modifies this`current, this`blockStack
      ensures Valid() && old(current) <= current && Yields(r, ElseBlockAt(tokens, old(current)), current)
      ensures r.Ok? ==> blockStack == old(blockStack)
      ensures r.Err? ==> |old(blockStack)| < |blockStack| && blockStack[..|old(blockStack)|] == old(blockStack)
    {
      ghost var at := current;
      ghost var record := BlockRecord(ElseBlock, keyword.line, keyword.column);
      BeginBlock(ElseBlock, keyword.line, keyword.column);
      var colon := Consume(Colon, ExpectedElseColon);
      if colon.Err? {
        ElseColonMissing(tokens, at);
        PushedAbove(old(blockStack), record, blockStack);
        return Err(colon.error);
      }
      Skip({Newline});
      ghost var q := current;
      var body := Block();
      if body.Err? {
        PushedAbove(old(blockStack), record, blockStack);
        return Err(body.error);
      }
      ElseBodyClosed(tokens, q, body.value, current);
      assert blockStack == old(blockStack) + [record];
      assert blockStack[..|old(blockStack)|] == old(blockStack);
      var close := Consume(DoubleColon, ExpectedElseTerminator);
      if close.Err? {
        return Err(close.error);
      }
      var unmatched := EndBlock();
      assert unmatched.None? && blockStack == old(blockStack);
      return Ok(body.value);
    }

    // -------------------------------------------------------------------
    // Enum and protocol declarations, entered just after their keyword

    /** `enum_declaration` as written: after the name, the lookup of the
        CONFORMANCE member that the token enumeration does not define fails. */
    method EnumDeclaration() returns (r: Result<Stmt, ParseFailure>)
      requires Valid()
      modifies this`current
      ensures Valid()
      ensures CheckAt(tokens, old(current), TokenKind.Identifier) ==> r == Err(InternalError(NoConformanceMember)) && current == old(current) + 1
      ensures !CheckAt(tokens, old(current), TokenKind.Identifier) ==> (
        r == Err(ParseError(ExpectedEnumName, PeekAt(tokens, old(current)))) && current == old(current))
    {
      var name := Consume(TokenKind.Identifier, ExpectedEnumName);
      if name.Err? {
        return Err(name.error);
      }
      return Err(InternalError(NoConformanceMember));
    }

    /** The rest of `enum_declaration` after the name and the conformance
        test, which the routine as written never reaches: `:`, the variants
        inside an enum record of the block stack, and `::`. */
    method EnumBody(name: Token, conformance: Option<string>) returns (r: Result<Stmt, ParseFailure>)
      requires Valid()
      modifies this`current, this`blockStack
      ensures Valid() && Yields(r, EnumBodyAt(tokens, old(current), name.lexeme, conformance), current)
      ensures r.Ok? || !CheckAt(tokens, old(current), Colon) ==> blockStack == old(blockStack)
      ensures r.Err? && CheckAt(tokens, old(current), Colon) ==> blockStack == old(blockStack) + [BlockRecord(EnumBlock, name.line, name.column)]
    {
      ghost var start := current;
      var colon := Consume(Colon, ExpectedEnumColon);
      if colon.Err? {
        return Err(colon.error);
      }
      assert current == start + 1 && CheckAt(tokens, start, Colon);
      ghost var inner := current;
      ghost var stack := blockStack;
      BeginBlock(EnumBlock, name.line, name.column);
      Skip(Layout);
      ghost var first := current;
      var variants := Variants();
      ghost var mid := current;
      EnumBodyEntry(tokens, start, name.lexeme, conformance, inner, first, variants, mid);
      var close := Consume(DoubleColon, ExpectedEnumTerminator);
      if close.Err? {
        assert EnumCloseAt(tokens, mid, name.lexeme, variants, conformance) == Failed(close.error, mid);
        return Err(close.error);
      }
      assert EnumCloseAt(tokens, mid, name.lexeme, variants, conformance) == Done(Stmt.EnumDeclaration(name.lexeme, variants, conformance), current);
      var unmatched := EndBlock();
      assert unmatched.None? && blockStack == stack;
      return Ok(Stmt.EnumDeclaration(name.lexeme, variants, conformance));
    }

    /** The variant loop of an enum body. */
    method Variants() returns (variants: seq<string>)
      requires Valid()
      modifies this`current
      ensures Valid() && VariantsAt(tokens, old(current), []) == Done(variants, current)
    {
      variants := [];
      while !Check(DoubleColon) && !IsAtEnd()
        invariant Valid() && old(current) <= current
        invariant VariantsAt(tokens, current, variants) == VariantsAt(tokens, old(current), [])
        decreases |tokens| - current
      {
        var name := NextVariant(variants);
        if name.None? {
          return;
        }
        variants := variants + [name.value];
      }
    }

    /** One turn of the variant loop: layout, then a variant name and the
        layout after it, or the end of the loop before a non-identifier. */
    method NextVariant(ghost acc: seq<string>) returns (name: Option<string>)
      requires Valid() && !Check(DoubleColon) && !IsAtEnd()
      modifies this`current
      ensures Valid()
      ensures name.None? ==> VariantsAt(tokens, old(current), acc) == Done(acc, current)
      ensures name.Some? ==> (old(current) < current &&
        VariantsAt(tokens, old(current), acc) == VariantsAt(tokens, current, acc + [name.value]))
    {
      ghost var before := current;
      Skip(Layout);
      if !Check(TokenKind.Identifier) {
        VariantsStop(tokens, before, acc, current);
        return None;
      }
      ghost var at := current;
      VariantsStep(tokens, before, acc, at);
      Advance();
      var token := Previous();
      assert token == tokens[at];
      Skip(Layout);
      return Some(token.lexeme);
    }

    /** `protocol_declaration`: the protocol record is pushed after the
        name's `:` and popped after the closing `::`. */
    method ProtocolDeclaration() returns (r: Result<Stmt, ParseFailure>)
      requires Valid()
      modifies this`current, this`blockStack
      ensures Valid() && Yields(r, ProtocolAt(tokens, old(current)), current)
      ensures r.Ok? || !(CheckAt(tokens, old(current), TokenKind.Identifier) && CheckAt(tokens, old(current) + 1, Colon)) ==> (
        blockStack == old(blockStack))
      ensures r.Err? && CheckAt(tokens, old(current), TokenKind.Identifier) && CheckAt(tokens, old(current) + 1, Colon) ==> (
        blockStack == old(blockStack) + [BlockRecord(ProtocolBlock, tokens[old(current)].line, tokens[old(current)].column)])
    {
      var name := Consume(TokenKind.Identifier, ExpectedProtocolName);
      if name.Err? {
        return Err(name.error);
      }
      var colon := Consume(Colon, ExpectedProtocolColon);
      if colon.Err? {
        return Err(colon.error);
      }
      BeginBlock(ProtocolBlock, name.value.line, name.value.column);
      r := ProtocolBody(name.value.lexeme);
      if r.Ok? {
        var unmatched := EndBlock();
        assert unmatched.None?;
      }
    }

    /** A protocol body after the `:`, through the `::`. */
    method ProtocolBody(name: string) returns (r: Result<Stmt, ParseFailure>)
      requires Valid()
      modifies this`current
      ensures Valid() && Yields(r, ProtocolBodyAt(tokens, old(current), name), current)
    {
      Skip(Layout);
      var members := ProtocolMembers();
      if members.Err? {
        return Err(members.error);
      }
      var close := Consume(DoubleColon, ExpectedProtocolTerminator);
      if close.Err? {
        return Err(close.error);
      }
      return Ok(Stmt.ProtocolDeclaration(name, members.value.properties, members.value.methods));
    }

    /** The member loop of a protocol body. */
    method ProtocolMembers() returns (r: Result<Members, ParseFailure>)
      requires Valid()
      modifies this`current
      ensures Valid() && Yields(r, MembersAt(tokens, old(current), Members([], [])), current)
    {
      var acc := Members([], []);
      while !Check(DoubleColon) && !IsAtEnd()
        invariant Valid() && old(current) <= current
        invariant MembersAt(tokens, current, acc) == MembersAt(tokens, old(current), Members([], []))
        decreases |tokens| - current
      {
        MembersEnter(tokens, current, acc);
        Skip(Layout);
        var next, more := NextMember(acc);
        if next.Err? {
          return Err(next.error);
        }
        acc := next.value;
        if !more {
          return Ok(acc);
        }
      }
      return Ok(acc);
    }

    /** One turn of the member loop after the layout tokens: `empty` and the
        layout after it end the list, a name starts a member, anything else
        ends the list. */
    method NextMember(acc: Members) returns (r: Result<Members, ParseFailure>, more: bool)
      requires Valid()
      modifies this`current
      ensures Valid() && old(current) <= current && (more ==> old(current) < current)
      ensures r.Err? ==> NextMemberAt(tokens, old(current), acc) == Failed(r.error, current)
      ensures r.Ok? && more ==> NextMemberAt(tokens, old(current), acc) == MembersAt(tokens, current, r.value)
      ensures r.Ok? && !more ==> NextMemberAt(tokens, old(current), acc) == Done(r.value, current)
    {
      if Check(Empty) {
        ghost var at := current;
        NextMemberEnds(tokens, at, acc);
        Advance();
        assert current == at + 1;
        Skip(Layout);
        return Ok(acc), false;
      }
      if !Check(TokenKind.Identifier) {
        NextMemberEnds(tokens, current, acc);
        return Ok(acc), false;
      }
      r := NamedMember(acc);
      more := true;
    }

    /** One named member of a protocol body and the layout after it. */
    method NamedMember(acc: Members) returns (r: Result<Members, ParseFailure>)
      requires Valid() && CheckAt(tokens, current, TokenKind.Identifier)
      modifies this`current
      ensures Valid() && old(current) < current
      ensures r.Ok? ==> NextMemberAt(tokens, old(current), acc) == MembersAt(tokens, current, r.value)
      ensures r.Err? ==> NextMemberAt(tokens, old(current), acc) == Failed(r.error, current)
    {
      ghost var at := current;
      Advance();
      var m := Member(Previous().lexeme);
      if m.Err? {
        NextMemberFails(tokens, at, acc, m.error, current);
        return Err(m.error);
      }
      MembersStep(tokens, at, acc, m.value, current);
      Skip(Layout);
      return Ok(acc.With(m.value));
    }

    /** A protocol member after its name. */
    method Member(name: string) returns (r: Result<Member, ParseFailure>)
      requires Valid()
      modifies this`current
      ensures Valid() && Yields(r, MemberAt(tokens, old(current), name), current)
    {
      ghost var start := current;
      if Check(Colon) {
        Advance();
        MemberEntry(tokens, start, name, current);
        var t := ParseTypeAnnotation();
        if t.Err? {
          return Err(t.error);
        }
        return Ok(PropertyMember(ProtocolProperty(name, t.value)));
      }
      if Check(LParen) {
        Advance();
        MemberEntry(tokens, start, name, current);
        var params := Parameters(MemberParams);
        if params.Err? {
          return Err(params.error);
        }
        var ret := ReturnType();
        if ret.Err? {
          return Err(ret.error);
        }
        return Ok(MethodMember(ProtocolMethod(name, params.value, ret.value)));
      }
      return Err(ParseError(ExpectedMemberForm, Peek()));
    }
  }

  /** `parse` over `func NAME ( ) :` and EOF: the missing `::` is reported,
      and the function block it leaves open makes the parse fail with the
      unclosed-block error rather than succeed with no statements. */
  method ParseUnterminatedFunction(toks: seq<Token>) returns (r: Result<seq<Stmt>, ParseFailure>, reported: seq<ParseFailure>)
    requires UnterminatedFunction(toks, 0)
    ensures reported == [ParseError(ExpectedBodyTerminator, toks[5])]
    ensures r.Err? && r.error.ParseError? && r.error.message.UnclosedBlock? && r.error.message.kind == FunctionBlock
  {
    var parser := new Parser(toks);
    UnterminatedFunctionLeftOpen(toks, 0);
    r := parser.Parse();
    reported := parser.reported;
  }
}
