/** The character-level scanner of noir_lexer.py.

    The class `Lexer` keeps the source's mutable cursor (`pos`, `line`,
    `column`) and its growing token list, and each scanning method is proved
    against a pure reference definition of one lexing step (`Step`) and of a
    whole run (`LexFrom`, `Lexed`). The lemmas at the end state what the
    lexer promises of every input. */
module Lexer {
  import opened Common
  import opened Tokens

  // ---------------------------------------------------------------------
  // Character classes (ASCII; noir_lexer.py:154-164)

  predicate IsWhitespaceChar(c: char) { c == ' ' || c == '\t' || c == '\r' }
  predicate IsDigitChar(c: char) { '0' <= c <= '9' }
  predicate IsAlphaChar(c: char) { 'a' <= c <= 'z' || 'A' <= c <= 'Z' || c == '_' }
  predicate IsNumberChar(c: char) { IsDigitChar(c) || c == '.' }
  predicate IsWordChar(c: char) { IsAlphaChar(c) || IsDigitChar(c) }

  // ---------------------------------------------------------------------
  // Source positions

  /** The line the lexer is on after consuming `src[..k]`: one more per newline. */
  function Line(src: string, k: nat): int
    requires k <= |src|
  {
    if k == 0 then 1 else Line(src, k - 1) + (if src[k - 1] == '\n' then 1 else 0)
  }

  /** The column the lexer is on after consuming `src[..k]`: reset to 1 by a newline. */
  function Column(src: string, k: nat): int
    requires k <= |src|
  {
    if k == 0 then 1 else if src[k - 1] == '\n' then 1 else Column(src, k - 1) + 1
  }

  /** `add_token` stamps a token with the line and with the column minus the
      length of its text, at the position reached when it is added. */
  function MakeToken(src: string, kind: TokenKind, value: string, at: nat): Token
    requires at <= |src|
  {
    Token(kind, value, Line(src, at), Column(src, at) - |value|)
  }

  // ---------------------------------------------------------------------
  // Errors and the reference definition of one lexing step

  datatype LexErrorKind =
    | InvalidNumberFormat
    | InvalidEscape(escaped: string)
    | UnterminatedString
    | UnterminatedChar
    | InvalidCharLiteral
    | InvalidCharacter(c: char)

  /** `LexerError`, with the line and column its message reports. */
  datatype LexerError = LexerError(kind: LexErrorKind, line: int, column: int)

  function ErrorAt(src: string, kind: LexErrorKind, at: nat): LexerError
    requires at <= |src|
  {
    LexerError(kind, Line(src, at), Column(src, at))
  }

  /** The effect of one scanning routine: where the cursor ends and what it appends. */
  datatype Scan = Scan(next: nat, emitted: seq<Token>)

  /** The two-character operators, tried before their one-character prefixes. */
  function TwoCharKind(c: char, d: char): Option<TokenKind> {
    if c == ':' && d == ':' then Some(DoubleColon)
    else if c == '-' && d == '>' then Some(Arrow)
    else if c == '=' && d == '=' then Some(Equals)
    else if c == '!' && d == '=' then Some(NotEquals)
    else if c == '<' && d == '=' then Some(LessEqual)
    else if c == '>' && d == '=' then Some(GreaterEqual)
    else None
  }

  /** The one-character table `token_map` (noir_lexer.py:333-348). */
  function SingleCharKind(c: char): Option<TokenKind> {
    match c
    case '+' => Some(Plus) case '-' => Some(Minus) case '*' => Some(Multiply)
    case '%' => Some(Modulo) case '=' => Some(Assign) case '<' => Some(LessThan)
    case '>' => Some(GreaterThan) case '(' => Some(LParen) case ')' => Some(RParen)
    case '[' => Some(LBracket) case ']' => Some(RBracket) case ':' => Some(Colon)
    case ',' => Some(Comma) case '.' => Some(Dot)
    case _ => None
  }

  // Numbers -----------------------------------------------------------------

  /** Where `scan_number` stops: at the first character that is neither a digit
      nor a dot, or at a dot when one has been seen already. */
  function NumberStop(src: string, i: nat, seenDot: bool): (f: nat)
    requires i <= |src|
    ensures i <= f <= |src|
    decreases |src| - i
  {
    if i == |src| || !IsNumberChar(src[i]) || (src[i] == '.' && seenDot) then i
    else NumberStop(src, i + 1, seenDot || src[i] == '.')
  }

  lemma NumberStopStep(src: string, i: nat, seenDot: bool)
    requires i < |src| && IsNumberChar(src[i]) && !(src[i] == '.' && seenDot)
    ensures NumberStop(src, i, seenDot) == NumberStop(src, i + 1, seenDot || src[i] == '.')
  {
  }

  /** Text before the first dot (all of `s` when it has none). */
  function FirstSegment(s: string): string
    decreases |s|
  {
    if |s| == 0 then ""
    else if '.' in s[..|s| - 1] then FirstSegment(s[..|s| - 1])
    else if s[|s| - 1] == '.' then s[..|s| - 1]
    else s
  }

  /** Text after the last dot, Python's `s.split('.')[-1]`. */
  function LastSegment(s: string): string
    decreases |s|
  {
    if |s| == 0 then "" else if s[|s| - 1] == '.' then "" else LastSegment(s[..|s| - 1]) + [s[|s| - 1]]
  }

  /** The kind of a number literal: INTEGER_LIT without a dot; with one dot,
      DOUBLE_LIT when the integer part has at least 8 digits or the fraction at
      least 9, FLOAT_LIT otherwise (noir_lexer.py:166-187). */
  function NumberKind(run: string): TokenKind {
    if '.' !in run then IntegerLit
    else if |FirstSegment(run)| >= 8 || |LastSegment(run)| >= 9 then DoubleLit
    else FloatLit
  }

  function NumberStep(src: string, start: nat): Result<Scan, LexerError>
    requires start <= |src|
  {
    var f := NumberStop(src, start, false);
    if f < |src| && src[f] == '.' then Err(ErrorAt(src, InvalidNumberFormat, f))
    else Ok(Scan(f, [MakeToken(src, NumberKind(src[start..f]), src[start..f], f)]))
  }

  // Identifiers and comments ------------------------------------------------

  /** The end of the run of letters, digits and underscores starting at `i`. */
  function WordEnd(src: string, i: nat): (e: nat)
    requires i <= |src|
    ensures i <= e <= |src|
    ensures forall j :: i <= j < e ==> IsWordChar(src[j])
    ensures e == |src| || !IsWordChar(src[e])
    decreases |src| - i
  {
    if i == |src| || !IsWordChar(src[i]) then i else WordEnd(src, i + 1)
  }

  function IdentifierStep(src: string, start: nat): Result<Scan, LexerError>
    requires start <= |src|
  {
    var e := WordEnd(src, start);
    Ok(Scan(e, [MakeToken(src, WordKind(src[start..e]), src[start..e], e)]))
  }

  /** The first newline at or after `i`, or the end of the source. */
  function LineEnd(src: string, i: nat): (e: nat)
    requires i <= |src|
    ensures i <= e <= |src|
    ensures forall j :: i <= j < e ==> src[j] != '\n'
    ensures e == |src| || src[e] == '\n'
    decreases |src| - i
  {
    if i == |src| || src[i] == '\n' then i else LineEnd(src, i + 1)
  }

  /** The comment token for a `//` at `start`. `scan_comment` starts the text
      with "//" but has consumed only the first slash when it starts copying,
      so the second slash is copied again: the lexeme is "/" followed by the
      source text from the first slash to the end of the line. */
  function CommentStep(src: string, start: nat): Scan
    requires start + 1 < |src|
  {
    var e := LineEnd(src, start + 1);
    Scan(e, [MakeToken(src, Comment, "//" + src[start + 1..e], e)])
  }

  // Strings and characters ----------------------------------------------------

  /** The escape sequences `\n \t \r \" \\` (noir_lexer.py:199-203). */
  function Unescape(c: char): Option<char> {
    match c
    case 'n' => Some('\n') case 't' => Some('\t') case 'r' => Some('\r')
    case '"' => Some('"') case '\\' => Some('\\')
    case _ => None
  }

  datatype StringScan =
    | Closed(text: string, close: nat)      // decoded text, index of the closing quote
    | BadEscape(escaped: string, at: nat)   // the escape that is not recognised, and where
    | Unterminated

  function Prepend(s: string, r: StringScan): StringScan {
    match r
    case Closed(t, k) => Closed(s + t, k)
    case _ => r
  }

  /** Decode a string body starting at `i`, just after the opening quote. */
  function StringBody(src: string, i: nat): (r: StringScan)
    requires i <= |src|
    ensures r.Closed? ==> i <= r.close < |src| && src[r.close] == '"'
    ensures r.BadEscape? ==> i < r.at <= |src|
    decreases |src| - i
  {
    if i == |src| then Unterminated
    else if src[i] == '"' then Closed("", i)
    else if src[i] == '\\' then
      if i + 1 == |src| then BadEscape("", i + 1)
      else if Unescape(src[i + 1]).Some? then Prepend([Unescape(src[i + 1]).value], StringBody(src, i + 2))
      else BadEscape([src[i + 1]], i + 2)
    else Prepend([src[i]], StringBody(src, i + 1))
  }

  function StringStep(src: string, start: nat): Result<Scan, LexerError>
    requires start < |src|
  {
    match StringBody(src, start + 1)
    case Closed(t, k) => Ok(Scan(k + 1, [MakeToken(src, StringLit, t, k + 1)]))
    case BadEscape(e, at) => Err(ErrorAt(src, InvalidEscape(e), at))
    case Unterminated => Err(ErrorAt(src, UnterminatedString, |src|))
  }

  function CharStep(src: string, start: nat): Result<Scan, LexerError>
    requires start < |src|
  {
    if start + 1 == |src| then Err(ErrorAt(src, UnterminatedChar, start + 1))
    else if start + 2 == |src| || src[start + 2] != '\'' then Err(ErrorAt(src, InvalidCharLiteral, start + 2))
    else Ok(Scan(start + 3, [MakeToken(src, CharLit, [src[start + 1]], start + 3)]))
  }

  // One step and a whole run --------------------------------------------------

  /** One iteration of the loop of `tokenize` (noir_lexer.py:253-355). */
  function Step(src: string, pos: nat): (r: Result<Scan, LexerError>)
    requires pos < |src|
  {
    var c := src[pos];
    if IsWhitespaceChar(c) then Ok(Scan(pos + 1, []))
    else if c == '\n' then Ok(Scan(pos + 1, [MakeToken(src, Newline, "\n", pos)]))
    else if IsDigitChar(c) then NumberStep(src, pos)
    else if IsAlphaChar(c) then IdentifierStep(src, pos)
    else if c == '"' then StringStep(src, pos)
    else if c == '\'' then CharStep(src, pos)
    else if c == '/' then
      if pos + 1 < |src| && src[pos + 1] == '/' then Ok(CommentStep(src, pos))
      else Ok(Scan(pos + 1, [MakeToken(src, Divide, "/", pos + 1)]))
    else if pos + 1 < |src| && TwoCharKind(c, src[pos + 1]).Some? then
      Ok(Scan(pos + 2, [MakeToken(src, TwoCharKind(c, src[pos + 1]).value, src[pos..pos + 2], pos + 2)]))
    else if SingleCharKind(c).Some? then
      Ok(Scan(pos + 1, [MakeToken(src, SingleCharKind(c).value, [c], pos + 1)]))
    else Err(ErrorAt(src, InvalidCharacter(c), pos))
  }

  lemma StepAdvances(src: string, pos: nat)
    requires pos < |src|
    ensures Step(src, pos).Ok? ==> pos < Step(src, pos).value.next <= |src|
  {
  }

  /** Lexing from `pos` with `acc` already produced: the remaining steps, then EOF. */
  function LexFrom(src: string, pos: nat, acc: seq<Token>): Result<seq<Token>, LexerError>
    requires pos <= |src|
    decreases |src| - pos
  {
    if pos == |src| then Ok(acc + [MakeToken(src, Eof, "", |src|)])
    else
      StepAdvances(src, pos);
      match Step(src, pos)
      case Err(e) => Err(e)
      case Ok(s) => LexFrom(src, s.next, acc + s.emitted)
  }

  /** The token list `lex(src)` returns, or the error it raises. */
  function Lexed(src: string): Result<seq<Token>, LexerError> {
    LexFrom(src, 0, [])
  }

  // ---------------------------------------------------------------------
  // The imperative lexer

  datatype LexOutcome = Scanned | Failed(error: LexerError)

  /** A scanning routine did what `step` describes: on success the cursor is at
      the step's end and exactly its tokens were appended; otherwise it raised
      the step's error. */
  predicate Performs(step: Result<Scan, LexerError>, r: LexOutcome, pos: nat, tokens: seq<Token>, before: seq<Token>) {
    match step
    case Ok(s) => r == Scanned && pos == s.next && tokens == before + s.emitted
    case Err(e) => r == Failed(e)
  }

  class Lexer {
    const source: string
    var pos: nat
    var line: int
    var column: int
    var tokens: seq<Token>

    /** The cursor is within the source, and `line`/`column` describe it. */
    ghost predicate Valid()
      reads this
    {
      pos <= |source| && line == Line(source, pos) && column == Column(source, pos)
    }

    constructor (source: string)
      ensures Valid()
      ensures this.source == source && pos == 0 && line == 1 && column == 1 && tokens == []
    {
      this.source := source;
      pos := 0;
      line := 1;
      column := 1;
      tokens := [];
    }

    /** `peek(ahead)`: the character `ahead` places on, or "" past the end. */
    function Peek(ahead: nat): string
      reads this
    {
      if pos + ahead >= |source| then "" else [source[pos + ahead]]
    }

    /** `advance()`: consume one character; a newline moves to the next line
        and resets the column to 1, any other character moves one column on. */
    method Advance() returns (c: string)
      requires Valid()
      modifies this`pos, this`line, this`column
      ensures Valid()
      ensures old(pos) < |source| ==> c == [source[old(pos)]] && pos == old(pos) + 1
      ensures old(pos) == |source| ==> c == "" && pos == old(pos)
      ensures c == "\n" ==> line == old(line) + 1 && column == 1
      ensures c != "\n" && c != "" ==> line == old(line) && column == old(column) + 1
    {
      if pos >= |source| {
        return "";
      }
      c := [source[pos]];
      pos := pos + 1;
      if c == "\n" {
        line := line + 1;
        column := 1;
      } else {
        column := column + 1;
      }
    }

    /** `add_token`: append a token stamped with the current line and with the
        current column minus the length of its text. */
    method AddToken(kind: TokenKind, value: string)
      requires Valid()
      modifies this`tokens
      ensures tokens == old(tokens) + [MakeToken(source, kind, value, pos)]
    {
      tokens := tokens + [Token(kind, value, line, column - |value|)];
    }

    method ScanNumber() returns (r: LexOutcome)
      requires Valid()
      modifies this`pos, this`line, this`column, this`tokens
      ensures Valid()
      ensures Performs(NumberStep(source, old(pos)), r, pos, tokens, old(tokens))
    {
      var start := pos;
      var num := "";
      var hasDot := false;
      var isDouble := false;
      while Peek(0) != "" && (IsDigitChar(Peek(0)[0]) || Peek(0) == ".")
        invariant Valid() && start <= pos
        invariant tokens == old(tokens)
        invariant num == source[start..pos]
        invariant hasDot == ('.' in num)
        invariant NumberStop(source, pos, hasDot) == NumberStop(source, start, false)
        invariant isDouble == DoubleSoFar(num)
        decreases |source| - pos
      {
        ghost var i := pos;
        ghost var seen := hasDot;
        assert source[i] == Peek(0)[0];
        if Peek(0) == "." {
          if hasDot {
            return Failed(LexerError(InvalidNumberFormat, line, column));
          }
          hasDot := true;
        }
        if hasDot && |LastSegment(num)| > 7 {
          isDouble := true;
        }
        DoubleFlagStep(num, source[i]);
        NumberStopStep(source, i, seen);
        var c := Advance();
        assert source[start..pos] == num + c;
        num := num + c;
      }
      AddToken(if hasDot then (if isDouble then DoubleLit else FloatLit) else IntegerLit, num);
      return Scanned;
    }

    /** One turn of the loop of `scan_string`: a plain character, or a
        backslash and the character after it. On success `piece` is the text
        the turn decodes; otherwise the escape is not one of n t r " \\ and
        the error is the one the decoding of the body reports. */
    method ScanStringPiece() returns (r: Result<string, LexerError>)
      requires Valid() && pos < |source| && source[pos] != '"'
      modifies this`pos, this`line, this`column
      ensures Valid()
      ensures r.Ok? ==> old(pos) < pos && StringBody(source, old(pos)) == Prepend(r.value, StringBody(source, pos))
      ensures r.Err? ==>
                StringBody(source, old(pos)).BadEscape? &&
                r.error == ErrorAt(source, InvalidEscape(StringBody(source, old(pos)).escaped), StringBody(source, old(pos)).at)
    {
      if Peek(0) == "\\" {
        var _ := Advance();
        var escaped := Advance();
        if escaped != "" && Unescape(escaped[0]).Some? {
          return Ok([Unescape(escaped[0]).value]);
        }
        return Err(LexerError(InvalidEscape(escaped), line, column));
      }
      var c := Advance();
      return Ok(c);
    }

    method ScanString() returns (r: LexOutcome)
      requires Valid() && pos < |source|
      modifies this`pos, this`line, this`column, this`tokens
      ensures Valid()
      ensures Performs(StringStep(source, old(pos)), r, pos, tokens, old(tokens))
    {
      var start := pos;
      var text := "";
      var _ := Advance();
      while Peek(0) != "" && Peek(0) != "\""
        invariant Valid() && start < pos
        invariant tokens == old(tokens)
        invariant Prepend(text, StringBody(source, pos)) == StringBody(source, start + 1)
        decreases |source| - pos
      {
        var piece := ScanStringPiece();
        if piece.Err? {
          return Failed(piece.error);
        }
        PrependTwice(text, piece.value, StringBody(source, pos));
        text := text + piece.value;
      }
      if Peek(0) == "" {
        return Failed(LexerError(UnterminatedString, line, column));
      }
      assert text + "" == text;
      var _ := Advance();
      AddToken(StringLit, text);
      return Scanned;
    }

    method ScanChar() returns (r: LexOutcome)
      requires Valid() && pos < |source|
      modifies this`pos, this`line, this`column, this`tokens
      ensures Valid()
      ensures Performs(CharStep(source, old(pos)), r, pos, tokens, old(tokens))
    {
      var _ := Advance();
      if Peek(0) == "" {
        return Failed(LexerError(UnterminatedChar, line, column));
      }
      var c := Advance();
      if Peek(0) != "'" {
        return Failed(LexerError(InvalidCharLiteral, line, column));
      }
      var _ := Advance();
      AddToken(CharLit, c);
      return Scanned;
    }

    method ScanIdentifier() returns (r: LexOutcome)
      requires Valid()
      modifies this`pos, this`line, this`column, this`tokens
      ensures Valid()
      ensures Performs(IdentifierStep(source, old(pos)), r, pos, tokens, old(tokens))
    {
      var start := pos;
      var word := "";
      while Peek(0) != "" && IsWordChar(Peek(0)[0])
        invariant Valid() && start <= pos <= WordEnd(source, start)
        invariant tokens == old(tokens)
        invariant word == source[start..pos]
        decreases |source| - pos
      {
        var c := Advance();
        word := word + c;
      }
      AddToken(WordKind(word), word);
      return Scanned;
    }

    method ScanComment()
      requires Valid() && pos + 1 < |source| && source[pos] == '/' && source[pos + 1] == '/'
      modifies this`pos, this`line, this`column, this`tokens
      ensures Valid()
      ensures pos == CommentStep(source, old(pos)).next
      ensures tokens == old(tokens) + CommentStep(source, old(pos)).emitted
    {
      var start := pos;
      var comment := "//";
      var _ := Advance();
      while Peek(0) != "" && Peek(0) != "\n"
        invariant Valid() && start < pos <= LineEnd(source, start + 1)
        invariant tokens == old(tokens)
        invariant comment == "//" + source[start + 1..pos]
        decreases |source| - pos
      {
        var c := Advance();
        comment := comment + c;
      }
      AddToken(Comment, comment);
    }

    /** One iteration of the loop of `tokenize`. */
    method ScanToken() returns (r: LexOutcome)
      requires Valid() && pos < |source|
      modifies this`pos, this`line, this`column, this`tokens
      ensures Valid()
      ensures Performs(Step(source, old(pos)), r, pos, tokens, old(tokens))
    {
      var c := Peek(0);
      var ch := c[0];
      if IsWhitespaceChar(ch) {
        var _ := Advance();
        return Scanned;
      }
      if ch == '\n' {
        AddToken(Newline, "\n");
        var _ := Advance();
        return Scanned;
      }
      if IsDigitChar(ch) {
        r := ScanNumber();
        return;
      }
      if IsAlphaChar(ch) {
        r := ScanIdentifier();
        return;
      }
      if ch == '"' {
        r := ScanString();
        return;
      }
      if ch == '\'' {
        r := ScanChar();
        return;
      }
      if ch == '/' {
        if Peek(1) == "/" {
          ScanComment();
        } else {
          var d := Advance();
          AddToken(Divide, d);
        }
        return Scanned;
      }
      var next := Peek(1);
      if next != "" && TwoCharKind(ch, next[0]).Some? {
        assert source[pos..pos + 2] == [ch, next[0]];
        var _ := Advance();
        var _ := Advance();
        AddToken(TwoCharKind(ch, next[0]).value, [ch, next[0]]);
        return Scanned;
      }
      if SingleCharKind(ch).Some? {
        var d := Advance();
        AddToken(SingleCharKind(ch).value, d);
        return Scanned;
      }
      return Failed(LexerError(InvalidCharacter(ch), line, column));
    }

    /** `tokenize`: scan until the whole input is consumed, then add EOF. */
    method Tokenize() returns (r: Result<seq<Token>, LexerError>)
      requires Valid() && pos == 0 && tokens == []
      modifies this`pos, this`line, this`column, this`tokens
      ensures r == Lexed(source)
    {
      while pos < |source|
        invariant Valid()
        invariant LexFrom(source, pos, tokens) == Lexed(source)
        decreases |source| - pos
      {
        var o := ScanToken();
        if o.Failed? {
          return Err(o.error);
        }
      }
      AddToken(Eof, "");
      return Ok(tokens);
    }
  }

  /** The module-level `lex`. */
  method Lex(source: string) returns (r: Result<seq<Token>, LexerError>)
    ensures r == Lexed(source)
  {
    var lexer := new Lexer(source);
    r := lexer.Tokenize();
  }

  // ---------------------------------------------------------------------
  // Lemmas used by the scanning loops

  /** What `is_double` holds once `num` has been read: a dot, and an
      integer part of at least 8 digits or a fraction of at least 9. */
  predicate DoubleSoFar(num: string) {
    '.' in num && (|FirstSegment(num)| >= 8 || |LastSegment(num)| >= 9)
  }

  /** Reading one more digit or a first dot sets `is_double` exactly as the
      test `len(num.split('.')[-1]) > 7` made before the read does. */
  lemma DoubleFlagStep(num: string, c: char)
    requires IsNumberChar(c) && !(c == '.' && '.' in num)
    ensures '.' in num + [c] <==> '.' in num || c == '.'
    ensures DoubleSoFar(num + [c]) == (DoubleSoFar(num) || (('.' in num || c == '.') && |LastSegment(num)| > 7))
  {
    assert (num + [c])[..|num|] == num;
    assert (num + [c])[|num|] == c;
    SegmentsAppend(num, c);
    if '.' !in num {
      NoDotSegments(num);
    }
  }

  lemma NoDotSegments(s: string)
    requires '.' !in s
    ensures FirstSegment(s) == s && LastSegment(s) == s
    decreases |s|
  {
    if |s| > 0 {
      var p := s[..|s| - 1];
      assert s == p + [s[|s| - 1]];
      assert '.' !in p;
      NoDotSegments(p);
    }
  }

  lemma PrependTwice(a: string, b: string, r: StringScan)
    ensures Prepend(a, Prepend(b, r)) == Prepend(a + b, r)
  {
    match r
    case Closed(t, k) => assert a + (b + t) == (a + b) + t;
    case _ =>
  }

  lemma SegmentsAppend(s: string, c: char)
    ensures c != '.' ==> LastSegment(s + [c]) == LastSegment(s) + [c]
    ensures c == '.' ==> LastSegment(s + [c]) == ""
    ensures '.' in s ==> FirstSegment(s + [c]) == FirstSegment(s)
    ensures '.' !in s && c == '.' ==> FirstSegment(s + [c]) == s
  {
    assert (s + [c])[..|s|] == s;
  }
}

module LexerProperties {
  import opened Common
  import opened Tokens
  import opened Lexer

  // ---------------------------------------------------------------------
  // The shape of every token list

  lemma KeywordKinds(word: string)
    ensures WordKind(word) != Eof && Emittable(WordKind(word))
  {
  }

  /** No step emits EOF or a kind the lexer never produces. */
  lemma StepEmits(src: string, pos: nat)
    requires pos < |src|
    ensures Step(src, pos).Ok? ==>
      forall t | t in Step(src, pos).value.emitted :: t.kind != Eof && Emittable(t.kind)
  {
    if IsAlphaChar(src[pos]) && !IsDigitChar(src[pos]) && !IsWhitespaceChar(src[pos]) {
      KeywordKinds(src[pos..WordEnd(src, pos)]);
    }
  }

  predicate Ordinary(ts: seq<Token>) {
    forall i :: 0 <= i < |ts| ==> ts[i].kind != Eof && Emittable(ts[i].kind)
  }

  lemma OrdinaryAppend(a: seq<Token>, b: seq<Token>)
    requires Ordinary(a)
    requires forall t | t in b :: t.kind != Eof && Emittable(t.kind)
    ensures Ordinary(a + b)
  {
    forall i | 0 <= i < |a + b|
      ensures (a + b)[i].kind != Eof && Emittable((a + b)[i].kind)
    {
      if i >= |a| {
        assert (a + b)[i] in b;
      }
    }
  }

  /** One step of a run: `LexFrom` continues from where the step ends. */
  lemma LexFromStep(src: string, pos: nat, acc: seq<Token>)
    requires pos < |src| && Step(src, pos).Ok?
    ensures pos < Step(src, pos).value.next <= |src|
    ensures LexFrom(src, pos, acc) ==
      LexFrom(src, Step(src, pos).value.next, acc + Step(src, pos).value.emitted)
  {
    StepAdvances(src, pos);
  }

  lemma {:induction false} LexFromShape(src: string, pos: nat, acc: seq<Token>)
    requires pos <= |src|
    requires Ordinary(acc)
    ensures LexFrom(src, pos, acc).Ok? ==>
      var ts := LexFrom(src, pos, acc).value;
      |ts| > |acc| && ts[..|acc|] == acc && ts[|ts| - 1] == MakeToken(src, Eof, "", |src|) &&
      Ordinary(ts[..|ts| - 1])
    decreases |src| - pos
  {
    if pos == |src| {
      var ts := acc + [MakeToken(src, Eof, "", |src|)];
      assert LexFrom(src, pos, acc) == Ok(ts);
      assert ts[..|acc|] == acc && ts[..|ts| - 1] == acc;
    } else if Step(src, pos).Ok? {
      var s := Step(src, pos).value;
      LexFromStep(src, pos, acc);
      StepEmits(src, pos);
      OrdinaryAppend(acc, s.emitted);
      LexFromShape(src, s.next, acc + s.emitted);
      if LexFrom(src, pos, acc).Ok? {
        var ts := LexFrom(src, pos, acc).value;
        assert ts[..|acc|] == ts[..|acc + s.emitted|][..|acc|];
      }
    }
  }

  /** A successful run ends with exactly one EOF, placed after the last
      character, and emits only kinds the lexer can produce (BANG, BOOL_LIT,
      WHITESPACE, LANGLE and RANGLE never appear). */
  lemma LexedShape(src: string)
    ensures Lexed(src).Ok? ==>
      var ts := Lexed(src).value;
      |ts| >= 1 && ts[|ts| - 1].kind == Eof &&
      ts[|ts| - 1].line == Line(src, |src|) && ts[|ts| - 1].column == Column(src, |src|) &&
      forall i :: 0 <= i < |ts| - 1 ==> ts[i].kind != Eof && Emittable(ts[i].kind)
  {
    LexFromShape(src, 0, []);
    if Lexed(src).Ok? {
      var ts := Lexed(src).value;
      assert forall i :: 0 <= i < |ts| - 1 ==> ts[i] == ts[..|ts| - 1][i];
    }
  }

  // ---------------------------------------------------------------------
  // Positions

  /** Across a stretch without newlines the line stays and the column counts characters. */
  lemma {:induction false} PositionAcross(src: string, i: nat, j: nat)
    requires i <= j <= |src|
    requires forall k :: i <= k < j ==> src[k] != '\n'
    ensures Line(src, j) == Line(src, i) && Column(src, j) == Column(src, i) + (j - i)
    decreases j - i
  {
    if i < j {
      PositionAcross(src, i, j - 1);
    }
  }

  /** A newline ends the line: the next character is on the following line, column 1. */
  lemma NewlinePosition(src: string, k: nat)
    requires k < |src| && src[k] == '\n'
    ensures Line(src, k + 1) == Line(src, k) + 1 && Column(src, k + 1) == 1
  {
  }

  /** Numbers, identifiers, keywords, operators and delimiters are stamped
      with the line and column where their first character stands. */
  lemma {:induction false} StepTokenStartsAtPos(src: string, pos: nat)
    requires pos < |src|
    requires src[pos] !in {'"', '\'', '\n'} && !IsWhitespaceChar(src[pos])
    requires !(src[pos] == '/' && pos + 1 < |src| && src[pos + 1] == '/')
    ensures Step(src, pos).Ok? ==>
      |Step(src, pos).value.emitted| == 1 &&
      Step(src, pos).value.emitted[0].line == Line(src, pos) &&
      Step(src, pos).value.emitted[0].column == Column(src, pos)
  {
    var c := src[pos];
    if IsDigitChar(c) {
      var f := NumberStop(src, pos, false);
      NumberRun(src, pos, false);
      PositionAcross(src, pos, f);
    } else if IsAlphaChar(c) {
      PositionAcross(src, pos, WordEnd(src, pos));
    } else if pos + 1 < |src| && c != '/' && TwoCharKind(c, src[pos + 1]).Some? {
      PositionAcross(src, pos, pos + 2);
    } else {
      PositionAcross(src, pos, pos + 1);
    }
  }

  /** `//` starts one COMMENT token that runs up to, not including, the next
      newline (or the end); its lexeme is "/" followed by that source text,
      and its column is one left of the first slash. */
  lemma CommentToken(src: string, pos: nat)
    requires pos + 1 < |src| && src[pos] == '/' && src[pos + 1] == '/'
    ensures var e := LineEnd(src, pos + 1);
      Step(src, pos) == Ok(Scan(e, [Token(Comment, "/" + src[pos..e], Line(src, pos), Column(src, pos) - 1)])) &&
      (e == |src| || src[e] == '\n') && forall k :: pos <= k < e ==> src[k] != '\n'
  {
    var e := LineEnd(src, pos + 1);
    PositionAcross(src, pos, e);
    assert "//" + src[pos + 1..e] == "/" + src[pos..e];
  }

  lemma {:induction false} NumberRun(src: string, i: nat, seenDot: bool)
    requires i <= |src|
    ensures forall k :: i <= k < NumberStop(src, i, seenDot) ==> IsNumberChar(src[k])
    decreases |src| - i
  {
    if !(i == |src| || !IsNumberChar(src[i]) || (src[i] == '.' && seenDot)) {
      NumberRun(src, i + 1, seenDot || src[i] == '.');
    }
  }

  // ---------------------------------------------------------------------
  // Number literals

  predicate AllDigits(s: string) {
    forall i :: 0 <= i < |s| ==> IsDigitChar(s[i])
  }

  lemma {:induction false} SegmentsOfDecimal(a: string, b: string)
    requires AllDigits(a) && AllDigits(b)
    ensures FirstSegment(a + "." + b) == a && LastSegment(a + "." + b) == b
    decreases |b|
  {
    if |b| == 0 {
      assert '.' !in a;
      NoDotSegments(a);
      SegmentsAppend(a, '.');
    } else {
      var b' := b[..|b| - 1];
      assert a + "." + b == (a + "." + b') + [b[|b| - 1]];
      assert AllDigits(b');
      SegmentsOfDecimal(a, b');
      SegmentsAppend(a + "." + b', b[|b| - 1]);
    }
  }

  /** A literal with one dot is DOUBLE_LIT exactly when its integer part has at
      least 8 digits or its fraction at least 9, and FLOAT_LIT otherwise; a
      literal without a dot is INTEGER_LIT. */
  lemma NumberKindOfDecimal(a: string, b: string)
    requires AllDigits(a) && AllDigits(b)
    ensures NumberKind(a) == IntegerLit
    ensures NumberKind(a + "." + b) == (if |a| >= 8 || |b| >= 9 then DoubleLit else FloatLit)
  {
    assert '.' !in a;
    SegmentsOfDecimal(a, b);
    assert (a + "." + b)[|a|] == '.';
  }

  /** The run `scan_number` reads holds digits and at most one dot, and it
      stops at a dot only when it has read one already. */
  lemma {:induction false} NumberStopDots(src: string, i: nat, seenDot: bool)
    requires i <= |src|
    ensures var f := NumberStop(src, i, seenDot);
      (forall j, k :: i <= j < k < f ==> !(src[j] == '.' && src[k] == '.')) &&
      (seenDot ==> forall k :: i <= k < f ==> src[k] != '.') &&
      (f < |src| && src[f] == '.' ==> seenDot || exists j :: i <= j < f && src[j] == '.') &&
      (f < |src| ==> !IsNumberChar(src[f]) || src[f] == '.')
    decreases |src| - i
  {
    if !(i == |src| || !IsNumberChar(src[i]) || (src[i] == '.' && seenDot)) {
      var seen := seenDot || src[i] == '.';
      NumberStopDots(src, i + 1, seen);
      var f := NumberStop(src, i, seenDot);
      assert f == NumberStop(src, i + 1, seen);
      if f < |src| && src[f] == '.' && !seenDot {
        if src[i] == '.' {
          assert i < f;
        } else {
          var j :| i + 1 <= j < f && src[j] == '.';
        }
      }
    }
  }

  /** A number literal is refused with InvalidNumberFormat exactly when its
      run of digits and dots reaches a second dot; the error is reported at
      that dot. */
  lemma NumberFormatError(src: string, start: nat)
    requires start <= |src|
    ensures NumberStep(src, start).Err? <==>
      exists j, k :: start <= j < k < |src| && src[j] == '.' && src[k] == '.' &&
        forall m :: start <= m < k ==> IsNumberChar(src[m])
    ensures NumberStep(src, start).Err? ==>
      NumberStep(src, start).error.kind == InvalidNumberFormat &&
      src[NumberStop(src, start, false)] == '.'
  {
    var f := NumberStop(src, start, false);
    NumberRun(src, start, false);
    NumberStopDots(src, start, false);
    if NumberStep(src, start).Err? {
      var j :| start <= j < f && src[j] == '.';
      assert start <= j < f < |src| && src[j] == '.' && src[f] == '.' &&
        forall m :: start <= m < f ==> IsNumberChar(src[m]);
    }
    if exists j, k :: start <= j < k < |src| && src[j] == '.' && src[k] == '.' &&
        forall m :: start <= m < k ==> IsNumberChar(src[m])
    {
      var j, k :| start <= j < k < |src| && src[j] == '.' && src[k] == '.' &&
        forall m :: start <= m < k ==> IsNumberChar(src[m]);
      if f <= k {
        assert IsNumberChar(src[f]);
      }
    }
  }

  // ---------------------------------------------------------------------
  // String literals

  function EscapeChar(c: char): string {
    match c
    case '\n' => "\\n" case '\t' => "\\t" case '\r' => "\\r"
    case '"' => "\\\"" case '\\' => "\\\\"
    case _ => [c]
  }

  /** The source text of a string literal's body that decodes to `s`. */
  function Escape(s: string): string
    decreases |s|
  {
    if |s| == 0 then "" else EscapeChar(s[0]) + Escape(s[1..])
  }

  /** `src` holds the text `t` from index `i` on. */
  predicate HoldsAt(src: string, i: nat, t: string) {
    i + |t| <= |src| && forall k {:trigger t[k]} :: 0 <= k < |t| ==> src[i + k] == t[k]
  }

  /** Decoding consumes one escaped character at a time. */
  lemma StringBodyEscapeChar(src: string, i: nat, c: char)
    requires HoldsAt(src, i, EscapeChar(c))
    ensures StringBody(src, i) == Prepend([c], StringBody(src, i + |EscapeChar(c)|))
  {
    var e := EscapeChar(c);
    assert src[i] == e[0];
    if |e| == 2 {
      assert src[i + 1] == e[1];
    }
  }

  /** Text held at `i` splits into its two halves. */
  lemma HoldsSplit(src: string, i: nat, a: string, b: string)
    requires HoldsAt(src, i, a + b)
    ensures HoldsAt(src, i, a) && HoldsAt(src, i + |a|, b)
  {
    forall k | 0 <= k < |a|
      ensures src[i + k] == a[k]
    {
      assert (a + b)[k] == a[k];
    }
    forall k | 0 <= k < |b|
      ensures src[i + |a| + k] == b[k]
    {
      assert (a + b)[|a| + k] == b[k];
    }
  }

  lemma {:induction false} StringBodyOfEscape(src: string, i: nat, s: string)
    requires HoldsAt(src, i, Escape(s)) && i + |Escape(s)| < |src| && src[i + |Escape(s)|] == '"'
    ensures StringBody(src, i) == Closed(s, i + |Escape(s)|)
    decreases |s|
  {
    if |s| > 0 {
      var e := EscapeChar(s[0]);
      var tail := s[1..];
      var m := i + |e|;
      assert Escape(s) == e + Escape(tail);
      HoldsSplit(src, i, e, Escape(tail));
      StringBodyOfEscape(src, m, tail);
      StringBodyEscapeChar(src, i, s[0]);
      calc {
        StringBody(src, i);
        Prepend([s[0]], StringBody(src, m));
        Prepend([s[0]], Closed(tail, m + |Escape(tail)|));
        { assert [s[0]] + tail == s; }
        Closed(s, i + |Escape(s)|);
      }
    }
  }

  /** The quoted escape of `s` is one string-literal step holding `s`. */
  lemma QuotedStep(s: string)
    ensures var src := "\"" + Escape(s) + "\"";
      Step(src, 0) == Ok(Scan(|src|, [MakeToken(src, StringLit, s, |src|)]))
  {
    var src := "\"" + Escape(s) + "\"";
    var n := |Escape(s)|;
    assert src[0] == '"' && src[n + 1] == '"' && |src| == n + 2;
    assert HoldsAt(src, 1, Escape(s));
    StringBodyOfEscape(src, 1, s);
    assert Step(src, 0) == StringStep(src, 0);
  }

  /** Escaping any text, quoting it and lexing the result gives back one
      STRING_LIT token holding exactly that text, then EOF. */
  lemma StringLiteralRoundTrip(s: string)
    ensures var src := "\"" + Escape(s) + "\"";
      Lexed(src).Ok? && |Lexed(src).value| == 2 &&
      Lexed(src).value[0].kind == StringLit && Lexed(src).value[0].lexeme == s &&
      Lexed(src).value[1].kind == Eof
  {
    var src := "\"" + Escape(s) + "\"";
    var tok := MakeToken(src, StringLit, s, |src|);
    QuotedStep(s);
    LexFromStep(src, 0, []);
    assert [] + [tok] == [tok];
    assert Lexed(src) == LexFrom(src, |src|, [tok]);
  }

  /** A string body that `scan_string` accepts, read from the front: no bare
      double quote, and every backslash followed by one of n t r " \\. */
  predicate WellFormedBody(b: string)
    decreases |b|
  {
    |b| == 0 ||
    (b[0] != '"' && b[0] != '\\' && WellFormedBody(b[1..])) ||
    (b[0] == '\\' && |b| >= 2 && Unescape(b[1]).Some? && WellFormedBody(b[2..]))
  }

  /** The body decoded from `i` closes exactly at a double quote `k` whose
      preceding text is well formed. */
  lemma {:induction false} StringBodyCloses(src: string, i: nat)
    requires i <= |src|
    ensures StringBody(src, i).Closed? <==>
      exists k :: i <= k < |src| && src[k] == '"' && WellFormedBody(src[i..k])
    ensures StringBody(src, i).Closed? ==> WellFormedBody(src[i..StringBody(src, i).close])
    decreases |src| - i
  {
    var r := StringBody(src, i);
    if i < |src| && src[i] != '"' {
      var step := if src[i] == '\\' then 2 else 1;
      if i + step <= |src| {
        StringBodyCloses(src, i + step);
      }
      if r.Closed? {
        var k := r.close;
        assert src[i..k][step..] == src[i + step..k];
        assert WellFormedBody(src[i..k]);
      }
      if exists k :: i <= k < |src| && src[k] == '"' && WellFormedBody(src[i..k]) {
        var k :| i <= k < |src| && src[k] == '"' && WellFormedBody(src[i..k]);
        assert src[i..k][0] == src[i];
        assert src[i..k][step..] == src[i + step..k];
      }
    } else if i < |src| {
      assert WellFormedBody(src[i..i]);
    }
  }

  /** A string literal is refused exactly when no double quote closes a
      well-formed body: an escape outside n t r " \\, or no closing quote. The
      errors are an invalid escape naming what followed the backslash, or an
      unterminated string. */
  lemma StringLiteralError(src: string, start: nat)
    requires start < |src|
    ensures StringStep(src, start).Ok? <==>
      exists k :: start < k < |src| && src[k] == '"' && WellFormedBody(src[start + 1..k])
    ensures StringStep(src, start).Err? ==>
      match StringStep(src, start).error.kind
      case InvalidEscape(e) => |e| == 0 || (|e| == 1 && Unescape(e[0]).None?)
      case UnterminatedString => true
      case _ => false
  {
    StringBodyCloses(src, start + 1);
    var r := StringBody(src, start + 1);
    if r.BadEscape? {
      BadEscapeNamed(src, start + 1);
    }
  }

  lemma {:induction false} BadEscapeNamed(src: string, i: nat)
    requires i <= |src|
    ensures StringBody(src, i).BadEscape? ==>
      |StringBody(src, i).escaped| == 0 ||
      (|StringBody(src, i).escaped| == 1 && Unescape(StringBody(src, i).escaped[0]).None?)
    decreases |src| - i
  {
    if i < |src| && src[i] != '"' {
      if src[i] == '\\' {
        if i + 2 <= |src| {
          BadEscapeNamed(src, i + 2);
        }
      } else {
        BadEscapeNamed(src, i + 1);
      }
    }
  }

  // ---------------------------------------------------------------------
  // Character literals

  /** A character literal is accepted exactly when one character stands
      between the opening quote and a closing one; the token holds that
      character. Otherwise the literal is unterminated (nothing follows the
      quote) or invalid. */
  lemma CharLiteralShape(src: string, start: nat)
    requires start < |src|
    ensures CharStep(src, start).Ok? <==> start + 2 < |src| && src[start + 2] == '\''
    ensures CharStep(src, start).Ok? ==>
      CharStep(src, start).value.next == start + 3 &&
      CharStep(src, start).value.emitted[0].kind == CharLit &&
      CharStep(src, start).value.emitted[0].lexeme == [src[start + 1]]
    ensures CharStep(src, start).Err? ==>
      CharStep(src, start).error.kind == (if start + 1 == |src| then UnterminatedChar else InvalidCharLiteral)
  {
  }

  // ---------------------------------------------------------------------
  // Single steps

  /** The two-character operators win over their one-character prefixes. */
  lemma TwoCharWins(src: string, pos: nat)
    requires pos + 1 < |src| && TwoCharKind(src[pos], src[pos + 1]).Some?
    ensures Step(src, pos) == Ok(Scan(pos + 2,
      [MakeToken(src, TwoCharKind(src[pos], src[pos + 1]).value, src[pos..pos + 2], pos + 2)]))
  {
  }

  /** '!' is only valid as the first half of "!=". */
  lemma LoneBangRejected(src: string, pos: nat)
    requires pos < |src| && src[pos] == '!' && (pos + 1 == |src| || src[pos + 1] != '=')
    ensures Step(src, pos) == Err(LexerError(InvalidCharacter('!'), Line(src, pos), Column(src, pos)))
  {
  }

  /** The characters a token can start with. '!' is not one of them: it
      is accepted only as the first half of "!=". */
  predicate Recognised(c: char) {
    IsWhitespaceChar(c) || c == '\n' || IsDigitChar(c) || IsAlphaChar(c) ||
    c == '"' || c == '\'' || c == '/' || c in "+-*%=<>()[]:,."
  }

  /** A step fails with InvalidCharacter exactly on a character outside the
      recognised set (a '!' not followed by '='), and names that character. */
  lemma InvalidCharacterRejected(src: string, pos: nat)
    requires pos < |src|
    ensures var c := src[pos];
      (Step(src, pos) == Err(ErrorAt(src, InvalidCharacter(c), pos))) <==>
      !Recognised(c) && !(c == '!' && pos + 1 < |src| && src[pos + 1] == '=')
    ensures forall d :: Step(src, pos) != Err(ErrorAt(src, InvalidCharacter(d), pos)) || d == src[pos]
  {
  }

  /** Spaces, tabs and carriage returns are skipped without a token. */
  lemma WhitespaceSkipped(src: string, pos: nat)
    requires pos < |src| && IsWhitespaceChar(src[pos])
    ensures Step(src, pos) == Ok(Scan(pos + 1, []))
  {
  }
}
