/** The token vocabulary shared by the lexer, the parser and the printer
    (noir_lexer.py:6-87): every kind of the `TokenType` enumeration, the
    token record, and the keyword table. */
module Tokens {
  import opened Common

  datatype TokenKind =
    // keywords
    | If | Else | True | False | For | While | Return | As | In | To | Thru | By | Empty
    | And | Or | Func
    // type names
    | Int | Float | Double | String | Char | Bool | Set | OSet
    // literals
    | IntegerLit | FloatLit | DoubleLit | StringLit | CharLit | BoolLit
    | Identifier
    // operators
    | Plus | Minus | Multiply | Divide | Modulo | Assign | Equals | NotEquals
    | LessThan | GreaterThan | LessEqual | GreaterEqual
    // delimiters
    | LParen | RParen | LBracket | RBracket | LAngle | RAngle | Colon | DoubleColon
    | Comma | Dot | Arrow
    // special
    | Comment | Whitespace | Newline | Eof | Bang

  /** The position of a kind in the enumeration (0 for `IF`). */
  function Ordinal(k: TokenKind): (n: nat)
    ensures n < |KindNames|
  {
    match k
    case If => 0 case Else => 1 case True => 2 case False => 3 case For => 4 case While => 5
    case Return => 6 case As => 7 case In => 8 case To => 9 case Thru => 10 case By => 11
    case Empty => 12 case And => 13 case Or => 14 case Func => 15 case Int => 16 case Float => 17
    case Double => 18 case String => 19 case Char => 20 case Bool => 21 case Set => 22
    case OSet => 23 case IntegerLit => 24 case FloatLit => 25 case DoubleLit => 26
    case StringLit => 27 case CharLit => 28 case BoolLit => 29 case Identifier => 30
    case Plus => 31 case Minus => 32 case Multiply => 33 case Divide => 34 case Modulo => 35
    case Assign => 36 case Equals => 37 case NotEquals => 38 case LessThan => 39
    case GreaterThan => 40 case LessEqual => 41 case GreaterEqual => 42 case LParen => 43
    case RParen => 44 case LBracket => 45 case RBracket => 46 case LAngle => 47 case RAngle => 48
    case Colon => 49 case DoubleColon => 50 case Comma => 51 case Dot => 52 case Arrow => 53
    case Comment => 54 case Whitespace => 55 case Newline => 56 case Eof => 57 case Bang => 58
  }

  /** The members' names, in the order of the enumeration. */
  const KindNames: seq<string> := [
    "IF", "ELSE", "TRUE", "FALSE", "FOR", "WHILE", "RETURN", "AS", "IN", "TO", "THRU", "BY",
    "EMPTY", "AND", "OR", "FUNC", "INT", "FLOAT", "DOUBLE", "STRING", "CHAR", "BOOL", "SET",
    "OSET", "INTEGER_LIT", "FLOAT_LIT", "DOUBLE_LIT", "STRING_LIT", "CHAR_LIT", "BOOL_LIT",
    "IDENTIFIER", "PLUS", "MINUS", "MULTIPLY", "DIVIDE", "MODULO", "ASSIGN", "EQUALS",
    "NOT_EQUALS", "LESS_THAN", "GREATER_THAN", "LESS_EQUAL", "GREATER_EQUAL", "LPAREN", "RPAREN",
    "LBRACKET", "RBRACKET", "LANGLE", "RANGLE", "COLON", "DOUBLE_COLON", "COMMA", "DOT", "ARROW",
    "COMMENT", "WHITESPACE", "NEWLINE", "EOF", "BANG"
  ]

  /** The enumeration member's name, as `TokenType.X.name` spells it. */
  function KindName(k: TokenKind): string {
    KindNames[Ordinal(k)]
  }

  /** A token: its kind, its text, and the line and column the lexer recorded. */
  datatype Token = Token(kind: TokenKind, lexeme: string, line: int, column: int)

  /** The keyword table of the lexer (noir_lexer.py:101-126). */
  const Keywords: map<string, TokenKind> := map[
    "if" := If, "else" := Else, "true" := True, "false" := False, "for" := For,
    "while" := While, "return" := Return, "as" := As, "in" := In, "to" := To,
    "thru" := Thru, "by" := By, "empty" := Empty, "Int" := Int, "Float" := Float,
    "Double" := Double, "String" := String, "Char" := Char, "Bool" := Bool,
    "Set" := Set, "OSet" := OSet, "and" := And, "or" := Or, "func" := Func
  ]

  /** `self.keywords.get(word, TokenType.IDENTIFIER)`. */
  function WordKind(word: string): (k: TokenKind)
    ensures word in Keywords ==> k == Keywords[word] && k != Identifier
    ensures word !in Keywords ==> k == Identifier
  {
    if word in Keywords then Keywords[word] else Identifier
  }

  /** The kinds the lexer can emit: BANG, BOOL_LIT, WHITESPACE, LANGLE and
      RANGLE are declared in the enumeration but never produced. */
  predicate Emittable(k: TokenKind) {
    k !in {Bang, BoolLit, Whitespace, LAngle, RAngle}
  }
}
