/** The syntax tree the parser builds and the interpreter and printer walk
    (the node classes of noir_ast.py, one constructor per class). */
module Ast {
  import opened Common
  import opened Tokens
  import opened Types

  /** A literal's payload: the token text, or the boolean of `true`/`false`. */
  datatype LitValue = LText(text: string) | LBool(b: bool)

  datatype Expr =
    | Literal(payload: LitValue, kind: TokenKind)
    | Identifier(name: string)
    | BinaryOp(left: Expr, op: Token, right: Expr)
    | UnaryOp(op: Token, operand: Expr)
    | FunctionCall(callee: string, arguments: seq<Expr>)
    | MethodCall(obj: string, methodName: string, arguments: seq<Expr>)
    | ArrayAccess(array: Expr, index: Expr)
    | ArrayLiteral(elements: seq<Expr>)
    | TypeCast(expr: Expr, targetType: TypeAnnotation)
      /** An `Assignment` node in expression position, as `assignment()` builds it. */
    | Assign(assignee: string, rhs: Expr)

  datatype Block = Block(statements: seq<Stmt>)

  datatype FunctionParam = FunctionParam(name: string, typeAnnotation: TypeAnnotation)

  datatype FunctionDecl = FunctionDecl(name: string, params: seq<FunctionParam>, returnType: Option<TypeAnnotation>, body: Block)

  datatype ElifBranch = ElifBranch(condition: Expr, body: Block)

  datatype ProtocolProperty = ProtocolProperty(name: string, typeAnnotation: TypeAnnotation)

  datatype ProtocolMethod = ProtocolMethod(name: string, params: seq<FunctionParam>, returnType: Option<TypeAnnotation>)

  datatype Stmt =
    | VariableDecl(name: string, typeAnnotation: TypeAnnotation, initializer: Option<Expr>)
    | Assignment(target: string, value: Expr)
    | BlockStmt(block: Block)
    | IfStatement(condition: Expr, thenBranch: Block, elifBranches: seq<ElifBranch>, elseBranch: Option<Block>)
    | ForLoop(iteratorName: string, start: Expr, end: Expr, step: Option<Expr>, body: Block, isInclusive: bool)
    | WhileLoop(condition: Expr, body: Block)
    | FunctionDeclStmt(decl: FunctionDecl)
    | ReturnStatement(result: Option<Expr>)
    | ExpressionStmt(expression: Expr)
    | EnumDeclaration(name: string, variants: seq<string>, conformance: Option<string>)
    | ProtocolDeclaration(name: string, properties: seq<ProtocolProperty>, methods: seq<ProtocolMethod>)
}
