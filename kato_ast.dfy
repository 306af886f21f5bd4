/** The Kato syntax tree (`kato/parser/ast/expressions.py`,
    `kato/parser/ast/statements.py`), shared by the Kato parser, the optimizer,
    the C code generator, the C-to-Kato converter and the Kato text generator.

    The node kinds the C code generator handles but the Kato parser never builds
    (`FunctionCall`, `ArrayDeclaration`, `ArrayAssignment`) are included, and so
    is `NoStatement`: the Python `None` that the C-to-Kato statement converter
    can leave inside a body. */
module KatoAst {
  import opened Base

  datatype Expr =
    | StringLiteral(value: string)
    | NumberLiteral(number: nat)
    | FloatLiteral(lexeme: string)
    | CharLiteral(value: string)
    | Identifier(name: string)
    | ArrayAccess(name: string, index: Expr)
    | BinaryOp(left: Expr, operator: string, right: Expr)
    | InptCall(prompt: Expr)
    | FunctionCall(name: string, arguments: seq<Expr>)

  datatype Stmt =
    | PrintStatement(values: seq<Expr>)
    | ReturnStatement(result: Option<Expr>)
    | VarDeclaration(varType: string, name: string, initial: Option<Expr>)
    | CallStatement(funcName: string, arguments: seq<Expr>)
    | IfStatement(condition: Expr, ifBody: seq<Stmt>, elifParts: seq<ElifPart>, elseBody: ElseClause)
    | Assignment(name: string, value: Expr)
    | WhileStatement(condition: Expr, body: seq<Stmt>)
    | IncrementStatement(name: string)
    | DecrementStatement(name: string)
    | ArrayDeclaration(arrayType: string, name: string, elements: seq<Expr>)
    | ArrayAssignment(name: string, index: Expr, value: Expr)
    | NoStatement

  /** One `elif (condition) { body }` part of an `if`. */
  datatype ElifPart = ElifPart(condition: Expr, body: seq<Stmt>)

  /** The optional `else { body }` of an `if`; `NoElse` is the source's `None`. */
  datatype ElseClause = NoElse | ElseBlock(statements: seq<Stmt>)

  datatype Function = Function(name: string, params: seq<string>, body: seq<Stmt>)

  datatype Program = Program(functions: seq<Function>)
}
