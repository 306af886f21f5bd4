/** The C syntax tree the C parser builds (`kato/c2kato/ast/expressions.py`,
    `kato/c2kato/ast/statements.py`).

    A call is an expression node; in statement position (a `printf` or a call
    statement) it is `CCallStatement`.  `CNoStatement` is the Python `None`
    that the statement parser leaves in a body for a token it skips. */
module CAst {
  import opened Base

  /** The value of a NUMBER or FLOAT_NUMBER token: an integer, or the lexeme
      of a floating-point number. */
  datatype Numeral = Whole(n: nat) | Decimal(lexeme: string)

  datatype CExpr =
    | CIdentifier(name: string)
    | CNumber(number: Numeral)
    | CString(value: string)
    | CChar(value: string)
    | CBinaryOp(left: CExpr, operator: string, right: CExpr)
    | CArrayAccess(array: string, index: CExpr)
    | CFunctionCall(name: string, arguments: seq<CExpr>)

  /** The left-hand side of an assignment: a name, or `name[index]`. */
  datatype CTarget = Variable(name: string) | Element(name: string, index: CExpr)

  datatype CStmt =
    | CVarDeclaration(varType: string, name: string, initial: Option<CExpr>)
    | CArrayDeclaration(arrayType: string, name: string, size: Option<nat>, values: Option<seq<CExpr>>)
    | CAssignment(target: CTarget, value: CExpr)
    | CIfStatement(condition: CExpr, ifBody: seq<CStmt>, elseBody: CElse)
    | CWhileStatement(condition: CExpr, body: seq<CStmt>)
    | CForStatement(init: CStmt, condition: CExpr, increment: CExpr, body: seq<CStmt>)
    | CReturnStatement(result: Option<CExpr>)
    | CExpressionStatement(expression: string)
    | CCallStatement(callee: string, arguments: seq<CExpr>)
    | CNoStatement

  /** The optional `else` of an `if`; `CNoElse` is the source's `None`. */
  datatype CElse = CNoElse | CElseBlock(statements: seq<CStmt>)

  /** A parameter: its type (with a `*` appended for a pointer) and its name. */
  datatype CParam = CParam(paramType: string, name: string)

  datatype CFunctionDef = CFunctionDef(returnType: string, name: string, params: seq<CParam>, body: seq<CStmt>)

  /** The definitions of a program, in order; prototypes leave no node. */
  datatype CProgram = CProgram(declarations: seq<CFunctionDef>)

  /** A body with the skipped-token placeholders (`None`) removed. */
  function WithoutSkipped(s: seq<CStmt>): (r: seq<CStmt>)
    ensures |r| <= |s|
    ensures forall i :: 0 <= i < |r| ==> !r[i].CNoStatement?
  {
    if s == [] then []
    else WithoutSkipped(s[..|s| - 1]) + (if s[|s| - 1].CNoStatement? then [] else [s[|s| - 1]])
  }

  /** Removing the placeholders keeps exactly the other statements. */
  lemma {:induction false} WithoutSkippedKeeps(s: seq<CStmt>, x: CStmt)
    ensures x in WithoutSkipped(s) <==> x in s && !x.CNoStatement?
  {
    if s != [] {
      WithoutSkippedKeeps(s[..|s| - 1], x);
      assert s == s[..|s| - 1] + [s[|s| - 1]];
    }
  }
}
