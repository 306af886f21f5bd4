/** The conversion of C expressions to Kato expressions
    (`kato/c2kato/converter/expression_converter.py`).

    Literals, names, binary operations and array accesses keep their values
    and shape; a call becomes a single name (`call_f`), or the string
    `printf_call` for `printf`, and its arguments are dropped. */
module ExpressionConverter {
  import opened Base
  import opened CAst
  import opened KatoAst

  /** `convert_expression`. */
  function ConvertExpression(e: CExpr): (r: Expr)
    ensures e.CBinaryOp? <==> r.BinaryOp?
    ensures e.CBinaryOp? ==> r.operator == e.operator
    ensures e.CArrayAccess? <==> r.ArrayAccess?
    ensures r.InptCall? == false && r.FunctionCall? == false
  {
    match e
    case CNumber(Whole(n)) => NumberLiteral(n)
    case CNumber(Decimal(lexeme)) => FloatLiteral(lexeme)
    case CString(value) => StringLiteral(value)
    case CChar(value) => CharLiteral(value)
    case CIdentifier(name) => Identifier(name)
    case CBinaryOp(left, operator, right) => BinaryOp(ConvertExpression(left), operator, ConvertExpression(right))
    case CArrayAccess(name, index) => ArrayAccess(name, ConvertExpression(index))
    case CFunctionCall(name, _) =>
      if name == "printf" then StringLiteral("printf_call") else Identifier("call_" + name)
  }

  /** Expressions without calls: the ones the conversion keeps whole. */
  predicate CallFree(e: CExpr) {
    match e
    case CBinaryOp(left, _, right) => CallFree(left) && CallFree(right)
    case CArrayAccess(_, index) => CallFree(index)
    case CFunctionCall(_, _) => false
    case _ => true
  }

  /** The C expression a converted expression comes from, for the node kinds
      the conversion produces. */
  function BackToC(r: Expr): CExpr {
    match r
    case NumberLiteral(n) => CNumber(Whole(n))
    case FloatLiteral(lexeme) => CNumber(Decimal(lexeme))
    case StringLiteral(value) => CString(value)
    case CharLiteral(value) => CChar(value)
    case Identifier(name) => CIdentifier(name)
    case BinaryOp(left, operator, right) => CBinaryOp(BackToC(left), operator, BackToC(right))
    case ArrayAccess(name, index) => CArrayAccess(name, BackToC(index))
    case InptCall(_) => CIdentifier("")
    case FunctionCall(name, _) => CIdentifier(name)
  }

  /** Without calls the conversion loses nothing: the C expression can be read
      back from its result. */
  lemma {:induction false} ConvertRoundTrip(e: CExpr)
    requires CallFree(e)
    ensures BackToC(ConvertExpression(e)) == e
  {
    match e
    case CBinaryOp(left, _, right) =>
      ConvertRoundTrip(left);
      ConvertRoundTrip(right);
    case CArrayAccess(_, index) =>
      ConvertRoundTrip(index);
    case _ =>
  }

  /** Conversion is one-to-one on expressions without calls. */
  lemma ConvertInjective(e1: CExpr, e2: CExpr)
    requires CallFree(e1) && CallFree(e2) && ConvertExpression(e1) == ConvertExpression(e2)
    ensures e1 == e2
  {
    ConvertRoundTrip(e1);
    ConvertRoundTrip(e2);
  }

  /** A call converts to one leaf whatever its arguments: two calls of the
      same function convert alike. */
  lemma CallArgumentsDropped(name: string, args1: seq<CExpr>, args2: seq<CExpr>)
    ensures ConvertExpression(CFunctionCall(name, args1)) == ConvertExpression(CFunctionCall(name, args2))
    ensures ConvertExpression(CFunctionCall(name, args1)).StringLiteral? <==> name == "printf"
  {
  }
}
