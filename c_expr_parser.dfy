/** The C expression parser (`kato/c2kato/parser/expression_parser.py`).

    Precedence, lowest first: `||`, `&&`, the six comparisons, `+ -`,
    `* / %`, then primaries.  Every binary level associates to the left,
    comparisons included.  A name must have been declared as a variable or a
    function; `&` in front of a name makes the name `&name`, in front of any
    other operand it is dropped.

    The specification functions take the token list, the names an expression
    may mention (`Known`) and a position, and yield the expression with the
    position after it; the `CExpressionParser` methods move the shared cursor
    and are proved to agree with them. */
module CExprParser {
  import opened Base
  import opened TokenValues
  import opened CTokens
  import opened CAst
  import opened CCursor

  predicate IsComparison(k: CKind) {
    k.EqualEqual? || k.NotEqual? || k.Less? || k.Greater? || k.LessEqual? || k.GreaterEqual?
  }

  predicate IsAdditive(k: CKind) { k.Plus? || k.Minus? }

  predicate IsMultiplicative(k: CKind) { k.Asterisk? || k.Slash? || k.Percent? }

  /** `parse_expression` and `parse_logical_or`. */
  function LogicalOr(tokens: seq<CToken>, known: set<string>, p: nat): (r: Result<(CExpr, nat)>)
    requires p <= |tokens| && WellFormed(tokens)
    ensures r.Ok? ==> p < r.value.1 <= |tokens|
    decreases |tokens| - p, 6
  {
    var first :- LogicalAnd(tokens, known, p);
    LogicalOrRest(tokens, known, first.1, first.0)
  }

  /** The loop of `parse_logical_or`, once `left` is parsed and the cursor is at `p`. */
  function LogicalOrRest(tokens: seq<CToken>, known: set<string>, p: nat, left: CExpr): (r: Result<(CExpr, nat)>)
    requires p <= |tokens| && WellFormed(tokens)
    ensures r.Ok? ==> p <= r.value.1 <= |tokens|
    decreases |tokens| - p, 0
  {
    if p < |tokens| && tokens[p].kind.Or? then
      var right :- LogicalAnd(tokens, known, p + 1);
      LogicalOrRest(tokens, known, right.1, CBinaryOp(left, tokens[p].value.text, right.0))
    else
      Ok((left, p))
  }

  /** `parse_logical_and`. */
  function LogicalAnd(tokens: seq<CToken>, known: set<string>, p: nat): (r: Result<(CExpr, nat)>)
    requires p <= |tokens| && WellFormed(tokens)
    ensures r.Ok? ==> p < r.value.1 <= |tokens|
    decreases |tokens| - p, 5
  {
    var first :- Comparison(tokens, known, p);
    LogicalAndRest(tokens, known, first.1, first.0)
  }

  function LogicalAndRest(tokens: seq<CToken>, known: set<string>, p: nat, left: CExpr): (r: Result<(CExpr, nat)>)
    requires p <= |tokens| && WellFormed(tokens)
    ensures r.Ok? ==> p <= r.value.1 <= |tokens|
    decreases |tokens| - p, 0
  {
    if p < |tokens| && tokens[p].kind.And? then
      var right :- Comparison(tokens, known, p + 1);
      LogicalAndRest(tokens, known, right.1, CBinaryOp(left, tokens[p].value.text, right.0))
    else
      Ok((left, p))
  }

  /** `parse_comparison`: comparisons chain, each taking the chain so far as
      its left operand. */
  function Comparison(tokens: seq<CToken>, known: set<string>, p: nat): (r: Result<(CExpr, nat)>)
    requires p <= |tokens| && WellFormed(tokens)
    ensures r.Ok? ==> p < r.value.1 <= |tokens|
    decreases |tokens| - p, 4
  {
    var first :- Additive(tokens, known, p);
    ComparisonRest(tokens, known, first.1, first.0)
  }

  function ComparisonRest(tokens: seq<CToken>, known: set<string>, p: nat, left: CExpr): (r: Result<(CExpr, nat)>)
    requires p <= |tokens| && WellFormed(tokens)
    ensures r.Ok? ==> p <= r.value.1 <= |tokens|
    decreases |tokens| - p, 0
  {
    if p < |tokens| && IsComparison(tokens[p].kind) then
      var right :- Additive(tokens, known, p + 1);
      ComparisonRest(tokens, known, right.1, CBinaryOp(left, tokens[p].value.text, right.0))
    else
      Ok((left, p))
  }

  /** `parse_additive`. */
  function Additive(tokens: seq<CToken>, known: set<string>, p: nat): (r: Result<(CExpr, nat)>)
    requires p <= |tokens| && WellFormed(tokens)
    ensures r.Ok? ==> p < r.value.1 <= |tokens|
    decreases |tokens| - p, 3
  {
    var first :- Multiplicative(tokens, known, p);
    AdditiveRest(tokens, known, first.1, first.0)
  }

  function AdditiveRest(tokens: seq<CToken>, known: set<string>, p: nat, left: CExpr): (r: Result<(CExpr, nat)>)
    requires p <= |tokens| && WellFormed(tokens)
    ensures r.Ok? ==> p <= r.value.1 <= |tokens|
    decreases |tokens| - p, 0
  {
    if p < |tokens| && IsAdditive(tokens[p].kind) then
      var right :- Multiplicative(tokens, known, p + 1);
      AdditiveRest(tokens, known, right.1, CBinaryOp(left, tokens[p].value.text, right.0))
    else
      Ok((left, p))
  }

  /** `parse_multiplicative`. */
  function Multiplicative(tokens: seq<CToken>, known: set<string>, p: nat): (r: Result<(CExpr, nat)>)
    requires p <= |tokens| && WellFormed(tokens)
    ensures r.Ok? ==> p < r.value.1 <= |tokens|
    decreases |tokens| - p, 2
  {
    var first :- Primary(tokens, known, p);
    MultiplicativeRest(tokens, known, first.1, first.0)
  }

  function MultiplicativeRest(tokens: seq<CToken>, known: set<string>, p: nat, left: CExpr): (r: Result<(CExpr, nat)>)
    requires p <= |tokens| && WellFormed(tokens)
    ensures r.Ok? ==> p <= r.value.1 <= |tokens|
    decreases |tokens| - p, 0
  {
    if p < |tokens| && IsMultiplicative(tokens[p].kind) then
      var right :- Primary(tokens, known, p + 1);
      MultiplicativeRest(tokens, known, right.1, CBinaryOp(left, tokens[p].value.text, right.0))
    else
      Ok((left, p))
  }

  /** One turn of the multiplicative loop: the operator and the primary
      after it, combined with the expression so far. */
  function MultiplicativeOperand(tokens: seq<CToken>, known: set<string>, p: nat, left: CExpr): (r: Result<(CExpr, nat)>)
    requires p < |tokens| && WellFormed(tokens) && IsMultiplicative(tokens[p].kind)
    ensures r.Ok? ==> p + 1 < r.value.1 <= |tokens|
  {
    var right :- Primary(tokens, known, p + 1);
    Ok((CBinaryOp(left, tokens[p].value.text, right.0), right.1))
  }

  /** The multiplicative loop is its first turn followed by the rest. */
  lemma MultiplicativeStep(tokens: seq<CToken>, known: set<string>, p: nat, left: CExpr)
    requires p < |tokens| && WellFormed(tokens) && IsMultiplicative(tokens[p].kind)
    ensures MultiplicativeOperand(tokens, known, p, left).Err? ==>
      MultiplicativeRest(tokens, known, p, left) == Err(MultiplicativeOperand(tokens, known, p, left).error)
    ensures MultiplicativeOperand(tokens, known, p, left).Ok? ==>
      var next := MultiplicativeOperand(tokens, known, p, left).value;
      MultiplicativeRest(tokens, known, p, left) == MultiplicativeRest(tokens, known, next.1, next.0)
  {
  }

  /** `parse_primary`: `&` and an operand, a literal, a declared name (a call
      when `(` follows, an element when `[` follows) or a parenthesised
      expression. */
  function Primary(tokens: seq<CToken>, known: set<string>, p: nat): (r: Result<(CExpr, nat)>)
    requires p <= |tokens| && WellFormed(tokens)
    ensures r.Ok? ==> p < r.value.1 <= |tokens|
    decreases |tokens| - p, 1
  {
    if p == |tokens| then Err(Unpositioned(EndInExpression))
    else
      var t := tokens[p];
      if t.kind.Ampersand? then
        var operand :- Primary(tokens, known, p + 1);
        if operand.0.CIdentifier? then Ok((CIdentifier("&" + operand.0.name), operand.1))
        else Ok(operand)
      else if t.kind.Number? then Ok((CNumber(Whole(t.value.n)), p + 1))
      else if t.kind.FloatNumber? then Ok((CNumber(Decimal(t.value.lexeme)), p + 1))
      else if t.kind.Str? then Ok((CString(t.value.text), p + 1))
      else if t.kind.Char? then Ok((CChar(t.value.text), p + 1))
      else if t.kind.Identifier? then NamePrimary(tokens, known, p)
      else if t.kind.LParen? then
        var inner :- LogicalOr(tokens, known, p + 1);
        var close :- ExpectAt(tokens, inner.1, RParen);
        Ok((inner.0, close.1))
      else
        Err(SyntaxError(UnexpectedInExpression(KindName(t.kind)), t.line, t.column))
  }

  /** The name branch of `parse_primary` at the identifier `p`: the name
      must be declared, and is then a call, an element or the name itself. */
  function NamePrimary(tokens: seq<CToken>, known: set<string>, p: nat): (r: Result<(CExpr, nat)>)
    requires p < |tokens| && WellFormed(tokens) && tokens[p].kind.Identifier?
    ensures r.Ok? ==> p < r.value.1 <= |tokens|
    decreases |tokens| - p, 0
  {
    var t := tokens[p];
    var name := t.value.text;
    if name !in known then Err(SyntaxError(UndeclaredVariable(name), t.line, t.column))
    else if KindIs(tokens, p + 1, LParen) then Call(tokens, known, name, p + 1)
    else if KindIs(tokens, p + 1, LBracket) then ElementAt(tokens, known, name, p + 1)
    else Ok((CIdentifier(name), p + 1))
  }

  /** The element `name[index]`, from its `[` at `p`. */
  function ElementAt(tokens: seq<CToken>, known: set<string>, name: string, p: nat): (r: Result<(CExpr, nat)>)
    requires p < |tokens| && WellFormed(tokens)
    ensures r.Ok? ==> p < r.value.1 <= |tokens| && r.value.0.CArrayAccess? && r.value.0 == CArrayAccess(name, r.value.0.index)
    decreases |tokens| - p, 9
  {
    var index :- LogicalOr(tokens, known, p + 1);
    var close :- ExpectAt(tokens, index.1, RBracket);
    Ok((CArrayAccess(name, index.0), close.1))
  }

  /** `parse_function_call` at `p`, the `(` after the name. */
  function Call(tokens: seq<CToken>, known: set<string>, name: string, p: nat): (r: Result<(CExpr, nat)>)
    requires p <= |tokens| && WellFormed(tokens)
    ensures r.Ok? ==> p < r.value.1 <= |tokens|
    decreases |tokens| - p, 8
  {
    var open :- ExpectAt(tokens, p, LParen);
    CallArguments(tokens, known, name, open.1, [])
  }

  /** The argument loop of `parse_function_call`, with `args` parsed so far:
      arguments up to `)`, each followed by `,` or by the `)`. */
  function CallArguments(tokens: seq<CToken>, known: set<string>, name: string, p: nat, args: seq<CExpr>): (r: Result<(CExpr, nat)>)
    requires p <= |tokens| && WellFormed(tokens)
    ensures r.Ok? ==> p < r.value.1 <= |tokens|
    decreases |tokens| - p, 7
  {
    if p < |tokens| && !tokens[p].kind.RParen? then
      var arg :- LogicalOr(tokens, known, p);
      var q := arg.1;
      if q < |tokens| && tokens[q].kind.Comma? then CallArguments(tokens, known, name, q + 1, args + [arg.0])
      else if q < |tokens| && !tokens[q].kind.RParen? then
        Err(SyntaxError(ExpectedCommaOrParenInCall(KindName(tokens[q].kind)), tokens[q].line, tokens[q].column))
      else CallArguments(tokens, known, name, q, args + [arg.0])
    else
      var close :- ExpectAt(tokens, p, RParen);
      Ok((CFunctionCall(name, args), close.1))
  }

  // ---------------------------------------------------------------------
  // What a parsed expression is made of

  /** The spellings of the binary operators. */
  predicate BinaryOperator(op: string) {
    op in {"||", "&&", "==", "!=", "<", ">", "<=", ">=", "+", "-", "*", "/", "%"}
  }

  /** A declared name, possibly behind any number of `&`. */
  predicate NameKnown(n: string, known: set<string>)
    decreases |n|
  {
    n in known || (|n| > 0 && n[0] == '&' && NameKnown(n[1..], known))
  }

  /** Every operator is a C binary operator and every name, array and called
      function was declared. */
  predicate WellFormedExpr(e: CExpr, known: set<string>) {
    match e
    case CIdentifier(n) => NameKnown(n, known)
    case CArrayAccess(a, index) => a in known && WellFormedExpr(index, known)
    case CFunctionCall(f, args) => f in known && forall a | a in args :: WellFormedExpr(a, known)
    case CBinaryOp(l, op, r) => BinaryOperator(op) && WellFormedExpr(l, known) && WellFormedExpr(r, known)
    case _ => true
  }

  lemma OperatorSpelling(t: CToken)
    requires WellFormedToken(t)
    requires t.kind.Or? || t.kind.And? || IsComparison(t.kind) || IsAdditive(t.kind) || IsMultiplicative(t.kind)
    ensures BinaryOperator(t.value.text)
  {
  }

  /** Whatever the parser accepts mentions only declared names and the
      thirteen binary operators. */
  lemma {:induction false} LogicalOrWellFormed(tokens: seq<CToken>, known: set<string>, p: nat)
    requires p <= |tokens| && WellFormed(tokens)
    ensures LogicalOr(tokens, known, p).Ok? ==> WellFormedExpr(LogicalOr(tokens, known, p).value.0, known)
    decreases |tokens| - p, 6
  {
    LogicalAndWellFormed(tokens, known, p);
    var first := LogicalAnd(tokens, known, p);
    if first.Ok? {
      LogicalOrRestWellFormed(tokens, known, first.value.1, first.value.0);
    }
  }

  lemma {:induction false} LogicalOrRestWellFormed(tokens: seq<CToken>, known: set<string>, p: nat, left: CExpr)
    requires p <= |tokens| && WellFormed(tokens) && WellFormedExpr(left, known)
    ensures LogicalOrRest(tokens, known, p, left).Ok? ==> WellFormedExpr(LogicalOrRest(tokens, known, p, left).value.0, known)
    decreases |tokens| - p, 0
  {
    if p < |tokens| && tokens[p].kind.Or? {
      LogicalAndWellFormed(tokens, known, p + 1);
      var right := LogicalAnd(tokens, known, p + 1);
      if right.Ok? {
        Spelled(tokens, p);
        OperatorSpelling(tokens[p]);
        LogicalOrRestWellFormed(tokens, known, right.value.1, CBinaryOp(left, tokens[p].value.text, right.value.0));
      }
    }
  }

  lemma {:induction false} LogicalAndWellFormed(tokens: seq<CToken>, known: set<string>, p: nat)
    requires p <= |tokens| && WellFormed(tokens)
    ensures LogicalAnd(tokens, known, p).Ok? ==> WellFormedExpr(LogicalAnd(tokens, known, p).value.0, known)
    decreases |tokens| - p, 5
  {
    ComparisonWellFormed(tokens, known, p);
    var first := Comparison(tokens, known, p);
    if first.Ok? {
      LogicalAndRestWellFormed(tokens, known, first.value.1, first.value.0);
    }
  }

  lemma {:induction false} LogicalAndRestWellFormed(tokens: seq<CToken>, known: set<string>, p: nat, left: CExpr)
    requires p <= |tokens| && WellFormed(tokens) && WellFormedExpr(left, known)
    ensures LogicalAndRest(tokens, known, p, left).Ok? ==> WellFormedExpr(LogicalAndRest(tokens, known, p, left).value.0, known)
    decreases |tokens| - p, 0
  {
    if p < |tokens| && tokens[p].kind.And? {
      ComparisonWellFormed(tokens, known, p + 1);
      var right := Comparison(tokens, known, p + 1);
      if right.Ok? {
        Spelled(tokens, p);
        OperatorSpelling(tokens[p]);
        LogicalAndRestWellFormed(tokens, known, right.value.1, CBinaryOp(left, tokens[p].value.text, right.value.0));
      }
    }
  }

  lemma {:induction false} ComparisonWellFormed(tokens: seq<CToken>, known: set<string>, p: nat)
    requires p <= |tokens| && WellFormed(tokens)
    ensures Comparison(tokens, known, p).Ok? ==> WellFormedExpr(Comparison(tokens, known, p).value.0, known)
    decreases |tokens| - p, 4
  {
    AdditiveWellFormed(tokens, known, p);
    var first := Additive(tokens, known, p);
    if first.Ok? {
      ComparisonRestWellFormed(tokens, known, first.value.1, first.value.0);
    }
  }

  lemma {:induction false} ComparisonRestWellFormed(tokens: seq<CToken>, known: set<string>, p: nat, left: CExpr)
    requires p <= |tokens| && WellFormed(tokens) && WellFormedExpr(left, known)
    ensures ComparisonRest(tokens, known, p, left).Ok? ==> WellFormedExpr(ComparisonRest(tokens, known, p, left).value.0, known)
    decreases |tokens| - p, 0
  {
    if p < |tokens| && IsComparison(tokens[p].kind) {
      AdditiveWellFormed(tokens, known, p + 1);
      var right := Additive(tokens, known, p + 1);
      if right.Ok? {
        Spelled(tokens, p);
        OperatorSpelling(tokens[p]);
        ComparisonRestWellFormed(tokens, known, right.value.1, CBinaryOp(left, tokens[p].value.text, right.value.0));
      }
    }
  }

  lemma {:induction false} AdditiveWellFormed(tokens: seq<CToken>, known: set<string>, p: nat)
    requires p <= |tokens| && WellFormed(tokens)
    ensures Additive(tokens, known, p).Ok? ==> WellFormedExpr(Additive(tokens, known, p).value.0, known)
    decreases |tokens| - p, 3
  {
    MultiplicativeWellFormed(tokens, known, p);
    var first := Multiplicative(tokens, known, p);
    if first.Ok? {
      AdditiveRestWellFormed(tokens, known, first.value.1, first.value.0);
    }
  }

  lemma {:induction false} AdditiveRestWellFormed(tokens: seq<CToken>, known: set<string>, p: nat, left: CExpr)
    requires p <= |tokens| && WellFormed(tokens) && WellFormedExpr(left, known)
    ensures AdditiveRest(tokens, known, p, left).Ok? ==> WellFormedExpr(AdditiveRest(tokens, known, p, left).value.0, known)
    decreases |tokens| - p, 0
  {
    if p < |tokens| && IsAdditive(tokens[p].kind) {
      MultiplicativeWellFormed(tokens, known, p + 1);
      var right := Multiplicative(tokens, known, p + 1);
      if right.Ok? {
        Spelled(tokens, p);
        OperatorSpelling(tokens[p]);
        AdditiveRestWellFormed(tokens, known, right.value.1, CBinaryOp(left, tokens[p].value.text, right.value.0));
      }
    }
  }

  lemma {:induction false} MultiplicativeWellFormed(tokens: seq<CToken>, known: set<string>, p: nat)
    requires p <= |tokens| && WellFormed(tokens)
    ensures Multiplicative(tokens, known, p).Ok? ==> WellFormedExpr(Multiplicative(tokens, known, p).value.0, known)
    decreases |tokens| - p, 2
  {
    PrimaryWellFormed(tokens, known, p);
    var first := Primary(tokens, known, p);
    if first.Ok? {
      MultiplicativeRestWellFormed(tokens, known, first.value.1, first.value.0);
    }
  }

  lemma {:induction false} MultiplicativeRestWellFormed(tokens: seq<CToken>, known: set<string>, p: nat, left: CExpr)
    requires p <= |tokens| && WellFormed(tokens) && WellFormedExpr(left, known)
    ensures MultiplicativeRest(tokens, known, p, left).Ok? ==> WellFormedExpr(MultiplicativeRest(tokens, known, p, left).value.0, known)
    decreases |tokens| - p, 0
  {
    if p < |tokens| && IsMultiplicative(tokens[p].kind) {
      PrimaryWellFormed(tokens, known, p + 1);
      var right := Primary(tokens, known, p + 1);
      if right.Ok? {
        Spelled(tokens, p);
        OperatorSpelling(tokens[p]);
        MultiplicativeRestWellFormed(tokens, known, right.value.1, CBinaryOp(left, tokens[p].value.text, right.value.0));
      }
    }
  }

  lemma {:induction false} PrimaryWellFormed(tokens: seq<CToken>, known: set<string>, p: nat)
    requires p <= |tokens| && WellFormed(tokens)
    ensures Primary(tokens, known, p).Ok? ==> WellFormedExpr(Primary(tokens, known, p).value.0, known)
    decreases |tokens| - p, 1
  {
    if p < |tokens| {
      var t := tokens[p];
      if t.kind.Ampersand? {
        PrimaryWellFormed(tokens, known, p + 1);
        var operand := Primary(tokens, known, p + 1);
        if operand.Ok? && operand.value.0.CIdentifier? {
          var n := operand.value.0.name;
          assert ("&" + n)[1..] == n;
        }
      } else if t.kind.Identifier? && t.value.text in known {
        if KindIs(tokens, p + 1, LParen) {
          CallWellFormed(tokens, known, t.value.text, p + 1);
        } else if KindIs(tokens, p + 1, LBracket) {
          LogicalOrWellFormed(tokens, known, p + 2);
          assert Primary(tokens, known, p) == ElementAt(tokens, known, t.value.text, p + 1);
        }
      } else if t.kind.LParen? {
        LogicalOrWellFormed(tokens, known, p + 1);
      }
    }
  }

  lemma {:induction false} CallWellFormed(tokens: seq<CToken>, known: set<string>, name: string, p: nat)
    requires p <= |tokens| && WellFormed(tokens) && name in known
    ensures Call(tokens, known, name, p).Ok? ==> WellFormedExpr(Call(tokens, known, name, p).value.0, known)
    decreases |tokens| - p, 8
  {
    if KindIs(tokens, p, LParen) {
      CallArgumentsWellFormed(tokens, known, name, p + 1, []);
    }
  }

  lemma {:induction false} CallArgumentsWellFormed(tokens: seq<CToken>, known: set<string>, name: string, p: nat, args: seq<CExpr>)
    requires p <= |tokens| && WellFormed(tokens) && name in known
    requires forall a | a in args :: WellFormedExpr(a, known)
    ensures CallArguments(tokens, known, name, p, args).Ok? ==>
      WellFormedExpr(CallArguments(tokens, known, name, p, args).value.0, known)
    decreases |tokens| - p, 7
  {
    if p < |tokens| && !tokens[p].kind.RParen? {
      LogicalOrWellFormed(tokens, known, p);
      var arg := LogicalOr(tokens, known, p);
      if arg.Ok? {
        var q := arg.value.1;
        var more := args + [arg.value.0];
        assert forall a | a in more :: WellFormedExpr(a, known);
        if q < |tokens| && tokens[q].kind.Comma? {
          CallArgumentsWellFormed(tokens, known, name, q + 1, more);
        } else if !(q < |tokens| && !tokens[q].kind.RParen?) {
          CallArgumentsWellFormed(tokens, known, name, q, more);
        }
      }
    }
  }

  // ---------------------------------------------------------------------
  // Properties of the grammar

  /** A name that was never declared is rejected where it stands. */
  lemma UndeclaredName(tokens: seq<CToken>, known: set<string>, p: nat)
    requires p < |tokens| && WellFormed(tokens)
    requires tokens[p].kind.Identifier? && tokens[p].value.text !in known
    ensures Primary(tokens, known, p) ==
      Err(SyntaxError(UndeclaredVariable(tokens[p].value.text), tokens[p].line, tokens[p].column))
    ensures LogicalOr(tokens, known, p) == Primary(tokens, known, p)
  {
    var e := Primary(tokens, known, p);
    assert e == NamePrimary(tokens, known, p);
    assert e.Err?;
    assert Multiplicative(tokens, known, p) == e;
    assert Additive(tokens, known, p) == e;
    assert Comparison(tokens, known, p) == e;
    assert LogicalAnd(tokens, known, p) == e;
  }

  /** Running out of tokens inside an expression is reported without a
      position; a token that cannot start an operand is reported where it
      stands. */
  lemma OperandErrors(tokens: seq<CToken>, known: set<string>, p: nat)
    requires p <= |tokens| && WellFormed(tokens)
    ensures p == |tokens| ==> Primary(tokens, known, p) == Err(Unpositioned(EndInExpression))
    ensures p < |tokens| && !StartsOperand(tokens[p].kind) ==>
      Primary(tokens, known, p) == Err(SyntaxError(UnexpectedInExpression(KindName(tokens[p].kind)), tokens[p].line, tokens[p].column))
  {
  }

  /** The tokens an operand can start with. */
  predicate StartsOperand(k: CKind) {
    k.Ampersand? || k.Number? || k.FloatNumber? || k.Str? || k.Char? || k.Identifier? || k.LParen?
  }

  /** `&` before a declared name is kept in the name; before a number it is dropped. */
  lemma AddressOf(tokens: seq<CToken>, known: set<string>, p: nat)
    requires p + 2 <= |tokens| && WellFormed(tokens) && tokens[p].kind.Ampersand?
    ensures PlainName(tokens, known, p + 1) ==>
      Primary(tokens, known, p) == Ok((CIdentifier("&" + tokens[p + 1].value.text), p + 2))
    ensures tokens[p + 1].kind.Number? ==>
      Primary(tokens, known, p) == Ok((CNumber(Whole(tokens[p + 1].value.n)), p + 2))
  {
    if PlainName(tokens, known, p + 1) {
      assert Primary(tokens, known, p + 1) == Ok((CIdentifier(tokens[p + 1].value.text), p + 2));
    }
  }

  /** A declared name at `i` used as a plain variable: followed by neither `(` nor `[`. */
  predicate PlainName(tokens: seq<CToken>, known: set<string>, i: nat) {
    && KindIs(tokens, i, Identifier)
    && tokens[i].value.Text? && tokens[i].value.text in known
    && !KindIs(tokens, i + 1, LParen) && !KindIs(tokens, i + 1, LBracket)
  }

  /** A plain name followed by a token that is no arithmetic operator is a whole sum. */
  lemma NameSum(tokens: seq<CToken>, known: set<string>, p: nat)
    requires p < |tokens| && WellFormed(tokens) && PlainName(tokens, known, p)
    requires p + 1 == |tokens| || !(IsAdditive(tokens[p + 1].kind) || IsMultiplicative(tokens[p + 1].kind))
    ensures Additive(tokens, known, p) == Ok((CIdentifier(tokens[p].value.text), p + 1))
  {
    var a := CIdentifier(tokens[p].value.text);
    assert Primary(tokens, known, p) == Ok((a, p + 1));
    assert Multiplicative(tokens, known, p) == Ok((a, p + 1));
  }

  /** The kinds that continue a comparison operand or a comparison chain. */
  predicate ContinuesComparison(k: CKind) {
    IsComparison(k) || IsAdditive(k) || IsMultiplicative(k)
  }

  /** `a < b < c` groups as `(a < b) < c`: comparisons chain to the left. */
  lemma ComparisonsChainLeft(tokens: seq<CToken>, known: set<string>, p: nat)
    requires p + 5 <= |tokens| && WellFormed(tokens)
    requires PlainName(tokens, known, p) && PlainName(tokens, known, p + 2) && PlainName(tokens, known, p + 4)
    requires IsComparison(tokens[p + 1].kind) && IsComparison(tokens[p + 3].kind)
    requires p + 5 == |tokens| || !ContinuesComparison(tokens[p + 5].kind)
    ensures Comparison(tokens, known, p) == Ok((
      CBinaryOp(
        CBinaryOp(CIdentifier(tokens[p].value.text), tokens[p + 1].value.text, CIdentifier(tokens[p + 2].value.text)),
        tokens[p + 3].value.text,
        CIdentifier(tokens[p + 4].value.text)),
      p + 5))
  {
    var a := CIdentifier(tokens[p].value.text);
    var b := CIdentifier(tokens[p + 2].value.text);
    var c := CIdentifier(tokens[p + 4].value.text);
    NameSum(tokens, known, p);
    NameSum(tokens, known, p + 2);
    NameSum(tokens, known, p + 4);
    var ab := CBinaryOp(a, tokens[p + 1].value.text, b);
    var abc := CBinaryOp(ab, tokens[p + 3].value.text, c);
    assert ComparisonRest(tokens, known, p + 5, abc) == Ok((abc, p + 5));
    assert ComparisonRest(tokens, known, p + 3, ab) == Ok((abc, p + 5));
    assert ComparisonRest(tokens, known, p + 1, a) == Ok((abc, p + 5));
  }

  /** A plain name followed by no operator of a tighter level is a whole conjunct. */
  lemma NameConjunct(tokens: seq<CToken>, known: set<string>, p: nat)
    requires p < |tokens| && WellFormed(tokens) && PlainName(tokens, known, p)
    requires p + 1 == |tokens| || !ContinuesComparison(tokens[p + 1].kind)
    ensures Comparison(tokens, known, p) == Ok((CIdentifier(tokens[p].value.text), p + 1))
  {
    NameSum(tokens, known, p);
  }

  /** `b && c` over two plain names is one conjunction. */
  lemma NamesConjoined(tokens: seq<CToken>, known: set<string>, q: nat)
    requires q + 3 <= |tokens| && WellFormed(tokens)
    requires PlainName(tokens, known, q) && PlainName(tokens, known, q + 2) && tokens[q + 1].kind.And?
    requires q + 3 == |tokens| || !(ContinuesComparison(tokens[q + 3].kind) || tokens[q + 3].kind.And?)
    ensures LogicalAnd(tokens, known, q) == Ok((
      CBinaryOp(CIdentifier(tokens[q].value.text), "&&", CIdentifier(tokens[q + 2].value.text)), q + 3))
  {
    var b := CIdentifier(tokens[q].value.text);
    var c := CIdentifier(tokens[q + 2].value.text);
    Spelled(tokens, q + 1);
    NameConjunct(tokens, known, q);
    NameConjunct(tokens, known, q + 2);
    var bc := CBinaryOp(b, "&&", c);
    assert LogicalAndRest(tokens, known, q + 3, bc) == Ok((bc, q + 3));
    assert LogicalAndRest(tokens, known, q + 1, b) == Ok((bc, q + 3));
  }

  /** `a || b && c` groups as `a || (b && c)`: `&&` binds tighter than `||`. */
  lemma AndBindsTighterThanOr(tokens: seq<CToken>, known: set<string>, p: nat)
    requires p + 5 <= |tokens| && WellFormed(tokens)
    requires PlainName(tokens, known, p) && PlainName(tokens, known, p + 2) && PlainName(tokens, known, p + 4)
    requires tokens[p + 1].kind.Or? && tokens[p + 3].kind.And?
    requires p + 5 == |tokens| || !(ContinuesComparison(tokens[p + 5].kind) || tokens[p + 5].kind.And? || tokens[p + 5].kind.Or?)
    ensures LogicalOr(tokens, known, p) == Ok((
      CBinaryOp(
        CIdentifier(tokens[p].value.text),
        "||",
        CBinaryOp(CIdentifier(tokens[p + 2].value.text), "&&", CIdentifier(tokens[p + 4].value.text))),
      p + 5))
  {
    var a := CIdentifier(tokens[p].value.text);
    var bc := CBinaryOp(CIdentifier(tokens[p + 2].value.text), "&&", CIdentifier(tokens[p + 4].value.text));
    Spelled(tokens, p + 1);
    NameConjunct(tokens, known, p);
    assert LogicalAnd(tokens, known, p) == Ok((a, p + 1));
    NamesConjoined(tokens, known, p + 2);
    var abc := CBinaryOp(a, "||", bc);
    assert LogicalOrRest(tokens, known, p + 5, abc) == Ok((abc, p + 5));
    assert LogicalOrRest(tokens, known, p + 1, a) == Ok((abc, p + 5));
  }

  /** A declared name followed by `()` is a call with no arguments. */
  lemma EmptyCall(tokens: seq<CToken>, known: set<string>, p: nat)
    requires p + 3 <= |tokens| && WellFormed(tokens)
    requires KindIs(tokens, p, Identifier) && tokens[p].value.text in known
    requires tokens[p + 1].kind.LParen? && tokens[p + 2].kind.RParen?
    ensures Primary(tokens, known, p) == Ok((CFunctionCall(tokens[p].value.text, []), p + 3))
  {
    var call := CFunctionCall(tokens[p].value.text, []);
    assert CallArguments(tokens, known, tokens[p].value.text, p + 2, []) == Ok((call, p + 3));
    assert Call(tokens, known, tokens[p].value.text, p + 1) == Ok((call, p + 3));
  }

  // Precedence and associativity for every expression whose operands are
  // not parenthesised groups (the tree keeps no node for parentheses).
  // Each level is a chain growing to the left whose right operands come
  // from the next tighter level.

  /** A product: `*`, `/` and `%` over single operands. */
  predicate ProductShape(e: CExpr) {
    match e
    case CBinaryOp(l, op, r) => (op == "*" || op == "/" || op == "%") && ProductShape(l) && !r.CBinaryOp?
    case _ => true
  }

  /** A sum: `+` and `-` over products. */
  predicate SumShape(e: CExpr) {
    ProductShape(e) || (e.CBinaryOp? && (e.operator == "+" || e.operator == "-") && SumShape(e.left) && ProductShape(e.right))
  }

  /** A chain of comparisons over sums. */
  predicate RelationShape(e: CExpr) {
    SumShape(e) || (e.CBinaryOp? && e.operator in {"==", "!=", "<", ">", "<=", ">="} && RelationShape(e.left) && SumShape(e.right))
  }

  /** A conjunction: `&&` over comparisons. */
  predicate ConjunctionShape(e: CExpr) {
    RelationShape(e) || (e.CBinaryOp? && e.operator == "&&" && ConjunctionShape(e.left) && RelationShape(e.right))
  }

  /** A disjunction: `||` over conjunctions. */
  predicate DisjunctionShape(e: CExpr) {
    ConjunctionShape(e) || (e.CBinaryOp? && e.operator == "||" && DisjunctionShape(e.left) && ConjunctionShape(e.right))
  }

  /** A binary operator token, or the `&` that takes an operand. */
  predicate TakesOperand(k: CKind) {
    k.Or? || k.And? || IsComparison(k) || IsAdditive(k) || IsMultiplicative(k) || k.Ampersand?
  }

  /** No operand from `p` on is a parenthesised group: `(` never follows an
      operator or `&`. */
  predicate UngroupedFrom(tokens: seq<CToken>, p: nat) {
    forall i :: p <= i < |tokens| - 1 && TakesOperand(tokens[i].kind) ==> !tokens[i + 1].kind.LParen?
  }

  /** An operand that is not a parenthesised group is never an operator node. */
  lemma {:induction false} PrimaryNotBinary(tokens: seq<CToken>, known: set<string>, p: nat)
    requires p <= |tokens| && WellFormed(tokens) && UngroupedFrom(tokens, p) && !KindIs(tokens, p, LParen)
    ensures Primary(tokens, known, p).Ok? ==> !Primary(tokens, known, p).value.0.CBinaryOp?
    decreases |tokens| - p
  {
    if p < |tokens| && tokens[p].kind.Ampersand? {
      PrimaryNotBinary(tokens, known, p + 1);
    } else if p < |tokens| && tokens[p].kind.Identifier? && KindIs(tokens, p + 1, LParen) {
      if Call(tokens, known, tokens[p].value.text, p + 1).Ok? {
        CallArgumentsIsCall(tokens, known, tokens[p].value.text, p + 2, []);
      }
    }
  }

  /** The argument loop ends in a call of the name it was given. */
  lemma {:induction false} CallArgumentsIsCall(tokens: seq<CToken>, known: set<string>, name: string, p: nat, args: seq<CExpr>)
    requires p <= |tokens| && WellFormed(tokens)
    ensures CallArguments(tokens, known, name, p, args).Ok? ==>
      CallArguments(tokens, known, name, p, args).value.0.CFunctionCall? &&
      CallArguments(tokens, known, name, p, args).value.0.name == name
    decreases |tokens| - p
  {
    if p < |tokens| && !tokens[p].kind.RParen? {
      var arg := LogicalOr(tokens, known, p);
      if arg.Ok? {
        var q := arg.value.1;
        if q < |tokens| && tokens[q].kind.Comma? {
          CallArgumentsIsCall(tokens, known, name, q + 1, args + [arg.value.0]);
        } else if q < |tokens| && !tokens[q].kind.RParen? {
        } else {
          CallArgumentsIsCall(tokens, known, name, q, args + [arg.value.0]);
        }
      }
    }
  }

  lemma {:induction false} ProductRestShape(tokens: seq<CToken>, known: set<string>, p: nat, left: CExpr)
    requires p <= |tokens| && WellFormed(tokens) && UngroupedFrom(tokens, p) && ProductShape(left)
    ensures MultiplicativeRest(tokens, known, p, left).Ok? ==> ProductShape(MultiplicativeRest(tokens, known, p, left).value.0)
    decreases |tokens| - p
  {
    if p < |tokens| && IsMultiplicative(tokens[p].kind) {
      Spelled(tokens, p);
      PrimaryNotBinary(tokens, known, p + 1);
      var right := Primary(tokens, known, p + 1);
      if right.Ok? {
        ProductRestShape(tokens, known, right.value.1, CBinaryOp(left, tokens[p].value.text, right.value.0));
      }
    }
  }

  lemma ProductShapeHolds(tokens: seq<CToken>, known: set<string>, p: nat)
    requires p <= |tokens| && WellFormed(tokens) && UngroupedFrom(tokens, p) && !KindIs(tokens, p, LParen)
    ensures Multiplicative(tokens, known, p).Ok? ==> ProductShape(Multiplicative(tokens, known, p).value.0)
  {
    PrimaryNotBinary(tokens, known, p);
    var first := Primary(tokens, known, p);
    if first.Ok? {
      ProductRestShape(tokens, known, first.value.1, first.value.0);
    }
  }

  lemma {:induction false} SumRestShape(tokens: seq<CToken>, known: set<string>, p: nat, left: CExpr)
    requires p <= |tokens| && WellFormed(tokens) && UngroupedFrom(tokens, p) && SumShape(left)
    ensures AdditiveRest(tokens, known, p, left).Ok? ==> SumShape(AdditiveRest(tokens, known, p, left).value.0)
    decreases |tokens| - p
  {
    if p < |tokens| && IsAdditive(tokens[p].kind) {
      Spelled(tokens, p);
      var right := Multiplicative(tokens, known, p + 1);
      if right.Ok? {
        ProductShapeHolds(tokens, known, p + 1);
        SumRestShape(tokens, known, right.value.1, CBinaryOp(left, tokens[p].value.text, right.value.0));
      }
    }
  }

  lemma SumShapeHolds(tokens: seq<CToken>, known: set<string>, p: nat)
    requires p <= |tokens| && WellFormed(tokens) && UngroupedFrom(tokens, p) && !KindIs(tokens, p, LParen)
    ensures Additive(tokens, known, p).Ok? ==> SumShape(Additive(tokens, known, p).value.0)
  {
    ProductShapeHolds(tokens, known, p);
    var first := Multiplicative(tokens, known, p);
    if first.Ok? {
      SumRestShape(tokens, known, first.value.1, first.value.0);
    }
  }

  lemma {:induction false} RelationRestShape(tokens: seq<CToken>, known: set<string>, p: nat, left: CExpr)
    requires p <= |tokens| && WellFormed(tokens) && UngroupedFrom(tokens, p) && RelationShape(left)
    ensures ComparisonRest(tokens, known, p, left).Ok? ==> RelationShape(ComparisonRest(tokens, known, p, left).value.0)
    decreases |tokens| - p
  {
    if p < |tokens| && IsComparison(tokens[p].kind) {
      Spelled(tokens, p);
      var right := Additive(tokens, known, p + 1);
      if right.Ok? {
        SumShapeHolds(tokens, known, p + 1);
        RelationRestShape(tokens, known, right.value.1, CBinaryOp(left, tokens[p].value.text, right.value.0));
      }
    }
  }

  lemma RelationShapeHolds(tokens: seq<CToken>, known: set<string>, p: nat)
    requires p <= |tokens| && WellFormed(tokens) && UngroupedFrom(tokens, p) && !KindIs(tokens, p, LParen)
    ensures Comparison(tokens, known, p).Ok? ==> RelationShape(Comparison(tokens, known, p).value.0)
  {
    SumShapeHolds(tokens, known, p);
    var first := Additive(tokens, known, p);
    if first.Ok? {
      RelationRestShape(tokens, known, first.value.1, first.value.0);
    }
  }

  lemma {:induction false} ConjunctionRestShape(tokens: seq<CToken>, known: set<string>, p: nat, left: CExpr)
    requires p <= |tokens| && WellFormed(tokens) && UngroupedFrom(tokens, p) && ConjunctionShape(left)
    ensures LogicalAndRest(tokens, known, p, left).Ok? ==> ConjunctionShape(LogicalAndRest(tokens, known, p, left).value.0)
    decreases |tokens| - p
  {
    if p < |tokens| && tokens[p].kind.And? {
      Spelled(tokens, p);
      var right := Comparison(tokens, known, p + 1);
      if right.Ok? {
        RelationShapeHolds(tokens, known, p + 1);
        ConjunctionRestShape(tokens, known, right.value.1, CBinaryOp(left, tokens[p].value.text, right.value.0));
      }
    }
  }

  lemma ConjunctionShapeHolds(tokens: seq<CToken>, known: set<string>, p: nat)
    requires p <= |tokens| && WellFormed(tokens) && UngroupedFrom(tokens, p) && !KindIs(tokens, p, LParen)
    ensures LogicalAnd(tokens, known, p).Ok? ==> ConjunctionShape(LogicalAnd(tokens, known, p).value.0)
  {
    RelationShapeHolds(tokens, known, p);
    var first := Comparison(tokens, known, p);
    if first.Ok? {
      ConjunctionRestShape(tokens, known, first.value.1, first.value.0);
    }
  }

  lemma {:induction false} DisjunctionRestShape(tokens: seq<CToken>, known: set<string>, p: nat, left: CExpr)
    requires p <= |tokens| && WellFormed(tokens) && UngroupedFrom(tokens, p) && DisjunctionShape(left)
    ensures LogicalOrRest(tokens, known, p, left).Ok? ==> DisjunctionShape(LogicalOrRest(tokens, known, p, left).value.0)
    decreases |tokens| - p
  {
    if p < |tokens| && tokens[p].kind.Or? {
      Spelled(tokens, p);
      var right := LogicalAnd(tokens, known, p + 1);
      if right.Ok? {
        ConjunctionShapeHolds(tokens, known, p + 1);
        DisjunctionRestShape(tokens, known, right.value.1, CBinaryOp(left, tokens[p].value.text, right.value.0));
      }
    }
  }

  /** Precedence and associativity of `parse_expression` for every token list
      whose operands are not parenthesised groups: `||` binds loosest, then
      `&&`, the comparisons, `+ -` and `* / %`; every level groups to the left. */
  lemma DisjunctionShapeHolds(tokens: seq<CToken>, known: set<string>, p: nat)
    requires p <= |tokens| && WellFormed(tokens) && UngroupedFrom(tokens, p) && !KindIs(tokens, p, LParen)
    ensures LogicalOr(tokens, known, p).Ok? ==> DisjunctionShape(LogicalOr(tokens, known, p).value.0)
  {
    ConjunctionShapeHolds(tokens, known, p);
    var first := LogicalAnd(tokens, known, p);
    if first.Ok? {
      DisjunctionRestShape(tokens, known, first.value.1, first.value.0);
    }
  }

  class CExpressionParser {
    const parser: CParser

    constructor (parser: CParser)
      ensures this.parser == parser
    {
      this.parser := parser;
    }

    method ParseExpression() returns (r: Result<CExpr>)
      requires parser.Valid()
      modifies parser`pos
      ensures parser.Valid() && Agrees(r, parser.pos, LogicalOr(parser.tokens, parser.Known(), old(parser.pos)))
      decreases |parser.tokens| - parser.pos, 7
    {
      r := ParseLogicalOr();
    }

    method ParseLogicalOr() returns (r: Result<CExpr>)
      requires parser.Valid()
      modifies parser`pos
      ensures parser.Valid() && Agrees(r, parser.pos, LogicalOr(parser.tokens, parser.Known(), old(parser.pos)))
      decreases |parser.tokens| - parser.pos, 6
    {
      var left :- ParseLogicalAnd();
      while parser.pos < |parser.tokens| && parser.tokens[parser.pos].kind.Or?
        invariant parser.Valid()
        invariant LogicalOrRest(parser.tokens, parser.Known(), parser.pos, left) == LogicalOr(parser.tokens, parser.Known(), old(parser.pos))
        decreases |parser.tokens| - parser.pos
      {
        var operator := parser.tokens[parser.pos].value.text;
        parser.Advance();
        ghost var at := parser.pos;
        var right :- ParseLogicalAnd();
        assert LogicalAnd(parser.tokens, parser.Known(), at) == Ok((right, parser.pos));
        left := CBinaryOp(left, operator, right);
      }
      return Ok(left);
    }

    method ParseLogicalAnd() returns (r: Result<CExpr>)
      requires parser.Valid()
      modifies parser`pos
      ensures parser.Valid() && Agrees(r, parser.pos, LogicalAnd(parser.tokens, parser.Known(), old(parser.pos)))
      decreases |parser.tokens| - parser.pos, 5
    {
      var left :- ParseComparison();
      while parser.pos < |parser.tokens| && parser.tokens[parser.pos].kind.And?
        invariant parser.Valid()
        invariant LogicalAndRest(parser.tokens, parser.Known(), parser.pos, left) == LogicalAnd(parser.tokens, parser.Known(), old(parser.pos))
        decreases |parser.tokens| - parser.pos
      {
        var operator := parser.tokens[parser.pos].value.text;
        parser.Advance();
        ghost var at := parser.pos;
        var right :- ParseComparison();
        assert Comparison(parser.tokens, parser.Known(), at) == Ok((right, parser.pos));
        left := CBinaryOp(left, operator, right);
      }
      return Ok(left);
    }

    method ParseComparison() returns (r: Result<CExpr>)
      requires parser.Valid()
      modifies parser`pos
      ensures parser.Valid() && Agrees(r, parser.pos, Comparison(parser.tokens, parser.Known(), old(parser.pos)))
      decreases |parser.tokens| - parser.pos, 4
    {
      var left :- ParseAdditive();
      while parser.pos < |parser.tokens| && IsComparison(parser.tokens[parser.pos].kind)
        invariant parser.Valid()
        invariant ComparisonRest(parser.tokens, parser.Known(), parser.pos, left) == Comparison(parser.tokens, parser.Known(), old(parser.pos))
        decreases |parser.tokens| - parser.pos
      {
        var operator := parser.tokens[parser.pos].value.text;
        parser.Advance();
        var right :- ParseAdditive();
        left := CBinaryOp(left, operator, right);
      }
      return Ok(left);
    }

    method ParseAdditive() returns (r: Result<CExpr>)
      requires parser.Valid()
      modifies parser`pos
      ensures parser.Valid() && Agrees(r, parser.pos, Additive(parser.tokens, parser.Known(), old(parser.pos)))
      decreases |parser.tokens| - parser.pos, 3
    {
      var left :- ParseMultiplicative();
      while parser.pos < |parser.tokens| && IsAdditive(parser.tokens[parser.pos].kind)
        invariant parser.Valid()
        invariant AdditiveRest(parser.tokens, parser.Known(), parser.pos, left) == Additive(parser.tokens, parser.Known(), old(parser.pos))
        decreases |parser.tokens| - parser.pos
      {
        var operator := parser.tokens[parser.pos].value.text;
        parser.Advance();
        var right :- ParseMultiplicative();
        left := CBinaryOp(left, operator, right);
      }
      return Ok(left);
    }

    method ParseMultiplicative() returns (r: Result<CExpr>)
      requires parser.Valid()
      modifies parser`pos
      ensures parser.Valid() && Agrees(r, parser.pos, Multiplicative(parser.tokens, parser.Known(), old(parser.pos)))
      decreases |parser.tokens| - parser.pos, 2
    {
      var left :- ParsePrimary();
      while parser.pos < |parser.tokens| && IsMultiplicative(parser.tokens[parser.pos].kind)
        invariant parser.Valid()
        invariant MultiplicativeRest(parser.tokens, parser.Known(), parser.pos, left) == Multiplicative(parser.tokens, parser.Known(), old(parser.pos))
        decreases |parser.tokens| - parser.pos
      {
        MultiplicativeStep(parser.tokens, parser.Known(), parser.pos, left);
        left :- ParseMultiplicativeOperand(left);
      }
      return Ok(left);
    }

    method ParseMultiplicativeOperand(left: CExpr) returns (r: Result<CExpr>)
      requires parser.Valid() && parser.pos < |parser.tokens| && IsMultiplicative(parser.tokens[parser.pos].kind)
      modifies parser`pos
      ensures parser.Valid() && Agrees(r, parser.pos, MultiplicativeOperand(parser.tokens, parser.Known(), old(parser.pos), left))
      decreases |parser.tokens| - parser.pos, 0
    {
      var operator := parser.tokens[parser.pos].value.text;
      parser.Advance();
      var right :- ParsePrimary();
      return Ok(CBinaryOp(left, operator, right));
    }

    method ParsePrimary() returns (r: Result<CExpr>)
      requires parser.Valid()
      modifies parser`pos
      ensures parser.Valid() && Agrees(r, parser.pos, Primary(parser.tokens, parser.Known(), old(parser.pos)))
      decreases |parser.tokens| - parser.pos, 1
    {
      if parser.pos == |parser.tokens| {
        return Err(Unpositioned(EndInExpression));
      }
      var token := parser.tokens[parser.pos];
      if token.kind.Ampersand? {
        parser.Advance();
        var operand :- ParsePrimary();
        if operand.CIdentifier? {
          return Ok(CIdentifier("&" + operand.name));
        }
        return Ok(operand);
      } else if token.kind.Number? {
        parser.Advance();
        return Ok(CNumber(Whole(token.value.n)));
      } else if token.kind.FloatNumber? {
        parser.Advance();
        return Ok(CNumber(Decimal(token.value.lexeme)));
      } else if token.kind.Str? {
        parser.Advance();
        return Ok(CString(token.value.text));
      } else if token.kind.Char? {
        parser.Advance();
        return Ok(CChar(token.value.text));
      } else if token.kind.Identifier? {
        r := ParseName();
        return;
      } else if token.kind.LParen? {
        parser.Advance();
        var inner :- ParseExpression();
        var _ :- parser.Expect(RParen);
        return Ok(inner);
      }
      return Err(SyntaxError(UnexpectedInExpression(KindName(token.kind)), token.line, token.column));
    }

    /** The name branch of `parse_primary`: a declared name, a call or an element. */
    method ParseName() returns (r: Result<CExpr>)
      requires parser.Valid() && parser.CurrentIs(Identifier)
      modifies parser`pos
      ensures parser.Valid() && Agrees(r, parser.pos, NamePrimary(parser.tokens, parser.Known(), old(parser.pos)))
      decreases |parser.tokens| - parser.pos, 0
    {
      ghost var spec := NamePrimary(parser.tokens, parser.Known(), parser.pos);
      var token := parser.tokens[parser.pos];
      var name := token.value.text;
      if name !in parser.declaredVariables && name !in parser.declaredFunctions {
        assert name !in parser.Known();
        r := Err(SyntaxError(UndeclaredVariable(name), token.line, token.column));
        assert spec == Err(r.error);
      } else {
        assert name in parser.Known();
        parser.Advance();
        if parser.CurrentIs(LParen) {
          assert spec == Call(parser.tokens, parser.Known(), name, parser.pos);
          r := ParseFunctionCall(name);
        } else if parser.CurrentIs(LBracket) {
          assert spec == ElementAt(parser.tokens, parser.Known(), name, parser.pos);
          r := ParseElement(name);
        } else {
          r := Ok(CIdentifier(name));
          assert spec == Ok((CIdentifier(name), parser.pos));
        }
      }
    }

    /** The element branch of `parse_primary`, from its `[`. */
    method ParseElement(name: string) returns (r: Result<CExpr>)
      requires parser.Valid() && parser.CurrentIs(LBracket)
      modifies parser`pos
      ensures parser.Valid() && Agrees(r, parser.pos, ElementAt(parser.tokens, parser.Known(), name, old(parser.pos)))
      decreases |parser.tokens| - parser.pos, 9
    {
      parser.Advance();
      var index :- ParseExpression();
      var _ :- parser.Expect(RBracket);
      return Ok(CArrayAccess(name, index));
    }

    method ParseFunctionCall(name: string) returns (r: Result<CExpr>)
      requires parser.Valid()
      modifies parser`pos
      ensures parser.Valid() && Agrees(r, parser.pos, Call(parser.tokens, parser.Known(), name, old(parser.pos)))
      decreases |parser.tokens| - parser.pos, 8
    {
      ghost var spec := Call(parser.tokens, parser.Known(), name, parser.pos);
      var _ :- parser.Expect(LParen);
      var arguments := [];
      while parser.pos < |parser.tokens| && !parser.tokens[parser.pos].kind.RParen?
        invariant parser.Valid() && old(parser.pos) < parser.pos
        invariant CallArguments(parser.tokens, parser.Known(), name, parser.pos, arguments) == spec
        decreases |parser.tokens| - parser.pos
      {
        ghost var at := parser.pos;
        var argument :- ParseExpression();
        assert LogicalOr(parser.tokens, parser.Known(), at) == Ok((argument, parser.pos));
        arguments := arguments + [argument];
        if parser.pos < |parser.tokens| && parser.tokens[parser.pos].kind.Comma? {
          parser.Advance();
        } else if parser.pos < |parser.tokens| && !parser.tokens[parser.pos].kind.RParen? {
          var token := parser.tokens[parser.pos];
          r := Err(SyntaxError(ExpectedCommaOrParenInCall(KindName(token.kind)), token.line, token.column));
          assert spec == Err(r.error);
          return;
        }
      }
      var _ :- parser.Expect(RParen);
      return Ok(CFunctionCall(name, arguments));
    }
  }
}
