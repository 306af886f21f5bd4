/** The Kato expression parser (`kato/parser/expression_parser.py`).

    Precedence, lowest first: one optional comparison (only where a condition
    is expected), then `+ -`, then `* / // %`, then primaries.  Both binary
    levels associate to the left.  Inside a multiplicative chain the
    lookahead `* IDENT *` ends the chain, so that the starred-name form
    `*x*` can follow a term.

    The specification functions yield the expression and the position after
    it; the `ExpressionParser` methods move the shared cursor and are proved
    to agree with them. */
module KatoExprParser {
  import opened Base
  import opened TokenValues
  import opened KatoTokens
  import opened KatoAst
  import opened KatoCursor

  predicate IsAdditive(k: Kind) { k.Plus? || k.Minus? }

  predicate IsMultiplicative(k: Kind) { k.Asterisk? || k.Slash? || k.DoubleSlash? || k.Percent? }

  predicate IsComparison(k: Kind) {
    k.EqualEqual? || k.NotEqual? || k.Less? || k.Greater? || k.LessEqual? || k.GreaterEqual?
  }

  predicate ArithmeticOperator(op: string) {
    op == "+" || op == "-" || op == "*" || op == "/" || op == "//" || op == "%"
  }

  predicate ComparisonOperator(op: string) {
    op == "==" || op == "!=" || op == "<" || op == ">" || op == "<=" || op == ">="
  }

  /** An expression with no comparison anywhere in it. */
  predicate Arithmetic(e: Expr) {
    match e
    case BinaryOp(l, op, r) => ArithmeticOperator(op) && Arithmetic(l) && Arithmetic(r)
    case ArrayAccess(_, index) => Arithmetic(index)
    case InptCall(prompt) => Arithmetic(prompt)
    case FunctionCall(_, args) => forall a | a in args :: Arithmetic(a)
    case _ => true
  }

  /** The lookahead `* IDENT *` at `p`, which starts a starred name. */
  predicate StarredName(tokens: seq<Token>, p: nat) {
    KindIs(tokens, p, Asterisk) && KindIs(tokens, p + 1, Kind.Identifier) && KindIs(tokens, p + 2, Asterisk)
  }

  /** `parse_additive` (`parse_expression` is the same). */
  function Additive(tokens: seq<Token>, p: nat): (r: Result<(Expr, nat)>)
    requires p <= |tokens| && WellFormed(tokens)
    ensures r.Ok? ==> p < r.value.1 <= |tokens|
    decreases |tokens| - p, 3
  {
    var first :- Multiplicative(tokens, p);
    AdditiveRest(tokens, first.1, first.0)
  }

  /** The loop of `parse_additive`, once `left` is parsed and the cursor is at `p`. */
  function AdditiveRest(tokens: seq<Token>, p: nat, left: Expr): (r: Result<(Expr, nat)>)
    requires p <= |tokens| && WellFormed(tokens)
    ensures r.Ok? ==> p <= r.value.1 <= |tokens|
    decreases |tokens| - p, 0
  {
    if p < |tokens| && IsAdditive(tokens[p].kind) then
      var right :- Multiplicative(tokens, p + 1);
      AdditiveRest(tokens, right.1, BinaryOp(left, tokens[p].value.text, right.0))
    else
      Ok((left, p))
  }

  /** `parse_multiplicative`. */
  function Multiplicative(tokens: seq<Token>, p: nat): (r: Result<(Expr, nat)>)
    requires p <= |tokens| && WellFormed(tokens)
    ensures r.Ok? ==> p < r.value.1 <= |tokens|
    decreases |tokens| - p, 2
  {
    var first :- Primary(tokens, p);
    MultiplicativeRest(tokens, first.1, first.0)
  }

  /** The loop of `parse_multiplicative`, once `left` is parsed and the cursor is at `p`. */
  function MultiplicativeRest(tokens: seq<Token>, p: nat, left: Expr): (r: Result<(Expr, nat)>)
    requires p <= |tokens| && WellFormed(tokens)
    ensures r.Ok? ==> p <= r.value.1 <= |tokens|
    decreases |tokens| - p, 0
  {
    if p < |tokens| && IsMultiplicative(tokens[p].kind) && !StarredName(tokens, p) then
      var op := if tokens[p].kind.DoubleSlash? then "//" else tokens[p].value.text;
      var right :- Primary(tokens, p + 1);
      MultiplicativeRest(tokens, right.1, BinaryOp(left, op, right.0))
    else
      Ok((left, p))
  }

  /** One turn of the multiplicative loop: the operator and the primary
      after it, combined with the expression so far. */
  function MultiplicativeOperand(tokens: seq<Token>, p: nat, left: Expr): (r: Result<(Expr, nat)>)
    requires p < |tokens| && WellFormed(tokens) && IsMultiplicative(tokens[p].kind)
    ensures r.Ok? ==> p + 1 < r.value.1 <= |tokens|
  {
    var op := if tokens[p].kind.DoubleSlash? then "//" else tokens[p].value.text;
    var right :- Primary(tokens, p + 1);
    Ok((BinaryOp(left, op, right.0), right.1))
  }

  /** The multiplicative loop is its first turn followed by the rest. */
  lemma MultiplicativeStep(tokens: seq<Token>, p: nat, left: Expr)
    requires p < |tokens| && WellFormed(tokens)
    requires IsMultiplicative(tokens[p].kind) && !StarredName(tokens, p)
    ensures MultiplicativeOperand(tokens, p, left).Err? ==>
      MultiplicativeRest(tokens, p, left) == Err(MultiplicativeOperand(tokens, p, left).error)
    ensures MultiplicativeOperand(tokens, p, left).Ok? ==>
      var next := MultiplicativeOperand(tokens, p, left).value;
      MultiplicativeRest(tokens, p, left) == MultiplicativeRest(tokens, next.1, next.0)
  {
  }

  /** `parse_primary`: a literal, a name, an indexed name, a starred name
      `*x*` or `*x[i]*`, a parenthesised expression or `inpt(prompt)`. */
  function Primary(tokens: seq<Token>, p: nat): (r: Result<(Expr, nat)>)
    requires p <= |tokens| && WellFormed(tokens)
    ensures r.Ok? ==> p < r.value.1 <= |tokens|
    decreases |tokens| - p, 1
  {
    if p == |tokens| then Err(NoneToken)
    else
      var t := tokens[p];
      if t.kind.Str? then Ok((StringLiteral(t.value.text), p + 1))
      else if t.kind.Char? then Ok((CharLiteral(t.value.text), p + 1))
      else if t.kind.Number? then Ok((NumberLiteral(t.value.n), p + 1))
      else if t.kind.FloatNumber? then Ok((FloatLiteral(t.value.lexeme), p + 1))
      else if t.kind.Identifier? then NamePrimary(tokens, p)
      else if t.kind.Asterisk? then StarredPrimary(tokens, p)
      else if t.kind.LParen? then GroupPrimary(tokens, p)
      else if t.kind.Inpt? then InptPrimary(tokens, p)
      else
        Err(SyntaxError(ExpectedExpression(ValueText(t.value)), t.line, t.column))
  }

  /** A parenthesised expression: the group is not kept in the tree. */
  function GroupPrimary(tokens: seq<Token>, p: nat): (r: Result<(Expr, nat)>)
    requires p < |tokens| && WellFormed(tokens) && tokens[p].kind.LParen?
    ensures r.Ok? ==> p < r.value.1 <= |tokens|
    decreases |tokens| - p, 0
  {
    var inner :- Additive(tokens, p + 1);
    var close :- ExpectAt(tokens, inner.1, RParen);
    Ok((inner.0, close.1))
  }

  /** `inpt ( prompt )`. */
  function InptPrimary(tokens: seq<Token>, p: nat): (r: Result<(Expr, nat)>)
    requires p < |tokens| && WellFormed(tokens) && tokens[p].kind.Inpt?
    ensures r.Ok? ==> p < r.value.1 <= |tokens|
    decreases |tokens| - p, 0
  {
    var open :- ExpectAt(tokens, p + 1, LParen);
    var prompt :- Additive(tokens, open.1);
    var close :- ExpectAt(tokens, prompt.1, RParen);
    Ok((InptCall(prompt.0), close.1))
  }

  /** A name, indexed when `[` follows it. */
  function NamePrimary(tokens: seq<Token>, p: nat): (r: Result<(Expr, nat)>)
    requires p < |tokens| && WellFormed(tokens) && tokens[p].kind.Identifier?
    ensures r.Ok? ==> p < r.value.1 <= |tokens|
    decreases |tokens| - p, 0
  {
    var name := tokens[p].value.text;
    if KindIs(tokens, p + 1, LBracket) then
      var index :- Additive(tokens, p + 2);
      var close :- ExpectAt(tokens, index.1, RBracket);
      Ok((ArrayAccess(name, index.0), close.1))
    else
      Ok((Expr.Identifier(name), p + 1))
  }

  /** A starred name `*x*` or `*x[i]*` from its first `*`. */
  function StarredPrimary(tokens: seq<Token>, p: nat): (r: Result<(Expr, nat)>)
    requires p < |tokens| && WellFormed(tokens)
    ensures r.Ok? ==> p < r.value.1 <= |tokens|
    decreases |tokens| - p, 0
  {
    var name :- ExpectAt(tokens, p + 1, Kind.Identifier);
    if KindIs(tokens, p + 2, LBracket) then StarredIndex(tokens, p + 3, name.0.value.text)
    else
      var star :- ExpectAt(tokens, p + 2, Asterisk);
      Ok((Expr.Identifier(name.0.value.text), star.1))
  }

  /** `i ] *` of a starred element `*x[i]*`, after its `[`. */
  function StarredIndex(tokens: seq<Token>, p: nat, name: string): (r: Result<(Expr, nat)>)
    requires p <= |tokens| && WellFormed(tokens)
    ensures r.Ok? ==> p < r.value.1 <= |tokens| && r.value.0.ArrayAccess? && r.value.0 == ArrayAccess(name, r.value.0.index)
    decreases |tokens| - p, 4
  {
    var index :- Additive(tokens, p);
    var close :- ExpectAt(tokens, index.1, RBracket);
    var star :- ExpectAt(tokens, close.1, Asterisk);
    Ok((ArrayAccess(name, index.0), star.1))
  }

  /** `parse_comparison`: an expression, optionally followed by one comparison
      operator and a second expression; a name compared with a string literal
      (either way round) is rejected. */
  function Comparison(tokens: seq<Token>, p: nat): (r: Result<(Expr, nat)>)
    requires p <= |tokens| && WellFormed(tokens)
    ensures r.Ok? ==> p < r.value.1 <= |tokens|
  {
    var left :- Additive(tokens, p);
    var q := left.1;
    if q < |tokens| && IsComparison(tokens[q].kind) then
      var right :- Additive(tokens, q + 1);
      var t := tokens[q];
      if left.0.Identifier? && right.0.StringLiteral? then
        Err(SyntaxError(CharComparedWithString(right.0.value), t.line, t.column))
      else if left.0.StringLiteral? && right.0.Identifier? then
        Err(SyntaxError(StringComparedWithChar(left.0.value), t.line, t.column))
      else
        Ok((BinaryOp(left.0, t.value.text, right.0), right.1))
    else
      Ok(left)
  }

  /** The tokens an operand can start with. */
  predicate StartsOperand(k: Kind) {
    k.Str? || k.Char? || k.Number? || k.FloatNumber? || k.Identifier? || k.Asterisk? || k.LParen? || k.Inpt?
  }

  /** A plain name at `i`: an identifier not followed by `[`. */
  predicate PlainName(tokens: seq<Token>, i: nat) {
    KindIs(tokens, i, Kind.Identifier) && !KindIs(tokens, i + 1, LBracket)
  }

  // Properties of the expression grammar

  lemma ArithmeticSpelling(t: Token)
    requires WellFormedToken(t) && (IsAdditive(t.kind) || IsMultiplicative(t.kind))
    ensures ArithmeticOperator(t.value.text)
  {
  }

  lemma ComparisonSpelling(t: Token)
    requires WellFormedToken(t) && IsComparison(t.kind)
    ensures ComparisonOperator(t.value.text)
  {
  }

  /** `parse_expression` never yields a comparison: comparison operators only
      come from `parse_comparison`, and only at its top. */
  lemma {:induction false} AdditiveIsArithmetic(tokens: seq<Token>, p: nat)
    requires p <= |tokens| && WellFormed(tokens)
    ensures Additive(tokens, p).Ok? ==> Arithmetic(Additive(tokens, p).value.0)
    decreases |tokens| - p, 3
  {
    MultiplicativeIsArithmetic(tokens, p);
    var first := Multiplicative(tokens, p);
    if first.Ok? {
      AdditiveRestIsArithmetic(tokens, first.value.1, first.value.0);
    }
  }

  lemma {:induction false} AdditiveRestIsArithmetic(tokens: seq<Token>, p: nat, left: Expr)
    requires p <= |tokens| && WellFormed(tokens) && Arithmetic(left)
    ensures AdditiveRest(tokens, p, left).Ok? ==> Arithmetic(AdditiveRest(tokens, p, left).value.0)
    decreases |tokens| - p, 0
  {
    if p < |tokens| && IsAdditive(tokens[p].kind) {
      MultiplicativeIsArithmetic(tokens, p + 1);
      var right := Multiplicative(tokens, p + 1);
      if right.Ok? {
        Spelled(tokens, p);
        ArithmeticSpelling(tokens[p]);
        AdditiveRestIsArithmetic(tokens, right.value.1, BinaryOp(left, tokens[p].value.text, right.value.0));
      }
    }
  }

  lemma {:induction false} MultiplicativeIsArithmetic(tokens: seq<Token>, p: nat)
    requires p <= |tokens| && WellFormed(tokens)
    ensures Multiplicative(tokens, p).Ok? ==> Arithmetic(Multiplicative(tokens, p).value.0)
    decreases |tokens| - p, 2
  {
    PrimaryIsArithmetic(tokens, p);
    var first := Primary(tokens, p);
    if first.Ok? {
      MultiplicativeRestIsArithmetic(tokens, first.value.1, first.value.0);
    }
  }

  lemma {:induction false} MultiplicativeRestIsArithmetic(tokens: seq<Token>, p: nat, left: Expr)
    requires p <= |tokens| && WellFormed(tokens) && Arithmetic(left)
    ensures MultiplicativeRest(tokens, p, left).Ok? ==> Arithmetic(MultiplicativeRest(tokens, p, left).value.0)
    decreases |tokens| - p, 0
  {
    if p < |tokens| && IsMultiplicative(tokens[p].kind) && !StarredName(tokens, p) {
      PrimaryIsArithmetic(tokens, p + 1);
      var right := Primary(tokens, p + 1);
      if right.Ok? {
        Spelled(tokens, p);
        ArithmeticSpelling(tokens[p]);
        var op := if tokens[p].kind.DoubleSlash? then "//" else tokens[p].value.text;
        MultiplicativeRestIsArithmetic(tokens, right.value.1, BinaryOp(left, op, right.value.0));
      }
    }
  }

  lemma {:induction false} PrimaryIsArithmetic(tokens: seq<Token>, p: nat)
    requires p <= |tokens| && WellFormed(tokens)
    ensures Primary(tokens, p).Ok? ==> Arithmetic(Primary(tokens, p).value.0)
    decreases |tokens| - p, 1
  {
    if p < |tokens| {
      var k := tokens[p].kind;
      if k.Identifier? {
        NameIsArithmetic(tokens, p);
      } else if k.Asterisk? {
        StarredIsArithmetic(tokens, p);
      } else if k.LParen? {
        GroupIsArithmetic(tokens, p);
      } else if k.Inpt? {
        InptIsArithmetic(tokens, p);
      }
    }
  }

  lemma {:induction false} NameIsArithmetic(tokens: seq<Token>, p: nat)
    requires p < |tokens| && WellFormed(tokens) && tokens[p].kind.Identifier?
    ensures NamePrimary(tokens, p).Ok? ==> Arithmetic(NamePrimary(tokens, p).value.0)
    decreases |tokens| - p, 0
  {
    if KindIs(tokens, p + 1, LBracket) {
      AdditiveIsArithmetic(tokens, p + 2);
    }
  }

  lemma {:induction false} StarredIsArithmetic(tokens: seq<Token>, p: nat)
    requires p < |tokens| && WellFormed(tokens) && tokens[p].kind.Asterisk?
    ensures StarredPrimary(tokens, p).Ok? ==> Arithmetic(StarredPrimary(tokens, p).value.0)
    decreases |tokens| - p, 0
  {
    if KindIs(tokens, p + 1, Kind.Identifier) && KindIs(tokens, p + 2, LBracket) {
      AdditiveIsArithmetic(tokens, p + 3);
    }
  }

  lemma {:induction false} GroupIsArithmetic(tokens: seq<Token>, p: nat)
    requires p < |tokens| && WellFormed(tokens) && tokens[p].kind.LParen?
    ensures GroupPrimary(tokens, p).Ok? ==> Arithmetic(GroupPrimary(tokens, p).value.0)
    decreases |tokens| - p, 0
  {
    AdditiveIsArithmetic(tokens, p + 1);
  }

  lemma {:induction false} InptIsArithmetic(tokens: seq<Token>, p: nat)
    requires p < |tokens| && WellFormed(tokens) && tokens[p].kind.Inpt?
    ensures InptPrimary(tokens, p).Ok? ==> Arithmetic(InptPrimary(tokens, p).value.0)
    decreases |tokens| - p, 0
  {
    if KindIs(tokens, p + 1, LParen) {
      AdditiveIsArithmetic(tokens, p + 2);
    }
  }

  /** A condition holds at most one comparison, at its top, between two
      arithmetic operands that are not a name and a string literal. */
  lemma ComparisonShape(tokens: seq<Token>, p: nat)
    requires p <= |tokens| && WellFormed(tokens)
    requires Comparison(tokens, p).Ok?
    ensures var e := Comparison(tokens, p).value.0;
      || Arithmetic(e)
      || (&& e.BinaryOp? && ComparisonOperator(e.operator)
          && Arithmetic(e.left) && Arithmetic(e.right)
          && !(e.left.Identifier? && e.right.StringLiteral?)
          && !(e.left.StringLiteral? && e.right.Identifier?))
  {
    AdditiveIsArithmetic(tokens, p);
    var left := Additive(tokens, p).value;
    var q := left.1;
    if q < |tokens| && IsComparison(tokens[q].kind) {
      AdditiveIsArithmetic(tokens, q + 1);
      Spelled(tokens, q);
      ComparisonSpelling(tokens[q]);
    }
  }

  /** A plain name followed by no multiplicative operator is a whole term. */
  lemma NameTerm(tokens: seq<Token>, p: nat)
    requires p < |tokens| && WellFormed(tokens) && PlainName(tokens, p)
    requires p + 1 == |tokens| || !IsMultiplicative(tokens[p + 1].kind)
    ensures Multiplicative(tokens, p) == Ok((Expr.Identifier(tokens[p].value.text), p + 1))
  {
    assert Primary(tokens, p) == Ok((Expr.Identifier(tokens[p].value.text), p + 1));
  }

  /** `a - b - c` groups as `(a - b) - c`. */
  lemma LeftAssociative(tokens: seq<Token>, p: nat)
    requires p + 5 <= |tokens| && WellFormed(tokens)
    requires PlainName(tokens, p) && PlainName(tokens, p + 2) && PlainName(tokens, p + 4)
    requires IsAdditive(tokens[p + 1].kind) && IsAdditive(tokens[p + 3].kind)
    requires p + 5 == |tokens| || !(IsAdditive(tokens[p + 5].kind) || IsMultiplicative(tokens[p + 5].kind))
    ensures Additive(tokens, p) == Ok((
      BinaryOp(
        BinaryOp(Expr.Identifier(tokens[p].value.text), tokens[p + 1].value.text, Expr.Identifier(tokens[p + 2].value.text)),
        tokens[p + 3].value.text,
        Expr.Identifier(tokens[p + 4].value.text)),
      p + 5))
  {
    var a := Expr.Identifier(tokens[p].value.text);
    var b := Expr.Identifier(tokens[p + 2].value.text);
    var c := Expr.Identifier(tokens[p + 4].value.text);
    NameTerm(tokens, p);
    NameTerm(tokens, p + 2);
    NameTerm(tokens, p + 4);
    var ab := BinaryOp(a, tokens[p + 1].value.text, b);
    var abc := BinaryOp(ab, tokens[p + 3].value.text, c);
    assert AdditiveRest(tokens, p + 5, abc) == Ok((abc, p + 5));
    assert AdditiveRest(tokens, p + 3, ab) == Ok((abc, p + 5));
    assert AdditiveRest(tokens, p + 1, a) == Ok((abc, p + 5));
  }

  /** `a + b * c` groups as `a + (b * c)`: multiplication binds tighter. */
  lemma MultiplicationBindsTighter(tokens: seq<Token>, p: nat)
    requires p + 5 <= |tokens| && WellFormed(tokens)
    requires PlainName(tokens, p) && PlainName(tokens, p + 2) && PlainName(tokens, p + 4)
    requires IsAdditive(tokens[p + 1].kind) && tokens[p + 3].kind.Asterisk?
    requires p + 5 == |tokens| || !(IsAdditive(tokens[p + 5].kind) || IsMultiplicative(tokens[p + 5].kind))
    ensures Additive(tokens, p) == Ok((
      BinaryOp(
        Expr.Identifier(tokens[p].value.text),
        tokens[p + 1].value.text,
        BinaryOp(Expr.Identifier(tokens[p + 2].value.text), "*", Expr.Identifier(tokens[p + 4].value.text))),
      p + 5))
  {
    var a := Expr.Identifier(tokens[p].value.text);
    var b := Expr.Identifier(tokens[p + 2].value.text);
    var c := Expr.Identifier(tokens[p + 4].value.text);
    Spelled(tokens, p + 3);
    assert !StarredName(tokens, p + 3);
    NameTerm(tokens, p);
    var bc := BinaryOp(b, "*", c);
    assert Primary(tokens, p + 2) == Ok((b, p + 3));
    assert Primary(tokens, p + 4) == Ok((c, p + 5));
    assert MultiplicativeRest(tokens, p + 5, bc) == Ok((bc, p + 5));
    assert MultiplicativeRest(tokens, p + 3, b) == Ok((bc, p + 5));
    var abc := BinaryOp(a, tokens[p + 1].value.text, bc);
    assert AdditiveRest(tokens, p + 5, abc) == Ok((abc, p + 5));
    assert AdditiveRest(tokens, p + 1, a) == Ok((abc, p + 5));
  }

  /** A product as the multiplicative loop builds it: a chain of `*`, `/`,
      `//` and `%` growing to the left, each right operand a single operand. */
  predicate TermShape(e: Expr) {
    match e
    case BinaryOp(l, op, r) => (op == "*" || op == "/" || op == "//" || op == "%") && TermShape(l) && !r.BinaryOp?
    case _ => true
  }

  /** A sum as the additive loop builds it: a chain of `+` and `-` growing
      to the left over products. */
  predicate SumShape(e: Expr) {
    TermShape(e) || (e.BinaryOp? && (e.operator == "+" || e.operator == "-") && SumShape(e.left) && TermShape(e.right))
  }

  /** No operand that follows an arithmetic operator from `p` on is a
      parenthesised group (the tree keeps no node for parentheses). */
  predicate UngroupedFrom(tokens: seq<Token>, p: nat) {
    forall i :: p <= i < |tokens| - 1 && (IsAdditive(tokens[i].kind) || IsMultiplicative(tokens[i].kind)) ==>
      !tokens[i + 1].kind.LParen?
  }

  /** An operand that is not a parenthesised group is never an operator node. */
  lemma PrimaryNotBinary(tokens: seq<Token>, p: nat)
    requires p <= |tokens| && WellFormed(tokens) && !KindIs(tokens, p, LParen)
    ensures Primary(tokens, p).Ok? ==> !Primary(tokens, p).value.0.BinaryOp?
  {
  }

  lemma {:induction false} MultiplicativeRestShape(tokens: seq<Token>, p: nat, left: Expr)
    requires p <= |tokens| && WellFormed(tokens) && UngroupedFrom(tokens, p) && TermShape(left)
    ensures MultiplicativeRest(tokens, p, left).Ok? ==> TermShape(MultiplicativeRest(tokens, p, left).value.0)
    decreases |tokens| - p
  {
    if p < |tokens| && IsMultiplicative(tokens[p].kind) && !StarredName(tokens, p) {
      MultiplicativeStep(tokens, p, left);
      var next := MultiplicativeOperand(tokens, p, left);
      if next.Ok? {
        OperandShape(tokens, p, left);
        MultiplicativeRestShape(tokens, next.value.1, next.value.0);
      }
    }
  }

  /** One turn of the multiplicative loop extends a product by an operand that is
      not itself an operator node. */
  lemma OperandShape(tokens: seq<Token>, p: nat, left: Expr)
    requires p < |tokens| && WellFormed(tokens) && IsMultiplicative(tokens[p].kind)
    requires UngroupedFrom(tokens, p) && TermShape(left)
    ensures var r := MultiplicativeOperand(tokens, p, left);
      r.Ok? ==> TermShape(r.value.0) && UngroupedFrom(tokens, r.value.1)
  {
    Spelled(tokens, p);
    PrimaryNotBinary(tokens, p + 1);
  }

  lemma {:induction false} AdditiveRestShape(tokens: seq<Token>, p: nat, left: Expr)
    requires p <= |tokens| && WellFormed(tokens) && UngroupedFrom(tokens, p) && SumShape(left)
    ensures AdditiveRest(tokens, p, left).Ok? ==> SumShape(AdditiveRest(tokens, p, left).value.0)
    decreases |tokens| - p
  {
    if p < |tokens| && IsAdditive(tokens[p].kind) {
      Spelled(tokens, p);
      var right := Multiplicative(tokens, p + 1);
      if right.Ok? {
        MultiplicativeShape(tokens, p + 1);
        AdditiveRestShape(tokens, right.value.1, BinaryOp(left, tokens[p].value.text, right.value.0));
      }
    }
  }

  /** Every product the multiplicative level returns has the product shape. */
  lemma MultiplicativeShape(tokens: seq<Token>, p: nat)
    requires p <= |tokens| && WellFormed(tokens) && UngroupedFrom(tokens, p) && !KindIs(tokens, p, LParen)
    ensures Multiplicative(tokens, p).Ok? ==> TermShape(Multiplicative(tokens, p).value.0)
  {
    PrimaryNotBinary(tokens, p);
    var first := Primary(tokens, p);
    if first.Ok? {
      MultiplicativeRestShape(tokens, first.value.1, first.value.0);
    }
  }

  /** Precedence and associativity for every expression whose operands are
      not parenthesised groups: `+` and `-` never sit under `*`, `/`, `//` or
      `%`, and both levels group to the left (a right operand is never a node
      of its own level). */
  lemma AdditiveShape(tokens: seq<Token>, p: nat)
    requires p <= |tokens| && WellFormed(tokens) && UngroupedFrom(tokens, p) && !KindIs(tokens, p, LParen)
    ensures Additive(tokens, p).Ok? ==> SumShape(Additive(tokens, p).value.0)
  {
    MultiplicativeShape(tokens, p);
    var first := Multiplicative(tokens, p);
    if first.Ok? {
      AdditiveRestShape(tokens, first.value.1, first.value.0);
    }
  }

  /** `*x*` reads the plain name `x`. */
  lemma StarredNameIsName(tokens: seq<Token>, p: nat)
    requires p <= |tokens| && WellFormed(tokens)
    requires StarredName(tokens, p)
    ensures Primary(tokens, p) == Ok((Expr.Identifier(tokens[p + 1].value.text), p + 3))
  {
  }

  /** A multiplicative chain stops in front of `* IDENT *` and leaves it for the caller. */
  lemma StarredNameEndsChain(tokens: seq<Token>, p: nat, left: Expr)
    requires p <= |tokens| && WellFormed(tokens)
    requires StarredName(tokens, p)
    ensures MultiplicativeRest(tokens, p, left) == Ok((left, p))
  {
  }

  /** A token that cannot start an operand is reported where it stands;
      running out of tokens is a crash on `None`. */
  lemma ExpectedExpressionError(tokens: seq<Token>, p: nat)
    requires p <= |tokens| && WellFormed(tokens)
    ensures p == |tokens| ==> Additive(tokens, p) == Err(NoneToken)
    ensures p < |tokens| && !StartsOperand(tokens[p].kind) ==>
      Additive(tokens, p) == Err(SyntaxError(ExpectedExpression(ValueText(tokens[p].value)), tokens[p].line, tokens[p].column))
  {
    assert Multiplicative(tokens, p).Err? ==> Additive(tokens, p) == Err(Multiplicative(tokens, p).error);
    assert Primary(tokens, p).Err? ==> Multiplicative(tokens, p) == Err(Primary(tokens, p).error);
  }

  class ExpressionParser {
    const parser: Parser

    constructor (parser: Parser)
      ensures this.parser == parser
    {
      this.parser := parser;
    }

    method ParseExpression() returns (r: Result<Expr>)
      requires parser.Valid()
      modifies parser`pos
      ensures parser.Valid() && Agrees(r, parser.pos, Additive(parser.tokens, old(parser.pos)))
      decreases |parser.tokens| - parser.pos, 4
    {
      r := ParseAdditive();
    }

    method ParseAdditive() returns (r: Result<Expr>)
      requires parser.Valid()
      modifies parser`pos
      ensures parser.Valid() && Agrees(r, parser.pos, Additive(parser.tokens, old(parser.pos)))
      decreases |parser.tokens| - parser.pos, 3
    {
      var left :- ParseMultiplicative();
      while parser.pos < |parser.tokens| && IsAdditive(parser.tokens[parser.pos].kind)
        invariant parser.Valid()
        invariant AdditiveRest(parser.tokens, parser.pos, left) == Additive(parser.tokens, old(parser.pos))
        decreases |parser.tokens| - parser.pos
      {
        var operator := parser.tokens[parser.pos].value.text;
        parser.Advance();
        var right :- ParseMultiplicative();
        left := BinaryOp(left, operator, right);
      }
      return Ok(left);
    }

    method ParseMultiplicative() returns (r: Result<Expr>)
      requires parser.Valid()
      modifies parser`pos
      ensures parser.Valid() && Agrees(r, parser.pos, Multiplicative(parser.tokens, old(parser.pos)))
      decreases |parser.tokens| - parser.pos, 2
    {
      var left :- ParsePrimary();
      while parser.pos < |parser.tokens| && IsMultiplicative(parser.tokens[parser.pos].kind)
        invariant parser.Valid()
        invariant MultiplicativeRest(parser.tokens, parser.pos, left) == Multiplicative(parser.tokens, old(parser.pos))
        decreases |parser.tokens| - parser.pos
      {
        if StarredName(parser.tokens, parser.pos) {
          break;
        }
        MultiplicativeStep(parser.tokens, parser.pos, left);
        left :- ParseMultiplicativeOperand(left);
      }
      return Ok(left);
    }

    method ParseMultiplicativeOperand(left: Expr) returns (r: Result<Expr>)
      requires parser.Valid() && parser.pos < |parser.tokens| && IsMultiplicative(parser.tokens[parser.pos].kind)
      modifies parser`pos
      ensures parser.Valid() && Agrees(r, parser.pos, MultiplicativeOperand(parser.tokens, old(parser.pos), left))
      decreases |parser.tokens| - parser.pos, 0
    {
      var operator := if parser.tokens[parser.pos].kind.DoubleSlash? then "//" else parser.tokens[parser.pos].value.text;
      parser.Advance();
      var right :- ParsePrimary();
      return Ok(BinaryOp(left, operator, right));
    }

    method ParsePrimary() returns (r: Result<Expr>)
      requires parser.Valid()
      modifies parser`pos
      ensures parser.Valid() && Agrees(r, parser.pos, Primary(parser.tokens, old(parser.pos)))
      decreases |parser.tokens| - parser.pos, 1
    {
      if parser.pos == |parser.tokens| {
        return Err(NoneToken);
      }
      var token := parser.tokens[parser.pos];
      if token.kind.Str? {
        parser.Advance();
        return Ok(StringLiteral(token.value.text));
      } else if token.kind.Char? {
        parser.Advance();
        return Ok(CharLiteral(token.value.text));
      } else if token.kind.Number? {
        parser.Advance();
        return Ok(NumberLiteral(token.value.n));
      } else if token.kind.FloatNumber? {
        parser.Advance();
        return Ok(FloatLiteral(token.value.lexeme));
      } else if token.kind.Identifier? {
        r := ParseName();
        return;
      } else if token.kind.Asterisk? {
        r := ParseStarred();
        return;
      } else if token.kind.LParen? {
        r := ParseGroup();
        return;
      } else if token.kind.Inpt? {
        r := ParseInpt();
        return;
      }
      return Err(SyntaxError(ExpectedExpression(ValueText(token.value)), token.line, token.column));
    }

    method ParseGroup() returns (r: Result<Expr>)
      requires parser.Valid() && parser.pos < |parser.tokens| && parser.tokens[parser.pos].kind.LParen?
      modifies parser`pos
      ensures parser.Valid() && Agrees(r, parser.pos, GroupPrimary(parser.tokens, old(parser.pos)))
      decreases |parser.tokens| - parser.pos, 0
    {
      parser.Advance();
      var inner :- ParseExpression();
      var _ :- parser.Expect(RParen);
      return Ok(inner);
    }

    method ParseInpt() returns (r: Result<Expr>)
      requires parser.Valid() && parser.pos < |parser.tokens| && parser.tokens[parser.pos].kind.Inpt?
      modifies parser`pos
      ensures parser.Valid() && Agrees(r, parser.pos, InptPrimary(parser.tokens, old(parser.pos)))
      decreases |parser.tokens| - parser.pos, 0
    {
      parser.Advance();
      var _ :- parser.Expect(LParen);
      var prompt :- ParseExpression();
      var _ :- parser.Expect(RParen);
      return Ok(InptCall(prompt));
    }

    method ParseName() returns (r: Result<Expr>)
      requires parser.Valid() && parser.pos < |parser.tokens| && parser.tokens[parser.pos].kind.Identifier?
      modifies parser`pos
      ensures parser.Valid() && Agrees(r, parser.pos, NamePrimary(parser.tokens, old(parser.pos)))
      decreases |parser.tokens| - parser.pos, 0
    {
      var name := parser.tokens[parser.pos].value.text;
      parser.Advance();
      if parser.CurrentIs(LBracket) {
        parser.Advance();
        var index :- ParseExpression();
        var _ :- parser.Expect(RBracket);
        return Ok(ArrayAccess(name, index));
      }
      return Ok(Expr.Identifier(name));
    }

    method ParseStarred() returns (r: Result<Expr>)
      requires parser.Valid() && parser.pos < |parser.tokens|
      modifies parser`pos
      ensures parser.Valid() && Agrees(r, parser.pos, StarredPrimary(parser.tokens, old(parser.pos)))
      decreases |parser.tokens| - parser.pos, 0
    {
      ghost var spec := StarredPrimary(parser.tokens, parser.pos);
      parser.Advance();
      var name := parser.Expect(Kind.Identifier);
      if name.Err? {
        assert spec == Err(name.error);
        r := Err(name.error);
      } else if parser.CurrentIs(LBracket) {
        parser.Advance();
        assert spec == StarredIndex(parser.tokens, parser.pos, name.value.value.text);
        r := ParseStarredIndex(name.value.value.text);
      } else {
        var star := parser.Expect(Asterisk);
        if star.Err? {
          assert spec == Err(star.error);
          r := Err(star.error);
        } else {
          r := Ok(Expr.Identifier(name.value.value.text));
          assert spec == Ok((r.value, parser.pos));
        }
      }
    }

    /** `i ] *` of a starred element, after its `[`. */
    method ParseStarredIndex(name: string) returns (r: Result<Expr>)
      requires parser.Valid()
      modifies parser`pos
      ensures parser.Valid() && Agrees(r, parser.pos, StarredIndex(parser.tokens, old(parser.pos), name))
      decreases |parser.tokens| - parser.pos, 5
    {
      var index :- ParseExpression();
      var _ :- parser.Expect(RBracket);
      var _ :- parser.Expect(Asterisk);
      return Ok(ArrayAccess(name, index));
    }

    method ParseComparison() returns (r: Result<Expr>)
      requires parser.Valid()
      modifies parser`pos
      ensures parser.Valid() && Agrees(r, parser.pos, Comparison(parser.tokens, old(parser.pos)))
    {
      var left :- ParseExpression();
      if parser.pos < |parser.tokens| && IsComparison(parser.tokens[parser.pos].kind) {
        var token := parser.tokens[parser.pos];
        parser.Advance();
        var right :- ParseExpression();
        if left.Identifier? && right.StringLiteral? {
          return Err(SyntaxError(CharComparedWithString(right.value), token.line, token.column));
        } else if left.StringLiteral? && right.Identifier? {
          return Err(SyntaxError(StringComparedWithChar(left.value), token.line, token.column));
        }
        return Ok(BinaryOp(left, token.value.text, right));
      }
      return Ok(left);
    }
  }
}
