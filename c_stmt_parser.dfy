/** The C statement parser (`kato/c2kato/parser/statement_parser.py`).

    A statement is a declaration (`int`, `float`, `char`), an `if`, `while`,
    `for`, `return` or `printf`, or a statement that starts with a name: an
    assignment, `x++` / `x--`, a call, or a bare name.  Any other token is
    skipped and leaves `CNoStatement` in the body.  Declarations do not add
    their names to the names later expressions may use, so the set `known` is
    the same for a whole function body.

    The specification functions yield the statement with the position after
    it; the `CStatementParser` methods move the shared cursor and are proved
    to agree with them. */
module CStmtParser {
  import opened Base
  import opened TokenValues
  import opened CTokens
  import opened CAst
  import opened CCursor
  import opened CExprParser

  predicate IsDeclarationKind(k: CKind) { k.IntType? || k.FloatType? || k.CharType? }

  /** The token that ends a list of expressions: `)` or `}`. */
  datatype Closer = Paren | Brace

  predicate Closes(k: CKind, c: Closer) {
    if c.Brace? then k.RBrace? else k.RParen?
  }

  /** `parse_statement`: the form chosen by the first token. */
  function Statement(tokens: seq<CToken>, known: set<string>, p: nat): (r: Result<(CStmt, nat)>)
    requires p <= |tokens| && WellFormed(tokens)
    ensures r.Ok? ==> p < r.value.1 <= |tokens|
    decreases |tokens| - p, 3
  {
    if p == |tokens| then Err(NoneToken)
    else
      var k := tokens[p].kind;
      if IsDeclarationKind(k) then Declaration(tokens, known, p)
      else if k.If? then IfStmt(tokens, known, p)
      else if k.While? then WhileStmt(tokens, known, p)
      else if k.For? then ForStmt(tokens, known, p)
      else if k.Return? then ReturnStmt(tokens, known, p)
      else if k.Printf? then PrintfStmt(tokens, known, p)
      else if k.Identifier? then NameStmt(tokens, known, p)
      else Ok((CNoStatement, p + 1))
  }

  /** The statement loop of a braced body: statements up to `}` or the end
      of the tokens, appended to `acc`; the `}` is left for the caller. */
  function Block(tokens: seq<CToken>, known: set<string>, p: nat, acc: seq<CStmt>): (r: Result<(seq<CStmt>, nat)>)
    requires p <= |tokens| && WellFormed(tokens)
    ensures r.Ok? ==> p <= r.value.1 <= |tokens|
    decreases |tokens| - p, 4
  {
    if p < |tokens| && !tokens[p].kind.RBrace? then
      var s :- Statement(tokens, known, p);
      Block(tokens, known, s.1, acc + [s.0])
    else
      Ok((acc, p))
  }

  /** A body after its `{`: the statements and the closing `}`. */
  function Braced(tokens: seq<CToken>, known: set<string>, p: nat): (r: Result<(seq<CStmt>, nat)>)
    requires p <= |tokens| && WellFormed(tokens)
    ensures r.Ok? ==> p < r.value.1 <= |tokens|
    decreases |tokens| - p, 5
  {
    var body :- Block(tokens, known, p, []);
    var close :- ExpectAt(tokens, body.1, RBrace);
    Ok((body.0, close.1))
  }

  /** The body of an `if` or an `else`: a braced list or a single statement. */
  function Branch(tokens: seq<CToken>, known: set<string>, p: nat): (r: Result<(seq<CStmt>, nat)>)
    requires p <= |tokens| && WellFormed(tokens)
    ensures r.Ok? ==> p < r.value.1 <= |tokens|
    decreases |tokens| - p, 6
  {
    if KindIs(tokens, p, LBrace) then Braced(tokens, known, p + 1)
    else
      var s :- Statement(tokens, known, p);
      Ok(([s.0], s.1))
  }

  /** `parse_if_statement`: no `else` gives `CNoElse`. */
  function IfStmt(tokens: seq<CToken>, known: set<string>, p: nat): (r: Result<(CStmt, nat)>)
    requires p < |tokens| && WellFormed(tokens) && tokens[p].kind.If?
    ensures r.Ok? ==> p < r.value.1 <= |tokens|
    decreases |tokens| - p, 2
  {
    var open :- ExpectAt(tokens, p + 1, LParen);
    var condition :- LogicalOr(tokens, known, open.1);
    var close :- ExpectAt(tokens, condition.1, RParen);
    IfBranches(tokens, known, condition.0, close.1)
  }

  /** The branches of an `if` after its condition: the body and, when `else`
      follows, the else body. */
  function IfBranches(tokens: seq<CToken>, known: set<string>, condition: CExpr, p: nat): (r: Result<(CStmt, nat)>)
    requires p <= |tokens| && WellFormed(tokens)
    ensures r.Ok? ==> p <= r.value.1 <= |tokens|
    decreases |tokens| - p, 7
  {
    var body :- Branch(tokens, known, p);
    ElsePart(tokens, known, condition, body.0, body.1)
  }

  /** The optional `else` branch after the `if` branch `body`, which ends at `p`. */
  function ElsePart(tokens: seq<CToken>, known: set<string>, condition: CExpr, body: seq<CStmt>, p: nat)
    : (r: Result<(CStmt, nat)>)
    requires p <= |tokens| && WellFormed(tokens)
    ensures r.Ok? ==> p <= r.value.1 <= |tokens|
    decreases |tokens| - p, 7
  {
    if KindIs(tokens, p, Else) then
      var elseBody :- Branch(tokens, known, p + 1);
      Ok((CIfStatement(condition, body, CElseBlock(elseBody.0)), elseBody.1))
    else
      Ok((CIfStatement(condition, body, CNoElse), p))
  }

  /** `parse_while_statement`: the body must be braced. */
  function WhileStmt(tokens: seq<CToken>, known: set<string>, p: nat): (r: Result<(CStmt, nat)>)
    requires p < |tokens| && WellFormed(tokens) && tokens[p].kind.While?
    ensures r.Ok? ==> p < r.value.1 <= |tokens|
    decreases |tokens| - p, 2
  {
    var open :- ExpectAt(tokens, p + 1, LParen);
    var condition :- LogicalOr(tokens, known, open.1);
    var close :- ExpectAt(tokens, condition.1, RParen);
    var brace :- ExpectAt(tokens, close.1, LBrace);
    var body :- Braced(tokens, known, brace.1);
    Ok((CWhileStatement(condition.0, body.0), body.1))
  }

  /** `parse_for_statement`: the initialiser is any statement, the condition
      and the increment are expressions, and the body must be braced. */
  function ForStmt(tokens: seq<CToken>, known: set<string>, p: nat): (r: Result<(CStmt, nat)>)
    requires p < |tokens| && WellFormed(tokens) && tokens[p].kind.For?
    ensures r.Ok? ==> p < r.value.1 <= |tokens|
    decreases |tokens| - p, 2
  {
    var open :- ExpectAt(tokens, p + 1, LParen);
    var init :- Statement(tokens, known, open.1);
    var header :- ForHeader(tokens, known, init.1);
    var body :- Braced(tokens, known, header.1);
    Ok((CForStatement(init.0, header.0.0, header.0.1, body.0), body.1))
  }

  /** The condition, `;`, increment, `)` and `{` of a `for` header. */
  function ForHeader(tokens: seq<CToken>, known: set<string>, p: nat): (r: Result<((CExpr, CExpr), nat)>)
    requires p <= |tokens| && WellFormed(tokens)
    ensures r.Ok? ==> p < r.value.1 <= |tokens|
  {
    var condition :- LogicalOr(tokens, known, p);
    var semi :- ExpectAt(tokens, condition.1, Semicolon);
    var increment :- LogicalOr(tokens, known, semi.1);
    var close :- ExpectAt(tokens, increment.1, RParen);
    var brace :- ExpectAt(tokens, close.1, LBrace);
    Ok(((condition.0, increment.0), brace.1))
  }

  /** `parse_return_statement`: the value is absent exactly when `;` follows. */
  function ReturnStmt(tokens: seq<CToken>, known: set<string>, p: nat): (r: Result<(CStmt, nat)>)
    requires p < |tokens| && WellFormed(tokens) && tokens[p].kind.Return?
    ensures r.Ok? ==> p < r.value.1 <= |tokens|
  {
    if p + 1 < |tokens| && !tokens[p + 1].kind.Semicolon? then
      var value :- LogicalOr(tokens, known, p + 1);
      var semi :- ExpectAt(tokens, value.1, Semicolon);
      Ok((CReturnStatement(Some(value.0)), semi.1))
    else
      var semi :- ExpectAt(tokens, p + 1, Semicolon);
      Ok((CReturnStatement(None), semi.1))
  }

  /** The expression loop of `printf`, of a call statement and of an array
      initialiser: expressions up to `close` or the end of the tokens, each
      optionally followed by `,`; `close` itself is left for the caller. */
  function Expressions(tokens: seq<CToken>, known: set<string>, p: nat, close: Closer, acc: seq<CExpr>): (r: Result<(seq<CExpr>, nat)>)
    requires p <= |tokens| && WellFormed(tokens)
    ensures r.Ok? ==> p <= r.value.1 <= |tokens|
    decreases |tokens| - p
  {
    if p < |tokens| && !Closes(tokens[p].kind, close) then
      var e :- LogicalOr(tokens, known, p);
      var next := if e.1 < |tokens| && tokens[e.1].kind.Comma? then e.1 + 1 else e.1;
      Expressions(tokens, known, next, close, acc + [e.0])
    else
      Ok((acc, p))
  }

  /** `parse_printf_statement`: both `)` and `;` are required. */
  function PrintfStmt(tokens: seq<CToken>, known: set<string>, p: nat): (r: Result<(CStmt, nat)>)
    requires p < |tokens| && WellFormed(tokens) && tokens[p].kind.Printf?
    ensures r.Ok? ==> p < r.value.1 <= |tokens|
  {
    var open :- ExpectAt(tokens, p + 1, LParen);
    var args :- Expressions(tokens, known, open.1, Paren, []);
    var close :- ExpectAt(tokens, args.1, RParen);
    var semi :- ExpectAt(tokens, close.1, Semicolon);
    Ok((CCallStatement("printf", args.0), semi.1))
  }

  /** An expression and the `;` after it. */
  function ValueSemicolon(tokens: seq<CToken>, known: set<string>, p: nat): (r: Result<(CExpr, nat)>)
    requires p <= |tokens| && WellFormed(tokens)
    ensures r.Ok? ==> p < r.value.1 <= |tokens|
  {
    var value :- LogicalOr(tokens, known, p);
    var semi :- ExpectAt(tokens, value.1, Semicolon);
    Ok((value.0, semi.1))
  }

  /** The position after an optional `;`. */
  function OptionalSemicolon(tokens: seq<CToken>, p: nat): nat {
    if KindIs(tokens, p, Semicolon) then p + 1 else p
  }

  /** `parse_declaration`: a type, an optional `*`, a name, then an array or
      a variable declaration. */
  function Declaration(tokens: seq<CToken>, known: set<string>, p: nat): (r: Result<(CStmt, nat)>)
    requires p < |tokens| && WellFormed(tokens) && IsDeclarationKind(tokens[p].kind)
    ensures r.Ok? ==> p < r.value.1 <= |tokens|
  {
    var head :- DeclarationHead(tokens, p);
    if KindIs(tokens, head.1, LBracket) then ArrayRest(tokens, known, head.0.0, head.0.1, head.1 + 1)
    else VariableRest(tokens, known, head.0.0, head.0.1, head.1)
  }

  /** Once its head is read, a declaration is an array or a variable
      declaration as the next token says. */
  lemma DeclarationAfterHead(tokens: seq<CToken>, known: set<string>, p: nat)
    requires p < |tokens| && WellFormed(tokens) && IsDeclarationKind(tokens[p].kind)
    requires DeclarationHead(tokens, p).Ok?
    ensures var h := DeclarationHead(tokens, p).value;
      Declaration(tokens, known, p)
      == if KindIs(tokens, h.1, LBracket) then ArrayRest(tokens, known, h.0.0, h.0.1, h.1 + 1)
         else VariableRest(tokens, known, h.0.0, h.0.1, h.1)
  {
  }

  /** The type keyword, an optional `*` that makes it a pointer type, and
      the declared name. */
  function DeclarationHead(tokens: seq<CToken>, p: nat): (r: Result<((string, string), nat)>)
    requires p < |tokens| && WellFormed(tokens) && IsDeclarationKind(tokens[p].kind)
    ensures r.Ok? ==> p < r.value.1 <= |tokens|
  {
    var star := KindIs(tokens, p + 1, Asterisk);
    var varType := if star then tokens[p].value.text + "*" else tokens[p].value.text;
    var name :- ExpectAt(tokens, if star then p + 2 else p + 1, Identifier);
    Ok(((varType, name.0.value.text), name.1))
  }

  /** An array declaration after its `[`: an optional NUMBER size, `]`, an
      optional `= { values }` and `;`; no initialiser gives `None`. */
  function ArrayRest(tokens: seq<CToken>, known: set<string>, varType: string, name: string, p: nat): (r: Result<(CStmt, nat)>)
    requires p <= |tokens| && WellFormed(tokens)
    ensures r.Ok? ==> p < r.value.1 <= |tokens|
  {
    var sized := KindIs(tokens, p, Number);
    var size := if sized then Some(tokens[p].value.n) else None;
    var close :- ExpectAt(tokens, if sized then p + 1 else p, RBracket);
    var values :- Initialiser(tokens, known, close.1);
    var semi :- ExpectAt(tokens, values.1, Semicolon);
    Ok((CArrayDeclaration(varType, name, size, values.0), semi.1))
  }

  /** The optional `= { values }` of an array declaration. */
  function Initialiser(tokens: seq<CToken>, known: set<string>, p: nat): (r: Result<(Option<seq<CExpr>>, nat)>)
    requires p <= |tokens| && WellFormed(tokens)
    ensures r.Ok? ==> p <= r.value.1 <= |tokens|
    ensures r.Ok? && r.value.0.None? ==> r.value.1 == p
  {
    if KindIs(tokens, p, Equals) then
      var open :- ExpectAt(tokens, p + 1, LBrace);
      var values :- Expressions(tokens, known, open.1, Brace, []);
      var brace :- ExpectAt(tokens, values.1, RBrace);
      Ok((Some(values.0), brace.1))
    else
      Ok((None, p))
  }

  /** A variable declaration after its name: an optional `= value` and `;`. */
  function VariableRest(tokens: seq<CToken>, known: set<string>, varType: string, name: string, p: nat): (r: Result<(CStmt, nat)>)
    requires p <= |tokens| && WellFormed(tokens)
    ensures r.Ok? ==> p < r.value.1 <= |tokens|
  {
    if KindIs(tokens, p, Equals) then
      var value :- ValueSemicolon(tokens, known, p + 1);
      Ok((CVarDeclaration(varType, name, Some(value.0)), value.1))
    else
      var semi :- ExpectAt(tokens, p, Semicolon);
      Ok((CVarDeclaration(varType, name, None), semi.1))
  }

  /** `parse_assignment_or_expression`. */
  function NameStmt(tokens: seq<CToken>, known: set<string>, p: nat): (r: Result<(CStmt, nat)>)
    requires p < |tokens| && WellFormed(tokens) && tokens[p].kind.Identifier?
    ensures r.Ok? ==> p < r.value.1 <= |tokens|
  {
    var name := tokens[p].value.text;
    if KindIs(tokens, p + 1, LBracket) then ElementStmt(tokens, known, name, p + 2)
    else NameTail(tokens, known, name, p + 1)
  }

  /** After `name[`: `name[index] = value;` assigns an element; `name[index]`
      followed by anything else continues as if only the name had been read. */
  function ElementStmt(tokens: seq<CToken>, known: set<string>, name: string, p: nat): (r: Result<(CStmt, nat)>)
    requires p <= |tokens| && WellFormed(tokens)
    ensures r.Ok? ==> p < r.value.1 <= |tokens|
  {
    var index :- LogicalOr(tokens, known, p);
    var close :- ExpectAt(tokens, index.1, RBracket);
    ElementTail(tokens, known, name, index.0, close.1)
  }

  /** After `name[index]`. */
  function ElementTail(tokens: seq<CToken>, known: set<string>, name: string, index: CExpr, p: nat): (r: Result<(CStmt, nat)>)
    requires p <= |tokens| && WellFormed(tokens)
    ensures r.Ok? ==> p <= r.value.1 <= |tokens|
  {
    if KindIs(tokens, p, Equals) then
      var value :- ValueSemicolon(tokens, known, p + 1);
      Ok((CAssignment(Element(name, index), value.0), value.1))
    else
      NameTail(tokens, known, name, p)
  }

  /** What follows the name: `= value;`, `++` or `--`, a call, or nothing;
      the `;` is optional after all but an assignment. */
  function NameTail(tokens: seq<CToken>, known: set<string>, name: string, p: nat): (r: Result<(CStmt, nat)>)
    requires p <= |tokens| && WellFormed(tokens)
    ensures r.Ok? ==> p <= r.value.1 <= |tokens|
  {
    if KindIs(tokens, p, Equals) then
      var value :- ValueSemicolon(tokens, known, p + 1);
      Ok((CAssignment(Variable(name), value.0), value.1))
    else if p < |tokens| && (tokens[p].kind.PlusPlus? || tokens[p].kind.MinusMinus?) then
      Ok((CExpressionStatement(name + tokens[p].value.text), OptionalSemicolon(tokens, p + 1)))
    else if KindIs(tokens, p, LParen) then CallStmt(tokens, known, name, p + 1)
    else
      Ok((CExpressionStatement(name), OptionalSemicolon(tokens, p)))
  }

  /** A call statement after its `(`: the arguments, `)` and an optional `;`. */
  function CallStmt(tokens: seq<CToken>, known: set<string>, name: string, p: nat): (r: Result<(CStmt, nat)>)
    requires p <= |tokens| && WellFormed(tokens)
    ensures r.Ok? ==> p < r.value.1 <= |tokens|
  {
    var args :- Expressions(tokens, known, p, Paren, []);
    var close :- ExpectAt(tokens, args.1, RParen);
    Ok((CCallStatement(name, args.0), OptionalSemicolon(tokens, close.1)))
  }

  // ---------------------------------------------------------------------
  // Properties of the statement grammar

  /** A token that starts no statement is consumed and yields `CNoStatement`;
      running out of tokens where a statement is expected is a crash on `None`. */
  lemma SkippedToken(tokens: seq<CToken>, known: set<string>, p: nat)
    requires p <= |tokens| && WellFormed(tokens)
    ensures p == |tokens| ==> Statement(tokens, known, p) == Err(NoneToken)
    ensures p < |tokens| && !StartsStatement(tokens[p].kind) ==> Statement(tokens, known, p) == Ok((CNoStatement, p + 1))
  {
  }

  /** The tokens that start a statement. */
  predicate StartsStatement(k: CKind) {
    IsDeclarationKind(k) || k.If? || k.While? || k.For? || k.Return? || k.Printf? || k.Identifier?
  }

  /** A declaration does not make its name usable: `int x; return x;` with
      `x` not declared before fails on the `x` of the `return`. */
  lemma DeclarationDoesNotDeclare(tokens: seq<CToken>, known: set<string>, p: nat)
    requires p + 6 <= |tokens| && WellFormed(tokens)
    requires tokens[p].kind.IntType? && tokens[p + 1].kind.Identifier? && tokens[p + 2].kind.Semicolon?
    requires tokens[p + 3].kind.Return? && tokens[p + 4].kind.Identifier? && tokens[p + 5].kind.Semicolon?
    requires tokens[p + 4].value == tokens[p + 1].value && tokens[p + 1].value.text !in known
    ensures Statement(tokens, known, p) == Ok((CVarDeclaration(tokens[p].value.text, tokens[p + 1].value.text, None), p + 3))
    ensures Block(tokens, known, p, []) ==
      Err(SyntaxError(UndeclaredVariable(tokens[p + 1].value.text), tokens[p + 4].line, tokens[p + 4].column))
  {
    var x := tokens[p + 1].value.text;
    var decl := CVarDeclaration(tokens[p].value.text, x, None);
    BareDeclaration(tokens, known, p);
    ReturnUndeclared(tokens, known, p + 3);
    assert Block(tokens, known, p + 3, [decl]) == Statement(tokens, known, p + 3).PropagateFailure();
  }

  /** `int x;` is a declaration without a value that ends after its `;`. */
  lemma BareDeclaration(tokens: seq<CToken>, known: set<string>, p: nat)
    requires p + 3 <= |tokens| && WellFormed(tokens)
    requires tokens[p].kind.IntType? && tokens[p + 1].kind.Identifier? && tokens[p + 2].kind.Semicolon?
    ensures Statement(tokens, known, p) == Ok((CVarDeclaration(tokens[p].value.text, tokens[p + 1].value.text, None), p + 3))
  {
    var decl := CVarDeclaration(tokens[p].value.text, tokens[p + 1].value.text, None);
    assert VariableRest(tokens, known, tokens[p].value.text, tokens[p + 1].value.text, p + 2) == Ok((decl, p + 3));
  }

  /** `return x;` with `x` undeclared fails on the `x`. */
  lemma ReturnUndeclared(tokens: seq<CToken>, known: set<string>, p: nat)
    requires p + 3 <= |tokens| && WellFormed(tokens)
    requires tokens[p].kind.Return? && tokens[p + 1].kind.Identifier? && tokens[p + 2].kind.Semicolon?
    requires tokens[p + 1].value.text !in known
    ensures Statement(tokens, known, p) ==
      Err(SyntaxError(UndeclaredVariable(tokens[p + 1].value.text), tokens[p + 1].line, tokens[p + 1].column))
  {
    UndeclaredName(tokens, known, p + 1);
    assert ReturnStmt(tokens, known, p) == Statement(tokens, known, p);
  }

  /** `return;` has no value, and the `;` is required. */
  lemma ReturnWithoutValue(tokens: seq<CToken>, known: set<string>, p: nat)
    requires p < |tokens| && WellFormed(tokens) && tokens[p].kind.Return?
    ensures KindIs(tokens, p + 1, Semicolon) ==> Statement(tokens, known, p) == Ok((CReturnStatement(None), p + 2))
    ensures p + 1 == |tokens| ==> Statement(tokens, known, p) == Err(Unpositioned(ExpectedAtEnd("SEMICOLON")))
  {
  }

  /** `x++` and `x--` keep the name and the operator; the `;` is optional. */
  lemma IncrementStatement(tokens: seq<CToken>, known: set<string>, p: nat)
    requires p + 1 < |tokens| && WellFormed(tokens) && tokens[p].kind.Identifier?
    requires tokens[p + 1].kind.PlusPlus? || tokens[p + 1].kind.MinusMinus?
    ensures var s := CExpressionStatement(tokens[p].value.text + (if tokens[p + 1].kind.PlusPlus? then "++" else "--"));
      Statement(tokens, known, p) == Ok((s, if KindIs(tokens, p + 2, Semicolon) then p + 3 else p + 2))
  {
    Spelled(tokens, p + 1);
  }

  /** An assignment to a name does not check that the name was declared. */
  lemma AssignmentTargetUnchecked(tokens: seq<CToken>, known: set<string>, p: nat)
    requires p + 4 <= |tokens| && WellFormed(tokens)
    requires tokens[p].kind.Identifier? && tokens[p + 1].kind.Equals? && tokens[p + 2].kind.Number? && tokens[p + 3].kind.Semicolon?
    ensures Statement(tokens, known, p) ==
      Ok((CAssignment(Variable(tokens[p].value.text), CNumber(Whole(tokens[p + 2].value.n))), p + 4))
  {
    var n := CNumber(Whole(tokens[p + 2].value.n));
    assert Primary(tokens, known, p + 2) == Ok((n, p + 3));
    assert Multiplicative(tokens, known, p + 2) == Ok((n, p + 3));
    assert Additive(tokens, known, p + 2) == Ok((n, p + 3));
    assert Comparison(tokens, known, p + 2) == Ok((n, p + 3));
    assert LogicalAnd(tokens, known, p + 2) == Ok((n, p + 3));
    assert LogicalOr(tokens, known, p + 2) == Ok((n, p + 3));
  }

  /** An array declaration without `=` has no initialiser, and one with
      `= {}` has an empty one. */
  lemma ArrayInitialiser(tokens: seq<CToken>, known: set<string>, varType: string, name: string, p: nat)
    requires p + 1 < |tokens| && WellFormed(tokens) && tokens[p].kind.RBracket?
    ensures tokens[p + 1].kind.Semicolon? ==>
      ArrayRest(tokens, known, varType, name, p) == Ok((CArrayDeclaration(varType, name, None, None), p + 2))
    ensures (&& p + 5 <= |tokens| && tokens[p + 1].kind.Equals? && tokens[p + 2].kind.LBrace?
             && tokens[p + 3].kind.RBrace? && tokens[p + 4].kind.Semicolon?) ==>
      ArrayRest(tokens, known, varType, name, p) == Ok((CArrayDeclaration(varType, name, None, Some([])), p + 5))
  {
  }

  /** Without `else` the statement carries `CNoElse`; with it, a `CElseBlock`. */
  lemma ElsePresence(tokens: seq<CToken>, known: set<string>, p: nat)
    requires p < |tokens| && WellFormed(tokens) && tokens[p].kind.If?
    requires IfStmt(tokens, known, p).Ok?
    ensures var s := IfStmt(tokens, known, p).value.0;
      s.CIfStatement? && (s.elseBody.CElseBlock? <==> ElseFollowsBody(tokens, known, p))
  {
    var open := ExpectAt(tokens, p + 1, LParen).value;
    var condition := LogicalOr(tokens, known, open.1).value;
    var close := ExpectAt(tokens, condition.1, RParen).value;
    BranchesElse(tokens, known, condition.0, close.1);
  }

  /** The branches carry an else body exactly when `else` follows the first one. */
  lemma BranchesElse(tokens: seq<CToken>, known: set<string>, condition: CExpr, q: nat)
    requires q <= |tokens| && WellFormed(tokens) && IfBranches(tokens, known, condition, q).Ok?
    ensures var s := IfBranches(tokens, known, condition, q).value.0;
      var body := Branch(tokens, known, q);
      s.CIfStatement? && body.Ok? && (s.elseBody.CElseBlock? <==> KindIs(tokens, body.value.1, Else))
  {
  }

  /** The token after the `if` body is `else`. */
  predicate ElseFollowsBody(tokens: seq<CToken>, known: set<string>, p: nat)
    requires p < |tokens| && WellFormed(tokens) && tokens[p].kind.If?
  {
    var open := ExpectAt(tokens, p + 1, LParen);
    && open.Ok?
    && var condition := LogicalOr(tokens, known, open.value.1);
    && condition.Ok?
    && var close := ExpectAt(tokens, condition.value.1, RParen);
    && close.Ok?
    && var body := Branch(tokens, known, close.value.1);
    && body.Ok?
    && KindIs(tokens, body.value.1, Else)
  }

  class CStatementParser {
    const parser: CParser
    const exprParser: CExpressionParser

    ghost predicate Valid()
      reads parser`pos
    {
      exprParser.parser == parser && parser.Valid()
    }

    constructor (parser: CParser, exprParser: CExpressionParser)
      requires exprParser.parser == parser
      ensures this.parser == parser && this.exprParser == exprParser
    {
      this.parser := parser;
      this.exprParser := exprParser;
    }

    method ParseStatement() returns (r: Result<CStmt>)
      requires Valid()
      modifies parser`pos
      ensures Valid() && Agrees(r, parser.pos, Statement(parser.tokens, parser.Known(), old(parser.pos)))
      decreases |parser.tokens| - parser.pos, 3
    {
      if parser.pos == |parser.tokens| {
        return Err(NoneToken);
      }
      var k := parser.tokens[parser.pos].kind;
      if IsDeclarationKind(k) {
        r := ParseDeclaration();
      } else if k.If? {
        r := ParseIfStatement();
      } else if k.While? {
        r := ParseWhileStatement();
      } else if k.For? {
        r := ParseForStatement();
      } else if k.Return? {
        r := ParseReturnStatement();
      } else if k.Printf? {
        r := ParsePrintfStatement();
      } else if k.Identifier? {
        r := ParseAssignmentOrExpression();
      } else {
        parser.Advance();
        r := Ok(CNoStatement);
      }
    }

    /** The statement loop of a braced body, up to `}` or the end. */
    method ParseBlock() returns (r: Result<seq<CStmt>>)
      requires Valid()
      modifies parser`pos
      ensures Valid() && Agrees(r, parser.pos, Block(parser.tokens, parser.Known(), old(parser.pos), []))
      decreases |parser.tokens| - parser.pos, 4
    {
      var body: seq<CStmt> := [];
      while parser.pos < |parser.tokens| && !parser.tokens[parser.pos].kind.RBrace?
        invariant Valid() && old(parser.pos) <= parser.pos
        invariant Block(parser.tokens, parser.Known(), parser.pos, body) == Block(parser.tokens, parser.Known(), old(parser.pos), [])
        decreases |parser.tokens| - parser.pos
      {
        var statement :- ParseStatement();
        body := body + [statement];
      }
      return Ok(body);
    }

    method ParseBraced() returns (r: Result<seq<CStmt>>)
      requires Valid()
      modifies parser`pos
      ensures Valid() && Agrees(r, parser.pos, Braced(parser.tokens, parser.Known(), old(parser.pos)))
      decreases |parser.tokens| - parser.pos, 5
    {
      var body :- ParseBlock();
      var _ :- parser.Expect(RBrace);
      return Ok(body);
    }

    method ParseBranch() returns (r: Result<seq<CStmt>>)
      requires Valid()
      modifies parser`pos
      ensures Valid() && Agrees(r, parser.pos, Branch(parser.tokens, parser.Known(), old(parser.pos)))
      decreases |parser.tokens| - parser.pos, 6
    {
      ghost var spec := Branch(parser.tokens, parser.Known(), parser.pos);
      if parser.CurrentIs(LBrace) {
        parser.Advance();
        assert spec == Braced(parser.tokens, parser.Known(), parser.pos);
        r := ParseBraced();
      } else {
        var statement := ParseStatement();
        if statement.Err? {
          r := Err(statement.error);
        } else {
          r := Ok([statement.value]);
        }
      }
    }

    method ParseIfStatement() returns (r: Result<CStmt>)
      requires Valid() && parser.pos < |parser.tokens| && parser.tokens[parser.pos].kind.If?
      modifies parser`pos
      ensures Valid() && Agrees(r, parser.pos, IfStmt(parser.tokens, parser.Known(), old(parser.pos)))
      decreases |parser.tokens| - parser.pos, 2
    {
      ghost var tokens, known, p := parser.tokens, parser.Known(), parser.pos;
      parser.Advance();
      var _ :- parser.Expect(LParen);
      var condition :- exprParser.ParseExpression();
      ghost var c := parser.pos;
      assert LogicalOr(tokens, known, p + 2) == Ok((condition, c));
      var _ :- parser.Expect(RParen);
      r := ParseIfBranches(condition);
    }

    method ParseIfBranches(condition: CExpr) returns (r: Result<CStmt>)
      requires Valid()
      modifies parser`pos
      ensures Valid() && Agrees(r, parser.pos, IfBranches(parser.tokens, parser.Known(), condition, old(parser.pos)))
      decreases |parser.tokens| - parser.pos, 7
    {
      ghost var spec := IfBranches(parser.tokens, parser.Known(), condition, parser.pos);
      var body := ParseBranch();
      if body.Err? {
        assert spec == Err(body.error);
        r := Err(body.error);
      } else {
        assert spec == ElsePart(parser.tokens, parser.Known(), condition, body.value, parser.pos);
        r := ParseElsePart(condition, body.value);
      }
    }

    /** The optional `else` of `parse_if_statement`, after the `if` branch `body`. */
    method ParseElsePart(condition: CExpr, body: seq<CStmt>) returns (r: Result<CStmt>)
      requires Valid()
      modifies parser`pos
      ensures Valid() && Agrees(r, parser.pos, ElsePart(parser.tokens, parser.Known(), condition, body, old(parser.pos)))
      decreases |parser.tokens| - parser.pos, 7
    {
      if parser.CurrentIs(Else) {
        parser.Advance();
        var elseBody :- ParseBranch();
        return Ok(CIfStatement(condition, body, CElseBlock(elseBody)));
      }
      return Ok(CIfStatement(condition, body, CNoElse));
    }

    method ParseWhileStatement() returns (r: Result<CStmt>)
      requires Valid() && parser.pos < |parser.tokens| && parser.tokens[parser.pos].kind.While?
      modifies parser`pos
      ensures Valid() && Agrees(r, parser.pos, WhileStmt(parser.tokens, parser.Known(), old(parser.pos)))
      decreases |parser.tokens| - parser.pos, 2
    {
      ghost var tokens, known, p := parser.tokens, parser.Known(), parser.pos;
      parser.Advance();
      var _ :- parser.Expect(LParen);
      var condition :- exprParser.ParseExpression();
      assert LogicalOr(tokens, known, p + 2) == Ok((condition, parser.pos));
      var _ :- parser.Expect(RParen);
      var _ :- parser.Expect(LBrace);
      var body :- ParseBraced();
      return Ok(CWhileStatement(condition, body));
    }

    method ParseForStatement() returns (r: Result<CStmt>)
      requires Valid() && parser.pos < |parser.tokens| && parser.tokens[parser.pos].kind.For?
      modifies parser`pos
      ensures Valid() && Agrees(r, parser.pos, ForStmt(parser.tokens, parser.Known(), old(parser.pos)))
      decreases |parser.tokens| - parser.pos, 2
    {
      ghost var tokens, known, p := parser.tokens, parser.Known(), parser.pos;
      parser.Advance();
      var _ :- parser.Expect(LParen);
      var init :- ParseStatement();
      ghost var i := parser.pos;
      assert Statement(tokens, known, p + 2) == Ok((init, i));
      var header :- ParseForHeader();
      assert ForHeader(tokens, known, i) == Ok((header, parser.pos));
      var body :- ParseBraced();
      return Ok(CForStatement(init, header.0, header.1, body));
    }

    /** The condition, `;`, increment, `)` and `{` of `parse_for_statement`. */
    method ParseForHeader() returns (r: Result<(CExpr, CExpr)>)
      requires Valid()
      modifies parser`pos
      ensures Valid() && Agrees(r, parser.pos, ForHeader(parser.tokens, parser.Known(), old(parser.pos)))
    {
      var condition :- exprParser.ParseExpression();
      var _ :- parser.Expect(Semicolon);
      var increment :- exprParser.ParseExpression();
      var _ :- parser.Expect(RParen);
      var _ :- parser.Expect(LBrace);
      return Ok((condition, increment));
    }

    method ParseReturnStatement() returns (r: Result<CStmt>)
      requires Valid() && parser.pos < |parser.tokens| && parser.tokens[parser.pos].kind.Return?
      modifies parser`pos
      ensures Valid() && Agrees(r, parser.pos, ReturnStmt(parser.tokens, parser.Known(), old(parser.pos)))
    {
      parser.Advance();
      var value: Option<CExpr> := None;
      if parser.pos < |parser.tokens| && !parser.tokens[parser.pos].kind.Semicolon? {
        var e :- exprParser.ParseExpression();
        value := Some(e);
      }
      var _ :- parser.Expect(Semicolon);
      return Ok(CReturnStatement(value));
    }

    /** The expression loop shared by `printf`, call statements and array
        initialisers. */
    method ParseExpressions(close: Closer) returns (r: Result<seq<CExpr>>)
      requires Valid()
      modifies parser`pos
      ensures Valid() && Agrees(r, parser.pos, Expressions(parser.tokens, parser.Known(), old(parser.pos), close, []))
    {
      var values: seq<CExpr> := [];
      while parser.pos < |parser.tokens| && !Closes(parser.tokens[parser.pos].kind, close)
        invariant Valid()
        invariant Expressions(parser.tokens, parser.Known(), parser.pos, close, values)
          == Expressions(parser.tokens, parser.Known(), old(parser.pos), close, [])
        decreases |parser.tokens| - parser.pos
      {
        ghost var at := parser.pos;
        var value :- exprParser.ParseExpression();
        assert LogicalOr(parser.tokens, parser.Known(), at) == Ok((value, parser.pos));
        values := values + [value];
        if parser.pos < |parser.tokens| && parser.tokens[parser.pos].kind.Comma? {
          parser.Advance();
        }
      }
      return Ok(values);
    }

    method ParseValueSemicolon() returns (r: Result<CExpr>)
      requires Valid()
      modifies parser`pos
      ensures Valid() && Agrees(r, parser.pos, ValueSemicolon(parser.tokens, parser.Known(), old(parser.pos)))
    {
      var value :- exprParser.ParseExpression();
      var _ :- parser.Expect(Semicolon);
      return Ok(value);
    }

    /** `if current is SEMICOLON: expect(SEMICOLON)`. */
    method SkipSemicolon()
      requires Valid()
      modifies parser`pos
      ensures Valid() && parser.pos == OptionalSemicolon(parser.tokens, old(parser.pos))
    {
      if parser.CurrentIs(Semicolon) {
        var _ := parser.Expect(Semicolon);
      }
    }

    method ParsePrintfStatement() returns (r: Result<CStmt>)
      requires Valid() && parser.pos < |parser.tokens| && parser.tokens[parser.pos].kind.Printf?
      modifies parser`pos
      ensures Valid() && Agrees(r, parser.pos, PrintfStmt(parser.tokens, parser.Known(), old(parser.pos)))
    {
      parser.Advance();
      var _ :- parser.Expect(LParen);
      var args :- ParseExpressions(Paren);
      var _ :- parser.Expect(RParen);
      var _ :- parser.Expect(Semicolon);
      return Ok(CCallStatement("printf", args));
    }

    method ParseDeclaration() returns (r: Result<CStmt>)
      requires Valid() && parser.pos < |parser.tokens| && IsDeclarationKind(parser.tokens[parser.pos].kind)
      modifies parser`pos
      ensures Valid() && Agrees(r, parser.pos, Declaration(parser.tokens, parser.Known(), old(parser.pos)))
    {
      ghost var p0 := parser.pos;
      var head :- ParseDeclarationHead();
      DeclarationAfterHead(parser.tokens, parser.Known(), p0);
      if parser.CurrentIs(LBracket) {
        parser.Advance();
        r := ParseArrayRest(head.0, head.1);
      } else {
        r := ParseVariableRest(head.0, head.1);
      }
    }

    method ParseDeclarationHead() returns (r: Result<(string, string)>)
      requires Valid() && parser.pos < |parser.tokens| && IsDeclarationKind(parser.tokens[parser.pos].kind)
      modifies parser`pos
      ensures Valid() && Agrees(r, parser.pos, DeclarationHead(parser.tokens, old(parser.pos)))
    {
      var varType := parser.tokens[parser.pos].value.text;
      parser.Advance();
      if parser.CurrentIs(Asterisk) {
        varType := varType + "*";
        parser.Advance();
      }
      var name :- parser.Expect(Identifier);
      return Ok((varType, name.value.text));
    }

    method ParseArrayRest(varType: string, name: string) returns (r: Result<CStmt>)
      requires Valid()
      modifies parser`pos
      ensures Valid() && Agrees(r, parser.pos, ArrayRest(parser.tokens, parser.Known(), varType, name, old(parser.pos)))
    {
      var size: Option<nat> := None;
      if parser.CurrentIs(Number) {
        size := Some(parser.tokens[parser.pos].value.n);
        parser.Advance();
      }
      var _ :- parser.Expect(RBracket);
      var values :- ParseInitialiser();
      var _ :- parser.Expect(Semicolon);
      return Ok(CArrayDeclaration(varType, name, size, values));
    }

    method ParseInitialiser() returns (r: Result<Option<seq<CExpr>>>)
      requires Valid()
      modifies parser`pos
      ensures Valid() && Agrees(r, parser.pos, Initialiser(parser.tokens, parser.Known(), old(parser.pos)))
    {
      if parser.CurrentIs(Equals) {
        parser.Advance();
        var _ :- parser.Expect(LBrace);
        var values :- ParseExpressions(Brace);
        var _ :- parser.Expect(RBrace);
        return Ok(Some(values));
      }
      return Ok(None);
    }

    method ParseVariableRest(varType: string, name: string) returns (r: Result<CStmt>)
      requires Valid()
      modifies parser`pos
      ensures Valid() && Agrees(r, parser.pos, VariableRest(parser.tokens, parser.Known(), varType, name, old(parser.pos)))
    {
      ghost var spec := VariableRest(parser.tokens, parser.Known(), varType, name, parser.pos);
      if parser.CurrentIs(Equals) {
        parser.Advance();
        var e := ParseValueSemicolon();
        if e.Err? {
          assert spec == Err(e.error);
          r := Err(e.error);
        } else {
          r := Ok(CVarDeclaration(varType, name, Some(e.value)));
          assert spec == Ok((r.value, parser.pos));
        }
      } else {
        var semi := parser.Expect(Semicolon);
        if semi.Err? {
          assert spec == Err(semi.error);
          r := Err(semi.error);
        } else {
          r := Ok(CVarDeclaration(varType, name, None));
          assert spec == Ok((r.value, parser.pos));
        }
      }
    }

    method ParseAssignmentOrExpression() returns (r: Result<CStmt>)
      requires Valid() && parser.pos < |parser.tokens| && parser.tokens[parser.pos].kind.Identifier?
      modifies parser`pos
      ensures Valid() && Agrees(r, parser.pos, NameStmt(parser.tokens, parser.Known(), old(parser.pos)))
    {
      ghost var spec := NameStmt(parser.tokens, parser.Known(), parser.pos);
      var name := parser.tokens[parser.pos].value.text;
      parser.Advance();
      if parser.CurrentIs(LBracket) {
        assert spec == ElementStmt(parser.tokens, parser.Known(), name, parser.pos + 1);
        parser.Advance();
        r := ParseElement(name);
      } else {
        assert spec == NameTail(parser.tokens, parser.Known(), name, parser.pos);
        r := ParseNameTail(name);
      }
    }

    method ParseElement(name: string) returns (r: Result<CStmt>)
      requires Valid()
      modifies parser`pos
      ensures Valid() && Agrees(r, parser.pos, ElementStmt(parser.tokens, parser.Known(), name, old(parser.pos)))
    {
      var index :- exprParser.ParseExpression();
      var _ :- parser.Expect(RBracket);
      r := ParseElementTail(name, index);
    }

    method ParseElementTail(name: string, index: CExpr) returns (r: Result<CStmt>)
      requires Valid()
      modifies parser`pos
      ensures Valid() && Agrees(r, parser.pos, ElementTail(parser.tokens, parser.Known(), name, index, old(parser.pos)))
    {
      if parser.CurrentIs(Equals) {
        parser.Advance();
        var value :- ParseValueSemicolon();
        return Ok(CAssignment(Element(name, index), value));
      }
      r := ParseNameTail(name);
    }

    method ParseNameTail(name: string) returns (r: Result<CStmt>)
      requires Valid()
      modifies parser`pos
      ensures Valid() && Agrees(r, parser.pos, NameTail(parser.tokens, parser.Known(), name, old(parser.pos)))
    {
      ghost var spec := NameTail(parser.tokens, parser.Known(), name, parser.pos);
      if parser.CurrentIs(Equals) {
        parser.Advance();
        assert spec == (var value :- ValueSemicolon(parser.tokens, parser.Known(), parser.pos);
          Ok((CAssignment(Variable(name), value.0), value.1)));
        var value := ParseValueSemicolon();
        if value.Err? {
          r := Err(value.error);
        } else {
          r := Ok(CAssignment(Variable(name), value.value));
        }
      } else if parser.pos < |parser.tokens|
        && (parser.tokens[parser.pos].kind.PlusPlus? || parser.tokens[parser.pos].kind.MinusMinus?)
      {
        var op := parser.tokens[parser.pos].value.text;
        parser.Advance();
        SkipSemicolon();
        r := Ok(CExpressionStatement(name + op));
      } else if parser.CurrentIs(LParen) {
        parser.Advance();
        assert spec == CallStmt(parser.tokens, parser.Known(), name, parser.pos);
        r := ParseCallStatement(name);
      } else {
        SkipSemicolon();
        r := Ok(CExpressionStatement(name));
      }
    }

    method ParseCallStatement(name: string) returns (r: Result<CStmt>)
      requires Valid()
      modifies parser`pos
      ensures Valid() && Agrees(r, parser.pos, CallStmt(parser.tokens, parser.Known(), name, old(parser.pos)))
    {
      var args :- ParseExpressions(Paren);
      var _ :- parser.Expect(RParen);
      SkipSemicolon();
      return Ok(CCallStatement(name, args));
    }
  }
}
