/** The Kato statement parser (`kato/parser/statement_parser.py`).

    Statements also read and grow the parser's set of defined variables: one
    flat set per function, so a variable declared inside a nested block stays
    defined after the block ends.  The specification functions therefore take
    the variable set along with the position and yield the updated one
    (`Parsed`); the set of defined functions is only read. */
module KatoStmtParser {
  import opened Base
  import opened TokenValues
  import opened KatoTokens
  import opened KatoAst
  import opened KatoCursor
  import opened KatoExprParser

  /** A parsed node, the position after it and the defined variables after it. */
  datatype Parsed<T> = Parsed(node: T, pos: nat, vars: set<string>)

  /** A method's result, cursor and variable set agree with a specification
      that yields a `Parsed` value; on failure only the error matters. */
  predicate AgreesState<T(==)>(r: Result<T>, pos: nat, vars: set<string>, spec: Result<Parsed<T>>) {
    match spec
    case Ok(v) => r == Ok(v.node) && pos == v.pos && vars == v.vars
    case Err(e) => r == Err(e)
  }

  /** A method result that agrees with its specification names the
      specification's outcome: its value, position and variables, or its error. */
  lemma AgreesStateCases<T>(r: Result<T>, pos: nat, vars: set<string>, spec: Result<Parsed<T>>)
    requires AgreesState(r, pos, vars, spec)
    ensures r.Ok? ==> spec == Ok(Parsed(r.value, pos, vars))
    ensures r.Err? ==> spec == Err(r.error)
  {
  }

  /** The variable types a declaration accepts. */
  predicate IsVariableType(k: Kind) { k.Int? || k.Float? || k.Char? || k.StringType? }

  /** The tokens after which `print` reads one more argument without a separator. */
  predicate ContinuesPrint(k: Kind) {
    k.Str? || k.Number? || k.FloatNumber? || k.Identifier? || k.Asterisk? || k.LParen?
  }

  /** The closing `;` of a simple statement, reported at the given position when missing. */
  function Terminator(tokens: seq<Token>, p: nat, after: string, line: nat, column: nat): (r: Result<nat>)
    ensures r.Ok? <==> KindIs(tokens, p, Semicolon)
    ensures r.Ok? ==> r.value == p + 1
  {
    if KindIs(tokens, p, Semicolon) then Ok(p + 1)
    else Err(SyntaxError(MissingSemicolon(after), line, column))
  }

  /** An expression and the `;` after it, the missing `;` reported at the given position. */
  function ValueEnd(tokens: seq<Token>, q: nat, after: string, line: nat, column: nat): (r: Result<(Expr, nat)>)
    requires q <= |tokens| && WellFormed(tokens)
    ensures r.Ok? ==> q < r.value.1 <= |tokens|
  {
    var value :- Additive(tokens, q);
    var end :- Terminator(tokens, value.1, after, line, column);
    Ok((value.0, end))
  }

  /** `parse_statement`: dispatch on the current token. */
  function Statement(tokens: seq<Token>, funcs: set<string>, p: nat, vars: set<string>): (r: Result<Parsed<Stmt>>)
    requires p <= |tokens| && WellFormed(tokens)
    ensures r.Ok? ==> p < r.value.pos <= |tokens|
    decreases |tokens| - p, 2
  {
    if p == |tokens| then Err(NoneToken)
    else
      var t := tokens[p];
      if t.kind.Print? then
        var s :- PrintStmt(tokens, p);
        Ok(Parsed(s.0, s.1, vars))
      else if t.kind.Return? then
        var s :- ReturnStmt(tokens, p);
        Ok(Parsed(s.0, s.1, vars))
      else if t.kind.Var? then
        VarDecl(tokens, p, vars)
      else if t.kind.Call? then
        var s :- CallStmt(tokens, funcs, p);
        Ok(Parsed(s.0, s.1, vars))
      else if t.kind.If? then
        IfStmt(tokens, funcs, p, vars)
      else if t.kind.While? then
        WhileStmt(tokens, funcs, p, vars)
      else if t.kind.Identifier? then
        var s :-
          if KindIs(tokens, p + 1, PlusPlus) then StepStmt(tokens, p, vars, true)
          else if KindIs(tokens, p + 1, MinusMinus) then StepStmt(tokens, p, vars, false)
          else AssignStmt(tokens, p, vars);
        Ok(Parsed(s.0, s.1, vars))
      else
        Err(SyntaxError(UnknownStatement(ValueText(t.value)), t.line, t.column))
  }

  /** `parse_print_statement`: `print ( args ) ;`; a missing `;` is reported
      five columns to the right of `print`. */
  function PrintStmt(tokens: seq<Token>, p: nat): (r: Result<(Stmt, nat)>)
    requires p < |tokens| && WellFormed(tokens) && tokens[p].kind.Print?
    ensures r.Ok? ==> p < r.value.1 <= |tokens| && r.value.0.PrintStatement?
  {
    var open :- ExpectAt(tokens, p + 1, LParen);
    PrintRest(tokens, tokens[p], open.1)
  }

  /** `args ) ;` after the `(` of the `print` token `t`. */
  function PrintRest(tokens: seq<Token>, t: Token, q: nat): (r: Result<(Stmt, nat)>)
    requires q <= |tokens| && WellFormed(tokens)
    ensures r.Ok? ==> q < r.value.1 <= |tokens| && r.value.0.PrintStatement?
  {
    var args :- PrintArgs(tokens, q, []);
    var close :- ExpectAt(tokens, args.1, RParen);
    var end :- Terminator(tokens, close.1, "print statement", t.line, t.column + 5);
    Ok((PrintStatement(args.0), end))
  }

  /** The argument loop of `print`: expressions up to `)`, each followed by
      nothing, `)` or the start of another operand; anything else ends the list. */
  function PrintArgs(tokens: seq<Token>, p: nat, acc: seq<Expr>): (r: Result<(seq<Expr>, nat)>)
    requires p <= |tokens| && WellFormed(tokens)
    ensures r.Ok? ==> p <= r.value.1 <= |tokens|
    decreases |tokens| - p
  {
    if p < |tokens| && !tokens[p].kind.RParen? then
      var e :- Additive(tokens, p);
      var q := e.1;
      if q < |tokens| && !tokens[q].kind.RParen? && !ContinuesPrint(tokens[q].kind) then
        Ok((acc + [e.0], q))
      else
        PrintArgs(tokens, q, acc + [e.0])
    else
      Ok((acc, p))
  }

  /** `parse_return_statement`: `return expr ;`; a missing `;` is reported six
      columns to the right of `return`. */
  function ReturnStmt(tokens: seq<Token>, p: nat): (r: Result<(Stmt, nat)>)
    requires p < |tokens| && WellFormed(tokens) && tokens[p].kind.Return?
    ensures r.Ok? ==> p < r.value.1 <= |tokens| && r.value.0.ReturnStatement? && r.value.0.result.Some?
  {
    var t := tokens[p];
    var value :- ValueEnd(tokens, p + 1, "return statement", t.line, t.column + 6);
    Ok((ReturnStatement(Some(value.0)), value.1))
  }

  /** `parse_var_declaration`: `var TYPE name = expr ;`, defining `name`. */
  function VarDecl(tokens: seq<Token>, p: nat, vars: set<string>): (r: Result<Parsed<Stmt>>)
    requires p < |tokens| && WellFormed(tokens) && tokens[p].kind.Var?
    ensures r.Ok? ==> p < r.value.pos <= |tokens|
    ensures r.Ok? ==> && r.value.node.VarDeclaration? && r.value.node.name !in vars
                      && r.value.vars == vars + {r.value.node.name}
  {
    var head :- VarHead(tokens, p, vars);
    VarRest(tokens, p + 3, tokens[p].line, tokens[p].column, head.0, head.1, vars)
  }

  /** A declaration is its head, then the rest after the name. */
  lemma VarDeclSplit(tokens: seq<Token>, p: nat, vars: set<string>)
    requires p < |tokens| && WellFormed(tokens) && tokens[p].kind.Var?
    ensures var head := VarHead(tokens, p, vars);
      && (head.Err? ==> VarDecl(tokens, p, vars) == Err(head.error))
      && (head.Ok? ==> VarDecl(tokens, p, vars) == VarRest(tokens, p + 3, tokens[p].line, tokens[p].column, head.value.0, head.value.1, vars))
  {
  }

  /** `= value ;` after the name of a declaration, which is then defined. */
  function VarRest(tokens: seq<Token>, p: nat, line: nat, column: nat, typeName: string, name: string,
                   vars: set<string>): (r: Result<Parsed<Stmt>>)
    requires p <= |tokens| && WellFormed(tokens)
    ensures r.Ok? ==> p < r.value.pos <= |tokens|
    ensures r.Ok? ==> && r.value.node.VarDeclaration? && r.value.node.name == name
                      && r.value.vars == vars + {name}
  {
    var eq :- ExpectAt(tokens, p, Equals);
    var value :- ValueEnd(tokens, p + 1, "variable declaration", line, column);
    Ok(Parsed(VarDeclaration(typeName, name, Some(value.0)), value.1, vars + {name}))
  }

  /** The type and the new name after `var`: the type must be a variable
      type and the name must not be defined yet. */
  function VarHead(tokens: seq<Token>, p: nat, vars: set<string>): (r: Result<(string, string)>)
    requires p < |tokens| && WellFormed(tokens) && tokens[p].kind.Var?
    ensures r.Ok? ==> p + 3 <= |tokens| && r.value.1 !in vars
  {
    if p + 1 == |tokens| then Err(NoneToken)
    else
      var typeToken := tokens[p + 1];
      if !IsVariableType(typeToken.kind) then
        Err(SyntaxError(ExpectedVariableType(ValueText(typeToken.value)), typeToken.line, typeToken.column))
      else
        var nameToken :- ExpectAt(tokens, p + 2, Kind.Identifier);
        var name := nameToken.0.value.text;
        if name in vars then
          Err(SyntaxError(VariableAlreadyDefined(name), nameToken.0.line, nameToken.0.column))
        else
          Ok((typeToken.value.text, name))
  }

  /** `parse_call_statement`: `call name ( args ) ;` for a defined function or a builtin. */
  function CallStmt(tokens: seq<Token>, funcs: set<string>, p: nat): (r: Result<(Stmt, nat)>)
    requires p < |tokens| && WellFormed(tokens) && tokens[p].kind.Call?
    ensures r.Ok? ==> p < r.value.1 <= |tokens| && r.value.0.CallStatement?
    ensures r.Ok? ==> r.value.0.funcName in funcs + Builtins
  {
    var callee :- Callee(tokens, funcs, p + 1);
    CallRest(tokens, tokens[p], callee.0, callee.1)
  }

  /** `call` parses its callee and then the rest of the statement. */
  lemma CallStmtStep(tokens: seq<Token>, funcs: set<string>, p: nat)
    requires p < |tokens| && WellFormed(tokens) && tokens[p].kind.Call?
    ensures var c := Callee(tokens, funcs, p + 1);
      c.Err? ==> CallStmt(tokens, funcs, p) == Err(c.error)
    ensures var c := Callee(tokens, funcs, p + 1);
      c.Ok? ==> CallStmt(tokens, funcs, p) == CallRest(tokens, tokens[p], c.value.0, c.value.1)
  {
  }

  /** `name (` after `call`: the name must be a defined function or a builtin,
      and a `(` must follow it. */
  function Callee(tokens: seq<Token>, funcs: set<string>, p: nat): (r: Result<(string, nat)>)
    requires p <= |tokens| && WellFormed(tokens)
    ensures r.Ok? ==> r.value.1 == p + 2 <= |tokens| && r.value.0 in funcs + Builtins
    ensures r.Ok? ==> tokens[p].kind.Identifier? && r.value.0 == tokens[p].value.text && tokens[p + 1].kind.LParen?
  {
    var nameToken :- ExpectAt(tokens, p, Kind.Identifier);
    var name := nameToken.0.value.text;
    if name !in funcs && name !in Builtins then
      Err(SyntaxError(UnknownFunction(name), nameToken.0.line, nameToken.0.column))
    else if !KindIs(tokens, p + 1, LParen) then
      Err(SyntaxError(CallWithoutParentheses, nameToken.0.line, nameToken.0.column + |name|))
    else
      Ok((name, p + 2))
  }

  /** `args ) ;` after the `(` of a call of `name` begun by the `call` token `t`. */
  function CallRest(tokens: seq<Token>, t: Token, name: string, q: nat): (r: Result<(Stmt, nat)>)
    requires q <= |tokens| && WellFormed(tokens)
    ensures r.Ok? ==> q < r.value.1 <= |tokens| && r.value.0.CallStatement? && r.value.0.funcName == name
  {
    var args :- CallArgs(tokens, q, []);
    var close :- ExpectAt(tokens, args.1, RParen);
    var end :- Terminator(tokens, close.1, "function call", t.line, t.column);
    Ok((CallStatement(name, args.0), end))
  }

  /** The argument loop of `call`: expressions up to `)`, each optionally followed by `,`. */
  function CallArgs(tokens: seq<Token>, p: nat, acc: seq<Expr>): (r: Result<(seq<Expr>, nat)>)
    requires p <= |tokens| && WellFormed(tokens)
    ensures r.Ok? ==> p <= r.value.1 <= |tokens|
    decreases |tokens| - p
  {
    if p < |tokens| && !tokens[p].kind.RParen? then
      var e :- Additive(tokens, p);
      var q := if KindIs(tokens, e.1, Comma) then e.1 + 1 else e.1;
      CallArgs(tokens, q, acc + [e.0])
    else
      Ok((acc, p))
  }

  /** `parse_if_statement`: `if cond { body }`, any number of `elif cond { body }`,
      and an optional `else { body }`. */
  function IfStmt(tokens: seq<Token>, funcs: set<string>, p: nat, vars: set<string>): (r: Result<Parsed<Stmt>>)
    requires p < |tokens| && WellFormed(tokens) && tokens[p].kind.If?
    ensures r.Ok? ==> p < r.value.pos <= |tokens|
    decreases |tokens| - p, 1
  {
    var head :- GuardedBody(tokens, funcs, p + 1, vars);
    IfRest(tokens, funcs, head.pos, head.vars, head.node.0, head.node.1)
  }

  /** The `elif` parts and the `else` part after the first guarded body. */
  function IfRest(tokens: seq<Token>, funcs: set<string>, p: nat, vars: set<string>,
                  condition: Expr, body: seq<Stmt>): (r: Result<Parsed<Stmt>>)
    requires p <= |tokens| && WellFormed(tokens)
    ensures r.Ok? ==> p <= r.value.pos <= |tokens|
    decreases |tokens| - p, 1
  {
    var elifs :- Elifs(tokens, funcs, p, vars, []);
    var otherwise :- ElsePart(tokens, funcs, elifs.pos, elifs.vars);
    Ok(Parsed(IfStatement(condition, body, elifs.node, otherwise.node), otherwise.pos, otherwise.vars))
  }

  /** The condition and the braced body that follow `if` and `elif`. */
  function GuardedBody(tokens: seq<Token>, funcs: set<string>, p: nat, vars: set<string>): (r: Result<Parsed<(Expr, seq<Stmt>)>>)
    requires p <= |tokens| && WellFormed(tokens)
    ensures r.Ok? ==> p < r.value.pos <= |tokens|
    decreases |tokens| - p, 0
  {
    var cond :- Comparison(tokens, p);
    var open :- ExpectAt(tokens, cond.1, LBrace);
    var body :- Body(tokens, funcs, open.1, vars);
    Ok(Parsed((cond.0, body.node), body.pos, body.vars))
  }

  /** The `elif` loop of `parse_if_statement`. */
  function Elifs(tokens: seq<Token>, funcs: set<string>, p: nat, vars: set<string>, acc: seq<ElifPart>): (r: Result<Parsed<seq<ElifPart>>>)
    requires p <= |tokens| && WellFormed(tokens)
    ensures r.Ok? ==> p <= r.value.pos <= |tokens|
    decreases |tokens| - p, 0
  {
    if KindIs(tokens, p, Elif) then
      var part :- GuardedBody(tokens, funcs, p + 1, vars);
      Elifs(tokens, funcs, part.pos, part.vars, acc + [ElifPart(part.node.0, part.node.1)])
    else
      Ok(Parsed(acc, p, vars))
  }

  /** One round of the `elif` loop: the part after an `elif` token at `p`,
      or the end of the loop at any other token. */
  lemma ElifsStep(tokens: seq<Token>, funcs: set<string>, p: nat, vars: set<string>, acc: seq<ElifPart>)
    requires p <= |tokens| && WellFormed(tokens)
    ensures !KindIs(tokens, p, Elif) ==> Elifs(tokens, funcs, p, vars, acc) == Ok(Parsed(acc, p, vars))
    ensures KindIs(tokens, p, Elif) ==> var part := GuardedBody(tokens, funcs, p + 1, vars);
      part.Err? ==> Elifs(tokens, funcs, p, vars, acc) == Err(part.error)
    ensures KindIs(tokens, p, Elif) ==> var part := GuardedBody(tokens, funcs, p + 1, vars);
      part.Ok? ==>
        Elifs(tokens, funcs, p, vars, acc)
        == Elifs(tokens, funcs, part.value.pos, part.value.vars, acc + [ElifPart(part.value.node.0, part.value.node.1)])
  {
  }

  /** The optional `else` part of `parse_if_statement`. */
  function ElsePart(tokens: seq<Token>, funcs: set<string>, p: nat, vars: set<string>): (r: Result<Parsed<ElseClause>>)
    requires p <= |tokens| && WellFormed(tokens)
    ensures r.Ok? ==> p <= r.value.pos <= |tokens|
    ensures r.Ok? && r.value.node.NoElse? ==> r.value.pos == p && r.value.vars == vars
    decreases |tokens| - p, 0
  {
    if KindIs(tokens, p, Else) then
      var open :- ExpectAt(tokens, p + 1, LBrace);
      var body :- Body(tokens, funcs, open.1, vars);
      Ok(Parsed(ElseBlock(body.node), body.pos, body.vars))
    else
      Ok(Parsed(NoElse, p, vars))
  }

  /** A block after its `{`: statements up to the matching `}`, which it consumes. */
  function Body(tokens: seq<Token>, funcs: set<string>, p: nat, vars: set<string>): (r: Result<Parsed<seq<Stmt>>>)
    requires p <= |tokens| && WellFormed(tokens)
    ensures r.Ok? ==> p < r.value.pos <= |tokens|
    decreases |tokens| - p, 4
  {
    var block :- Block(tokens, funcs, p, vars, []);
    var close :- ExpectAt(tokens, block.pos, RBrace);
    Ok(Parsed(block.node, close.1, block.vars))
  }

  /** The statement loop of a block: statements while the current token is not `}`. */
  function Block(tokens: seq<Token>, funcs: set<string>, p: nat, vars: set<string>, acc: seq<Stmt>): (r: Result<Parsed<seq<Stmt>>>)
    requires p <= |tokens| && WellFormed(tokens)
    ensures r.Ok? ==> p <= r.value.pos <= |tokens|
    decreases |tokens| - p, 3
  {
    if p < |tokens| && !tokens[p].kind.RBrace? then
      var s :- Statement(tokens, funcs, p, vars);
      Block(tokens, funcs, s.pos, s.vars, acc + [s.node])
    else
      Ok(Parsed(acc, p, vars))
  }

  /** `parse_assignment`: `name = expr ;` for a defined variable. */
  function AssignStmt(tokens: seq<Token>, p: nat, vars: set<string>): (r: Result<(Stmt, nat)>)
    requires p < |tokens| && WellFormed(tokens) && tokens[p].kind.Identifier?
    ensures r.Ok? ==> p < r.value.1 <= |tokens| && r.value.0.Assignment? && r.value.0.name in vars
  {
    var t := tokens[p];
    var name := t.value.text;
    if name !in vars then Err(SyntaxError(VariableNotDefined(name), t.line, t.column))
    else
      var eq :- ExpectAt(tokens, p + 1, Equals);
      var value :- ValueEnd(tokens, p + 2, "assignment", t.line, t.column);
      Ok((Assignment(name, value.0), value.1))
  }

  /** `parse_increment` (`increment`) and `parse_decrement`: `name++ ;` / `name-- ;`
      for a defined variable. */
  function StepStmt(tokens: seq<Token>, p: nat, vars: set<string>, increment: bool): (r: Result<(Stmt, nat)>)
    requires p < |tokens| && WellFormed(tokens) && tokens[p].kind.Identifier?
    ensures r.Ok? ==> p < r.value.1 <= |tokens|
    ensures r.Ok? ==> if increment then r.value.0.IncrementStatement? else r.value.0.DecrementStatement?
    ensures r.Ok? ==> r.value.0.name in vars
  {
    var t := tokens[p];
    var name := t.value.text;
    if name !in vars then Err(SyntaxError(VariableNotDefined(name), t.line, t.column))
    else
      var op :- ExpectAt(tokens, p + 1, if increment then PlusPlus else MinusMinus);
      var end :- Terminator(tokens, p + 2, if increment then "increment" else "decrement", t.line, t.column);
      Ok((if increment then IncrementStatement(name) else DecrementStatement(name), end))
  }

  /** `parse_while_statement`: `while ( cond ) { body }`. */
  function WhileStmt(tokens: seq<Token>, funcs: set<string>, p: nat, vars: set<string>): (r: Result<Parsed<Stmt>>)
    requires p < |tokens| && WellFormed(tokens) && tokens[p].kind.While?
    ensures r.Ok? ==> p < r.value.pos <= |tokens|
    decreases |tokens| - p, 1
  {
    var head :- WhileHead(tokens, p);
    var body :- Body(tokens, funcs, head.1, vars);
    Ok(Parsed(WhileStatement(head.0, body.node), body.pos, body.vars))
  }

  /** `while ( cond ) {`: the condition and the position after the `{`. */
  function WhileHead(tokens: seq<Token>, p: nat): (r: Result<(Expr, nat)>)
    requires p < |tokens| && WellFormed(tokens)
    ensures r.Ok? ==> p < r.value.1 <= |tokens|
  {
    var open :- ExpectAt(tokens, p + 1, LParen);
    WhileCondition(tokens, open.1)
  }

  /** `cond ) {` after the `(` of a `while`. */
  function WhileCondition(tokens: seq<Token>, q: nat): (r: Result<(Expr, nat)>)
    requires q <= |tokens| && WellFormed(tokens)
    ensures r.Ok? ==> q + 2 < r.value.1 <= |tokens|
    ensures r.Ok? ==> tokens[r.value.1 - 2].kind.RParen? && tokens[r.value.1 - 1].kind.LBrace?
  {
    var cond :- Comparison(tokens, q);
    var close :- ExpectAt(tokens, cond.1, RParen);
    var brace :- ExpectAt(tokens, close.1, LBrace);
    Ok((cond.0, brace.1))
  }

  class StatementParser {
    const parser: Parser
    const exprParser: ExpressionParser

    ghost predicate Valid()
      reads parser`pos
    {
      exprParser.parser == parser && parser.Valid()
    }

    constructor (parser: Parser, exprParser: ExpressionParser)
      requires exprParser.parser == parser
      ensures this.parser == parser && this.exprParser == exprParser
    {
      this.parser := parser;
      this.exprParser := exprParser;
    }

    method ParseStatement() returns (r: Result<Stmt>)
      requires Valid()
      modifies parser`pos, parser`definedVariables
      ensures Valid()
      ensures AgreesState(r, parser.pos, parser.definedVariables,
        Statement(parser.tokens, parser.definedFunctions, old(parser.pos), old(parser.definedVariables)))
      decreases |parser.tokens| - parser.pos, 2
    {
      if parser.pos == |parser.tokens| {
        return Err(NoneToken);
      }
      var token := parser.tokens[parser.pos];
      if token.kind.Print? {
        r := ParsePrintStatement();
      } else if token.kind.Return? {
        r := ParseReturnStatement();
      } else if token.kind.Var? {
        r := ParseVarDeclaration();
      } else if token.kind.Call? {
        r := ParseCallStatement();
      } else if token.kind.If? {
        r := ParseIfStatement();
      } else if token.kind.While? {
        r := ParseWhileStatement();
      } else if token.kind.Identifier? {
        if parser.PeekToken(1).Some? && parser.PeekToken(1).value.kind.PlusPlus? {
          r := ParseIncrement();
        } else if parser.PeekToken(1).Some? && parser.PeekToken(1).value.kind.MinusMinus? {
          r := ParseDecrement();
        } else {
          r := ParseAssignment();
        }
      } else {
        r := Err(SyntaxError(UnknownStatement(ValueText(token.value)), token.line, token.column));
      }
    }

    method ParsePrintStatement() returns (r: Result<Stmt>)
      requires Valid() && parser.CurrentIs(Print)
      modifies parser`pos
      ensures Valid() && Agrees(r, parser.pos, PrintStmt(parser.tokens, old(parser.pos)))
    {
      ghost var spec := PrintStmt(parser.tokens, parser.pos);
      var printToken := parser.tokens[parser.pos];
      parser.Advance();
      var open := parser.Expect(LParen);
      if open.Err? {
        assert spec == Err(open.error);
        r := Err(open.error);
      } else {
        assert spec == PrintRest(parser.tokens, printToken, parser.pos);
        r := ParsePrintRest(printToken);
      }
    }

    /** `args ) ;` of `parse_print_statement`, after the `(`. */
    method ParsePrintRest(printToken: Token) returns (r: Result<Stmt>)
      requires Valid()
      modifies parser`pos
      ensures Valid() && Agrees(r, parser.pos, PrintRest(parser.tokens, printToken, old(parser.pos)))
    {
      ghost var at := parser.pos;
      var values :- ParsePrintArguments();
      assert PrintArgs(parser.tokens, at, []) == Ok((values, parser.pos));
      var _ :- parser.Expect(RParen);
      if !parser.CurrentIs(Semicolon) {
        return Err(SyntaxError(MissingSemicolon("print statement"), printToken.line, printToken.column + 5));
      }
      parser.Advance();
      return Ok(PrintStatement(values));
    }

    method ParseReturnStatement() returns (r: Result<Stmt>)
      requires Valid() && parser.CurrentIs(Return)
      modifies parser`pos
      ensures Valid() && Agrees(r, parser.pos, ReturnStmt(parser.tokens, old(parser.pos)))
    {
      var returnToken := parser.tokens[parser.pos];
      parser.Advance();
      var value :- ParseValueEnd("return statement", returnToken.line, returnToken.column + 6);
      return Ok(ReturnStatement(Some(value)));
    }

    /** An expression and its closing `;`, shared by `return`, `var` and assignments. */
    method ParseValueEnd(after: string, line: nat, column: nat) returns (r: Result<Expr>)
      requires Valid()
      modifies parser`pos
      ensures Valid() && Agrees(r, parser.pos, ValueEnd(parser.tokens, old(parser.pos), after, line, column))
    {
      ghost var at := parser.pos;
      var value :- exprParser.ParseExpression();
      assert Additive(parser.tokens, at) == Ok((value, parser.pos));
      if !parser.CurrentIs(Semicolon) {
        return Err(SyntaxError(MissingSemicolon(after), line, column));
      }
      parser.Advance();
      return Ok(value);
    }

    method ParseVarDeclaration() returns (r: Result<Stmt>)
      requires Valid() && parser.CurrentIs(Var)
      modifies parser`pos, parser`definedVariables
      ensures Valid()
      ensures AgreesState(r, parser.pos, parser.definedVariables,
        VarDecl(parser.tokens, old(parser.pos), old(parser.definedVariables)))
    {
      var varToken := parser.tokens[parser.pos];
      var head := ParseVarHead();
      if head.Err? {
        r := Err(head.error);
      } else {
        r := ParseVarRest(varToken.line, varToken.column, head.value.0, head.value.1);
      }
    }

    /** The name is defined, then `= value ;` of `parse_var_declaration`. */
    method ParseVarRest(line: nat, column: nat, typeName: string, name: string) returns (r: Result<Stmt>)
      requires Valid()
      modifies parser`pos, parser`definedVariables
      ensures Valid()
      ensures AgreesState(r, parser.pos, parser.definedVariables,
        VarRest(parser.tokens, old(parser.pos), line, column, typeName, name, old(parser.definedVariables)))
    {
      parser.definedVariables := parser.definedVariables + {name};
      var _ :- parser.Expect(Equals);
      var value :- ParseValueEnd("variable declaration", line, column);
      return Ok(VarDeclaration(typeName, name, Some(value)));
    }

    /** The type and name checks of `parse_var_declaration`. */
    method ParseVarHead() returns (r: Result<(string, string)>)
      requires Valid() && parser.CurrentIs(Var)
      modifies parser`pos
      ensures Valid() && r == VarHead(parser.tokens, old(parser.pos), parser.definedVariables)
      ensures r.Ok? ==> parser.pos == old(parser.pos) + 3
      ensures var spec := VarDecl(parser.tokens, old(parser.pos), parser.definedVariables);
        && (r.Err? ==> spec == Err(r.error))
        && (r.Ok? ==> spec == VarRest(parser.tokens, parser.pos, parser.tokens[old(parser.pos)].line,
                                      parser.tokens[old(parser.pos)].column, r.value.0, r.value.1, parser.definedVariables))
    {
      VarDeclSplit(parser.tokens, parser.pos, parser.definedVariables);
      parser.Advance();
      if parser.pos == |parser.tokens| {
        return Err(NoneToken);
      }
      var typeToken := parser.tokens[parser.pos];
      if !IsVariableType(typeToken.kind) {
        return Err(SyntaxError(ExpectedVariableType(ValueText(typeToken.value)), typeToken.line, typeToken.column));
      }
      parser.Advance();
      var nameToken :- parser.Expect(Kind.Identifier);
      var name := nameToken.value.text;
      if name in parser.definedVariables {
        return Err(SyntaxError(VariableAlreadyDefined(name), nameToken.line, nameToken.column));
      }
      return Ok((typeToken.value.text, name));
    }

    method ParseCallStatement() returns (r: Result<Stmt>)
      requires Valid() && parser.CurrentIs(Call)
      modifies parser`pos
      ensures Valid() && Agrees(r, parser.pos, CallStmt(parser.tokens, parser.definedFunctions, old(parser.pos)))
    {
      ghost var tokens, funcs, p := parser.tokens, parser.definedFunctions, parser.pos;
      ghost var spec := CallStmt(tokens, funcs, p);
      var callToken := parser.tokens[parser.pos];
      CallStmtStep(tokens, funcs, p);
      ghost var head := Callee(tokens, funcs, p + 1);
      parser.Advance();
      var callee := ParseCallee();
      AgreesCases(callee, parser.pos, head);
      if callee.Err? {
        assert spec == Err(callee.error);
        r := Err(callee.error);
      } else {
        assert spec == CallRest(tokens, callToken, callee.value, parser.pos);
        r := ParseCallRest(callToken, callee.value);
      }
    }

    /** `name (` of `parse_call_statement`, with its checks. */
    method ParseCallee() returns (r: Result<string>)
      requires Valid()
      modifies parser`pos
      ensures Valid() && Agrees(r, parser.pos, Callee(parser.tokens, parser.definedFunctions, old(parser.pos)))
    {
      var nameToken :- parser.Expect(Kind.Identifier);
      var name := nameToken.value.text;
      if name !in parser.definedFunctions && name !in parser.builtinFunctions {
        return Err(SyntaxError(UnknownFunction(name), nameToken.line, nameToken.column));
      }
      if !parser.CurrentIs(LParen) {
        return Err(SyntaxError(CallWithoutParentheses, nameToken.line, nameToken.column + |name|));
      }
      parser.Advance();
      return Ok(name);
    }

    /** `args ) ;` of `parse_call_statement`, after the `(`. */
    method ParseCallRest(callToken: Token, name: string) returns (r: Result<Stmt>)
      requires Valid()
      modifies parser`pos
      ensures Valid() && Agrees(r, parser.pos, CallRest(parser.tokens, callToken, name, old(parser.pos)))
    {
      ghost var at := parser.pos;
      var arguments :- ParseCallArguments();
      assert CallArgs(parser.tokens, at, []) == Ok((arguments, parser.pos));
      var _ :- parser.Expect(RParen);
      if !parser.CurrentIs(Semicolon) {
        return Err(SyntaxError(MissingSemicolon("function call"), callToken.line, callToken.column));
      }
      parser.Advance();
      return Ok(CallStatement(name, arguments));
    }

    /** The statements of a block up to its `}`, and the `}` itself. */
    method ParseBody() returns (r: Result<seq<Stmt>>)
      requires Valid()
      modifies parser`pos, parser`definedVariables
      ensures Valid()
      ensures AgreesState(r, parser.pos, parser.definedVariables,
        Body(parser.tokens, parser.definedFunctions, old(parser.pos), old(parser.definedVariables)))
      decreases |parser.tokens| - parser.pos, 4
    {
      var body: seq<Stmt> := [];
      while parser.pos < |parser.tokens| && !parser.tokens[parser.pos].kind.RBrace?
        invariant Valid() && old(parser.pos) <= parser.pos
        invariant Block(parser.tokens, parser.definedFunctions, parser.pos, parser.definedVariables, body)
          == Block(parser.tokens, parser.definedFunctions, old(parser.pos), old(parser.definedVariables), [])
        decreases |parser.tokens| - parser.pos
      {
        var statement :- ParseStatement();
        body := body + [statement];
      }
      var _ :- parser.Expect(RBrace);
      return Ok(body);
    }

    method ParseIfStatement() returns (r: Result<Stmt>)
      requires Valid() && parser.CurrentIs(If)
      modifies parser`pos, parser`definedVariables
      ensures Valid()
      ensures AgreesState(r, parser.pos, parser.definedVariables,
        IfStmt(parser.tokens, parser.definedFunctions, old(parser.pos), old(parser.definedVariables)))
      decreases |parser.tokens| - parser.pos, 1
    {
      ghost var funcs := parser.definedFunctions;
      ghost var spec := IfStmt(parser.tokens, funcs, parser.pos, parser.definedVariables);
      parser.Advance();
      ghost var headSpec := GuardedBody(parser.tokens, funcs, parser.pos, parser.definedVariables);
      var head := ParseGuardedBody();
      AgreesStateCases(head, parser.pos, parser.definedVariables, headSpec);
      if head.Err? {
        assert spec == Err(head.error);
        return Err(head.error);
      }
      assert spec == IfRest(parser.tokens, funcs, parser.pos, parser.definedVariables, head.value.0, head.value.1);
      r := ParseIfRest(head.value.0, head.value.1);
    }

    /** The `elif` loop and the `else` part of `parse_if_statement`. */
    method ParseIfRest(condition: Expr, body: seq<Stmt>) returns (r: Result<Stmt>)
      requires Valid()
      modifies parser`pos, parser`definedVariables
      ensures Valid()
      ensures AgreesState(r, parser.pos, parser.definedVariables,
        IfRest(parser.tokens, parser.definedFunctions, old(parser.pos), old(parser.definedVariables), condition, body))
      decreases |parser.tokens| - parser.pos, 2
    {
      ghost var funcs := parser.definedFunctions;
      ghost var spec := IfRest(parser.tokens, funcs, parser.pos, parser.definedVariables, condition, body);
      ghost var elifSpec := Elifs(parser.tokens, funcs, parser.pos, parser.definedVariables, []);
      var elifParts := ParseElifParts();
      AgreesStateCases(elifParts, parser.pos, parser.definedVariables, elifSpec);
      if elifParts.Err? {
        return Err(elifParts.error);
      }
      ghost var elseSpec := ElsePart(parser.tokens, funcs, parser.pos, parser.definedVariables);
      var elseBody := ParseElsePart();
      AgreesStateCases(elseBody, parser.pos, parser.definedVariables, elseSpec);
      if elseBody.Err? {
        return Err(elseBody.error);
      }
      return Ok(IfStatement(condition, body, elifParts.value, elseBody.value));
    }

    method ParseGuardedBody() returns (r: Result<(Expr, seq<Stmt>)>)
      requires Valid()
      modifies parser`pos, parser`definedVariables
      ensures Valid()
      ensures AgreesState(r, parser.pos, parser.definedVariables,
        GuardedBody(parser.tokens, parser.definedFunctions, old(parser.pos), old(parser.definedVariables)))
      decreases |parser.tokens| - parser.pos, 0
    {
      var condition :- exprParser.ParseComparison();
      var _ :- parser.Expect(LBrace);
      var body :- ParseBody();
      return Ok((condition, body));
    }

    /** The argument loop of `parse_print_statement`. */
    method ParsePrintArguments() returns (r: Result<seq<Expr>>)
      requires Valid()
      modifies parser`pos
      ensures Valid() && Agrees(r, parser.pos, PrintArgs(parser.tokens, old(parser.pos), []))
    {
      var values: seq<Expr> := [];
      while parser.pos < |parser.tokens| && !parser.tokens[parser.pos].kind.RParen?
        invariant Valid()
        invariant PrintArgs(parser.tokens, parser.pos, values) == PrintArgs(parser.tokens, old(parser.pos), [])
        decreases |parser.tokens| - parser.pos
      {
        var value :- exprParser.ParseExpression();
        values := values + [value];
        if parser.pos < |parser.tokens| && !parser.tokens[parser.pos].kind.RParen?
          && !ContinuesPrint(parser.tokens[parser.pos].kind) {
          break;
        }
      }
      return Ok(values);
    }

    /** The argument loop of `parse_call_statement`. */
    method ParseCallArguments() returns (r: Result<seq<Expr>>)
      requires Valid()
      modifies parser`pos
      ensures Valid() && Agrees(r, parser.pos, CallArgs(parser.tokens, old(parser.pos), []))
    {
      var arguments: seq<Expr> := [];
      while parser.pos < |parser.tokens| && !parser.tokens[parser.pos].kind.RParen?
        invariant Valid()
        invariant CallArgs(parser.tokens, parser.pos, arguments) == CallArgs(parser.tokens, old(parser.pos), [])
        decreases |parser.tokens| - parser.pos
      {
        var argument :- exprParser.ParseExpression();
        arguments := arguments + [argument];
        if parser.CurrentIs(Comma) {
          parser.Advance();
        }
      }
      return Ok(arguments);
    }

    /** The `elif` loop of `parse_if_statement`. */
    method ParseElifParts() returns (r: Result<seq<ElifPart>>)
      requires Valid()
      modifies parser`pos, parser`definedVariables
      ensures Valid()
      ensures AgreesState(r, parser.pos, parser.definedVariables,
        Elifs(parser.tokens, parser.definedFunctions, old(parser.pos), old(parser.definedVariables), []))
      decreases |parser.tokens| - parser.pos, 1
    {
      var elifParts: seq<ElifPart> := [];
      while parser.CurrentIs(Elif)
        invariant Valid() && old(parser.pos) <= parser.pos
        invariant Elifs(parser.tokens, parser.definedFunctions, parser.pos, parser.definedVariables, elifParts)
          == Elifs(parser.tokens, parser.definedFunctions, old(parser.pos), old(parser.definedVariables), [])
        decreases |parser.tokens| - parser.pos
      {
        var part :- ParseElifPart(elifParts);
        elifParts := elifParts + [part];
      }
      return Ok(elifParts);
    }

    /** One round of the `elif` loop of `parse_if_statement`, after the parts `acc`. */
    method ParseElifPart(ghost acc: seq<ElifPart>) returns (r: Result<ElifPart>)
      requires Valid() && parser.CurrentIs(Elif)
      modifies parser`pos, parser`definedVariables
      ensures Valid() && (r.Ok? ==> old(parser.pos) < parser.pos)
      ensures r.Err? ==> Elifs(parser.tokens, parser.definedFunctions, old(parser.pos), old(parser.definedVariables), acc) == Err(r.error)
      ensures r.Ok? ==>
        Elifs(parser.tokens, parser.definedFunctions, old(parser.pos), old(parser.definedVariables), acc)
        == Elifs(parser.tokens, parser.definedFunctions, parser.pos, parser.definedVariables, acc + [r.value])
      decreases |parser.tokens| - parser.pos, 0
    {
      ElifsStep(parser.tokens, parser.definedFunctions, parser.pos, parser.definedVariables, acc);
      parser.Advance();
      ghost var spec := GuardedBody(parser.tokens, parser.definedFunctions, parser.pos, parser.definedVariables);
      var part := ParseGuardedBody();
      AgreesStateCases(part, parser.pos, parser.definedVariables, spec);
      if part.Err? {
        return Err(part.error);
      }
      return Ok(ElifPart(part.value.0, part.value.1));
    }

    /** The optional `else` part of `parse_if_statement`. */
    method ParseElsePart() returns (r: Result<ElseClause>)
      requires Valid()
      modifies parser`pos, parser`definedVariables
      ensures Valid()
      ensures AgreesState(r, parser.pos, parser.definedVariables,
        ElsePart(parser.tokens, parser.definedFunctions, old(parser.pos), old(parser.definedVariables)))
      decreases |parser.tokens| - parser.pos, 0
    {
      ghost var spec := ElsePart(parser.tokens, parser.definedFunctions, parser.pos, parser.definedVariables);
      if !parser.CurrentIs(Else) {
        return Ok(NoElse);
      }
      parser.Advance();
      var _ :- parser.Expect(LBrace);
      ghost var bodySpec := Body(parser.tokens, parser.definedFunctions, parser.pos, parser.definedVariables);
      var body := ParseBody();
      AgreesStateCases(body, parser.pos, parser.definedVariables, bodySpec);
      if body.Err? {
        assert spec == Err(body.error);
        return Err(body.error);
      }
      assert spec == Ok(Parsed(ElseBlock(body.value), parser.pos, parser.definedVariables));
      return Ok(ElseBlock(body.value));
    }

    method ParseAssignment() returns (r: Result<Stmt>)
      requires Valid() && parser.CurrentIs(Kind.Identifier)
      modifies parser`pos
      ensures Valid()
      ensures Agrees(r, parser.pos, AssignStmt(parser.tokens, old(parser.pos), parser.definedVariables))
    {
      ghost var spec := AssignStmt(parser.tokens, parser.pos, parser.definedVariables);
      var nameToken := parser.tokens[parser.pos];
      var name := nameToken.value.text;
      if name !in parser.definedVariables {
        r := Err(SyntaxError(VariableNotDefined(name), nameToken.line, nameToken.column));
        assert spec == Err(r.error);
      } else {
        parser.Advance();
        var eq := parser.Expect(Equals);
        if eq.Err? {
          assert spec == Err(eq.error);
          r := Err(eq.error);
        } else {
          var value := ParseValueEnd("assignment", nameToken.line, nameToken.column);
          if value.Err? {
            assert spec == Err(value.error);
            r := Err(value.error);
          } else {
            r := Ok(Assignment(name, value.value));
            assert spec == Ok((r.value, parser.pos));
          }
        }
      }
    }

    method ParseWhileStatement() returns (r: Result<Stmt>)
      requires Valid() && parser.CurrentIs(While)
      modifies parser`pos, parser`definedVariables
      ensures Valid()
      ensures AgreesState(r, parser.pos, parser.definedVariables,
        WhileStmt(parser.tokens, parser.definedFunctions, old(parser.pos), old(parser.definedVariables)))
      decreases |parser.tokens| - parser.pos, 1
    {
      var condition :- ParseWhileHead();
      var body :- ParseBody();
      return Ok(WhileStatement(condition, body));
    }

    /** `while ( cond ) {` of `parse_while_statement`. */
    method ParseWhileHead() returns (r: Result<Expr>)
      requires Valid() && parser.CurrentIs(While)
      modifies parser`pos
      ensures Valid() && Agrees(r, parser.pos, WhileHead(parser.tokens, old(parser.pos)))
    {
      parser.Advance();
      var _ :- parser.Expect(LParen);
      r := ParseWhileCondition();
    }

    /** The condition of a `while` and the `) {` after it. */
    method ParseWhileCondition() returns (r: Result<Expr>)
      requires Valid()
      modifies parser`pos
      ensures Valid() && Agrees(r, parser.pos, WhileCondition(parser.tokens, old(parser.pos)))
    {
      ghost var at := parser.pos;
      var comparison := exprParser.ParseComparison();
      AgreesCases(comparison, parser.pos, Comparison(parser.tokens, at));
      if comparison.Err? {
        return Err(comparison.error);
      }
      var _ :- parser.Expect(RParen);
      var _ :- parser.Expect(LBrace);
      return Ok(comparison.value);
    }

    method ParseIncrement() returns (r: Result<Stmt>)
      requires Valid() && parser.CurrentIs(Kind.Identifier)
      modifies parser`pos
      ensures Valid()
      ensures Agrees(r, parser.pos, StepStmt(parser.tokens, old(parser.pos), parser.definedVariables, true))
    {
      ghost var spec := StepStmt(parser.tokens, parser.pos, parser.definedVariables, true);
      var nameToken := parser.tokens[parser.pos];
      var name := nameToken.value.text;
      if name !in parser.definedVariables {
        return Err(SyntaxError(VariableNotDefined(name), nameToken.line, nameToken.column));
      }
      parser.Advance();
      var _ :- parser.Expect(PlusPlus);
      if !parser.CurrentIs(Semicolon) {
        assert spec == Err(SyntaxError(MissingSemicolon("increment"), nameToken.line, nameToken.column));
        return Err(SyntaxError(MissingSemicolon("increment"), nameToken.line, nameToken.column));
      }
      parser.Advance();
      assert spec == Ok((IncrementStatement(name), parser.pos));
      return Ok(IncrementStatement(name));
    }

    method ParseDecrement() returns (r: Result<Stmt>)
      requires Valid() && parser.CurrentIs(Kind.Identifier)
      modifies parser`pos
      ensures Valid()
      ensures Agrees(r, parser.pos, StepStmt(parser.tokens, old(parser.pos), parser.definedVariables, false))
    {
      ghost var spec := StepStmt(parser.tokens, parser.pos, parser.definedVariables, false);
      var nameToken := parser.tokens[parser.pos];
      var name := nameToken.value.text;
      if name !in parser.definedVariables {
        return Err(SyntaxError(VariableNotDefined(name), nameToken.line, nameToken.column));
      }
      parser.Advance();
      var _ :- parser.Expect(MinusMinus);
      if !parser.CurrentIs(Semicolon) {
        assert spec == Err(SyntaxError(MissingSemicolon("decrement"), nameToken.line, nameToken.column));
        return Err(SyntaxError(MissingSemicolon("decrement"), nameToken.line, nameToken.column));
      }
      parser.Advance();
      assert spec == Ok((DecrementStatement(name), parser.pos));
      return Ok(DecrementStatement(name));
    }
  }
}
