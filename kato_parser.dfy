/** The top level of the Kato parser (`parse` and `parse_function` of
    `Parser` in `kato/parser/parser.py`): a program is a sequence of
    functions, each `function name ( params ) { statements }`, and one of
    them must be `main`.

    Defining a function adds its name to the parser's defined functions
    before its body is parsed, so a function may call itself and any
    function defined above it, never one defined below.  The variables of a
    function start as the set of its parameters. */
module KatoParser {
  import opened Base
  import opened TokenValues
  import opened KatoTokens
  import opened KatoAst
  import opened KatoCursor
  import opened KatoExprParser
  import opened KatoStmtParser
  import opened KatoScope

  /** The part of `parse_function` before the body: the name and the parameters. */
  datatype Header = Header(name: string, params: seq<string>)

  /** The parameter loop: identifiers up to `)`, each optionally followed by `,`. */
  function Params(tokens: seq<Token>, p: nat, acc: seq<string>): (r: Result<(seq<string>, nat)>)
    requires p <= |tokens| && WellFormed(tokens)
    ensures r.Ok? ==> p <= r.value.1 <= |tokens|
    decreases |tokens| - p
  {
    if p < |tokens| && !tokens[p].kind.RParen? then
      var param :- ExpectAt(tokens, p, Kind.Identifier);
      var q := if KindIs(tokens, p + 1, Comma) then p + 2 else p + 1;
      Params(tokens, q, acc + [param.0.value.text])
    else
      Ok((acc, p))
  }

  /** `function name ( params )`: the name must be new and not a builtin,
      and `main` takes no parameters. */
  function FunctionHead(tokens: seq<Token>, funcs: set<string>, p: nat): (r: Result<(Header, nat)>)
    requires p <= |tokens| && WellFormed(tokens)
    ensures r.Ok? ==> p < r.value.1 <= |tokens|
  {
    var nameToken :- FunctionName(tokens, funcs, p);
    FunctionParams(tokens, nameToken.1, nameToken.0.value.text, nameToken.0)
  }

  /** `function name`: the name token, whose name must be new and not a builtin. */
  function FunctionName(tokens: seq<Token>, funcs: set<string>, p: nat): (r: Result<(Token, nat)>)
    requires p <= |tokens| && WellFormed(tokens)
    ensures r.Ok? ==> r.value.1 == p + 2 <= |tokens| && r.value.0 == tokens[p + 1]
    ensures r.Ok? ==> r.value.0.kind == Kind.Identifier && r.value.0.value.text !in funcs + Builtins
  {
    var keyword :- ExpectAt(tokens, p, Kind.Function);
    var nameToken :- ExpectAt(tokens, p + 1, Kind.Identifier);
    var name := nameToken.0.value.text;
    if name in funcs || name in Builtins then
      Err(SyntaxError(FunctionAlreadyDefined(name), nameToken.0.line, nameToken.0.column))
    else
      Ok(nameToken)
  }

  /** `( params )` after the name `name` (read from `nameToken`); `main`
      takes no parameters. */
  function FunctionParams(tokens: seq<Token>, p: nat, name: string, nameToken: Token): (r: Result<(Header, nat)>)
    requires p <= |tokens| && WellFormed(tokens)
    ensures r.Ok? ==> p < r.value.1 <= |tokens| && r.value.0.name == name
    ensures r.Ok? && name == "main" ==> r.value.0.params == []
  {
    var open :- ExpectAt(tokens, p, LParen);
    ParamList(tokens, open.1, name, nameToken)
  }

  /** `params )` after the `(`, and the check that `main` has none. */
  function ParamList(tokens: seq<Token>, p: nat, name: string, nameToken: Token): (r: Result<(Header, nat)>)
    requires p <= |tokens| && WellFormed(tokens)
    ensures r.Ok? ==> p < r.value.1 <= |tokens| && r.value.0.name == name
    ensures r.Ok? && name == "main" ==> r.value.0.params == []
  {
    var params :- Params(tokens, p, []);
    var close :- ExpectAt(tokens, params.1, RParen);
    if name == "main" && |params.0| > 0 then
      Err(SyntaxError(MainWithArguments, nameToken.line, nameToken.column))
    else
      Ok((Header(name, params.0), close.1))
  }

  /** The statement loop of a function body after its `{` (the token `brace`),
      and the closing `}`.  Reaching `EOF` or the end of the tokens reports the
      function as not closed at its `{`. */
  function FunctionBody(tokens: seq<Token>, funcs: set<string>, p: nat, vars: set<string>,
                        acc: seq<Stmt>, name: string, brace: Token): (r: Result<Parsed<seq<Stmt>>>)
    requires p <= |tokens| && WellFormed(tokens)
    ensures r.Ok? ==> p < r.value.pos <= |tokens|
    decreases |tokens| - p
  {
    if p < |tokens| && !tokens[p].kind.RBrace? then
      if tokens[p].kind.Eof? then
        Err(SyntaxError(FunctionNotClosed(name), brace.line, brace.column))
      else
        var s :- Statement(tokens, funcs, p, vars);
        FunctionBody(tokens, funcs, s.pos, s.vars, acc + [s.node], name, brace)
    else if p == |tokens| then
      Err(SyntaxError(FunctionNotClosed(name), brace.line, brace.column))
    else
      Ok(Parsed(acc, p + 1, vars))
  }

  /** `parse_function`: the header, then the body parsed with the function
      itself defined and its parameters as the variables; the variables
      defined at the end are part of the result. */
  function FunctionDef(tokens: seq<Token>, funcs: set<string>, p: nat): (r: Result<Parsed<Function>>)
    requires p <= |tokens| && WellFormed(tokens)
    ensures r.Ok? ==> p < r.value.pos <= |tokens|
  {
    var head :- FunctionHead(tokens, funcs, p);
    FunctionRest(tokens, funcs, head.1, head.0)
  }

  /** The rest of `parse_function` after the header: the name is defined,
      the variables become the parameters, and the braced body follows. */
  function FunctionRest(tokens: seq<Token>, funcs: set<string>, p: nat, header: Header): (r: Result<Parsed<Function>>)
    requires p <= |tokens| && WellFormed(tokens)
    ensures r.Ok? ==> p < r.value.pos <= |tokens|
  {
    var brace :- ExpectAt(tokens, p, LBrace);
    var body :- FunctionBody(tokens, funcs + {header.name}, brace.1, Names(header.params), [], header.name, brace.0);
    Ok(Parsed(Function.Function(header.name, header.params, body.node), body.pos, body.vars))
  }

  /** The function loop of `parse`: functions until `EOF` or the end of the
      tokens; any other token there is code outside a function. */
  function Functions(tokens: seq<Token>, p: nat, funcs: set<string>, acc: seq<Function>): (r: Result<seq<Function>>)
    requires p <= |tokens| && WellFormed(tokens)
    decreases |tokens| - p
  {
    if p < |tokens| && !tokens[p].kind.Eof? then
      var t := tokens[p];
      if t.kind.Function? then
        var f :- FunctionDef(tokens, funcs, p);
        Functions(tokens, f.pos, funcs + {f.node.name}, acc + [f.node])
      else
        Err(SyntaxError(OutsideFunction(ValueText(t.value)), t.line, t.column))
    else
      Ok(acc)
  }

  predicate HasMain(fs: seq<Function>) {
    exists i :: 0 <= i < |fs| && fs[i].name == "main"
  }

  /** `parse` from position `p` with the functions `funcs` already defined. */
  function ProgramFrom(tokens: seq<Token>, p: nat, funcs: set<string>): Result<Program>
    requires p <= |tokens| && WellFormed(tokens)
  {
    var fs :- Functions(tokens, p, funcs, []);
    if !HasMain(fs) then Err(SyntaxError(MissingMain, 1, 1)) else Ok(Program(fs))
  }

  /** `Parser(tokens).parse()`. */
  function Parse(tokens: seq<Token>): Result<Program>
    requires WellFormed(tokens)
  {
    ProgramFrom(tokens, 0, {})
  }

  // ---------------------------------------------------------------------
  // What a parsed program satisfies

  function NameSet(fs: seq<Function>): set<string> {
    set i | 0 <= i < |fs| :: fs[i].name
  }

  predicate DistinctNames(fs: seq<Function>) {
    forall i, j | 0 <= i < j < |fs| :: fs[i].name != fs[j].name
  }

  /** The body of `f`, parsed with the functions `funcs` known and its
      parameters defined, declares each variable once and never a parameter,
      writes only parameters and declared variables, and calls only `funcs`
      and the builtins. */
  predicate Scoped(f: Function, funcs: set<string>) {
    var e := EffectsOfAll(f.body);
    Obeys(e, funcs, Names(f.params), Names(f.params) + Names(e.declared))
  }

  /** The functions `fs`, parsed after the functions `outer` were defined:
      their names are distinct, new and not builtins, `main` takes no
      parameters, and each body only calls functions defined before it,
      itself or builtins. */
  predicate Sound(fs: seq<Function>, outer: set<string>) {
    && DistinctNames(fs)
    && (forall i | 0 <= i < |fs| :: fs[i].name !in outer + Builtins)
    && (forall i | 0 <= i < |fs| && fs[i].name == "main" :: fs[i].params == [])
    && (forall i | 0 <= i < |fs| :: Scoped(fs[i], outer + NameSet(fs[..i + 1])))
  }

  lemma NameSetAppend(fs: seq<Function>, f: Function)
    ensures NameSet(fs + [f]) == NameSet(fs) + {f.name}
  {
    var gs := fs + [f];
    forall x | x in NameSet(gs) ensures x in NameSet(fs) + {f.name} {
      var i :| 0 <= i < |gs| && gs[i].name == x;
      if i < |fs| { assert fs[i] == gs[i]; }
    }
    forall x | x in NameSet(fs) ensures x in NameSet(gs) {
      var i :| 0 <= i < |fs| && fs[i].name == x;
      assert gs[i] == fs[i];
    }
    assert gs[|fs|] == f;
  }

  /** Appending a function that keeps the rules to sound functions keeps them sound. */
  lemma SoundAppend(fs: seq<Function>, outer: set<string>, f: Function)
    requires Sound(fs, outer)
    requires f.name !in outer + NameSet(fs) + Builtins
    requires f.name == "main" ==> f.params == []
    requires Scoped(f, outer + NameSet(fs) + {f.name})
    ensures Sound(fs + [f], outer)
  {
    var gs := fs + [f];
    NameSetAppend(fs, f);
    DistinctAppend(fs, f);
    assert gs[..|fs| + 1] == gs;
    forall i | 0 <= i < |fs| ensures gs[..i + 1] == fs[..i + 1] && gs[i] == fs[i] {
    }
  }

  /** A function whose name is new keeps the names distinct. */
  lemma DistinctAppend(fs: seq<Function>, f: Function)
    requires DistinctNames(fs) && f.name !in NameSet(fs)
    ensures DistinctNames(fs + [f])
  {
    var gs := fs + [f];
    forall i, j | 0 <= i < j < |gs| ensures gs[i].name != gs[j].name {
      if j == |fs| {
        assert gs[i].name in NameSet(fs);
      }
    }
  }

  lemma {:induction false} FunctionBodyObeys(tokens: seq<Token>, funcs: set<string>, p: nat, vars: set<string>,
                                             acc: seq<Stmt>, name: string, brace: Token, v0: set<string>)
    requires p <= |tokens| && WellFormed(tokens)
    requires Obeys(EffectsOfAll(acc), funcs, v0, vars)
    ensures var r := FunctionBody(tokens, funcs, p, vars, acc, name, brace);
      r.Ok? ==> Obeys(EffectsOfAll(r.value.node), funcs, v0, r.value.vars)
    decreases |tokens| - p
  {
    var r := FunctionBody(tokens, funcs, p, vars, acc, name, brace);
    if r.Ok? && p < |tokens| && !tokens[p].kind.RBrace? {
      var s := Statement(tokens, funcs, p, vars).value;
      StatementObeys(tokens, funcs, p, vars);
      EffectsOfAppend(acc, s.node);
      ObeysThen(EffectsOfAll(acc), EffectsOf(s.node), funcs, v0, vars, s.vars);
      FunctionBodyObeys(tokens, funcs, s.pos, s.vars, acc + [s.node], name, brace, v0);
    }
  }

  /** A parsed function has a new name, `main` has no parameters, its
      body keeps the scope rules with itself already defined, and the
      variables defined at its end are its parameters and the variables its
      body declares. */
  lemma FunctionDefSound(tokens: seq<Token>, funcs: set<string>, p: nat)
    requires p <= |tokens| && WellFormed(tokens)
    ensures var r := FunctionDef(tokens, funcs, p);
      r.Ok? ==> && r.value.node.name !in funcs + Builtins
                && (r.value.node.name == "main" ==> r.value.node.params == [])
                && Scoped(r.value.node, funcs + {r.value.node.name})
                && r.value.vars == Names(r.value.node.params) + Names(EffectsOfAll(r.value.node.body).declared)
  {
    var r := FunctionDef(tokens, funcs, p);
    if r.Ok? {
      var head := FunctionHead(tokens, funcs, p).value;
      var brace := ExpectAt(tokens, head.1, LBrace).value;
      var vars := Names(head.0.params);
      ObeysNothing(funcs + {head.0.name}, vars);
      FunctionBodyObeys(tokens, funcs + {head.0.name}, brace.1, vars, [], head.0.name, brace.0, vars);
    }
  }

  lemma {:induction false} FunctionsSound(tokens: seq<Token>, p: nat, outer: set<string>, acc: seq<Function>)
    requires p <= |tokens| && WellFormed(tokens)
    requires Sound(acc, outer)
    ensures var r := Functions(tokens, p, outer + NameSet(acc), acc);
      r.Ok? ==> Sound(r.value, outer)
    decreases |tokens| - p
  {
    var funcs := outer + NameSet(acc);
    var r := Functions(tokens, p, funcs, acc);
    if r.Ok? && p < |tokens| && !tokens[p].kind.Eof? {
      var f := FunctionDef(tokens, funcs, p).value;
      FunctionDefSound(tokens, funcs, p);
      SoundAppend(acc, outer, f.node);
      NameSetAppend(acc, f.node);
      assert funcs + {f.node.name} == outer + NameSet(acc + [f.node]);
      FunctionsSound(tokens, f.pos, outer, acc + [f.node]);
    }
  }

  /** Every program the parser accepts has a `main` without parameters, no
      two functions of the same name, no function named like a builtin, and
      bodies that keep the scope rules and call only functions defined
      above or at them. */
  lemma ParseSound(tokens: seq<Token>)
    requires WellFormed(tokens)
    ensures var r := Parse(tokens);
      r.Ok? ==> HasMain(r.value.functions) && Sound(r.value.functions, {})
  {
    var fs := Functions(tokens, 0, {}, []);
    if fs.Ok? {
      assert {} + NameSet([]) == {};
      FunctionsSound(tokens, 0, {}, []);
    }
  }

  /** The parser rejects code outside a function, and a program without
      `main` at line 1, column 1. */
  lemma ParseRejects(tokens: seq<Token>)
    requires WellFormed(tokens)
    ensures |tokens| > 0 && !tokens[0].kind.Eof? && !tokens[0].kind.Function? ==>
      Parse(tokens) == Err(SyntaxError(OutsideFunction(ValueText(tokens[0].value)), tokens[0].line, tokens[0].column))
    ensures (|tokens| == 0 || tokens[0].kind.Eof?) ==> Parse(tokens) == Err(SyntaxError(MissingMain, 1, 1))
  {
  }

  // ---------------------------------------------------------------------
  // The parser object

  /** `Parser` together with the expression and statement parsers it owns. */
  class ProgramParser {
    const parser: Parser
    const exprParser: ExpressionParser
    const stmtParser: StatementParser

    ghost predicate Valid()
      reads parser`pos
    {
      && exprParser.parser == parser && stmtParser.parser == parser
      && stmtParser.exprParser == exprParser && parser.Valid()
    }

    constructor (tokens: seq<Token>)
      requires WellFormed(tokens)
      ensures Valid() && fresh(parser) && parser.tokens == tokens && parser.pos == 0
      ensures parser.definedFunctions == {} && parser.definedVariables == {}
    {
      var p := new Parser(tokens);
      var e := new ExpressionParser(p);
      var s := new StatementParser(p, e);
      parser, exprParser, stmtParser := p, e, s;
    }

    method Parse() returns (r: Result<Program>)
      requires Valid()
      modifies parser`pos, parser`definedFunctions, parser`definedVariables
      ensures Valid()
      ensures r == ProgramFrom(parser.tokens, old(parser.pos), old(parser.definedFunctions))
      ensures r.Ok? ==> parser.definedFunctions == old(parser.definedFunctions) + NameSet(r.value.functions)
      ensures r.Ok? ==> parser.pos == |parser.tokens| || parser.tokens[parser.pos].kind.Eof?
    {
      var functions: seq<Function> := [];
      while parser.pos < |parser.tokens| && !parser.tokens[parser.pos].kind.Eof?
        invariant Valid()
        invariant Functions(parser.tokens, parser.pos, parser.definedFunctions, functions)
          == Functions(parser.tokens, old(parser.pos), old(parser.definedFunctions), [])
        invariant parser.definedFunctions == old(parser.definedFunctions) + NameSet(functions)
        decreases |parser.tokens| - parser.pos
      {
        var token := parser.tokens[parser.pos];
        if !token.kind.Function? {
          return Err(SyntaxError(OutsideFunction(ValueText(token.value)), token.line, token.column));
        }
        var parsed :- ParseFunction();
        NameSetAppend(functions, parsed);
        functions := functions + [parsed];
      }
      var hasMain := exists i :: 0 <= i < |functions| && functions[i].name == "main";
      if !hasMain {
        return Err(SyntaxError(MissingMain, 1, 1));
      }
      return Ok(Program(functions));
    }

    method ParseFunction() returns (r: Result<Function>)
      requires Valid()
      modifies parser`pos, parser`definedFunctions, parser`definedVariables
      ensures Valid()
      ensures AgreesState(r, parser.pos, parser.definedVariables, FunctionDef(parser.tokens, old(parser.definedFunctions), old(parser.pos)))
      ensures r.Ok? ==> parser.definedFunctions == old(parser.definedFunctions) + {r.value.name}
    {
      var header :- ParseFunctionHead();
      r := ParseFunctionRest(header);
    }

    /** `parse_function` after the header: define the name, reset the
        variables to the parameters, then parse the braced body. */
    method ParseFunctionRest(header: Header) returns (r: Result<Function>)
      requires Valid()
      modifies parser`pos, parser`definedFunctions, parser`definedVariables
      ensures Valid()
      ensures AgreesState(r, parser.pos, parser.definedVariables,
                          FunctionRest(parser.tokens, old(parser.definedFunctions), old(parser.pos), header))
      ensures parser.definedFunctions == old(parser.definedFunctions) + {header.name}
      ensures r.Ok? ==> r.value.name == header.name
    {
      parser.definedFunctions := parser.definedFunctions + {header.name};
      DefineParameters(header.params);
      var lbrace :- parser.Expect(LBrace);
      var body :- ParseFunctionBody(header.name, lbrace);
      return Ok(Function.Function(header.name, header.params, body));
    }

    /** `function name ( params )` of `parse_function`, with its checks. */
    method ParseFunctionHead() returns (r: Result<Header>)
      requires Valid()
      modifies parser`pos
      ensures Valid() && Agrees(r, parser.pos, FunctionHead(parser.tokens, parser.definedFunctions, old(parser.pos)))
    {
      var nameToken :- ParseFunctionName();
      r := ParseFunctionParams(nameToken.value.text, nameToken);
    }

    /** `function name` of `parse_function`: the name must be new and not a builtin. */
    method ParseFunctionName() returns (r: Result<Token>)
      requires Valid()
      modifies parser`pos
      ensures Valid() && Agrees(r, parser.pos, FunctionName(parser.tokens, parser.definedFunctions, old(parser.pos)))
    {
      var _ :- parser.Expect(Kind.Function);
      var nameToken :- parser.Expect(Kind.Identifier);
      var name := nameToken.value.text;
      if name in parser.definedFunctions || name in parser.builtinFunctions {
        return Err(SyntaxError(FunctionAlreadyDefined(name), nameToken.line, nameToken.column));
      }
      return Ok(nameToken);
    }

    /** `( params )` of `parse_function`, and the check that `main` has none. */
    method ParseFunctionParams(name: string, nameToken: Token) returns (r: Result<Header>)
      requires Valid()
      modifies parser`pos
      ensures Valid() && Agrees(r, parser.pos, FunctionParams(parser.tokens, old(parser.pos), name, nameToken))
    {
      ghost var spec := FunctionParams(parser.tokens, parser.pos, name, nameToken);
      var open := parser.Expect(LParen);
      if open.Err? {
        assert spec == Err(open.error);
        r := Err(open.error);
      } else {
        assert spec == ParamList(parser.tokens, parser.pos, name, nameToken);
        r := ParseParamList(name, nameToken);
      }
    }

    /** `params )` of `parse_function`, and the check that `main` has none. */
    method ParseParamList(name: string, nameToken: Token) returns (r: Result<Header>)
      requires Valid()
      modifies parser`pos
      ensures Valid() && Agrees(r, parser.pos, ParamList(parser.tokens, old(parser.pos), name, nameToken))
    {
      ghost var at := parser.pos;
      var params :- ParseParameters();
      assert Params(parser.tokens, at, []) == Ok((params, parser.pos));
      var _ :- parser.Expect(RParen);
      if name == "main" && |params| > 0 {
        return Err(SyntaxError(MainWithArguments, nameToken.line, nameToken.column));
      }
      return Ok(Header(name, params));
    }

    /** The parameter loop of `parse_function`. */
    method ParseParameters() returns (r: Result<seq<string>>)
      requires Valid()
      modifies parser`pos
      ensures Valid() && Agrees(r, parser.pos, Params(parser.tokens, old(parser.pos), []))
    {
      var params: seq<string> := [];
      while parser.pos < |parser.tokens| && !parser.tokens[parser.pos].kind.RParen?
        invariant Valid()
        invariant Params(parser.tokens, parser.pos, params) == Params(parser.tokens, old(parser.pos), [])
        decreases |parser.tokens| - parser.pos
      {
        var paramToken :- parser.Expect(Kind.Identifier);
        params := params + [paramToken.value.text];
        if parser.CurrentIs(Comma) {
          parser.Advance();
        }
      }
      return Ok(params);
    }

    /** The variables of a new function: exactly its parameters. */
    method DefineParameters(params: seq<string>)
      requires Valid()
      modifies parser`definedVariables
      ensures Valid() && parser.definedVariables == Names(params)
    {
      parser.definedVariables := {};
      for i := 0 to |params|
        invariant Valid() && parser.definedVariables == Names(params[..i])
      {
        assert params[..i + 1] == params[..i] + [params[i]];
        NamesAppend(params[..i], [params[i]]);
        parser.definedVariables := parser.definedVariables + {params[i]};
      }
      assert params[..|params|] == params;
    }

    /** The statement loop of `parse_function` and the closing `}`. */
    method ParseFunctionBody(name: string, lbrace: Token) returns (r: Result<seq<Stmt>>)
      requires Valid()
      modifies parser`pos, parser`definedVariables
      ensures Valid()
      ensures AgreesState(r, parser.pos, parser.definedVariables,
                          FunctionBody(parser.tokens, parser.definedFunctions, old(parser.pos),
                                       old(parser.definedVariables), [], name, lbrace))
    {
      var body: seq<Stmt> := [];
      while parser.pos < |parser.tokens| && !parser.tokens[parser.pos].kind.RBrace?
        invariant Valid()
        invariant FunctionBody(parser.tokens, parser.definedFunctions, parser.pos, parser.definedVariables, body, name, lbrace)
          == FunctionBody(parser.tokens, parser.definedFunctions, old(parser.pos), old(parser.definedVariables), [], name, lbrace)
        decreases |parser.tokens| - parser.pos
      {
        if parser.tokens[parser.pos].kind.Eof? {
          return Err(SyntaxError(FunctionNotClosed(name), lbrace.line, lbrace.column));
        }
        var statement :- stmtParser.ParseStatement();
        body := body + [statement];
      }
      if parser.pos == |parser.tokens| || parser.tokens[parser.pos].kind.Eof? {
        return Err(SyntaxError(FunctionNotClosed(name), lbrace.line, lbrace.column));
      }
      // the loop stopped at the `}`, so this cannot fail
      var _ := parser.Expect(RBrace);
      return Ok(body);
    }
  }
}
