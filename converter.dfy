/** The conversion of a C program to a Kato program
    (`kato/c2kato/converter/converter.py`).

    `CProgram` holds only function definitions, so the checks that the
    input is a program and that a declaration is a definition are carried
    by the types. */
module Converter {
  import opened Base
  import opened CAst
  import opened CTokens
  import opened CCursor
  import opened KatoAst
  import opened StatementConverter
  import opened CTopParser

  /** `[param[1] for param in c_func.params]`. */
  function ParamNames(params: seq<CParam>): (r: seq<string>)
    ensures |r| == |params|
    ensures forall k :: 0 <= k < |params| ==> r[k] == params[k].name
  {
    if params == [] then [] else [params[0].name] + ParamNames(params[1..])
  }

  /** The body loop of `convert_function`: each statement converted, the
      `None` results dropped. */
  function FunctionBody(body: seq<CStmt>, show: CExpr -> string): (r: seq<Stmt>)
    ensures |r| <= |body|
    ensures forall k :: 0 <= k < |r| ==> !r[k].NoStatement?
  {
    if body == [] then []
    else
      var converted := ConvertStatement(body[|body| - 1], show);
      FunctionBody(body[..|body| - 1], show) + (if converted.NoStatement? then [] else [converted])
  }

  /** `convert_function`. */
  function ConvertFunction(f: CFunctionDef, show: CExpr -> string): (r: Function)
    ensures r.name == f.name
    ensures r.params == ParamNames(f.params)
    ensures r.body == FunctionBody(f.body, show)
  {
    Function(f.name, ParamNames(f.params), FunctionBody(f.body, show))
  }

  /** `Converter.convert`: every definition, in order. */
  function Convert(p: CProgram, show: CExpr -> string): (r: Program)
    ensures |r.functions| == |p.declarations|
    ensures forall k :: 0 <= k < |r.functions| ==>
      r.functions[k].name == p.declarations[k].name &&
      r.functions[k].params == ParamNames(p.declarations[k].params) &&
      r.functions[k].body == FunctionBody(p.declarations[k].body, show)
  {
    Program(seq(|p.declarations|, k requires 0 <= k < |p.declarations| => ConvertFunction(p.declarations[k], show)))
  }

  /** A statement is kept exactly when it converts to a statement, and the
      kept statements keep their order: the body of a function built from
      two parts is the two parts' bodies. */
  lemma {:induction false} FunctionBodyAppend(a: seq<CStmt>, b: seq<CStmt>, show: CExpr -> string)
    ensures FunctionBody(a + b, show) == FunctionBody(a, show) + FunctionBody(b, show)
    decreases |b|
  {
    if b == [] {
      assert a + b == a;
    } else {
      var b' := b[..|b| - 1];
      assert (a + b)[..|a + b| - 1] == a + b';
      assert (a + b)[|a + b| - 1] == b[|b| - 1];
      FunctionBodyAppend(a, b', show);
    }
  }

  /** A converted statement is in a function body exactly when some
      statement of the C body converts to it and it is not `None`. */
  lemma {:induction false} FunctionBodyMembers(body: seq<CStmt>, show: CExpr -> string, x: Stmt)
    ensures x in FunctionBody(body, show) <==>
      !x.NoStatement? && exists k :: 0 <= k < |body| && ConvertStatement(body[k], show) == x
  {
    if body != [] {
      var prefix := body[..|body| - 1];
      FunctionBodyMembers(prefix, show, x);
      if exists k :: 0 <= k < |body| && ConvertStatement(body[k], show) == x {
        var k :| 0 <= k < |body| && ConvertStatement(body[k], show) == x;
        if k < |body| - 1 {
          assert prefix[k] == body[k];
        }
      }
      if exists k :: 0 <= k < |prefix| && ConvertStatement(prefix[k], show) == x {
        var k :| 0 <= k < |prefix| && ConvertStatement(prefix[k], show) == x;
        assert body[k] == prefix[k];
      }
    }
  }

  predicate DistinctKatoFunctions(functions: seq<Function>) {
    forall i, j :: 0 <= i < j < |functions| ==> functions[i].name != functions[j].name
  }

  /** Conversion keeps the function names, so distinct C definitions give
      distinct Kato functions. */
  lemma ConvertDistinct(p: CProgram, show: CExpr -> string)
    requires DistinctFunctions(p.declarations)
    ensures DistinctKatoFunctions(Convert(p, show).functions)
  {
  }

  /** A program the C parser accepts converts to Kato functions with
      distinct names. */
  lemma ParsedProgramDistinct(tokens: seq<CToken>, st: ParseState, show: CExpr -> string)
    requires st.pos <= |tokens| && WellFormed(tokens)
    requires ParseProgram(tokens, st).Ok?
    ensures DistinctKatoFunctions(Convert(ParseProgram(tokens, st).value.0, show).functions)
  {
    ProgramDistinct(tokens, st, []);
    ConvertDistinct(ParseProgram(tokens, st).value.0, show);
  }
}
