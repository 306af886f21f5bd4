/** The Kato optimizer (`kato/compiler/optimizer.py`): `main` stops at its
    first top-level `return`, and every other function is left as it is. */
module Optimizer {
  import opened KatoAst

  /** The statements of a body up to and including its first top-level
      `return`; the whole body when it has none. */
  function UpToReturn(body: seq<Stmt>): seq<Stmt> {
    if body == [] then []
    else if body[0].ReturnStatement? then [body[0]]
    else [body[0]] + UpToReturn(body[1..])
  }

  /** The cut body is a prefix of the body in which only the last statement
      may be a `return`, and which stops short only after a `return`. */
  lemma {:induction false} UpToReturnSpec(body: seq<Stmt>)
    ensures var r := UpToReturn(body);
      && r <= body
      && (forall i :: 0 <= i < |r| - 1 ==> !r[i].ReturnStatement?)
      && (|r| < |body| ==> r != [] && r[|r| - 1].ReturnStatement?)
  {
    if body != [] && !body[0].ReturnStatement? {
      var rest := UpToReturn(body[1..]);
      UpToReturnSpec(body[1..]);
      var r := [body[0]] + rest;
      assert r == UpToReturn(body);
      forall i | 0 <= i < |r| - 1 ensures !r[i].ReturnStatement? {
        if i > 0 { assert r[i] == rest[i - 1]; }
      }
      assert body == [body[0]] + body[1..];
    }
  }

  /** A body without a top-level `return` is kept whole, whatever its nested
      `if` and `while` bodies hold. */
  lemma {:induction false} NoReturnUnchanged(body: seq<Stmt>)
    requires forall i :: 0 <= i < |body| ==> !body[i].ReturnStatement?
    ensures UpToReturn(body) == body
  {
    if body != [] {
      assert !body[0].ReturnStatement?;
      NoReturnUnchanged(body[1..]);
      assert body == [body[0]] + body[1..];
    }
  }

  /** One step of the cut, from position `i`. */
  lemma UpToReturnAt(body: seq<Stmt>, i: nat)
    requires i < |body|
    ensures UpToReturn(body[i..]) ==
      if body[i].ReturnStatement? then [body[i]] else [body[i]] + UpToReturn(body[i + 1..])
  {
    assert body[i..][1..] == body[i + 1..];
  }

  /** A body is kept up to its first top-level `return`, which is kept. */
  lemma {:induction false} CutAtFirstReturn(body: seq<Stmt>, k: nat)
    requires k < |body| && body[k].ReturnStatement?
    requires forall i :: 0 <= i < k ==> !body[i].ReturnStatement?
    ensures UpToReturn(body) == body[..k + 1]
  {
    if k > 0 {
      CutAtFirstReturn(body[1..], k - 1);
      assert body[..k + 1] == [body[0]] + body[1..][..k];
    }
  }

  /** Cutting twice cuts nothing more. */
  lemma {:induction false} UpToReturnIdempotent(body: seq<Stmt>)
    ensures UpToReturn(UpToReturn(body)) == UpToReturn(body)
  {
    if body != [] && !body[0].ReturnStatement? {
      var rest := UpToReturn(body[1..]);
      UpToReturnIdempotent(body[1..]);
      assert ([body[0]] + rest)[1..] == rest;
    }
  }

  /** `optimize` of one function. */
  function OptimizeFunction(f: Function): Function {
    if f.name == "main" then Function.Function(f.name, f.params, UpToReturn(f.body)) else f
  }

  /** `optimize`: every function in order, `main` cut. */
  function OptimizeProgram(p: Program): Program {
    Program(seq(|p.functions|, i requires 0 <= i < |p.functions| => OptimizeFunction(p.functions[i])))
  }

  /** Optimizing keeps the functions, their number and their order; only
      `main`'s body changes. */
  lemma OptimizeProgramSpec(p: Program)
    ensures var q := OptimizeProgram(p);
      && |q.functions| == |p.functions|
      && forall i :: 0 <= i < |p.functions| ==>
           && q.functions[i].name == p.functions[i].name
           && q.functions[i].params == p.functions[i].params
           && (p.functions[i].name != "main" ==> q.functions[i] == p.functions[i])
           && (p.functions[i].name == "main" ==> q.functions[i].body == UpToReturn(p.functions[i].body))
  {
  }

  /** Optimizing an optimized program changes nothing. */
  lemma OptimizeIdempotent(p: Program)
    ensures OptimizeProgram(OptimizeProgram(p)) == OptimizeProgram(p)
  {
    var q := OptimizeProgram(p);
    forall i | 0 <= i < |p.functions|
      ensures OptimizeFunction(q.functions[i]) == q.functions[i]
    {
      if p.functions[i].name == "main" {
        UpToReturnIdempotent(p.functions[i].body);
      }
    }
  }

  class Optimizer {
    const ast: Program

    constructor (ast: Program)
      ensures this.ast == ast
    {
      this.ast := ast;
    }

    method Optimize() returns (r: Program)
      ensures r == OptimizeProgram(ast)
    {
      var optimizedFunctions: seq<Function> := [];
      for i := 0 to |ast.functions|
        invariant optimizedFunctions == OptimizeProgram(ast).functions[..i]
      {
        var f := ast.functions[i];
        if f.name == "main" {
          var g := OptimizeMain(f);
          optimizedFunctions := optimizedFunctions + [g];
        } else {
          optimizedFunctions := optimizedFunctions + [f];
        }
      }
      return Program(optimizedFunctions);
    }

    /** `optimize_main`: the statements are copied until one is a `return`. */
    method OptimizeMain(f: Function) returns (r: Function)
      ensures r.name == f.name && r.params == f.params && r.body == UpToReturn(f.body)
    {
      var optimizedBody: seq<Stmt> := [];
      var foundReturn := false;
      var i := 0;
      while i < |f.body|
        invariant i <= |f.body|
        invariant foundReturn ==> optimizedBody == UpToReturn(f.body)
        invariant !foundReturn ==> UpToReturn(f.body) == optimizedBody + UpToReturn(f.body[i..])
      {
        if foundReturn {
          break;
        }
        var statement := f.body[i];
        UpToReturnAt(f.body, i);
        optimizedBody := optimizedBody + [statement];
        if statement.ReturnStatement? {
          foundReturn := true;
        }
        i := i + 1;
      }
      if !foundReturn {
        assert f.body[i..] == [];
      }
      return Function.Function(f.name, f.params, optimizedBody);
    }
  }
}
