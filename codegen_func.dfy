/** C text of Kato functions and of a whole program
    (`kato/compiler/codegen/functions.py`, `kato/compiler/compiler.py`). */
module FunctionText {
  import opened Base
  import opened Strings
  import opened KatoAst
  import opened StatementText

  /** `char* p` for every parameter, in order. */
  function ParamDecls(params: seq<string>): (r: seq<string>)
    ensures |r| == |params|
    ensures forall i :: 0 <= i < |params| ==> r[i] == "char* " + params[i]
  {
    seq(|params|, i requires 0 <= i < |params| => "char* " + params[i])
  }

  /** `get_function_signature`. */
  function Signature(f: Function): string {
    if f.params != [] then "int " + f.name + "(" + Join(ParamDecls(f.params), ", ") + ")"
    else "int " + f.name + "()"
  }

  /** Every function returns `int` and takes its parameters as `char*`, in
      order; no parameters is the case of an empty list. */
  lemma SignatureShape(f: Function)
    ensures Signature(f) == "int " + f.name + "(" + Join(ParamDecls(f.params), ", ") + ")"
  {
    if f.params == [] {
      assert "int " + f.name + "(" + "" + ")" == "int " + f.name + "()";
    }
  }

  /** The variable table `compile_function` starts from: every parameter
      typed `string`. */
  function ParamTypes(params: seq<string>): map<string, string> {
    if params == [] then map[]
    else ParamTypes(params[..|params| - 1])[params[|params| - 1] := "string"]
  }

  /** The table holds exactly the parameters, each a string. */
  lemma {:induction false} ParamTypesSpec(params: seq<string>)
    ensures ParamTypes(params).Keys == set p | p in params
    ensures forall p :: p in ParamTypes(params) ==> ParamTypes(params)[p] == "string"
  {
    if params != [] {
      var init := params[..|params| - 1];
      ParamTypesSpec(init);
      assert params == init + [params[|params| - 1]];
      assert (set p | p in params) == (set p | p in init) + {params[|params| - 1]};
    }
  }

  /** `compile_function` at `level`: the header is not indented, the body is
      compiled one level deeper from the parameter table. */
  function FunctionCode(f: Function, level: nat): Result<string> {
    var body :- BlockFrom(f.body, 0, level + 1, Emitted("", ParamTypes(f.params)));
    Ok(Signature(f) + " {\n" + body.code + "}\n")
  }

  /** A compiled function is its signature, ` {`, its statements and `}`. */
  lemma FunctionFraming(f: Function, level: nat)
    requires FunctionCode(f, level).Ok?
    ensures var c := FunctionCode(f, level).value;
      && StartsWith(c, Signature(f) + " {\n")
      && EndsWith(c, "}\n")
  {
    var body := BlockFrom(f.body, 0, level + 1, Emitted("", ParamTypes(f.params))).value;
    var c := Signature(f) + " {\n" + body.code + "}\n";
    assert c[..|Signature(f) + " {\n"|] == Signature(f) + " {\n";
    assert c[|c| - 2..] == "}\n";
  }

  // ---------------------------------------------------------------------
  // The program

  /** The three headers and a blank line. */
  const Includes := "#include <stdio.h>\n" + "#include <string.h>\n" + "#include <stdlib.h>\n\n"

  /** The forward declaration of a function, or nothing for `main`. */
  function Declaration(f: Function): string {
    if f.name != "main" then Signature(f) + ";\n" else ""
  }

  /** The forward declarations of the functions, in order. */
  function Declarations(fs: seq<Function>): string {
    if fs == [] then "" else Declaration(fs[0]) + Declarations(fs[1..])
  }

  /** Declarations follow program order: those of `a` come before those of `b`. */
  lemma {:induction false} DeclarationsAppend(a: seq<Function>, b: seq<Function>)
    ensures Declarations(a + b) == Declarations(a) + Declarations(b)
  {
    if a == [] {
      assert a + b == b;
    } else {
      assert (a + b)[0] == a[0] && (a + b)[1..] == a[1..] + b;
      DeclarationsAppend(a[1..], b);
      var x, y, z := Declaration(a[0]), Declarations(a[1..]), Declarations(b);
      assert x + (y + z) == (x + y) + z;
    }
  }

  /** A program whose functions are all called `main` declares nothing ahead. */
  lemma {:induction false} OnlyMainNoDeclarations(fs: seq<Function>)
    requires forall i :: 0 <= i < |fs| ==> fs[i].name == "main"
    ensures Declarations(fs) == ""
  {
    if fs != [] {
      OnlyMainNoDeclarations(fs[1..]);
    }
  }

  /** The declarations from `i` on, appended to `acc` one at a time. */
  function DeclarationsFrom(fs: seq<Function>, i: nat, acc: string): string
    requires i <= |fs|
    decreases |fs| - i
  {
    if i == |fs| then acc
    else DeclarationsFrom(fs, i + 1, if fs[i].name != "main" then acc + Signature(fs[i]) + ";\n" else acc)
  }

  lemma {:induction false} DeclarationsFromIs(fs: seq<Function>, i: nat, acc: string)
    requires i <= |fs|
    ensures DeclarationsFrom(fs, i, acc) == acc + Declarations(fs[i..])
    decreases |fs| - i
  {
    if i == |fs| {
      assert acc + "" == acc;
    } else {
      var d := Declaration(fs[i]);
      var next := if fs[i].name != "main" then acc + Signature(fs[i]) + ";\n" else acc;
      DeclarationsFromIs(fs, i + 1, next);
      assert fs[i..][0] == fs[i] && fs[i..][1..] == fs[i + 1..];
      if fs[i].name != "main" {
        Associative(acc, Signature(fs[i]), ";\n");
      } else {
        assert acc + "" == acc;
      }
      Associative(acc, d, Declarations(fs[i + 1..]));
    }
  }

  /** Every function compiled, followed by a blank line, in order; the
      first function that fails stops the compilation. */
  function Definitions(fs: seq<Function>, level: nat): Result<string> {
    if fs == [] then Ok("")
    else
      var first :- FunctionCode(fs[0], level);
      var rest :- Definitions(fs[1..], level);
      Ok(first + "\n" + rest)
  }

  /** `acc` followed by what is still to be compiled. */
  function After(acc: string, rest: Result<string>): Result<string> {
    match rest
    case Err(e) => Err(e)
    case Ok(r) => Ok(acc + r)
  }

  /** Definitions follow program order, and the first failure wins. */
  lemma {:induction false} DefinitionsAppend(a: seq<Function>, b: seq<Function>, level: nat)
    ensures Definitions(a + b, level) ==
      (var x :- Definitions(a, level); After(x, Definitions(b, level)))
  {
    if a == [] {
      assert a + b == b;
      if Definitions(b, level).Ok? {
        assert "" + Definitions(b, level).value == Definitions(b, level).value;
      }
    } else {
      assert (a + b)[0] == a[0] && (a + b)[1..] == a[1..] + b;
      DefinitionsAppend(a[1..], b, level);
      var x := FunctionCode(a[0], level);
      var y := Definitions(a[1..], level);
      var z := Definitions(b, level);
      if x.Ok? && y.Ok? && z.Ok? {
        assert x.value + "\n" + (y.value + z.value) == (x.value + "\n" + y.value) + z.value;
      }
    }
  }

  /** The definitions from `i` on, appended to `acc` one at a time. */
  function DefinitionsFrom(fs: seq<Function>, i: nat, level: nat, acc: string): Result<string>
    requires i <= |fs|
    decreases |fs| - i
  {
    if i == |fs| then Ok(acc)
    else
      var c :- FunctionCode(fs[i], level);
      DefinitionsFrom(fs, i + 1, level, acc + c + "\n")
  }

  lemma {:induction false} DefinitionsFromIs(fs: seq<Function>, i: nat, level: nat, acc: string)
    requires i <= |fs|
    ensures DefinitionsFrom(fs, i, level, acc) == After(acc, Definitions(fs[i..], level))
    decreases |fs| - i
  {
    if i == |fs| {
      assert acc + "" == acc;
    } else {
      DefinitionsCons(fs, i, level);
      var c := FunctionCode(fs[i], level);
      if c.Ok? {
        DefinitionsFromIs(fs, i + 1, level, acc + c.value + "\n");
        AfterCode(acc, c.value, Definitions(fs[i + 1..], level));
      }
    }
  }

  /** Appending a definition to `acc` first, or to what follows it, is the same. */
  lemma AfterCode(acc: string, code: string, rest: Result<string>)
    ensures After(acc + code + "\n", rest) == After(acc, var more :- rest; Ok(code + "\n" + more))
  {
    if rest.Ok? {
      assert acc + code + "\n" + rest.value == acc + (code + "\n" + rest.value);
    }
  }

  /** The definitions from `i` on are those of `fs[i]`, then those after it. */
  lemma DefinitionsCons(fs: seq<Function>, i: nat, level: nat)
    requires i < |fs|
    ensures Definitions(fs[i..], level) ==
      (var first :- FunctionCode(fs[i], level);
       var rest :- Definitions(fs[i + 1..], level);
       Ok(first + "\n" + rest))
  {
    assert fs[i..][0] == fs[i] && fs[i..][1..] == fs[i + 1..];
  }

  /** `compile` with the compiler at `level`: the headers, the forward
      declarations and a blank line, then the definitions. */
  function ProgramCode(p: Program, level: nat): Result<string> {
    DefinitionsFrom(p.functions, 0, level, DeclarationsFrom(p.functions, 0, Includes) + "\n")
  }

  /** The output is the headers, the forward declarations, a blank line and
      the definitions, in that order; it fails exactly when a function does. */
  lemma ProgramLayout(p: Program, level: nat)
    ensures ProgramCode(p, level) == After(Includes + Declarations(p.functions) + "\n", Definitions(p.functions, level))
  {
    assert p.functions[0..] == p.functions;
    DeclarationsFromIs(p.functions, 0, Includes);
    DefinitionsFromIs(p.functions, 0, level, DeclarationsFrom(p.functions, 0, Includes) + "\n");
  }
}
