/** C text of Kato statements (`kato/compiler/codegen/statements.py`).

    The statement code generator reads two pieces of compiler state: the
    indentation level and the table `variables` from variable name to its
    Kato type.  Declarations write that table, and every statement inside an
    `if` or `while` body sees the table its predecessors left.  The
    specification threads both: a statement at `level` with table `vars`
    yields its text and the new table.

    `compile_statement` returns Python `None` for a statement it does not
    handle, and every caller concatenates that result to its text, which
    raises `TypeError`; `None` is `Ok(None)` here and the callers turn it into
    `NoneConcatenation`. */
module StatementText {
  import opened Base
  import opened Strings
  import opened KatoAst
  import opened ExpressionCodegen
  import opened KatoScope

  /** The text a statement produced and the variable table after it. */
  datatype Emitted = Emitted(code: string, vars: map<string, string>)

  /** `code += None` in the caller of `compile_statement`. */
  const NoneConcatenation := Crash("TypeError: can only concatenate str (not \"NoneType\") to str")

  /** The C type of a Kato type; anything unknown is `int`. */
  function CType(t: string): (r: string)
    ensures r in {"int", "float", "char", "char*"}
    ensures t == "string" ==> r == "char*"
    ensures t in {"int", "float", "char"} ==> r == t
  {
    if t == "int" then "int"
    else if t == "float" then "float"
    else if t == "char" then "char"
    else if t == "string" then "char*"
    else "int"
  }

  /** The printf conversion of a Kato type, if it has one. */
  function Specifier(t: string): (r: Option<string>)
    ensures r.Some? <==> t in {"int", "float", "char", "string"}
  {
    if t == "int" then Some("%d")
    else if t == "float" then Some("%f")
    else if t == "char" then Some("%c")
    else if t == "string" then Some("%s")
    else None
  }

  // ---------------------------------------------------------------------
  // `*name*` markers inside print strings

  /** The end of the run of word characters starting at `p`. */
  function WordEnd(s: string, p: nat): (q: nat)
    requires p <= |s|
    ensures p <= q <= |s|
    ensures forall k :: p <= k < q ==> IsWordChar(s[k])
    ensures q == |s| || !IsWordChar(s[q])
    decreases |s| - p
  {
    if p < |s| && IsWordChar(s[p]) then WordEnd(s, p + 1) else p
  }

  /** `re.findall(r'\*(\w+)\*', s[p..])`: the names of the markers, left to
      right, each search resuming after the marker found. */
  function MarkersFrom(s: string, p: nat): seq<string>
    requires p <= |s|
    decreases |s| - p
  {
    if p == |s| then []
    else if s[p] == '*' && WordEnd(s, p + 1) > p + 1 && WordEnd(s, p + 1) < |s| && s[WordEnd(s, p + 1)] == '*' then
      [s[p + 1..WordEnd(s, p + 1)]] + MarkersFrom(s, WordEnd(s, p + 1) + 1)
    else MarkersFrom(s, p + 1)
  }

  function Markers(s: string): seq<string> {
    MarkersFrom(s, 0)
  }

  /** A marker name: one or more word characters. */
  predicate IsName(m: string) {
    m != [] && forall k :: 0 <= k < |m| ==> IsWordChar(m[k])
  }

  /** Every marker found is a name that stands between two stars in the text. */
  lemma {:induction false} MarkersSound(s: string, p: nat)
    requires p <= |s|
    ensures forall i :: 0 <= i < |MarkersFrom(s, p)| ==>
      IsName(MarkersFrom(s, p)[i]) && Contains(s, "*" + MarkersFrom(s, p)[i] + "*")
    decreases |s| - p
  {
    if p < |s| {
      var e := WordEnd(s, p + 1);
      if s[p] == '*' && e > p + 1 && e < |s| && s[e] == '*' {
        MarkersSound(s, e + 1);
        var m := s[p + 1..e];
        MarkerFound(s, p, e);
        var rest := MarkersFrom(s, e + 1);
        assert MarkersFrom(s, p) == [m] + rest;
        forall i | 0 <= i < |[m] + rest|
          ensures IsName(([m] + rest)[i]) && Contains(s, "*" + ([m] + rest)[i] + "*")
        {
          if i > 0 { assert ([m] + rest)[i] == rest[i - 1]; }
        }
      } else {
        MarkersSound(s, p + 1);
      }
    }
  }

  /** A marker found at `p`, ending before the star at `e`, is a name
      standing between two stars. */
  lemma MarkerFound(s: string, p: nat, e: nat)
    requires p < e < |s| && e == WordEnd(s, p + 1) && e > p + 1 && s[p] == '*' && s[e] == '*'
    ensures IsName(s[p + 1..e]) && Contains(s, "*" + s[p + 1..e] + "*")
  {
    var m := s[p + 1..e];
    assert s[p..e + 1] == "*" + m + "*";
    assert OccursAt(s, "*" + m + "*", p);
  }

  /** A text without stars holds no marker. */
  lemma {:induction false} NoStarNoMarkers(s: string, p: nat)
    requires p <= |s| && '*' !in s
    ensures MarkersFrom(s, p) == []
    decreases |s| - p
  {
    if p < |s| {
      NoStarNoMarkers(s, p + 1);
    }
  }

  /** A text that is one marker yields exactly its name. */
  lemma SingleMarker(m: string)
    requires IsName(m)
    ensures Markers("*" + m + "*") == [m]
  {
    var s := "*" + m + "*";
    assert forall k :: 1 <= k < |m| + 1 ==> s[k] == m[k - 1];
    WordEndAt(s, 1, |m| + 1);
    assert s[1..|m| + 1] == m;
    assert MarkersFrom(s, |m| + 2) == [];
  }

  /** The run of word characters from `p` ends at `q`. */
  lemma {:induction false} WordEndAt(s: string, p: nat, q: nat)
    requires p <= q < |s| && !IsWordChar(s[q])
    requires forall k :: p <= k < q ==> IsWordChar(s[k])
    ensures WordEnd(s, p) == q
    decreases q - p
  {
    if p < q {
      WordEndAt(s, p + 1, q);
    }
  }

  /** The markers of a print string, filled in from `i` on: the first
      occurrence of `*name*` of each known name becomes its type's
      conversion (when the type has one) and the name becomes an argument;
      an unknown name changes nothing. */
  function FillFrom(format: string, names: seq<string>, i: nat, vars: map<string, string>,
                    args: seq<string>): (string, seq<string>)
    requires i <= |names|
    decreases |names| - i
  {
    if i == |names| then (format, args)
    else if names[i] in vars then
      var spec := Specifier(vars[names[i]]);
      var format' := if spec.Some? then ReplaceFirst(format, "*" + names[i] + "*", spec.value) else format;
      FillFrom(format', names, i + 1, vars, args + [names[i]])
    else FillFrom(format, names, i + 1, vars, args)
  }

  /** The names that have a recorded type, in order. */
  function Known(names: seq<string>, vars: map<string, string>): seq<string> {
    if names == [] then []
    else (if names[0] in vars then [names[0]] else []) + Known(names[1..], vars)
  }

  /** The arguments a print string adds are its known marker names, in order. */
  lemma {:induction false} FillArgs(format: string, names: seq<string>, i: nat, vars: map<string, string>, args: seq<string>)
    requires i <= |names|
    ensures FillFrom(format, names, i, vars, args).1 == args + Known(names[i..], vars)
    decreases |names| - i
  {
    if i == |names| {
      assert names[i..] == [];
    } else {
      assert names[i..][1..] == names[i + 1..];
      var spec := if names[i] in vars then Specifier(vars[names[i]]) else None;
      var format' := if spec.Some? then ReplaceFirst(format, "*" + names[i] + "*", spec.value) else format;
      var args' := if names[i] in vars then args + [names[i]] else args;
      FillArgs(format', names, i + 1, vars, args');
    }
  }

  /** Filling does not look at the arguments gathered so far: it appends to them. */
  lemma {:induction false} FillShift(format: string, names: seq<string>, i: nat, vars: map<string, string>, args: seq<string>)
    requires i <= |names|
    ensures var r := FillFrom(format, names, i, vars, []);
      FillFrom(format, names, i, vars, args) == (r.0, args + r.1)
    decreases |names| - i
  {
    if i == |names| {
      assert args + [] == args;
    } else if names[i] in vars {
      var spec := Specifier(vars[names[i]]);
      var format' := if spec.Some? then ReplaceFirst(format, "*" + names[i] + "*", spec.value) else format;
      FillShift(format', names, i + 1, vars, args + [names[i]]);
      FillShift(format', names, i + 1, vars, [names[i]]);
      assert [] + [names[i]] == [names[i]];
      var r := FillFrom(format', names, i + 1, vars, []);
      assert (args + [names[i]]) + r.1 == args + ([names[i]] + r.1);
    } else {
      FillShift(format, names, i + 1, vars, args);
    }
  }

  /** A print string whose markers are all unknown is printed as written. */
  lemma {:induction false} FillUnknown(format: string, names: seq<string>, i: nat, vars: map<string, string>, args: seq<string>)
    requires i <= |names|
    requires forall k :: i <= k < |names| ==> names[k] !in vars
    ensures FillFrom(format, names, i, vars, args) == (format, args)
    decreases |names| - i
  {
    if i < |names| {
      FillUnknown(format, names, i + 1, vars, args);
    }
  }

  // ---------------------------------------------------------------------
  // print

  /** One print operand: the piece it adds to the format string and the
      arguments it adds; an operand of another kind adds nothing. */
  function OperandParts(v: Expr, vars: map<string, string>): Result<(string, seq<string>)> {
    match v
    case StringLiteral(text) => Ok(FillFrom(text, Markers(text), 0, vars, []))
    case NumberLiteral(n) => Ok(("%d", [NatToString(n)]))
    case FloatLiteral(lexeme) => Ok(("%f", [lexeme]))
    case Identifier(name) =>
      if name in vars then Ok((SpecifierText(vars[name]), [name])) else Ok(("%s", [name]))
    case ArrayAccess(name, _) =>
      var arg :- CompileExpr(v, None);
      if name in vars then Ok((SpecifierText(vars[name]), [arg])) else Ok(("%s", [arg]))
    case BinaryOp(_, _, _) =>
      var arg :- CompileExpr(v, None);
      Ok(("%d", [arg]))
    case _ => Ok(("", []))
  }

  /** The conversion of a type, or nothing when the type has none. */
  function SpecifierText(t: string): string {
    match Specifier(t)
    case Some(spec) => spec
    case None => ""
  }

  /** The joined format string and the arguments of the operands, in order. */
  function PrintParts(values: seq<Expr>, vars: map<string, string>): Result<(string, seq<string>)> {
    if values == [] then Ok(("", []))
    else Combine(PrintParts(values[..|values| - 1], vars), OperandParts(values[|values| - 1], vars))
  }

  /** The parts of two runs of operands, one after the other; the first
      failure wins. */
  function Combine(x: Result<(string, seq<string>)>, y: Result<(string, seq<string>)>): Result<(string, seq<string>)> {
    var before :- x;
    var after :- y;
    Ok((before.0 + after.0, before.1 + after.1))
  }

  /** `compile_print`. */
  function PrintCode(values: seq<Expr>, level: nat, vars: map<string, string>): Result<string> {
    var parts :- PrintParts(values, vars);
    var escaped := Escape(parts.0);
    if parts.1 != [] then
      Ok(Indentation(level) + "printf(\"" + escaped + "\", " + Join(parts.1, ", ") + ");\n")
    else
      Ok(Indentation(level) + "printf(\"" + escaped + "\");\n")
  }

  /** Printing operands one after the other: the format pieces and the
      arguments of the later operands follow those of the earlier ones, and
      the first failure wins. */
  lemma {:induction false} PrintPartsAppend(a: seq<Expr>, b: seq<Expr>, vars: map<string, string>)
    ensures PrintParts(a + b, vars) == Combine(PrintParts(a, vars), PrintParts(b, vars))
    decreases |b|
  {
    if b == [] {
      assert a + b == a;
      CombineUnit(PrintParts(a, vars));
    } else {
      var b' := b[..|b| - 1];
      assert (a + b)[..|a + b| - 1] == a + b';
      assert (a + b)[|a + b| - 1] == b[|b| - 1];
      PrintPartsAppend(a, b', vars);
      CombineAssociative(PrintParts(a, vars), PrintParts(b', vars), OperandParts(b[|b| - 1], vars));
    }
  }

  lemma CombineUnit(x: Result<(string, seq<string>)>)
    ensures Combine(x, Ok(("", []))) == x
  {
    if x.Ok? {
      assert x.value.0 + "" == x.value.0;
      assert x.value.1 + [] == x.value.1;
    }
  }

  lemma CombineAssociative(x: Result<(string, seq<string>)>, y: Result<(string, seq<string>)>, z: Result<(string, seq<string>)>)
    ensures Combine(Combine(x, y), z) == Combine(x, Combine(y, z))
  {
    if x.Ok? && y.Ok? && z.Ok? {
      assert (x.value.0 + y.value.0) + z.value.0 == x.value.0 + (y.value.0 + z.value.0);
      assert (x.value.1 + y.value.1) + z.value.1 == x.value.1 + (y.value.1 + z.value.1);
    }
  }

  /** How many arguments a print operand adds: one for a number, a float, an
      identifier, an array element or an arithmetic operand, one per marker
      with a recorded type for a string, and none otherwise. */
  function ArgumentCount(v: Expr, vars: map<string, string>): nat {
    match v
    case StringLiteral(text) => |Known(Markers(text), vars)|
    case NumberLiteral(_) => 1
    case FloatLiteral(_) => 1
    case Identifier(_) => 1
    case ArrayAccess(_, _) => 1
    case BinaryOp(_, _, _) => 1
    case _ => 0
  }

  function ArgumentsOf(values: seq<Expr>, vars: map<string, string>): nat {
    if values == [] then 0 else ArgumentsOf(values[..|values| - 1], vars) + ArgumentCount(values[|values| - 1], vars)
  }

  /** The printf call has exactly one argument per counted operand and marker. */
  lemma {:induction false} PrintArgumentCount(values: seq<Expr>, vars: map<string, string>)
    ensures PrintParts(values, vars).Ok? ==> |PrintParts(values, vars).value.1| == ArgumentsOf(values, vars)
  {
    if values != [] {
      PrintArgumentCount(values[..|values| - 1], vars);
      var v := values[|values| - 1];
      if v.StringLiteral? {
        FillArgs(v.value, Markers(v.value), 0, vars, []);
        assert Markers(v.value)[0..] == Markers(v.value);
      }
    }
  }

  // ---------------------------------------------------------------------
  // The other simple statements

  /** `compile_return`: only a number, a float, a string or a name gives text. */
  function ReturnCode(value: Option<Expr>, level: nat): Option<string> {
    match value
    case Some(NumberLiteral(n)) => Some(Indentation(level) + "return " + NatToString(n) + ";\n")
    case Some(FloatLiteral(lexeme)) => Some(Indentation(level) + "return (int)" + lexeme + ";\n")
    case Some(StringLiteral(_)) => Some(Indentation(level) + "return 0;\n")
    case Some(Identifier(name)) => Some(Indentation(level) + "return " + name + ";\n")
    case _ => None
  }

  /** The statements that read a value of type `t` into `name`; a fresh
      string variable is first given a 4096-byte buffer. */
  function ReadInput(t: string, name: string, ind: string, allocate: bool): string {
    if t == "int" then ind + "scanf(\"%d\", &" + name + ");\n"
    else if t == "float" then ind + "scanf(\"%f\", &" + name + ");\n"
    else if t == "char" then ind + "scanf(\" %c\", &" + name + ");\n"
    else if t == "string" then
      (if allocate then ind + name + " = (char*)malloc(4096);\n" else "")
      + ind + "fgets(" + name + ", 4096, stdin);\n"
      + ind + name + "[strcspn(" + name + ", \"\\n\")] = 0;\n"
    else ""
  }

  /** `compile_var_declaration`: the type is recorded before the value is compiled. */
  function VarDeclCode(t: string, name: string, init: Option<Expr>, level: nat,
                       vars: map<string, string>): Result<Emitted> {
    var vars' := vars[name := t];
    var ind := Indentation(level);
    match init
    case Some(InptCall(prompt)) =>
      var p :- CompileExpr(prompt, None);
      Ok(Emitted(ind + CType(t) + " " + name + ";\n" + ind + "printf(" + p + ");\n" + ReadInput(t, name, ind, true), vars'))
    case _ =>
      var value :- CompileValue(init, Some(t));
      Ok(Emitted(ind + CType(t) + " " + name + " = " + value + ";\n", vars'))
  }

  /** `compile_call`. */
  function CallCode(name: string, args: seq<Expr>, level: nat): Result<string> {
    if args != [] then
      var compiled :- CompileEach(args, None);
      Ok(Indentation(level) + name + "(" + Join(compiled, ", ") + ");\n")
    else Ok(Indentation(level) + name + "();\n")
  }

  /** `compile_assignment`: the recorded type, `int` when there is none. */
  function AssignCode(name: string, value: Expr, level: nat, vars: map<string, string>): Result<string> {
    var t := if name in vars then vars[name] else "int";
    var ind := Indentation(level);
    match value
    case InptCall(prompt) =>
      var p :- CompileExpr(prompt, None);
      Ok(ind + "printf(" + p + ");\n" + ReadInput(t, name, ind, false))
    case _ =>
      var v :- CompileExpr(value, Some(t));
      Ok(ind + name + " = " + v + ";\n")
  }

  /** `compile_array_declaration`: the size is the number of elements. */
  function ArrayDeclCode(t: string, name: string, elements: seq<Expr>, level: nat,
                         vars: map<string, string>): Result<Emitted> {
    var compiled :- CompileEach(elements, Some(t));
    Ok(Emitted(Indentation(level) + CType(t) + " " + name + "[" + NatToString(|elements|) + "] = {"
               + Join(compiled, ", ") + "};\n", vars[name := t]))
  }

  /** `compile_array_assignment`. */
  function ArrayAssignCode(name: string, index: Expr, value: Expr, level: nat): Result<string> {
    var i :- CompileExpr(index, None);
    var v :- CompileExpr(value, None);
    Ok(Indentation(level) + name + "[" + i + "] = " + v + ";\n")
  }

  // ---------------------------------------------------------------------
  // Statements and bodies

  /** `compile_statement` at `level` with the table `vars`: `None` for a
      statement it does not handle. */
  function StmtCode(s: Stmt, level: nat, vars: map<string, string>): Result<Option<Emitted>>
    decreases s, 3
  {
    match s
    case PrintStatement(values) =>
      var code :- PrintCode(values, level, vars);
      Ok(Some(Emitted(code, vars)))
    case ReturnStatement(value) =>
      var code := ReturnCode(value, level);
      if code.None? then Ok(None) else Ok(Some(Emitted(code.value, vars)))
    case VarDeclaration(t, name, init) =>
      var e :- VarDeclCode(t, name, init, level, vars);
      Ok(Some(e))
    case CallStatement(name, args) =>
      var code :- CallCode(name, args, level);
      Ok(Some(Emitted(code, vars)))
    case IfStatement(_, _, _, _) =>
      var e :- IfCode(s, level, vars);
      Ok(Some(e))
    case Assignment(name, value) =>
      var code :- AssignCode(name, value, level, vars);
      Ok(Some(Emitted(code, vars)))
    case WhileStatement(_, _) =>
      var e :- WhileCode(s, level, vars);
      Ok(Some(e))
    case IncrementStatement(name) => Ok(Some(Emitted(Indentation(level) + name + "++;\n", vars)))
    case DecrementStatement(name) => Ok(Some(Emitted(Indentation(level) + name + "--;\n", vars)))
    case ArrayDeclaration(t, name, elements) =>
      var e :- ArrayDeclCode(t, name, elements, level, vars);
      Ok(Some(e))
    case ArrayAssignment(name, index, value) =>
      var code :- ArrayAssignCode(name, index, value, level);
      Ok(Some(Emitted(code, vars)))
    case NoStatement => Ok(None)
  }

  /** The statements of a body from `i` on, appended to `acc`; a statement
      without text stops the compilation. */
  function BlockFrom(body: seq<Stmt>, i: nat, level: nat, acc: Emitted): Result<Emitted>
    requires i <= |body|
    decreases body, |body| - i
  {
    if i == |body| then Ok(acc)
    else
      var r :- StmtCode(body[i], level, acc.vars);
      match r
      case None => Err(NoneConcatenation)
      case Some(e) => BlockFrom(body, i + 1, level, Emitted(acc.code + e.code, e.vars))
  }

  /** `compile_if`: the bodies one level deeper, one ` else if` per elif
      part, and an `else` only for a non-empty else body. */
  function IfCode(s: Stmt, level: nat, vars: map<string, string>): Result<Emitted>
    requires s.IfStatement?
    decreases s, 2
  {
    var c :- CompileExpr(s.condition, None);
    var body :- BlockFrom(s.ifBody, 0, level + 1, Emitted("", vars));
    var head := Emitted(Indentation(level) + "if (" + c + ") {\n" + body.code + Indentation(level) + "}", body.vars);
    var withElifs :- ElifsFrom(s.elifParts, 0, level, head);
    var withElse :- ElseCode(s.elseBody, level, withElifs);
    Ok(Emitted(withElse.code + "\n", withElse.vars))
  }

  /** `compile_while`: the body one level deeper. */
  function WhileCode(s: Stmt, level: nat, vars: map<string, string>): Result<Emitted>
    requires s.WhileStatement?
    decreases s, 2
  {
    var c :- CompileExpr(s.condition, None);
    var body :- BlockFrom(s.body, 0, level + 1, Emitted("", vars));
    Ok(Emitted(Indentation(level) + "while (" + c + ") {\n" + body.code + Indentation(level) + "}\n", body.vars))
  }

  function ElifsFrom(elifs: seq<ElifPart>, i: nat, level: nat, acc: Emitted): Result<Emitted>
    requires i <= |elifs|
    decreases elifs, |elifs| - i
  {
    if i == |elifs| then Ok(acc)
    else
      var c :- CompileExpr(elifs[i].condition, None);
      var body :- BlockFrom(elifs[i].body, 0, level + 1, Emitted("", acc.vars));
      ElifsFrom(elifs, i + 1, level,
        Emitted(acc.code + " else if (" + c + ") {\n" + body.code + Indentation(level) + "}", body.vars))
  }

  function ElseCode(elseBody: ElseClause, level: nat, acc: Emitted): Result<Emitted>
    decreases elseBody, 0
  {
    match elseBody
    case ElseBlock(statements) =>
      if statements == [] then Ok(acc)
      else
        var body :- BlockFrom(statements, 0, level + 1, Emitted("", acc.vars));
        Ok(Emitted(acc.code + " else {\n" + body.code + Indentation(level) + "}", body.vars))
    case NoElse => Ok(acc)
  }

  // ---------------------------------------------------------------------
  // What compiling statements promises

  /** An empty else body is not emitted, just like a missing one. */
  lemma EmptyElseOmitted(condition: Expr, ifBody: seq<Stmt>, elifs: seq<ElifPart>, level: nat,
                         vars: map<string, string>)
    ensures IfCode(IfStatement(condition, ifBody, elifs, ElseBlock([])), level, vars)
         == IfCode(IfStatement(condition, ifBody, elifs, NoElse), level, vars)
  {
  }

  /** The table after `e` has exactly the names of `before` and the names
      declared by `d`, and keeps the type of every other name. */
  predicate Records(before: map<string, string>, d: Effects, after: map<string, string>) {
    && after.Keys == before.Keys + Names(d.declared)
    && forall x :: x in before && x !in Names(d.declared) ==> after[x] == before[x]
  }

  lemma RecordsThen(v0: map<string, string>, d1: Effects, v1: map<string, string>, d2: Effects, v2: map<string, string>)
    requires Records(v0, d1, v1) && Records(v1, d2, v2)
    ensures Records(v0, Then(d1, d2), v2)
  {
    NamesAppend(d1.declared, d2.declared);
  }

  lemma RecordsNothing(vars: map<string, string>)
    ensures Records(vars, NoEffects, vars)
  {
    assert Names([]) == {};
  }

  /** Only declarations change the variable table: compiling a statement
      adds exactly the names it declares, anywhere inside it, and leaves the
      type of every other name alone. */
  lemma {:induction false} StmtRecords(s: Stmt, level: nat, vars: map<string, string>)
    ensures var r := StmtCode(s, level, vars);
      r.Ok? && r.value.Some? ==> Records(vars, EffectsOf(s), r.value.value.vars)
    decreases s, 3
  {
    var r := StmtCode(s, level, vars);
    if r.Ok? && r.value.Some? {
      match s
      case VarDeclaration(_, name, _) =>
        assert Names([name]) == {name};
      case ArrayDeclaration(_, name, _) =>
        assert Names([name]) == {name};
      case IfStatement(_, _, _, _) =>
        IfRecords(s, level, vars);
      case WhileStatement(_, body) =>
        RecordsNothing(vars);
        BlockRecords(body, 0, level + 1, Emitted("", vars), vars);
        assert body[..|body|] == body;
      case _ =>
        RecordsNothing(vars);
    }
  }

  lemma {:induction false} BlockRecords(body: seq<Stmt>, i: nat, level: nat, acc: Emitted, v0: map<string, string>)
    requires i <= |body|
    requires Records(v0, EffectsOfAll(body[..i]), acc.vars)
    ensures var r := BlockFrom(body, i, level, acc);
      r.Ok? ==> Records(v0, EffectsOfAll(body), r.value.vars)
    decreases body, |body| - i
  {
    var r := BlockFrom(body, i, level, acc);
    if i == |body| {
      assert body[..i] == body;
    } else if r.Ok? {
      var e := StmtCode(body[i], level, acc.vars).value.value;
      StmtRecords(body[i], level, acc.vars);
      assert body[..i + 1] == body[..i] + [body[i]];
      EffectsOfAppend(body[..i], body[i]);
      RecordsThen(v0, EffectsOfAll(body[..i]), acc.vars, EffectsOf(body[i]), e.vars);
      BlockRecords(body, i + 1, level, Emitted(acc.code + e.code, e.vars), v0);
    }
  }

  lemma {:induction false} IfRecords(s: Stmt, level: nat, vars: map<string, string>)
    requires s.IfStatement?
    ensures var r := IfCode(s, level, vars);
      r.Ok? ==> Records(vars, EffectsOf(s), r.value.vars)
    decreases s, 2
  {
    var r := IfCode(s, level, vars);
    var IfStatement(condition, ifBody, elifs, elseBody) := s;
    if r.Ok? {
      var c := CompileExpr(condition, None).value;
      var body := BlockFrom(ifBody, 0, level + 1, Emitted("", vars)).value;
      RecordsNothing(vars);
      assert ifBody[..0] == [];
      BlockRecords(ifBody, 0, level + 1, Emitted("", vars), vars);
      var head := Emitted(Indentation(level) + "if (" + c + ") {\n" + body.code + Indentation(level) + "}", body.vars);
      var withElifs := ElifsFrom(elifs, 0, level, head).value;
      RecordsNothing(body.vars);
      assert elifs[..0] == [];
      ElifsRecords(elifs, 0, level, head, body.vars);
      ElseRecords(elseBody, level, withElifs);
      RecordsThen(vars, EffectsOfAll(ifBody), body.vars, EffectsOfElifs(elifs), withElifs.vars);
      var withElse := ElseCode(elseBody, level, withElifs).value;
      RecordsThen(vars, Then(EffectsOfAll(ifBody), EffectsOfElifs(elifs)), withElifs.vars,
                  EffectsOfElse(elseBody), withElse.vars);
    }
  }

  lemma {:induction false} ElifsRecords(elifs: seq<ElifPart>, i: nat, level: nat, acc: Emitted, v0: map<string, string>)
    requires i <= |elifs|
    requires Records(v0, EffectsOfElifs(elifs[..i]), acc.vars)
    ensures var r := ElifsFrom(elifs, i, level, acc);
      r.Ok? ==> Records(v0, EffectsOfElifs(elifs), r.value.vars)
    decreases elifs, |elifs| - i
  {
    var r := ElifsFrom(elifs, i, level, acc);
    if i == |elifs| {
      assert elifs[..i] == elifs;
    } else if r.Ok? {
      var c := CompileExpr(elifs[i].condition, None).value;
      var part := elifs[i].body;
      var body := BlockFrom(part, 0, level + 1, Emitted("", acc.vars)).value;
      RecordsNothing(acc.vars);
      assert part[..0] == [];
      BlockRecords(part, 0, level + 1, Emitted("", acc.vars), acc.vars);
      assert elifs[..i + 1] == elifs[..i] + [elifs[i]];
      EffectsOfElifsAppend(elifs[..i], elifs[i]);
      RecordsThen(v0, EffectsOfElifs(elifs[..i]), acc.vars, EffectsOfAll(part), body.vars);
      ElifsRecords(elifs, i + 1, level,
        Emitted(acc.code + " else if (" + c + ") {\n" + body.code + Indentation(level) + "}", body.vars), v0);
    }
  }

  lemma {:induction false} ElseRecords(elseBody: ElseClause, level: nat, acc: Emitted)
    ensures var r := ElseCode(elseBody, level, acc);
      r.Ok? ==> Records(acc.vars, EffectsOfElse(elseBody), r.value.vars)
    decreases elseBody, 0
  {
    RecordsNothing(acc.vars);
    match elseBody
    case ElseBlock(statements) =>
      if statements == [] {
        assert EffectsOfAll(statements) == NoEffects;
      } else {
        assert statements[..0] == [];
        BlockRecords(statements, 0, level + 1, Emitted("", acc.vars), acc.vars);
      }
    case NoElse =>
  }
}
