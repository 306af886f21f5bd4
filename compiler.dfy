/** The Kato-to-C compiler objects: `CCompiler` (`kato/compiler/compiler.py`)
    holds the indentation level and the variable table; `StatementCodegen`
    (`kato/compiler/codegen/statements.py`) and `FunctionCodegen`
    (`kato/compiler/codegen/functions.py`) write C text and update that
    state.  Each method is proved to produce what the functions of
    `StatementText` and `FunctionText` specify, from the state it starts
    in, and to leave the state they describe.  Expressions are compiled by
    the pure `ExpressionCodegen.CompileExpr`. */
module Compiler {
  import opened Base
  import opened Strings
  import opened KatoAst
  import opened ExpressionCodegen
  import opened StatementText
  import opened FunctionText

  /** The text of a statement's specification, without its table. */
  function TextOf(spec: Result<Option<Emitted>>): Result<Option<string>> {
    match spec
    case Err(e) => Err(e)
    case Ok(None) => Ok(None)
    case Ok(Some(e)) => Ok(Some(e.code))
  }

  /** The table a statement's specification leaves; `vars` when it emits nothing. */
  function TableAfter(spec: Result<Option<Emitted>>, vars: map<string, string>): map<string, string> {
    if spec.Ok? && spec.value.Some? then spec.value.value.vars else vars
  }

  function CodeOf(spec: Result<Emitted>): Result<string> {
    match spec
    case Err(e) => Err(e)
    case Ok(e) => Ok(e.code)
  }

  /** `done` followed by what is still to be compiled. */
  function Prepend(done: seq<string>, rest: Result<seq<string>>): Result<seq<string>> {
    match rest
    case Err(e) => Err(e)
    case Ok(r) => Ok(done + r)
  }

  class CCompiler {
    const ast: Program
    var indentLevel: nat
    var variables: map<string, string>

    constructor (ast: Program)
      ensures this.ast == ast && indentLevel == 0 && variables == map[]
    {
      this.ast := ast;
      indentLevel := 0;
      variables := map[];
    }

    /** `indent`. */
    function Indent(): string
      reads this
    {
      Indentation(indentLevel)
    }

    /** `compile`: the headers, a forward declaration per function other
        than `main`, a blank line, then every function in order.  The code
        generators are created here rather than in the constructor. */
    method Compile() returns (r: Result<string>)
      modifies this
      ensures r == ProgramCode(ast, old(indentLevel))
      ensures r.Ok? ==> indentLevel == old(indentLevel)
    {
      var stmtCodegen := new StatementCodegen(this);
      var funcCodegen := new FunctionCodegen(this, stmtCodegen);
      var cCode := "#include <stdio.h>\n";
      cCode := cCode + "#include <string.h>\n";
      cCode := cCode + "#include <stdlib.h>\n\n";
      var functions := ast.functions;
      for i := 0 to |functions|
        invariant DeclarationsFrom(functions, i, cCode) == DeclarationsFrom(functions, 0, Includes)
      {
        if functions[i].name != "main" {
          cCode := cCode + Signature(functions[i]) + ";\n";
        }
      }
      cCode := cCode + "\n";
      ghost var level := indentLevel;
      for i := 0 to |functions|
        invariant indentLevel == level == old(indentLevel)
        invariant DefinitionsFrom(functions, i, level, cCode) == ProgramCode(ast, level)
      {
        var c := funcCodegen.CompileFunction(functions[i]);
        if c.Err? {
          return Err(c.error);
        }
        cCode := cCode + c.value;
        cCode := cCode + "\n";
      }
      return Ok(cCode);
    }
  }

  class FunctionCodegen {
    const compiler: CCompiler
    const stmtCodegen: StatementCodegen

    constructor (compiler: CCompiler, stmtCodegen: StatementCodegen)
      requires stmtCodegen.compiler == compiler
      ensures this.compiler == compiler && this.stmtCodegen == stmtCodegen
      ensures this.stmtCodegen.compiler == compiler
    {
      this.compiler := compiler;
      this.stmtCodegen := stmtCodegen;
    }

    /** `compile_function`: the table is reset to the parameters, the body
        is compiled one level deeper, and the level is restored. */
    method CompileFunction(f: Function) returns (r: Result<string>)
      requires stmtCodegen.compiler == compiler
      modifies compiler
      ensures r == FunctionCode(f, old(compiler.indentLevel))
      ensures r.Ok? ==> compiler.indentLevel == old(compiler.indentLevel)
      ensures r.Ok? ==> (compiler.variables ==
        BlockFrom(f.body, 0, old(compiler.indentLevel) + 1, Emitted("", ParamTypes(f.params))).value.vars)
    {
      compiler.variables := map[];
      var cCode;
      if f.params != [] {
        for i := 0 to |f.params|
          invariant compiler.variables == ParamTypes(f.params[..i])
          invariant compiler.indentLevel == old(compiler.indentLevel)
        {
          assert f.params[..i + 1][..i] == f.params[..i];
          compiler.variables := compiler.variables[f.params[i] := "string"];
        }
        assert f.params[..|f.params|] == f.params;
        cCode := "int " + f.name + "(" + Join(ParamDecls(f.params), ", ") + ") {\n";
        assert cCode == Signature(f) + " {\n";
      } else {
        cCode := "int " + f.name + "() {\n";
        assert cCode == Signature(f) + " {\n";
      }
      compiler.indentLevel := compiler.indentLevel + 1;
      var body := stmtCodegen.CompileBody(f.body);
      if body.Err? {
        return Err(body.error);
      }
      compiler.indentLevel := compiler.indentLevel - 1;
      cCode := cCode + body.value;
      cCode := cCode + "}\n";
      return Ok(cCode);
    }
  }

  class StatementCodegen {
    const compiler: CCompiler

    constructor (compiler: CCompiler)
      ensures this.compiler == compiler
    {
      this.compiler := compiler;
    }

    /** `compile_statement`: `None` for a statement it does not handle. */
    method CompileStatement(s: Stmt) returns (r: Result<Option<string>>)
      modifies compiler
      ensures r == TextOf(StmtCode(s, old(compiler.indentLevel), old(compiler.variables)))
      ensures r.Ok? ==> compiler.indentLevel == old(compiler.indentLevel)
      ensures r.Ok? ==> (compiler.variables ==
        TableAfter(StmtCode(s, old(compiler.indentLevel), old(compiler.variables)), old(compiler.variables)))
      decreases s, 3
    {
      match s
      case PrintStatement(_) =>
        var code := CompilePrint(s);
        if code.Err? { return Err(code.error); }
        return Ok(Some(code.value));
      case ReturnStatement(_) =>
        var code := CompileReturn(s);
        return if code.Some? then Ok(Some(code.value)) else Ok(None);
      case VarDeclaration(_, _, _) =>
        var code := CompileVarDeclaration(s);
        if code.Err? { return Err(code.error); }
        return Ok(Some(code.value));
      case CallStatement(_, _) =>
        var code := CompileCall(s);
        if code.Err? { return Err(code.error); }
        return Ok(Some(code.value));
      case IfStatement(_, _, _, _) =>
        var code := CompileIf(s);
        if code.Err? { return Err(code.error); }
        return Ok(Some(code.value));
      case Assignment(_, _) =>
        var code := CompileAssignment(s);
        if code.Err? { return Err(code.error); }
        return Ok(Some(code.value));
      case WhileStatement(_, _) =>
        var code := CompileWhile(s);
        if code.Err? { return Err(code.error); }
        return Ok(Some(code.value));
      case IncrementStatement(name) =>
        return Ok(Some(compiler.Indent() + name + "++;\n"));
      case DecrementStatement(name) =>
        return Ok(Some(compiler.Indent() + name + "--;\n"));
      case ArrayDeclaration(_, _, _) =>
        var code := CompileArrayDeclaration(s);
        if code.Err? { return Err(code.error); }
        return Ok(Some(code.value));
      case ArrayAssignment(_, _, _) =>
        var code := CompileArrayAssignment(s);
        if code.Err? { return Err(code.error); }
        return Ok(Some(code.value));
      case NoStatement =>
        return Ok(None);
    }

    /** The loop `for stmt in body: code += self.compile_statement(stmt)`
        that `compile_if`, `compile_while` and `compile_function` each run
        at the current level. */
    method CompileBody(body: seq<Stmt>) returns (r: Result<string>)
      modifies compiler
      ensures r == CodeOf(BlockFrom(body, 0, old(compiler.indentLevel), Emitted("", old(compiler.variables))))
      ensures r.Ok? ==> compiler.indentLevel == old(compiler.indentLevel)
      ensures r.Ok? ==> (compiler.variables ==
        BlockFrom(body, 0, old(compiler.indentLevel), Emitted("", old(compiler.variables))).value.vars)
      decreases body
    {
      ghost var level := compiler.indentLevel;
      ghost var spec := BlockFrom(body, 0, level, Emitted("", compiler.variables));
      var code := "";
      for i := 0 to |body|
        invariant compiler.indentLevel == level
        invariant BlockFrom(body, i, level, Emitted(code, compiler.variables)) == spec
      {
        var c := CompileStatement(body[i]);
        if c.Err? {
          return Err(c.error);
        }
        if c.value.None? {
          return Err(NoneConcatenation);
        }
        code := code + c.value.value;
      }
      return Ok(code);
    }

    /** `compile_print`: the operands' format pieces are joined and escaped,
        their arguments listed after it. */
    method CompilePrint(s: Stmt) returns (r: Result<string>)
      requires s.PrintStatement?
      ensures r == PrintCode(s.values, compiler.indentLevel, compiler.variables)
    {
      var values := s.values;
      var formatString := "";
      var printfArgs: seq<string> := [];
      for i := 0 to |values|
        invariant PrintParts(values[..i], compiler.variables) == Ok((formatString, printfArgs))
      {
        assert values[..i + 1][..i] == values[..i];
        var part := CompileOperand(values[i], printfArgs);
        if part.Err? {
          PrintPartsAppend(values[..i + 1], values[i + 1..], compiler.variables);
          assert values[..i + 1] + values[i + 1..] == values;
          return Err(part.error);
        }
        formatString := formatString + part.value.0;
        printfArgs := part.value.1;
      }
      assert values[..|values|] == values;
      var escapedString := ReplaceAll(formatString, "\\", "\\\\");
      escapedString := ReplaceAll(escapedString, "\n", "\\n");
      escapedString := ReplaceAll(escapedString, "\t", "\\t");
      escapedString := ReplaceAll(escapedString, "\r", "\\r");
      escapedString := ReplaceAll(escapedString, "\"", "\\\"");
      EscapeIsReplaceChain(formatString);
      if printfArgs != [] {
        var argsStr := Join(printfArgs, ", ");
        return Ok(compiler.Indent() + "printf(\"" + escapedString + "\", " + argsStr + ");\n");
      } else {
        return Ok(compiler.Indent() + "printf(\"" + escapedString + "\");\n");
      }
    }

    /** One iteration of `compile_print`'s loop: the format piece of `value`
        and `printfArgs` with its arguments appended. */
    method CompileOperand(value: Expr, printfArgs: seq<string>) returns (r: Result<(string, seq<string>)>)
      ensures r == (var p :- OperandParts(value, compiler.variables); Ok((p.0, printfArgs + p.1)))
    {
      match value
      case StringLiteral(stringValue) =>
        var varsInString := Markers(stringValue);
        var formatString := stringValue;
        var args := printfArgs;
        for j := 0 to |varsInString|
          invariant FillFrom(formatString, varsInString, j, compiler.variables, args)
                 == FillFrom(stringValue, varsInString, 0, compiler.variables, printfArgs)
        {
          var varName := varsInString[j];
          if varName in compiler.variables {
            var varType := compiler.variables[varName];
            if varType == "int" {
              formatString := ReplaceFirst(formatString, "*" + varName + "*", "%d");
            } else if varType == "float" {
              formatString := ReplaceFirst(formatString, "*" + varName + "*", "%f");
            } else if varType == "char" {
              formatString := ReplaceFirst(formatString, "*" + varName + "*", "%c");
            } else if varType == "string" {
              formatString := ReplaceFirst(formatString, "*" + varName + "*", "%s");
            }
            args := args + [varName];
          }
        }
        FillShift(stringValue, varsInString, 0, compiler.variables, printfArgs);
        return Ok((formatString, args));
      case NumberLiteral(n) =>
        return Ok(("%d", printfArgs + [NatToString(n)]));
      case FloatLiteral(lexeme) =>
        return Ok(("%f", printfArgs + [lexeme]));
      case Identifier(varName) =>
        if varName in compiler.variables {
          return Ok((SpecifierText(compiler.variables[varName]), printfArgs + [varName]));
        } else {
          return Ok(("%s", printfArgs + [varName]));
        }
      case ArrayAccess(arrayName, _) =>
        var arg := CompileExpr(value, None);
        if arg.Err? { return Err(arg.error); }
        if arrayName in compiler.variables {
          return Ok((SpecifierText(compiler.variables[arrayName]), printfArgs + [arg.value]));
        } else {
          return Ok(("%s", printfArgs + [arg.value]));
        }
      case BinaryOp(_, _, _) =>
        var arg := CompileExpr(value, None);
        if arg.Err? { return Err(arg.error); }
        return Ok(("%d", printfArgs + [arg.value]));
      case _ =>
        assert printfArgs + [] == printfArgs;
        return Ok(("", printfArgs));
    }

    /** `compile_return`. */
    method CompileReturn(s: Stmt) returns (r: Option<string>)
      requires s.ReturnStatement?
      ensures r == ReturnCode(s.result, compiler.indentLevel)
    {
      match s.result
      case Some(NumberLiteral(n)) => return Some(compiler.Indent() + "return " + NatToString(n) + ";\n");
      case Some(FloatLiteral(lexeme)) => return Some(compiler.Indent() + "return (int)" + lexeme + ";\n");
      case Some(StringLiteral(_)) => return Some(compiler.Indent() + "return 0;\n");
      case Some(Identifier(name)) => return Some(compiler.Indent() + "return " + name + ";\n");
      case _ => return None;
    }

    /** The read statements of `compile_var_declaration` and `compile_assignment`. */
    method ReadStatements(varType: string, varName: string, allocate: bool) returns (code: string)
      ensures code == ReadInput(varType, varName, compiler.Indent(), allocate)
    {
      var ind := compiler.Indent();
      if varType == "int" {
        code := ind + "scanf(\"%d\", &" + varName + ");\n";
      } else if varType == "float" {
        code := ind + "scanf(\"%f\", &" + varName + ");\n";
      } else if varType == "char" {
        code := ind + "scanf(\" %c\", &" + varName + ");\n";
      } else if varType == "string" {
        var allocation := "";
        if allocate {
          allocation := ind + varName + " = (char*)malloc(4096);\n";
        }
        code := allocation + ind + "fgets(" + varName + ", 4096, stdin);\n";
        code := code + ind + varName + "[strcspn(" + varName + ", \"\\n\")] = 0;\n";
      } else {
        code := "";
      }
    }

    /** `compile_var_declaration`: the type is recorded first. */
    method CompileVarDeclaration(s: Stmt) returns (r: Result<string>)
      requires s.VarDeclaration?
      modifies compiler`variables
      ensures r == CodeOf(VarDeclCode(s.varType, s.name, s.initial, compiler.indentLevel, old(compiler.variables)))
      ensures compiler.variables == old(compiler.variables)[s.name := s.varType]
    {
      var varType, varName, varValue := s.varType, s.name, s.initial;
      compiler.variables := compiler.variables[varName := varType];
      var cType := CType(varType);
      if varValue.Some? && varValue.value.InptCall? {
        var prompt := CompileExpr(varValue.value.prompt, None);
        if prompt.Err? { return Err(prompt.error); }
        var code := compiler.Indent() + cType + " " + varName + ";\n";
        code := code + compiler.Indent() + "printf(" + prompt.value + ");\n";
        var read := ReadStatements(varType, varName, true);
        code := code + read;
        return Ok(code);
      } else {
        var cValue := CompileValue(varValue, Some(varType));
        if cValue.Err? { return Err(cValue.error); }
        return Ok(compiler.Indent() + cType + " " + varName + " = " + cValue.value + ";\n");
      }
    }

    /** `compile_call`. */
    method CompileCall(s: Stmt) returns (r: Result<string>)
      requires s.CallStatement?
      ensures r == CallCode(s.funcName, s.arguments, compiler.indentLevel)
    {
      var arguments := s.arguments;
      if arguments != [] {
        var compiledArgs := CompileArguments(arguments, None);
        if compiledArgs.Err? { return Err(compiledArgs.error); }
        var argsStr := Join(compiledArgs.value, ", ");
        return Ok(compiler.Indent() + s.funcName + "(" + argsStr + ");\n");
      }
      return Ok(compiler.Indent() + s.funcName + "();\n");
    }

    /** The loop that compiles the arguments of a call or the elements of an
        array, in order, with the declared type `varType`. */
    method CompileArguments(es: seq<Expr>, varType: Option<string>) returns (r: Result<seq<string>>)
      ensures r == CompileEach(es, varType)
    {
      var compiled: seq<string> := [];
      assert es[0..] == es;
      if CompileEach(es, varType).Ok? {
        assert [] + CompileEach(es, varType).value == CompileEach(es, varType).value;
      }
      for i := 0 to |es|
        invariant CompileEach(es, varType) == Prepend(compiled, CompileEach(es[i..], varType))
      {
        assert es[i..][1..] == es[i + 1..];
        var c := CompileExpr(es[i], varType);
        if c.Err? {
          return Err(c.error);
        }
        var rest := CompileEach(es[i + 1..], varType);
        if rest.Ok? {
          assert compiled + ([c.value] + rest.value) == (compiled + [c.value]) + rest.value;
        }
        compiled := compiled + [c.value];
      }
      assert es[|es|..] == [];
      assert compiled + [] == compiled;
      return Ok(compiled);
    }

    /** `compile_if`: each body one level deeper, the level restored after it. */
    method CompileIf(s: Stmt) returns (r: Result<string>)
      requires s.IfStatement?
      modifies compiler
      ensures r == CodeOf(IfCode(s, old(compiler.indentLevel), old(compiler.variables)))
      ensures r.Ok? ==> compiler.indentLevel == old(compiler.indentLevel)
      ensures r.Ok? ==> compiler.variables == IfCode(s, old(compiler.indentLevel), old(compiler.variables)).value.vars
      decreases s, 2
    {
      ghost var level := compiler.indentLevel;
      var condition := CompileExpr(s.condition, None);
      if condition.Err? { return Err(condition.error); }
      var code := compiler.Indent() + "if (" + condition.value + ") {\n";
      compiler.indentLevel := compiler.indentLevel + 1;
      var ifBody := CompileBody(s.ifBody);
      if ifBody.Err? { return Err(ifBody.error); }
      code := code + ifBody.value;
      compiler.indentLevel := compiler.indentLevel - 1;
      code := code + compiler.Indent() + "}";
      var withElifs := CompileElifs(s, code);
      if withElifs.Err? { return Err(withElifs.error); }
      var withElse := CompileElse(s, withElifs.value);
      if withElse.Err? { return Err(withElse.error); }
      return Ok(withElse.value + "\n");
    }

    /** The `elif` loop of `compile_if`, after the text `code` of its `if` part. */
    method CompileElifs(s: Stmt, code: string) returns (r: Result<string>)
      requires s.IfStatement?
      modifies compiler
      ensures r == CodeOf(ElifsFrom(s.elifParts, 0, old(compiler.indentLevel), Emitted(code, old(compiler.variables))))
      ensures r.Ok? ==> compiler.indentLevel == old(compiler.indentLevel)
      ensures r.Ok? ==> (compiler.variables ==
        ElifsFrom(s.elifParts, 0, old(compiler.indentLevel), Emitted(code, old(compiler.variables))).value.vars)
      decreases s, 1
    {
      ghost var level := compiler.indentLevel;
      ghost var spec := ElifsFrom(s.elifParts, 0, level, Emitted(code, compiler.variables));
      var elifs := s.elifParts;
      var acc := code;
      for i := 0 to |elifs|
        invariant compiler.indentLevel == level
        invariant ElifsFrom(elifs, i, level, Emitted(acc, compiler.variables)) == spec
      {
        assert elifs[i] in s.elifParts;
        var elifCond := CompileExpr(elifs[i].condition, None);
        if elifCond.Err? { return Err(elifCond.error); }
        acc := acc + " else if (" + elifCond.value + ") {\n";
        compiler.indentLevel := compiler.indentLevel + 1;
        var elifBody := CompileBody(elifs[i].body);
        if elifBody.Err? { return Err(elifBody.error); }
        acc := acc + elifBody.value;
        compiler.indentLevel := compiler.indentLevel - 1;
        acc := acc + compiler.Indent() + "}";
      }
      return Ok(acc);
    }

    /** The `else` part of `compile_if`, after the text `code` of its `if` and `elif` parts. */
    method CompileElse(s: Stmt, code: string) returns (r: Result<string>)
      requires s.IfStatement?
      modifies compiler
      ensures r == CodeOf(ElseCode(s.elseBody, old(compiler.indentLevel), Emitted(code, old(compiler.variables))))
      ensures r.Ok? ==> compiler.indentLevel == old(compiler.indentLevel)
      ensures r.Ok? ==> (compiler.variables ==
        ElseCode(s.elseBody, old(compiler.indentLevel), Emitted(code, old(compiler.variables))).value.vars)
      decreases s, 1
    {
      if s.elseBody.ElseBlock? && s.elseBody.statements != [] {
        var acc := code + " else {\n";
        compiler.indentLevel := compiler.indentLevel + 1;
        var elseBody := CompileBody(s.elseBody.statements);
        if elseBody.Err? { return Err(elseBody.error); }
        acc := acc + elseBody.value;
        compiler.indentLevel := compiler.indentLevel - 1;
        return Ok(acc + compiler.Indent() + "}");
      }
      return Ok(code);
    }

    /** `compile_assignment`: the recorded type, `int` when there is none. */
    method CompileAssignment(s: Stmt) returns (r: Result<string>)
      requires s.Assignment?
      ensures r == AssignCode(s.name, s.value, compiler.indentLevel, compiler.variables)
    {
      var varName, varValue := s.name, s.value;
      var varType := if varName in compiler.variables then compiler.variables[varName] else "int";
      if varValue.InptCall? {
        var prompt := CompileExpr(varValue.prompt, None);
        if prompt.Err? { return Err(prompt.error); }
        var code := compiler.Indent() + "printf(" + prompt.value + ");\n";
        var read := ReadStatements(varType, varName, false);
        code := code + read;
        return Ok(code);
      } else {
        var cValue := CompileExpr(varValue, Some(varType));
        if cValue.Err? { return Err(cValue.error); }
        return Ok(compiler.Indent() + varName + " = " + cValue.value + ";\n");
      }
    }

    /** `compile_while`. */
    method CompileWhile(s: Stmt) returns (r: Result<string>)
      requires s.WhileStatement?
      modifies compiler
      ensures r == CodeOf(WhileCode(s, old(compiler.indentLevel), old(compiler.variables)))
      ensures r.Ok? ==> compiler.indentLevel == old(compiler.indentLevel)
      ensures r.Ok? ==> compiler.variables == WhileCode(s, old(compiler.indentLevel), old(compiler.variables)).value.vars
      decreases s, 2
    {
      var condition := CompileExpr(s.condition, None);
      if condition.Err? { return Err(condition.error); }
      var code := compiler.Indent() + "while (" + condition.value + ") {\n";
      compiler.indentLevel := compiler.indentLevel + 1;
      var body := CompileBody(s.body);
      if body.Err? { return Err(body.error); }
      code := code + body.value;
      compiler.indentLevel := compiler.indentLevel - 1;
      code := code + compiler.Indent() + "}\n";
      return Ok(code);
    }

    /** `compile_array_declaration`: the element type is recorded first. */
    method CompileArrayDeclaration(s: Stmt) returns (r: Result<string>)
      requires s.ArrayDeclaration?
      modifies compiler`variables
      ensures r == CodeOf(ArrayDeclCode(s.arrayType, s.name, s.elements, compiler.indentLevel, old(compiler.variables)))
      ensures compiler.variables == old(compiler.variables)[s.name := s.arrayType]
    {
      var arrayType, arrayName, elements := s.arrayType, s.name, s.elements;
      compiler.variables := compiler.variables[arrayName := arrayType];
      var cType := CType(arrayType);
      var arraySize := |elements|;
      var compiledElements := CompileArguments(elements, Some(arrayType));
      if compiledElements.Err? { return Err(compiledElements.error); }
      var elementsStr := Join(compiledElements.value, ", ");
      return Ok(compiler.Indent() + cType + " " + arrayName + "[" + NatToString(arraySize) + "] = {" + elementsStr + "};\n");
    }

    /** `compile_array_assignment`. */
    method CompileArrayAssignment(s: Stmt) returns (r: Result<string>)
      requires s.ArrayAssignment?
      ensures r == ArrayAssignCode(s.name, s.index, s.value, compiler.indentLevel)
    {
      var index := CompileExpr(s.index, None);
      if index.Err? { return Err(index.error); }
      var value := CompileExpr(s.value, None);
      if value.Err? { return Err(value.error); }
      return Ok(compiler.Indent() + s.name + "[" + index.value + "] = " + value.value + ";\n");
    }
  }
}
