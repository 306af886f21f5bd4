/** The Kato text generator (`kato/c2kato/generator/kato_generator.py`).

    The text of an expression, a statement, a function and a program are
    functions of the node and the indentation level; the generator object
    keeps that level in a field, raises it around each body and lowers it
    again afterwards, and its methods are proved to produce those texts. */
module KatoGenerator {
  import opened Base
  import opened Strings
  import opened KatoAst

  /** A condition loses one outer pair of parentheses: the text starts with
      `(` and ends with `)`. */
  function StripParens(s: string): string {
    if |s| >= 2 && s[0] == '(' && s[|s| - 1] == ')' then s[1..|s| - 1] else s
  }

  /** `generate_expression`. */
  function ExprText(e: Expr): string {
    match e
    case NumberLiteral(n) => NatToString(n)
    case FloatLiteral(lexeme) => lexeme
    case StringLiteral(value) => "\"" + value + "\""
    case CharLiteral(value) => "'" + value + "'"
    case Identifier(name) => name
    case BinaryOp(left, operator, right) =>
      StripParens(ExprText(left)) + " " + operator + " " + StripParens(ExprText(right))
    case ArrayAccess(name, index) => name + "[" + ExprText(index) + "]"
    case _ => "0"
  }

  function ExprTexts(es: seq<Expr>): (r: seq<string>)
    ensures |r| == |es|
    ensures forall k :: 0 <= k < |es| ==> r[k] == ExprText(es[k])
  {
    if es == [] then [] else [ExprText(es[0])] + ExprTexts(es[1..])
  }

  function ValueText(value: Option<Expr>): string {
    if value.Some? then ExprText(value.value) else "0"
  }

  /** The node kinds `generate_statement` writes. */
  predicate Written(s: Stmt) {
    !(s.CallStatement? || s.ArrayAssignment? || s.NoStatement?)
  }

  /** `generate_statement` at `level`: the indentation, the statement and a
      newline, or nothing for a node kind it does not handle. */
  function StatementText(s: Stmt, level: nat): (r: string)
    decreases s, 2
  {
    if Written(s) then Indentation(level) + Content(s, level) + "\n" else ""
  }

  /** The text of a statement between its indentation and its newline. */
  function Content(s: Stmt, level: nat): string
    decreases s, 1
  {
    match s
    case VarDeclaration(t, name, value) => "var " + t + " " + name + " = " + ValueText(value) + ";"
    case ArrayDeclaration(t, name, elements) => "mass " + t + " " + name + " = {" + Join(ExprTexts(elements), ", ") + "};"
    case Assignment(name, value) => name + " = " + ExprText(value) + ";"
    case IfStatement(condition, ifBody, _, elseBody) =>
      "if (" + StripParens(ExprText(condition)) + ") {\n" + BodyText(ifBody, level + 1) + Indentation(level) + "}" +
      ElseText(elseBody, level)
    case WhileStatement(condition, body) =>
      "while (" + StripParens(ExprText(condition)) + ") {\n" + BodyText(body, level + 1) + Indentation(level) + "}"
    case ReturnStatement(value) => "return " + ValueText(value) + ";"
    case IncrementStatement(name) => name + "++;"
    case DecrementStatement(name) => name + "--;"
    case PrintStatement(values) => "print(" + Join(ExprTexts(values), " ") + ");"
    case _ => ""
  }

  /** The statements of a body, one after the other. */
  function BodyText(body: seq<Stmt>, level: nat): (r: string)
    decreases body, 0
  {
    if body == [] then ""
    else BodyText(body[..|body| - 1], level) + StatementText(body[|body| - 1], level)
  }

  /** The else part: only a non-empty else body is written. */
  function ElseText(e: ElseClause, level: nat): string
    decreases e, 0
  {
    if e.ElseBlock? && e.statements != [] then
      " else {\n" + BodyText(e.statements, level + 1) + Indentation(level) + "}"
    else ""
  }

  /** `generate_function` at `level`: the header, the body one level deeper
      and the closing brace. */
  function FunctionText(f: Function, level: nat): string {
    "func " + f.name + "(" + Join(f.params, ", ") + ") {\n" + BodyText(f.body, level + 1) + "}\n"
  }

  /** The `code` list of `generate`: each function's text and an empty entry. */
  function ProgramLines(functions: seq<Function>, level: nat): (r: seq<string>)
    ensures |r| == 2 * |functions|
  {
    if functions == [] then []
    else ProgramLines(functions[..|functions| - 1], level) + [FunctionText(functions[|functions| - 1], level), ""]
  }

  function FunctionTexts(functions: seq<Function>, level: nat): (r: seq<string>)
    ensures |r| == |functions|
    ensures forall k :: 0 <= k < |functions| ==> r[k] == FunctionText(functions[k], level)
  {
    if functions == [] then [] else FunctionTexts(functions[..|functions| - 1], level) + [FunctionText(functions[|functions| - 1], level)]
  }

  class KatoGenerator {
    var indentLevel: nat

    constructor ()
      ensures indentLevel == 0
    {
      indentLevel := 0;
    }

    /** `indent`. */
    function Indent(): string
      reads this
    {
      Indentation(indentLevel)
    }

    /** `generate`: the functions' texts, each followed by an empty entry,
        joined by newlines. */
    method Generate(p: Program) returns (text: string)
      modifies this
      ensures text == Join(ProgramLines(p.functions, old(indentLevel)), "\n")
      ensures indentLevel == old(indentLevel)
    {
      var code: seq<string> := [];
      var i := 0;
      while i < |p.functions|
        invariant 0 <= i <= |p.functions|
        invariant indentLevel == old(indentLevel)
        invariant code == ProgramLines(p.functions[..i], old(indentLevel))
      {
        var f := GenerateFunction(p.functions[i]);
        code := code + [f, ""];
        assert p.functions[..i + 1][..i] == p.functions[..i];
        i := i + 1;
      }
      assert p.functions[..i] == p.functions;
      text := Join(code, "\n");
    }

    /** `generate_function`: the body one level deeper, skipping the
        statements without text; the level is restored. */
    method GenerateFunction(f: Function) returns (code: string)
      modifies this
      ensures code == FunctionText(f, old(indentLevel))
      ensures indentLevel == old(indentLevel)
    {
      var params := if f.params != [] then Join(f.params, ", ") else "";
      code := "func " + f.name + "(" + params + ") {\n";
      ghost var header := code;
      indentLevel := indentLevel + 1;
      var i := 0;
      while i < |f.body|
        invariant 0 <= i <= |f.body|
        invariant indentLevel == old(indentLevel) + 1
        invariant code == header + BodyText(f.body[..i], indentLevel)
      {
        var statement := GenerateStatement(f.body[i]);
        Associative(header, BodyText(f.body[..i], indentLevel), statement);
        if statement != "" {
          code := code + statement;
        }
        assert f.body[..i + 1][..i] == f.body[..i];
        i := i + 1;
      }
      assert f.body[..i] == f.body;
      assert header == "func " + f.name + "(" + Join(f.params, ", ") + ") {\n";
      indentLevel := indentLevel - 1;
      code := code + "}\n";
    }

    /** The loop `for s in body: code += self.generate_statement(s)` of the
        `if`, `else` and `while` cases, at the current level. */
    method GenerateBlock(body: seq<Stmt>) returns (code: string)
      modifies this
      ensures code == BodyText(body, old(indentLevel))
      ensures indentLevel == old(indentLevel)
      decreases body, 0
    {
      code := "";
      var i := 0;
      while i < |body|
        invariant 0 <= i <= |body|
        invariant indentLevel == old(indentLevel)
        invariant code == BodyText(body[..i], indentLevel)
      {
        var statement := GenerateStatement(body[i]);
        code := code + statement;
        assert body[..i + 1][..i] == body[..i];
        i := i + 1;
      }
      assert body[..i] == body;
    }

    /** `generate_statement`. */
    method GenerateStatement(s: Stmt) returns (code: string)
      modifies this
      ensures code == StatementText(s, old(indentLevel))
      ensures indentLevel == old(indentLevel)
      decreases s, 2
    {
      match s
      case IfStatement(_, _, _, _) =>
        code := GenerateIf(s);
      case WhileStatement(_, _) =>
        code := GenerateWhile(s);
      case VarDeclaration(t, name, value) =>
        var v := if value.Some? then ExprText(value.value) else "0";
        code := Indent() + ("var " + t + " " + name + " = " + v + ";") + "\n";
      case ArrayDeclaration(t, name, elements) =>
        var elementsText := Join(ExprTexts(elements), ", ");
        code := Indent() + ("mass " + t + " " + name + " = {" + elementsText + "};") + "\n";
      case Assignment(name, value) =>
        code := Indent() + (name + " = " + ExprText(value) + ";") + "\n";
      case ReturnStatement(value) =>
        var v := if value.Some? then ExprText(value.value) else "0";
        code := Indent() + ("return " + v + ";") + "\n";
      case IncrementStatement(name) =>
        code := Indent() + (name + "++;") + "\n";
      case DecrementStatement(name) =>
        code := Indent() + (name + "--;") + "\n";
      case PrintStatement(values) =>
        var valuesText := Join(ExprTexts(values), " ");
        code := Indent() + ("print(" + valuesText + ");") + "\n";
      case _ =>
        code := "";
    }

    /** The `if` case of `generate_statement`: the body one level deeper,
        then the else body, if any, one level deeper. */
    method GenerateIf(s: Stmt) returns (code: string)
      requires s.IfStatement?
      modifies this
      ensures code == StatementText(s, old(indentLevel))
      ensures indentLevel == old(indentLevel)
      decreases s, 1
    {
      var c := StripParens(ExprText(s.condition));
      indentLevel := indentLevel + 1;
      var inner := GenerateBlock(s.ifBody);
      indentLevel := indentLevel - 1;
      var otherwise := "";
      if s.elseBody.ElseBlock? && s.elseBody.statements != [] {
        indentLevel := indentLevel + 1;
        var elseInner := GenerateBlock(s.elseBody.statements);
        indentLevel := indentLevel - 1;
        otherwise := " else {\n" + elseInner + Indent() + "}";
      }
      assert otherwise == ElseText(s.elseBody, old(indentLevel));
      code := Indent() + ("if (" + c + ") {\n" + inner + Indent() + "}" + otherwise) + "\n";
    }

    /** The `while` case of `generate_statement`. */
    method GenerateWhile(s: Stmt) returns (code: string)
      requires s.WhileStatement?
      modifies this
      ensures code == StatementText(s, old(indentLevel))
      ensures indentLevel == old(indentLevel)
      decreases s, 1
    {
      var c := StripParens(ExprText(s.condition));
      indentLevel := indentLevel + 1;
      var inner := GenerateBlock(s.body);
      indentLevel := indentLevel - 1;
      code := Indent() + ("while (" + c + ") {\n" + inner + Indent() + "}") + "\n";
    }
  }

  // ---------------------------------------------------------------------
  // What the generated text promises

  /** `Join(a + [x])` adds the separator and `x`. */
  lemma {:induction false} JoinSnoc(a: seq<string>, x: string, sep: string)
    ensures Join(a + [x], sep) == if a == [] then x else Join(a, sep) + sep + x
  {
    if |a| > 1 {
      assert (a + [x])[1..] == a[1..] + [x];
      JoinSnoc(a[1..], x, sep);
    } else if |a| == 1 {
      assert (a + [x])[1..] == [x];
    }
  }

  /** The program text is the functions' texts separated by a blank line,
      with one newline after the last; an empty program gives nothing. */
  lemma {:induction false} ProgramTextShape(functions: seq<Function>, level: nat)
    ensures Join(ProgramLines(functions, level), "\n") ==
      if functions == [] then "" else Join(FunctionTexts(functions, level), "\n\n") + "\n"
    decreases |functions|
  {
    if functions != [] {
      var prefix := functions[..|functions| - 1];
      var last := FunctionText(functions[|functions| - 1], level);
      var lines := ProgramLines(prefix, level);
      var texts := FunctionTexts(prefix, level);
      assert ProgramLines(functions, level) == (lines + [last]) + [""];
      assert FunctionTexts(functions, level) == texts + [last];
      JoinSnoc(lines + [last], "", "\n");
      JoinSnoc(lines, last, "\n");
      JoinSnoc(texts, last, "\n\n");
      if prefix == [] {
        assert lines == [] && texts == [];
      } else {
        ProgramTextShape(prefix, level);
        var j := Join(texts, "\n\n");
        calc {
          Join(ProgramLines(functions, level), "\n");
          Join(lines + [last], "\n") + "\n" + "";
          { assert Join(lines + [last], "\n") + "\n" + "" == Join(lines + [last], "\n") + "\n"; }
          Join(lines, "\n") + "\n" + last + "\n";
          j + "\n" + "\n" + last + "\n";
          { Associative(j, "\n", "\n"); assert "\n" + "\n" == "\n\n"; }
          j + "\n\n" + last + "\n";
          Join(texts + [last], "\n\n") + "\n";
        }
      }
    }
  }

  /** A statement is written as whole lines: its text starts with the
      indentation of its level and ends with a newline, and only the node
      kinds the generator skips give no text. */
  lemma StatementLines(s: Stmt, level: nat)
    ensures StatementText(s, level) != "" <==> Written(s)
    ensures Written(s) ==>
      StartsWith(StatementText(s, level), Indentation(level)) && EndsWith(StatementText(s, level), "\n")
  {
    if Written(s) {
      var indent := Indentation(level);
      var t := StatementText(s, level);
      Associative(indent, Content(s, level), "\n");
      assert t[..|indent|] == indent;
      assert t[|t| - 1..] == "\n";
    }
  }

  /** The elif parts of an `if` are never written. */
  lemma ElifPartsIgnored(condition: Expr, body: seq<Stmt>, elifs1: seq<ElifPart>, elifs2: seq<ElifPart>, e: ElseClause, level: nat)
    ensures StatementText(IfStatement(condition, body, elifs1, e), level) ==
            StatementText(IfStatement(condition, body, elifs2, e), level)
  {
  }

  /** An empty else body is written like a missing one. */
  lemma EmptyElseOmitted(condition: Expr, body: seq<Stmt>, elifs: seq<ElifPart>, level: nat)
    ensures StatementText(IfStatement(condition, body, elifs, ElseBlock([])), level) ==
            StatementText(IfStatement(condition, body, elifs, NoElse), level)
  {
    assert ElseText(ElseBlock([]), level) == ElseText(NoElse, level);
  }

  /** A binary operation is written without parentheses, so grouping is
      lost: `(a - b) - c` and `a - (b - c)` give the same text. */
  lemma GroupingLost(a: string, b: string, c: string)
    requires a != [] && b != [] && c != []
    requires a[0] != '(' && b[0] != '(' && c[0] != '('
    ensures var left := BinaryOp(BinaryOp(Identifier(a), "-", Identifier(b)), "-", Identifier(c));
      var right := BinaryOp(Identifier(a), "-", BinaryOp(Identifier(b), "-", Identifier(c)));
      left != right && ExprText(left) == ExprText(right)
  {
    var s := " " + "-" + " ";
    var ab := a + s + b;
    var bc := b + s + c;
    assert ExprText(BinaryOp(Identifier(a), "-", Identifier(b))) == ab;
    assert ExprText(BinaryOp(Identifier(b), "-", Identifier(c))) == bc;
    assert ab[0] == a[0];
    assert bc[0] == b[0];
    Associative(a + s, b, s);
    Associative(a + s, b + s, c);
    Associative(b, s, c);
    assert ab + s + c == a + s + bc;
  }

  /** Names and lexemes that do not start with `(`. */
  predicate Plain(e: Expr) {
    match e
    case Identifier(name) => name == [] || name[0] != '('
    case FloatLiteral(lexeme) => lexeme == [] || lexeme[0] != '('
    case ArrayAccess(name, _) => name == [] || name[0] != '('
    case BinaryOp(left, _, _) => Plain(left)
    case _ => true
  }

  /** The text of an expression with plain names does not start with `(`,
      so the outer-parenthesis strip leaves such a condition unchanged. */
  lemma {:induction false} PlainTextUnstripped(e: Expr)
    requires Plain(e)
    ensures ExprText(e) == [] || ExprText(e)[0] != '('
    ensures StripParens(ExprText(e)) == ExprText(e)
  {
    match e
    case BinaryOp(left, operator, right) =>
      PlainTextUnstripped(left);
      var l := ExprText(left);
      var t := l + " ";
      Head(l, " ");
      Head(t, operator);
      Head(t + operator, " ");
      Head(t + operator + " ", StripParens(ExprText(right)));
    case ArrayAccess(name, index) =>
      Head(name, "[");
      Head(name + "[", ExprText(index));
      Head(name + "[" + ExprText(index), "]");
    case StringLiteral(value) =>
      Head("\"", value);
      Head("\"" + value, "\"");
    case CharLiteral(value) =>
      Head("'", value);
      Head("'" + value, "'");
    case NumberLiteral(n) =>
    case FloatLiteral(_) =>
    case Identifier(_) =>
    case InptCall(_) =>
    case FunctionCall(_, _) =>
  }

  /** The first character of a concatenation. */
  lemma Head(a: string, b: string)
    ensures a + b != [] ==> (a + b)[0] == if a != [] then a[0] else b[0]
  {
  }

  /** `strip` of a parenthesised text gives the text inside. */
  lemma StripOuter(t: string)
    ensures StripParens("(" + t + ")") == t
  {
    var s := "(" + t + ")";
    assert s[1..|s| - 1] == t;
  }
}
