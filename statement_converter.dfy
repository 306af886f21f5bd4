/** The conversion of C statements to Kato statements
    (`kato/c2kato/converter/statement_converter.py`).

    The C parser writes an element assignment's target as the text
    `name[index]`, where the index is printed by the C node's `str`; that
    printing is a parameter `show` here. */
module StatementConverter {
  import opened Base
  import opened Strings
  import opened CAst
  import opened KatoAst
  import opened TypeMapper
  import opened ExpressionConverter
  import opened PrintfConverter

  /** The target text of an assignment. */
  function TargetName(target: CTarget, show: CExpr -> string): string {
    match target
    case Variable(name) => name
    case Element(name, index) => name + "[" + show(index) + "]"
  }

  /** `[convert_expression(e) for e in es]`. */
  function ConvertAll(es: seq<CExpr>): (r: seq<Expr>)
    ensures |r| == |es|
    ensures forall k :: 0 <= k < |es| ==> r[k] == ConvertExpression(es[k])
  {
    if es == [] then [] else [ConvertExpression(es[0])] + ConvertAll(es[1..])
  }

  function ConvertOption(e: Option<CExpr>): (r: Option<Expr>)
    ensures r.Some? <==> e.Some?
    ensures r.Some? ==> r.value == ConvertExpression(e.value)
  {
    if e.Some? then Some(ConvertExpression(e.value)) else None
  }

  /** `convert_statement`.  `NoStatement` is the `None` it returns for a
      skipped statement and for an expression statement that neither
      increments nor decrements. */
  function ConvertStatement(s: CStmt, show: CExpr -> string): (r: Stmt)
    ensures r.PrintStatement? <==> s.CCallStatement? && s.callee == "printf"
    ensures r.CallStatement? <==> s.CCallStatement? && s.callee != "printf"
    ensures r.IfStatement? <==> s.CIfStatement?
    ensures r.WhileStatement? <==> s.CWhileStatement? || s.CForStatement?
    ensures r.VarDeclaration? <==> s.CVarDeclaration?
    ensures r.ArrayDeclaration? <==> s.CArrayDeclaration?
    ensures r.Assignment? <==> s.CAssignment?
    ensures r.ReturnStatement? <==> s.CReturnStatement?
    ensures r.IncrementStatement? <==> s.CExpressionStatement? && Contains(s.expression, "++")
    ensures r.DecrementStatement? <==>
      s.CExpressionStatement? && !Contains(s.expression, "++") && Contains(s.expression, "--")
    ensures !r.ArrayAssignment?
    ensures r.IfStatement? ==> r.elifParts == []
    ensures r.VarDeclaration? ==> IsKatoType(r.varType)
    ensures r.ArrayDeclaration? ==> IsKatoType(r.arrayType)
    decreases s, 1
  {
    match s
    case CNoStatement => NoStatement
    case CCallStatement(callee, args) =>
      if callee == "printf" then PrintStatement(PrintValues(ConvertAll(args)))
      else CallStatement(callee, ConvertAll(args))
    case CVarDeclaration(t, name, initial) =>
      VarDeclaration(MapCTypeToKato(t), name, ConvertOption(initial))
    case CArrayDeclaration(t, name, _, values) =>
      ArrayDeclaration(MapCTypeToKato(t), name, if values.Some? then ConvertAll(values.value) else [])
    case CAssignment(target, value) =>
      Assignment(TargetName(target, show), ConvertExpression(value))
    case CIfStatement(condition, ifBody, elseBody) =>
      IfStatement(ConvertExpression(condition), ConvertBody(ifBody, show), [], ConvertElse(elseBody, show))
    case CWhileStatement(condition, body) =>
      WhileStatement(ConvertExpression(condition), ConvertBody(body, show))
    case CForStatement(init, condition, _, body) =>
      var first := ConvertStatement(init, show);
      WhileStatement(ConvertExpression(condition), (if first.NoStatement? then [] else [first]) + ConvertBody(body, show))
    case CReturnStatement(value) => ReturnStatement(ConvertOption(value))
    case CExpressionStatement(text) =>
      if Contains(text, "++") then IncrementStatement(ReplaceAll(text, "++", ""))
      else if Contains(text, "--") then DecrementStatement(ReplaceAll(text, "--", ""))
      else NoStatement
  }

  /** `[convert_statement(s) for s in body if s]`: the skipped statements
      are left out before converting; a statement that converts to `None`
      stays. */
  function ConvertBody(body: seq<CStmt>, show: CExpr -> string): (r: seq<Stmt>)
    ensures |r| == |WithoutSkipped(body)|
    decreases body, 0
  {
    if body == [] then []
    else
      var last := body[|body| - 1];
      ConvertBody(body[..|body| - 1], show) + (if last.CNoStatement? then [] else [ConvertStatement(last, show)])
  }

  /** A converted body is the kept statements, each converted, in order. */
  lemma {:induction false} ConvertBodyKeeps(body: seq<CStmt>, show: CExpr -> string)
    ensures forall k :: 0 <= k < |WithoutSkipped(body)| ==>
      ConvertBody(body, show)[k] == ConvertStatement(WithoutSkipped(body)[k], show)
  {
    if body != [] {
      ConvertBodyKeeps(body[..|body| - 1], show);
    }
  }

  /** The else part: a missing or empty else body gives none. */
  function ConvertElse(e: CElse, show: CExpr -> string): (r: ElseClause)
    ensures r.ElseBlock? <==> e.CElseBlock? && e.statements != []
    decreases e, 0
  {
    match e
    case CNoElse => NoElse
    case CElseBlock(statements) =>
      if statements == [] then NoElse else ElseBlock(ConvertBody(statements, show))
  }

  /** The increment of a `for` loop is never used: two loops that differ
      only in it convert alike. */
  lemma ForIncrementIgnored(init: CStmt, condition: CExpr, step1: CExpr, step2: CExpr, body: seq<CStmt>, show: CExpr -> string)
    ensures ConvertStatement(CForStatement(init, condition, step1, body), show) ==
            ConvertStatement(CForStatement(init, condition, step2, body), show)
  {
  }

  /** Removing every `sub` from a name that holds no character of it
      followed by one occurrence gives the name back. */
  lemma {:induction false} RemoveSuffix(name: string, sub: string)
    requires |sub| == 2 && sub[0] == sub[1]
    requires forall k :: 0 <= k < |name| ==> name[k] != sub[0]
    ensures ReplaceAll(name + sub, sub, "") == name
  {
    var s := name + sub;
    if name == [] {
      assert s[..2] == sub;
      assert s[2..] == [];
    } else {
      assert s[..2] != sub by { assert s[0] == name[0]; }
      assert s[1..] == name[1..] + sub;
      RemoveSuffix(name[1..], sub);
    }
  }

  /** A name without the character `c` holds no `cc`. */
  lemma NoDoubled(s: string, c: char)
    requires forall k :: 0 <= k < |s| ==> s[k] != c
    ensures !Contains(s, [c, c])
  {
    var r := IndexOf(s, [c, c], 0);
    if r.Some? {
      OccursHead(s, [c, c], r.value);
    }
  }

  lemma OccursHead(s: string, sub: string, j: nat)
    requires |sub| > 0 && OccursAt(s, sub, j)
    ensures s[j] == sub[0]
  {
    assert s[j] == s[j..j + |sub|][0];
  }

  /** The `name++` and `name--` statements the C parser builds become an
      increment or a decrement of the same variable. */
  lemma StepStatements(name: string, show: CExpr -> string)
    requires forall k :: 0 <= k < |name| ==> name[k] != '+' && name[k] != '-'
    ensures ConvertStatement(CExpressionStatement(name + "++"), show) == IncrementStatement(name)
    ensures ConvertStatement(CExpressionStatement(name + "--"), show) == DecrementStatement(name)
  {
    RemoveSuffix(name, "++");
    RemoveSuffix(name, "--");
    assert OccursAt(name + "++", "++", |name|);
    assert OccursAt(name + "--", "--", |name|);
    var minus := name + "--";
    assert forall k :: 0 <= k < |minus| ==> minus[k] != '+' by {
      forall k | 0 <= k < |minus| ensures minus[k] != '+' {
        if k >= |name| { assert minus[k] == '-'; }
      }
    }
    NoDoubled(minus, '+');
  }

  /** A body's statements come out in order: converting a body built from
      two parts converts each part. */
  lemma {:induction false} ConvertBodyAppend(a: seq<CStmt>, b: seq<CStmt>, show: CExpr -> string)
    ensures ConvertBody(a + b, show) == ConvertBody(a, show) + ConvertBody(b, show)
    decreases |b|
  {
    if b == [] {
      assert a + b == a;
    } else {
      var b' := b[..|b| - 1];
      assert (a + b)[..|a + b| - 1] == a + b';
      assert (a + b)[|a + b| - 1] == b[|b| - 1];
      ConvertBodyAppend(a, b', show);
    }
  }
}
