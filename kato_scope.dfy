/** What a parsed statement declares, writes and calls, and the scope rules
    the Kato statement parser enforces (`kato/parser/statement_parser.py`):
    a variable is declared at most once per function, only defined variables
    are assigned, incremented or decremented, and only defined functions or
    builtins are called. */
module KatoScope {
  import opened Base
  import opened KatoTokens
  import opened KatoAst
  import opened KatoCursor
  import opened KatoExprParser
  import opened KatoStmtParser

  /** The variables a piece of code declares, in order, and the variables
      it writes and the functions it calls. */
  datatype Effects = Effects(declared: seq<string>, writes: set<string>, called: set<string>)

  const NoEffects := Effects([], {}, {})

  function Then(a: Effects, b: Effects): Effects {
    Effects(a.declared + b.declared, a.writes + b.writes, a.called + b.called)
  }

  function EffectsOf(s: Stmt): Effects
    decreases s, 1
  {
    match s
    case VarDeclaration(_, name, _) => Effects([name], {}, {})
    case ArrayDeclaration(_, name, _) => Effects([name], {}, {})
    case CallStatement(name, _) => Effects([], {}, {name})
    case Assignment(name, _) => Effects([], {name}, {})
    case ArrayAssignment(name, _, _) => Effects([], {name}, {})
    case IncrementStatement(name) => Effects([], {name}, {})
    case DecrementStatement(name) => Effects([], {name}, {})
    case IfStatement(_, ifBody, elifs, elseBody) =>
      Then(Then(EffectsOfAll(ifBody), EffectsOfElifs(elifs)), EffectsOfElse(elseBody))
    case WhileStatement(_, body) => EffectsOfAll(body)
    case _ => NoEffects
  }

  function EffectsOfAll(ss: seq<Stmt>): Effects
    decreases ss, 0
  {
    if ss == [] then NoEffects
    else Then(EffectsOfAll(ss[..|ss| - 1]), EffectsOf(ss[|ss| - 1]))
  }

  function EffectsOfElifs(es: seq<ElifPart>): Effects
    decreases es, 0
  {
    if es == [] then NoEffects
    else Then(EffectsOfElifs(es[..|es| - 1]), EffectsOfAll(es[|es| - 1].body))
  }

  function EffectsOfElse(e: ElseClause): Effects
    decreases e, 0
  {
    match e
    case ElseBlock(body) => EffectsOfAll(body)
    case NoElse => NoEffects
  }

  function Names(xs: seq<string>): set<string> {
    set x | x in xs
  }

  predicate Distinct(xs: seq<string>) {
    forall i, j | 0 <= i < j < |xs| :: xs[i] != xs[j]
  }

  /** Code with effects `e`, parsed with the variables `before` defined and
      the functions `funcs` known, leaves exactly `after` defined: it declares
      only fresh names, each once, writes only defined variables and calls
      only known functions. */
  predicate Obeys(e: Effects, funcs: set<string>, before: set<string>, after: set<string>) {
    && Distinct(e.declared)
    && Names(e.declared) !! before
    && after == before + Names(e.declared)
    && e.writes <= after
    && e.called <= funcs + Builtins
  }

  lemma NamesAppend(a: seq<string>, b: seq<string>)
    ensures Names(a + b) == Names(a) + Names(b)
  {
    assert forall x :: x in a + b <==> x in a || x in b;
  }

  lemma {:induction false} ObeysThen(a: Effects, b: Effects, funcs: set<string>, v0: set<string>, v1: set<string>, v2: set<string>)
    requires Obeys(a, funcs, v0, v1) && Obeys(b, funcs, v1, v2)
    ensures Obeys(Then(a, b), funcs, v0, v2)
  {
    NamesAppend(a.declared, b.declared);
    var d := a.declared + b.declared;
    forall i, j | 0 <= i < j < |d|
      ensures d[i] != d[j]
    {
      if j < |a.declared| {
      } else if i >= |a.declared| {
        assert d[i] == b.declared[i - |a.declared|] && d[j] == b.declared[j - |a.declared|];
      } else {
        assert d[i] in Names(a.declared) && d[j] in Names(b.declared);
      }
    }
  }

  lemma ObeysNothing(funcs: set<string>, vars: set<string>)
    ensures Obeys(NoEffects, funcs, vars, vars)
  {
    assert Names([]) == {};
  }

  lemma EffectsOfAppend(ss: seq<Stmt>, s: Stmt)
    ensures EffectsOfAll(ss + [s]) == Then(EffectsOfAll(ss), EffectsOf(s))
  {
    assert (ss + [s])[..|ss|] == ss;
  }

  lemma EffectsOfElifsAppend(es: seq<ElifPart>, e: ElifPart)
    ensures EffectsOfElifs(es + [e]) == Then(EffectsOfElifs(es), EffectsOfAll(e.body))
  {
    assert (es + [e])[..|es|] == es;
  }

  /** The scope rules hold of every statement the parser accepts. */
  lemma {:induction false} StatementObeys(tokens: seq<Token>, funcs: set<string>, p: nat, vars: set<string>)
    requires p <= |tokens| && WellFormed(tokens)
    ensures var r := Statement(tokens, funcs, p, vars);
      r.Ok? ==> Obeys(EffectsOf(r.value.node), funcs, vars, r.value.vars)
    decreases |tokens| - p, 2
  {
    if p < |tokens| {
      var k := tokens[p].kind;
      if k.If? {
        assert Statement(tokens, funcs, p, vars) == IfStmt(tokens, funcs, p, vars);
        IfObeys(tokens, funcs, p, vars);
      } else if k.While? {
        assert Statement(tokens, funcs, p, vars) == WhileStmt(tokens, funcs, p, vars);
        WhileObeys(tokens, funcs, p, vars);
      } else {
        FlatStatementObeys(tokens, funcs, p, vars);
      }
    }
  }

  /** A statement without a body obeys the scope rules: a declaration
      defines its new name, every other one defines nothing. */
  lemma FlatStatementObeys(tokens: seq<Token>, funcs: set<string>, p: nat, vars: set<string>)
    requires p < |tokens| && WellFormed(tokens) && !tokens[p].kind.If? && !tokens[p].kind.While?
    ensures var r := Statement(tokens, funcs, p, vars);
      r.Ok? ==> Obeys(EffectsOf(r.value.node), funcs, vars, r.value.vars)
  {
    var r := Statement(tokens, funcs, p, vars);
    if tokens[p].kind.Var? {
      assert r == VarDecl(tokens, p, vars);
      VarObeys(tokens, p, vars, funcs);
    } else if r.Ok? {
      assert r.value.vars == vars;
      SimpleObeys(r.value.node, funcs, vars);
    }
  }

  /** `var`: the one name it declares is new, and it is added to the scope. */
  lemma VarObeys(tokens: seq<Token>, p: nat, vars: set<string>, funcs: set<string>)
    requires p < |tokens| && WellFormed(tokens) && tokens[p].kind.Var?
    ensures var r := VarDecl(tokens, p, vars);
      r.Ok? ==> Obeys(EffectsOf(r.value.node), funcs, vars, r.value.vars)
  {
    var r := VarDecl(tokens, p, vars);
    if r.Ok? {
      var name := r.value.node.name;
      assert Names([name]) == {name};
    }
  }

  /** A statement that declares nothing and whose names the parser checked. */
  lemma SimpleObeys(s: Stmt, funcs: set<string>, vars: set<string>)
    requires s.PrintStatement? || s.ReturnStatement? || s.CallStatement? || s.Assignment?
      || s.IncrementStatement? || s.DecrementStatement?
    requires s.CallStatement? ==> s.funcName in funcs + Builtins
    requires s.Assignment? || s.IncrementStatement? || s.DecrementStatement? ==> s.name in vars
    ensures Obeys(EffectsOf(s), funcs, vars, vars)
  {
    assert Names([]) == {};
  }

  lemma {:induction false} IfObeys(tokens: seq<Token>, funcs: set<string>, p: nat, vars: set<string>)
    requires p < |tokens| && WellFormed(tokens) && tokens[p].kind.If?
    ensures var r := IfStmt(tokens, funcs, p, vars);
      r.Ok? ==> Obeys(EffectsOf(r.value.node), funcs, vars, r.value.vars)
    decreases |tokens| - p, 1
  {
    var r := IfStmt(tokens, funcs, p, vars);
    if r.Ok? {
      var head := GuardedBody(tokens, funcs, p + 1, vars).value;
      GuardedObeys(tokens, funcs, p + 1, vars);
      IfRestObeys(tokens, funcs, head.pos, head.vars, head.node.0, head.node.1, vars);
    }
  }

  /** The `elif` and `else` parts after a body that obeys the scope rules
      complete an `if` statement that obeys them. */
  lemma {:induction false} IfRestObeys(tokens: seq<Token>, funcs: set<string>, p: nat, vars: set<string>,
                                       condition: Expr, body: seq<Stmt>, v0: set<string>)
    requires p <= |tokens| && WellFormed(tokens)
    requires Obeys(EffectsOfAll(body), funcs, v0, vars)
    ensures var r := IfRest(tokens, funcs, p, vars, condition, body);
      r.Ok? ==> Obeys(EffectsOf(r.value.node), funcs, v0, r.value.vars)
    decreases |tokens| - p, 2
  {
    var r := IfRest(tokens, funcs, p, vars, condition, body);
    if r.Ok? {
      var elifs := Elifs(tokens, funcs, p, vars, []).value;
      var otherwise := ElsePart(tokens, funcs, elifs.pos, elifs.vars).value;
      ObeysNothing(funcs, vars);
      ElifsObeys(tokens, funcs, p, vars, [], vars);
      ElseObeys(tokens, funcs, elifs.pos, elifs.vars);
      IfPartsObey(condition, body, elifs.node, otherwise.node, funcs, v0, vars, elifs.vars, otherwise.vars);
    }
  }

  /** An `if` statement obeys the scope rules when its body, its `elif`
      parts and its `else` part do, one after the other. */
  lemma IfPartsObey(condition: Expr, body: seq<Stmt>, elifs: seq<ElifPart>, otherwise: ElseClause,
                    funcs: set<string>, v0: set<string>, v1: set<string>, v2: set<string>, v3: set<string>)
    requires Obeys(EffectsOfAll(body), funcs, v0, v1)
    requires Obeys(EffectsOfElifs(elifs), funcs, v1, v2)
    requires Obeys(EffectsOfElse(otherwise), funcs, v2, v3)
    ensures Obeys(EffectsOf(IfStatement(condition, body, elifs, otherwise)), funcs, v0, v3)
  {
    ObeysThen(EffectsOfAll(body), EffectsOfElifs(elifs), funcs, v0, v1, v2);
    ObeysThen(Then(EffectsOfAll(body), EffectsOfElifs(elifs)), EffectsOfElse(otherwise), funcs, v0, v2, v3);
  }

  /** The body after a condition obeys the scope rules. */
  lemma GuardedObeys(tokens: seq<Token>, funcs: set<string>, p: nat, vars: set<string>)
    requires p <= |tokens| && WellFormed(tokens)
    ensures var r := GuardedBody(tokens, funcs, p, vars);
      r.Ok? ==> Obeys(EffectsOfAll(r.value.node.1), funcs, vars, r.value.vars)
    decreases |tokens| - p, 0
  {
    var r := GuardedBody(tokens, funcs, p, vars);
    if r.Ok? {
      var cond := Comparison(tokens, p).value;
      var open := ExpectAt(tokens, cond.1, LBrace).value;
      BodyObeys(tokens, funcs, open.1, vars);
    }
  }

  /** Appending one `elif` part keeps the scope rules of the chain. */
  lemma ElifObeys(acc: seq<ElifPart>, part: ElifPart, funcs: set<string>, v0: set<string>, vars: set<string>, after: set<string>)
    requires Obeys(EffectsOfElifs(acc), funcs, v0, vars)
    requires Obeys(EffectsOfAll(part.body), funcs, vars, after)
    ensures Obeys(EffectsOfElifs(acc + [part]), funcs, v0, after)
  {
    EffectsOfElifsAppend(acc, part);
    ObeysThen(EffectsOfElifs(acc), EffectsOfAll(part.body), funcs, v0, vars, after);
  }

  lemma {:induction false} ElifsObeys(tokens: seq<Token>, funcs: set<string>, p: nat, vars: set<string>, acc: seq<ElifPart>, v0: set<string>)
    requires p <= |tokens| && WellFormed(tokens)
    requires Obeys(EffectsOfElifs(acc), funcs, v0, vars)
    ensures var r := Elifs(tokens, funcs, p, vars, acc);
      r.Ok? ==> Obeys(EffectsOfElifs(r.value.node), funcs, v0, r.value.vars)
    decreases |tokens| - p, 1
  {
    ElifsStep(tokens, funcs, p, vars, acc);
    if KindIs(tokens, p, Elif) {
      ElifObeysOnward(tokens, funcs, p, vars, acc, v0);
    }
  }

  /** The induction step of `ElifsObeys`, at an `elif` token. */
  lemma {:induction false} ElifObeysOnward(tokens: seq<Token>, funcs: set<string>, p: nat, vars: set<string>, acc: seq<ElifPart>, v0: set<string>)
    requires p < |tokens| && WellFormed(tokens) && tokens[p].kind.Elif?
    requires Obeys(EffectsOfElifs(acc), funcs, v0, vars)
    ensures var r := Elifs(tokens, funcs, p, vars, acc);
      r.Ok? ==> Obeys(EffectsOfElifs(r.value.node), funcs, v0, r.value.vars)
    decreases |tokens| - p, 0
  {
    ElifsStep(tokens, funcs, p, vars, acc);
    var g := GuardedBody(tokens, funcs, p + 1, vars);
    if g.Ok? {
      var body := g.value;
      GuardedObeys(tokens, funcs, p + 1, vars);
      var part := ElifPart(body.node.0, body.node.1);
      ElifObeys(acc, part, funcs, v0, vars, body.vars);
      ElifsObeys(tokens, funcs, body.pos, body.vars, acc + [part], v0);
    }
  }

  lemma {:induction false} ElseObeys(tokens: seq<Token>, funcs: set<string>, p: nat, vars: set<string>)
    requires p <= |tokens| && WellFormed(tokens)
    ensures var r := ElsePart(tokens, funcs, p, vars);
      r.Ok? ==> Obeys(EffectsOfElse(r.value.node), funcs, vars, r.value.vars)
    decreases |tokens| - p, 0
  {
    var r := ElsePart(tokens, funcs, p, vars);
    if r.Ok? {
      if KindIs(tokens, p, Else) {
        var body := Body(tokens, funcs, p + 2, vars).value;
        assert r.value == Parsed(ElseBlock(body.node), body.pos, body.vars);
        BodyObeys(tokens, funcs, p + 2, vars);
      } else {
        ObeysNothing(funcs, vars);
      }
    }
  }

  lemma {:induction false} WhileObeys(tokens: seq<Token>, funcs: set<string>, p: nat, vars: set<string>)
    requires p < |tokens| && WellFormed(tokens) && tokens[p].kind.While?
    ensures var r := WhileStmt(tokens, funcs, p, vars);
      r.Ok? ==> Obeys(EffectsOf(r.value.node), funcs, vars, r.value.vars)
    decreases |tokens| - p, 1
  {
    var r := WhileStmt(tokens, funcs, p, vars);
    if r.Ok? {
      var head := WhileHead(tokens, p).value;
      var body := Body(tokens, funcs, head.1, vars).value;
      assert r.value == Parsed(WhileStatement(head.0, body.node), body.pos, body.vars);
      assert EffectsOf(r.value.node) == EffectsOfAll(body.node);
      BodyObeys(tokens, funcs, head.1, vars);
    }
  }

  lemma {:induction false} BodyObeys(tokens: seq<Token>, funcs: set<string>, p: nat, vars: set<string>)
    requires p <= |tokens| && WellFormed(tokens)
    ensures var r := Body(tokens, funcs, p, vars);
      r.Ok? ==> Obeys(EffectsOfAll(r.value.node), funcs, vars, r.value.vars)
    decreases |tokens| - p, 4
  {
    ObeysNothing(funcs, vars);
    BlockObeys(tokens, funcs, p, vars, [], vars);
  }

  lemma {:induction false} BlockObeys(tokens: seq<Token>, funcs: set<string>, p: nat, vars: set<string>, acc: seq<Stmt>, v0: set<string>)
    requires p <= |tokens| && WellFormed(tokens)
    requires Obeys(EffectsOfAll(acc), funcs, v0, vars)
    ensures var r := Block(tokens, funcs, p, vars, acc);
      r.Ok? ==> Obeys(EffectsOfAll(r.value.node), funcs, v0, r.value.vars)
    decreases |tokens| - p, 3
  {
    var r := Block(tokens, funcs, p, vars, acc);
    if r.Ok? && p < |tokens| && !tokens[p].kind.RBrace? {
      var s := Statement(tokens, funcs, p, vars).value;
      StatementObeys(tokens, funcs, p, vars);
      EffectsOfAppend(acc, s.node);
      ObeysThen(EffectsOfAll(acc), EffectsOf(s.node), funcs, v0, vars, s.vars);
      BlockObeys(tokens, funcs, s.pos, s.vars, acc + [s.node], v0);
    }
  }
}
