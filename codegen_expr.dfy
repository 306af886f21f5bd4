/** C text of Kato expressions (`kato/compiler/codegen/expressions.py`).

    `compile_expr` reads no compiler state, so it is a function of the
    expression and of the declared type `varType` (Python `None` is `None`
    here) that selects how `inpt(...)` reads its value. */
module ExpressionCodegen {
  import opened Base
  import opened Strings
  import opened TokenValues
  import opened KatoTokens
  import opened KatoAst
  import opened TextScan
  import opened KatoLexer

  // ---------------------------------------------------------------------
  // String literals

  /** One character of a string literal as C text. */
  function EscapeChar(c: char): string {
    if c == '\\' then "\\\\"
    else if c == '\n' then "\\n"
    else if c == '\t' then "\\t"
    else if c == '\r' then "\\r"
    else if c == '"' then "\\\""
    else [c]
  }

  /** The text of a string literal between its double quotes. */
  function Escape(s: string): string {
    if s == [] then [] else EscapeChar(s[0]) + Escape(s[1..])
  }

  /** The five `replace` calls in their source order: backslash first, then
      newline, tab, carriage return and double quote. */
  function ReplaceChain(s: string): string {
    var s1 := ReplaceAll(s, "\\", "\\\\");
    var s2 := ReplaceAll(s1, "\n", "\\n");
    var s3 := ReplaceAll(s2, "\t", "\\t");
    var s4 := ReplaceAll(s3, "\r", "\\r");
    ReplaceAll(s4, "\"", "\\\"")
  }

  /** Replacing every occurrence of one character, character by character. */
  function ReplaceEach(s: string, c: char, r: string): string {
    if s == [] then [] else (if s[0] == c then r else [s[0]]) + ReplaceEach(s[1..], c, r)
  }

  /** `replace` of a one-character pattern rewrites each character on its own. */
  lemma {:induction false} ReplaceAllOneChar(s: string, c: char, r: string)
    ensures ReplaceAll(s, [c], r) == ReplaceEach(s, c, r)
  {
    if s != [] {
      ReplaceAllOneChar(s[1..], c, r);
      assert s[..1] == [s[0]];
    }
  }

  lemma {:induction false} ReplaceEachAppend(a: string, b: string, c: char, r: string)
    ensures ReplaceEach(a + b, c, r) == ReplaceEach(a, c, r) + ReplaceEach(b, c, r)
  {
    if a == [] {
      assert a + b == b;
    } else {
      ReplaceEachAppend(a[1..], b, c, r);
      assert (a + b)[1..] == a[1..] + b;
      assert (a + b)[0] == a[0];
      Associative(if a[0] == c then r else [a[0]], ReplaceEach(a[1..], c, r), ReplaceEach(b, c, r));
    }
  }

  /** The five replacements, character by character. */
  function EachChain(s: string): string {
    ReplaceEach(ReplaceEach(ReplaceEach(ReplaceEach(ReplaceEach(s, '\\', "\\\\"), '\n', "\\n"), '\t', "\\t"), '\r', "\\r"), '"', "\\\"")
  }

  lemma ChainIsEach(s: string)
    ensures ReplaceChain(s) == EachChain(s)
  {
    var s1 := ReplaceEach(s, '\\', "\\\\");
    ReplaceAllOneChar(s, '\\', "\\\\");
    var s2 := ReplaceEach(s1, '\n', "\\n");
    ReplaceAllOneChar(s1, '\n', "\\n");
    var s3 := ReplaceEach(s2, '\t', "\\t");
    ReplaceAllOneChar(s2, '\t', "\\t");
    var s4 := ReplaceEach(s3, '\r', "\\r");
    ReplaceAllOneChar(s3, '\r', "\\r");
    ReplaceAllOneChar(s4, '"', "\\\"");
  }

  lemma EachChainAppend(a: string, b: string)
    ensures EachChain(a + b) == EachChain(a) + EachChain(b)
  {
    var a1, b1 := ReplaceEach(a, '\\', "\\\\"), ReplaceEach(b, '\\', "\\\\");
    ReplaceEachAppend(a, b, '\\', "\\\\");
    var a2, b2 := ReplaceEach(a1, '\n', "\\n"), ReplaceEach(b1, '\n', "\\n");
    ReplaceEachAppend(a1, b1, '\n', "\\n");
    var a3, b3 := ReplaceEach(a2, '\t', "\\t"), ReplaceEach(b2, '\t', "\\t");
    ReplaceEachAppend(a2, b2, '\t', "\\t");
    var a4, b4 := ReplaceEach(a3, '\r', "\\r"), ReplaceEach(b3, '\r', "\\r");
    ReplaceEachAppend(a3, b3, '\r', "\\r");
    ReplaceEachAppend(a4, b4, '"', "\\\"");
  }

  /** Replacing a character in a one-character text. */
  lemma ReplaceEachSingle(x: char, c: char, r: string)
    ensures ReplaceEach([x], c, r) == if x == c then r else [x]
  {
    assert [x][1..] == [];
  }

  /** Replacing a character other than the backslash in a backslash pair. */
  lemma ReplaceEachPair(y: char, c: char, r: string)
    requires c != '\\' && c != y
    ensures ReplaceEach(['\\', y], c, r) == ['\\', y]
  {
    assert ['\\', y][1..] == [y];
    ReplaceEachSingle(y, c, r);
  }

  lemma EachChainChar(x: char)
    ensures EachChain([x]) == EscapeChar(x)
  {
    ReplaceEachSingle(x, '\\', "\\\\");
    if x == '\\' {
      ReplaceEachPair('\\', '\n', "\\n");
      ReplaceEachPair('\\', '\t', "\\t");
      ReplaceEachPair('\\', '\r', "\\r");
      ReplaceEachPair('\\', '"', "\\\"");
    } else {
      ReplaceEachSingle(x, '\n', "\\n");
      if x == '\n' {
        ReplaceEachPair('n', '\t', "\\t");
        ReplaceEachPair('n', '\r', "\\r");
        ReplaceEachPair('n', '"', "\\\"");
      } else {
        ReplaceEachSingle(x, '\t', "\\t");
        if x == '\t' {
          ReplaceEachPair('t', '\r', "\\r");
          ReplaceEachPair('t', '"', "\\\"");
        } else {
          ReplaceEachSingle(x, '\r', "\\r");
          if x == '\r' {
            ReplaceEachPair('r', '"', "\\\"");
          } else {
            ReplaceEachSingle(x, '"', "\\\"");
          }
        }
      }
    }
  }

  /** The chain of `replace` calls escapes each character on its own: no
      replacement rewrites the text an earlier one produced. */
  lemma {:induction false} EscapeIsReplaceChain(s: string)
    ensures Escape(s) == ReplaceChain(s)
  {
    ChainIsEach(s);
    EscapeIsEachChain(s);
  }

  lemma {:induction false} EscapeIsEachChain(s: string)
    ensures Escape(s) == EachChain(s)
  {
    if s != [] {
      EscapeIsEachChain(s[1..]);
      assert s == [s[0]] + s[1..];
      EachChainAppend([s[0]], s[1..]);
      EachChainChar(s[0]);
    }
  }

  /** The escaped text holds no raw newline, and every double quote in it is
      preceded by a backslash. */
  lemma {:induction false} EscapeSafe(s: string)
    ensures '\n' !in Escape(s)
    ensures forall i :: 0 <= i < |Escape(s)| && Escape(s)[i] == '"' ==> i > 0 && Escape(s)[i - 1] == '\\'
  {
    if s != [] {
      EscapeSafe(s[1..]);
      var head, rest := EscapeChar(s[0]), Escape(s[1..]);
      forall i | 0 <= i < |head + rest| && (head + rest)[i] == '"'
        ensures i > 0 && (head + rest)[i - 1] == '\\'
      {
        if i >= |head| {
          assert (head + rest)[i] == rest[i - |head|];
          if i > |head| {
            assert (head + rest)[i - 1] == rest[i - 1 - |head|];
          }
        }
      }
    }
  }

  /** A slice holding `x + y` holds `x`, then `y`. */
  lemma SliceSplit(src: string, p: nat, x: string, y: string)
    requires p + |x + y| <= |src| && src[p..p + |x + y|] == x + y
    ensures src[p..p + |x|] == x && src[p + |x|..p + |x| + |y|] == y
  {
    assert src[p..p + |x|] == src[p..p + |x + y|][..|x|];
    assert src[p + |x|..p + |x| + |y|] == src[p..p + |x + y|][|x|..];
  }

  /** An escape sequence the code generator writes is read back as its character. */
  lemma UnescapeEscapeChar(c: char)
    ensures |EscapeChar(c)| == 2 ==> EscapeChar(c)[0] == '\\' && Unescape(EscapeChar(c)[1], '"') == c
    ensures |EscapeChar(c)| == 1 ==> EscapeChar(c) == [c] && c != '"' && c != '\\' && c != '\n'
    ensures 1 <= |EscapeChar(c)| <= 2
  {
  }

  /** One escaped character is read back as that character. */
  lemma StringFromStep(src: string, start: nat, p: nat, acc: string, c: char)
    requires start <= p && p + |EscapeChar(c)| < |src|
    requires src[p..p + |EscapeChar(c)|] == EscapeChar(c)
    ensures StringFrom(src, '"', start, p, acc) == StringFrom(src, '"', start, p + |EscapeChar(c)|, acc + [c])
  {
    UnescapeEscapeChar(c);
    assert src[p] == EscapeChar(c)[0];
    if |EscapeChar(c)| == 2 {
      assert src[p + 1] == EscapeChar(c)[1];
    }
  }

  /** Reading the first escaped character of `s` in front of the rest of `s`. */
  lemma StringFromPrepend(src: string, start: nat, p: nat, acc: string, s: string, e: nat)
    requires s != [] && start <= p && p + |EscapeChar(s[0])| < |src|
    requires src[p..p + |EscapeChar(s[0])|] == EscapeChar(s[0])
    requires StringFrom(src, '"', start, p + |EscapeChar(s[0])|, acc + [s[0]]) == Ok((acc + [s[0]] + s[1..], e))
    ensures StringFrom(src, '"', start, p, acc) == Ok((acc + s, e))
  {
    StringFromStep(src, start, p, acc, s[0]);
    ConsAppend(acc, s);
  }

  lemma ConsAppend(acc: string, s: string)
    requires s != []
    ensures acc + [s[0]] + s[1..] == acc + s
  {
  }

  /** A slice holding `x + y` just before a quote holds `x`, then `y`, then the quote. */
  lemma SplitClosed(src: string, p: nat, x: string, y: string)
    requires p + |x + y| < |src| && src[p..p + |x + y|] == x + y && src[p + |x + y|] == '"'
    ensures p + |x| + |y| < |src| && src[p..p + |x|] == x
    ensures src[p + |x|..p + |x| + |y|] == y && src[p + |x| + |y|] == '"'
  {
    SliceSplit(src, p, x, y);
  }

  lemma EscapeCons(s: string)
    requires s != []
    ensures Escape(s) == EscapeChar(s[0]) + Escape(s[1..])
  {
  }

  /** The lexer reads an escaped text, followed by its closing quote, back
      as the original value. */
  lemma {:induction false} StringFromEscape(src: string, start: nat, p: nat, acc: string, s: string)
    requires start <= p && p + |Escape(s)| < |src|
    requires src[p..p + |Escape(s)|] == Escape(s) && src[p + |Escape(s)|] == '"'
    ensures StringFrom(src, '"', start, p, acc) == Ok((acc + s, p + |Escape(s)| + 1))
    decreases s
  {
    if s == [] {
      assert Escape(s) == [];
      assert src[p] == '"';
      assert acc + s == acc;
    } else {
      EscapeCons(s);
      SplitClosed(src, p, EscapeChar(s[0]), Escape(s[1..]));
      var q := p + |EscapeChar(s[0])|;
      var e := q + |Escape(s[1..])| + 1;
      StringFromEscape(src, start, q, acc + [s[0]], s[1..]);
      StringFromPrepend(src, start, p, acc, s, e);
    }
  }

  /** The literal the code generator emits for a string, on its own. */
  function StringLiteralCode(s: string): string {
    "\"" + Escape(s) + "\""
  }

  /** At the end of the text only the EOF token is left to add. */
  lemma LexFromEnd(src: string, keywords: map<string, Kind>, tokens: seq<Token>)
    ensures LexFrom(src, keywords, |src|, tokens) == Ok(tokens + [EndToken(src)])
  {
    assert SkipBlanks(src, |src|) == |src|;
  }

  /** Lexing an emitted string literal gives exactly one STRING token, whose
      value is the original string, followed by EOF. */
  lemma LexStringLiteral(s: string, keywords: map<string, Kind>)
    ensures var src := StringLiteralCode(s);
      Lex(src, keywords) == Ok([Token(Str, Text(s), 1, 1), EndToken(src)])
  {
    var src := StringLiteralCode(s);
    var t := Token(Str, Text(s), 1, 1);
    LiteralToken(s, keywords);
    assert SkipBlanks(src, 0) == 0;
    assert !SlashSlashAt(src, 0);
    assert [] + [t] == [t];
    assert Lex(src, keywords) == LexFrom(src, keywords, |src|, [t]);
    LexFromEnd(src, keywords, [t]);
    assert [t] + [EndToken(src)] == [t, EndToken(src)];
  }

  /** The first token read from an emitted string literal is the whole literal. */
  lemma LiteralToken(s: string, keywords: map<string, Kind>)
    ensures var src := StringLiteralCode(s);
      NextToken(src, keywords, 0) == Ok((Token(Str, Text(s), 1, 1), |src|))
  {
    var src := StringLiteralCode(s);
    var e := Escape(s);
    assert |src| == |e| + 2 && src[0] == '"' && src[|e| + 1] == '"';
    assert src[1..1 + |e|] == e;
    StringFromEscape(src, 0, 1, "", s);
    assert LineAt(src, 0) == 1 && ColumnAt(src, 0) == 1;
  }

  // ---------------------------------------------------------------------
  // Expressions

  /** `expr.value[0]` of an empty character literal. */
  const EmptyCharIndex := Crash("IndexError: string index out of range")

  /** `inpt(prompt)` as a C expression that reads a value of type `varType`. */
  function InputCode(prompt: string, varType: Option<string>): string {
    if varType == Some("int") then "(printf(" + prompt + "), scanf(\"%d\", &(int){0}), (int){0})"
    else if varType == Some("float") then "(printf(" + prompt + "), scanf(\"%f\", &(float){0.0}), (float){0.0})"
    else if varType == Some("char") then "(printf(" + prompt + "), getchar())"
    else if varType == Some("string") then "(printf(" + prompt + "), (char[256]){0})"
    else "(printf(" + prompt + "), 0)"
  }

  /** `compile_expr(expr, var_type)`. */
  function CompileExpr(e: Expr, varType: Option<string>): Result<string>
    decreases e, 1
  {
    match e
    case StringLiteral(v) => Ok(StringLiteralCode(v))
    case CharLiteral(v) =>
      if |v| == 1 then Ok("'" + v + "'")
      else if v == [] then Err(EmptyCharIndex)
      else Ok("'" + [v[0]] + "'")
    case NumberLiteral(n) => Ok(NatToString(n))
    case FloatLiteral(lexeme) => Ok(lexeme)
    case Identifier(name) => Ok(name)
    case ArrayAccess(name, index) =>
      var i :- CompileExpr(index, varType);
      Ok(name + "[" + i + "]")
    case BinaryOp(left, op, right) =>
      var l :- CompileExpr(left, varType);
      var r :- CompileExpr(right, varType);
      Ok("(" + l + " " + op + " " + r + ")")
    case InptCall(prompt) =>
      var p :- CompileExpr(prompt, varType);
      Ok(InputCode(p, varType))
    case FunctionCall(name, arguments) =>
      var args :- CompileEach(arguments, None);
      Ok(name + "(" + Join(args, ", ") + ")")
  }

  /** Each expression compiled with the same declared type, in order. */
  function CompileEach(es: seq<Expr>, varType: Option<string>): Result<seq<string>>
    decreases es, 0
  {
    if es == [] then Ok([])
    else
      var first :- CompileExpr(es[0], varType);
      var rest :- CompileEach(es[1..], varType);
      Ok([first] + rest)
  }

  /** `compile_expr` of an optional value: Python's `None` falls through to `"0"`. */
  function CompileValue(v: Option<Expr>, varType: Option<string>): Result<string> {
    match v
    case None => Ok("0")
    case Some(e) => CompileExpr(e, varType)
  }

  // ---------------------------------------------------------------------
  // What compiling an expression promises

  /** Whether an empty character literal occurs in the expression. */
  predicate HasEmptyChar(e: Expr)
    decreases e, 1
  {
    match e
    case CharLiteral(v) => v == []
    case ArrayAccess(_, index) => HasEmptyChar(index)
    case BinaryOp(left, _, right) => HasEmptyChar(left) || HasEmptyChar(right)
    case InptCall(prompt) => HasEmptyChar(prompt)
    case FunctionCall(_, arguments) => AnyEmptyChar(arguments)
    case _ => false
  }

  predicate AnyEmptyChar(args: seq<Expr>)
    decreases args, 0
  {
    args != [] && (HasEmptyChar(args[0]) || AnyEmptyChar(args[1..]))
  }

  /** Whether an `inpt(...)` occurs in the expression outside call arguments,
      where the declared type reaches it. */
  predicate TypedInput(e: Expr)
    decreases e
  {
    match e
    case ArrayAccess(_, index) => TypedInput(index)
    case BinaryOp(left, _, right) => TypedInput(left) || TypedInput(right)
    case InptCall(_) => true
    case _ => false
  }

  /** Compiling fails exactly when an empty character literal occurs in the
      expression, whatever the declared type. */
  lemma {:induction false} CompileExprFails(e: Expr, varType: Option<string>)
    ensures CompileExpr(e, varType).Err? <==> HasEmptyChar(e)
    ensures CompileExpr(e, varType).Err? ==> CompileExpr(e, varType).error == EmptyCharIndex
    decreases e, 1
  {
    match e
    case ArrayAccess(_, index) => CompileExprFails(index, varType);
    case BinaryOp(left, _, right) =>
      CompileExprFails(left, varType);
      CompileExprFails(right, varType);
    case InptCall(prompt) => CompileExprFails(prompt, varType);
    case FunctionCall(_, arguments) => CompileEachFails(arguments, None);
    case _ =>
  }

  lemma {:induction false} CompileEachFails(es: seq<Expr>, varType: Option<string>)
    ensures CompileEach(es, varType).Err? <==> AnyEmptyChar(es)
    ensures CompileEach(es, varType).Err? ==> CompileEach(es, varType).error == EmptyCharIndex
    ensures CompileEach(es, varType).Ok? ==> |CompileEach(es, varType).value| == |es|
    decreases es, 0
  {
    if es != [] {
      CompileExprFails(es[0], varType);
      CompileEachFails(es[1..], varType);
    }
  }

  /** The declared type changes the text only through an `inpt(...)` it reaches. */
  lemma {:induction false} TypeOnlyForInput(e: Expr, t1: Option<string>, t2: Option<string>)
    requires !TypedInput(e)
    ensures CompileExpr(e, t1) == CompileExpr(e, t2)
    decreases e
  {
    match e
    case ArrayAccess(_, index) => TypeOnlyForInput(index, t1, t2);
    case BinaryOp(left, _, right) =>
      TypeOnlyForInput(left, t1, t2);
      TypeOnlyForInput(right, t1, t2);
    case _ =>
  }

  /** A binary operation is always parenthesised, with the operator between
      its operands' texts. */
  lemma BinaryOpParenthesised(left: Expr, op: string, right: Expr, varType: Option<string>)
    requires !HasEmptyChar(left) && !HasEmptyChar(right)
    ensures var r := CompileExpr(BinaryOp(left, op, right), varType);
      && r.Ok?
      && r.value == "(" + CompileExpr(left, varType).value + " " + op + " " + CompileExpr(right, varType).value + ")"
  {
    CompileExprFails(left, varType);
    CompileExprFails(right, varType);
  }

  /** A character literal is emitted as its first character between single quotes. */
  lemma CharLiteralFirst(v: string, varType: Option<string>)
    requires v != []
    ensures CompileExpr(CharLiteral(v), varType) == Ok(['\'', v[0], '\''])
  {
    if |v| == 1 {
      assert v == [v[0]];
    }
    assert "'" + [v[0]] + "'" == ['\'', v[0], '\''];
  }
}
