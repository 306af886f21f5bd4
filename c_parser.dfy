/** Keyword suggestions of the C parser (`_find_similar_keyword` and
    `_levenshtein_distance` in `kato/c2kato/parser/c_parser.py`): the edit
    distance, its row-by-row computation and the first keyword within distance
    two of a lower-cased identifier. */
module CSuggest {
  import opened Base
  import opened Strings

  /** The keywords suggested for an unknown top-level name, in the order tried. */
  const Keywords: seq<string> :=
    ["return", "int", "float", "char", "void", "if", "else", "while", "for", "switch", "case", "break", "continue"]

  function Min3(a: int, b: int, c: int): (m: int)
    ensures m <= a && m <= b && m <= c
    ensures m == a || m == b || m == c
  {
    if a <= b && a <= c then a else if b <= c then b else c
  }

  /** The Levenshtein distance, defined on the last characters of both strings:
      drop one from `s`, drop one from `t`, or match them (free when equal). */
  function EditDistance(s: string, t: string): nat
    decreases |s| + |t|
  {
    if |s| == 0 then |t|
    else if |t| == 0 then |s|
    else Min3(EditDistance(s[..|s| - 1], t) + 1,
              EditDistance(s, t[..|t| - 1]) + 1,
              EditDistance(s[..|s| - 1], t[..|t| - 1]) + (if s[|s| - 1] == t[|t| - 1] then 0 else 1))
  }

  lemma {:induction false} EditDistanceSymmetric(s: string, t: string)
    ensures EditDistance(s, t) == EditDistance(t, s)
    decreases |s| + |t|
  {
    if |s| > 0 && |t| > 0 {
      EditDistanceSymmetric(s[..|s| - 1], t);
      EditDistanceSymmetric(s, t[..|t| - 1]);
      EditDistanceSymmetric(s[..|s| - 1], t[..|t| - 1]);
    }
  }

  /** The distance is zero exactly for equal strings. */
  lemma {:induction false} EditDistanceZero(s: string, t: string)
    ensures EditDistance(s, t) == 0 <==> s == t
    decreases |s| + |t|
  {
    if |s| > 0 && |t| > 0 {
      EditDistanceZero(s[..|s| - 1], t[..|t| - 1]);
      assert s == s[..|s| - 1] + [s[|s| - 1]];
      assert t == t[..|t| - 1] + [t[|t| - 1]];
    }
  }

  /** The distance lies between the difference of the lengths and the larger
      length; against the empty string it is the other length. */
  lemma {:induction false} EditDistanceBounds(s: string, t: string)
    ensures |s| - |t| <= EditDistance(s, t) && |t| - |s| <= EditDistance(s, t)
    ensures EditDistance(s, t) <= if |s| < |t| then |t| else |s|
    decreases |s| + |t|
  {
    if |s| > 0 && |t| > 0 {
      EditDistanceBounds(s[..|s| - 1], t);
      EditDistanceBounds(s, t[..|t| - 1]);
      EditDistanceBounds(s[..|s| - 1], t[..|t| - 1]);
    }
  }

  /** One cell of the table: the distance between `a + [c]` and the first
      `j + 1` characters of `t` from its three neighbours. */
  lemma EditDistanceCell(a: string, c: char, t: string, j: nat, above: int, left: int, diagonal: int)
    requires j < |t|
    requires above == EditDistance(a, t[..j + 1])
    requires left == EditDistance(a + [c], t[..j])
    requires diagonal == EditDistance(a, t[..j])
    ensures Min3(above + 1, left + 1, diagonal + (if c != t[j] then 1 else 0)) == EditDistance(a + [c], t[..j + 1])
  {
    var u := t[..j + 1];
    assert u[..|u| - 1] == t[..j];
    assert (a + [c])[..|a|] == a;
  }

  /** `_levenshtein_distance`: the shorter string indexes the columns; each
      row holds the distances from a prefix of the longer one. */
  method LevenshteinDistance(s1: string, s2: string) returns (d: nat)
    ensures d == EditDistance(s1, s2)
    decreases if |s1| < |s2| then 1 else 0
  {
    if |s1| < |s2| {
      d := LevenshteinDistance(s2, s1);
      EditDistanceSymmetric(s2, s1);
      return;
    }
    if |s2| == 0 {
      return |s1|;
    }
    var previous: seq<int> := seq(|s2| + 1, j => j);
    var i := 0;
    while i < |s1|
      invariant 0 <= i <= |s1| && |previous| == |s2| + 1
      invariant forall j :: 0 <= j <= |s2| ==> previous[j] == EditDistance(s1[..i], s2[..j])
    {
      assert s1[..i + 1] == s1[..i] + [s1[i]];
      previous := NextRow(s1[..i], s1[i], s2, previous);
      i := i + 1;
    }
    assert s1[..|s1|] == s1 && s2[..|s2|] == s2;
    d := previous[|s2|];
  }

  /** One pass of the outer loop of `_levenshtein_distance`: the row of the
      prefix `a + [c]` from the row of `a`. */
  method NextRow(a: string, c: char, t: string, previous: seq<int>) returns (current: seq<int>)
    requires |previous| == |t| + 1
    requires forall j :: 0 <= j <= |t| ==> previous[j] == EditDistance(a, t[..j])
    ensures |current| == |t| + 1
    ensures forall k :: 0 <= k <= |t| ==> current[k] == EditDistance(a + [c], t[..k])
  {
    current := [|a| + 1];
    assert t[..0] == [];
    var j := 0;
    while j < |t|
      invariant 0 <= j <= |t| && |current| == j + 1
      invariant forall k :: 0 <= k <= j ==> current[k] == EditDistance(a + [c], t[..k])
    {
      var insertions := previous[j + 1] + 1;
      var deletions := current[j] + 1;
      var substitutions := previous[j] + (if c != t[j] then 1 else 0);
      EditDistanceCell(a, c, t, j, previous[j + 1], current[j], previous[j]);
      current := current + [Min3(insertions, deletions, substitutions)];
      j := j + 1;
    }
  }

  /** The first keyword within distance two of `word`, if any. */
  function FirstSimilar(word: string, keywords: seq<string>): (r: Option<string>)
    ensures r.Some? ==> r.value in keywords && EditDistance(word, r.value) <= 2
    ensures r.None? <==> forall k :: k in keywords ==> EditDistance(word, k) > 2
  {
    if keywords == [] then None
    else if EditDistance(word, keywords[0]) <= 2 then Some(keywords[0])
    else FirstSimilar(word, keywords[1..])
  }

  /** `_find_similar_keyword`: tries the keywords in order against the
      lower-cased word. */
  method FindSimilarKeyword(word: string) returns (r: Option<string>)
    ensures r == FirstSimilar(Lower(word), Keywords)
  {
    var i := 0;
    while i < |Keywords|
      invariant 0 <= i <= |Keywords|
      invariant FirstSimilar(Lower(word), Keywords[i..]) == FirstSimilar(Lower(word), Keywords)
    {
      var d := LevenshteinDistance(Lower(word), Keywords[i]);
      if d <= 2 {
        return Some(Keywords[i]);
      }
      assert Keywords[i..][1..] == Keywords[i + 1..];
      i := i + 1;
    }
    return None;
  }

  /** A keyword written with capitals (`Int`, `RETURN`) always draws a
      suggestion. */
  lemma CapitalisedKeyword(word: string)
    requires Lower(word) in Keywords
    ensures FirstSimilar(Lower(word), Keywords).Some?
  {
    EditDistanceZero(Lower(word), Lower(word));
  }
}

/** The top level of the C parser (`CParser.parse`, `skip_preprocessor`,
    `parse_function_or_declaration` and `parse_function` in
    `kato/c2kato/parser/c_parser.py`).

    A program is a sequence of `#` lines, which are skipped up to the next
    type keyword, and function prototypes and definitions.  A prototype
    records the function without producing a node; recording happens for
    definitions too, so a prototype followed by the definition of the same
    name is reported as a redefinition.  The names a body may use are its
    parameters and the functions recorded before it, so a function cannot
    call itself. */
module CTopParser {
  import opened Base
  import opened Strings
  import opened TokenValues
  import opened CTokens
  import opened CAst
  import opened CCursor
  import opened CExprParser
  import opened CStmtParser
  import opened CSuggest

  /** A method's result and the parser state agree with a specification
      that yields a value together with the state after it. */
  predicate Tracks<T(==)>(r: Result<T>, s: ParseState, spec: Result<(T, ParseState)>) {
    match spec
    case Ok(v) => r == Ok(v.0) && s == v.1
    case Err(e) => r == Err(e)
  }

  function Names(params: seq<CParam>): set<string> {
    set i | 0 <= i < |params| :: params[i].name
  }

  predicate DistinctNames(params: seq<CParam>) {
    forall i, j :: 0 <= i < j < |params| ==> params[i].name != params[j].name
  }

  /** The position `skip_preprocessor` stops at: the first EOF or type keyword
      from `p` on, or the end. */
  function SkipDirectives(tokens: seq<CToken>, p: nat): (r: nat)
    requires p <= |tokens|
    ensures p <= r <= |tokens|
    ensures r == |tokens| || tokens[r].kind.Eof? || IsTypeKind(tokens[r].kind)
    ensures forall i :: p <= i < r ==> !tokens[i].kind.Eof? && !IsTypeKind(tokens[i].kind)
    decreases |tokens| - p
  {
    if p < |tokens| && !tokens[p].kind.Eof? && !IsTypeKind(tokens[p].kind) then SkipDirectives(tokens, p + 1)
    else p
  }

  lemma NamesAppend(params: seq<CParam>, param: CParam)
    ensures Names(params + [param]) == Names(params) + {param.name}
  {
    var next := params + [param];
    forall n | n in Names(params)
      ensures n in Names(next)
    {
      var i :| 0 <= i < |params| && params[i].name == n;
      assert next[i].name == n;
    }
    assert next[|params|].name == param.name;
  }

  /** A type keyword at `p` and an optional `*`: the type name, with the `*`
      appended, and the position after it. */
  function TypeName(tokens: seq<CToken>, p: nat): (r: (string, nat))
    requires p < |tokens| && WellFormed(tokens) && IsTypeKind(tokens[p].kind)
    ensures p < r.1 <= |tokens|
  {
    if p + 1 < |tokens| && tokens[p + 1].kind.Asterisk? then (tokens[p].value.text + "*", p + 2)
    else (tokens[p].value.text, p + 1)
  }

  /** One parameter, `type [*] name`, not named like one in `acc`. */
  function Param(tokens: seq<CToken>, p: nat, acc: seq<CParam>): (r: Result<(CParam, nat)>)
    requires p <= |tokens| && WellFormed(tokens)
    ensures r.Ok? ==> p < r.value.1 <= |tokens|
    ensures r.Ok? ==> ValidType(r.value.0.paramType) && r.value.0.name !in Names(acc)
  {
    if p >= |tokens| then Err(Unpositioned(EndInParameters))
    else if !IsTypeKind(tokens[p].kind) then
      Err(SyntaxError(ExpectedParameterType(KindName(tokens[p].kind)), tokens[p].line, tokens[p].column))
    else
      var t := TypeName(tokens, p);
      if !ValidType(t.0) then
        Err(SyntaxError(InvalidParameterType(t.0), tokens[p].line, tokens[p].column))
      else if t.1 >= |tokens| then Err(Unpositioned(ExpectedParameterName(t.0)))
      else if !tokens[t.1].kind.Identifier? then
        Err(SyntaxError(ExpectedParameterName(t.0), tokens[t.1].line, tokens[t.1].column))
      else if tokens[t.1].value.text in Names(acc) then
        Err(SyntaxError(DuplicateParameter(tokens[t.1].value.text), tokens[t.1].line, tokens[t.1].column))
      else
        Ok((CParam(t.0, tokens[t.1].value.text), t.1 + 1))
  }

  /** The parameters from `p` on, after those in `acc`: a parameter, then `,`
      and the next or `)`. */
  function Params(tokens: seq<CToken>, p: nat, acc: seq<CParam>): (r: Result<(seq<CParam>, nat)>)
    requires p <= |tokens| && WellFormed(tokens)
    ensures r.Ok? ==> p < r.value.1 <= |tokens| && |acc| < |r.value.0| && r.value.0[..|acc|] == acc
    ensures r.Ok? ==> forall i :: |acc| <= i < |r.value.0| ==> ValidType(r.value.0[i].paramType)
    decreases |tokens| - p
  {
    var param :- Param(tokens, p, acc);
    ParamsAfter(tokens, param.1, acc + [param.0])
  }

  /** After a parameter: `,` and another parameter, or the closing `)`.  Past
      the end the source reads `.type` of `None`. */
  function ParamsAfter(tokens: seq<CToken>, p: nat, acc: seq<CParam>): (r: Result<(seq<CParam>, nat)>)
    requires p <= |tokens| && WellFormed(tokens)
    ensures r.Ok? ==> p < r.value.1 <= |tokens| && |acc| <= |r.value.0| && r.value.0[..|acc|] == acc
    ensures r.Ok? ==> forall i :: |acc| <= i < |r.value.0| ==> ValidType(r.value.0[i].paramType)
    decreases |tokens| - p
  {
    if p < |tokens| && tokens[p].kind.Comma? then
      if p + 1 < |tokens| && tokens[p + 1].kind.RParen? then
        Err(SyntaxError(ParameterAfterComma, tokens[p + 1].line, tokens[p + 1].column))
      else
        Params(tokens, p + 1, acc)
    else if p < |tokens| && tokens[p].kind.RParen? then Ok((acc, p + 1))
    else if p >= |tokens| then Err(NoneToken)
    else Err(SyntaxError(ExpectedCommaOrParen(KindName(tokens[p].kind)), tokens[p].line, tokens[p].column))
  }

  /** The parameter names are pairwise distinct. */
  lemma {:induction false} ParamsDistinct(tokens: seq<CToken>, p: nat, acc: seq<CParam>)
    requires p <= |tokens| && WellFormed(tokens) && DistinctNames(acc)
    requires Params(tokens, p, acc).Ok?
    ensures DistinctNames(Params(tokens, p, acc).value.0)
    decreases |tokens| - p, 1
  {
    var param := Param(tokens, p, acc).value;
    var next := acc + [param.0];
    forall i, j | 0 <= i < j < |next|
      ensures next[i].name != next[j].name
    {
      if j == |acc| {
        assert next[i].name in Names(acc);
      }
    }
    ParamsAfterDistinct(tokens, param.1, next);
  }

  lemma {:induction false} ParamsAfterDistinct(tokens: seq<CToken>, p: nat, acc: seq<CParam>)
    requires p <= |tokens| && WellFormed(tokens) && DistinctNames(acc)
    requires ParamsAfter(tokens, p, acc).Ok?
    ensures DistinctNames(ParamsAfter(tokens, p, acc).value.0)
    decreases |tokens| - p, 0
  {
    if p < |tokens| && tokens[p].kind.Comma? {
      ParamsDistinct(tokens, p + 1, acc);
    }
  }

  /** The parenthesised parameter list at `p` (its `(`), possibly empty. */
  function ParamList(tokens: seq<CToken>, p: nat): (r: Result<(seq<CParam>, nat)>)
    requires p <= |tokens| && WellFormed(tokens)
    ensures r.Ok? ==> p + 1 < r.value.1 <= |tokens|
  {
    var open :- ExpectAt(tokens, p, LParen);
    if open.1 < |tokens| && tokens[open.1].kind.RParen? then Ok(([], open.1 + 1))
    else Params(tokens, open.1, [])
  }

  /** What `parse_function` does after the signature, at `p`: a `;` records a
      prototype; otherwise a braced body must follow. */
  function FunctionRest(tokens: seq<CToken>, st: ParseState, name: string, info: FunctionInfo, p: nat)
    : (r: Result<(Option<CFunctionDef>, ParseState)>)
    requires p <= |tokens| && WellFormed(tokens)
    ensures r.Ok? ==> p < r.value.1.pos <= |tokens|
    ensures r.Ok? ==> r.value.1.declared == st.declared[name := info]
    ensures r.Ok? && r.value.0.Some? ==> r.value.0.value == CFunctionDef(info.returnType, name, info.params, r.value.0.value.body)
  {
    if p < |tokens| && tokens[p].kind.Semicolon? then
      Ok((None, st.(pos := p + 1, declared := st.declared[name := info])))
    else if p >= |tokens| then Err(Unpositioned(ExpectedBodyOrSemicolon))
    else if !tokens[p].kind.LBrace? then Err(SyntaxError(ExpectedBodyOrSemicolon, tokens[p].line, tokens[p].column))
    else Definition(tokens, st, name, info, p + 1)
  }

  /** A body after its `{`, its `}`, and no `;` after that.  The body may use
      the parameters and the functions recorded before it; the placeholders of
      skipped tokens are dropped from it.  The function is recorded and no
      function is current any more. */
  function Definition(tokens: seq<CToken>, st: ParseState, name: string, info: FunctionInfo, p: nat)
    : (r: Result<(Option<CFunctionDef>, ParseState)>)
    requires p <= |tokens| && WellFormed(tokens)
    ensures r.Ok? ==> p < r.value.1.pos <= |tokens|
    ensures r.Ok? ==> r.value.1 == ParseState(r.value.1.pos, st.declared[name := info], Names(info.params), None)
    ensures r.Ok? ==> r.value.0.Some? && r.value.0.value == CFunctionDef(info.returnType, name, info.params, r.value.0.value.body)
  {
    var body :- Block(tokens, Names(info.params) + st.declared.Keys, p, []);
    var close :- ExpectAt(tokens, body.1, RBrace);
    if close.1 < |tokens| && tokens[close.1].kind.Semicolon? then
      Err(SyntaxError(SemicolonAfterBody, tokens[close.1].line, tokens[close.1].column))
    else
      Ok((Some(CFunctionDef(info.returnType, name, info.params, WithoutSkipped(body.0))),
          ParseState(close.1, st.declared[name := info], Names(info.params), None)))
  }

  /** `parse_function` from the `(` at `st.pos`: a name already recorded, by a
      prototype or a definition, is a redefinition. */
  function Function(tokens: seq<CToken>, st: ParseState, returnType: string, name: string, line: nat, column: nat)
    : (r: Result<(Option<CFunctionDef>, ParseState)>)
    requires st.pos <= |tokens| && WellFormed(tokens)
    ensures r.Ok? ==> st.pos < r.value.1.pos <= |tokens| && name !in st.declared
    ensures r.Ok? ==> r.value.1.declared.Keys == st.declared.Keys + {name}
    ensures r.Ok? && r.value.0.Some? ==> r.value.0.value.name == name && r.value.0.value.returnType == returnType
  {
    if name in st.declared then
      Err(SyntaxError(FunctionRedefinition(name, st.declared[name].line, st.declared[name].column), line, column))
    else
      var params :- ParamList(tokens, st.pos);
      FunctionRest(tokens, st, name, FunctionInfo(returnType, params.0, line, column), params.1)
  }

  /** `parse_function_or_declaration` at a type keyword: the type (with `*`),
      which must be valid, the name, and `(`; anything else after the name is a
      global variable, which is refused. */
  function FunctionOrDeclaration(tokens: seq<CToken>, st: ParseState): (r: Result<(Option<CFunctionDef>, ParseState)>)
    requires st.pos < |tokens| && WellFormed(tokens) && IsTypeKind(tokens[st.pos].kind)
    ensures r.Ok? ==> st.pos < r.value.1.pos <= |tokens|
    ensures r.Ok? ==> st.declared.Keys <= r.value.1.declared.Keys
    ensures r.Ok? && r.value.0.Some? ==> r.value.0.value.name !in st.declared && r.value.0.value.name in r.value.1.declared
    ensures r.Ok? && r.value.0.Some? ==> ValidType(r.value.0.value.returnType)
  {
    var t := TypeName(tokens, st.pos);
    if !ValidType(t.0) then Err(SyntaxError(InvalidType(t.0), tokens[st.pos].line, tokens[st.pos].column))
    else if t.1 >= |tokens| then Err(Unpositioned(ExpectedIdentifierAfterType(t.0)))
    else if !tokens[t.1].kind.Identifier? then
      Err(SyntaxError(ExpectedIdentifierAfterType(t.0), tokens[t.1].line, tokens[t.1].column))
    else if t.1 + 1 < |tokens| && tokens[t.1 + 1].kind.LParen? then
      Function(tokens, st.(pos := t.1 + 1), t.0, tokens[t.1].value.text, tokens[t.1].line, tokens[t.1].column)
    else
      Err(SyntaxError(GlobalVariable, tokens[t.1].line, tokens[t.1].column))
  }

  /** The error for an identifier at the top level: with a keyword suggestion
      when one is within distance two of it. */
  function TopLevelIdentifier(token: CToken): Error
    requires token.value.Text?
  {
    match FirstSimilar(Lower(token.value.text), Keywords)
    case Some(keyword) => SyntaxError(UnknownTopLevelIdentifier(token.value.text, keyword), token.line, token.column)
    case None => SyntaxError(UnexpectedAtTopLevel("IDENTIFIER"), token.line, token.column)
  }

  /** One turn of the `parse` loop at a token other than EOF: a directive
      is skipped, a type keyword starts a function or a declaration, and
      anything else is refused. */
  function TopLevelItem(tokens: seq<CToken>, st: ParseState): (r: Result<(Option<CFunctionDef>, ParseState)>)
    requires st.pos < |tokens| && WellFormed(tokens)
    ensures r.Ok? ==> st.pos < r.value.1.pos <= |tokens|
    ensures r.Ok? ==> st.declared.Keys <= r.value.1.declared.Keys
    ensures r.Ok? && r.value.0.Some? ==> r.value.0.value.name !in st.declared
  {
    var token := tokens[st.pos];
    if token.kind.Hash? then Ok((None, st.(pos := SkipDirectives(tokens, st.pos + 1))))
    else if IsTypeKind(token.kind) then FunctionOrDeclaration(tokens, st)
    else if token.kind.Identifier? then Err(TopLevelIdentifier(token))
    else Err(SyntaxError(UnexpectedAtTopLevel(KindName(token.kind)), token.line, token.column))
  }

  /** The `parse` loop from `st`, with the definitions `acc` found so far; it
      stops at EOF or the end. */
  function Program(tokens: seq<CToken>, st: ParseState, acc: seq<CFunctionDef>): (r: Result<(seq<CFunctionDef>, ParseState)>)
    requires st.pos <= |tokens| && WellFormed(tokens)
    ensures r.Ok? ==> r.value.1.pos <= |tokens| && (r.value.1.pos == |tokens| || tokens[r.value.1.pos].kind.Eof?)
    decreases |tokens| - st.pos
  {
    if st.pos < |tokens| && !tokens[st.pos].kind.Eof? then
      var d :- TopLevelItem(tokens, st);
      Program(tokens, d.1, if d.0.Some? then acc + [d.0.value] else acc)
    else
      Ok((acc, st))
  }

  /** `parse` from the parser state `st`. */
  function ParseProgram(tokens: seq<CToken>, st: ParseState): (r: Result<(CProgram, ParseState)>)
    requires st.pos <= |tokens| && WellFormed(tokens)
  {
    var d :- Program(tokens, st, []);
    Ok((CProgram(d.0), d.1))
  }

  predicate DistinctFunctions(defs: seq<CFunctionDef>) {
    forall i, j :: 0 <= i < j < |defs| ==> defs[i].name != defs[j].name
  }

  /** No two definitions of a program share a name, and every one has a valid
      return type, provided those found so far are recorded. */
  lemma {:induction false} ProgramDistinct(tokens: seq<CToken>, st: ParseState, acc: seq<CFunctionDef>)
    requires st.pos <= |tokens| && WellFormed(tokens)
    requires DistinctFunctions(acc) && forall i :: 0 <= i < |acc| ==> acc[i].name in st.declared
    requires Program(tokens, st, acc).Ok?
    ensures DistinctFunctions(Program(tokens, st, acc).value.0)
    decreases |tokens| - st.pos
  {
    if st.pos < |tokens| && !tokens[st.pos].kind.Eof? {
      var d := TopLevelItem(tokens, st).value;
      var next := if d.0.Some? then acc + [d.0.value] else acc;
      forall i, j | 0 <= i < j < |next|
        ensures next[i].name != next[j].name
      {
        if j == |acc| {
          assert acc[i].name in st.declared;
        }
      }
      ProgramDistinct(tokens, d.1, next);
    }
  }

  /** A prototype records the function, and a later definition of that name
      is refused as a redefinition pointing at the prototype. */
  lemma PrototypeThenDefinition(tokens: seq<CToken>, st: ParseState, name: string, info: FunctionInfo, p: nat,
                                returnType: string, line: nat, column: nat, q: nat)
    requires p < |tokens| && WellFormed(tokens) && tokens[p].kind.Semicolon?
    requires q <= |tokens|
    ensures FunctionRest(tokens, st, name, info, p).Ok?
    ensures var after := FunctionRest(tokens, st, name, info, p).value.1;
      Function(tokens, after.(pos := q), returnType, name, line, column)
        == Err(SyntaxError(FunctionRedefinition(name, info.line, info.column), line, column))
  {
  }

  /** The whole C parser: the cursor and the expression and statement parsers
      that share it. */
  class CProgramParser {
    const parser: CParser
    const exprParser: CExpressionParser
    const stmtParser: CStatementParser

    ghost predicate Valid()
      reads parser`pos
    {
      exprParser.parser == parser && stmtParser.parser == parser && stmtParser.exprParser == exprParser && parser.Valid()
    }

    constructor (tokens: seq<CToken>)
      requires WellFormed(tokens)
      ensures Valid() && parser.tokens == tokens && parser.State() == ParseState(0, map[], {}, None)
    {
      var cursor := new CParser(tokens);
      var expressions := new CExpressionParser(cursor);
      parser := cursor;
      exprParser := expressions;
      stmtParser := new CStatementParser(cursor, expressions);
    }

    /** `parse`. */
    method Parse() returns (r: Result<CProgram>)
      requires Valid()
      modifies parser
      ensures Valid() && Tracks(r, parser.State(), ParseProgram(parser.tokens, old(parser.State())))
    {
      var declarations: seq<CFunctionDef> := [];
      while parser.pos < |parser.tokens| && !parser.tokens[parser.pos].kind.Eof?
        invariant Valid()
        invariant Program(parser.tokens, parser.State(), declarations) == Program(parser.tokens, old(parser.State()), [])
        decreases |parser.tokens| - parser.pos
      {
        var item :- ParseTopLevelItem();
        if item.Some? {
          declarations := declarations + [item.value];
        }
      }
      return Ok(CProgram(declarations));
    }

    /** The body of the `parse` loop. */
    method ParseTopLevelItem() returns (r: Result<Option<CFunctionDef>>)
      requires Valid() && parser.pos < |parser.tokens|
      modifies parser
      ensures Valid() && Tracks(r, parser.State(), TopLevelItem(parser.tokens, old(parser.State())))
    {
      var token := parser.tokens[parser.pos];
      if token.kind.Hash? {
        SkipPreprocessor();
        return Ok(None);
      } else if IsTypeKind(token.kind) {
        r := ParseFunctionOrDeclaration();
      } else {
        var e := TopLevelError(token);
        return Err(e);
      }
    }

    /** The error `parse` raises at a token that starts neither a directive
        nor a declaration: an identifier may draw a keyword suggestion. */
    method TopLevelError(token: CToken) returns (e: Error)
      requires Shaped(token) && !token.kind.Hash? && !IsTypeKind(token.kind)
      ensures token.kind.Identifier? ==> e == TopLevelIdentifier(token)
      ensures !token.kind.Identifier? ==> e == SyntaxError(UnexpectedAtTopLevel(KindName(token.kind)), token.line, token.column)
    {
      if token.kind.Identifier? {
        var similar := FindSimilarKeyword(token.value.text);
        if similar.Some? {
          return SyntaxError(UnknownTopLevelIdentifier(token.value.text, similar.value), token.line, token.column);
        }
        return SyntaxError(UnexpectedAtTopLevel("IDENTIFIER"), token.line, token.column);
      }
      return SyntaxError(UnexpectedAtTopLevel(KindName(token.kind)), token.line, token.column);
    }

    /** `skip_preprocessor`: past the `#`, then up to the next type keyword. */
    method SkipPreprocessor()
      requires Valid() && parser.pos < |parser.tokens|
      modifies parser`pos
      ensures Valid() && parser.pos == SkipDirectives(parser.tokens, old(parser.pos) + 1)
    {
      parser.Advance();
      while parser.pos < |parser.tokens| && !parser.tokens[parser.pos].kind.Eof?
        invariant Valid() && old(parser.pos) < parser.pos
        invariant SkipDirectives(parser.tokens, parser.pos) == SkipDirectives(parser.tokens, old(parser.pos) + 1)
        decreases |parser.tokens| - parser.pos
      {
        if IsTypeKind(parser.tokens[parser.pos].kind) {
          break;
        }
        parser.Advance();
      }
    }

    /** A type keyword and an optional `*`. */
    method ParseTypeName() returns (t: string)
      requires Valid() && parser.pos < |parser.tokens| && IsTypeKind(parser.tokens[parser.pos].kind)
      modifies parser`pos
      ensures Valid() && (t, parser.pos) == TypeName(parser.tokens, old(parser.pos))
    {
      t := parser.tokens[parser.pos].value.text;
      parser.Advance();
      if parser.CurrentIs(Asterisk) {
        t := t + "*";
        parser.Advance();
      }
    }

    method ParseFunctionOrDeclaration() returns (r: Result<Option<CFunctionDef>>)
      requires Valid() && parser.pos < |parser.tokens| && IsTypeKind(parser.tokens[parser.pos].kind)
      modifies parser
      ensures Valid() && Tracks(r, parser.State(), FunctionOrDeclaration(parser.tokens, old(parser.State())))
    {
      var typeToken := parser.tokens[parser.pos];
      var returnType := ParseTypeName();
      if !ValidType(returnType) {
        return Err(SyntaxError(InvalidType(returnType), typeToken.line, typeToken.column));
      }
      if parser.pos >= |parser.tokens| {
        return Err(Unpositioned(ExpectedIdentifierAfterType(returnType)));
      }
      var nameToken := parser.tokens[parser.pos];
      if !nameToken.kind.Identifier? {
        return Err(SyntaxError(ExpectedIdentifierAfterType(returnType), nameToken.line, nameToken.column));
      }
      parser.Advance();
      if parser.CurrentIs(LParen) {
        r := ParseFunction(returnType, nameToken.value.text, nameToken.line, nameToken.column);
        return;
      }
      return Err(SyntaxError(GlobalVariable, nameToken.line, nameToken.column));
    }

    /** `parse_function`. */
    method ParseFunction(returnType: string, name: string, line: nat, column: nat) returns (r: Result<Option<CFunctionDef>>)
      requires Valid()
      modifies parser
      ensures Valid() && Tracks(r, parser.State(), Function(parser.tokens, old(parser.State()), returnType, name, line, column))
    {
      if name in parser.declaredFunctions {
        var previous := parser.declaredFunctions[name];
        return Err(SyntaxError(FunctionRedefinition(name, previous.line, previous.column), line, column));
      }
      var params :- ParseParameterList();
      r := ParseFunctionRest(name, FunctionInfo(returnType, params, line, column));
    }

    /** The `(`, the parameters and the `)` of a signature. */
    method ParseParameterList() returns (r: Result<seq<CParam>>)
      requires Valid()
      modifies parser`pos
      ensures Valid() && Agrees(r, parser.pos, ParamList(parser.tokens, old(parser.pos)))
    {
      var _ :- parser.Expect(LParen);
      if parser.CurrentIs(RParen) {
        var _ := parser.Expect(RParen);
        return Ok([]);
      }
      r := ParseParameters();
    }

    /** The `while True` loop over the parameters. */
    method ParseParameters() returns (r: Result<seq<CParam>>)
      requires Valid()
      modifies parser`pos
      ensures Valid() && Agrees(r, parser.pos, Params(parser.tokens, old(parser.pos), []))
    {
      var params: seq<CParam> := [];
      var paramNames: set<string> := {};
      while true
        invariant Valid() && paramNames == Names(params)
        invariant Params(parser.tokens, parser.pos, params) == Params(parser.tokens, old(parser.pos), [])
        decreases |parser.tokens| - parser.pos
      {
        var param :- ParseParameter(params, paramNames);
        NamesAppend(params, param);
        paramNames := paramNames + {param.name};
        params := params + [param];
        if parser.pos < |parser.tokens| && parser.tokens[parser.pos].kind.Comma? {
          parser.Advance();
          if parser.pos < |parser.tokens| && parser.tokens[parser.pos].kind.RParen? {
            var token := parser.tokens[parser.pos];
            return Err(SyntaxError(ParameterAfterComma, token.line, token.column));
          }
        } else if parser.pos < |parser.tokens| && parser.tokens[parser.pos].kind.RParen? {
          var _ := parser.Expect(RParen);
          return Ok(params);
        } else if parser.pos >= |parser.tokens| {
          return Err(NoneToken);
        } else {
          var token := parser.tokens[parser.pos];
          return Err(SyntaxError(ExpectedCommaOrParen(KindName(token.kind)), token.line, token.column));
        }
      }
    }

    /** One pass of the parameter loop up to the name; `paramNames` holds the
        names of `params`. */
    method ParseParameter(params: seq<CParam>, paramNames: set<string>) returns (r: Result<CParam>)
      requires Valid() && paramNames == Names(params)
      modifies parser`pos
      ensures Valid() && Agrees(r, parser.pos, Param(parser.tokens, old(parser.pos), params))
    {
      if parser.pos >= |parser.tokens| {
        return Err(Unpositioned(EndInParameters));
      }
      var typeToken := parser.tokens[parser.pos];
      if !IsTypeKind(typeToken.kind) {
        return Err(SyntaxError(ExpectedParameterType(KindName(typeToken.kind)), typeToken.line, typeToken.column));
      }
      var paramType := ParseTypeName();
      if !ValidType(paramType) {
        return Err(SyntaxError(InvalidParameterType(paramType), typeToken.line, typeToken.column));
      }
      if parser.pos >= |parser.tokens| {
        return Err(Unpositioned(ExpectedParameterName(paramType)));
      }
      var nameToken := parser.tokens[parser.pos];
      if !nameToken.kind.Identifier? {
        return Err(SyntaxError(ExpectedParameterName(paramType), nameToken.line, nameToken.column));
      }
      if nameToken.value.text in paramNames {
        return Err(SyntaxError(DuplicateParameter(nameToken.value.text), nameToken.line, nameToken.column));
      }
      parser.Advance();
      return Ok(CParam(paramType, nameToken.value.text));
    }

    /** The rest of `parse_function` after the signature. */
    method ParseFunctionRest(name: string, info: FunctionInfo) returns (r: Result<Option<CFunctionDef>>)
      requires Valid()
      modifies parser
      ensures Valid() && Tracks(r, parser.State(), FunctionRest(parser.tokens, old(parser.State()), name, info, old(parser.pos)))
    {
      if parser.CurrentIs(Semicolon) {
        parser.Advance();
        parser.declaredFunctions := parser.declaredFunctions[name := info];
        return Ok(None);
      }
      if parser.pos >= |parser.tokens| {
        return Err(Unpositioned(ExpectedBodyOrSemicolon));
      }
      if !parser.tokens[parser.pos].kind.LBrace? {
        var token := parser.tokens[parser.pos];
        return Err(SyntaxError(ExpectedBodyOrSemicolon, token.line, token.column));
      }
      parser.Advance();
      r := ParseDefinition(name, info);
    }

    /** A definition from after its `{`. */
    method ParseDefinition(name: string, info: FunctionInfo) returns (r: Result<Option<CFunctionDef>>)
      requires Valid()
      modifies parser
      ensures Valid() && Tracks(r, parser.State(), Definition(parser.tokens, old(parser.State()), name, info, old(parser.pos)))
    {
      ghost var tokens, p, known := parser.tokens, parser.pos, Names(info.params) + parser.declaredFunctions.Keys;
      ghost var spec := Definition(tokens, parser.State(), name, info, p);
      ghost var declared := parser.declaredFunctions;
      parser.currentFunction := Some(CurrentFunction(name, info.returnType));
      parser.declaredVariables := Names(info.params);
      assert parser.Known() == known;
      var body := ParseFunctionBody();
      if body.Err? {
        assert spec == Err(body.error);
        return Err(body.error);
      }
      assert Block(tokens, known, p, []).Ok? && body.value == WithoutSkipped(Block(tokens, known, p, []).value.0);
      ghost var close := parser.pos;
      var _ :- parser.Expect(RBrace);
      if parser.CurrentIs(Semicolon) {
        var token := parser.tokens[parser.pos];
        assert spec == Err(SyntaxError(SemicolonAfterBody, token.line, token.column));
        return Err(SyntaxError(SemicolonAfterBody, token.line, token.column));
      }
      parser.declaredFunctions := parser.declaredFunctions[name := info];
      parser.currentFunction := None;
      assert spec == Ok((Some(CFunctionDef(info.returnType, name, info.params, body.value)),
                         ParseState(close + 1, declared[name := info], Names(info.params), None)));
      return Ok(Some(CFunctionDef(info.returnType, name, info.params, body.value)));
    }

    /** The statements of a body up to its `}`, without the placeholders of
        skipped tokens. */
    method ParseFunctionBody() returns (r: Result<seq<CStmt>>)
      requires Valid()
      modifies parser`pos
      ensures Valid()
      ensures match Block(parser.tokens, parser.Known(), old(parser.pos), [])
        case Ok(v) => r == Ok(WithoutSkipped(v.0)) && parser.pos == v.1
        case Err(e) => r == Err(e)
    {
      var body: seq<CStmt> := [];
      ghost var all: seq<CStmt> := [];
      while parser.pos < |parser.tokens| && !parser.tokens[parser.pos].kind.RBrace?
        invariant Valid() && body == WithoutSkipped(all)
        invariant Block(parser.tokens, parser.Known(), parser.pos, all) == Block(parser.tokens, parser.Known(), old(parser.pos), [])
        decreases |parser.tokens| - parser.pos
      {
        var statement :- stmtParser.ParseStatement();
        assert (all + [statement])[..|all|] == all;
        all := all + [statement];
        if !statement.CNoStatement? {
          body := body + [statement];
        }
      }
      return Ok(body);
    }
  }
}
