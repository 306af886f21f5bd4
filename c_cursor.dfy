/** The state of the C parser (`CParser` in `kato/c2kato/parser/c_parser.py`):
    the token list and position, the functions declared or defined so far,
    the function being parsed and the names its body may use.  The C
    expression and statement parsers drive this one object; the top-level
    methods of `CParser` are in `CProgramParser`.

    Every specification function of the C parser takes the token list and a
    position and yields the node together with the position after it. */
module CCursor {
  import opened Base
  import opened TokenValues
  import opened CTokens
  import opened CAst

  /** Reading `.type` of the `None` that `current_token` returns past the end. */
  const NoneToken := Crash("AttributeError: 'NoneType' object has no attribute 'type'")

  /** What `declared_functions` records about a function: its return type,
      parameters and the position of its name. */
  datatype FunctionInfo = FunctionInfo(returnType: string, params: seq<CParam>, line: nat, column: nat)

  /** `current_function` while a body is parsed. */
  datatype CurrentFunction = CurrentFunction(name: string, returnType: string)

  /** Everything `CParser` keeps: the position, `declared_functions`,
      `declared_variables` and `current_function`. */
  datatype ParseState = ParseState(pos: nat, declared: map<string, FunctionInfo>, variables: set<string>, current: Option<CurrentFunction>)

  /** `current_token` / `peek_token`: the token at `i`, or `None` past the end. */
  function TokenAt(tokens: seq<CToken>, i: nat): (r: Option<CToken>)
    ensures r.None? <==> i >= |tokens|
    ensures r.Some? ==> r.value == tokens[i]
  {
    if i < |tokens| then Some(tokens[i]) else None
  }

  /** `current_token() and current_token().type == kind`. */
  predicate KindIs(tokens: seq<CToken>, p: nat, kind: CKind) {
    p < |tokens| && tokens[p].kind == kind
  }

  /** The error `expect(kind)` raises at `p`: past the end it has no position. */
  function ExpectError(tokens: seq<CToken>, p: nat, kind: CKind): Error {
    if p >= |tokens| then Unpositioned(ExpectedAtEnd(KindName(kind)))
    else SyntaxError(ExpectedButGot(KindName(kind), KindName(tokens[p].kind)), tokens[p].line, tokens[p].column)
  }

  /** `expect(kind)` at `p`: the token and the next position, or the error. */
  function ExpectAt(tokens: seq<CToken>, p: nat, kind: CKind): (r: Result<(CToken, nat)>)
    ensures r.Ok? <==> KindIs(tokens, p, kind)
    ensures r.Ok? ==> r.value.0 == tokens[p] && r.value.1 == p + 1
    ensures r.Err? ==> r.error == ExpectError(tokens, p, kind)
  {
    if KindIs(tokens, p, kind) then Ok((tokens[p], p + 1)) else Err(ExpectError(tokens, p, kind))
  }

  /** Running out of tokens where one is expected is reported without a position. */
  lemma ExpectAtEnd(tokens: seq<CToken>, p: nat, kind: CKind)
    requires p >= |tokens|
    ensures ExpectAt(tokens, p, kind) == Err(Unpositioned(ExpectedAtEnd(KindName(kind))))
  {
  }

  /** `VALID_TYPES`. */
  predicate ValidType(t: string) {
    t in {"int", "float", "char", "void", "int*", "float*", "char*"}
  }

  class CParser {
    const tokens: seq<CToken>
    var pos: nat
    var declaredFunctions: map<string, FunctionInfo>
    var currentFunction: Option<CurrentFunction>
    var declaredVariables: set<string>

    ghost predicate Valid()
      reads this`pos
    {
      pos <= |tokens| && WellFormed(tokens)
    }

    constructor (tokens: seq<CToken>)
      requires WellFormed(tokens)
      ensures Valid() && this.tokens == tokens && pos == 0
      ensures declaredFunctions == map[] && currentFunction == None && declaredVariables == {}
    {
      this.tokens := tokens;
      pos := 0;
      declaredFunctions := map[];
      currentFunction := None;
      declaredVariables := {};
    }

    function CurrentToken(): Option<CToken>
      reads this`pos
    {
      TokenAt(tokens, pos)
    }

    function PeekToken(offset: nat): Option<CToken>
      reads this`pos
    {
      TokenAt(tokens, pos + offset)
    }

    /** `current_token() and current_token().type == kind`. */
    predicate CurrentIs(kind: CKind)
      reads this`pos
    {
      KindIs(tokens, pos, kind)
    }

    function State(): ParseState
      reads this
    {
      ParseState(pos, declaredFunctions, declaredVariables, currentFunction)
    }

    /** The names an expression may mention: the declared variables and
        the declared functions. */
    function Known(): set<string>
      reads this`declaredVariables, this`declaredFunctions
    {
      declaredVariables + declaredFunctions.Keys
    }

    /** `advance`; every call in the parser is made with a token present. */
    method Advance()
      requires Valid() && pos < |tokens|
      modifies this`pos
      ensures Valid() && pos == old(pos) + 1
    {
      pos := pos + 1;
    }

    /** Consumes a token of the expected kind, or fails without moving. */
    method Expect(kind: CKind) returns (r: Result<CToken>)
      requires Valid()
      modifies this`pos
      ensures Valid() && Agrees(r, pos, ExpectAt(tokens, old(pos), kind))
      ensures r.Ok? ==> r.value == tokens[old(pos)] && pos == old(pos) + 1
    {
      if pos >= |tokens| {
        return Err(Unpositioned(ExpectedAtEnd(KindName(kind))));
      }
      var token := tokens[pos];
      if token.kind != kind {
        return Err(SyntaxError(ExpectedButGot(KindName(kind), KindName(token.kind)), token.line, token.column));
      }
      Advance();
      r := Ok(token);
    }
  }
}
