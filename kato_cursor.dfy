/** The token cursor of the Kato parser (`Parser` in `kato/parser/parser.py`):
    the position in the token list, the program-wide set of defined functions,
    the builtins, and the flat set of variables of the function being parsed.
    The expression and statement parsers drive this one object.

    Every specification function of the parser takes the token list and a
    position and yields the node together with the position after it. */
module KatoCursor {
  import opened Base
  import opened TokenValues
  import opened KatoTokens

  /** The functions a Kato program may call without defining them. */
  const Builtins: set<string> := {"print"}

  /** Reading `.type` of the `None` that `current_token` returns past the end. */
  const NoneToken := Crash("AttributeError: 'NoneType' object has no attribute 'type'")

  /** `current_token` / `peek_token`: the token at `i`, or `None` past the end. */
  function TokenAt(tokens: seq<Token>, i: nat): (r: Option<Token>)
    ensures r.None? <==> i >= |tokens|
    ensures r.Some? ==> r.value == tokens[i]
  {
    if i < |tokens| then Some(tokens[i]) else None
  }

  /** `current_token() and current_token().type == kind`. */
  predicate KindIs(tokens: seq<Token>, p: nat, kind: Kind) {
    p < |tokens| && tokens[p].kind == kind
  }

  /** The error `expect(kind)` raises at `p`. */
  function ExpectError(tokens: seq<Token>, p: nat, kind: Kind): Error {
    if p >= |tokens| then SyntaxError(ExpectedAtEnd(KindName(kind)), 1, 1)
    else SyntaxError(ExpectedButGot(KindName(kind), KindName(tokens[p].kind)), tokens[p].line, tokens[p].column)
  }

  /** `expect(kind)` at `p`: the token and the next position, or the error. */
  function ExpectAt(tokens: seq<Token>, p: nat, kind: Kind): (r: Result<(Token, nat)>)
    ensures r.Ok? <==> KindIs(tokens, p, kind)
    ensures r.Ok? ==> r.value.0 == tokens[p] && r.value.1 == p + 1
    ensures r.Err? ==> r.error == ExpectError(tokens, p, kind)
  {
    if KindIs(tokens, p, kind) then Ok((tokens[p], p + 1)) else Err(ExpectError(tokens, p, kind))
  }

  /** A missing statement terminator is reported at the end of the tokens, too. */
  lemma ExpectAtEnd(tokens: seq<Token>, p: nat, kind: Kind)
    requires p >= |tokens|
    ensures ExpectAt(tokens, p, kind) == Err(SyntaxError(ExpectedAtEnd(KindName(kind)), 1, 1))
  {
  }

  class Parser {
    const tokens: seq<Token>
    var pos: nat
    var definedFunctions: set<string>
    const builtinFunctions: set<string>
    var definedVariables: set<string>

    ghost predicate Valid()
      reads this`pos
    {
      pos <= |tokens| && WellFormed(tokens) && builtinFunctions == Builtins
    }

    constructor (tokens: seq<Token>)
      requires WellFormed(tokens)
      ensures Valid() && this.tokens == tokens && pos == 0
      ensures definedFunctions == {} && definedVariables == {}
    {
      this.tokens := tokens;
      pos := 0;
      definedFunctions := {};
      builtinFunctions := Builtins;
      definedVariables := {};
    }

    function CurrentToken(): Option<Token>
      reads this`pos
    {
      TokenAt(tokens, pos)
    }

    function PeekToken(offset: nat): Option<Token>
      reads this`pos
    {
      TokenAt(tokens, pos + offset)
    }

    /** `current_token() and current_token().type == kind`. */
    predicate CurrentIs(kind: Kind)
      reads this`pos
    {
      KindIs(tokens, pos, kind)
    }

    method Advance()
      requires Valid() && pos < |tokens|
      modifies this`pos
      ensures Valid() && pos == old(pos) + 1
    {
      pos := pos + 1;
    }

    /** Consumes a token of the expected kind, or fails without moving. */
    method Expect(kind: Kind) returns (r: Result<Token>)
      requires Valid()
      modifies this`pos
      ensures Valid() && Agrees(r, pos, ExpectAt(tokens, old(pos), kind))
      ensures r.Ok? ==> r.value == tokens[old(pos)] && pos == old(pos) + 1
    {
      if pos >= |tokens| {
        return Err(SyntaxError(ExpectedAtEnd(KindName(kind)), 1, 1));
      }
      var token := tokens[pos];
      if token.kind != kind {
        return Err(SyntaxError(ExpectedButGot(KindName(kind), KindName(token.kind)), token.line, token.column));
      }
      Advance();
      r := Ok(token);
    }
  }
}
