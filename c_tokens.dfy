/** The tokens of the C front end (`CToken` in `kato/c2kato/lexer/token.py`).

    The C keyword table lives in a module that is not part of this model, so
    the lexer receives it as a parameter (`map<string, CKind>`).  The kinds the
    lexer and the parsers test are constructors of `CKind`; any other kind the
    table may assign is `OtherKeyword`, carrying the name of the kind. */
module CTokens {
  import opened Base
  import opened TokenValues

  datatype CKind =
    | Str | Char | Number | FloatNumber | Identifier
    | Hash | LBrace | RBrace | LParen | RParen | LBracket | RBracket
    | Semicolon | Comma | EqualEqual | Equals | PlusPlus | Plus | MinusMinus | Minus
    | Asterisk | Slash | Percent | LessEqual | Less | GreaterEqual | Greater
    | NotEqual | And | Ampersand | Or
    | Eof
    | IntType | FloatType | CharType | VoidType
    | If | Else | While | For | Return | Printf
    | OtherKeyword(kindName: string)

  /** The type name the source uses in messages such as "Expected RPAREN, but got EOF". */
  function KindName(k: CKind): string {
    match k
    case Str => "STRING"
    case Char => "CHAR"
    case Number => "NUMBER"
    case FloatNumber => "FLOAT_NUMBER"
    case Identifier => "IDENTIFIER"
    case Hash => "HASH"
    case LBrace => "LBRACE"
    case RBrace => "RBRACE"
    case LParen => "LPAREN"
    case RParen => "RPAREN"
    case LBracket => "LBRACKET"
    case RBracket => "RBRACKET"
    case Semicolon => "SEMICOLON"
    case Comma => "COMMA"
    case EqualEqual => "EQUAL_EQUAL"
    case Equals => "EQUALS"
    case PlusPlus => "PLUS_PLUS"
    case Plus => "PLUS"
    case MinusMinus => "MINUS_MINUS"
    case Minus => "MINUS"
    case Asterisk => "ASTERISK"
    case Slash => "SLASH"
    case Percent => "PERCENT"
    case LessEqual => "LESS_EQUAL"
    case Less => "LESS"
    case GreaterEqual => "GREATER_EQUAL"
    case Greater => "GREATER"
    case NotEqual => "NOT_EQUAL"
    case And => "AND"
    case Ampersand => "AMPERSAND"
    case Or => "OR"
    case Eof => "EOF"
    case IntType => "INT_TYPE"
    case FloatType => "FLOAT_TYPE"
    case CharType => "CHAR_TYPE"
    case VoidType => "VOID_TYPE"
    case If => "IF"
    case Else => "ELSE"
    case While => "WHILE"
    case For => "FOR"
    case Return => "RETURN"
    case Printf => "PRINTF"
    case OtherKeyword(name) => name
  }

  datatype CToken = CToken(kind: CKind, value: Value, line: nat, column: nat)

  /** The kinds a keyword table may assign: the keyword kinds the parsers test,
      and kinds no part of the parsers tests. */
  predicate IsKeywordKind(k: CKind) {
    || k.IntType? || k.FloatType? || k.CharType? || k.VoidType?
    || k.If? || k.Else? || k.While? || k.For? || k.Return? || k.Printf? || k.OtherKeyword?
  }

  predicate KeywordTable(keywords: map<string, CKind>) {
    forall w :: w in keywords ==> IsKeywordKind(keywords[w])
  }

  /** The four type keywords that start a declaration at the top level. */
  predicate IsTypeKind(k: CKind) { k.IntType? || k.FloatType? || k.CharType? || k.VoidType? }

  /** The kinds whose value is text: all but NUMBER, FLOAT_NUMBER and EOF. */
  predicate CarriesText(k: CKind) { !k.Number? && !k.FloatNumber? && !k.Eof? }

  /** The fixed spelling of a punctuation or operator kind. */
  function Symbol(k: CKind): (r: Option<string>)
    ensures r.Some? ==> CarriesText(k) && 1 <= |r.value| <= 2
  {
    if k.Hash? then Some("#")
    else if k.LBrace? then Some("{") else if k.RBrace? then Some("}")
    else if k.LParen? then Some("(") else if k.RParen? then Some(")")
    else if k.LBracket? then Some("[") else if k.RBracket? then Some("]")
    else if k.Semicolon? then Some(";") else if k.Comma? then Some(",")
    else if k.EqualEqual? then Some("==") else if k.Equals? then Some("=")
    else if k.PlusPlus? then Some("++") else if k.Plus? then Some("+")
    else if k.MinusMinus? then Some("--") else if k.Minus? then Some("-")
    else if k.Asterisk? then Some("*") else if k.Slash? then Some("/")
    else if k.Percent? then Some("%")
    else if k.LessEqual? then Some("<=") else if k.Less? then Some("<")
    else if k.GreaterEqual? then Some(">=") else if k.Greater? then Some(">")
    else if k.NotEqual? then Some("!=") else if k.And? then Some("&&")
    else if k.Ampersand? then Some("&") else if k.Or? then Some("||")
    else None
  }

  /** Keywords and identifiers are words: they carry text and have no fixed symbol. */
  lemma KeywordsAreWords(k: CKind)
    requires IsKeywordKind(k) || k.Identifier?
    ensures CarriesText(k) && Symbol(k).None?
  {
  }

  /** The shape of the value each kind carries: an integer for NUMBER, the
      lexeme for FLOAT_NUMBER, nothing for EOF, and text otherwise, spelled as
      the kind's symbol for punctuation and operators. */
  predicate WellFormedToken(t: CToken) {
    if t.kind.Number? then t.value.Integer?
    else if t.kind.FloatNumber? then t.value.Real?
    else if t.kind.Eof? then t.value.NoValue?
    else t.value.Text? && (Symbol(t.kind).Some? ==> t.value.text == Symbol(t.kind).value)
  }

  /** The value shape of a token: the first three cases of `WellFormedToken`, and text otherwise. */
  predicate Shaped(t: CToken) {
    if t.kind.Number? then t.value.Integer?
    else if t.kind.FloatNumber? then t.value.Real?
    else if t.kind.Eof? then t.value.NoValue?
    else t.value.Text?
  }

  /** Token `i` of `tokens`, if any, is spelled as its kind's symbol. */
  predicate SpelledAt(tokens: seq<CToken>, i: nat) {
    i < |tokens| ==> WellFormedToken(tokens[i])
  }

  /** Every token is well formed.  The spelling half is reached through
      `SpelledAt` (see `Spelled`), so that a proof about token shapes does
      not unfold every kind's symbol. */
  ghost predicate WellFormed(tokens: seq<CToken>) {
    && (forall i :: 0 <= i < |tokens| ==> Shaped(tokens[i]))
    && (forall i: nat {:trigger SpelledAt(tokens, i)} :: SpelledAt(tokens, i))
  }

  /** A token of a well-formed list is spelled as its kind's symbol. */
  lemma Spelled(tokens: seq<CToken>, i: nat)
    requires WellFormed(tokens) && i < |tokens|
    ensures WellFormedToken(tokens[i])
  {
    assert SpelledAt(tokens, i);
  }

  /** Appending a well-formed token keeps a list well formed. */
  lemma WellFormedAppend(tokens: seq<CToken>, t: CToken)
    requires WellFormed(tokens) && WellFormedToken(t)
    ensures WellFormed(tokens + [t])
  {
    forall i: nat
      ensures SpelledAt(tokens + [t], i)
    {
      if i < |tokens| {
        assert SpelledAt(tokens, i);
        assert (tokens + [t])[i] == tokens[i];
      }
    }
  }
}
