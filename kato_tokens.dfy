/** The tokens of the Kato language (the `Token` record of the Kato lexer).

    The keyword table lives in a module that is not part of this model, so
    the lexer receives it as a parameter (`map<string, Kind>`); every kind the
    lexer and the parser mention is a constructor of `Kind`. */
module KatoTokens {
  import opened Base
  import opened Strings
  import opened TokenValues

  datatype Kind =
    | Str | Char | Number | FloatNumber | Identifier
    | LBrace | RBrace | LParen | RParen | LBracket | RBracket
    | Semicolon | Comma | EqualEqual | Equals | Asterisk
    | PlusPlus | Plus | MinusMinus | Minus | DoubleSlash | Slash | Percent
    | LessEqual | Less | GreaterEqual | Greater | NotEqual | And | Or
    | Eof
    | Function | Print | Return | Var | Call | If | Elif | Else | While
    | Int | Float | StringType | Inpt

  /** The type name the source uses in messages such as "Expected RPAREN, but got EOF". */
  function KindName(k: Kind): string {
    match k
    case Str => "STRING"
    case Char => "CHAR"
    case Number => "NUMBER"
    case FloatNumber => "FLOAT_NUMBER"
    case Identifier => "IDENTIFIER"
    case LBrace => "LBRACE"
    case RBrace => "RBRACE"
    case LParen => "LPAREN"
    case RParen => "RPAREN"
    case LBracket => "LBRACKET"
    case RBracket => "RBRACKET"
    case Semicolon => "SEMICOLON"
    case Comma => "COMMA"
    case EqualEqual => "EQUAL_EQUAL"
    case Equals => "EQUALS"
    case Asterisk => "ASTERISK"
    case PlusPlus => "PLUS_PLUS"
    case Plus => "PLUS"
    case MinusMinus => "MINUS_MINUS"
    case Minus => "MINUS"
    case DoubleSlash => "DOUBLE_SLASH"
    case Slash => "SLASH"
    case Percent => "PERCENT"
    case LessEqual => "LESS_EQUAL"
    case Less => "LESS"
    case GreaterEqual => "GREATER_EQUAL"
    case Greater => "GREATER"
    case NotEqual => "NOT_EQUAL"
    case And => "AND"
    case Or => "OR"
    case Eof => "EOF"
    case Function => "FUNCTION"
    case Print => "PRINT"
    case Return => "RETURN"
    case Var => "VAR"
    case Call => "CALL"
    case If => "IF"
    case Elif => "ELIF"
    case Else => "ELSE"
    case While => "WHILE"
    case Int => "INT"
    case Float => "FLOAT"
    case StringType => "STRING_TYPE"
    case Inpt => "INPT"
  }

  datatype Token = Token(kind: Kind, value: Value, line: nat, column: nat)

  /** The kinds a keyword table may assign: the keywords themselves and `char`'s CHAR. */
  predicate IsKeywordKind(k: Kind) {
    || k.Function? || k.Print? || k.Return? || k.Var? || k.Call? || k.If? || k.Elif? || k.Else?
    || k.While? || k.Int? || k.Float? || k.Char? || k.StringType? || k.Inpt?
  }

  /** Keywords are words, not punctuation: they carry text and have no fixed symbol. */
  lemma KeywordsAreWords(k: Kind)
    requires IsKeywordKind(k) || k.Identifier?
    ensures CarriesText(k) && Symbol(k).None?
  {
  }

  predicate KeywordTable(keywords: map<string, Kind>) {
    forall w :: w in keywords ==> IsKeywordKind(keywords[w])
  }

  /** The kinds whose value is text: all but NUMBER, FLOAT_NUMBER and EOF. */
  predicate CarriesText(k: Kind) { !k.Number? && !k.FloatNumber? && !k.Eof? }

  /** The fixed spelling of a punctuation or operator kind. */
  function Symbol(k: Kind): (r: Option<string>)
    ensures r.Some? ==> CarriesText(k) && |r.value| >= 1
  {
    if k.LBrace? then Some("{") else if k.RBrace? then Some("}")
    else if k.LParen? then Some("(") else if k.RParen? then Some(")")
    else if k.LBracket? then Some("[") else if k.RBracket? then Some("]")
    else if k.Semicolon? then Some(";") else if k.Comma? then Some(",")
    else if k.EqualEqual? then Some("==") else if k.Equals? then Some("=")
    else if k.Asterisk? then Some("*") else if k.PlusPlus? then Some("++")
    else if k.Plus? then Some("+") else if k.MinusMinus? then Some("--")
    else if k.Minus? then Some("-") else if k.DoubleSlash? then Some("//")
    else if k.Slash? then Some("/") else if k.Percent? then Some("%")
    else if k.LessEqual? then Some("<=") else if k.Less? then Some("<")
    else if k.GreaterEqual? then Some(">=") else if k.Greater? then Some(">")
    else if k.NotEqual? then Some("!=") else if k.And? then Some("&&")
    else if k.Or? then Some("||")
    else None
  }

  /** The shape of the value each kind carries: an integer for NUMBER, the lexeme for
      FLOAT_NUMBER, nothing for EOF, and text otherwise, spelled as the kind's symbol
      for punctuation and operators. */
  predicate WellFormedToken(t: Token) {
    if t.kind.Number? then t.value.Integer?
    else if t.kind.FloatNumber? then t.value.Real?
    else if t.kind.Eof? then t.value.NoValue?
    else t.value.Text? && (Symbol(t.kind).Some? ==> t.value.text == Symbol(t.kind).value)
  }

  /** The value shape of a token: the first three cases of `WellFormedToken`, and text otherwise. */
  predicate Shaped(t: Token) {
    if t.kind.Number? then t.value.Integer?
    else if t.kind.FloatNumber? then t.value.Real?
    else if t.kind.Eof? then t.value.NoValue?
    else t.value.Text?
  }

  /** Token `i` of `tokens`, if any, is spelled as its kind's symbol. */
  predicate SpelledAt(tokens: seq<Token>, i: nat) {
    i < |tokens| ==> WellFormedToken(tokens[i])
  }

  /** Every token is well formed.  The spelling half is reached through
      `SpelledAt` (see `Spelled`), so that a proof about token shapes does
      not unfold every kind's symbol. */
  ghost predicate WellFormed(tokens: seq<Token>) {
    && (forall i :: 0 <= i < |tokens| ==> Shaped(tokens[i]))
    && (forall i: nat {:trigger SpelledAt(tokens, i)} :: SpelledAt(tokens, i))
  }

  /** A token of a well-formed list is spelled as its kind's symbol. */
  lemma Spelled(tokens: seq<Token>, i: nat)
    requires WellFormed(tokens) && i < |tokens|
    ensures WellFormedToken(tokens[i])
  {
    assert SpelledAt(tokens, i);
  }

  /** Appending a well-formed token keeps a list well formed. */
  lemma WellFormedAppend(tokens: seq<Token>, t: Token)
    requires WellFormed(tokens) && WellFormedToken(t)
    ensures WellFormed(tokens + [t])
  {
    forall i: nat
      ensures SpelledAt(tokens + [t], i)
    {
      if i < |tokens| {
        assert SpelledAt(tokens, i);
        assert (tokens + [t])[i] == tokens[i];
      }
    }
  }
}
