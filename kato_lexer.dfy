/** The Kato lexer (`kato/lexer/lexer.py`).

    The specification functions (`SkipBlanks`, `StringFrom`, `NumberEnd`,
    `IdentEnd`, `Operator`, `NextToken`, `LexFrom`) say what the lexer
    produces from a position of the source; the class `Lexer` keeps the
    source's mutable cursor (`pos`, `line`, `column`, `tokens`) and its methods
    are proved to compute exactly those functions.  Errors raised with
    Python's built-in `SyntaxError` carry no position, so they are
    `Unpositioned`. */
module KatoLexer {
  import opened Base
  import opened Strings
  import opened TokenValues
  import opened KatoTokens
  import opened TextScan

  // ---------------------------------------------------------------------
  // Comments

  predicate SlashSlashAt(src: string, p: nat) {
    p + 1 < |src| && src[p] == '/' && src[p + 1] == '/'
  }

  /** Whether `//` starts a comment: only before the first token or after `;`, `{` or `}`. */
  predicate CommentAllowed(tokens: seq<Token>) {
    tokens == [] || tokens[|tokens| - 1].kind.Semicolon? || tokens[|tokens| - 1].kind.LBrace?
    || tokens[|tokens| - 1].kind.RBrace?
  }

  // ---------------------------------------------------------------------
  // String and character literals

  function UnclosedError(src: string, quote: char, start: nat): Error
    requires start <= |src|
  {
    Unpositioned(UnclosedQuote(quote, LineAt(src, start), ColumnAt(src, start)))
  }

  /** The character an escape sequence `\e` stands for inside a literal quoted by `quote`. */
  function Unescape(e: char, quote: char): (c: char)
    ensures e !in "ntr" ==> c == e
  {
    if e == 'n' then '\n'
    else if e == 't' then '\t'
    else if e == 'r' then '\r'
    else if e == '\\' then '\\'
    else if e == quote then quote
    else e
  }

  /** Appending the missing character after a trailing backslash fails in Python. */
  const NoneConcatenation := Crash("TypeError: str + None")

  /** The body of a literal opened at `start`, read from `p` with `acc` already
      read: the value and the position after the closing quote. */
  function StringFrom(src: string, quote: char, start: nat, p: nat, acc: string): (r: Result<(string, nat)>)
    requires start <= p <= |src|
    ensures r.Ok? ==> p < r.value.1 <= |src| && src[r.value.1 - 1] == quote
    ensures r.Ok? ==> |acc| <= |r.value.0| && r.value.0[..|acc|] == acc
    ensures r.Err? ==> r.error == UnclosedError(src, quote, start) || r.error.Crash?
    decreases |src| - p
  {
    if p == |src| then Err(UnclosedError(src, quote, start))
    else if src[p] == quote then Ok((acc, p + 1))
    else if src[p] == '\n' then Err(UnclosedError(src, quote, start))
    else if src[p] == '\\' then
      if p + 1 == |src| then Err(NoneConcatenation)
      else StringFrom(src, quote, start, p + 2, acc + [Unescape(src[p + 1], quote)])
    else StringFrom(src, quote, start, p + 1, acc + [src[p]])
  }

  /** `read_string` at an opening quote: CHAR for `'`, STRING for `"`, positioned at the quote. */
  function ScanString(src: string, p: nat): (r: Result<(Token, nat)>)
    requires p < |src| && (src[p] == '"' || src[p] == '\'')
    ensures r.Ok? ==> p + 2 <= r.value.1 <= |src| && src[r.value.1 - 1] == src[p]
    ensures r.Ok? ==> r.value.0.kind == (if src[p] == '\'' then Char else Str) && r.value.0.value.Text?
    ensures r.Ok? ==> r.value.0.line == LineAt(src, p) && r.value.0.column == ColumnAt(src, p)
    ensures r.Err? ==> r.error == UnclosedError(src, src[p], p) || r.error.Crash?
  {
    match StringFrom(src, src[p], p, p + 1, "")
    case Err(e) => Err(e)
    case Ok(v) =>
      Ok((Token(if src[p] == '\'' then Char else Str, Text(v.0), LineAt(src, p), ColumnAt(src, p)), v.1))
  }

  /** A run of characters free of the quote, backslashes and newlines is read verbatim. */
  lemma {:induction false} StringFromPlain(src: string, quote: char, start: nat, p: nat, q: nat, acc: string)
    requires start <= p <= q < |src| && src[q] == quote
    requires forall k :: p <= k < q ==> src[k] != quote && src[k] != '\\' && src[k] != '\n'
    ensures StringFrom(src, quote, start, p, acc) == Ok((acc + src[p..q], q + 1))
    decreases q - p
  {
    if p < q {
      StringFromPlain(src, quote, start, p + 1, q, acc + [src[p]]);
      assert src[p..q] == [src[p]] + src[p + 1..q];
      assert acc + [src[p]] + src[p + 1..q] == acc + src[p..q];
    } else {
      assert acc + src[p..q] == acc;
    }
  }

  /** A raw newline inside a literal is an error naming the literal's start. */
  lemma {:induction false} StringFromNewline(src: string, quote: char, start: nat, p: nat, q: nat, acc: string)
    requires start <= p <= q < |src| && src[q] == '\n' && quote != '\n'
    requires forall k :: p <= k < q ==> src[k] != quote && src[k] != '\\'
    ensures StringFrom(src, quote, start, p, acc) == Err(UnclosedError(src, quote, start))
    decreases q - p
  {
    if p < q {
      StringFromNewline(src, quote, start, p + 1, q, acc + [src[p]]);
    }
  }

  // ---------------------------------------------------------------------
  // Numbers and identifiers

  /** `read_number` at a digit: FLOAT_NUMBER (keeping the lexeme) exactly when a dot was consumed. */
  function ScanNumber(src: string, p: nat): (r: (Token, nat))
    requires p < |src| && IsDigit(src[p])
    ensures p < r.1 <= |src|
    ensures r.0.kind == FloatNumber <==> '.' in src[p..r.1]
    ensures r.0.kind == FloatNumber ==> r.0.value == Real(src[p..r.1])
    ensures r.0.kind == Number ==> AllDigits(src[p..r.1]) && r.0.value == Integer(DigitsValue(src[p..r.1]))
    ensures r.0.kind in {Number, FloatNumber}
    ensures r.0.line == LineAt(src, p) && r.0.column == ColumnAt(src, p)
  {
    var q := NumberEnd(src, p, false);
    var lexeme := src[p..q];
    if '.' in lexeme then
      (Token(FloatNumber, Real(lexeme), LineAt(src, p), ColumnAt(src, p)), q)
    else
      assert forall k :: 0 <= k < |lexeme| ==> lexeme[k] == src[p + k];
      (Token(Number, Integer(DigitsValue(lexeme)), LineAt(src, p), ColumnAt(src, p)), q)
  }

  /** `read_identifier` at a letter or `_`: the keyword's kind if the word is in the table,
      IDENTIFIER otherwise; the value is the word itself. */
  function ScanIdentifier(src: string, keywords: map<string, Kind>, p: nat): (r: (Token, nat))
    requires p < |src| && IsWordChar(src[p])
    ensures p < r.1 <= |src|
    ensures r.0.value == Text(src[p..r.1])
    ensures src[p..r.1] in keywords ==> r.0.kind == keywords[src[p..r.1]]
    ensures src[p..r.1] !in keywords ==> r.0.kind == Identifier
    ensures r.0.line == LineAt(src, p) && r.0.column == ColumnAt(src, p)
  {
    var q := IdentEnd(src, p);
    var word := src[p..q];
    (Token(if word in keywords then keywords[word] else Identifier, Text(word), LineAt(src, p), ColumnAt(src, p)), q)
  }

  // ---------------------------------------------------------------------
  // Punctuation and operators

  /** The two-character operators `tokenize` recognises by looking one character ahead. */
  function PairKind(c: char, d: char): (r: Option<Kind>)
    ensures r.Some? ==> c in "=+-/<>!&|" && Symbol(r.value) == Some([c, d])
  {
    if c == '=' && d == '=' then Some(EqualEqual)
    else if c == '+' && d == '+' then Some(PlusPlus)
    else if c == '-' && d == '-' then Some(MinusMinus)
    else if c == '/' && d == '/' then Some(DoubleSlash)
    else if c == '<' && d == '=' then Some(LessEqual)
    else if c == '>' && d == '=' then Some(GreaterEqual)
    else if c == '!' && d == '=' then Some(NotEqual)
    else if c == '&' && d == '&' then Some(And)
    else if c == '|' && d == '|' then Some(Or)
    else None
  }

  /** The one-character punctuation of `tokenize`; `!`, `&` and `|` have none. */
  function SingleKind(c: char): (r: Option<Kind>)
    ensures r.Some? ==> c in {'{', '}', '(', ')', '[', ']', ';', ',', '*', '%', '=', '+', '-', '/', '<', '>'} && Symbol(r.value) == Some([c])
  {
    match c
    case '{' => Some(LBrace)
    case '}' => Some(RBrace)
    case '(' => Some(LParen)
    case ')' => Some(RParen)
    case '[' => Some(LBracket)
    case ']' => Some(RBracket)
    case ';' => Some(Semicolon)
    case ',' => Some(Comma)
    case '*' => Some(Asterisk)
    case '%' => Some(Percent)
    case '=' => Some(Equals)
    case '+' => Some(Plus)
    case '-' => Some(Minus)
    case '/' => Some(Slash)
    case '<' => Some(Less)
    case '>' => Some(Greater)
    case _ => None
  }

  /** The punctuation branch of `tokenize`, given the current character and the
      one after it (`peek_char`): the kind and the text of the token. */
  function Operator(c: char, next: Option<char>): (r: Option<(Kind, string)>)
    ensures r.Some? ==> 1 <= |r.value.1| <= 2 && r.value.1[0] == c && Symbol(r.value.0) == Some(r.value.1)
    ensures r.Some? && |r.value.1| == 2 ==> next == Some(r.value.1[1])
  {
    if next.Some? && PairKind(c, next.value).Some? then Some((PairKind(c, next.value).value, [c, next.value]))
    else if SingleKind(c).Some? then Some((SingleKind(c).value, [c]))
    else None
  }

  function UnknownCharError(src: string, p: nat): Error
    requires p < |src|
  {
    Unpositioned(UnknownCharacter(src[p], LineAt(src, p), ColumnAt(src, p)))
  }

  /** The punctuation branch of `tokenize` at `p`: an operator token, or the error for an unknown character. */
  function ScanOperator(src: string, p: nat): (r: Result<(Token, nat)>)
    requires p < |src|
    ensures r.Ok? ==> p < r.value.1 <= |src| && WellFormedToken(r.value.0)
    ensures r.Ok? ==> r.value.0.line == LineAt(src, p) && r.value.0.column == ColumnAt(src, p)
    ensures r.Err? <==> Operator(src[p], PeekAt(src, p + 1)).None?
  {
    match Operator(src[p], PeekAt(src, p + 1))
    case None => Err(UnknownCharError(src, p))
    case Some(op) => Ok((Token(op.0, Text(op.1), LineAt(src, p), ColumnAt(src, p)), p + |op.1|))
  }

  /** One token starting at a non-blank character `p`, and the position after it. */
  function NextToken(src: string, keywords: map<string, Kind>, p: nat): (r: Result<(Token, nat)>)
    requires p < |src|
    ensures r.Ok? ==> p < r.value.1 <= |src|
    ensures r.Ok? ==> r.value.0.line == LineAt(src, p) && r.value.0.column == ColumnAt(src, p)
  {
    var c := src[p];
    if c == '"' || c == '\'' then ScanString(src, p)
    else if IsDigit(c) then Ok(ScanNumber(src, p))
    else if IsAlpha(c) || c == '_' then
      Ok(ScanIdentifier(src, keywords, p))
    else ScanOperator(src, p)
  }

  /** No token read from the text is EOF, and each carries a value of its kind's shape. */
  lemma NextTokenShape(src: string, keywords: map<string, Kind>, p: nat)
    requires p < |src| && KeywordTable(keywords)
    ensures var r := NextToken(src, keywords, p);
      r.Ok? ==> r.value.0.kind != Eof && WellFormedToken(r.value.0)
  {
    var c := src[p];
    if c == '"' || c == '\'' {
      var r := ScanString(src, p);
      assert r.Ok? ==> r.value.0.kind != Eof && WellFormedToken(r.value.0);
    } else if IsDigit(c) {
      var r := ScanNumber(src, p);
      assert r.0.kind != Eof && WellFormedToken(r.0);
    } else if IsAlpha(c) || c == '_' {
      var t := ScanIdentifier(src, keywords, p);
      var word := src[p..t.1];
      if word in keywords {
        assert IsKeywordKind(keywords[word]);
      }
      KeywordsAreWords(t.0.kind);
    } else {
      var r := ScanOperator(src, p);
      assert r.Ok? ==> r.value.0.kind != Eof && WellFormedToken(r.value.0);
    }
  }

  // ---------------------------------------------------------------------
  // The whole token stream

  /** The EOF token, at the line and column reached at the end of the source. */
  function EndToken(src: string): Token {
    Token(Eof, NoValue, LineAt(src, |src|), ColumnAt(src, |src|))
  }

  /** `tokenize` from position `p` with `tokens` already produced. */
  function LexFrom(src: string, keywords: map<string, Kind>, p: nat, tokens: seq<Token>): Result<seq<Token>>
    requires p <= |src|
    decreases |src| - p
  {
    var q := SkipBlanks(src, p);
    if q == |src| then Ok(tokens + [EndToken(src)])
    else if SlashSlashAt(src, q) && CommentAllowed(tokens) then LexFrom(src, keywords, CommentEnd(src, q), tokens)
    else match NextToken(src, keywords, q)
      case Err(e) => Err(e)
      case Ok(v) => LexFrom(src, keywords, v.1, tokens + [v.0])
  }

  /** The token list of a whole source text. */
  function Lex(src: string, keywords: map<string, Kind>): Result<seq<Token>> {
    LexFrom(src, keywords, 0, [])
  }

  /** No token of the list is EOF. */
  predicate NoEof(tokens: seq<Token>) {
    forall i :: 0 <= i < |tokens| ==> !tokens[i].kind.Eof?
  }

  /** A finished token list: well formed, longer than `n`, and EOF exactly at the end. */
  ghost predicate Terminated(tokens: seq<Token>, n: nat, eof: Token) {
    |tokens| > n && tokens[|tokens| - 1] == eof && NoEof(tokens[..|tokens| - 1]) && WellFormed(tokens)
  }

  /** Appending a token read from the text keeps the list well formed and free of EOF. */
  lemma AppendShape(tokens: seq<Token>, t: Token)
    requires WellFormed(tokens) && NoEof(tokens) && WellFormedToken(t) && !t.kind.Eof?
    ensures WellFormed(tokens + [t]) && NoEof(tokens + [t])
  {
    WellFormedAppend(tokens, t);
  }

  /** Appending the EOF token finishes a well-formed list free of EOF. */
  lemma AppendEnd(tokens: seq<Token>, eof: Token)
    requires WellFormed(tokens) && NoEof(tokens) && eof.kind.Eof? && eof.value.NoValue?
    ensures Terminated(tokens + [eof], |tokens|, eof)
  {
    WellFormedAppend(tokens, eof);
    assert (tokens + [eof])[..|tokens|] == tokens;
  }

  /** What `tokenize` produces from a position ends with a single EOF
      token at the final line and column, and gives every token a value of its kind's shape. */
  lemma {:induction false} LexFromShape(src: string, keywords: map<string, Kind>, p: nat, tokens: seq<Token>)
    requires p <= |src| && KeywordTable(keywords)
    requires WellFormed(tokens) && NoEof(tokens)
    ensures LexFrom(src, keywords, p, tokens).Ok? ==> Terminated(LexFrom(src, keywords, p, tokens).value, |tokens|, EndToken(src))
    decreases |src| - p
  {
    var q := SkipBlanks(src, p);
    if q == |src| {
      assert LexFrom(src, keywords, p, tokens) == Ok(tokens + [EndToken(src)]);
      AppendEnd(tokens, EndToken(src));
    } else if SlashSlashAt(src, q) && CommentAllowed(tokens) {
      assert LexFrom(src, keywords, p, tokens) == LexFrom(src, keywords, CommentEnd(src, q), tokens);
      LexFromShape(src, keywords, CommentEnd(src, q), tokens);
    } else {
      match NextToken(src, keywords, q)
      case Err(_) =>
      case Ok(v) =>
        NextTokenShape(src, keywords, q);
        AppendShape(tokens, v.0);
        var tokens' := tokens + [v.0];
        assert LexFrom(src, keywords, p, tokens) == LexFrom(src, keywords, v.1, tokens');
        LexFromShape(src, keywords, v.1, tokens');
    }
  }

  /** The token list always ends with exactly one EOF token, placed at the final position,
      and every token carries a value of its kind's shape. */
  lemma LexShape(src: string, keywords: map<string, Kind>)
    requires KeywordTable(keywords)
    ensures Lex(src, keywords).Ok? ==> Terminated(Lex(src, keywords).value, 0, EndToken(src))
  {
    LexFromShape(src, keywords, 0, []);
  }

  /** The `//` rule: a comment before the first token or after `;`, `{`, `}`; elsewhere
      the DOUBLE_SLASH operator. */
  lemma SlashSlashRule(src: string, keywords: map<string, Kind>, p: nat, tokens: seq<Token>)
    requires p <= |src| && SlashSlashAt(src, SkipBlanks(src, p))
    ensures var q := SkipBlanks(src, p);
      CommentAllowed(tokens) ==> LexFrom(src, keywords, p, tokens) == LexFrom(src, keywords, CommentEnd(src, q), tokens)
    ensures var q := SkipBlanks(src, p);
      !CommentAllowed(tokens) ==>
        LexFrom(src, keywords, p, tokens)
        == LexFrom(src, keywords, q + 2, tokens + [Token(DoubleSlash, Text("//"), LineAt(src, q), ColumnAt(src, q))])
  {
    var q := SkipBlanks(src, p);
    if !CommentAllowed(tokens) {
      SlashSlashOperator(src, keywords, p, tokens);
    }
  }

  /** `//` where no comment may start is read as the DOUBLE_SLASH token. */
  lemma SlashSlashOperator(src: string, keywords: map<string, Kind>, p: nat, tokens: seq<Token>)
    requires p <= |src| && SlashSlashAt(src, SkipBlanks(src, p)) && !CommentAllowed(tokens)
    ensures var q := SkipBlanks(src, p);
      LexFrom(src, keywords, p, tokens)
      == LexFrom(src, keywords, q + 2, tokens + [Token(DoubleSlash, Text("//"), LineAt(src, q), ColumnAt(src, q))])
  {
    var q := SkipBlanks(src, p);
    var t := Token(DoubleSlash, Text("//"), LineAt(src, q), ColumnAt(src, q));
    SlashSlashToken(src, keywords, q);
    assert q + 2 <= |src| && NextToken(src, keywords, q) == Ok((t, q + 2));
    LexFromToken(src, keywords, p, tokens, t, q + 2);
  }

  /** Outside a comment the lexer goes on after the token read at the first non-blank. */
  lemma LexFromToken(src: string, keywords: map<string, Kind>, p: nat, tokens: seq<Token>, t: Token, next: nat)
    requires p <= |src| && next <= |src|
    requires var q := SkipBlanks(src, p);
      q < |src| && !(SlashSlashAt(src, q) && CommentAllowed(tokens)) && NextToken(src, keywords, q) == Ok((t, next))
    ensures LexFrom(src, keywords, p, tokens) == LexFrom(src, keywords, next, tokens + [t])
  {
  }

  /** `//` outside a comment is the DOUBLE_SLASH operator. */
  lemma SlashSlashToken(src: string, keywords: map<string, Kind>, q: nat)
    requires SlashSlashAt(src, q)
    ensures NextToken(src, keywords, q) == Ok((Token(DoubleSlash, Text("//"), LineAt(src, q), ColumnAt(src, q)), q + 2))
  {
    assert Operator(src[q], PeekAt(src, q + 1)) == Some((DoubleSlash, "//"));
  }

  /** The two-character operators are single tokens. */
  lemma TwoCharOperators(src: string, keywords: map<string, Kind>, p: nat)
    requires p + 1 < |src| && PairKind(src[p], src[p + 1]).Some?
    ensures NextToken(src, keywords, p)
         == Ok((Token(PairKind(src[p], src[p + 1]).value, Text(src[p..p + 2]), LineAt(src, p), ColumnAt(src, p)), p + 2))
  {
    assert src[p..p + 2] == [src[p], src[p + 1]];
  }

  /** A lone `!`, `&` or `|` is rejected, naming the character and its position. */
  lemma LoneOperatorRejected(src: string, keywords: map<string, Kind>, p: nat)
    requires p < |src| && src[p] in "!&|"
    requires p + 1 < |src| ==> src[p + 1] != (if src[p] == '!' then '=' else src[p])
    ensures NextToken(src, keywords, p) == Err(UnknownCharError(src, p))
  {
    assert SingleKind(src[p]).None?;
    assert Operator(src[p], PeekAt(src, p + 1)).None?;
  }

  // ---------------------------------------------------------------------
  // The lexer object

  class Lexer {
    const source: string
    const keywords: map<string, Kind>
    var pos: nat
    var line: nat
    var column: nat
    var tokens: seq<Token>

    ghost predicate Valid()
      reads this
    {
      pos <= |source| && line == LineAt(source, pos) && column == ColumnAt(source, pos)
    }

    constructor (source: string, keywords: map<string, Kind>)
      ensures Valid() && this.source == source && this.keywords == keywords
      ensures pos == 0 && tokens == []
    {
      this.source := source;
      this.keywords := keywords;
      pos := 0;
      line := 1;
      column := 1;
      tokens := [];
    }

    function CurrentChar(): Option<char>
      reads this
    {
      PeekAt(source, pos)
    }

    /** Moves one character on; a newline starts the next line at column 1. */
    method Advance()
      requires Valid()
      modifies this`pos, this`line, this`column
      ensures Valid()
      ensures pos == if old(pos) < |source| then old(pos) + 1 else old(pos)
      ensures old(pos) < |source| && source[old(pos)] == '\n' ==> line == old(line) + 1 && column == 1
      ensures old(pos) < |source| && source[old(pos)] != '\n' ==> line == old(line) && column == old(column) + 1
      ensures old(pos) == |source| ==> line == old(line) && column == old(column)
    {
      if pos < |source| {
        if source[pos] == '\n' {
          line := line + 1;
          column := 1;
        } else {
          column := column + 1;
        }
        pos := pos + 1;
      }
    }

    method SkipWhitespace()
      requires Valid()
      modifies this`pos, this`line, this`column
      ensures Valid() && pos == SkipBlanks(source, old(pos))
    {
      while pos < |source| && IsBlank(source[pos])
        invariant Valid() && old(pos) <= pos
        invariant SkipBlanks(source, pos) == SkipBlanks(source, old(pos))
        decreases |source| - pos
      {
        Advance();
      }
    }

    method SkipComment()
      requires Valid()
      modifies this`pos, this`line, this`column
      ensures Valid()
      ensures pos == if SlashSlashAt(source, old(pos)) then CommentEnd(source, old(pos)) else old(pos)
    {
      if SlashSlashAt(source, pos) {
        while pos < |source| && source[pos] != '\n'
          invariant Valid() && old(pos) <= pos
          invariant LineEnd(source, pos) == LineEnd(source, old(pos))
          decreases |source| - pos
        {
          Advance();
        }
        if pos < |source| {
          Advance();
        }
      }
    }

    method ReadString() returns (r: Result<Token>)
      requires Valid() && pos < |source| && (source[pos] == '"' || source[pos] == '\'')
      modifies this`pos, this`line, this`column
      ensures Valid() && Agrees(r, pos, ScanString(source, old(pos)))
    {
      var startLine, startColumn := line, column;
      var start := pos;
      var quote := source[pos];
      Advance();
      var value := "";
      while pos < |source| && source[pos] != quote
        invariant Valid() && start < pos <= |source|
        invariant StringFrom(source, quote, start, pos, value) == StringFrom(source, quote, start, start + 1, "")
        decreases |source| - pos
      {
        if source[pos] == '\n' {
          return Err(UnclosedError(source, quote, start));
        }
        if source[pos] == '\\' {
          Advance();
          if pos == |source| {
            return Err(NoneConcatenation);
          }
          value := value + [Unescape(source[pos], quote)];
          Advance();
        } else {
          value := value + [source[pos]];
          Advance();
        }
      }
      if pos < |source| {
        Advance();
      } else {
        return Err(UnclosedError(source, quote, start));
      }
      r := Ok(Token(if quote == '\'' then Char else Str, Text(value), startLine, startColumn));
    }

    method ReadNumber() returns (t: Token)
      requires Valid() && pos < |source| && IsDigit(source[pos])
      modifies this`pos, this`line, this`column
      ensures Valid() && t == ScanNumber(source, old(pos)).0 && pos == ScanNumber(source, old(pos)).1
    {
      var startLine, startColumn := line, column;
      var start := pos;
      var text := "";
      var isFloat := false;
      while pos < |source| && (IsDigit(source[pos]) || source[pos] == '.')
        invariant Valid() && start <= pos <= |source|
        invariant text == source[start..pos]
        invariant NumberEnd(source, pos, isFloat) == NumberEnd(source, start, false)
        invariant isFloat <==> '.' in text
        decreases |source| - pos
      {
        if source[pos] == '.' {
          if isFloat {
            break;
          }
          isFloat := true;
        }
        text := text + [source[pos]];
        Advance();
      }
      if isFloat {
        t := Token(FloatNumber, Real(text), startLine, startColumn);
      } else {
        assert forall k :: 0 <= k < |text| ==> text[k] == source[start + k];
        t := Token(Number, Integer(DigitsValue(text)), startLine, startColumn);
      }
    }

    method ReadIdentifier() returns (t: Token)
      requires Valid() && pos < |source| && IsWordChar(source[pos])
      modifies this`pos, this`line, this`column
      ensures Valid() && t == ScanIdentifier(source, keywords, old(pos)).0 && pos == ScanIdentifier(source, keywords, old(pos)).1
    {
      var startLine, startColumn := line, column;
      var start := pos;
      var word := "";
      while pos < |source| && IsWordChar(source[pos])
        invariant Valid() && start <= pos <= |source|
        invariant word == source[start..pos]
        invariant IdentEnd(source, pos) == IdentEnd(source, start)
        decreases |source| - pos
      {
        word := word + [source[pos]];
        Advance();
      }
      t := Token(if word in keywords then keywords[word] else Identifier, Text(word), startLine, startColumn);
    }

    /** The punctuation branch of `tokenize`: one or two characters, or the unknown-character error. */
    method ReadOperator() returns (r: Result<Token>)
      requires Valid() && pos < |source|
      modifies this`pos, this`line, this`column
      ensures Valid() && Agrees(r, pos, ScanOperator(source, old(pos)))
    {
      var op := Operator(source[pos], PeekAt(source, pos + 1));
      if op.None? {
        return Err(UnknownCharError(source, pos));
      }
      var (kind, text) := op.value;
      r := Ok(Token(kind, Text(text), line, column));
      Advance();
      if |text| == 2 {
        Advance();
      }
    }

    /** The main loop of `tokenize`: appends to `tokens` until the end of the source. */
    method Tokenize() returns (r: Result<seq<Token>>)
      requires Valid()
      modifies this
      ensures r == LexFrom(source, keywords, old(pos), old(tokens))
      ensures r.Ok? ==> tokens == r.value
    {
      while pos < |source|
        invariant Valid()
        invariant LexFrom(source, keywords, pos, tokens) == LexFrom(source, keywords, old(pos), old(tokens))
        decreases |source| - pos
      {
        ghost var (p0, tokens0) := (pos, tokens);
        SkipWhitespace();
        if pos == |source| {
          break;
        }
        if SlashSlashAt(source, pos) && CommentAllowed(tokens) {
          SkipComment();
          continue;
        }
        var c := source[pos];
        ghost var p := pos;
        var t: Token;
        if c == '"' || c == '\'' {
          var s := ReadString();
          if s.Err? {
            return Err(s.error);
          }
          t := s.value;
          assert NextToken(source, keywords, p) == Ok((t, pos));
        } else if IsDigit(c) {
          t := ReadNumber();
          assert NextToken(source, keywords, p) == Ok((t, pos));
        } else if IsAlpha(c) || c == '_' {
          t := ReadIdentifier();
          assert NextToken(source, keywords, p) == Ok((t, pos));
        } else {
          var o := ReadOperator();
          if o.Err? {
            return Err(o.error);
          }
          t := o.value;
          assert NextToken(source, keywords, p) == Ok((t, pos));
        }
        assert LexFrom(source, keywords, p0, tokens0) == LexFrom(source, keywords, pos, tokens + [t]);
        tokens := tokens + [t];
      }
      tokens := tokens + [Token(Eof, NoValue, line, column)];
      r := Ok(tokens);
    }
  }

  /** Lexes a whole source text with a fresh lexer. */
  method Tokenize(source: string, keywords: map<string, Kind>) returns (r: Result<seq<Token>>)
    ensures r == Lex(source, keywords)
  {
    var lexer := new Lexer(source, keywords);
    r := lexer.Tokenize();
  }
}
