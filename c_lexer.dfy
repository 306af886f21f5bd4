/** The C lexer of the C-to-Kato converter (`kato/c2kato/lexer/c_lexer.py`).

    It is permissive: comments of both kinds are always skipped, string and
    character literals keep their escapes raw and need not be closed, and a
    character it does not know (a lone `!` or `|` among them) is dropped
    without a word.  It never fails.

    The specification functions (`SkipCommentEnd`, `BodyEnd`, `ScanString`,
    `NextToken`, `LexFrom`) say what the lexer produces from a position of the
    source; the class `CLexer` keeps the mutable cursor (`pos`, `line`,
    `column`, `tokens`) and its methods are proved to compute exactly them. */
module CLexer {
  import opened Base
  import opened Strings
  import opened TokenValues
  import opened CTokens
  import opened TextScan

  // ---------------------------------------------------------------------
  // Comments

  /** `/` followed by `/` or `*` at `p`: the start of a comment. */
  predicate CommentAt(src: string, p: nat) {
    p + 1 < |src| && src[p] == '/' && (src[p + 1] == '/' || src[p + 1] == '*')
  }

  // The closing star-slash of a block comment at `k`.
  predicate CloseAt(src: string, k: nat) {
    k + 1 < |src| && src[k] == '*' && src[k + 1] == '/'
  }

  // Where the block-comment loop stops when it starts at `p`: just after the
  // first closing star-slash, or at the end of the source when there is none.
  function BlockEnd(src: string, p: nat): (q: nat)
    requires p <= |src|
    ensures p <= q <= |src|
    ensures || (q == |src| && forall k :: p <= k < |src| ==> !CloseAt(src, k))
            || (p + 2 <= q && CloseAt(src, q - 2) && forall k :: p <= k < q - 2 ==> !CloseAt(src, k))
    decreases |src| - p
  {
    if p == |src| then p
    else if CloseAt(src, p) then p + 2
    else BlockEnd(src, p + 1)
  }

  // Where `skip_comment` stops for the comment at `p`: after the newline that
  // ends a line comment, or after the star-slash that closes a block comment.
  function SkipCommentEnd(src: string, p: nat): (q: nat)
    requires CommentAt(src, p)
    ensures p + 2 <= q <= |src|
  {
    if src[p + 1] == '/' then
      var q := CommentEnd(src, p);
      assert src[p + 1] != '\n';
      q
    else BlockEnd(src, p + 2)
  }

  /** A block comment that is never closed runs to the end of the source. */
  lemma UnclosedBlockComment(src: string, p: nat)
    requires CommentAt(src, p) && src[p + 1] == '*'
    requires forall k :: p + 2 <= k < |src| ==> !CloseAt(src, k)
    ensures SkipCommentEnd(src, p) == |src|
  {
  }

  // ---------------------------------------------------------------------
  // String and character literals

  /** Where the body of a literal quoted by `quote` ends, reading from `p`: at
      the closing quote, or at the end of the source.  A backslash always
      takes the next character with it, whatever that character is. */
  function BodyEnd(src: string, quote: char, p: nat): (q: nat)
    requires p <= |src|
    ensures p <= q <= |src|
    ensures q == |src| || src[q] == quote
    decreases |src| - p
  {
    if p == |src| || src[p] == quote then p
    else if src[p] == '\\' then
      if p + 1 < |src| then BodyEnd(src, quote, p + 2) else p + 1
    else BodyEnd(src, quote, p + 1)
  }

  /** A literal whose quote never comes again is not an error: it runs to the
      end of the source. */
  lemma {:induction false} UnclosedLiteral(src: string, quote: char, p: nat)
    requires p <= |src|
    requires forall k :: p <= k < |src| ==> src[k] != quote
    ensures BodyEnd(src, quote, p) == |src|
    decreases |src| - p
  {
    if p < |src| && src[p] == '\\' && p + 1 < |src| {
      UnclosedLiteral(src, quote, p + 2);
    } else if p < |src| && src[p] != '\\' {
      UnclosedLiteral(src, quote, p + 1);
    }
  }

  /** An escaped quote does not close the literal: the body goes on after it. */
  lemma EscapedQuoteKept(src: string, quote: char, p: nat)
    requires p + 1 < |src| && src[p] == '\\' && src[p + 1] == quote && quote != '\\'
    ensures BodyEnd(src, quote, p) == BodyEnd(src, quote, p + 2) && BodyEnd(src, quote, p) >= p + 2
  {
  }

  /** `read_string` at an opening quote: CHAR for `'`, STRING for `"`,
      positioned at the quote, its value the source text between the quotes
      with every escape kept as written. */
  function ScanString(src: string, p: nat): (r: (CToken, nat))
    requires p < |src| && (src[p] == '"' || src[p] == '\'')
    ensures p < r.1 <= |src|
    ensures r.0.kind == (if src[p] == '\'' then Char else Str)
    ensures r.0.line == LineAt(src, p) && r.0.column == ColumnAt(src, p)
    ensures var e := BodyEnd(src, src[p], p + 1);
      r.0.value == Text(src[p + 1..e]) && r.1 == (if e < |src| then e + 1 else e)
  {
    var e := BodyEnd(src, src[p], p + 1);
    (CToken(if src[p] == '\'' then Char else Str, Text(src[p + 1..e]), LineAt(src, p), ColumnAt(src, p)),
     if e < |src| then e + 1 else e)
  }

  // ---------------------------------------------------------------------
  // Numbers and identifiers

  /** `read_number` at a digit: FLOAT_NUMBER (keeping the lexeme) exactly when a dot was consumed. */
  function ScanNumber(src: string, p: nat): (r: (CToken, nat))
    requires p < |src| && IsDigit(src[p])
    ensures p < r.1 <= |src|
    ensures r.0.kind == FloatNumber <==> '.' in src[p..r.1]
    ensures r.0.kind == FloatNumber ==> r.0.value == Real(src[p..r.1])
    ensures r.0.kind == Number ==> AllDigits(src[p..r.1]) && r.0.value == Integer(DigitsValue(src[p..r.1]))
    ensures r.0.kind.Number? || r.0.kind.FloatNumber?
    ensures r.0.line == LineAt(src, p) && r.0.column == ColumnAt(src, p)
  {
    var q := NumberEnd(src, p, false);
    var lexeme := src[p..q];
    if '.' in lexeme then
      (CToken(FloatNumber, Real(lexeme), LineAt(src, p), ColumnAt(src, p)), q)
    else
      assert forall k :: 0 <= k < |lexeme| ==> lexeme[k] == src[p + k];
      (CToken(Number, Integer(DigitsValue(lexeme)), LineAt(src, p), ColumnAt(src, p)), q)
  }

  /** `read_identifier` at a letter or `_`: the keyword's kind if the word is
      in the table, IDENTIFIER otherwise; the value is the word itself. */
  function ScanIdentifier(src: string, keywords: map<string, CKind>, p: nat): (r: (CToken, nat))
    requires p < |src| && IsWordChar(src[p])
    ensures p < r.1 <= |src|
    ensures r.0.value == Text(src[p..r.1])
    ensures src[p..r.1] in keywords ==> r.0.kind == keywords[src[p..r.1]]
    ensures src[p..r.1] !in keywords ==> r.0.kind == Identifier
    ensures r.0.line == LineAt(src, p) && r.0.column == ColumnAt(src, p)
  {
    var q := IdentEnd(src, p);
    var word := src[p..q];
    (CToken(if word in keywords then keywords[word] else Identifier, Text(word), LineAt(src, p), ColumnAt(src, p)), q)
  }

  // ---------------------------------------------------------------------
  // Punctuation and operators

  /** The two-character operators `tokenize` recognises by looking one character ahead. */
  function PairKind(c: char, d: char): (r: Option<CKind>)
    ensures r.Some? ==> c in "=+-<>!&|" && Symbol(r.value) == Some([c, d])
  {
    if c == '=' && d == '=' then Some(EqualEqual)
    else if c == '+' && d == '+' then Some(PlusPlus)
    else if c == '-' && d == '-' then Some(MinusMinus)
    else if c == '<' && d == '=' then Some(LessEqual)
    else if c == '>' && d == '=' then Some(GreaterEqual)
    else if c == '!' && d == '=' then Some(NotEqual)
    else if c == '&' && d == '&' then Some(And)
    else if c == '|' && d == '|' then Some(Or)
    else None
  }

  /** The one-character tokens of `tokenize`; `!` and `|` have none. */
  function SingleKind(c: char): (r: Option<CKind>)
    ensures r.Some? <==> c in {'#', '{', '}', '(', ')', '[', ']', ';', ',', '=', '+', '-', '*', '/', '%', '<', '>', '&'}
    ensures r.Some? ==> Symbol(r.value) == Some([c])
  {
    match c
    case '#' => Some(Hash)
    case '{' => Some(LBrace)
    case '}' => Some(RBrace)
    case '(' => Some(LParen)
    case ')' => Some(RParen)
    case '[' => Some(LBracket)
    case ']' => Some(RBracket)
    case ';' => Some(Semicolon)
    case ',' => Some(Comma)
    case '=' => Some(Equals)
    case '+' => Some(Plus)
    case '-' => Some(Minus)
    case '*' => Some(Asterisk)
    case '/' => Some(Slash)
    case '%' => Some(Percent)
    case '<' => Some(Less)
    case '>' => Some(Greater)
    case '&' => Some(Ampersand)
    case _ => None
  }

  /** The punctuation branch of `tokenize`, given the current character and
      the one after it (`peek_char`): the kind and the text of the token, or
      nothing for a character that is dropped. */
  function Operator(c: char, next: Option<char>): (r: Option<(CKind, string)>)
    ensures r.Some? ==> 1 <= |r.value.1| <= 2 && r.value.1[0] == c && Symbol(r.value.0) == Some(r.value.1)
    ensures r.Some? && |r.value.1| == 2 ==> next == Some(r.value.1[1])
  {
    if next.Some? && PairKind(c, next.value).Some? then Some((PairKind(c, next.value).value, [c, next.value]))
    else if SingleKind(c).Some? then Some((SingleKind(c).value, [c]))
    else None
  }

  /** The punctuation branch of `tokenize` at `p`: an operator token, or
      nothing when the character is dropped. */
  function ScanOperator(src: string, p: nat): (r: (Option<CToken>, nat))
    requires p < |src|
    ensures p < r.1 <= |src|
    ensures r.0.Some? ==> r.0.value.line == LineAt(src, p) && r.0.value.column == ColumnAt(src, p)
  {
    match Operator(src[p], PeekAt(src, p + 1))
    case None => (None, p + 1)
    case Some(op) => (Some(CToken(op.0, Text(op.1), LineAt(src, p), ColumnAt(src, p))), p + |op.1|)
  }

  /** An operator of one or two characters is read as a token at `p`. */
  lemma OperatorScanned(src: string, p: nat, kind: CKind, text: string)
    requires p < |src| && Operator(src[p], PeekAt(src, p + 1)) == Some((kind, text))
    ensures p + |text| <= |src|
    ensures ScanOperator(src, p).1 == p + |text|
    ensures ScanOperator(src, p).0 == Some(CToken(kind, Text(text), LineAt(src, p), ColumnAt(src, p)))
  {
    var next := PeekAt(src, p + 1);
    if |text| == 2 {
      assert next == Some(text[1]);
      assert p + 1 < |src|;
    }
  }

  /** One step of `tokenize` at a non-blank character `p` that starts no
      comment: the token read, if any, and the position after it. */
  function NextToken(src: string, keywords: map<string, CKind>, p: nat): (r: (Option<CToken>, nat))
    requires p < |src|
    ensures p < r.1 <= |src|
    ensures r.0.Some? ==> r.0.value.line == LineAt(src, p) && r.0.value.column == ColumnAt(src, p)
  {
    var c := src[p];
    if c == '"' || c == '\'' then
      var (t, q) := ScanString(src, p); (Some(t), q)
    else if IsDigit(c) then
      var (t, q) := ScanNumber(src, p); (Some(t), q)
    else if IsAlpha(c) || c == '_' then
      var (t, q) := ScanIdentifier(src, keywords, p); (Some(t), q)
    else ScanOperator(src, p)
  }

  /** No token read from the text is EOF, and each carries a value of its kind's shape. */
  lemma NextTokenShape(src: string, keywords: map<string, CKind>, p: nat)
    requires p < |src| && KeywordTable(keywords)
    ensures var r := NextToken(src, keywords, p);
      r.0.Some? ==> r.0.value.kind != Eof && WellFormedToken(r.0.value)
  {
    var c := src[p];
    if IsAlpha(c) || c == '_' {
      var t := ScanIdentifier(src, keywords, p);
      var word := src[p..t.1];
      if word in keywords {
        assert IsKeywordKind(keywords[word]);
      }
      KeywordsAreWords(t.0.kind);
    }
  }

  // ---------------------------------------------------------------------
  // The whole token stream

  /** The EOF token, at the line and column reached at the end of the source. */
  function EndToken(src: string): CToken {
    CToken(Eof, NoValue, LineAt(src, |src|), ColumnAt(src, |src|))
  }

  /** `tokenize` from position `p` with `tokens` already produced. */
  function LexFrom(src: string, keywords: map<string, CKind>, p: nat, tokens: seq<CToken>): seq<CToken>
    requires p <= |src|
    decreases |src| - p
  {
    var q := SkipBlanks(src, p);
    if q == |src| then tokens + [EndToken(src)]
    else if CommentAt(src, q) then LexFrom(src, keywords, SkipCommentEnd(src, q), tokens)
    else
      var (t, next) := NextToken(src, keywords, q);
      LexFrom(src, keywords, next, if t.Some? then tokens + [t.value] else tokens)
  }

  /** The token list of a whole source text. */
  function Lex(src: string, keywords: map<string, CKind>): seq<CToken> {
    LexFrom(src, keywords, 0, [])
  }

  /** One step of `tokenize` after the blanks: a token read, or a character dropped. */
  lemma LexStep(src: string, keywords: map<string, CKind>, p: nat, q: nat, tokens: seq<CToken>)
    requires p <= q < |src| && q == SkipBlanks(src, p) && !CommentAt(src, q)
    ensures var r := NextToken(src, keywords, q);
      LexFrom(src, keywords, p, tokens) == LexFrom(src, keywords, r.1, if r.0.Some? then tokens + [r.0.value] else tokens)
  {
  }

  /** A comment after the blanks is skipped. */
  lemma LexComment(src: string, keywords: map<string, CKind>, p: nat, q: nat, tokens: seq<CToken>)
    requires p <= q < |src| && q == SkipBlanks(src, p) && CommentAt(src, q)
    ensures LexFrom(src, keywords, p, tokens) == LexFrom(src, keywords, SkipCommentEnd(src, q), tokens)
  {
  }

  /** Only blanks are left: EOF is appended. */
  lemma LexEnd(src: string, keywords: map<string, CKind>, p: nat, tokens: seq<CToken>)
    requires p <= |src| && SkipBlanks(src, p) == |src|
    ensures LexFrom(src, keywords, p, tokens) == tokens + [EndToken(src)]
  {
  }

  /** No token of the list is EOF. */
  predicate NoEof(tokens: seq<CToken>) {
    forall i :: 0 <= i < |tokens| ==> !tokens[i].kind.Eof?
  }

  /** A finished token list: well formed, longer than `n`, and EOF exactly at the end. */
  ghost predicate Terminated(tokens: seq<CToken>, n: nat, eof: CToken) {
    |tokens| > n && tokens[|tokens| - 1] == eof && NoEof(tokens[..|tokens| - 1]) && WellFormed(tokens)
  }

  lemma AppendShape(tokens: seq<CToken>, t: CToken)
    requires WellFormed(tokens) && NoEof(tokens) && WellFormedToken(t) && !t.kind.Eof?
    ensures WellFormed(tokens + [t]) && NoEof(tokens + [t])
  {
    WellFormedAppend(tokens, t);
  }

  lemma AppendEnd(tokens: seq<CToken>, eof: CToken)
    requires WellFormed(tokens) && NoEof(tokens) && eof.kind.Eof? && eof.value.NoValue?
    ensures Terminated(tokens + [eof], |tokens|, eof)
  {
    WellFormedAppend(tokens, eof);
    assert (tokens + [eof])[..|tokens|] == tokens;
  }

  /** What `tokenize` produces from a position keeps the tokens it had, ends
      with a single EOF token at the final line and column, and gives every
      token a value of its kind's shape. */
  lemma {:induction false} LexFromShape(src: string, keywords: map<string, CKind>, p: nat, tokens: seq<CToken>)
    requires p <= |src| && KeywordTable(keywords)
    requires WellFormed(tokens) && NoEof(tokens)
    ensures Terminated(LexFrom(src, keywords, p, tokens), |tokens|, EndToken(src))
    ensures LexFrom(src, keywords, p, tokens)[..|tokens|] == tokens
    decreases |src| - p
  {
    var q := SkipBlanks(src, p);
    if q == |src| {
      AppendEnd(tokens, EndToken(src));
      assert (tokens + [EndToken(src)])[..|tokens|] == tokens;
    } else if CommentAt(src, q) {
      LexFromShape(src, keywords, SkipCommentEnd(src, q), tokens);
    } else {
      var (t, next) := NextToken(src, keywords, q);
      NextTokenShape(src, keywords, q);
      if t.Some? {
        AppendShape(tokens, t.value);
        var tokens' := tokens + [t.value];
        assert LexFrom(src, keywords, p, tokens) == LexFrom(src, keywords, next, tokens');
        LexFromShape(src, keywords, next, tokens');
        assert tokens'[..|tokens|] == tokens;
      } else {
        assert LexFrom(src, keywords, p, tokens) == LexFrom(src, keywords, next, tokens);
        LexFromShape(src, keywords, next, tokens);
      }
    }
  }

  /** The token list always ends with exactly one EOF token, placed at the
      final position, and every token carries a value of its kind's shape. */
  lemma LexShape(src: string, keywords: map<string, CKind>)
    requires KeywordTable(keywords)
    ensures Terminated(Lex(src, keywords), 0, EndToken(src))
  {
    LexFromShape(src, keywords, 0, []);
  }

  /** Comments are skipped whatever token precedes them. */
  lemma CommentsAlwaysSkipped(src: string, keywords: map<string, CKind>, p: nat, tokens: seq<CToken>)
    requires p <= |src| && CommentAt(src, SkipBlanks(src, p))
    ensures LexFrom(src, keywords, p, tokens) == LexFrom(src, keywords, SkipCommentEnd(src, SkipBlanks(src, p)), tokens)
  {
  }

  /** A `/` that starts no comment is always SLASH: there is no `//` operator. */
  lemma SlashIsDivision(src: string, keywords: map<string, CKind>, p: nat)
    requires p < |src| && src[p] == '/' && !CommentAt(src, p)
    ensures NextToken(src, keywords, p) == (Some(CToken(Slash, Text("/"), LineAt(src, p), ColumnAt(src, p))), p + 1)
  {
    assert !IsDigit(src[p]) && !IsAlpha(src[p]);
    PunctuationScanned(src, keywords, p);
    assert SingleKind('/') == Some(Slash);
    assert PeekAt(src, p + 1).Some? ==> PairKind('/', PeekAt(src, p + 1).value).None?;
    SingleOperator(src, p, Slash);
  }

  /** A character with a one-character token and no two-character partner after it. */
  lemma SingleOperator(src: string, p: nat, k: CKind)
    requires p < |src| && SingleKind(src[p]) == Some(k)
    requires PeekAt(src, p + 1).Some? ==> PairKind(src[p], PeekAt(src, p + 1).value).None?
    ensures ScanOperator(src, p) == (Some(CToken(k, Text([src[p]]), LineAt(src, p), ColumnAt(src, p))), p + 1)
  {
    var op := Operator(src[p], PeekAt(src, p + 1));
    assert op == Some((k, [src[p]]));
  }

  /** A character that starts no string, number or word goes to the punctuation branch. */
  lemma PunctuationScanned(src: string, keywords: map<string, CKind>, p: nat)
    requires p < |src|
    requires !(src[p] == '"' || src[p] == '\'' || IsDigit(src[p]) || IsAlpha(src[p]) || src[p] == '_')
    ensures NextToken(src, keywords, p) == ScanOperator(src, p)
  {
  }

  /** A character that starts no token is dropped: the lexer moves on one
      character and adds nothing.  This covers a lone `!` and a lone `|`. */
  lemma UnknownDropped(src: string, keywords: map<string, CKind>, p: nat)
    requires p < |src|
    requires !(src[p] == '"' || src[p] == '\'' || IsDigit(src[p]) || IsAlpha(src[p]) || src[p] == '_')
    requires Operator(src[p], PeekAt(src, p + 1)).None?
    ensures NextToken(src, keywords, p) == (None, p + 1)
  {
    PunctuationScanned(src, keywords, p);
  }

  /** A lone `&` is the address-of AMPERSAND. */
  lemma LoneAmpersand(src: string, keywords: map<string, CKind>, p: nat)
    requires p < |src| && src[p] == '&'
    requires p + 1 < |src| ==> src[p + 1] != '&'
    ensures NextToken(src, keywords, p) == (Some(CToken(Ampersand, Text("&"), LineAt(src, p), ColumnAt(src, p))), p + 1)
  {
    PunctuationScanned(src, keywords, p);
    SingleOperator(src, p, Ampersand);
  }

  /** A `!` not followed by `=`, or a `|` not followed by `|`, is dropped. */
  lemma LoneBangOrBar(src: string, keywords: map<string, CKind>, p: nat)
    requires p < |src| && (src[p] == '!' || src[p] == '|')
    requires p + 1 < |src| ==> src[p + 1] != (if src[p] == '!' then '=' else src[p])
    ensures NextToken(src, keywords, p) == (None, p + 1)
  {
    var c := src[p];
    assert SingleKind(c).None?;
    assert PeekAt(src, p + 1).Some? ==> PairKind(c, PeekAt(src, p + 1).value).None?;
    UnknownDropped(src, keywords, p);
  }

  /** A lone `!` or `|` is dropped, and a lone `&` is the address-of AMPERSAND. */
  lemma LoneOperators(src: string, keywords: map<string, CKind>, p: nat)
    requires p < |src| && src[p] in "!|&"
    requires p + 1 < |src| ==> src[p + 1] != (if src[p] == '!' then '=' else src[p])
    ensures src[p] != '&' ==> NextToken(src, keywords, p) == (None, p + 1)
    ensures src[p] == '&' ==> NextToken(src, keywords, p) == (Some(CToken(Ampersand, Text("&"), LineAt(src, p), ColumnAt(src, p))), p + 1)
  {
    if src[p] == '&' {
      LoneAmpersand(src, keywords, p);
    } else {
      assert src[p] == '!' || src[p] == '|';
      LoneBangOrBar(src, keywords, p);
    }
  }

  // ---------------------------------------------------------------------
  // The lexer object

  class CLexer {
    const source: string
    const keywords: map<string, CKind>
    var pos: nat
    var line: nat
    var column: nat
    var tokens: seq<CToken>

    ghost predicate Valid()
      reads this
    {
      pos <= |source| && line == LineAt(source, pos) && column == ColumnAt(source, pos)
    }

    constructor (source: string, keywords: map<string, CKind>)
      ensures Valid() && this.source == source && this.keywords == keywords
      ensures pos == 0 && tokens == []
    {
      this.source := source;
      this.keywords := keywords;
      pos := 0;
      line := 1;
      column := 1;
      tokens := [];
    }

    function CurrentChar(): Option<char>
      reads this
    {
      PeekAt(source, pos)
    }

    /** Moves one character on; a newline starts the next line at column 1. */
    method Advance()
      requires Valid()
      modifies this`pos, this`line, this`column
      ensures Valid()
      ensures pos == if old(pos) < |source| then old(pos) + 1 else old(pos)
      ensures old(pos) < |source| && source[old(pos)] == '\n' ==> line == old(line) + 1 && column == 1
      ensures old(pos) < |source| && source[old(pos)] != '\n' ==> line == old(line) && column == old(column) + 1
      ensures old(pos) == |source| ==> line == old(line) && column == old(column)
    {
      if pos < |source| {
        if source[pos] == '\n' {
          line := line + 1;
          column := 1;
        } else {
          column := column + 1;
        }
        pos := pos + 1;
      }
    }

    method SkipWhitespace()
      requires Valid()
      modifies this`pos, this`line, this`column
      ensures Valid() && pos == SkipBlanks(source, old(pos))
    {
      while pos < |source| && IsBlank(source[pos])
        invariant Valid() && old(pos) <= pos
        invariant SkipBlanks(source, pos) == SkipBlanks(source, old(pos))
        decreases |source| - pos
      {
        Advance();
      }
    }

    // `skip_comment`: a line comment through its newline, a block comment
    // through its closing star-slash; anywhere else it does nothing.
    method SkipComment()
      requires Valid()
      modifies this`pos, this`line, this`column
      ensures Valid()
      ensures pos == if CommentAt(source, old(pos)) then SkipCommentEnd(source, old(pos)) else old(pos)
    {
      if pos + 1 < |source| && source[pos] == '/' && source[pos + 1] == '/' {
        while pos < |source| && source[pos] != '\n'
          invariant Valid() && old(pos) <= pos
          invariant LineEnd(source, pos) == LineEnd(source, old(pos))
          decreases |source| - pos
        {
          Advance();
        }
        if pos < |source| {
          Advance();
        }
      } else if pos + 1 < |source| && source[pos] == '/' && source[pos + 1] == '*' {
        Advance();
        Advance();
        while pos < |source|
          invariant Valid() && old(pos) + 2 <= pos
          invariant BlockEnd(source, pos) == BlockEnd(source, old(pos) + 2)
          decreases |source| - pos
        {
          if source[pos] == '*' && pos + 1 < |source| && source[pos + 1] == '/' {
            Advance();
            Advance();
            break;
          }
          Advance();
        }
      }
    }

    /** `read_string` at an opening quote: reads to the matching quote or the
        end of the source, copying each backslash together with the character
        after it. */
    method ReadString() returns (t: CToken)
      requires Valid() && pos < |source| && (source[pos] == '"' || source[pos] == '\'')
      modifies this`pos, this`line, this`column
      ensures Valid() && t == ScanString(source, old(pos)).0 && pos == ScanString(source, old(pos)).1
    {
      var startLine, startColumn := line, column;
      var start := pos;
      var quote := source[pos];
      Advance();
      var value := "";
      while pos < |source| && source[pos] != quote
        invariant Valid() && start < pos <= |source|
        invariant value == source[start + 1..pos]
        invariant BodyEnd(source, quote, pos) == BodyEnd(source, quote, start + 1)
        decreases |source| - pos
      {
        assert source[start + 1..pos + 1] == value + [source[pos]];
        if source[pos] == '\\' {
          value := value + ['\\'];
          Advance();
          if pos < |source| {
            assert source[start + 1..pos + 1] == value + [source[pos]];
            value := value + [source[pos]];
            Advance();
          }
        } else {
          value := value + [source[pos]];
          Advance();
        }
      }
      if pos < |source| {
        Advance();
      }
      t := CToken(if quote == '\'' then Char else Str, Text(value), startLine, startColumn);
    }

    method ReadNumber() returns (t: CToken)
      requires Valid() && pos < |source| && IsDigit(source[pos])
      modifies this`pos, this`line, this`column
      ensures Valid() && t == ScanNumber(source, old(pos)).0 && pos == ScanNumber(source, old(pos)).1
    {
      var startLine, startColumn := line, column;
      var start := pos;
      var text := "";
      var isFloat := false;
      while pos < |source| && (IsDigit(source[pos]) || source[pos] == '.')
        invariant Valid() && start <= pos <= |source|
        invariant text == source[start..pos]
        invariant NumberEnd(source, pos, isFloat) == NumberEnd(source, start, false)
        invariant isFloat <==> '.' in text
        decreases |source| - pos
      {
        if source[pos] == '.' {
          if isFloat {
            break;
          }
          isFloat := true;
        }
        text := text + [source[pos]];
        Advance();
      }
      if isFloat {
        t := CToken(FloatNumber, Real(text), startLine, startColumn);
      } else {
        assert forall k :: 0 <= k < |text| ==> text[k] == source[start + k];
        t := CToken(Number, Integer(DigitsValue(text)), startLine, startColumn);
      }
    }

    method ReadIdentifier() returns (t: CToken)
      requires Valid() && pos < |source| && IsWordChar(source[pos])
      modifies this`pos, this`line, this`column
      ensures Valid() && t == ScanIdentifier(source, keywords, old(pos)).0 && pos == ScanIdentifier(source, keywords, old(pos)).1
    {
      var startLine, startColumn := line, column;
      var start := pos;
      var word := "";
      while pos < |source| && IsWordChar(source[pos])
        invariant Valid() && start <= pos <= |source|
        invariant word == source[start..pos]
        invariant IdentEnd(source, pos) == IdentEnd(source, start)
        decreases |source| - pos
      {
        word := word + [source[pos]];
        Advance();
      }
      t := CToken(if word in keywords then keywords[word] else Identifier, Text(word), startLine, startColumn);
    }

    /** The punctuation branch of `tokenize`: one or two characters make a
        token, and any other character is skipped. */
    method ReadOperator() returns (t: Option<CToken>)
      requires Valid() && pos < |source|
      requires !(source[pos] == '"' || source[pos] == '\'' || IsDigit(source[pos]) || IsAlpha(source[pos]) || source[pos] == '_')
      modifies this`pos, this`line, this`column
      ensures Valid() && t == ScanOperator(source, old(pos)).0 && pos == ScanOperator(source, old(pos)).1
    {
      var op := Operator(source[pos], PeekAt(source, pos + 1));
      if op.None? {
        Advance();
        return None;
      }
      var (kind, text) := op.value;
      OperatorScanned(source, pos, kind, text);
      t := Some(CToken(kind, Text(text), line, column));
      Advance();
      if |text| == 2 {
        Advance();
      }
    }

    /** One token of `tokenize` at a character that is neither blank nor the
        start of a comment. */
    method ReadToken() returns (t: Option<CToken>)
      requires Valid() && pos < |source|
      modifies this`pos, this`line, this`column
      ensures Valid() && t == NextToken(source, keywords, old(pos)).0 && pos == NextToken(source, keywords, old(pos)).1
    {
      var c := source[pos];
      if c == '"' || c == '\'' {
        var s := ReadString();
        t := Some(s);
      } else if IsDigit(c) {
        var n := ReadNumber();
        t := Some(n);
      } else if IsAlpha(c) || c == '_' {
        var w := ReadIdentifier();
        t := Some(w);
      } else {
        t := ReadOperator();
      }
    }

    /** `tokenize`: appends to `tokens` until the end of the source, then EOF. */
    method Tokenize() returns (r: seq<CToken>)
      requires Valid()
      modifies this
      ensures r == LexFrom(source, keywords, old(pos), old(tokens)) && tokens == r
    {
      while pos < |source|
        invariant Valid()
        invariant LexFrom(source, keywords, pos, tokens) == LexFrom(source, keywords, old(pos), old(tokens))
        decreases |source| - pos
      {
        ghost var (p0, tokens0) := (pos, tokens);
        SkipWhitespace();
        if pos == |source| {
          LexEnd(source, keywords, p0, tokens);
          break;
        }
        if CommentAt(source, pos) {
          LexComment(source, keywords, p0, pos, tokens);
          SkipComment();
          assert p0 < pos;
          continue;
        }
        LexStep(source, keywords, p0, pos, tokens);
        var t := ReadToken();
        assert p0 < pos;
        if t.Some? {
          tokens := tokens + [t.value];
        }
      }
      if pos == |source| {
        LexEnd(source, keywords, pos, tokens);
      }
      tokens := tokens + [CToken(Eof, NoValue, line, column)];
      r := tokens;
    }
  }

  /** Lexes a whole source text with a fresh lexer. */
  method Tokenize(source: string, keywords: map<string, CKind>) returns (r: seq<CToken>)
    ensures r == Lex(source, keywords)
  {
    var lexer := new CLexer(source, keywords);
    r := lexer.Tokenize();
  }
}
