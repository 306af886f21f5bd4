/** What both lexers (`kato/lexer/lexer.py` and `kato/c2kato/lexer/c_lexer.py`)
    share: the line and column that `advance` reaches, and where the scanning
    loops for whitespace, `//` comments, numbers and identifiers stop.  Each
    is a function of the source and a start position. */
module TextScan {
  import opened Base
  import opened Strings

  // ---------------------------------------------------------------------
  // Line and column after consuming a prefix of the source

  /** The line `advance` reaches after consuming `src[..p]` from line 1. */
  function LineAt(src: string, p: nat): (line: nat)
    requires p <= |src|
    ensures line >= 1
  {
    if p == 0 then 1
    else if src[p - 1] == '\n' then LineAt(src, p - 1) + 1
    else LineAt(src, p - 1)
  }

  /** The column `advance` reaches after consuming `src[..p]` from column 1:
      one more than the number of characters since the last newline. */
  function ColumnAt(src: string, p: nat): (column: nat)
    requires p <= |src|
    ensures 1 <= column <= p + 1
  {
    if p == 0 then 1
    else if src[p - 1] == '\n' then 1
    else ColumnAt(src, p - 1) + 1
  }

  function CountChar(s: string, c: char): nat {
    if s == [] then 0 else CountChar(s[..|s| - 1], c) + (if s[|s| - 1] == c then 1 else 0)
  }

  /** The line number is one more than the number of newlines consumed. */
  lemma {:induction false} LineCountsNewlines(src: string, p: nat)
    requires p <= |src|
    ensures LineAt(src, p) == 1 + CountChar(src[..p], '\n')
  {
    if p > 0 {
      LineCountsNewlines(src, p - 1);
      assert src[..p][..p - 1] == src[..p - 1];
    }
  }

  // ---------------------------------------------------------------------
  // Whitespace and comments

  predicate IsBlank(c: char) { c == ' ' || c == '\t' || c == '\r' || c == '\n' }

  /** Where `skip_whitespace` stops. */
  function SkipBlanks(src: string, p: nat): (q: nat)
    requires p <= |src|
    ensures p <= q <= |src|
    ensures forall k :: p <= k < q ==> IsBlank(src[k])
    ensures q == |src| || !IsBlank(src[q])
    decreases |src| - p
  {
    if p < |src| && IsBlank(src[p]) then SkipBlanks(src, p + 1) else p
  }

  /** The first newline at or after `p`, or the end of the source. */
  function LineEnd(src: string, p: nat): (q: nat)
    requires p <= |src|
    ensures p <= q <= |src|
    ensures forall k :: p <= k < q ==> src[k] != '\n'
    ensures q < |src| ==> src[q] == '\n'
    decreases |src| - p
  {
    if p < |src| && src[p] != '\n' then LineEnd(src, p + 1) else p
  }

  /** Where `skip_comment` stops: just after the newline ending the comment,
      or at the end of the source. */
  function CommentEnd(src: string, p: nat): (q: nat)
    requires p < |src|
    ensures p < q <= |src|
    ensures forall k :: p <= k < q - 1 ==> src[k] != '\n'
    ensures q < |src| ==> src[q - 1] == '\n'
  {
    var e := LineEnd(src, p);
    if e < |src| then e + 1 else e
  }

  // ---------------------------------------------------------------------
  // Numbers and identifiers

  /** Where `read_number` stops: digits and dots, a second dot ending the number. */
  function NumberEnd(src: string, p: nat, seenDot: bool): (q: nat)
    requires p <= |src|
    ensures p <= q <= |src|
    ensures forall k :: p <= k < q ==> IsDigit(src[k]) || src[k] == '.'
    ensures seenDot ==> forall k :: p <= k < q ==> src[k] != '.'
    ensures !seenDot ==> forall i, j :: p <= i < j < q && src[i] == '.' ==> src[j] != '.'
    ensures q == |src| || (!IsDigit(src[q]) && (src[q] != '.' || seenDot || exists k :: p <= k < q && src[k] == '.'))
    decreases |src| - p
  {
    if p < |src| && (IsDigit(src[p]) || src[p] == '.') then
      if src[p] == '.' then
        if seenDot then p else NumberEnd(src, p + 1, true)
      else NumberEnd(src, p + 1, seenDot)
    else p
  }

  /** Where `read_identifier` stops. */
  function IdentEnd(src: string, p: nat): (q: nat)
    requires p <= |src|
    ensures p <= q <= |src|
    ensures forall k :: p <= k < q ==> IsWordChar(src[k])
    ensures q == |src| || !IsWordChar(src[q])
    decreases |src| - p
  {
    if p < |src| && IsWordChar(src[p]) then IdentEnd(src, p + 1) else p
  }

  /** `peek_char`: the character at `p`, if any. */
  function PeekAt(src: string, p: nat): Option<char> {
    if p < |src| then Some(src[p]) else None
  }
}
