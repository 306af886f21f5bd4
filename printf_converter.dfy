/** The rewriting of a `printf` argument list into the values of a Kato
    `print` statement (`kato/c2kato/converter/printf_converter.py`).

    The format string is cut at its conversion specifiers; each non-empty
    piece of literal text becomes a string value and the i-th specifier is
    replaced by a `*name*` placeholder for the i-th remaining argument. */
module PrintfConverter {
  import opened Base
  import opened Strings
  import opened KatoAst

  // ---------------------------------------------------------------------
  // The specifier pattern `%\.?\d*[dfsci]|%lf|%\.?\d*lf`

  /** The specifier language, stated declaratively: `%`, an optional `.`,
      then a conversion tail. */
  predicate IsSpecifier(t: string) {
    |t| >= 2 && t[0] == '%' &&
    (ConversionTail(t[1..]) || (t[1] == '.' && ConversionTail(t[2..])))
  }

  /** The conversion letters `[dfsci]`. */
  predicate IsConversion(c: char) { c == 'd' || c == 'f' || c == 's' || c == 'c' || c == 'i' }

  /** Digits followed by one of `d f s c i`, or digits followed by `lf`. */
  predicate ConversionTail(u: string) {
    (|u| >= 1 && AllDigits(u[..|u| - 1]) && IsConversion(u[|u| - 1])) ||
    (|u| >= 2 && AllDigits(u[..|u| - 2]) && u[|u| - 2] == 'l' && u[|u| - 1] == 'f')
  }

  /** Where the run of digits starting at `q` ends (`\d*`). */
  function DigitsEnd(s: string, q: nat): (r: nat)
    requires q <= |s|
    ensures q <= r <= |s|
    ensures forall k :: q <= k < r ==> IsDigit(s[k])
    ensures r == |s| || !IsDigit(s[r])
    decreases |s| - q
  {
    if q < |s| && IsDigit(s[q]) then DigitsEnd(s, q + 1) else q
  }

  /** Where the specifier the pattern matches at `p` ends, if it matches
      there.  The first alternative is tried first; the second is a special
      case of the third. */
  function SpecifierEnd(s: string, p: nat): (r: Option<nat>)
    ensures r.Some? ==> p < r.value <= |s|
  {
    if p >= |s| || s[p] != '%' then None
    else
      var d := DigitsEnd(s, if p + 1 < |s| && s[p + 1] == '.' then p + 2 else p + 1);
      if d < |s| && IsConversion(s[d]) then Some(d + 1)
      else if d + 1 < |s| && s[d] == 'l' && s[d + 1] == 'f' then Some(d + 2)
      else None
  }

  /** A conversion tail starting at `q` ends where the digit scan and the
      conversion letters say. */
  lemma TailMatches(s: string, q: nat, e: nat)
    requires q <= e <= |s|
    ensures ConversionTail(s[q..e]) <==>
      var d := DigitsEnd(s, q);
      (d < |s| && IsConversion(s[d]) && e == d + 1) ||
      (d + 1 < |s| && s[d] == 'l' && s[d + 1] == 'f' && e == d + 2)
  {
    var d := DigitsEnd(s, q);
    if d < |s| && IsConversion(s[d]) && e == d + 1 {
      ScannedTail(s, q, e, 1);
    } else if d + 1 < |s| && s[d] == 'l' && s[d + 1] == 'f' && e == d + 2 {
      ScannedTail(s, q, e, 2);
    } else if ConversionTail(s[q..e]) {
      TailScanned(s, q, e);
    }
  }

  /** What the scan finds after the digits is a conversion tail. */
  lemma ScannedTail(s: string, q: nat, e: nat, width: nat)
    requires width == 1 || width == 2
    requires q <= |s| && DigitsEnd(s, q) + width == e <= |s|
    requires width == 1 ==> IsConversion(s[e - 1])
    requires width == 2 ==> s[e - 2] == 'l' && s[e - 1] == 'f'
    ensures ConversionTail(s[q..e])
  {
    var u := s[q..e];
    var d := e - width;
    assert AllDigits(s[q..d]) by {
      forall i | 0 <= i < d - q
        ensures IsDigit(s[q..d][i])
      {
        assert s[q..d][i] == s[q + i];
      }
    }
    assert u[..|u| - width] == s[q..d];
    assert u[|u| - 1] == s[e - 1];
    if width == 2 {
      assert u[|u| - 2] == s[e - 2];
    }
  }

  /** A conversion tail is where the scan finds it. */
  lemma TailScanned(s: string, q: nat, e: nat)
    requires q <= e <= |s| && ConversionTail(s[q..e])
    ensures var d := DigitsEnd(s, q);
      (d < |s| && IsConversion(s[d]) && e == d + 1) ||
      (d + 1 < |s| && s[d] == 'l' && s[d + 1] == 'f' && e == d + 2)
  {
    var u := s[q..e];
    if |u| >= 1 && AllDigits(u[..|u| - 1]) && IsConversion(u[|u| - 1]) {
      assert u[..|u| - 1] == s[q..e - 1];
      DigitsStop(s, q, e - 1);
    } else {
      assert u[..|u| - 2] == s[q..e - 2];
      assert s[e - 2] == u[|u| - 2] && s[e - 1] == u[|u| - 1];
      DigitsStop(s, q, e - 2);
    }
  }

  /** Digits from `q` up to a non-digit at `m`: the digit scan stops at `m`. */
  lemma DigitsStop(s: string, q: nat, m: nat)
    requires q <= m < |s| && AllDigits(s[q..m]) && !IsDigit(s[m])
    ensures DigitsEnd(s, q) == m
  {
  }

  /** A text starting with `.` is not a conversion tail. */
  lemma DotIsNoTail(u: string)
    requires |u| >= 1 && u[0] == '.'
    ensures !ConversionTail(u)
  {
    if |u| >= 2 { assert u[..|u| - 1][0] == '.'; }
    if |u| >= 3 { assert u[..|u| - 2][0] == '.'; }
  }

  /** The scanner recognises exactly the specifier language: it matches at
      `p` up to `e` if and only if `s[p..e]` is a specifier. */
  lemma {:induction false} SpecifierEndMatches(s: string, p: nat, e: nat)
    requires p <= e <= |s|
    ensures SpecifierEnd(s, p) == Some(e) <==> IsSpecifier(s[p..e])
  {
    var t := s[p..e];
    if p < |s| && s[p] == '%' && e >= p + 2 {
      var dot := p + 1 < |s| && s[p + 1] == '.';
      assert t[1..] == s[p + 1..e];
      assert t[1] == s[p + 1];
      TailMatches(s, p + 1, e);
      if dot {
        assert t[2..] == s[p + 2..e];
        TailMatches(s, p + 2, e);
        DotIsNoTail(t[1..]);
      }
    } else if p < |s| && s[p] == '%' {
      assert SpecifierEnd(s, p).Some? ==> SpecifierEnd(s, p).value >= p + 2;
    }
  }

  // ---------------------------------------------------------------------
  // `re.split` and `re.findall`

  /** The pieces of literal text and the specifiers of `s[start..]`, where
      the scan has reached `p` without a match since `start`: matches are
      taken left to right and do not overlap. */
  function SplitFrom(s: string, start: nat, p: nat): (r: (seq<string>, seq<string>))
    requires start <= p <= |s|
    ensures |r.0| == |r.1| + 1
    ensures Interleave(r.0, r.1) == s[start..]
    ensures forall k :: 0 <= k < |r.1| ==> IsSpecifier(r.1[k])
    decreases |s| - p
  {
    if p == |s| then ([s[start..]], [])
    else match SpecifierEnd(s, p)
      case Some(e) =>
        SpecifierEndMatches(s, p, e);
        var rest := SplitFrom(s, e, e);
        assert s[start..] == s[start..p] + s[p..e] + s[e..];
        ([s[start..p]] + rest.0, [s[p..e]] + rest.1)
      case None => SplitFrom(s, start, p + 1)
  }

  /** `re.split(pattern, s)` and `re.findall(pattern, s)`. */
  function SplitFormat(s: string): (r: (seq<string>, seq<string>))
    ensures |r.0| == |r.1| + 1
    ensures Interleave(r.0, r.1) == s
    ensures forall k :: 0 <= k < |r.1| ==> IsSpecifier(r.1[k])
  {
    assert s[0..] == s;
    SplitFrom(s, 0, 0)
  }

  /** The text rebuilt from its pieces and the separators between them. */
  function Interleave(parts: seq<string>, separators: seq<string>): string
    requires |parts| == |separators| + 1
  {
    if separators == [] then parts[0]
    else parts[0] + separators[0] + Interleave(parts[1..], separators[1..])
  }

  /** The scan finds no specifier exactly when the pattern matches nowhere. */
  lemma {:induction false} NoSpecifierFrom(s: string, start: nat, p: nat)
    requires start <= p <= |s|
    ensures SplitFrom(s, start, p).1 == [] <==> forall q :: p <= q < |s| ==> SpecifierEnd(s, q).None?
    decreases |s| - p
  {
    if p < |s| && SpecifierEnd(s, p).None? {
      NoSpecifierFrom(s, start, p + 1);
    }
  }

  // ---------------------------------------------------------------------
  // The print values

  /** `expr_to_str`: a name, the text of a literal's value, or `0`. */
  function ExprToStr(e: Expr): string {
    match e
    case Identifier(name) => name
    case StringLiteral(value) => value
    case CharLiteral(value) => value
    case NumberLiteral(n) => NatToString(n)
    case FloatLiteral(lexeme) => lexeme
    case _ => "0"
  }

  /** Arguments that become text placeholders. */
  predicate Named(v: Expr) { v.Identifier? || v.ArrayAccess? }

  /** The `*name*` or `*name[index]*` placeholder text of a variable or an
      array element. */
  function PlaceholderText(v: Expr): string
    requires Named(v)
  {
    if v.Identifier? then "*" + v.name + "*" else "*" + v.name + "[" + ExprToStr(v.index) + "]*"
  }

  /** What replaces a specifier: the placeholder text of a variable or array
      element, any other argument itself. */
  function Placeholder(v: Expr): Expr {
    if Named(v) then StringLiteral(PlaceholderText(v)) else v
  }

  /** The values one step of the loop appends: the `i`-th piece when it is not
      empty, then the placeholder for the `i`-th specifier while arguments
      remain. */
  function Piece(parts: seq<string>, specifiers: seq<string>, variables: seq<Expr>, i: nat): seq<Expr>
    requires i < |parts|
  {
    (if parts[i] != "" then [StringLiteral(parts[i])] else []) +
    (if i < |specifiers| && i < |variables| then [Placeholder(variables[i])] else [])
  }

  /** The values the loop appends from step `i` on. */
  function PiecesFrom(parts: seq<string>, specifiers: seq<string>, variables: seq<Expr>, i: nat): seq<Expr>
    requires i <= |parts|
    decreases |parts| - i
  {
    if i == |parts| then [] else Piece(parts, specifiers, variables, i) + PiecesFrom(parts, specifiers, variables, i + 1)
  }

  /** `convert_printf_to_print` as a function of the arguments. */
  function PrintValues(args: seq<Expr>): seq<Expr> {
    if args == [] then []
    else if !args[0].StringLiteral? then args
    else
      var split := SplitFormat(args[0].value);
      if split.1 == [] then [StringLiteral(args[0].value)]
      else PiecesFrom(split.0, split.1, args[1..], 0)
  }

  /** `convert_printf_to_print`: the edge cases, then the loop over the
      pieces. */
  method ConvertPrintfToPrint(args: seq<Expr>) returns (result: seq<Expr>)
    ensures result == PrintValues(args)
  {
    if args == [] {
      return [];
    }
    var format := args[0];
    var variables := if |args| > 1 then args[1..] else [];
    if !format.StringLiteral? {
      return args;
    }
    var split := SplitFormat(format.value);
    var parts, specifiers := split.0, split.1;
    if specifiers == [] {
      return [StringLiteral(format.value)];
    }
    result := AppendPieces(parts, specifiers, variables);
  }

  /** The loop of `convert_printf_to_print`, with its separate argument
      counter. */
  method AppendPieces(parts: seq<string>, specifiers: seq<string>, variables: seq<Expr>) returns (result: seq<Expr>)
    requires |parts| == |specifiers| + 1
    ensures result == PiecesFrom(parts, specifiers, variables, 0)
  {
    result := [];
    var varIndex := 0;
    var i := 0;
    while i < |parts|
      invariant 0 <= i <= |parts|
      invariant varIndex == Min(Min(i, |specifiers|), |variables|)
      invariant result + PiecesFrom(parts, specifiers, variables, i) == PiecesFrom(parts, specifiers, variables, 0)
    {
      ghost var before := result;
      ghost var text: seq<Expr> := if parts[i] != "" then [StringLiteral(parts[i])] else [];
      ghost var placeholder: seq<Expr> :=
        if i < |specifiers| && i < |variables| then [Placeholder(variables[i])] else [];
      var part := parts[i];
      if part != "" {
        result := result + [StringLiteral(part)];
      }
      assert result == before + text;
      if i < |specifiers| && varIndex < |variables| {
        result := result + [Placeholder(variables[varIndex])];
        varIndex := varIndex + 1;
      }
      assert result == (before + text) + placeholder;
      Associative(before, text, placeholder);
      Associative(before, text + placeholder, PiecesFrom(parts, specifiers, variables, i + 1));
      i := i + 1;
    }
  }

  // ---------------------------------------------------------------------
  // Properties

  /** The printed text of a list of string values. */
  function Texts(values: seq<Expr>): string {
    if values == [] then "" else TextOf(values[0]) + Texts(values[1..])
  }

  function TextOf(v: Expr): string {
    if v.StringLiteral? then v.value else ""
  }

  lemma {:induction false} TextsAppend(a: seq<Expr>, b: seq<Expr>)
    ensures Texts(a + b) == Texts(a) + Texts(b)
  {
    if a == [] {
      assert a + b == b;
    } else {
      var ab := a + b;
      assert ab[0] == a[0];
      assert ab[1..] == a[1..] + b;
      assert Texts(ab) == TextOf(a[0]) + Texts(a[1..] + b);
      TextsAppend(a[1..], b);
    }
  }

  predicate AllStrings(values: seq<Expr>) {
    forall k :: 0 <= k < |values| ==> values[k].StringLiteral?
  }

  /** The placeholder texts for the first `n` arguments. */
  function PlaceholderTexts(variables: seq<Expr>, n: nat): (r: seq<string>)
    requires n <= |variables|
    requires forall k :: 0 <= k < n ==> Named(variables[k])
    ensures |r| == n
  {
    if n == 0 then [] else PlaceholderTexts(variables, n - 1) + [PlaceholderText(variables[n - 1])]
  }

  /** Steps `i` on, with only named arguments: every value is a string. */
  lemma {:induction false} PiecesAreStrings(parts: seq<string>, specifiers: seq<string>, variables: seq<Expr>, i: nat)
    requires i <= |parts|
    requires forall k :: 0 <= k < |variables| ==> Named(variables[k])
    ensures AllStrings(PiecesFrom(parts, specifiers, variables, i))
    decreases |parts| - i
  {
    if i < |parts| {
      PiecesAreStrings(parts, specifiers, variables, i + 1);
      var piece := Piece(parts, specifiers, variables, i);
      var rest := PiecesFrom(parts, specifiers, variables, i + 1);
      assert PiecesFrom(parts, specifiers, variables, i) == piece + rest;
      assert AllStrings(piece);
      AllStringsAppend(piece, rest);
    }
  }

  /** Steps `i` on, with an argument for every specifier and only named
      arguments: the values spell the rest of the format with each
      specifier replaced by its placeholder. */
  lemma {:induction false} PiecesSpell(parts: seq<string>, specifiers: seq<string>, variables: seq<Expr>, i: nat)
    requires |parts| == |specifiers| + 1 && i < |parts|
    requires |variables| >= |specifiers|
    requires forall k :: 0 <= k < |variables| ==> Named(variables[k])
    ensures Texts(PiecesFrom(parts, specifiers, variables, i)) ==
      Interleave(parts[i..], PlaceholderTexts(variables, |specifiers|)[i..])
    decreases |parts| - i
  {
    if i + 1 == |parts| {
      PiecesLast(parts, specifiers, variables, i);
    } else {
      PiecesSpell(parts, specifiers, variables, i + 1);
      PiecesStep(parts, specifiers, variables, i);
    }
  }

  /** The last step contributes only the last part. */
  lemma PiecesLast(parts: seq<string>, specifiers: seq<string>, variables: seq<Expr>, i: nat)
    requires |parts| == |specifiers| + 1 && i + 1 == |parts|
    requires |variables| >= |specifiers|
    requires forall k :: 0 <= k < |variables| ==> Named(variables[k])
    ensures Texts(PiecesFrom(parts, specifiers, variables, i)) ==
      Interleave(parts[i..], PlaceholderTexts(variables, |specifiers|)[i..])
  {
    var piece := Piece(parts, specifiers, variables, i);
    assert PiecesFrom(parts, specifiers, variables, i) == piece + [];
    assert piece == if parts[i] != "" then [StringLiteral(parts[i])] else [];
    assert PlaceholderTexts(variables, |specifiers|)[i..] == [];
    assert parts[i..] == [parts[i]];
  }

  /** A step before the last one puts its part and placeholder in front of
      what the following steps spell. */
  lemma PiecesStep(parts: seq<string>, specifiers: seq<string>, variables: seq<Expr>, i: nat)
    requires |parts| == |specifiers| + 1 && i + 1 < |parts|
    requires |variables| >= |specifiers|
    requires forall k :: 0 <= k < |variables| ==> Named(variables[k])
    requires Texts(PiecesFrom(parts, specifiers, variables, i + 1)) ==
      Interleave(parts[i + 1..], PlaceholderTexts(variables, |specifiers|)[i + 1..])
    ensures Texts(PiecesFrom(parts, specifiers, variables, i)) ==
      Interleave(parts[i..], PlaceholderTexts(variables, |specifiers|)[i..])
  {
    var texts := PlaceholderTexts(variables, |specifiers|);
    var piece := Piece(parts, specifiers, variables, i);
    var rest := PiecesFrom(parts, specifiers, variables, i + 1);
    assert PiecesFrom(parts, specifiers, variables, i) == piece + rest;
    TextsAppend(piece, rest);
    PieceSpells(parts, specifiers, variables, i);
    assert texts[i] == PlaceholderText(variables[i]) by { PlaceholderTextAt(variables, |specifiers|, i); }
    InterleaveAt(parts, texts, i);
  }

  lemma AllStringsAppend(a: seq<Expr>, b: seq<Expr>)
    requires AllStrings(a) && AllStrings(b)
    ensures AllStrings(a + b)
  {
    forall k | 0 <= k < |a + b| ensures (a + b)[k].StringLiteral? {
      if k >= |a| {
        assert (a + b)[k] == b[k - |a|];
      }
    }
  }

  /** Interleaving from `i` on, before the last part, is the `i`-th part and
      separator followed by the interleaving from `i + 1` on. */
  lemma InterleaveAt(parts: seq<string>, separators: seq<string>, i: nat)
    requires |parts| == |separators| + 1 && i < |separators|
    ensures Interleave(parts[i..], separators[i..]) ==
      parts[i] + separators[i] + Interleave(parts[i + 1..], separators[i + 1..])
  {
    assert parts[i..][1..] == parts[i + 1..];
    assert separators[i..][1..] == separators[i + 1..];
  }

  /** A step before the last one contributes its piece and the placeholder
      of its argument, both as strings. */
  lemma PieceSpells(parts: seq<string>, specifiers: seq<string>, variables: seq<Expr>, i: nat)
    requires |parts| == |specifiers| + 1 && i + 1 < |parts|
    requires |variables| >= |specifiers| && Named(variables[i])
    ensures Texts(Piece(parts, specifiers, variables, i)) == parts[i] + PlaceholderText(variables[i])
  {
    var first := if parts[i] != "" then [StringLiteral(parts[i])] else [];
    var spelled := [StringLiteral(PlaceholderText(variables[i]))];
    assert Piece(parts, specifiers, variables, i) == first + spelled;
    TextsAppend(first, spelled);
  }

  lemma {:induction false} PlaceholderTextAt(variables: seq<Expr>, n: nat, i: nat)
    requires i < n <= |variables|
    requires forall k :: 0 <= k < n ==> Named(variables[k])
    ensures PlaceholderTexts(variables, n)[i] == PlaceholderText(variables[i])
  {
    if i < n - 1 {
      PlaceholderTextAt(variables, n - 1, i);
    }
  }

  /** With a named argument for every specifier, the print statement spells
      the format string with each specifier replaced by its placeholder. */
  lemma PrintSpellsFormat(format: string, variables: seq<Expr>)
    requires |variables| >= |SplitFormat(format).1| > 0
    requires forall k :: 0 <= k < |variables| ==> Named(variables[k])
    ensures var split := SplitFormat(format);
      var values := PrintValues([StringLiteral(format)] + variables);
      AllStrings(values) && Texts(values) == Interleave(split.0, PlaceholderTexts(variables, |split.1|))
  {
    var split := SplitFormat(format);
    assert ([StringLiteral(format)] + variables)[1..] == variables;
    PiecesSpell(split.0, split.1, variables, 0);
    PiecesAreStrings(split.0, split.1, variables, 0);
    assert split.0[0..] == split.0;
    assert PlaceholderTexts(variables, |split.1|)[0..] == PlaceholderTexts(variables, |split.1|);
  }

  /** The number of non-empty pieces from step `i` on. */
  function NonEmptyFrom(parts: seq<string>, i: nat): nat
    requires i <= |parts|
    decreases |parts| - i
  {
    if i == |parts| then 0 else (if parts[i] != "" then 1 else 0) + NonEmptyFrom(parts, i + 1)
  }

  /** The output holds one value per non-empty piece and one placeholder per
      specifier that has an argument; surplus arguments are dropped. */
  lemma {:induction false} PiecesCount(parts: seq<string>, specifiers: seq<string>, variables: seq<Expr>, i: nat)
    requires |parts| == |specifiers| + 1 && i <= |parts|
    ensures |PiecesFrom(parts, specifiers, variables, i)| ==
      NonEmptyFrom(parts, i) + Min(|specifiers|, |variables|) - Min(i, Min(|specifiers|, |variables|))
    decreases |parts| - i
  {
    if i < |parts| {
      PiecesCount(parts, specifiers, variables, i + 1);
    }
  }

  function Min(a: nat, b: nat): nat { if a <= b then a else b }

  /** The edge cases: no arguments, a format that is not a string, and a
      format without specifiers. */
  lemma PrintEdgeCases(args: seq<Expr>)
    ensures args == [] ==> PrintValues(args) == []
    ensures args != [] && !args[0].StringLiteral? ==> PrintValues(args) == args
    ensures args != [] && args[0].StringLiteral? &&
      (forall q :: 0 <= q < |args[0].value| ==> SpecifierEnd(args[0].value, q).None?)
      ==> PrintValues(args) == [args[0]]
  {
    if args != [] && args[0].StringLiteral? {
      NoSpecifierFrom(args[0].value, 0, 0);
    }
  }
}
