/** The Python `str` operations both translators rely on, restricted to
    ASCII: `isdigit`, `isalpha`, `isalnum`, `strip`, `split`, `join`,
    `startswith`, `endswith`, `in`, `find`, `replace`, `lower`, `str(int)`
    and `int(digits)`. */
module Strings {
  import opened Base

  // ---------------------------------------------------------------------
  // Character classes

  predicate IsDigit(c: char) { '0' <= c <= '9' }

  predicate IsAlpha(c: char) { 'a' <= c <= 'z' || 'A' <= c <= 'Z' }

  predicate IsAlnum(c: char) { IsDigit(c) || IsAlpha(c) }

  /** The characters of Python's `\w` and of identifiers: letters, digits, `_`. */
  predicate IsWordChar(c: char) { IsAlnum(c) || c == '_' }

  /** The ASCII characters that Python's `str.strip()` removes. */
  predicate IsSpace(c: char) {
    c == ' ' || c == '\t' || c == '\n' || c == '\r'
    || c as int == 0x0B || c as int == 0x0C || 0x1C <= c as int <= 0x1F
  }

  predicate AllDigits(s: string) { forall i :: 0 <= i < |s| ==> IsDigit(s[i]) }

  // ---------------------------------------------------------------------
  // Numbers

  function DigitChar(d: nat): (c: char)
    requires d < 10
    ensures IsDigit(c)
  {
    ('0' as int + d) as char
  }

  /** `str(n)` for a non-negative integer. */
  function NatToString(n: nat): (s: string)
    ensures |s| >= 1 && AllDigits(s)
    ensures s[0] == '0' ==> n == 0
  {
    if n < 10 then [DigitChar(n)] else NatToString(n / 10) + [DigitChar(n % 10)]
  }

  /** `int(s)` for a string of decimal digits. */
  function DigitsValue(s: string): nat
    requires AllDigits(s)
  {
    if s == [] then 0 else DigitsValue(s[..|s| - 1]) * 10 + (s[|s| - 1] as int - '0' as int)
  }

  /** `int(str(n)) == n`. */
  lemma {:induction false} DigitsValueOfNatToString(n: nat)
    ensures DigitsValue(NatToString(n)) == n
  {
    if n >= 10 {
      var s := NatToString(n);
      assert s[..|s| - 1] == NatToString(n / 10);
      DigitsValueOfNatToString(n / 10);
    }
  }

  // ---------------------------------------------------------------------
  // Prefixes, suffixes, occurrences

  predicate StartsWith(s: string, prefix: string) {
    |prefix| <= |s| && s[..|prefix|] == prefix
  }

  predicate EndsWith(s: string, suffix: string) {
    |suffix| <= |s| && s[|s| - |suffix|..] == suffix
  }

  predicate OccursAt(s: string, sub: string, k: nat) {
    k + |sub| <= |s| && s[k..k + |sub|] == sub
  }

  /** `s.find(sub, start)`, as an option: the first occurrence at or after `start`. */
  function IndexOf(s: string, sub: string, start: nat): (r: Option<nat>)
    ensures r.Some? ==> start <= r.value && OccursAt(s, sub, r.value)
    ensures r.Some? ==> forall k :: start <= k < r.value ==> !OccursAt(s, sub, k)
    ensures r.None? ==> forall k :: start <= k ==> !OccursAt(s, sub, k)
    decreases |s| - start
  {
    if start + |sub| > |s| then None
    else if s[start..start + |sub|] == sub then Some(start)
    else IndexOf(s, sub, start + 1)
  }

  /** A one-character pattern occurs exactly where that character stands. */
  lemma OccursSingle(s: string, c: char)
    ensures forall j: nat :: OccursAt(s, [c], j) <==> (j < |s| && s[j] == c)
  {
    forall j: nat ensures OccursAt(s, [c], j) <==> (j < |s| && s[j] == c) {
      if j < |s| { assert s[j..j + 1] == [s[j]]; }
    }
  }

  /** `sub in s`. */
  predicate Contains(s: string, sub: string) {
    IndexOf(s, sub, 0).Some?
  }

  // ---------------------------------------------------------------------
  // strip, lower, repetition

  function LStrip(s: string): (r: string)
    ensures |r| <= |s|
    ensures r == [] || !IsSpace(r[0])
  {
    if s != [] && IsSpace(s[0]) then LStrip(s[1..]) else s
  }

  function RStrip(s: string): (r: string)
    ensures |r| <= |s| && (r != [] ==> r[0] == s[0])
    ensures r == [] || !IsSpace(r[|r| - 1])
  {
    if s != [] && IsSpace(s[|s| - 1]) then RStrip(s[..|s| - 1]) else s
  }

  /** `s.strip()`. */
  function Strip(s: string): (r: string)
    ensures r == [] || (!IsSpace(r[0]) && !IsSpace(r[|r| - 1]))
  {
    RStrip(LStrip(s))
  }

  function LowerChar(c: char): char {
    if 'A' <= c <= 'Z' then (c as int + 32) as char else c
  }

  /** `s.lower()`. */
  function Lower(s: string): (r: string)
    ensures |r| == |s|
  {
    if s == [] then [] else [LowerChar(s[0])] + Lower(s[1..])
  }

  /** `s * n`. */
  function Repeat(s: string, n: nat): (r: string)
    ensures |r| == |s| * n
  {
    if n == 0 then [] else s + Repeat(s, n - 1)
  }

  /** `"    " * level`: the `indent()` of the compiler, the Kato generator
      and the formatter. */
  function Indentation(level: nat): string {
    Repeat("    ", level)
  }

  /** The indentation is four spaces per level. */
  lemma {:induction false} IndentationSpaces(level: nat)
    ensures |Indentation(level)| == 4 * level
    ensures forall k :: 0 <= k < |Indentation(level)| ==> Indentation(level)[k] == ' '
  {
    if level > 0 {
      IndentationSpaces(level - 1);
      assert Indentation(level) == "    " + Indentation(level - 1);
    }
  }

  // ---------------------------------------------------------------------
  // join and split

  /** `sep.join(parts)`. */
  function Join(parts: seq<string>, sep: string): string {
    if |parts| == 0 then ""
    else if |parts| == 1 then parts[0]
    else parts[0] + sep + Join(parts[1..], sep)
  }

  /** `s.split(c)` for a one-character separator: the maximal pieces free of `c`. */
  function Split(s: string, c: char): (r: seq<string>)
    ensures |r| >= 1
    ensures forall i :: 0 <= i < |r| ==> c !in r[i]
  {
    var k := IndexOf(s, [c], 0);
    OccursSingle(s, c);
    if k.None? then
      [s]
    else
      [s[..k.value]] + Split(s[k.value + 1..], c)
  }

  /** Splitting and joining on the same character gives the text back. */
  lemma {:induction false} JoinSplit(s: string, c: char)
    ensures Join(Split(s, c), [c]) == s
  {
    var k := IndexOf(s, [c], 0);
    if k.Some? {
      var head, rest := s[..k.value], s[k.value + 1..];
      var tail := Split(rest, c);
      assert Split(s, c) == [head] + tail;
      JoinSplit(rest, c);
      assert ([head] + tail)[1..] == tail;
      assert Join([head] + tail, [c]) == head + [c] + Join(tail, [c]);
      assert s == head + [c] + rest;
    }
  }

  /** Joining pieces that do not contain the separator and splitting again gives the pieces back. */
  lemma {:induction false} SplitJoin(parts: seq<string>, c: char)
    requires |parts| >= 1
    requires forall i :: 0 <= i < |parts| ==> c !in parts[i]
    ensures Split(Join(parts, [c]), c) == parts
  {
    var p := parts[0];
    if |parts| == 1 {
      OccursSingle(p, c);
    } else {
      var rest := Join(parts[1..], [c]);
      var s := p + [c] + rest;
      assert Join(parts, [c]) == s;
      assert OccursAt(s, [c], |p|);
      OccursSingle(s, c);
      assert IndexOf(s, [c], 0) == Some(|p|) by {
        var k := IndexOf(s, [c], 0);
        assert k.Some?;
        assert !(k.value < |p|);
        assert !(k.value > |p|);
      }
      assert s[..|p|] == p;
      assert s[|p| + 1..] == rest;
      SplitJoin(parts[1..], c);
    }
  }

  // ---------------------------------------------------------------------
  // replace

  /** `s.replace(sub, repl)`: every non-overlapping occurrence, scanning left to right. */
  function ReplaceAll(s: string, sub: string, repl: string): string
    requires |sub| > 0
  {
    if |s| < |sub| then s
    else if s[..|sub|] == sub then repl + ReplaceAll(s[|sub|..], sub, repl)
    else [s[0]] + ReplaceAll(s[1..], sub, repl)
  }

  /** `s.replace(sub, repl, 1)`: the first occurrence only. */
  function ReplaceFirst(s: string, sub: string, repl: string): (r: string)
    ensures !Contains(s, sub) ==> r == s
  {
    match IndexOf(s, sub, 0)
    case None => s
    case Some(k) => s[..k] + repl + s[k + |sub|..]
  }
}
