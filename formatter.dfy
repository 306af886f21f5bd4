/** The line formatter (`kato/c2kato/generator/formatter.py`): it drops the
    blank lines and joins the rest. */
module Formatter {
  import opened Strings

  /** A line `strip()` leaves something of. */
  predicate NonBlank(line: string) { Strip(line) != "" }

  /** The lines `format_code` keeps, in their order. */
  function KeptLines(lines: seq<string>): (r: seq<string>)
    ensures |r| <= |lines|
    ensures forall k :: 0 <= k < |r| ==> NonBlank(r[k])
  {
    if lines == [] then []
    else KeptLines(lines[..|lines| - 1]) + (if NonBlank(lines[|lines| - 1]) then [lines[|lines| - 1]] else [])
  }

  /** What `format_code` returns: the non-blank lines, unchanged, joined by
      newlines. */
  function Formatted(lines: seq<string>): string {
    Join(KeptLines(lines), "\n")
  }

  /** A line is kept exactly when it is not blank. */
  lemma {:induction false} KeptLinesMembers(lines: seq<string>, line: string)
    ensures line in KeptLines(lines) <==> line in lines && NonBlank(line)
  {
    if lines != [] {
      KeptLinesMembers(lines[..|lines| - 1], line);
      assert lines == lines[..|lines| - 1] + [lines[|lines| - 1]];
    }
  }

  /** Keeping the non-blank lines of lines that are all non-blank changes
      nothing, so formatting its own kept lines gives the same text. */
  lemma {:induction false} KeptLinesIdempotent(lines: seq<string>)
    ensures KeptLines(KeptLines(lines)) == KeptLines(lines)
  {
    AllKept(KeptLines(lines));
  }

  lemma {:induction false} AllKept(lines: seq<string>)
    requires forall k :: 0 <= k < |lines| ==> NonBlank(lines[k])
    ensures KeptLines(lines) == lines
  {
    if lines != [] {
      AllKept(lines[..|lines| - 1]);
    }
  }

  /** Formatting keeps the order: the lines of two parts are kept part by
      part. */
  lemma {:induction false} KeptLinesAppend(a: seq<string>, b: seq<string>)
    ensures KeptLines(a + b) == KeptLines(a) + KeptLines(b)
    decreases |b|
  {
    if b == [] {
      assert a + b == a;
    } else {
      var b' := b[..|b| - 1];
      assert (a + b)[..|a + b| - 1] == a + b';
      assert (a + b)[|a + b| - 1] == b[|b| - 1];
      KeptLinesAppend(a, b');
    }
  }

  /** Formatting the kept lines of a formatted text gives it back. */
  lemma FormatIdempotent(lines: seq<string>)
    ensures Formatted(KeptLines(lines)) == Formatted(lines)
  {
    KeptLinesIdempotent(lines);
  }

  class KatoFormatter {
    var indentLevel: nat

    constructor ()
      ensures indentLevel == 0
    {
      indentLevel := 0;
    }

    /** `indent`. */
    function Indent(): string
      reads this
    {
      Indentation(indentLevel)
    }

    /** `format_code`: the loop that keeps the non-blank lines, then the
        join. */
    method FormatCode(codeLines: seq<string>) returns (text: string)
      ensures text == Formatted(codeLines)
    {
      var formatted: seq<string> := [];
      var i := 0;
      while i < |codeLines|
        invariant 0 <= i <= |codeLines|
        invariant formatted == KeptLines(codeLines[..i])
      {
        var line := codeLines[i];
        if Strip(line) != "" {
          formatted := formatted + [line];
        }
        assert codeLines[..i + 1][..i] == codeLines[..i];
        i := i + 1;
      }
      assert codeLines[..i] == codeLines;
      text := Join(formatted, "\n");
    }
  }
}
