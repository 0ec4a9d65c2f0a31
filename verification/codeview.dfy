/** `printCodeLines`: the numbered source lines around an error, with a caret
    under the error column. */
module CodeView {
  import opened Optional
  import opened Text
  import opened Decimal
  import opened Position
  import opened Extract
  import opened Streams

  /** `fmt("%1% %|2$5d|| %3%", prefix, n, text)`. */
  function NumberedLine(prefix: string, n: int, text: string): string {
    prefix + " " + Pad5(n) + "|" + " " + text
  }

  /** The line under the error line: an empty gutter as wide as the numbered one,
      `column` spaces and a red caret. */
  function CaretLine(prefix: string, column: nat): string {
    prefix + "      |" + Spaces(column) + ANSI_RED + "^" + ANSI_NORMAL
  }

  /** The numbered line `n`, when that line of code is known. */
  function LineIfKnown(prefix: string, n: int, line: Option<string>): seq<string> {
    if line.Some? then [NumberedLine(prefix, n, line.value)] else []
  }

  /** The error line, when known, and the caret under it when the column is known. */
  function ErrorLines(prefix: string, p: ErrPos, line: Option<string>): seq<string> {
    if line.Some? then
      [NumberedLine(prefix, p.line, line.value)] + (if p.column > 0 then [CaretLine(prefix, p.column)] else [])
    else []
  }

  /** Everything `printCodeLines` writes for `nixCode`, in order. */
  function CodeBlock(prefix: string, nixCode: NixCode): seq<string> {
    var p := nixCode.errPos;
    LineIfKnown(prefix, p.line - 1, nixCode.prevLineOfCode)
    + ErrorLines(prefix, p, nixCode.errLineOfCode)
    + LineIfKnown(prefix, p.line + 1, nixCode.nextLineOfCode)
  }

  /** One line for each line of code present, and a caret line after the error
      line when the column is known. */
  lemma CodeBlockLength(prefix: string, nixCode: NixCode)
    ensures |CodeBlock(prefix, nixCode)|
      == (if nixCode.prevLineOfCode.Some? then 1 else 0)
       + (if nixCode.errLineOfCode.Some? then 1 else 0)
       + (if nixCode.errLineOfCode.Some? && nixCode.errPos.column > 0 then 1 else 0)
       + (if nixCode.nextLineOfCode.Some? then 1 else 0)
  {
  }

  /** The caret line: `column` spaces built one at a time, then the red caret. */
  method PrintCaret(out: OStream, prefix: string, column: nat)
    modifies out
    ensures out.lines == old(out.lines) + [CaretLine(prefix, column)]
  {
    var spaces := "";
    for i := 0 to column
      invariant spaces == Spaces(i)
    {
      spaces := spaces + " ";
    }
    var arrows := "^";
    out.WriteLine(prefix + "      |" + spaces + ANSI_RED + arrows + ANSI_NORMAL);
  }

  /** `fmt("%1% %|2$5d|| %3%", ...)` for a line of code that is present. */
  method PrintLineIfKnown(out: OStream, prefix: string, n: int, line: Option<string>)
    modifies out
    ensures out.lines == old(out.lines) + LineIfKnown(prefix, n, line)
  {
    if line.Some? {
      out.WriteLine(NumberedLine(prefix, n, line.value));
    }
  }

  method PrintCodeLines(out: OStream, prefix: string, nixCode: NixCode)
    modifies out
    ensures out.lines == old(out.lines) + CodeBlock(prefix, nixCode)
  {
    var p := nixCode.errPos;
    // previous line of code
    PrintLineIfKnown(out, prefix, p.line - 1, nixCode.prevLineOfCode);
    ghost var before := out.lines;
    // line of code containing the error, and the caret under its column
    if nixCode.errLineOfCode.Some? {
      out.WriteLine(NumberedLine(prefix, p.line, nixCode.errLineOfCode.value));
      if p.column > 0 {
        PrintCaret(out, prefix, p.column);
      }
    }
    assert out.lines == before + ErrorLines(prefix, p, nixCode.errLineOfCode);
    // next line of code
    PrintLineIfKnown(out, prefix, p.line + 1, nixCode.nextLineOfCode);
  }

  /** On the screen the caret line is the prefix, an empty gutter ending in '|',
      `column` spaces and the caret, at offset `|prefix| + 7 + column`. */
  lemma CaretShown(prefix: string, column: nat)
    requires Plain(prefix)
    ensures var shown, k := StripAnsi(CaretLine(prefix, column)), |prefix| + 7 + column;
      && |shown| == k + 1 && shown[k] == '^'
      && (forall j :: |prefix| <= j < k && j != |prefix| + 6 ==> shown[j] == ' ')
      && shown[|prefix| + 6] == '|'
  {
    ColoursAreCodes();
    var gutter := prefix + "      |" + Spaces(column);
    assert Plain(gutter);
    calc {
      StripAnsi(CaretLine(prefix, column));
      { assert CaretLine(prefix, column) == gutter + (ANSI_RED + ("^" + ANSI_NORMAL)); }
      StripAnsi(gutter + (ANSI_RED + ("^" + ANSI_NORMAL)));
      { StripPlain(gutter, ANSI_RED + ("^" + ANSI_NORMAL)); }
      gutter + StripAnsi(ANSI_RED + ("^" + ANSI_NORMAL));
      { StripCode(ANSI_RED, "^" + ANSI_NORMAL); }
      gutter + StripAnsi("^" + ANSI_NORMAL);
      { StripPlain("^", ANSI_NORMAL); }
      gutter + ("^" + StripAnsi(ANSI_NORMAL));
      { StripCode(ANSI_NORMAL, []); assert ANSI_NORMAL + [] == ANSI_NORMAL; }
      gutter + "^";
    }
  }

  /** A numbered line: the prefix, a space, the number in its field of width `w`, '|',
      a space and the text. */
  lemma NumberedLineLayout(prefix: string, n: int, text: string)
    ensures var numbered, w := NumberedLine(prefix, n, text), |Pad5(n)|;
      && |numbered| == |prefix| + w + 3 + |text|
      && numbered[|prefix| + 1..|prefix| + 1 + w] == Pad5(n)
      && numbered[|prefix| + 1 + w] == '|'
      && forall j :: 0 <= j < |text| ==> numbered[|prefix| + w + 3 + j] == text[j]
  {
    var gutter := prefix + " " + Pad5(n) + "| ";
    assert NumberedLine(prefix, n, text) == gutter + text;
    assert gutter[|prefix| + 1..|prefix| + 1 + |Pad5(n)|] == Pad5(n);
  }

  /** For a line number of at most five columns the caret sits under the
      `column`-th character of the error line: on the screen it is at offset
      `|prefix| + 7 + column`, and that offset of the numbered line holds
      `text[column - 1]`; the '|' of both gutters is in one column. */
  lemma CaretAligned(prefix: string, n: int, text: string, column: nat)
    requires Plain(prefix)
    requires -10000 < n < 100000
    requires 1 <= column <= |text|
    ensures var shown, numbered, k := StripAnsi(CaretLine(prefix, column)), NumberedLine(prefix, n, text), |prefix| + 7 + column;
      && |shown| == k + 1 && shown[k] == '^'
      && (forall j :: |prefix| <= j < k && j != |prefix| + 6 ==> shown[j] == ' ')
      && k < |numbered| && numbered[k] == text[column - 1]
      && shown[|prefix| + 6] == '|' == numbered[|prefix| + 6]
  {
    Pad5Width(n);
    CaretShown(prefix, column);
    NumberedLineLayout(prefix, n, text);
  }

  /** A line number wider than the five-column field pushes the numbered line's
      gutter right while the caret line's gutter stays put: the caret then lands
      `|Pad5(n)| - 5` columns left of the `column`-th character. */
  lemma CaretDriftsForWideNumbers(prefix: string, n: int, text: string, column: nat)
    requires Plain(prefix)
    requires n >= 100000 || n <= -10000
    requires 1 <= column <= |text|
    ensures var shown, numbered, w := StripAnsi(CaretLine(prefix, column)), NumberedLine(prefix, n, text), |Pad5(n)|;
      && w > 5
      && |shown| == |prefix| + 8 + column && shown[|prefix| + 6] == '|' && shown[|prefix| + 7 + column] == '^'
      && numbered[|prefix| + 6] != '|' && numbered[|prefix| + 1 + w] == '|'
      && numbered[|prefix| + 2 + w + column] == text[column - 1]
  {
    Pad5Width(n);
    CaretShown(prefix, column);
    NumberedLineLayout(prefix, n, text);
    var numbered := NumberedLine(prefix, n, text);
    assert numbered[|prefix| + 6] == numbered[|prefix| + 1..|prefix| + 1 + |Pad5(n)|][5] == IntToString(n)[5];
    if n < 0 {
      assert IntToString(n)[5] == NatToString(-n)[4];
      assert NatToString(-n)[4] in NatToString(-n);
    } else {
      assert IntToString(n)[5] in IntToString(n);
    }
  }

  /** The lines `lo` up to `hi` (0-based) of `lines`, each numbered with its 1-based
      line number. */
  function Numbered(prefix: string, lines: seq<string>, lo: nat, hi: nat): (r: seq<string>)
    requires lo <= hi <= |lines|
    ensures |r| == hi - lo
    decreases hi - lo
  {
    if lo == hi then [] else [NumberedLine(prefix, lo + 1, lines[lo])] + Numbered(prefix, lines, lo + 1, hi)
  }

  /** Extracting and then printing an error on line `n` of a file shows the window of
      the file from line `n-1` to line `n+1`, cut at the file's first and last line,
      every line with its own number, and the caret right under line `n`. */
  lemma ExtractThenPrint(prefix: string, p: ErrPos, fs: FileSystem)
    requires ReadsFile(p) && p.file in fs && p.line <= |fs[p.file].lines|
    ensures var lines, n := fs[p.file].lines, p.line;
      var lo, hi := if n >= 2 then n - 2 else 0, if n + 1 <= |lines| then n + 1 else |lines|;
      CodeBlock(prefix, CodeLines(Unfilled(p), fs))
        == Numbered(prefix, lines, lo, n)
           + (if p.column > 0 then [CaretLine(prefix, p.column)] else [])
           + Numbered(prefix, lines, n, hi)
  {
    var lines, n := fs[p.file].lines, p.line;
    var r := CodeLines(Unfilled(p), fs);
    var err := NumberedLine(prefix, n, lines[n - 1]);
    if n >= 2 {
      assert Numbered(prefix, lines, n - 2, n) == [NumberedLine(prefix, n - 1, lines[n - 2]), err];
    } else {
      assert Numbered(prefix, lines, 0, n) == [err];
    }
    if n + 1 <= |lines| {
      assert Numbered(prefix, lines, n, n + 1) == [NumberedLine(prefix, n + 1, lines[n])];
    } else {
      assert Numbered(prefix, lines, n, |lines|) == [];
    }
  }
}
