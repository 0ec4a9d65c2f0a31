/** Source positions and their short rendering `showErrPos`. */
module Position {
  import opened Text
  import opened Decimal

  /** A location in a file; `line <= 0` means no position, `column <= 0` an unknown column. */
  datatype ErrPos = ErrPos(file: string, line: int, column: int)

  /** "(line:column)", "(line)" or nothing, depending on which of the two are known. */
  function ShowErrPos(p: ErrPos): (r: string)
    ensures r == "" <==> p.line <= 0
    ensures p.line > 0 && p.column > 0 ==>
      r == "(" + NatToString(p.line) + ":" + NatToString(p.column) + ")"
    ensures p.line > 0 && p.column <= 0 ==> r == "(" + NatToString(p.line) + ")"
    ensures Plain(r)
  {
    if p.line > 0 then
      if p.column > 0 then
        "(" + IntToString(p.line) + ":" + IntToString(p.column) + ")"
      else
        "(" + IntToString(p.line) + ")"
    else
      ""
  }

  /** Two digit strings each followed by a non-digit can be told apart at that non-digit. */
  lemma SplitAtNonDigit(a: string, c: char, x: string, b: string, d: char, y: string)
    requires AllDigits(a) && AllDigits(b) && !IsDigit(c) && !IsDigit(d)
    requires a + [c] + x == b + [d] + y
    ensures a == b && c == d && x == y
  {
    var s := a + [c] + x;
    var m := if |a| < |b| then |a| else |b|;
    assert !IsDigit(s[m]);
    assert a == s[..|a|] == b;
    assert c == s[|a|] == d;
    assert x == s[|a| + 1..] == y;
  }

  /** The character after the line number: ':' before a known column, ')' otherwise. */
  function Separator(p: ErrPos): char {
    if p.column > 0 then ':' else ')'
  }

  /** What follows the separator: the column and ')' for a known column, nothing otherwise. */
  function ColumnTail(p: ErrPos): string {
    if p.column > 0 then NatToString(p.column) + ")" else ""
  }

  /** A known position shows as '(', its line's digits, the separator and the column tail. */
  lemma ShowErrPosShape(p: ErrPos)
    requires p.line > 0
    ensures |ShowErrPos(p)| >= 1
    ensures ShowErrPos(p)[1..] == NatToString(p.line) + [Separator(p)] + ColumnTail(p)
  {
    var l := NatToString(p.line);
    if p.column > 0 {
      assert ShowErrPos(p) == "(" + (l + [':'] + (NatToString(p.column) + ")"));
    } else {
      assert ShowErrPos(p) == "(" + (l + [')'] + "");
    }
  }

  /** The rendering of a known position gives back its line, whether its column
      is known, and that column. */
  lemma ShowErrPosDetermines(p: ErrPos, q: ErrPos)
    requires p.line > 0 && q.line > 0
    requires ShowErrPos(p) == ShowErrPos(q)
    ensures p.line == q.line
    ensures p.column > 0 <==> q.column > 0
    ensures p.column > 0 ==> p.column == q.column
  {
    ShowErrPosShape(p);
    ShowErrPosShape(q);
    SplitAtNonDigit(NatToString(p.line), Separator(p), ColumnTail(p), NatToString(q.line), Separator(q), ColumnTail(q));
    DecimalRoundTrip(p.line);
    DecimalRoundTrip(q.line);
    if p.column > 0 {
      var pc, qc := NatToString(p.column), NatToString(q.column);
      assert pc == ColumnTail(p)[..|pc|];
      assert qc == ColumnTail(q)[..|qc|];
      DecimalRoundTrip(p.column);
      DecimalRoundTrip(q.column);
    }
  }
}
