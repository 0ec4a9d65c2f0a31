/** Decimal rendering of integers, as boost::format prints an `int` for `%1%`
    and, right-aligned in a field of five, for `%|2$5d|`. */
module Decimal {
  import opened Text

  predicate IsDigit(c: char) {
    '0' <= c <= '9'
  }

  predicate AllDigits(s: string) {
    forall c | c in s :: IsDigit(c)
  }

  function DigitChar(d: nat): (c: char)
    requires d < 10
    ensures IsDigit(c) && c as int - '0' as int == d
  {
    ('0' as int + d) as char
  }

  /** The decimal digits of `n`, most significant first, without leading zeros. */
  function NatToString(n: nat): (s: string)
    ensures |s| >= 1 && AllDigits(s)
    ensures s[0] == '0' ==> n == 0
    ensures Plain(s)
  {
    if n < 10 then [DigitChar(n)] else NatToString(n / 10) + [DigitChar(n % 10)]
  }

  /** The value a string of decimal digits denotes: the inverse of NatToString. */
  function DecimalValue(s: string): nat
    requires AllDigits(s)
  {
    if s == [] then 0
    else
      var last := s[|s| - 1];
      assert last in s;
      DecimalValue(s[..|s| - 1]) * 10 + (last as int - '0' as int)
  }

  lemma {:induction false} DecimalRoundTrip(n: nat)
    ensures DecimalValue(NatToString(n)) == n
  {
    if n >= 10 {
      var s := NatToString(n);
      assert s[..|s| - 1] == NatToString(n / 10);
      DecimalRoundTrip(n / 10);
    }
  }

  /** An `int` as `operator<<` prints it: a minus sign, then the digits of its magnitude. */
  function IntToString(i: int): (s: string)
    ensures |s| >= 1 && Plain(s)
    ensures i >= 0 ==> AllDigits(s)
    ensures i < 0 ==> s[0] == '-'
  {
    if i < 0 then "-" + NatToString(-i) else NatToString(i)
  }

  /** The first character tells the sign. */
  lemma SignShows(i: int)
    ensures IntToString(i)[0] == '-' <==> i < 0
  {
    if i >= 0 {
      assert IntToString(i)[0] in IntToString(i);
    }
  }

  /** Different integers print differently. */
  lemma IntToStringInjective(i: int, j: int)
    requires IntToString(i) == IntToString(j)
    ensures i == j
  {
    SignShows(i);
    SignShows(j);
    if i < 0 {
      var a, b := NatToString(-i), NatToString(-j);
      assert "-" + a == "-" + b;
      assert a == ("-" + a)[1..] && b == ("-" + b)[1..];
      DecimalRoundTrip(-i);
      DecimalRoundTrip(-j);
    } else {
      DecimalRoundTrip(i);
      DecimalRoundTrip(j);
    }
  }

  function Pow10(k: nat): (p: nat)
    ensures p >= 1
  {
    if k == 0 then 1 else 10 * Pow10(k - 1)
  }

  /** `n` needs at most `k` digits exactly when it is below 10^k. */
  lemma {:induction false} NatToStringLength(n: nat, k: nat)
    requires k >= 1
    ensures |NatToString(n)| <= k <==> n < Pow10(k)
    decreases n
  {
    if n >= 10 {
      assert n == 10 * (n / 10) + n % 10;
      if k == 1 {
        assert Pow10(1) == 10;
      } else {
        NatToStringLength(n / 10, k - 1);
        assert n / 10 < Pow10(k - 1) <==> n < 10 * Pow10(k - 1);
      }
    } else {
      assert Pow10(k) == 10 * Pow10(k - 1);
    }
  }

  /** `s` right-aligned in a field of `w` columns: spaces in front until it is `w`
      long; text already that long is left as it is (the field grows, nothing is cut). */
  function PadLeft(s: string, w: nat): string
    decreases w - |s|
  {
    if |s| >= w then s else PadLeft(" " + s, w)
  }

  lemma {:induction false} PadLeftAligns(s: string, w: nat)
    ensures var r := PadLeft(s, w);
      && |r| == (if |s| < w then w else |s|)
      && r == Spaces(|r| - |s|) + s
    decreases w - |s|
  {
    if |s| < w {
      PadLeftAligns(" " + s, w);
      var r := PadLeft(s, w);
      assert Spaces(|r| - |s|) == Spaces(|r| - |s| - 1) + " " == Spaces(|r| - (|s| + 1)) + " ";
      SpacesShift(|r| - |s| - 1);
    }
  }

  lemma SpacesShift(k: nat)
    ensures Spaces(k) + " " == " " + Spaces(k)
  {
  }

  /** `%|5d|`: the number right-aligned in a field of five columns. */
  function Pad5(n: int): string {
    PadLeft(IntToString(n), 5)
  }

  /** Numbers from -9999 to 99999 fill the field exactly, after spaces; the others
      overflow it and are printed whole. */
  lemma Pad5Width(n: int)
    ensures |Pad5(n)| >= |IntToString(n)|
    ensures Pad5(n) == Spaces(|Pad5(n)| - |IntToString(n)|) + IntToString(n)
    ensures -10000 < n < 100000 ==> |Pad5(n)| == 5
    ensures n >= 100000 ==> |Pad5(n)| == |NatToString(n)| > 5
    ensures n <= -10000 ==> |Pad5(n)| == |IntToString(n)| > 5
    ensures |IntToString(n)| >= 5 ==> Pad5(n) == IntToString(n)
    ensures Plain(Pad5(n))
  {
    PadLeftAligns(IntToString(n), 5);
    if n >= 0 {
      NatToStringLength(n, 5);
      assert Pow10(5) == 100000;
    } else {
      NatToStringLength(-n, 4);
      assert Pow10(4) == 10000;
    }
  }
}
