/** Strings built by repetition, the ANSI colour codes of the terminal output,
    and the visible text of a string once its colour codes are removed. */
module Text {

  /** `n` copies of `c`, built one character at a time as the source's loops do. */
  function Repeat(c: char, n: nat): (r: string)
    ensures |r| == n
    ensures forall i :: 0 <= i < n ==> r[i] == c
  {
    if n == 0 then [] else Repeat(c, n - 1) + [c]
  }

  function Spaces(n: nat): (r: string)
    ensures |r| == n && forall i :: 0 <= i < n ==> r[i] == ' '
  {
    Repeat(' ', n)
  }

  function Dashes(n: nat): (r: string)
    ensures |r| == n && forall i :: 0 <= i < n ==> r[i] == '-'
  {
    Repeat('-', n)
  }

  lemma DashesPlain(n: nat)
    ensures Plain(Dashes(n))
  {
    assert forall c | c in Dashes(n) :: c == '-';
  }

  // The escape sequences nix's ansicolor.hh defines (ESC '[' parameters 'm').
  const ESC: char := 27 as char
  const ANSI_NORMAL: string := [ESC] + "[0m"
  const ANSI_RED: string := [ESC] + "[31;1m"
  const ANSI_GREEN: string := [ESC] + "[32;1m"
  const ANSI_YELLOW: string := [ESC] + "[33;1m"
  const ANSI_BLUE: string := [ESC] + "[34;1m"

  /** Text without any escape character: every character of it is visible. */
  predicate Plain(s: string) {
    ESC !in s
  }

  /** One escape sequence: ESC, parameters without an 'm', and the final 'm'. */
  predicate IsCode(code: string) {
    && |code| >= 2
    && code[0] == ESC
    && code[|code| - 1] == 'm'
    && 'm' !in code[1..|code| - 1]
  }

  /** What follows the first 'm' of `s`: the rest of the text after an escape sequence. */
  function SkipCode(s: string): (r: string)
    ensures |r| <= |s|
  {
    if s == [] then []
    else if s[0] == 'm' then s[1..]
    else SkipCode(s[1..])
  }

  /** The characters a terminal shows: `s` with its escape sequences removed. */
  function StripAnsi(s: string): (r: string)
    ensures |r| <= |s|
    ensures Plain(r)
    decreases |s|
  {
    if s == [] then []
    else if s[0] == ESC then StripAnsi(SkipCode(s[1..]))
    else [s[0]] + StripAnsi(s[1..])
  }

  /** Plain text is shown as it is. */
  lemma {:induction false} StripPlain(p: string, rest: string)
    requires Plain(p)
    ensures StripAnsi(p + rest) == p + StripAnsi(rest)
    decreases |p|
  {
    if p != [] {
      assert (p + rest)[0] == p[0];
      assert (p + rest)[1..] == p[1..] + rest;
      assert p[0] in p;
      StripPlain(p[1..], rest);
      calc {
        StripAnsi(p + rest);
        [p[0]] + StripAnsi(p[1..] + rest);
        [p[0]] + (p[1..] + StripAnsi(rest));
        { assert p == [p[0]] + p[1..]; }
        p + StripAnsi(rest);
      }
    } else {
      assert p + rest == rest;
    }
  }

  lemma {:induction false} SkipParameters(params: string, rest: string)
    requires 'm' !in params
    ensures SkipCode(params + "m" + rest) == rest
    decreases |params|
  {
    if params == [] {
      assert params + "m" + rest == ['m'] + rest;
    } else {
      assert (params + "m" + rest)[0] == params[0];
      assert (params + "m" + rest)[1..] == params[1..] + "m" + rest;
      SkipParameters(params[1..], rest);
    }
  }

  /** An escape sequence takes no room on the screen. */
  lemma StripCode(code: string, rest: string)
    requires IsCode(code)
    ensures StripAnsi(code + rest) == StripAnsi(rest)
  {
    var params := code[1..|code| - 1];
    assert code == [code[0]] + params + [code[|code| - 1]];
    assert (code + rest)[1..] == params + "m" + rest;
    SkipParameters(params, rest);
  }

  lemma ColoursAreCodes()
    ensures IsCode(ANSI_NORMAL) && IsCode(ANSI_RED) && IsCode(ANSI_GREEN)
    ensures IsCode(ANSI_YELLOW) && IsCode(ANSI_BLUE)
    ensures |ANSI_NORMAL| == 4 && |ANSI_RED| == 7 && |ANSI_GREEN| == 7
    ensures |ANSI_YELLOW| == 7 && |ANSI_BLUE| == 7
  {
  }

  /** Text wrapped in a colour shows as the text alone. */
  lemma StripColoured(colour: string, p: string, rest: string)
    requires IsCode(colour) && Plain(p)
    ensures StripAnsi(colour + p + ANSI_NORMAL + rest) == p + StripAnsi(rest)
  {
    ColoursAreCodes();
    assert colour + p + ANSI_NORMAL + rest == colour + (p + (ANSI_NORMAL + rest));
    StripCode(colour, p + (ANSI_NORMAL + rest));
    StripPlain(p, ANSI_NORMAL + rest);
    StripCode(ANSI_NORMAL, rest);
  }
}
