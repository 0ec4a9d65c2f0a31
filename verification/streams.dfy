/** The output stream the renderer writes to, one entry per line ended by `std::endl`. */
module Streams {

  /** The text of `lines`, each followed by a newline. */
  function Flatten(lines: seq<string>): (s: string)
    ensures |s| >= |lines|
    ensures lines != [] ==> s[|s| - 1] == '\n'
  {
    if lines == [] then [] else Flatten(lines[..|lines| - 1]) + lines[|lines| - 1] + "\n"
  }

  class OStream {
    var lines: seq<string>

    constructor ()
      ensures lines == []
    {
      lines := [];
    }

    /** `out << s << std::endl`. */
    method WriteLine(s: string)
      modifies this
      ensures lines == old(lines) + [s]
    {
      lines := lines + [s];
    }

    /** `std::ostringstream::str()`: everything written so far. */
    function Str(): string
      reads this
    {
      Flatten(lines)
    }
  }
}
