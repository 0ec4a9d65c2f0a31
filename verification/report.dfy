/** `operator<<(std::ostream &, const ErrorInfo &)`: the full diagnostic report. */
module Report {
  import opened Optional
  import opened Text
  import opened Decimal
  import opened Position
  import opened Extract
  import opened Streams
  import opened CodeView

  // The verbosity levels, numbered as nix's logging.hh numbers them.
  const LVL_ERROR := 0
  const LVL_WARN := 1
  const LVL_INFO := 2
  const LVL_TALKATIVE := 3
  const LVL_CHATTY := 4
  const LVL_DEBUG := 5
  const LVL_VOMIT := 6

  predicate KnownLevel(level: int) {
    LVL_ERROR <= level <= LVL_VOMIT
  }

  /** The error to report. The level is kept as the number it is in C++, so that a
      value outside the enumeration can be represented and reported. */
  datatype ErrorInfo = ErrorInfo(
    level: int,
    name: string,
    description: string,
    hint: Option<string>,
    nixCode: Option<NixCode>)

  /** The report dereferences the hint whenever there is a position, so a position
      comes with a hint. */
  predicate Renderable(einfo: ErrorInfo) {
    einfo.nixCode.Some? ==> einfo.hint.Some?
  }

  const ERR_WIDTH := 80
  const PREFIX := ""

  /** The coloured severity label of the header. */
  function LevelString(level: int): string {
    if level == LVL_ERROR then ANSI_RED + "error:" + ANSI_NORMAL
    else if level == LVL_WARN then ANSI_YELLOW + "warning:" + ANSI_NORMAL
    else if level == LVL_INFO then ANSI_GREEN + "info:" + ANSI_NORMAL
    else if level == LVL_TALKATIVE then ANSI_GREEN + "talk:" + ANSI_NORMAL
    else if level == LVL_CHATTY then ANSI_GREEN + "chat:" + ANSI_NORMAL
    else if level == LVL_VOMIT then ANSI_GREEN + "vomit:" + ANSI_NORMAL
    else if level == LVL_DEBUG then ANSI_YELLOW + "debug:" + ANSI_NORMAL
    else "invalid error level: " + IntToString(level)
  }

  /** Each level shows its own label in its own colour (red for errors, yellow for
      warnings and debug, green for the rest); the colour codes around a known label take
      eleven characters; any other number shows as a visible complaint naming it. */
  lemma LevelStringLabels(level: int)
    ensures var ls := LevelString(level);
      && (level == LVL_ERROR ==> StripAnsi(ls) == "error:")
      && (level == LVL_WARN ==> StripAnsi(ls) == "warning:")
      && (level == LVL_INFO ==> StripAnsi(ls) == "info:")
      && (level == LVL_TALKATIVE ==> StripAnsi(ls) == "talk:")
      && (level == LVL_CHATTY ==> StripAnsi(ls) == "chat:")
      && (level == LVL_VOMIT ==> StripAnsi(ls) == "vomit:")
      && (level == LVL_DEBUG ==> StripAnsi(ls) == "debug:")
      && (level == LVL_ERROR ==> ls == ANSI_RED + StripAnsi(ls) + ANSI_NORMAL)
      && (level == LVL_WARN || level == LVL_DEBUG ==> ls == ANSI_YELLOW + StripAnsi(ls) + ANSI_NORMAL)
      && (level == LVL_INFO || level == LVL_TALKATIVE || level == LVL_CHATTY || level == LVL_VOMIT ==>
            ls == ANSI_GREEN + StripAnsi(ls) + ANSI_NORMAL)
      && (KnownLevel(level) ==> |ls| == |StripAnsi(ls)| + 11)
      && (!KnownLevel(level) ==> ls == StripAnsi(ls) == "invalid error level: " + IntToString(level))
  {
    ColoursAreCodes();
    var ls := LevelString(level);
    if KnownLevel(level) {
      var colour := if level == LVL_ERROR then ANSI_RED
        else if level == LVL_WARN || level == LVL_DEBUG then ANSI_YELLOW
        else ANSI_GREEN;
      var tag := if level == LVL_ERROR then "error:"
        else if level == LVL_WARN then "warning:"
        else if level == LVL_INFO then "info:"
        else if level == LVL_TALKATIVE then "talk:"
        else if level == LVL_CHATTY then "chat:"
        else if level == LVL_VOMIT then "vomit:"
        else "debug:";
      assert ls == colour + tag + ANSI_NORMAL + [];
      StripColoured(colour, tag, []);
    } else {
      StripPlain(ls, []);
      assert ls + [] == ls;
    }
  }

  /** Different levels give different header labels. */
  lemma LevelStringInjective(a: int, b: int)
    requires LevelString(a) == LevelString(b)
    ensures a == b
  {
    LevelStringLabels(a);
    LevelStringLabels(b);
    var sa, sb := StripAnsi(LevelString(a)), StripAnsi(LevelString(b));
    // an unknown level's label starts with 'i', and is as long as its own text
    assert sa[0] == sb[0];
    if !KnownLevel(a) && !KnownLevel(b) {
      var lead := "invalid error level: ";
      assert IntToString(a) == sa[|lead|..] == sb[|lead|..] == IntToString(b);
      IntToStringInjective(a, b);
    }
  }

  /** The number of dashes in the header: enough to fill `ERR_WIDTH` columns as
      counted by `ndl`, but never fewer than three. */
  function DashWidth(ndl: int): (w: nat)
    ensures w >= 3
    ensures ndl <= ERR_WIDTH - 3 ==> ndl + w == ERR_WIDTH
    ensures ndl > ERR_WIDTH - 3 ==> w == 3
  {
    if ndl > ERR_WIDTH - 3 then 3 else ERR_WIDTH - ndl
  }

  /** The width the header counts as used: it includes the colour codes of the label. */
  function Ndl(level: int, name: string, programName: string): int {
    |PREFIX| + |LevelString(level)| + 3 + |name| + |programName|
  }

  /** The text between the label and the closing colour code: " --- <name> <dashes>
      <program>", or without a name " -----<dashes> <program>". */
  function DividerText(name: string, dashes: string, programName: string): string {
    if name != "" then " --- " + name + " " + dashes + " " + programName
    else " -----" + dashes + " " + programName
  }

  /** The divider text is as long as its parts and seven characters of punctuation,
      and has no escape character when its parts have none. */
  lemma DividerTextLength(name: string, dashes: string, programName: string)
    ensures |DividerText(name, dashes, programName)| == 7 + |name| + |dashes| + |programName|
    ensures Plain(name) && Plain(dashes) && Plain(programName) ==> Plain(DividerText(name, dashes, programName))
  {
  }

  /** `fmt("%1%%2%" ANSI_BLUE "%3%" ANSI_NORMAL, prefix, levelString, text)`. */
  function HeaderLine(ls: string, text: string): string {
    PREFIX + ls + ANSI_BLUE + text + ANSI_NORMAL
  }

  /** The divider line opening the report. */
  function Header(level: int, name: string, programName: string): string {
    var dashes := Dashes(DashWidth(Ndl(level, name, programName)));
    HeaderLine(LevelString(level), DividerText(name, dashes, programName))
  }

  /** The blue divider text shows as itself. */
  lemma StripBlue(text: string)
    requires Plain(text)
    ensures StripAnsi(ANSI_BLUE + text + ANSI_NORMAL) == text
  {
    ColoursAreCodes();
    StripCode(ANSI_NORMAL, []);
    assert ANSI_NORMAL + [] == ANSI_NORMAL;
    StripColoured(ANSI_BLUE, text, []);
    assert ANSI_BLUE + text + ANSI_NORMAL + [] == ANSI_BLUE + text + ANSI_NORMAL;
  }

  /** A header whose label has no colour shows the label and the divider text. */
  lemma StripPlainDivider(tag: string, text: string)
    requires Plain(text) && Plain(tag)
    ensures StripAnsi(PREFIX + tag + ANSI_BLUE + text + ANSI_NORMAL) == tag + text
  {
    var rest := ANSI_BLUE + text + ANSI_NORMAL;
    StripBlue(text);
    calc {
      PREFIX + tag + ANSI_BLUE + text + ANSI_NORMAL;
      { assert PREFIX + tag == tag; }
      tag + ANSI_BLUE + text + ANSI_NORMAL;
      tag + rest;
    }
    StripPlain(tag, rest);
  }

  /** A header whose label is coloured shows the label without its colour codes,
      then the divider text. */
  lemma StripColouredDivider(colour: string, tag: string, text: string)
    requires IsCode(colour) && Plain(text) && Plain(tag)
    ensures StripAnsi(PREFIX + (colour + tag + ANSI_NORMAL) + ANSI_BLUE + text + ANSI_NORMAL) == tag + text
  {
    var rest := ANSI_BLUE + text + ANSI_NORMAL;
    StripBlue(text);
    assert PREFIX + (colour + tag + ANSI_NORMAL) + ANSI_BLUE + text + ANSI_NORMAL == colour + tag + ANSI_NORMAL + rest;
    StripColoured(colour, tag, rest);
  }

  /** A known level's label is its visible text between a colour code and the closing
      code; any other level's label has no colour codes. */
  lemma LabelShape(level: int) returns (colour: string, tag: string)
    ensures Plain(tag) && StripAnsi(LevelString(level)) == tag
    ensures KnownLevel(level) ==> IsCode(colour) && |colour| == 7 && LevelString(level) == colour + tag + ANSI_NORMAL
    ensures !KnownLevel(level) ==> LevelString(level) == tag
  {
    LevelStringLabels(level);
    ColoursAreCodes();
    tag := StripAnsi(LevelString(level));
    colour := if level == LVL_ERROR then ANSI_RED
      else if level == LVL_WARN || level == LVL_DEBUG then ANSI_YELLOW
      else ANSI_GREEN;
  }

  /** A header line, coloured label or not, shows its label's text and the divider text. */
  lemma StripHeaderLine(ls: string, tag: string, colour: string, text: string)
    requires Plain(tag) && Plain(text)
    requires ls == tag || (IsCode(colour) && ls == colour + tag + ANSI_NORMAL)
    ensures StripAnsi(HeaderLine(ls, text)) == tag + text
  {
    if ls == tag {
      StripPlainDivider(tag, text);
    } else {
      StripColouredDivider(colour, tag, text);
    }
  }

  /** On the screen the header is its label without colour codes, then the divider text. */
  lemma HeaderShows(level: int, name: string, programName: string)
    requires Plain(name) && Plain(programName)
    ensures StripAnsi(Header(level, name, programName))
      == PREFIX + StripAnsi(LevelString(level)) + DividerText(name, Dashes(DashWidth(Ndl(level, name, programName))), programName)
  {
    var dashes := Dashes(DashWidth(Ndl(level, name, programName)));
    var text := DividerText(name, dashes, programName);
    DashesPlain(|dashes|);
    DividerTextLength(name, dashes, programName);
    var colour, tag := LabelShape(level);
    StripHeaderLine(LevelString(level), tag, colour, text);
  }

  /** What the header shows on the screen. The name and the program name always
      appear whole. Because `ndl` counts the eleven characters of colour codes around
      a known label, a header that fits is 73 columns wide on the screen for a known
      level and 84 for an unknown one; a longer one keeps three dashes. */
  lemma HeaderVisible(level: int, name: string, programName: string)
    requires Plain(name) && Plain(programName)
    ensures var ndl, tag := Ndl(level, name, programName), StripAnsi(LevelString(level));
      var dashes := Dashes(DashWidth(ndl));
      var shown := StripAnsi(Header(level, name, programName));
      && shown == PREFIX + tag + DividerText(name, dashes, programName)
      && (ndl <= ERR_WIDTH - 3 ==> |shown| == if KnownLevel(level) then 73 else 84)
      && (ndl > ERR_WIDTH - 3 ==> |shown| == if KnownLevel(level) then ndl - 4 else ndl + 7)
  {
    HeaderShows(level, name, programName);
    var colour, tag := LabelShape(level);
    DividerTextLength(name, Dashes(DashWidth(Ndl(level, name, programName))), programName);
  }

  /** "in file: <file> <position>" for a file, or the command line, then a blank line. */
  function PositionLines(nixCode: Option<NixCode>): seq<string> {
    match nixCode
    case None => []
    case Some(code) =>
      if code.errPos.file != "" then
        [PREFIX + "in file: " + ANSI_BLUE + code.errPos.file + " " + ShowErrPos(code.errPos) + ANSI_NORMAL, PREFIX]
      else
        [PREFIX + "from command line argument", PREFIX]
  }

  function DescriptionLines(description: string): seq<string> {
    if description != "" then [PREFIX + description, PREFIX] else []
  }

  /** The source lines around the position, when the error line could be read,
      then the hint. */
  function CodeAndHintLines(einfo: ErrorInfo, fs: FileSystem): seq<string>
    requires Renderable(einfo)
  {
    match einfo.nixCode
    case None => []
    case Some(code) => CodeSection(CodeLines(code, fs)) + [PREFIX + einfo.hint.value, PREFIX]
  }

  /** The code block and a blank line, when the error line was found. */
  function CodeSection(found: NixCode): seq<string> {
    if found.errLineOfCode.Some? then CodeBlock(PREFIX, found) + [PREFIX] else []
  }

  /** Every line `operator<<` writes for `einfo`, in order. */
  function ReportLines(einfo: ErrorInfo, programName: Option<string>, fs: FileSystem): seq<string>
    requires Renderable(einfo)
  {
    [Header(einfo.level, einfo.name, programName.ValueOr(""))]
    + PositionLines(einfo.nixCode)
    + DescriptionLines(einfo.description)
    + CodeAndHintLines(einfo, fs)
  }

  lemma AppendSections<T>(before: seq<T>, a: seq<T>, b: seq<T>, c: seq<T>, d: seq<T>)
    ensures before + (a + b + c + d) == before + a + b + c + d
  {
  }

  /** The lines of code around the error, when the error line was found. */
  method WriteCodeSection(out: OStream, nixcode: NixCode)
    modifies out
    ensures out.lines == old(out.lines) + CodeSection(nixcode)
  {
    var prefix := PREFIX;
    if nixcode.errLineOfCode.Some? {
      PrintCodeLines(out, prefix, nixcode);
      out.WriteLine(prefix);
    }
  }

  /** The last part of the report: the source lines around the position, if the
      error line could be read, and the hint. */
  method WriteCodeAndHint(out: OStream, einfo: ErrorInfo, fs: FileSystem)
    requires Renderable(einfo)
    modifies out
    ensures out.lines == old(out.lines) + CodeAndHintLines(einfo, fs)
  {
    var prefix := PREFIX;
    if einfo.nixCode.Some? {
      var nixcode, _, _ := GetCodeLines(einfo.nixCode.value, fs);
      // lines of code
      WriteCodeSection(out, nixcode);
      // hint
      out.WriteLine(prefix + einfo.hint.value);
      out.WriteLine(prefix);
    }
  }

  /** The file and position of the error, or where else the code came from. */
  method WritePosition(out: OStream, nixCode: Option<NixCode>)
    modifies out
    ensures out.lines == old(out.lines) + PositionLines(nixCode)
  {
    var prefix := PREFIX;
    if nixCode.Some? {
      var errPos := nixCode.value.errPos;
      if errPos.file != "" {
        out.WriteLine(prefix + "in file: " + ANSI_BLUE + errPos.file + " " + ShowErrPos(errPos) + ANSI_NORMAL);
        out.WriteLine(prefix);
      } else {
        out.WriteLine(prefix + "from command line argument");
        out.WriteLine(prefix);
      }
    }
  }

  /** The description, when there is one. */
  method WriteDescription(out: OStream, description: string)
    modifies out
    ensures out.lines == old(out.lines) + DescriptionLines(description)
  {
    var prefix := PREFIX;
    if description != "" {
      out.WriteLine(prefix + description);
      out.WriteLine(prefix);
    }
  }

  method WriteErrorInfo(out: OStream, einfo: ErrorInfo, programName: Option<string>, fs: FileSystem)
    requires Renderable(einfo)
    modifies out
    ensures out.lines == old(out.lines) + ReportLines(einfo, programName, fs)
  {
    var prefix := PREFIX;
    var levelString := LevelString(einfo.level);
    var program := programName.ValueOr("");
    var ndl := |prefix| + |levelString| + 3 + |einfo.name| + |program|;
    var dashwidth := DashWidth(ndl);
    var dashes := "";
    for i := 0 to dashwidth
      invariant dashes == Dashes(i)
    {
      dashes := dashes + "-";
    }

    // divider
    var divider := if einfo.name != "" then " --- " + einfo.name + " " + dashes + " " + program
                   else " -----" + dashes + " " + program;
    assert divider == DividerText(einfo.name, Dashes(DashWidth(Ndl(einfo.level, einfo.name, program))), program);
    out.WriteLine(HeaderLine(levelString, divider));
    ghost var header := [Header(einfo.level, einfo.name, program)];

    // file name, line and column
    WritePosition(out, einfo.nixCode);
    // description
    WriteDescription(out, einfo.description);
    // lines of code and hint
    WriteCodeAndHint(out, einfo, fs);
    AppendSections(old(out.lines), header, PositionLines(einfo.nixCode),
      DescriptionLines(einfo.description), CodeAndHintLines(einfo, fs));
  }

  /** The sections the report has: the header; for a position, the line naming it and
      a blank line; for a description, the description and a blank line; for an error
      line found in the file, the code block and a blank line; for a position, the hint
      and a blank line. */
  lemma ReportLength(einfo: ErrorInfo, programName: Option<string>, fs: FileSystem)
    requires Renderable(einfo)
    ensures var r := ReportLines(einfo, programName, fs);
      && r[0] == Header(einfo.level, einfo.name, programName.ValueOr(""))
      && |r| == 1
        + (if einfo.nixCode.Some? then 4 else 0)
        + (if einfo.description != "" then 2 else 0)
        + (if einfo.nixCode.Some? && CodeLines(einfo.nixCode.value, fs).errLineOfCode.Some?
           then |CodeBlock(PREFIX, CodeLines(einfo.nixCode.value, fs))| + 1 else 0)
  {
  }

  /** With a position, the second line names the file and the position, or says that
      the code came from the command line, and the report ends with the hint. */
  lemma ReportNamesPosition(einfo: ErrorInfo, programName: Option<string>, fs: FileSystem)
    requires Renderable(einfo) && einfo.nixCode.Some?
    ensures var r, p := ReportLines(einfo, programName, fs), einfo.nixCode.value.errPos;
      && |r| >= 5
      && r[1] == (if p.file != "" then PREFIX + "in file: " + ANSI_BLUE + p.file + " " + ShowErrPos(p) + ANSI_NORMAL
                  else PREFIX + "from command line argument")
      && r[2] == PREFIX
      && r[|r| - 2] == PREFIX + einfo.hint.value
      && r[|r| - 1] == PREFIX
  {
  }

  /** A description is shown verbatim right after the position lines, then a blank line. */
  lemma ReportShowsDescription(einfo: ErrorInfo, programName: Option<string>, fs: FileSystem)
    requires Renderable(einfo) && einfo.description != ""
    ensures var r, d := ReportLines(einfo, programName, fs), if einfo.nixCode.Some? then 3 else 1;
      && d + 1 < |r|
      && r[d] == PREFIX + einfo.description
      && r[d + 1] == PREFIX
  {
  }

  /** When the error line was found, the code block follows the description, then a
      blank line. */
  lemma ReportShowsCode(einfo: ErrorInfo, programName: Option<string>, fs: FileSystem)
    requires Renderable(einfo) && einfo.nixCode.Some?
    requires CodeLines(einfo.nixCode.value, fs).errLineOfCode.Some?
    ensures var r, block := ReportLines(einfo, programName, fs), CodeBlock(PREFIX, CodeLines(einfo.nixCode.value, fs));
      var c := 3 + if einfo.description != "" then 2 else 0;
      && c + |block| < |r|
      && r[c..c + |block|] == block
      && r[c + |block|] == PREFIX
  {
    var code := einfo.nixCode.value;
    var block := CodeBlock(PREFIX, CodeLines(code, fs));
    var head := [Header(einfo.level, einfo.name, programName.ValueOr(""))]
      + PositionLines(einfo.nixCode) + DescriptionLines(einfo.description);
    var tail := [PREFIX, PREFIX + einfo.hint.value, PREFIX];
    CodeAndHintShape(einfo, fs);
    assert ReportLines(einfo, programName, fs) == head + (block + tail);
    assert |head| == 3 + if einfo.description != "" then 2 else 0;
    MiddleOf(head, block, tail);
  }

  lemma CodeAndHintShape(einfo: ErrorInfo, fs: FileSystem)
    requires Renderable(einfo) && einfo.nixCode.Some?
    requires CodeLines(einfo.nixCode.value, fs).errLineOfCode.Some?
    ensures CodeAndHintLines(einfo, fs)
      == CodeBlock(PREFIX, CodeLines(einfo.nixCode.value, fs)) + [PREFIX, PREFIX + einfo.hint.value, PREFIX]
  {
    var block := CodeBlock(PREFIX, CodeLines(einfo.nixCode.value, fs));
    assert block + [PREFIX] + [PREFIX + einfo.hint.value, PREFIX] == block + [PREFIX, PREFIX + einfo.hint.value, PREFIX];
  }

  lemma MiddleOf<T>(head: seq<T>, middle: seq<T>, tail: seq<T>)
    ensures (head + (middle + tail))[|head|..|head| + |middle|] == middle
    ensures |tail| > 0 ==> (head + (middle + tail))[|head| + |middle|] == tail[0]
  {
    assert head + (middle + tail) == head + middle + tail;
  }

  /** Without a position, or for a position in code from a string, the report does not
      depend on any file. */
  lemma ReportWithoutFileRead(einfo: ErrorInfo, programName: Option<string>, fs: FileSystem, fs': FileSystem)
    requires Renderable(einfo)
    requires einfo.nixCode.None? || !ReadsFile(einfo.nixCode.value.errPos)
    ensures ReportLines(einfo, programName, fs) == ReportLines(einfo, programName, fs')
  {
  }
}
