# nix diagnostic renderer, modelled in Dafny

This project models the error-report renderer of nix's `src/libutil/error.cc`:
how an `ErrorInfo` (severity level, name, description, optional hint, optional
position `NixCode`) becomes the text of a report. The report has:

- a coloured header divider padded with dashes;
- the file and the position;
- the description;
- a numbered snippet of the source file with a red caret under the error column;
- the hint.

It also models the two pieces of `BaseError` in that file: `addPrefix` and the
memoised `calcWhat`.

Modules, one per component of the renderer:

- `Optional`: `std::optional` (`Option`, `ValueOr`).
- `Text`: repeated characters (spaces, dashes), the ANSI colour codes, and
  `StripAnsi`, the text a terminal shows once escape sequences are removed.
- `Decimal`: integers printed by boost::format. `%1%` is `IntToString`, and
  `%|5d|` is `Pad5`, which right-aligns a number in five columns.
- `Position`: `ErrPos` and `showErrPos`.
- `Extract`: `NixCode` and `getCodeLines`. `GetCodeLines` is a method with the
  source's counting loop. It is proved equal to `CodeLines`, the closed form of the
  lines it collects.
- `Streams`: the output stream, a class whose `lines` field gets one entry per
  line ended by `std::endl`.
- `CodeView`: `printCodeLines`. The method `PrintCodeLines` builds the caret's
  spaces in a loop and writes exactly the lines of the function `CodeBlock`.
- `Report`: `operator<<(std::ostream &, const ErrorInfo &)`. It covers the
  severity switch `LevelString`, the dash arithmetic `DashWidth`, and the header
  and sections. The method `WriteErrorInfo` builds the dashes in a loop and writes
  exactly `ReportLines`.
- `Errors`: the `BaseError` class with `AddPrefix` and `CalcWhat`.

In these places the code does something a reader may not expect, and the model
follows the code:

- The header's `ndl` counts the bytes of the colour codes around a known level's
  label (11 of them). So a header that fits is 73 columns wide on screen for a
  known level and 84 for an unknown one, not the 80 of `errwidth`. `Report.HeaderVisible`
  proves this.
- A line number of six or more characters, from 100000 up or from -10000 down,
  widens the numbered gutter but not the caret line's fixed gutter. The caret
  then lands left of the error column. `CodeView.CaretDriftsForWideNumbers`
  proves this.
- A position in the file `"(string)"` still prints `in file: (string) (l:c)`.
  Only an empty file name prints `from command line argument`. The name
  `"(string)"` only stops the file read.
- `printCodeLines` prints the previous and next lines even without an error line.
  It is its caller that shows the block only when the error line was found.
- The hint is dereferenced whenever there is a position. The model makes that a
  precondition (`Report.Renderable`) rather than inventing an empty default.

## Model

| member | source | states |
|---|---|---|
| `Position.ShowErrPos` | src/libutil/error.cc:42-54 | empty exactly when the line is not positive; `(line:column)` when line and column are positive; `(line)` when only the line is |
| `Position.ShowErrPosDetermines` | src/libutil/error.cc:42-54 | the rendering of a known position gives back its line, whether its column is known, and the column itself |
| `Decimal.Pad5Width` | src/libutil/error.cc:106-110 | a number is right-aligned after spaces; numbers from -9999 to 99999 take exactly five columns; numbers outside that range overflow the field and are never cut |
| `Extract.GetCodeLines` | src/libutil/error.cc:56-99 | for target line n of file lines L: the previous line becomes L[n-2] iff 2 <= n <= \|L\|+1; the error line becomes L[n-1] iff n <= \|L\|; the next line becomes L[n] iff n+1 <= \|L\|; all else is unchanged. Nothing is read for line <= 0 or file `(string)`. A file that does not open changes nothing. It reads min(\|L\|, n+1) lines and reports a failure exactly when the open fails or a read fails before the next line |
| `Extract.NoReadWithoutFile` | src/libutil/error.cc:58-63 | for line <= 0 or code from `(string)`, the snippet is unchanged, nothing is read or reported, whatever the file system holds |
| `Extract.EmptyPathNeverOpens` | src/libutil/error.cc:64-67 | a positive line with an empty file name never opens a file: the snippet is unchanged, nothing is read, and the failure is reported |
| `Extract.FilledLeftToRight` | src/libutil/error.cc:72-91 | on an empty snippet: a next line implies an error line, and an error line after line 1 implies a previous line; line 1 never gets a previous line |
| `Extract.ReadsAtMostNextLine` | src/libutil/error.cc:72-91 | reading stops right after the next line: at most n+1 lines, and fewer exactly when the file is shorter |
| `CodeView.PrintCodeLines` | src/libutil/error.cc:102-145 | appends, in order: the previous line numbered line-1, the error line numbered line, a caret line when the column is positive, and the next line numbered line+1, each only when present |
| `CodeView.PrintLineIfKnown` | src/libutil/error.cc:105-111 | writes the numbered line when that line of code is present, and nothing otherwise |
| `CodeView.PrintCaret` | src/libutil/error.cc:121-133 | builds `column` spaces one at a time and writes exactly the caret line for that column |
| `CodeView.CodeBlockLength` | src/libutil/error.cc:102-145 | one output line per present line of code, plus one caret line after a present error line when the column is known |
| `CodeView.CaretShown` | src/libutil/error.cc:121-133 | on screen the caret line is the prefix, six spaces and `\|`, then `column` spaces and the caret at offset \|prefix\|+7+column; nothing else is visible |
| `CodeView.CaretAligned` | src/libutil/error.cc:113-134 | for line numbers from -9999 to 99999: on screen the caret sits at offset \|prefix\|+7+column, and the numbered error line has its column-th character at that offset; the two gutters put their `\|` in the same column |
| `CodeView.CaretDriftsForWideNumbers` | src/libutil/error.cc:113-134 | for line numbers of six or more characters, the numbered line's `\|` moves to offset \|prefix\|+1+w, where w = \|Pad5(n)\| > 5, while the caret line's stays at \|prefix\|+6. The column-th character moves to \|prefix\|+2+w+column, but the caret stays at \|prefix\|+7+column, which is w-5 columns to the left |
| `CodeView.ExtractThenPrint` | src/libutil/error.cc:56-145 | extracting line n and printing shows the file's lines n-1 to n+1 (cut at the file's ends), each numbered by its own line number, with the caret right after line n |
| `Report.LevelStringLabels` | src/libutil/error.cc:152-200 | each of the seven levels shows its own label (`error:` ... `debug:`) in its own colour: red for errors, yellow for warnings and debug, green for the rest. The colour codes take 11 characters; any other number shows `invalid error level: N` without colour |
| `Report.LevelStringInjective` | src/libutil/error.cc:152-200 | different levels, known or not, give different header labels |
| `Report.DashWidth` | src/libutil/error.cc:202-207 | at least three dashes; when ndl <= 77 the dashes bring ndl up to exactly 80; otherwise exactly three |
| `Report.HeaderVisible` | src/libutil/error.cc:202-224 | the header shows the label, then ` --- name ` and the dashes when there is a name, or ` -----` and the dashes without one, then the program name; name and program name are never cut; a header that fits is 73 (known level) or 84 (unknown level) columns wide on screen |
| `Report.HeaderShows` | src/libutil/error.cc:209-224 | on screen the header is the label's visible text followed by the divider text; the colour codes take no room |
| `Report.WriteErrorInfo` | src/libutil/error.cc:147-264 | appends exactly `ReportLines`: header; position lines; description lines; code block and hint |
| `Report.WriteCodeAndHint` | src/libutil/error.cc:247-261 | for a position: extracts the lines on a copy, prints the code block and a blank line only when the error line was found, then the hint and a blank line |
| `Report.WriteCodeSection` | src/libutil/error.cc:251-255 | writes the code block and a blank line exactly when the error line was found |
| `Report.WritePosition` | src/libutil/error.cc:226-238 | writes `in file:` with the file name and the shown position for a non-empty file name, or `from command line argument`, then a blank line; nothing without a position |
| `Report.WriteDescription` | src/libutil/error.cc:240-244 | writes the description and a blank line exactly when the description is not empty |
| `Report.ReportLength` | src/libutil/error.cc:209-261 | the report is the header plus 4 lines for a position, 2 for a non-empty description, and the code block plus 1 when the error line was found |
| `Report.ReportNamesPosition` | src/libutil/error.cc:226-259 | with a position, line 2 is `in file: <file> <showErrPos>` for a non-empty file name and `from command line argument` otherwise, then a blank line; the report ends with the hint and a blank line |
| `Report.ReportShowsDescription` | src/libutil/error.cc:240-244 | a non-empty description is shown verbatim after the position lines, followed by a blank line |
| `Report.ReportShowsCode` | src/libutil/error.cc:247-255 | when the error line was found, the code block follows the description, then a blank line |
| `Report.ReportWithoutFileRead` | src/libutil/error.cc:247-249 | without a position, or for code from `(string)`, the report is the same whatever the file system holds |
| `Errors.BaseError.AddPrefix` | src/libutil/error.cc:14-18 | the new prefix is the argument followed by the old prefix, so the latest prefix comes first |
| `Errors.BaseError.CalcWhat` | src/libutil/error.cc:20-33 | on the first call, names the error after its class and keeps the flattened report; once the text is kept, returns it unchanged and changes nothing |

## Left out

- Real file I/O (`open`, `AutoCloseFD`, `readLine`): a file is the list of its complete lines. `readLine` drops a final line without a newline, so such a line is never in the list. Paths that cannot be opened are those missing from the file-system map. The empty path is never in it, since `open("")` fails.
- Extract.GetCodeLines: a read failure is modelled only where reading runs past the last complete line. A file that fails in the middle is modelled as a shorter file that fails there.
- `printError`: the side channel is reduced to the `logged` result of `GetCodeLines`. The text of the message is not modelled.
- Extract.GetCodeLines: the source updates `NixCode` through a reference. The model returns the updated value instead. Its only caller passes a fresh copy, so no aliasing is lost.
- boost::format and `std::ostream`: formatting is string concatenation, `%|5d|` is `Pad5`, and `std::endl` ends one entry of `OStream.lines`. Flushing is not modelled.
- Extract.GetCodeLines: line numbers are unbounded integers. The C++ `int` overflow of `pl + 2` or of `ndl` at INT_MAX is not modelled.
- The ANSI codes come from `src/libutil/ansicolor.hh`, and the numbering of `Verbosity` from `src/libutil/logging.hh`. Neither file is part of this model. The values used are the ones nix defines there.
- `ErrorInfo::programName` (error.cc:35) is a parameter, not global state.
- `nativeSystem` (error.cc:11) is left out.
- `operator<<(std::ostream &, const hintformat &)` (error.cc:37-40) is left out. The hint is kept as its rendered string.
- `sname()` is a virtual function in C++. The model keeps it as a constant field of `BaseError`.
- How `prefix_` reaches the user is outside error.cc and is not modelled. `calcWhat` never reads it.
- Report.HeaderVisible: a Dafny `char` stands for one byte of the C++ `std::string`, so `|s|` is `length()`. The on-screen widths (73/84) hold only for text whose characters each take one column and one byte (ASCII). For a non-ASCII name or program name, the dash count here counts characters where the program counts bytes.
- CodeView.CaretAligned: `column` and the lines returned by `readLine` count bytes. So the caret offset proved here is a column on screen only for ASCII source lines. It also holds only for line numbers from -9999 to 99999. For wider line numbers, `CodeView.CaretDriftsForWideNumbers` states how far the caret drifts.
