/** `getCodeLines`: fetching the lines around an error position from the file it names. */
module Extract {
  import opened Optional
  import opened Position

  /** What reading a file line by line meets after its last complete line: the end
      of the file (`readLine` throws `EndOfFile`; a final line without a newline is
      dropped) or a failing read. */
  datatype Ending = AtEndOfFile | ReadFails

  /** A file as `readLine` delivers it: its complete lines, without their newlines. */
  datatype FileContents = FileContents(lines: seq<string>, ending: Ending)

  /** The files that can be opened for reading, by path; any other path fails to open.
      The empty path never opens. */
  type FileSystem = fs: map<string, FileContents> | "" !in fs witness map[]

  /** A position and the source lines before, at and after it, as far as they are known. */
  datatype NixCode = NixCode(
    errPos: ErrPos,
    prevLineOfCode: Option<string>,
    errLineOfCode: Option<string>,
    nextLineOfCode: Option<string>)

  /** The file name of code that came from a string rather than from a file. */
  const STRING_SOURCE := "(string)"

  /** Whether `getCodeLines` tries to open the file at all. */
  predicate ReadsFile(p: ErrPos) {
    p.line > 0 && p.file != STRING_SOURCE
  }

  /** What `getCodeLines` leaves in `nixCode`: for line `n` of lines `L`, line `n-1`
      becomes the previous line, line `n` the error line and line `n+1` the next line,
      each only when the file has it; every other field keeps its value. */
  function CodeLines(nixCode: NixCode, fs: FileSystem): NixCode {
    var p := nixCode.errPos;
    if !ReadsFile(p) || p.file !in fs then nixCode
    else
      var lines, n := fs[p.file].lines, p.line;
      nixCode.(
        prevLineOfCode := if 2 <= n <= |lines| + 1 then Some(lines[n - 2]) else nixCode.prevLineOfCode,
        errLineOfCode := if n <= |lines| then Some(lines[n - 1]) else nixCode.errLineOfCode,
        nextLineOfCode := if n + 1 <= |lines| then Some(lines[n]) else nixCode.nextLineOfCode)
  }

  /** The number of lines `getCodeLines` reads successfully. */
  function LinesRead(p: ErrPos, fs: FileSystem): nat {
    if !ReadsFile(p) || p.file !in fs then 0
    else if |fs[p.file].lines| < p.line + 1 then |fs[p.file].lines|
    else p.line + 1
  }

  /** Whether `getCodeLines` reports a failure on the side channel (`printError`):
      the file does not open, or a read fails before the next line is reached. */
  predicate ReportsFailure(p: ErrPos, fs: FileSystem) {
    && ReadsFile(p)
    && (p.file !in fs || (|fs[p.file].lines| < p.line + 1 && fs[p.file].ending == ReadFails))
  }

  /** Reads the file of `nixCode.errPos` line by line, counting lines, and records the
      lines before, at and after the error line. End of file and every failure end the
      reading quietly; whatever was recorded until then is kept. */
  method GetCodeLines(nixCode: NixCode, fs: FileSystem)
    returns (r: NixCode, linesRead: nat, logged: bool)
    ensures r == CodeLines(nixCode, fs)
    ensures linesRead == LinesRead(nixCode.errPos, fs)
    ensures logged == ReportsFailure(nixCode.errPos, fs)
  {
    r, linesRead, logged := nixCode, 0, false;
    if nixCode.errPos.line <= 0 {
      return;
    }
    if nixCode.errPos.file == STRING_SOURCE {
      return;
    }
    if nixCode.errPos.file !in fs {
      // open fails: the SysError is caught and printed
      logged := true;
      return;
    }
    var file := fs[nixCode.errPos.file];
    var count := 0;
    var pl := nixCode.errPos.line - 1;
    while true
      invariant 0 <= count <= |file.lines| && count <= pl + 1
      invariant r.errPos == nixCode.errPos
      invariant r.prevLineOfCode ==
        if 1 <= pl <= count then Some(file.lines[pl - 1]) else nixCode.prevLineOfCode
      invariant r.errLineOfCode ==
        if pl + 1 <= count then Some(file.lines[pl]) else nixCode.errLineOfCode
      invariant r.nextLineOfCode == nixCode.nextLineOfCode
      decreases |file.lines| - count
    {
      if count == |file.lines| {
        // readLine throws: EndOfFile is swallowed, any other failure is printed
        logged := file.ending == ReadFails;
        break;
      }
      var line := file.lines[count];
      count := count + 1;
      if count < pl {
      } else if count == pl {
        r := r.(prevLineOfCode := Some(line));
      } else if count == pl + 1 {
        r := r.(errLineOfCode := Some(line));
      } else if count == pl + 2 {
        r := r.(nextLineOfCode := Some(line));
        break;
      }
    }
    linesRead := count;
  }

  /** An unset snippet at position `p`. */
  function Unfilled(p: ErrPos): NixCode {
    NixCode(p, None, None, None)
  }

  /** No file is consulted for a missing position or for code from a string:
      the result is the same whatever the file system holds. */
  lemma NoReadWithoutFile(nixCode: NixCode, fs: FileSystem, fs': FileSystem)
    requires !ReadsFile(nixCode.errPos)
    ensures CodeLines(nixCode, fs) == nixCode == CodeLines(nixCode, fs')
    ensures LinesRead(nixCode.errPos, fs) == 0 && !ReportsFailure(nixCode.errPos, fs)
  {
  }

  /** A position with an empty file name (an error in a command line argument)
      names no file that opens: its snippet stays as it was and the failure is reported. */
  lemma EmptyPathNeverOpens(nixCode: NixCode, fs: FileSystem)
    requires nixCode.errPos.file == "" && nixCode.errPos.line > 0
    ensures CodeLines(nixCode, fs) == nixCode
    ensures LinesRead(nixCode.errPos, fs) == 0 && ReportsFailure(nixCode.errPos, fs)
  {
  }

  /** The lines found on an unset snippet form one run ending at the first line the
      file lacks: a next line implies an error line, and an error line after line 1
      implies a previous line. The first line of a file never has a previous line. */
  lemma FilledLeftToRight(p: ErrPos, fs: FileSystem)
    ensures var r := CodeLines(Unfilled(p), fs);
      && (r.nextLineOfCode.Some? ==> r.errLineOfCode.Some?)
      && (r.errLineOfCode.Some? && p.line >= 2 ==> r.prevLineOfCode.Some?)
      && (p.line == 1 ==> r.prevLineOfCode.None?)
  {
  }

  /** Reading stops right after the next line: never more than `line + 1` lines,
      and fewer only when the file ends first. */
  lemma ReadsAtMostNextLine(p: ErrPos, fs: FileSystem)
    requires ReadsFile(p) && p.file in fs
    ensures LinesRead(p, fs) <= p.line + 1
    ensures LinesRead(p, fs) < p.line + 1 <==> |fs[p.file].lines| < p.line + 1
  {
  }
}
