/** `BaseError`: the error object behind every nix exception, as far as it builds
    its message. */
module Errors {
  import opened Optional
  import opened Extract
  import opened Streams
  import opened Report

  class BaseError {
    /** The error to report. */
    var err: ErrorInfo
    /** Text that callers rethrowing the error put in front of its message. */
    var prefix: string
    /** The rendered report, once it has been computed. */
    var what: Option<string>
    /** The name of the error's class (`sname()`), shown in the report's header. */
    const sname: string

    constructor (sname: string, err: ErrorInfo)
      ensures this.sname == sname && this.err == err
      ensures prefix == "" && what == None
    {
      this.sname := sname;
      this.err := err;
      prefix := "";
      what := None;
    }

    /** Puts `s` in front of the prefix so far: the latest prefix comes first. */
    method AddPrefix(s: string)
      modifies this`prefix
      ensures prefix == s + old(prefix)
      ensures prefix[..|s|] == s && prefix[|s|..] == old(prefix)
    {
      prefix := s + prefix;
    }

    /** The report of this error. The first call names the error after its class,
        renders it and keeps the text; every later call returns the kept text and
        changes nothing. */
    method CalcWhat(programName: Option<string>, fs: FileSystem) returns (w: string)
      requires what.None? ==> Renderable(err)
      modifies this`err, this`what
      ensures what == Some(w)
      ensures old(what).Some? ==> w == old(what).value && err == old(err)
      ensures old(what).None? ==>
        && err == old(err).(name := sname)
        && w == Flatten(ReportLines(err, programName, fs))
    {
      if what.Some? {
        return what.value;
      }
      var named := err.(name := sname);
      err := named;
      var oss := new OStream();
      WriteErrorInfo(oss, named, programName, fs);
      assert oss.lines == ReportLines(named, programName, fs);
      what := Some(oss.Str());
      return what.value;
    }
  }
}
