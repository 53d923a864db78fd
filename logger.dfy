/** The Logger: one log file written line by line, the emission pipeline
    behind Log and LogHTTP, the exit on Fatal, and Close. */
module AppLogger {
  import opened Wrappers
  import opened Severity
  import opened Caller
  import opened ContextValues
  import opened Entry

  /** One line of the log file: a serialised entry, or the diagnostic
      written when serialisation fails. */
  datatype Line = Record(fields: seq<Field>) | Diagnostic(err: MarshalError)

  /** The state of `lg.file`: nil in a zero-value Logger; otherwise an
      *os.File that stays open until it is first closed. */
  datatype FileHandle = NoFile | OpenFile | ClosedFile

  /** The error closing an *os.File a second time returns: a *PathError
      with Op "close" wrapping os.ErrClosed. */
  datatype CloseError = ErrClosed

  /** The failure NewLogger passes on from os.OpenFile. */
  datatype OpenError = OpenFailed

  /** The entry logInternal builds from its arguments, with the runtime
      caller lookup, the two clock readings (`pid` and the formatted
      `timestamp`) supplied from outside. */
  function BuildEntry(
    ctx: Context, level: LogLevel, msg: string, code: int, duration: Float64,
    caller: CallerLookup, pid: string, timestamp: string): (e: LogEntry)
    requires Splittable(caller)
    ensures e.pid == pid && e.timestamp == timestamp
    ensures e.level == LevelString(level) && (e.level == "UNKNOWN" <==> !IsDeclared(level))
    ensures (e.packageName, e.funcName) == CallerInfo(caller)
    ensures Resolved(caller) ==> e.packageName + "." + e.funcName == caller.funcName.value
    ensures !Resolved(caller) ==> e.packageName == Unknown && e.funcName == Unknown
    ensures e.message == msg && e.code == code && e.duration == duration
    ensures e.attributes == ContextAttributes(ctx)
    ensures e.attributes.Keys <= {"user_id", "request_id", "session_id"}
  {
    var (pkgName, funcName) := CallerInfo(caller);
    LogEntry(pid, LevelString(level), pkgName, funcName, msg, timestamp, code, duration,
             ContextAttributes(ctx))
  }

  /** The line logInternal writes for an entry. */
  function Emission(e: LogEntry): (line: Line)
    ensures line.Record? <==> Encodable(e)
    ensures line.Diagnostic? ==> Marshal(e) == Failure(line.err)
    ensures line.Record? ==> Unmarshal(ObjectOf(line.fields)) == Some(e)
  {
    if Marshal(e).Success? then RoundTrip(e); Record(Marshal(e).value)
    else Diagnostic(Marshal(e).error)
  }


  class Logger {
    var file: FileHandle
    /** The lines of the log file, oldest first. */
    var sink: seq<Line>
    /** Set by os.Exit(1); no code of the process runs after it. */
    var exited: bool

    /** A zero-value Logger, `&Logger{}`: no file and no inner logger. */
    constructor Zero()
      ensures file == NoFile && sink == [] && !exited
    {
      file := NoFile;
      sink := [];
      exited := false;
    }

    /** A Logger over a file opened for appending; `existing` is what the
        file already holds. */
    constructor Opened(existing: seq<Line>)
      ensures file == OpenFile && sink == existing && !exited
    {
      file := OpenFile;
      sink := existing;
      exited := false;
    }

    /** NewLogger, with the outcome of os.OpenFile supplied as `openResult`: the
        prior file contents on success, or the error, which is returned and
        no Logger is made. */
    static method NewLogger(openResult: Result<seq<Line>, OpenError>) returns (lg: Logger?, err: Option<OpenError>)
      ensures openResult.Failure? ==> lg == null && err == Some(openResult.error)
      ensures openResult.Success? ==>
        && err == None && lg != null && fresh(lg)
        && lg.file == OpenFile && lg.sink == openResult.value && !lg.exited
    {
      if openResult.Failure? {
        return null, Some(openResult.error);
      }
      lg := new Logger.Opened(openResult.value);
      err := None;
    }

    /** Close: closes the file if there is one. It does not clear the
        handle, so a second Close reaches the closed file and reports
        an error wrapping os.ErrClosed; no line is ever written. */
    method Close() returns (err: Option<CloseError>)
      requires !exited
      modifies this
      ensures sink == old(sink) && exited == old(exited)
      ensures old(file) == NoFile ==> file == NoFile && err == None
      ensures old(file) == OpenFile ==> file == ClosedFile && err == None
      ensures old(file) == ClosedFile ==> file == ClosedFile && err == Some(ErrClosed)
    {
      if file != NoFile {
        if file == ClosedFile {
          return Some(ErrClosed);
        }
        file := ClosedFile;
      }
      return None;
    }

    /** Output of the inner log.Logger: one line appended to the file while
        it is open. On a closed file the write fails and log.Logger drops
        the error, so nothing is written. */
    method WriteLine(line: Line)
      requires file != NoFile
      modifies this`sink
      ensures sink == old(sink) + (if file == OpenFile then [line] else [])
    {
      if file == OpenFile {
        sink := sink + [line];
      }
    }

    /** logInternal: build the entry, marshal it, write one line (the entry,
        or the diagnostic if marshalling failed, returning at once), and
        exit after writing a Fatal entry. */
    method LogInternal(
      ctx: Context, level: LogLevel, msg: string, code: int, duration: Float64,
      caller: CallerLookup, pid: string, timestamp: string)
      requires !exited && file != NoFile && Splittable(caller)
      modifies this
      ensures file == old(file)
      ensures var e := LogEntry(pid, LevelString(level), CallerInfo(caller).0, CallerInfo(caller).1,
                                msg, timestamp, code, duration, ContextAttributes(ctx));
        && e == BuildEntry(ctx, level, msg, code, duration, caller, pid, timestamp)
        && sink == old(sink) + (if file == OpenFile then [Emission(e)] else [])
        && (exited <==> level == Fatal && Marshal(e).Success?)
    {
      var pkgName, funcName := GetCallerInfo(caller);
      var attributes := ExtractContextValues(ctx);
      var entry := LogEntry(pid, LevelString(level), pkgName, funcName, msg, timestamp,
                            code, duration, attributes);
      var data := Marshal(entry);
      if data.Failure? {
        WriteLine(Diagnostic(data.error));
        return;
      }
      WriteLine(Record(data.value));
      if level == Fatal {
        exited := true;
      }
    }

    /** Log: logInternal with code 0 and duration 0. */
    method Log(ctx: Context, level: LogLevel, message: string, caller: CallerLookup, pid: string, timestamp: string)
      requires !exited && file != NoFile && Splittable(caller)
      modifies this
      ensures file == old(file)
      ensures var e := BuildEntry(ctx, level, message, 0, Finite(0.0), caller, pid, timestamp);
        && sink == old(sink) + (if file == OpenFile then [Emission(e)] else [])
        && (exited <==> level == Fatal && Marshal(e).Success?)
    {
      LogInternal(ctx, level, message, 0, Finite(0.0), caller, pid, timestamp);
    }

    /** LogHTTP: logInternal with the response code and duration. */
    method LogHTTP(
      ctx: Context, level: LogLevel, message: string, code: int, duration: Float64,
      caller: CallerLookup, pid: string, timestamp: string)
      requires !exited && file != NoFile && Splittable(caller)
      modifies this
      ensures file == old(file)
      ensures var e := BuildEntry(ctx, level, message, code, duration, caller, pid, timestamp);
        && sink == old(sink) + (if file == OpenFile then [Emission(e)] else [])
        && (exited <==> level == Fatal && Marshal(e).Success?)
    {
      LogInternal(ctx, level, message, code, duration, caller, pid, timestamp);
    }
  }

  // ---------------------------------------------------------------------
  // Properties of the emitted line.

  /** A line from Log never carries code or duration; it is a diagnostic
      exactly when some context value cannot be encoded. */
  lemma LogOmitsCodeAndDuration(
    ctx: Context, level: LogLevel, msg: string, caller: CallerLookup, pid: string, timestamp: string)
    requires Splittable(caller)
    ensures var line := Emission(BuildEntry(ctx, level, msg, 0, Finite(0.0), caller, pid, timestamp));
      && (line.Diagnostic? <==> exists k :: k in ContextAttributes(ctx) && !Supported(ContextAttributes(ctx)[k]))
      && (line.Record? ==> Code !in Names(line.fields) && Duration !in Names(line.fields))
  {
    var e := BuildEntry(ctx, level, msg, 0, Finite(0.0), caller, pid, timestamp);
    if Marshal(e).Success? {
      OmitEmpty(e);
    }
  }

  /** A LogHTTP line that is written carries a non-zero code as given, and
      duration exactly when it is non-zero. */
  lemma LogHTTPCarriesCode(
    ctx: Context, level: LogLevel, msg: string, code: int, duration: Float64,
    caller: CallerLookup, pid: string, timestamp: string)
    requires Splittable(caller)
    ensures var line := Emission(BuildEntry(ctx, level, msg, code, duration, caller, pid, timestamp));
      line.Record? ==>
        && (Code in ObjectOf(line.fields) <==> code != 0)
        && (code != 0 ==> ObjectOf(line.fields)[Code] == JInt(code))
        && (Duration in ObjectOf(line.fields) <==> duration != Finite(0.0))
  {
    var e := BuildEntry(ctx, level, msg, code, duration, caller, pid, timestamp);
    if Marshal(e).Success? {
      EncodedOptionalMembers(e);
    }
  }

  /** Parsing a written entry line gives back every argument of the call:
      the message unchanged, the level's name, the caller split, and the
      context attributes. */
  lemma WrittenLineRecoversCall(
    ctx: Context, level: LogLevel, msg: string, code: int, duration: Float64,
    caller: CallerLookup, pid: string, timestamp: string)
    requires Splittable(caller)
    ensures var line := Emission(BuildEntry(ctx, level, msg, code, duration, caller, pid, timestamp));
      line.Record? ==>
        var parsed := Unmarshal(ObjectOf(line.fields));
        && parsed.Some?
        && parsed.value.message == msg
        && parsed.value.level == LevelString(level)
        && (parsed.value.packageName, parsed.value.funcName) == CallerInfo(caller)
        && parsed.value.code == code && parsed.value.duration == duration
        && parsed.value.attributes == ContextAttributes(ctx)
  {
    var e := BuildEntry(ctx, level, msg, code, duration, caller, pid, timestamp);
    if Marshal(e).Success? {
      RoundTrip(e);
    }
  }
}
