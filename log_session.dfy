/**
  One logging session (class `Log`, lib/classes/log/__init__.py): set-up at
  construction, the header, the five emitting methods, and termination with
  its footer and the optional copy of the log file to a final directory.

  The root logger is modelled as owned by the session: `handlers` holds what
  `setup` added to it. The filesystem is reduced to what the session asks of
  it: whether the logs directory existed (a parameter). What the session does
  to the outside world is one trace, `events`, in the order it happens: each
  directory it creates, each message it hands to the logger (with what the
  handlers made of it), and each copy of the log file it requests.
*/
module LogSession {
  import opened Wrappers
  import opened Text
  import opened PosixPath
  import opened Timestamps
  import opened ExecInfo
  import opened ExceptionMessage
  import opened Routing

  /** A message handed to the logger at a level, and the handler outputs it produced. */
  datatype Emission = Emission(levelno: int, message: string, deliveries: seq<Delivery>)

  /** A requested `shutil.copy(source, target)`. */
  datatype Copy = Copy(source: string, target: string)

  /** One effect of the session on the outside world, in the order it happens. */
  datatype Event = Mkdir(path: string) | Logged(emission: Emission) | CopyRequested(copy: Copy)

  function Emit(handlers: seq<Handler>, levelno: int, message: string): Emission {
    Emission(levelno, message, Deliveries(handlers, Record(levelno, LevelName(levelno))))
  }

  const HeaderFirst := "BEGIN LOGGING..."
  const HeaderLast := "========== STARTING =========="
  const FooterFirst := "========== ENDING =========="
  const NotSpecifiedNote := "*** Final log directory not specified. ***"
  const CopiedNote := "Log copied to specified directory."
  /** The labels of the LOG, END, START and ELAPSED lines. */
  const LogLabel := "LOG: "
  const EndLabel := "  END: "
  const StartLabel := "- START: "
  const ElapsedLabel := "= ELAPSED: "

  /** The nine header lines, in order; `started` is the start time in ISO format. */
  function HeaderLines(started: string, user: string, system: string, pythonVersion: string,
                       root: string, arguments: seq<string>, log: string): seq<string>
  {
    [HeaderFirst,
     "START: " + started,
     "USER: " + user,
     "OPERATING SYSTEM: " + system,
     "PYTHON VERSION:: " + pythonVersion,
     "ROOT: " + root,
     "ARGUMENTS: " + ReprList(arguments),
     LogLabel + log,
     HeaderLast]
  }

  /** `_get_header`: the header lines joined by line feeds, without a final one. */
  function Header(started: string, user: string, system: string, pythonVersion: string,
                  root: string, arguments: seq<string>, log: string): string
  {
    JoinLines(HeaderLines(started, user, system, pythonVersion, root, arguments, log))
  }

  /** The footer's second line: whether a final log directory was given. */
  function FinalNote(final: Option<string>): string {
    if final.None? then NotSpecifiedNote else CopiedNote
  }

  /**
    The eight footer lines, in order: `log` is the log path once `final` is
    set, `ended` and `started` the end and start times in ISO format, and
    `elapsed` the elapsed-time text.
  */
  function FooterLines(final: Option<string>, log: string, ended: string, started: string,
                       elapsed: string): seq<string>
  {
    [FooterFirst,
     FinalNote(final),
     "",
     LogLabel + log,
     "",
     EndLabel + ended,
     StartLabel + started,
     ElapsedLabel + elapsed]
  }

  /**
    `_get_footer`: the ENDING rule, the note, then the block of the LOG, END,
    START and ELAPSED lines, as three appends.
  */
  function Footer(final: Option<string>, log: string, ended: string, started: string, elapsed: string): string {
    (FooterFirst + "\n") + (FinalNote(final) + "\n")
      + ("\n" + (LogLabel + log + "\n" + ("\n" + (EndLabel + ended + "\n"
      + (StartLabel + started + "\n" + (ElapsedLabel + elapsed))))))
  }

  const LogsDirectoryCreatedTitle := "LOGS DIRECTORY CREATED"

  /** The fixed sentences around the two directory names in the created-directory details. */
  const CreatedLead := "Module uses logging and needs a log directory.\nA directory for logs did not exist in "
  const CreatedMiddle := ".\nTherefore, the logger created "

  /** The warning details `__post_init__` writes when it had to create the logs directory. */
  function LogsDirectoryCreatedDetails(initial: string, logsDirectory: string): string {
    CreatedLead + initial + CreatedMiddle + logsDirectory + "."
  }

  /** The full warning banner for a created logs directory. */
  function LogsDirectoryCreatedWarning(initial: string): string {
    Banner(LogsDirectoryCreatedTitle, LogsDirectoryCreatedDetails(initial, Join(initial, "logs")), "")
  }

  /** The banner `__post_init__` builds with an `ExceptionMessageFormatted` after creating the logs directory. */
  method LogsDirectoryCreatedMessage(initial: string, logsDirpathname: string) returns (text: string)
    requires logsDirpathname == Join(initial, "logs")
    ensures text == LogsDirectoryCreatedWarning(initial)
  {
    var details := LogsDirectoryCreatedDetails(initial, logsDirpathname);
    var msg := new ExceptionMessageFormatted();
    msg.title := LogsDirectoryCreatedTitle;
    msg.details := details;
    text := msg.Get();
  }

  /**
    The header starts with `BEGIN LOGGING...` and a line feed, ends with a line
    feed and the STARTING rule, and when no field holds a line feed it splits
    back into exactly its nine lines, so every field sits on its own line in
    the fixed order.
  */
  lemma {:induction false} HeaderShape(started: string, user: string, system: string, pythonVersion: string,
                                       root: string, arguments: seq<string>, log: string)
    ensures var h := Header(started, user, system, pythonVersion, root, arguments, log);
      && HeaderFirst + "\n" <= h
      && |h| >= |HeaderLast| + 1 && h[|h| - |HeaderLast| - 1..] == "\n" + HeaderLast
    ensures NoLineFeed(started) && NoLineFeed(user) && NoLineFeed(system) && NoLineFeed(pythonVersion)
            && NoLineFeed(root) && NoLineFeed(log) ==>
      SplitLines(Header(started, user, system, pythonVersion, root, arguments, log))
        == HeaderLines(started, user, system, pythonVersion, root, arguments, log)
  {
    var lines := HeaderLines(started, user, system, pythonVersion, root, arguments, log);
    JoinLinesEdges(lines);
    if NoLineFeed(started) && NoLineFeed(user) && NoLineFeed(system) && NoLineFeed(pythonVersion)
       && NoLineFeed(root) && NoLineFeed(log) {
      HeaderRulesNoLineFeed();
      HeaderLabelsNoLineFeed();
      FooterLabelsNoLineFeed();
      NoLineFeedConcat("START: ", started);
      NoLineFeedConcat("USER: ", user);
      NoLineFeedConcat("OPERATING SYSTEM: ", system);
      NoLineFeedConcat("PYTHON VERSION:: ", pythonVersion);
      NoLineFeedConcat("ROOT: ", root);
      NoLineFeedConcat("ARGUMENTS: ", ReprList(arguments));
      NoLineFeedConcat(LogLabel, log);
      SplitNineLines(lines);
    }
  }

  /** The footer starts with the ENDING rule and a line feed, and ends with a line feed and the ELAPSED line. */
  lemma {:induction false} FooterEdges(final: Option<string>, log: string, ended: string, started: string,
                                       elapsed: string)
    ensures var f := Footer(final, log, ended, started, elapsed);
      var last := ElapsedLabel + elapsed;
      && FooterFirst + "\n" <= f
      && |f| >= |last| + 1 && f[|f| - |last| - 1..] == "\n" + last
  {
    FooterIsJoinedLines(final, log, ended, started, elapsed);
    JoinLinesEdges(FooterLines(final, log, ended, started, elapsed));
  }

  /**
    Whatever the fields hold, the footer's second line is the note for
    `final`: right after the ENDING rule comes the not-specified note exactly
    when no final directory is set and the copied note exactly when one is.
  */
  lemma {:induction false} FooterNoteAt(final: Option<string>, log: string, ended: string, started: string,
                                        elapsed: string)
    ensures var f := Footer(final, log, ended, started, elapsed);
      |f| > |FooterFirst| + 1
      && var afterRule := f[|FooterFirst| + 1..];
      && FinalNote(final) + "\n" <= afterRule
      && (NotSpecifiedNote + "\n" <= afterRule <==> final.None?)
      && (CopiedNote + "\n" <= afterRule <==> final.Some?)
  {
    var rule, note := FooterFirst + "\n", FinalNote(final) + "\n";
    var rest := "\n" + (LogLabel + log + "\n" + ("\n" + (EndLabel + ended + "\n"
      + (StartLabel + started + "\n" + (ElapsedLabel + elapsed)))));
    var f := Footer(final, log, ended, started, elapsed);
    ConcatAssoc(rule, note, rest);
    ConcatParts(rule, note + rest);
    ConcatParts(note, rest);
    var afterRule := f[|FooterFirst| + 1..];
    assert afterRule == note + rest;
    assert note <= afterRule && afterRule[0] == note[0];
    NotesDiffer();
  }

  /**
    When no field holds a line feed the footer splits back into exactly its
    eight lines: the second is the not-specified note exactly when no final
    directory is set and the copied note exactly when one is, and the fourth
    is the LOG line with the given path.
  */
  lemma {:induction false} FooterLinesOf(final: Option<string>, log: string, ended: string, started: string,
                                         elapsed: string)
    requires NoLineFeed(log) && NoLineFeed(ended) && NoLineFeed(started) && NoLineFeed(elapsed)
    ensures var lines := SplitLines(Footer(final, log, ended, started, elapsed));
      && lines == FooterLines(final, log, ended, started, elapsed)
      && (lines[1] == NotSpecifiedNote <==> final.None?)
      && (lines[1] == CopiedNote <==> final.Some?)
      && lines[3] == LogLabel + log
  {
    FooterIsJoinedLines(final, log, ended, started, elapsed);
    FooterNotesNoLineFeed();
    FooterLabelsNoLineFeed();
    NoLineFeedConcat(LogLabel, log);
    NoLineFeedConcat(EndLabel, ended);
    NoLineFeedConcat(StartLabel, started);
    NoLineFeedConcat(ElapsedLabel, elapsed);
    SplitEightLines(FooterLines(final, log, ended, started, elapsed));
    NotesDiffer();
  }

  lemma NotesDiffer()
    ensures NotSpecifiedNote[0] != CopiedNote[0]
  {
  }

  lemma HeaderRulesNoLineFeed()
    ensures NoLineFeed(HeaderFirst) && NoLineFeed(HeaderLast)
  {
  }

  lemma HeaderLabelsNoLineFeed()
    ensures NoLineFeed("START: ") && NoLineFeed("USER: ") && NoLineFeed("OPERATING SYSTEM: ")
    ensures NoLineFeed("PYTHON VERSION:: ") && NoLineFeed("ROOT: ") && NoLineFeed("ARGUMENTS: ")
  {
  }

  lemma FooterNotesNoLineFeed()
    ensures NoLineFeed(FooterFirst) && NoLineFeed(NotSpecifiedNote) && NoLineFeed(CopiedNote)
  {
    NotSpecifiedNoteNoLineFeed();
    CopiedNoteNoLineFeed();
  }

  lemma NotSpecifiedNoteNoLineFeed()
    ensures NoLineFeed(NotSpecifiedNote)
  {
  }

  lemma CopiedNoteNoLineFeed()
    ensures NoLineFeed(CopiedNote)
  {
  }

  lemma FooterLabelsNoLineFeed()
    ensures NoLineFeed("") && NoLineFeed(LogLabel) && NoLineFeed(EndLabel)
    ensures NoLineFeed(StartLabel) && NoLineFeed(ElapsedLabel)
  {
  }

  lemma SplitNineLines(lines: seq<string>)
    requires |lines| == 9
    requires NoLineFeed(lines[0]) && NoLineFeed(lines[1]) && NoLineFeed(lines[2])
    requires NoLineFeed(lines[3]) && NoLineFeed(lines[4]) && NoLineFeed(lines[5])
    requires NoLineFeed(lines[6]) && NoLineFeed(lines[7]) && NoLineFeed(lines[8])
    ensures SplitLines(JoinLines(lines)) == lines
  {
    SplitJoinLines(lines);
  }

  lemma SplitEightLines(lines: seq<string>)
    requires |lines| == 8
    requires NoLineFeed(lines[0]) && NoLineFeed(lines[1]) && NoLineFeed(lines[2])
    requires NoLineFeed(lines[3]) && NoLineFeed(lines[4]) && NoLineFeed(lines[5])
    requires NoLineFeed(lines[6]) && NoLineFeed(lines[7])
    ensures SplitLines(JoinLines(lines)) == lines
  {
    SplitJoinLines(lines);
  }

  /** The footer's lines joined, in the grouping `_get_footer` appends them. */
  lemma {:induction false} FooterJoin(first: string, note: string, logLine: string,
                                      endLine: string, startLine: string, elapsedLine: string)
    ensures JoinLines([first, note, "", logLine, "", endLine, startLine, elapsedLine])
      == (first + "\n") + (note + "\n")
         + ("\n" + (logLine + "\n" + ("\n" + (endLine + "\n" + (startLine + "\n" + elapsedLine)))))
  {
    var t6 := [startLine, elapsedLine];
    assert JoinLines(t6) == startLine + "\n" + elapsedLine by {
      assert t6[1..] == [elapsedLine];
    }
    var t5 := [endLine] + t6;
    JoinLinesCons(endLine, t6);
    var t4 := [""] + t5;
    JoinLinesCons("", t5);
    var t3 := [logLine] + t4;
    JoinLinesCons(logLine, t4);
    var t2 := [""] + t3;
    JoinLinesCons("", t3);
    var t1 := [note] + t2;
    JoinLinesCons(note, t2);
    JoinLinesCons(first, t1);
    assert [first, note, "", logLine, "", endLine, startLine, elapsedLine] == [first] + t1;
    ConcatAssoc(first + "\n", note + "\n", JoinLines(t2));
  }

  /** The footer's three appends are its eight lines joined by line feeds. */
  lemma {:induction false} FooterIsJoinedLines(final: Option<string>, log: string, ended: string, started: string,
                                               elapsed: string)
    ensures Footer(final, log, ended, started, elapsed) == JoinLines(FooterLines(final, log, ended, started, elapsed))
  {
    FooterJoin(FooterFirst, FinalNote(final), LogLabel + log, EndLabel + ended, StartLabel + started,
               ElapsedLabel + elapsed);
  }

  /**
    `shutil.copy` into an existing directory lands at the directory joined
    with the source's base name. Copying the log path computed before `final`
    was set into the final directory therefore lands exactly at the path the
    footer's LOG line names.
  */
  lemma CopyLandsAtFooterPath(initial: string, final: string, basename: string, start: DateTime)
    requires start.Valid() && Sep !in basename
    ensures var source := LogFilePath(initial, None, basename, start);
      Join(final, Basename(source)) == LogFilePath(initial, Some(final), basename, start)
  {
    LogFilePathSplits(initial, None, basename, start);
  }

  /**
    The two messages set-up can emit: the header, an INFO record, reaches only
    the file FYI handler; the created-directory warning reaches the file ALERT
    and the stderr ALERT handlers.
  */
  lemma SetupMessagesRouting(path: string, header: string, warning: string)
    ensures Emit(SetupHandlers(Some(path)), INFO, header).deliveries
      == [Delivery(FileFyi, LogFile(path), Some(Glyph("INFO")))]
    ensures Emit(SetupHandlers(Some(path)), WARNING, warning).deliveries
      == [Delivery(FileAlert, LogFile(path), Some(Glyph("WARNING"))),
          Delivery(StderrAlert, Stderr, Some(Glyph("WARNING")))]
  {
    DeliveriesWithFile(path, Record(INFO, LevelName(INFO)));
    DeliveriesWithFile(path, Record(WARNING, LevelName(WARNING)));
  }

  /**
    The trace of `__post_init__` under the logs directory of `initial`: when the
    directory is missing it is created first, then the header is logged, then
    the created-directory warning; otherwise only the header is logged.
  */
  function SetupEvents(initial: string, logsDirExists: bool, handlers: seq<Handler>, header: string): seq<Event> {
    (if logsDirExists then [] else [Mkdir(Join(initial, "logs"))])
    + [Logged(Emit(handlers, INFO, header))]
    + (if logsDirExists then [] else [Logged(Emit(handlers, WARNING, LogsDirectoryCreatedWarning(initial)))])
  }

  /** `Log`: the session a top-level module creates from its own file path. */
  class Log {
    const moduleFilepathname: string
    const execInfo: ExecInfo
    /** The root logger's handlers, in the order `setup` added them. */
    var handlers: seq<Handler>
    /** Whether `setup` has given the session its logger. */
    var configured: bool
    /** Every directory created, message logged and copy requested, in order. */
    var events: seq<Event>

    /** The state every emitting method and `terminate` relies on. */
    predicate Ready()
      reads this, execInfo, execInfo.timestamps
    {
      configured && execInfo.Ready() && execInfo.timestamps.start.Valid()
    }

    /**
      Construction and `__post_init__`: the run information is read, the
      module path split, the logs directory created when it is missing, the
      session initialised once, and only when the directory had to be created
      the warning banner emitted after the header.
    */
    constructor (moduleFilepathname: string, user: string, system: string, pythonVersion: string,
                 now: DateTime, argv: seq<string>, logsDirExists: bool)
      requires now.Valid()
      ensures this.moduleFilepathname == moduleFilepathname && Ready()
      ensures fresh(execInfo) && fresh(execInfo.timestamps)
      ensures execInfo.timestamps.start == now && execInfo.timestamps.end == None
      ensures execInfo.initial == Some(Dirname(moduleFilepathname))
      ensures execInfo.moduleBasename == Some(ModuleBasename(moduleFilepathname))
      ensures execInfo.arguments == ArgumentsOf(argv) && execInfo.final == None
      ensures execInfo.user == user && execInfo.system == system && execInfo.pythonVersion == pythonVersion
      ensures var path := execInfo.GetFilepathname();
        && handlers == SetupHandlers(Some(path))
        && path == LogFilePath(Dirname(moduleFilepathname), None, ModuleBasename(moduleFilepathname), now)
      ensures events == SetupEvents(Dirname(moduleFilepathname), logsDirExists, handlers, GetHeader())
    {
      this.moduleFilepathname := moduleFilepathname;
      execInfo := new ExecInfo(user, system, pythonVersion, now);
      handlers := [];
      configured := false;
      events := [];
      new;
      execInfo.SetInfo(moduleFilepathname, argv);
      PostInit(logsDirExists);
    }

    /**
      The rest of `__post_init__`, once the module path is split: the logs
      directory is created when it is missing, the session initialised once,
      and only when the directory had to be created the warning banner
      emitted after the header.
    */
    method PostInit(logsDirExists: bool)
      requires execInfo.Ready() && execInfo.timestamps.start.Valid()
      requires handlers == [] && events == []
      modifies this
      ensures Ready() && handlers == SetupHandlers(Some(execInfo.GetFilepathname()))
      ensures events == SetupEvents(execInfo.initial.value, logsDirExists, handlers, GetHeader())
    {
      ghost var header := GetHeader();
      var logsDirpathname := Join(execInfo.initial.value, "logs");
      if !logsDirExists {
        events := events + [Mkdir(logsDirpathname)];
        Initialize();
        assert events == [Mkdir(logsDirpathname), Logged(Emit(handlers, INFO, header))];
        var text := LogsDirectoryCreatedMessage(execInfo.initial.value, logsDirpathname);
        Warning(text);
      } else {
        Initialize();
      }
    }

    /** `_get_header` on the current state. */
    function GetHeader(): string
      reads execInfo, execInfo.timestamps
      requires execInfo.Ready() && execInfo.timestamps.start.Valid()
    {
      Header(IsoFormat(execInfo.timestamps.start), execInfo.user, execInfo.system, execInfo.pythonVersion,
             execInfo.GetModuleFilepathname(), execInfo.arguments, execInfo.GetFilepathname())
    }

    /** `initialize`: set-up with the log file, then the header at INFO. */
    method Initialize()
      requires execInfo.Ready() && execInfo.timestamps.start.Valid()
      modifies this
      ensures configured && handlers == old(handlers) + SetupHandlers(Some(execInfo.GetFilepathname()))
      ensures events == old(events) + [Logged(Emit(handlers, INFO, GetHeader()))]
    {
      Setup(Some(execInfo.GetFilepathname()));
      Info(GetHeader());
    }

    /**
      `setup`: the root logger is set to DEBUG and receives the handlers for
      the given log file, or the stderr-only handlers without one.
    */
    method Setup(filepathname: Option<string>)
      modifies this
      ensures configured && handlers == old(handlers) + SetupHandlers(filepathname)
      ensures events == old(events)
    {
      handlers := handlers + SetupHandlers(filepathname);
      configured := true;
    }

    method LogAt(levelno: int, message: string)
      requires configured
      modifies this
      ensures events == old(events) + [Logged(Emit(handlers, levelno, message))]
      ensures handlers == old(handlers) && configured
    {
      events := events + [Logged(Emit(handlers, levelno, message))];
    }

    method Debug(message: string)
      requires configured
      modifies this
      ensures events == old(events) + [Logged(Emit(handlers, DEBUG, message))]
      ensures handlers == old(handlers) && configured
    {
      LogAt(DEBUG, message);
    }

    method Info(message: string)
      requires configured
      modifies this
      ensures events == old(events) + [Logged(Emit(handlers, INFO, message))]
      ensures handlers == old(handlers) && configured
    {
      LogAt(INFO, message);
    }

    method Warning(message: string)
      requires configured
      modifies this
      ensures events == old(events) + [Logged(Emit(handlers, WARNING, message))]
      ensures handlers == old(handlers) && configured
    {
      LogAt(WARNING, message);
    }

    method Error(message: string)
      requires configured
      modifies this
      ensures events == old(events) + [Logged(Emit(handlers, ERROR, message))]
      ensures handlers == old(handlers) && configured
    {
      LogAt(ERROR, message);
    }

    method Critical(message: string)
      requires configured
      modifies this
      ensures events == old(events) + [Logged(Emit(handlers, CRITICAL, message))]
      ensures handlers == old(handlers) && configured
    {
      LogAt(CRITICAL, message);
    }

    /**
      `_get_footer`: the ENDING rule, the note chosen by whether a final
      directory is set, then the LOG line and the END, START and ELAPSED lines,
      built by three appends.
    */
    method GetFooter() returns (footer: string)
      requires execInfo.Ready() && execInfo.timestamps.start.Valid()
      requires execInfo.timestamps.end.Some? && execInfo.timestamps.end.value.Valid()
      ensures var start, end := execInfo.timestamps.start, execInfo.timestamps.end.value;
        footer == Footer(execInfo.final, execInfo.GetFilepathname(),
                         IsoFormat(end), IsoFormat(start), ElapsedBetween(start, end))
    {
      var start, end := execInfo.timestamps.start, execInfo.timestamps.end.value;
      var log := execInfo.GetFilepathname();
      var elapsed := execInfo.timestamps.GetElapsed();
      var logLine, endLine := LogLabel + log, EndLabel + IsoFormat(end);
      var startLine, elapsedLine := StartLabel + IsoFormat(start), ElapsedLabel + elapsed;
      footer := FooterFirst + "\n";
      if execInfo.final.None? {
        footer := footer + (NotSpecifiedNote + "\n");
      } else {
        footer := footer + (CopiedNote + "\n");
      }
      footer := footer + ("\n" + (logLine + "\n" + ("\n" + (endLine + "\n" + (startLine + "\n" + elapsedLine)))));
    }

    /** The `self.info(self._get_footer())` step of `terminate`. */
    method LogFooter()
      requires Ready()
      requires execInfo.timestamps.end.Some? && execInfo.timestamps.end.value.Valid()
      modifies this
      ensures var start, end := execInfo.timestamps.start, execInfo.timestamps.end.value;
        events == old(events) + [Logged(Emit(handlers, INFO, Footer(execInfo.final, execInfo.GetFilepathname(),
                                                                     IsoFormat(end), IsoFormat(start),
                                                                     ElapsedBetween(start, end))))]
      ensures handlers == old(handlers) && configured
    {
      var footer := GetFooter();
      Info(footer);
    }

    /**
      The first steps of `terminate`: the end time is set, the log path is
      taken while `final` is still the old value, then `final` is set.
    */
    method Close(dirpathname: Option<string>, now: DateTime) returns (logfilePathname: string)
      requires Ready() && now.Valid()
      modifies execInfo, execInfo.timestamps
      ensures execInfo.timestamps.end == Some(now) && execInfo.final == dirpathname
      ensures execInfo.timestamps.start == old(execInfo.timestamps.start)
      ensures execInfo.initial == old(execInfo.initial) && execInfo.moduleBasename == old(execInfo.moduleBasename)
      ensures execInfo.arguments == old(execInfo.arguments) && Ready()
      ensures var start := execInfo.timestamps.start;
        var initial, basename := execInfo.initial.value, execInfo.moduleBasename.value;
        && logfilePathname == LogFilePath(initial, old(execInfo.final), basename, start)
        && execInfo.GetFilepathname() == LogFilePath(initial, dirpathname, basename, start)
    {
      execInfo.timestamps.end := Some(now);
      logfilePathname := execInfo.GetFilepathname();
      execInfo.final := dirpathname;
    }

    /**
      `terminate`: the end time is set; the log path is taken while `final` is
      still the old value; `final` becomes the given directory; the footer,
      whose LOG line uses the new path, is logged at INFO; and a copy of the
      log file taken before is requested whenever a directory was given, the
      empty string included.
    */
    method Terminate(dirpathname: Option<string>, now: DateTime)
      requires Ready() && now.Valid()
      modifies this, execInfo, execInfo.timestamps
      ensures execInfo.timestamps.end == Some(now) && execInfo.final == dirpathname
      ensures execInfo.timestamps.start == old(execInfo.timestamps.start)
      ensures execInfo.initial == old(execInfo.initial) && execInfo.moduleBasename == old(execInfo.moduleBasename)
      ensures execInfo.arguments == old(execInfo.arguments)
      ensures handlers == old(handlers) && Ready()
      ensures var start := execInfo.timestamps.start;
        var initial, basename := execInfo.initial.value, execInfo.moduleBasename.value;
        events == old(events)
          + [Logged(Emit(handlers, INFO, Footer(dirpathname, LogFilePath(initial, dirpathname, basename, start),
                                                IsoFormat(now), IsoFormat(start), ElapsedBetween(start, now))))]
          + (if dirpathname.Some?
             then [CopyRequested(Copy(LogFilePath(initial, old(execInfo.final), basename, start), dirpathname.value))]
             else [])
    {
      var logfilePathname := Close(dirpathname, now);
      LogFooter();
      if dirpathname.Some? {
        events := events + [CopyRequested(Copy(logfilePathname, dirpathname.value))];
      }
    }
  }
}
