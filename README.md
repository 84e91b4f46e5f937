# Verified model of the `Log` session layer of LHHegland/logging

The repository wraps Python's `logging` in a `Log` class for a top-level module.
Constructing a `Log` from the module's `__file__` does four things:

- derives a log file `<dir>/logs/<module>_<YYYYMMDDHHMMSS>.log`;
- creates the `logs` directory when it is missing;
- attaches handlers to the root logger: FYI records (below WARNING) go to the file, ALERT records go to the file and to stderr, and file records carry a colour glyph;
- writes a header.

`terminate` records the end time, sets the optional final directory, writes a footer with the elapsed time, and copies the log file there.
`ExceptionMessageFormatted` builds the upper-cased banners the session logs.

The Dafny project models that core:

| file | module | models |
|---|---|---|
| `text.dfy` | `Text` | decimal rendering (`f'{n:d}'`), zero padding, ASCII `str.upper`, `'\n'.join` / `split('\n')`, `repr` of a list of strings |
| `posix_path.dfy` | `PosixPath` | `os.path.join`, `dirname`, `basename`, `splitext` (POSIX rules) |
| `timestamps.dfy` | `Timestamps` | `_Timestamps`: the UTC date-time record, `strftime('%Y%m%d%H%M%S')`, `isoformat()`, and the elapsed-time split of `_get_elapsed` |
| `exec_info.dfy` | `ExecInfo` | `_ExecInfo` with the `_Directories` record folded in: `set_info`, `_get_filepathname`, `_get_module_filepathname` |
| `exception_message.dfy` | `ExceptionMessage` | `ExceptionMessageFormatted.get` |
| `routing.dfy` | `Routing` | `setup`: the three filters, the glyph table, the handler set with its thresholds, and which handlers a record reaches |
| `log_session.dfy` | `LogSession` | class `Log`: construction and `__post_init__`, `initialize`, `_get_header`, the five emitting methods, `_get_footer`, `terminate` |

The state that the source updates in place is modelled by classes with mutable fields:

- `Timestamps.Timestamps`;
- `ExecInfo.ExecInfo`;
- `ExceptionMessage.ExceptionMessageFormatted`;
- `Routing.LogRecord`, only for the glyph filter;
- `LogSession.Log`.

`Log` keeps what the root logger received as data:

- `handlers`: the handlers `setup` added;
- `events`: one trace of what the session did to the outside world, in order. An event is a directory created (`Mkdir`), a message logged with its level and the handler outputs it produced (`Logged`), or a copy of the log file requested (`CopyRequested`).

The clock, the user name, the platform strings, `sys.argv` and the existence of the `logs` directory are parameters.

### Where the model follows the code over its comments

- The usage comment at `lib/classes/log/__init__.py:22` says that `''` leaves the log in place. The code at lines 185-188 tests only `is not None`. So `terminate('')` sets `final` to `''`, writes "Log copied to specified directory." and requests a copy. `LogSession.Log.Terminate` states this for every `Some(d)`, `d == ""` included.
- `_get_module_filepathname` rebuilds the module path only under two conditions. First, the stem has a character other than `.`. Second, the directory prefix is empty, consists of separators only, or ends in exactly one separator after a non-separator. So `//b.py` rebuilds as itself, while `a//b.py` does not. `PosixPath.DotsOnlyStemKept` and `PosixPath.DoubledSepNotRebuilt` exhibit the two exceptions.

## Model

| member | source | states |
|---|---|---|
| Text.ParseIntToString | lib/classes/log/exec_info/timestamps.py:43 | the decimal rendering of any integer reads back as that integer, followed by whatever text came after it |
| Text.IntToString | lib/classes/log/exec_info/timestamps.py:43 | the `{n:d}` rendering is never empty and starts with `-` exactly for a negative number; `Text.ParseIntToString` proves it reads back |
| Text.ZeroPad | lib/classes/log/exec_info/__init__.py:51 | a zero-padded field has exactly the requested width and only decimal digits |
| Text.ZeroPadValue | lib/classes/log/exec_info/__init__.py:51 | a zero-padded field of width w has the value n whenever n < 10^w |
| Text.Upper | lib/classes/log/exception_message.py:28 | upper-casing keeps the title's length |
| Text.SplitJoinLines | lib/classes/log/__init__.py:141-150 | lines without line feeds, joined by line feeds, split back into exactly those lines |
| Text.ReprList | lib/classes/log/__init__.py:148 | the `repr` of the argument list never contains a line feed, so the ARGUMENTS field stays on its own line |
| PosixPath.Join | lib/classes/log/exec_info/__init__.py:47 | `os.path.join` of two components: an absolute second component replaces the first; otherwise one separator is inserted unless the first is empty or already ends in one. `JoinRelative` and `BasenameOfJoin` state what it yields |
| PosixPath.Dirname | lib/classes/log/exec_info/__init__.py:38 | `os.path.dirname`: everything up to the last separator, with trailing separators stripped unless the prefix is all separators. `JoinDirnameBasename` states when join rebuilds the path |
| PosixPath.Basename | lib/classes/log/exec_info/__init__.py:39 | the base name never contains a separator |
| PosixPath.Splitext | lib/classes/log/exec_info/__init__.py:39 | stem and extension concatenate back to the path; the extension is empty or a `.` followed by no separator |
| PosixPath.JoinRelative | lib/classes/log/exec_info/__init__.py:53 | joining a separator-free name gives the directory's prefix followed by the name |
| PosixPath.BasenameOfJoin | lib/classes/log/exec_info/__init__.py:53 | the base name of a directory joined with a separator-free name is that name |
| PosixPath.JoinDirnameBasename | lib/classes/log/exec_info/__init__.py:38 | for a canonical directory prefix, joining the path's directory and base name rebuilds the path |
| PosixPath.SplitextPy | lib/classes/log/exec_info/__init__.py:39 | `<stem>.py` splits into the stem and `.py` when the stem has a non-dot character |
| PosixPath.DoubledSepNotRebuilt | lib/classes/log/exec_info/__init__.py:38 | `a//b.py` is rebuilt as `a/b.py`, so the round trip needs a canonical directory prefix |
| PosixPath.DotsOnlyStemKept | lib/classes/log/exec_info/__init__.py:39 | `..py` keeps its whole name as stem, so the round trip needs a non-dot character in the stem |
| Timestamps.EpochMicros | lib/classes/log/exec_info/timestamps.py:30 | a UTC date-time as microseconds since 1970-01-01, so that `end - start` is a difference of two such counts |
| Timestamps.Stamp | lib/classes/log/exec_info/__init__.py:51 | `strftime('%Y%m%d%H%M%S')`: year padded to four digits, then month, day, hour, minute and second padded to two. `StampShape` and `StampFields` state its shape and fields |
| Timestamps.IsoFormat | lib/classes/log/__init__.py:143 | `isoformat()` of an aware UTC time: `YYYY-MM-DDTHH:MM:SS`, then `.ffffff` only when the microseconds are non-zero, then `+00:00` |
| Timestamps.ElapsedText | lib/classes/log/exec_info/timestamps.py:43 | `{m}m {s}s {ms}ms {µs}μs`; `ElapsedTextRoundTrip` proves it parses back |
| Timestamps.StampShape | lib/classes/log/exec_info/__init__.py:51 | the start stamp is exactly 14 decimal digits |
| Timestamps.StampFields | lib/classes/log/exec_info/__init__.py:51 | the stamp's slices read back as year, month, day, hour, minute and second |
| Timestamps.Decompose | lib/classes/log/exec_info/timestamps.py:29-41 | minutes are the floor of the duration in minutes; 0 <= seconds < 60, 0 <= ms < 1000, 0 <= µs < 1000; the four parts recompose to the total microseconds |
| Timestamps.DecomposeUnique | lib/classes/log/exec_info/timestamps.py:32-41 | any normalised split that recomposes to the total is the one computed |
| Timestamps.SplitElapsed | lib/classes/log/exec_info/timestamps.py:29-41 | the step-by-step accumulator computes that unique normalised split |
| Timestamps.ElapsedTextRoundTrip | lib/classes/log/exec_info/timestamps.py:43 | `{m}m {s}s {ms}ms {µs}μs` parses back into the four parts, so the text loses nothing |
| Timestamps.Timestamps.constructor | lib/classes/log/exec_info/timestamps.py:21-23 | the start time is the clock reading at construction; the end time is unset |
| Timestamps.Timestamps.GetElapsed | lib/classes/log/exec_info/timestamps.py:27-43 | the text is the elapsed-time text of the split between start and end |
| ExecInfo.LogDirectory | lib/classes/log/exec_info/__init__.py:46-49 | `<initial>/logs` when no final directory is set, otherwise the final directory; `LogDirectoryChoice` states it |
| ExecInfo.LogFileName | lib/classes/log/exec_info/__init__.py:51 | `<basename>_<stamp>.log`; `LogFileNameShape` states its parts |
| ExecInfo.LogFilePath | lib/classes/log/exec_info/__init__.py:44-53 | the log file name joined to the log directory; `LogFilePathSplits` and `FinalChangesOnlyDirectory` state its properties |
| ExecInfo.ModuleFilePath | lib/classes/log/exec_info/__init__.py:57-59 | `<stem>.py` joined to the initial directory; `ModulePathRoundTrip` states when it rebuilds the module path |
| ExecInfo.ModuleBasename | lib/classes/log/exec_info/__init__.py:39 | the module base name never contains a separator |
| ExecInfo.ArgumentsOf | lib/classes/log/exec_info/__init__.py:40 | the program name followed by the kept arguments is the whole argv; an empty argv keeps nothing |
| ExecInfo.LogFileNameShape | lib/classes/log/exec_info/__init__.py:51 | the file name is the base name, `_`, 14 digits of start stamp and `.log` |
| ExecInfo.LogFilePathSplits | lib/classes/log/exec_info/__init__.py:44-53 | the log path is the log directory's prefix followed by the file name, and its base name is the file name |
| ExecInfo.LogDirectoryChoice | lib/classes/log/exec_info/__init__.py:46-49 | without a final directory the log sits in `<initial>/logs`, otherwise directly in the final directory |
| ExecInfo.FinalChangesOnlyDirectory | lib/classes/log/exec_info/__init__.py:46-53 | changing `final` never changes the file name; with the same log directory the path is the same |
| ExecInfo.ModulePathRoundTrip | lib/classes/log/exec_info/__init__.py:38-59 | `_get_module_filepathname` after `set_info` rebuilds `<dir><stem>.py` for a canonical directory and a stem with a non-dot character |
| ExecInfo.ExecInfo.constructor | lib/classes/log/exec_info/__init__.py:24-30 | the dataclass defaults: nothing derived yet; the environment values as read |
| ExecInfo.ExecInfo.SetInfo | lib/classes/log/exec_info/__init__.py:34-40 | `initial` is the module's directory, the base name is its last component without the extension, the arguments drop argv[0], and `final` is untouched |
| ExecInfo.ExecInfo.GetFilepathname | lib/classes/log/exec_info/__init__.py:44-53 | `_get_filepathname` on the current state: the log path of `initial`, `final`, the base name and the start time |
| ExecInfo.ExecInfo.GetModuleFilepathname | lib/classes/log/exec_info/__init__.py:57-59 | `_get_module_filepathname` on the current state: the module path of `initial` and the base name |
| ExceptionMessage.Banner | lib/classes/log/exception_message.py:26-40 | the upper-cased title line, the optional DETAILS and SUGGESTIONS sections, and the trailer. The lemmas below state each part |
| ExceptionMessage.ExceptionMessageFormatted.constructor | lib/classes/log/exception_message.py:20-22 | title, details and suggestions start empty |
| ExceptionMessage.ExceptionMessageFormatted.Get | lib/classes/log/exception_message.py:26-40 | the successive appends produce the banner of the three fields; the fields are not modified |
| ExceptionMessage.BannerLayout | lib/classes/log/exception_message.py:28-38 | the banner is the title line, then the body; from the suggestions position on, the suggestions section and the trailer |
| ExceptionMessage.BannerStartsWithTitle | lib/classes/log/exception_message.py:28 | the banner starts with the upper-cased title and a line feed |
| ExceptionMessage.BannerEndsWithTrailer | lib/classes/log/exception_message.py:38 | the banner ends with `TRACING INFORMATION APPEARS BELOW:` |
| ExceptionMessage.DetailsSectionIff | lib/classes/log/exception_message.py:30-32 | a `DETAILS:` header follows the title line if and only if details are non-empty |
| ExceptionMessage.DetailsSectionContent | lib/classes/log/exception_message.py:30-32 | that section is exactly `DETAILS:\n<details>\n\n` |
| ExceptionMessage.SuggestionsSectionIff | lib/classes/log/exception_message.py:34-36 | after any DETAILS section, a `SUGGESTIONS:` header follows if and only if suggestions are non-empty |
| ExceptionMessage.SuggestionsSectionContent | lib/classes/log/exception_message.py:34-36 | that section is exactly `SUGGESTIONS:\n<suggestions>\n\n` |
| ExceptionMessage.TitleOnlyBanner | lib/classes/log/exception_message.py:28-38 | with only a title the banner is the upper-cased title, a line feed and the trailer, with no blank line |
| Routing.FilterFyi | lib/classes/log/__init__.py:227-233 | the FYI filter accepts NOTSET, DEBUG and INFO records and rejects WARNING, ERROR and CRITICAL ones |
| Routing.FilterAlert | lib/classes/log/__init__.py:237-245 | the ALERT filter accepts exactly the levels >= 30, which are exactly those the FYI filter rejects |
| Routing.Glyph | lib/classes/log/__init__.py:249-269 | a glyph is stamped (non-empty) if and only if the level name is one of the five standard names |
| Routing.GlyphTable | lib/classes/log/__init__.py:255-265 | DEBUG white circle, INFO black square, WARNING orange square, ERROR red square, CRITICAL two red squares; the first four are pairwise distinct |
| Routing.NonStandardLevelNoGlyph | lib/classes/log/__init__.py:266-267 | a level number outside the five standard ones gets the empty glyph |
| Routing.FilterAddCntxt | lib/classes/log/__init__.py:249-269 | the glyph filter accepts every record and sets its flag to the glyph of its level name, which is what `ApplyFilter(AddContextFilter, ..)` gives when routing runs the filter |
| Routing.SetupHandlers | lib/classes/log/__init__.py:331-369 | three handlers with a log file and two without; the last is always the stderr ALERT handler at WARNING |
| Routing.DeliveriesWithFile | lib/classes/log/__init__.py:341-369 | with a log file, handler by handler: the outputs of a record below DEBUG, below WARNING, and at or above WARNING, with their glyphs |
| Routing.DeliveriesWithoutFile | lib/classes/log/__init__.py:331-369 | without a log file, handler by handler: the outputs for each of the three level ranges, with no glyph |
| Routing.RoutingWithFile | lib/classes/log/__init__.py:341-369 | with a file, DEBUG..WARNING-1 reaches only the file FYI handler, WARNING and above exactly the file ALERT and stderr ALERT handlers, and below DEBUG nothing |
| Routing.RoutingWithoutFile | lib/classes/log/__init__.py:331-369 | without a file, DEBUG..WARNING-1 reaches only stderr FYI and WARNING and above only stderr ALERT |
| Routing.EveryRecordDelivered | lib/classes/log/__init__.py:277-369 | in both configurations every record at DEBUG or above reaches a handler, and ALERT records reach the stderr ALERT handler |
| Routing.DeliveredIff | lib/classes/log/__init__.py:331-369 | each configured handler emits a record if and only if the record meets DEBUG, the handler's level and its severity filter |
| Routing.GlyphOnlyInFile | lib/classes/log/__init__.py:291-318 | with a file, file output shows the record's glyph and goes to that file; stderr output shows none |
| Routing.NoGlyphWithoutFile | lib/classes/log/__init__.py:331-339 | without a file no output carries a glyph |
| LogSession.HeaderLines | lib/classes/log/__init__.py:141-150 | the nine header lines in the source's order: `BEGIN LOGGING...`, START, USER, OPERATING SYSTEM, `PYTHON VERSION::`, ROOT, ARGUMENTS as a list `repr`, LOG, and the STARTING rule |
| LogSession.Header | lib/classes/log/__init__.py:139-151 | those lines joined by line feeds with no final one; `HeaderShape` states its edges and its split |
| LogSession.HeaderShape | lib/classes/log/__init__.py:139-151 | the header starts with `BEGIN LOGGING...`, ends with the STARTING rule, and when its fields have no line feeds splits into its nine lines in fixed order |
| LogSession.FinalNote | lib/classes/log/__init__.py:198-201 | "*** Final log directory not specified. ***" without a final directory, "Log copied to specified directory." with one |
| LogSession.FooterLines | lib/classes/log/__init__.py:194-210 | the eight footer lines in order: ENDING rule, note, blank, LOG, blank, END, START, ELAPSED |
| LogSession.Footer | lib/classes/log/__init__.py:194-210 | the footer grouped as `_get_footer`'s three appends; `FooterIsJoinedLines` proves it is the eight lines joined |
| LogSession.FooterNoteAt | lib/classes/log/__init__.py:194-201 | for any field contents, right after the ENDING rule comes the not-specified note exactly when `final` is unset, and the copied note exactly when it is set |
| LogSession.FooterEdges | lib/classes/log/__init__.py:194-209 | the footer starts with the ENDING rule and a line feed and ends with the ELAPSED line |
| LogSession.FooterLinesOf | lib/classes/log/__init__.py:194-209 | the footer splits into its eight lines; the note is "*** Final log directory not specified. ***" if and only if `final` is unset, and "Log copied to specified directory." if and only if it is set; the fourth line is the LOG line |
| LogSession.FooterJoin | lib/classes/log/__init__.py:194-210 | eight lines joined by line feeds, the third and fifth empty, equal the grouping of `_get_footer`'s three appends |
| LogSession.FooterIsJoinedLines | lib/classes/log/__init__.py:192-212 | the footer built by appends is exactly its eight lines joined by line feeds |
| LogSession.CopyLandsAtFooterPath | lib/classes/log/__init__.py:184-188 | copying the path taken before `final` was set into the final directory lands at the path the footer's LOG line names |
| LogSession.SetupMessagesRouting | lib/classes/log/__init__.py:118-135 | the header (INFO) reaches only the log file; the created-directory warning reaches the log file and stderr |
| LogSession.LogsDirectoryCreatedMessage | lib/classes/log/__init__.py:119-126 | the banner titled LOGS DIRECTORY CREATED, with the three-sentence details naming both directories |
| LogSession.SetupEvents | lib/classes/log/__init__.py:111-128 | the trace of `__post_init__`: when the logs directory is missing, its `mkdir`, then the header at INFO, then the warning; otherwise the header alone |
| LogSession.Log.constructor | lib/classes/log/__init__.py:102-128 | after construction: the run information is read, the module path is split, and the handlers are those for the initial log path. The trace is exactly `SetupEvents`, so the `mkdir` comes before the header and the warning after it |
| LogSession.Log.PostInit | lib/classes/log/__init__.py:111-128 | the same, from the split module path on |
| LogSession.Log.GetHeader | lib/classes/log/__init__.py:139-151 | `_get_header` on the current state: the header of the start time, the environment values, the module path, the arguments and the current log path |
| LogSession.Log.Initialize | lib/classes/log/__init__.py:132-135 | the file handlers for the current log path are added, then the header is logged at INFO as the one new event |
| LogSession.Log.Setup | lib/classes/log/__init__.py:277-369 | the root logger gains the handlers for the given log file, or the stderr-only handlers; the trace is unchanged |
| LogSession.Log.LogAt | lib/classes/log/__init__.py:155-173 | a message at a level, routed by the current handlers, is appended to the trace and nothing else changes |
| LogSession.Log.Debug | lib/classes/log/__init__.py:155-157 | the message is routed at DEBUG |
| LogSession.Log.Info | lib/classes/log/__init__.py:159-161 | the message is routed at INFO |
| LogSession.Log.Warning | lib/classes/log/__init__.py:163-165 | the message is routed at WARNING |
| LogSession.Log.Error | lib/classes/log/__init__.py:167-169 | the message is routed at ERROR |
| LogSession.Log.Critical | lib/classes/log/__init__.py:171-173 | the message is routed at CRITICAL |
| LogSession.Log.GetFooter | lib/classes/log/__init__.py:192-212 | the footer for the current `final`, log path, end, start and elapsed time |
| LogSession.Log.Close | lib/classes/log/__init__.py:183-185 | `end` is set, the log path is taken with the old `final`, then `final` is set, so the path now names the new directory; nothing else in the run information changes |
| LogSession.Log.LogFooter | lib/classes/log/__init__.py:186 | the footer of the current state, routed at INFO, is the one new event, and the handlers are unchanged |
| LogSession.Log.Terminate | lib/classes/log/__init__.py:177-188 | `end` and `final` are set; the footer, which uses the path after `final` is set, is logged first; a copy is requested after it exactly when a directory is given (`''` included), from the path taken before `final` changed; start, directory, base name, arguments and handlers are unchanged |

## Left out

- Python `logging` internals are not modelled: the `Formatter` templates, the date format, `StreamHandler`/`FileHandler` I/O, thread and process names, and the `lastResort` handler. A delivery records the handler, its sink and the record's glyph. `Routing.RenderedGlyph` keeps the one fact taken from the templates: only the file templates show the glyph.
- The root logger is process-global in the source. The model gives it to the session and assumes it starts with no handlers. A second `setup` appends duplicate handlers, as `LogSession.Log.Setup` states, but the lemmas of `Routing` describe a single `setup`.
- Filesystem effects are not performed. `os.path.exists` is a constructor parameter. `os.mkdir` and `shutil.copy` are recorded as events of the trace, in the order the session performs them. Whether the copy target is an existing directory, and the error `shutil.copy` raises for `''`, are not modelled.
- Environment reads (`getpass.getuser`, `platform.uname`, `platform.python_version`, `sys.argv`, `datetime.now`) are parameters. The operating-system field is taken as its rendered string.
- `os.path` is modelled with POSIX rules only. Windows paths (drive letters, `\`) are not modelled.
- Timestamps.SplitElapsed: works on exact integer microseconds. The source's float `total_seconds()` and `int()` truncation can be one microsecond off, which is not captured.
- Text.Upper: upper-cases ASCII letters only; Unicode case mapping (`ß` to `SS`, for example) is not modelled.
- Text.ReprList: escapes quotes, backslashes, tab, line feed, carriage return and the ASCII control characters. The `\x`, `\u` and `\U` escapes that Python's `repr` uses for non-printable non-ASCII characters are not modelled.
- Timestamps.Stamp: zero-pads the year to four digits, so years before 1000 follow the C library convention, which some platforms do not.
- ExecInfo.ModulePathRoundTrip: holds only for a canonical directory prefix and a stem with a character other than `.`, because `os.path` normalises doubled separators and keeps a dots-only name whole.
- lib/classes/log/variable_value_message.py is not part of this model: its output is Python's `type()` repr, `str()` and `pprint`.
- lib/classes/log/exec_info/directories.py is folded into `ExecInfo.ExecInfo` as the fields `initial` and `final`.
- `log.exception`, used in the usage text, is not modelled: the class does not define it.
- test.py, lib/__init__.py and lib/classes/__init__.py are not part of this model (a demonstration script and docstrings only).
