/**
  Severity routing of `Log.setup` (lib/classes/log/__init__.py): the two
  complementary level filters, the glyph-stamping filter, the handler set
  with its thresholds, and which handlers a record reaches.

  Python's `logging` machinery is modelled only as far as routing needs it:
  the root logger's level check, each handler's level check, and the
  handler's filters run in order until one rejects the record.
*/
module Routing {
  import opened Wrappers
  import opened Text

  const NOTSET := 0
  const DEBUG := 10
  const INFO := 20
  const WARNING := 30
  const ERROR := 40
  const CRITICAL := 50

  /** `logging.getLevelName` of a level number: the name a record carries. */
  function LevelName(levelno: int): string {
    if levelno == CRITICAL then "CRITICAL"
    else if levelno == ERROR then "ERROR"
    else if levelno == WARNING then "WARNING"
    else if levelno == INFO then "INFO"
    else if levelno == DEBUG then "DEBUG"
    else if levelno == NOTSET then "NOTSET"
    else "Level " + IntToString(levelno)
  }

  /**
    `filter_fyi`: accepts records below the warning level, which among the
    standard levels are NOTSET, DEBUG and INFO.
  */
  function FilterFyi(levelno: int): (accept: bool)
    ensures levelno in {NOTSET, DEBUG, INFO} ==> accept
    ensures levelno in {WARNING, ERROR, CRITICAL} ==> !accept
  {
    levelno < WARNING
  }

  /** `filter_alert`: accepts exactly the records `filter_fyi` rejects. */
  function FilterAlert(levelno: int): (accept: bool)
    ensures accept == !FilterFyi(levelno)
    ensures accept <==> levelno >= WARNING
  {
    levelno >= WARNING
  }

  /**
    The context glyph `filter_add_cntxt` stamps for a level name: white
    circle, black square, orange square, red square, two red squares, and
    nothing for any other name.
  */
  function Glyph(levelname: string): (g: string)
    ensures g != "" <==> levelname in {"DEBUG", "INFO", "WARNING", "ERROR", "CRITICAL"}
  {
    if levelname == "DEBUG" then "\U{26AA}"
    else if levelname == "INFO" then "\U{2B1B}"
    else if levelname == "WARNING" then "\U{1F7E7}"
    else if levelname == "ERROR" then "\U{1F7E5}"
    else if levelname == "CRITICAL" then "\U{1F7E5}\U{1F7E5}"
    else ""
  }

  /**
    The glyphs of the five standard levels: DEBUG, INFO, WARNING and ERROR
    each get a different single glyph, and CRITICAL gets ERROR's twice.
  */
  lemma GlyphTable()
    ensures Glyph(LevelName(DEBUG)) == "\U{26AA}"
    ensures Glyph(LevelName(INFO)) == "\U{2B1B}"
    ensures Glyph(LevelName(WARNING)) == "\U{1F7E7}"
    ensures Glyph(LevelName(ERROR)) == "\U{1F7E5}"
    ensures Glyph(LevelName(CRITICAL)) == Glyph(LevelName(ERROR)) + Glyph(LevelName(ERROR))
    ensures forall a, b :: a in {DEBUG, INFO, WARNING, ERROR} && b in {DEBUG, INFO, WARNING, ERROR} && a != b
              ==> Glyph(LevelName(a)) != Glyph(LevelName(b))
  {
  }

  /** A level number other than the five standard ones gets no glyph. */
  lemma {:induction false} NonStandardLevelNoGlyph(levelno: int)
    requires levelno !in {DEBUG, INFO, WARNING, ERROR, CRITICAL}
    ensures Glyph(LevelName(levelno)) == ""
  {
    if levelno != NOTSET {
      var name := LevelName(levelno);
      assert name[..6] == "Level ";
      assert name[0] == 'L';
    }
  }

  /** The record attributes the filters look at and change. */
  class LogRecord {
    const levelno: int
    const levelname: string
    var cntxtFlag: Option<string>

    constructor (levelno: int)
      ensures this.levelno == levelno && levelname == LevelName(levelno) && cntxtFlag == None
    {
      this.levelno := levelno;
      levelname := LevelName(levelno);
      cntxtFlag := None;
    }
  }

  /**
    `filter_add_cntxt`: stamps the record's glyph and accepts every record;
    routing below sees the same filter as `ApplyFilter(AddContextFilter, ..)`.
  */
  method FilterAddCntxt(record: LogRecord) returns (accept: bool)
    modifies record
    ensures accept
    ensures record.cntxtFlag == Some(Glyph(record.levelname))
    ensures (accept, record.cntxtFlag)
            == ApplyFilter(AddContextFilter, Record(record.levelno, record.levelname), old(record.cntxtFlag))
  {
    record.cntxtFlag := Some(Glyph(record.levelname));
    accept := true;
  }

  datatype Filter = FyiFilter | AlertFilter | AddContextFilter
  datatype Sink = Stderr | LogFile(path: string)
  datatype HandlerName = StderrFyi | StderrAlert | FileFyi | FileAlert

  /** A handler: where it writes, its level threshold and its filters in the order they were added. */
  datatype Handler = Handler(name: HandlerName, sink: Sink, level: int, filters: seq<Filter>)

  /** The record as routing sees it: its level number and level name. */
  datatype Record = Record(levelno: int, levelname: string)

  /** One handler's output: which handler, where, and the record's glyph when it was formatted. */
  datatype Delivery = Delivery(name: HandlerName, sink: Sink, flag: Option<string>)

  /**
    The handlers `setup` adds: with a log file, a file handler for FYI and one
    for ALERT records, both stamping glyphs; without one, a stderr handler for
    FYI records; and in both cases a stderr handler for ALERT records.
  */
  function SetupHandlers(filepathname: Option<string>): (hs: seq<Handler>)
    ensures |hs| == (if filepathname.None? then 2 else 3)
    ensures hs[|hs| - 1] == Handler(StderrAlert, Stderr, WARNING, [AlertFilter])
  {
    (if filepathname.None? then
       [Handler(StderrFyi, Stderr, DEBUG, [FyiFilter])]
     else
       [Handler(FileFyi, LogFile(filepathname.value), DEBUG, [FyiFilter, AddContextFilter]),
        Handler(FileAlert, LogFile(filepathname.value), WARNING, [AlertFilter, AddContextFilter])])
    + [Handler(StderrAlert, Stderr, WARNING, [AlertFilter])]
  }

  /** One filter applied to the record: whether it accepts, and the record's glyph afterwards. */
  function ApplyFilter(f: Filter, rec: Record, flag: Option<string>): (bool, Option<string>) {
    match f
    case FyiFilter => (FilterFyi(rec.levelno), flag)
    case AlertFilter => (FilterAlert(rec.levelno), flag)
    case AddContextFilter => (true, Some(Glyph(rec.levelname)))
  }

  /** A handler's filters in order; the first one that rejects ends the run. */
  function RunFilters(filters: seq<Filter>, rec: Record, flag: Option<string>): (bool, Option<string>) {
    if filters == [] then (true, flag)
    else
      var (ok, flag') := ApplyFilter(filters[0], rec, flag);
      if ok then RunFilters(filters[1..], rec, flag') else (false, flag')
  }

  /**
    The logger hands the record to each handler in turn; a handler whose
    level the record meets runs its filters and, if they accept, emits it.
    The glyph a filter stamps stays on the record for the later handlers.
  */
  function Dispatch(hs: seq<Handler>, rec: Record, flag: Option<string>): seq<Delivery> {
    if hs == [] then []
    else
      var h := hs[0];
      if rec.levelno >= h.level then
        var (ok, flag') := RunFilters(h.filters, rec, flag);
        (if ok then [Delivery(h.name, h.sink, flag')] else []) + Dispatch(hs[1..], rec, flag')
      else
        Dispatch(hs[1..], rec, flag)
  }

  /** The root logger is set to DEBUG: records below it never reach a handler. */
  predicate LoggerEnabled(levelno: int) {
    levelno >= DEBUG
  }

  function Deliveries(hs: seq<Handler>, rec: Record): seq<Delivery> {
    if LoggerEnabled(rec.levelno) then Dispatch(hs, rec, None) else []
  }

  function Destinations(hs: seq<Handler>, rec: Record): set<HandlerName> {
    set d | d in Deliveries(hs, rec) :: d.name
  }

  /** The glyph as rendered: only the file templates show the record's glyph. */
  function RenderedGlyph(d: Delivery): Option<string> {
    if d.sink.LogFile? then d.flag else None
  }

  /** The deliveries of the file configuration, handler by handler. */
  lemma {:induction false} DeliveriesWithFile(path: string, rec: Record)
    ensures var g := Some(Glyph(rec.levelname));
      Deliveries(SetupHandlers(Some(path)), rec) ==
        if rec.levelno < DEBUG then []
        else if rec.levelno < WARNING then [Delivery(FileFyi, LogFile(path), g)]
        else [Delivery(FileAlert, LogFile(path), g), Delivery(StderrAlert, Stderr, g)]
  {
    var hs := SetupHandlers(Some(path));
    var g := Some(Glyph(rec.levelname));
    var alert := Handler(StderrAlert, Stderr, WARNING, [AlertFilter]);
    var fileAlert := Handler(FileAlert, LogFile(path), WARNING, [AlertFilter, AddContextFilter]);
    assert hs[1..] == [fileAlert, alert];
    assert hs[1..][1..] == [alert];
    assert hs[1..][1..][1..] == [];
    assert [FyiFilter, AddContextFilter][1..] == [AddContextFilter];
    assert [AlertFilter, AddContextFilter][1..] == [AddContextFilter];
    assert [AddContextFilter][1..] == [] && [AlertFilter][1..] == [];
    if DEBUG <= rec.levelno < WARNING {
      assert RunFilters([AddContextFilter], rec, None) == (true, g);
      assert RunFilters([FyiFilter, AddContextFilter], rec, None) == (true, g);
      assert Dispatch([alert], rec, g) == [];
      assert Dispatch(hs[1..], rec, g) == [];
    } else if rec.levelno >= WARNING {
      assert RunFilters([FyiFilter, AddContextFilter], rec, None) == (false, None);
      assert RunFilters([AddContextFilter], rec, None) == (true, g);
      assert RunFilters([AlertFilter, AddContextFilter], rec, None) == (true, g);
      assert RunFilters([AlertFilter], rec, g) == (true, g);
      assert Dispatch([alert], rec, g) == [Delivery(StderrAlert, Stderr, g)];
      assert Dispatch(hs[1..], rec, None) == [Delivery(FileAlert, LogFile(path), g), Delivery(StderrAlert, Stderr, g)];
    }
  }

  /** The deliveries of the stderr-only configuration, handler by handler. */
  lemma {:induction false} DeliveriesWithoutFile(rec: Record)
    ensures Deliveries(SetupHandlers(None), rec) ==
      if rec.levelno < DEBUG then []
      else if rec.levelno < WARNING then [Delivery(StderrFyi, Stderr, None)]
      else [Delivery(StderrAlert, Stderr, None)]
  {
    var hs := SetupHandlers(None);
    var alert := Handler(StderrAlert, Stderr, WARNING, [AlertFilter]);
    assert hs[1..] == [alert];
    assert hs[1..][1..] == [];
    assert [FyiFilter][1..] == [] && [AlertFilter][1..] == [];
    if DEBUG <= rec.levelno < WARNING {
      assert RunFilters([FyiFilter], rec, None) == (true, None);
      assert Dispatch(hs[1..], rec, None) == [];
    } else if rec.levelno >= WARNING {
      assert RunFilters([FyiFilter], rec, None) == (false, None);
      assert RunFilters([AlertFilter], rec, None) == (true, None);
      assert Dispatch([alert], rec, None) == [Delivery(StderrAlert, Stderr, None)];
    }
  }

  /**
    With a log file: a record from DEBUG up to below WARNING reaches only the
    file FYI handler; a record at WARNING or above reaches exactly the file
    ALERT and the stderr ALERT handlers; a record below DEBUG reaches none.
  */
  lemma RoutingWithFile(path: string, rec: Record)
    ensures var dest := Destinations(SetupHandlers(Some(path)), rec);
      && (rec.levelno < DEBUG ==> dest == {})
      && (DEBUG <= rec.levelno < WARNING ==> dest == {FileFyi})
      && (rec.levelno >= WARNING ==> dest == {FileAlert, StderrAlert})
  {
    DeliveriesWithFile(path, rec);
  }

  /**
    Without a log file: a record from DEBUG up to below WARNING reaches only
    the stderr FYI handler, and a record at WARNING or above only the stderr
    ALERT handler.
  */
  lemma RoutingWithoutFile(rec: Record)
    ensures var dest := Destinations(SetupHandlers(None), rec);
      && (rec.levelno < DEBUG ==> dest == {})
      && (DEBUG <= rec.levelno < WARNING ==> dest == {StderrFyi})
      && (rec.levelno >= WARNING ==> dest == {StderrAlert})
  {
    DeliveriesWithoutFile(rec);
  }

  /**
    In both configurations every record at DEBUG or above reaches some
    handler, and every ALERT record reaches the stderr ALERT handler.
  */
  lemma EveryRecordDelivered(filepathname: Option<string>, rec: Record)
    requires rec.levelno >= DEBUG
    ensures Destinations(SetupHandlers(filepathname), rec) != {}
    ensures FilterAlert(rec.levelno) ==> StderrAlert in Destinations(SetupHandlers(filepathname), rec)
  {
    if filepathname.Some? {
      RoutingWithFile(filepathname.value, rec);
    } else {
      RoutingWithoutFile(rec);
    }
  }

  /**
    A handler of either configuration emits a record exactly when the record
    meets the logger's and the handler's level and the handler's severity
    filter accepts it.
  */
  lemma DeliveredIff(filepathname: Option<string>, rec: Record, i: nat)
    requires i < |SetupHandlers(filepathname)|
    ensures var h := SetupHandlers(filepathname)[i];
      h.name in Destinations(SetupHandlers(filepathname), rec)
      <==> LoggerEnabled(rec.levelno) && rec.levelno >= h.level && ApplyFilter(h.filters[0], rec, None).0
  {
    if filepathname.Some? {
      RoutingWithFile(filepathname.value, rec);
    } else {
      RoutingWithoutFile(rec);
    }
  }

  /**
    With a log file, what the file handlers write carries the glyph of the
    record's level name, and what goes to stderr carries none.
  */
  lemma GlyphOnlyInFile(path: string, rec: Record)
    ensures forall d :: d in Deliveries(SetupHandlers(Some(path)), rec) ==>
      if d.sink.LogFile? then d.sink == LogFile(path) && RenderedGlyph(d) == Some(Glyph(rec.levelname))
      else RenderedGlyph(d) == None
  {
    DeliveriesWithFile(path, rec);
  }

  /** Without a log file no handler stamps a glyph. */
  lemma NoGlyphWithoutFile(rec: Record)
    ensures forall d :: d in Deliveries(SetupHandlers(None), rec) ==> d.flag == None
  {
    DeliveriesWithoutFile(rec);
  }
}
