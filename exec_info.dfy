/**
  Run information of one logging session (lib/classes/log/exec_info/__init__.py,
  with the two directories of lib/classes/log/exec_info/directories.py folded
  in): where the calling module lives, its base name and arguments, and the
  derivation of the log file's path from them and the start time.
*/
module ExecInfo {
  import opened Wrappers
  import opened Text
  import opened PosixPath
  import opened Timestamps

  /** The log directory: `<initial>/logs` until a final directory is set, then that directory. */
  function LogDirectory(initial: string, final: Option<string>): string {
    if final.None? then Join(initial, "logs") else final.value
  }

  /** `<basename>_<YYYYMMDDHHMMSS>.log`. */
  function LogFileName(basename: string, start: DateTime): string
    requires start.Valid()
  {
    basename + "_" + Stamp(start) + ".log"
  }

  /** `_get_filepathname`: the log file in the log directory. */
  function LogFilePath(initial: string, final: Option<string>, basename: string, start: DateTime): string
    requires start.Valid()
  {
    Join(LogDirectory(initial, final), LogFileName(basename, start))
  }

  /** `_get_module_filepathname`: the calling module's `.py` file in the initial directory. */
  function ModuleFilePath(initial: string, basename: string): string {
    Join(initial, basename + ".py")
  }

  /** The base name `set_info` derives: last component without its final extension. */
  function ModuleBasename(moduleFilepathname: string): (b: string)
    ensures Sep !in b
  {
    Splitext(Basename(moduleFilepathname)).0
  }

  /** `sys.argv[1:]`. */
  function ArgumentsOf(argv: seq<string>): (args: seq<string>)
    ensures |argv| > 0 ==> argv == [argv[0]] + args
    ensures |argv| == 0 ==> args == []
  {
    if argv == [] then [] else argv[1..]
  }

  /**
    The file name is the base name, an underscore, the fourteen-digit start
    stamp and `.log`.
  */
  lemma LogFileNameShape(basename: string, start: DateTime)
    requires start.Valid()
    ensures var name := LogFileName(basename, start);
      && |name| == |basename| + 19
      && name[..|basename|] == basename
      && name[|basename|] == '_'
      && name[|basename| + 1..|basename| + 15] == Stamp(start)
      && AllDigits(name[|basename| + 1..|basename| + 15])
      && name[|basename| + 15..] == ".log"
  {
    StampFields(start);
  }

  /**
    The log path is the log directory's prefix followed by the file name,
    and its base name is that file name.
  */
  lemma LogFilePathSplits(initial: string, final: Option<string>, basename: string, start: DateTime)
    requires start.Valid() && Sep !in basename
    ensures var path := LogFilePath(initial, final, basename, start);
      && path == DirPrefix(LogDirectory(initial, final)) + LogFileName(basename, start)
      && Basename(path) == LogFileName(basename, start)
  {
    var name := LogFileName(basename, start);
    assert Sep !in name by {
      StampFields(start);
      assert forall i :: 0 <= i < |name| ==> name[i] != Sep by {
        forall i | 0 <= i < |name| ensures name[i] != Sep {
          if |basename| + 1 <= i < |basename| + 15 {
            assert name[i] == Stamp(start)[i - |basename| - 1];
          }
        }
      }
    }
    JoinRelative(LogDirectory(initial, final), name);
    BasenameOfJoin(LogDirectory(initial, final), name);
  }

  /** Without a final directory the log sits in `<initial>/logs`; with one, directly in it. */
  lemma LogDirectoryChoice(initial: string, final: Option<string>, basename: string, start: DateTime)
    requires start.Valid() && Sep !in basename
    ensures final.None? ==>
      LogFilePath(initial, final, basename, start) == DirPrefix(Join(initial, "logs")) + LogFileName(basename, start)
    ensures final.Some? ==>
      LogFilePath(initial, final, basename, start) == DirPrefix(final.value) + LogFileName(basename, start)
  {
    LogFilePathSplits(initial, final, basename, start);
  }

  /** Setting the final directory changes only the directory part of the log path. */
  lemma FinalChangesOnlyDirectory(initial: string, f1: Option<string>, f2: Option<string>,
                                  basename: string, start: DateTime)
    requires start.Valid() && Sep !in basename
    ensures Basename(LogFilePath(initial, f1, basename, start))
         == Basename(LogFilePath(initial, f2, basename, start))
    ensures LogDirectory(initial, f1) == LogDirectory(initial, f2) ==>
            LogFilePath(initial, f1, basename, start) == LogFilePath(initial, f2, basename, start)
  {
    LogFilePathSplits(initial, f1, basename, start);
    LogFilePathSplits(initial, f2, basename, start);
  }

  /**
    Round trip of `set_info` and `_get_module_filepathname`: for a module file
    `<dir><stem>.py` whose stem has a character other than a dot and whose
    directory prefix is canonical, the module path is rebuilt exactly.
  */
  lemma {:induction false} ModulePathRoundTrip(dir: string, stem: string)
    requires CanonicalDir(dir) && Sep !in stem && HasNonDot(stem)
    ensures var p := dir + stem + ".py";
      ModuleFilePath(Dirname(p), ModuleBasename(p)) == p
  {
    var name := stem + ".py";
    var p := dir + stem + ".py";
    assert p == dir + name;
    PyNameNoSep(stem);
    JoinDirnameBasename(dir, name);
    SplitextPy(stem);
  }

  lemma PyNameNoSep(stem: string)
    requires Sep !in stem
    ensures Sep !in stem + ".py"
  {
    var name := stem + ".py";
    forall i | 0 <= i < |name| ensures name[i] != Sep {
      if i < |stem| { assert name[i] == stem[i]; }
    }
  }

  /** `_ExecInfo`: the run information a session keeps and updates. */
  class ExecInfo {
    var moduleBasename: Option<string>
    var arguments: seq<string>
    /** `_directories.initial`: the calling module's directory. */
    var initial: Option<string>
    /** `_directories.final`: the caller-chosen final log directory. */
    var final: Option<string>
    const user: string
    const system: string
    const pythonVersion: string
    const timestamps: Timestamps

    /**
      The dataclass defaults: nothing derived yet, and the environment read
      once (user, operating system, interpreter version, start time).
    */
    constructor (user: string, system: string, pythonVersion: string, now: DateTime)
      ensures moduleBasename == None && arguments == [] && initial == None && final == None
      ensures this.user == user && this.system == system && this.pythonVersion == pythonVersion
      ensures fresh(timestamps) && timestamps.start == now && timestamps.end == None
    {
      moduleBasename := None;
      arguments := [];
      initial := None;
      final := None;
      this.user := user;
      this.system := system;
      this.pythonVersion := pythonVersion;
      timestamps := new Timestamps(now);
    }

    /** Both fields `set_info` derives are present. */
    predicate Ready()
      reads this
    {
      initial.Some? && moduleBasename.Some?
    }

    /** `set_info`: splits the module path and keeps the process arguments after the program name. */
    method SetInfo(moduleFilepathname: string, argv: seq<string>)
      modifies this
      ensures initial == Some(Dirname(moduleFilepathname))
      ensures moduleBasename == Some(ModuleBasename(moduleFilepathname))
      ensures arguments == ArgumentsOf(argv)
      ensures final == old(final) && Ready()
    {
      moduleBasename := Some(ModuleBasename(moduleFilepathname));
      initial := Some(Dirname(moduleFilepathname));
      arguments := ArgumentsOf(argv);
    }

    /** `_get_filepathname` on the current state. */
    function GetFilepathname(): string
      reads this, timestamps
      requires Ready() && timestamps.start.Valid()
    {
      LogFilePath(initial.value, final, moduleBasename.value, timestamps.start)
    }

    /** `_get_module_filepathname` on the current state. */
    function GetModuleFilepathname(): string
      reads this
      requires Ready()
    {
      ModuleFilePath(initial.value, moduleBasename.value)
    }
  }
}
