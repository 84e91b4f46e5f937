/**
  The part of Python's `os.path` (POSIX flavour, `posixpath`) that the log
  path bookkeeping relies on: `join` of two components, `dirname`,
  `basename` and `splitext`, with separator `/` and extension separator `.`.
*/
module PosixPath {

  const Sep: char := '/'
  const ExtSep: char := '.'

  /** Index of the last occurrence of `c` in `s`, or -1 (Python's `str.rfind`). */
  function RFind(s: string, c: char): (i: int)
    ensures -1 <= i < |s|
    ensures i >= 0 ==> s[i] == c
    ensures forall j :: i < j < |s| ==> s[j] != c
  {
    if s == [] then -1
    else if s[|s| - 1] == c then |s| - 1
    else RFind(s[..|s| - 1], c)
  }

  predicate AllSeps(s: string) {
    forall i :: 0 <= i < |s| ==> s[i] == Sep
  }

  /** `s.rstrip('/')`. */
  function RStripSeps(s: string): (r: string)
    ensures r <= s && AllSeps(s[|r|..])
    ensures r == [] || r[|r| - 1] != Sep
  {
    if s != [] && s[|s| - 1] == Sep then RStripSeps(s[..|s| - 1]) else s
  }

  /**
    `os.path.join(a, b)`: an absolute `b` replaces `a`; otherwise a separator
    is put between them unless `a` is empty or already ends with one.
  */
  function Join(a: string, b: string): string {
    if b != [] && b[0] == Sep then b
    else if a == [] || a[|a| - 1] == Sep then a + b
    else a + [Sep] + b
  }

  /** What `Join` puts in front of a relative component. */
  function DirPrefix(a: string): string {
    if a == [] || a[|a| - 1] == Sep then a else a + [Sep]
  }

  /** `os.path.basename(p)`: everything after the last separator. */
  function Basename(p: string): (b: string)
    ensures Sep !in b
  {
    p[RFind(p, Sep) + 1..]
  }

  /**
    `os.path.dirname(p)`: everything up to the last separator, with trailing
    separators removed unless it consists of separators only.
  */
  function Dirname(p: string): string {
    var head := p[..RFind(p, Sep) + 1];
    if head != [] && !AllSeps(head) then RStripSeps(head) else head
  }

  predicate HasNonDot(s: string) {
    exists k :: 0 <= k < |s| && s[k] != ExtSep
  }

  /**
    `os.path.splitext(p)`: the extension starts at the last dot after the last
    separator, unless only dots precede it in the last component (a leading
    dot names a hidden file, not an extension).
  */
  function Splitext(p: string): (r: (string, string))
    ensures r.0 + r.1 == p
    ensures r.1 == [] || (r.1[0] == ExtSep && Sep !in r.1)
  {
    var sepIndex := RFind(p, Sep);
    var dotIndex := RFind(p, ExtSep);
    if dotIndex > sepIndex && HasNonDot(p[sepIndex + 1..dotIndex]) then
      (p[..dotIndex], p[dotIndex..])
    else
      (p, [])
  }

  /** A relative component without separators is appended after `DirPrefix`. */
  lemma JoinRelative(a: string, b: string)
    requires Sep !in b
    ensures Join(a, b) == DirPrefix(a) + b
  {
  }

  /** `basename` and the separator search see only the component after `DirPrefix`. */
  lemma {:induction false} RFindAfterSep(prefix: string, name: string)
    requires Sep !in name
    requires prefix == [] || prefix[|prefix| - 1] == Sep
    ensures RFind(prefix + name, Sep) == |prefix| - 1
  {
    var s := prefix + name;
    assert prefix != [] ==> s[|prefix| - 1] == Sep;
    assert forall j :: |prefix| <= j < |s| ==> s[j] == name[j - |prefix|];
  }

  /** The base name of a joined path is the component that was joined. */
  lemma BasenameOfJoin(a: string, b: string)
    requires Sep !in b
    ensures Basename(Join(a, b)) == b
  {
    JoinRelative(a, b);
    RFindAfterSep(DirPrefix(a), b);
    assert (DirPrefix(a) + b)[|DirPrefix(a)|..] == b;
  }

  /**
    A directory prefix that `dirname` followed by `join` reproduces: empty,
    separators only, or ending in exactly one separator.
  */
  predicate CanonicalDir(dir: string) {
    dir == [] || AllSeps(dir) || (|dir| >= 2 && dir[|dir| - 1] == Sep && dir[|dir| - 2] != Sep)
  }

  /** `join(dirname(p), basename(p)) == p` for a path whose directory prefix is canonical. */
  lemma JoinDirnameBasename(dir: string, name: string)
    requires CanonicalDir(dir) && Sep !in name
    ensures Basename(dir + name) == name
    ensures Join(Dirname(dir + name), name) == dir + name
  {
    var p := dir + name;
    RFindAfterSep(dir, name);
    assert p[..|dir|] == dir;
    assert p[|dir|..] == name;
    if dir != [] && !AllSeps(dir) {
      assert RStripSeps(dir) == dir[..|dir| - 1] by {
        assert RStripSeps(dir) == RStripSeps(dir[..|dir| - 1]);
      }
      assert Dirname(p) == dir[..|dir| - 1];
      assert dir[..|dir| - 1] + [Sep] == dir;
    }
  }

  /** `splitext` of `<stem>.py` gives back `<stem>` when the stem has a character other than a dot. */
  lemma SplitextPy(stem: string)
    requires Sep !in stem && HasNonDot(stem)
    ensures Splitext(stem + ".py") == (stem, ".py")
  {
    var p := stem + ".py";
    assert RFind(p, Sep) == -1;
    assert RFind(p, ExtSep) == |stem| by {
      assert p[|stem|] == ExtSep;
      assert p[|stem| + 1] == 'p' && p[|stem| + 2] == 'y';
    }
    assert p[0..|stem|] == stem;
  }

  /** A doubled separator before the last component is not reproduced by `dirname` and `join`. */
  lemma DoubledSepNotRebuilt()
    ensures Join(Dirname("a//b.py"), Basename("a//b.py")) == "a/b.py"
  {
    var p := "a//b.py";
    assert p[2] == Sep && p[3] != Sep && p[4] != Sep && p[5] != Sep && p[6] != Sep;
    assert RFind(p, Sep) == 2;
    assert p[..3] == "a//";
    assert RStripSeps("a//") == "a";
    assert Dirname(p) == "a";
    assert Basename(p) == p[3..] == "b.py";
  }

  /** A stem of dots only is not split off: `splitext('..py')` keeps the whole name. */
  lemma DotsOnlyStemKept()
    ensures Splitext("..py") == ("..py", "")
  {
    assert RFind("..py", ExtSep) == 1;
    assert !HasNonDot("..py"[0..1]);
  }
}
