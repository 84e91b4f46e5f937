/**
  Character-level helpers used by the banners, the path functions and the
  timestamp renderings: decimal rendering of integers (Python's format spec
  `d`), zero padding (`strftime`'s two- and four-digit fields), ASCII upper
  case, splitting and joining on line feeds, and Python's `repr` of a list
  of strings.
*/
module Text {
  import opened Wrappers

  predicate IsDigit(c: char) {
    '0' <= c <= '9'
  }

  predicate AllDigits(s: string) {
    forall i :: 0 <= i < |s| ==> IsDigit(s[i])
  }

  function DigitChar(d: nat): (c: char)
    requires d < 10
    ensures IsDigit(c) && c as int - '0' as int == d
  {
    ('0' as int + d) as char
  }

  function DigitValue(c: char): (d: nat)
    requires IsDigit(c)
    ensures d < 10 && DigitChar(d) == c
  {
    c as int - '0' as int
  }

  /** The value of a string of decimal digits, most significant first. */
  function DigitsValue(s: string): nat
    requires AllDigits(s)
  {
    if s == [] then 0 else DigitsValue(s[..|s| - 1]) * 10 + DigitValue(s[|s| - 1])
  }

  function Pow10(n: nat): (p: nat)
    ensures p >= 1
  {
    if n == 0 then 1 else 10 * Pow10(n - 1)
  }

  /** Decimal rendering of a natural number, without leading zeros. */
  function NatToString(n: nat): (s: string)
    ensures |s| > 0 && AllDigits(s)
    ensures s[0] == '0' ==> n == 0
  {
    if n < 10 then [DigitChar(n)] else NatToString(n / 10) + [DigitChar(n % 10)]
  }

  /** Decimal rendering of an integer, as Python's `f'{n:d}'`. */
  function IntToString(n: int): (s: string)
    ensures |s| > 0 && (s[0] == '-' <==> n < 0)
  {
    if n < 0 then "-" + NatToString(-n) else NatToString(n)
  }

  /** The decimal rendering of `n` reads back as `n`. */
  lemma {:induction false} NatToStringValue(n: nat)
    ensures DigitsValue(NatToString(n)) == n
  {
    if n >= 10 {
      NatToStringValue(n / 10);
      var s := NatToString(n);
      assert s[..|s| - 1] == NatToString(n / 10);
    }
  }

  /**
    The last `width` decimal digits of `n`, padded with zeros on the left:
    `strftime`'s `%m`, `%d`, `%H`, `%M`, `%S` (width 2) and `%Y` (width 4).
  */
  function ZeroPad(n: nat, width: nat): (s: string)
    ensures |s| == width && AllDigits(s)
  {
    if width == 0 then [] else ZeroPad(n / 10, width - 1) + [DigitChar(n % 10)]
  }

  /** A value that fits in `width` digits reads back from its padded rendering. */
  lemma {:induction false} ZeroPadValue(n: nat, width: nat)
    requires n < Pow10(width)
    ensures DigitsValue(ZeroPad(n, width)) == n
  {
    if width > 0 {
      assert n / 10 < Pow10(width - 1);
      ZeroPadValue(n / 10, width - 1);
      var s := ZeroPad(n, width);
      assert s[..|s| - 1] == ZeroPad(n / 10, width - 1);
    }
  }

  /** Splits `s` into its longest all-digit prefix and the rest. */
  function SpanDigits(s: string): (r: (string, string))
    ensures r.0 + r.1 == s && AllDigits(r.0)
    ensures r.1 == [] || !IsDigit(r.1[0])
  {
    if s != [] && IsDigit(s[0]) then
      var (d, rest) := SpanDigits(s[1..]);
      ([s[0]] + d, rest)
    else
      ([], s)
  }

  lemma {:induction false} SpanDigitsOf(digits: string, rest: string)
    requires AllDigits(digits)
    requires rest == [] || !IsDigit(rest[0])
    ensures SpanDigits(digits + rest) == (digits, rest)
  {
    var s := digits + rest;
    if digits == [] {
      assert s == rest;
    } else {
      SpanDigitsOf(digits[1..], rest);
      assert s[1..] == digits[1..] + rest;
      assert s != [] && IsDigit(s[0]);
      assert SpanDigits(s) == ([s[0]] + digits[1..], rest);
      assert [digits[0]] + digits[1..] == digits;
    }
  }

  /** Reads an optionally negative decimal integer from the front of `s`. */
  function ParseInt(s: string): Option<(int, string)> {
    if s != [] && s[0] == '-' then
      var (d, rest) := SpanDigits(s[1..]);
      if d == [] then None else Some((-(DigitsValue(d) as int), rest))
    else
      var (d, rest) := SpanDigits(s);
      if d == [] then None else Some((DigitsValue(d), rest))
  }

  lemma {:induction false} ParseNegative(k: nat, rest: string)
    requires k > 0
    requires rest == [] || !IsDigit(rest[0])
    ensures ParseInt("-" + NatToString(k) + rest) == Some((-(k as int), rest))
  {
    var digits := NatToString(k);
    var s := "-" + digits + rest;
    assert s[1..] == digits + rest;
    SpanDigitsOf(digits, rest);
    NatToStringValue(k);
  }

  lemma {:induction false} ParseNonNegative(k: nat, rest: string)
    requires rest == [] || !IsDigit(rest[0])
    ensures ParseInt(NatToString(k) + rest) == Some((k, rest))
  {
    var digits := NatToString(k);
    assert IsDigit((digits + rest)[0]);
    SpanDigitsOf(digits, rest);
    NatToStringValue(k);
  }

  /** `ParseInt` inverts `IntToString` when what follows is not a digit. */
  lemma {:induction false} ParseIntToString(n: int, rest: string)
    requires rest == [] || !IsDigit(rest[0])
    ensures ParseInt(IntToString(n) + rest) == Some((n, rest))
  {
    if n < 0 {
      ParseNegative(-n, rest);
    } else {
      ParseNonNegative(n, rest);
    }
  }

  lemma ConcatAssoc(a: string, b: string, c: string)
    ensures (a + b) + c == a + (b + c)
  {
  }

  /** The two parts of a concatenation are its slices at the seam. */
  lemma ConcatParts(a: string, b: string)
    ensures (a + b)[..|a|] == a && (a + b)[|a|..] == b
  {
  }

  /** Dropping `k` characters, then `m` more, drops `k + m`. */
  lemma DropDrop(s: string, k: nat, m: nat)
    requires k + m <= |s|
    ensures s[k..][m..] == s[k + m..]
  {
  }

  /** Python's `s[len(p):]` after `s.startswith(p)`, or None. */
  function StripPrefix(s: string, p: string): (r: Option<string>)
    ensures r.Some? <==> p <= s
    ensures r.Some? ==> s == p + r.value
  {
    if p <= s then Some(s[|p|..]) else None
  }

  function UpperChar(c: char): char {
    if 'a' <= c <= 'z' then (c as int - 32) as char else c
  }

  /** Upper case of the ASCII letters; every other character is kept in place. */
  function Upper(s: string): (u: string)
    ensures |u| == |s|
  {
    seq(|s|, i requires 0 <= i < |s| => UpperChar(s[i]))
  }

  /** Joins lines with a line feed between each two, like `'\n'.join(lines)`. */
  function JoinLines(lines: seq<string>): string {
    if lines == [] then ""
    else if |lines| == 1 then lines[0]
    else lines[0] + "\n" + JoinLines(lines[1..])
  }

  /** Joining a line in front of at least one more puts a line feed between them. */
  lemma JoinLinesCons(line: string, rest: seq<string>)
    requires rest != []
    ensures JoinLines([line] + rest) == line + "\n" + JoinLines(rest)
  {
    assert ([line] + rest)[1..] == rest;
  }

  /** Splits at every line feed, like Python's `s.split('\n')`. */
  function SplitLines(s: string): (lines: seq<string>)
    ensures |lines| >= 1
  {
    if s == [] then [""]
    else if s[0] == '\n' then [""] + SplitLines(s[1..])
    else
      var rest := SplitLines(s[1..]);
      [[s[0]] + rest[0]] + rest[1..]
  }

  predicate NoLineFeed(s: string) {
    '\n' !in s
  }

  lemma {:induction false} SplitLinesSingle(a: string)
    requires NoLineFeed(a)
    ensures SplitLines(a) == [a]
  {
    if a != [] {
      SplitLinesSingle(a[1..]);
      assert [a[0]] + a[1..] == a;
    }
  }

  lemma {:induction false} SplitLinesCons(a: string, b: string)
    requires NoLineFeed(a)
    ensures SplitLines(a + "\n" + b) == [a] + SplitLines(b)
  {
    if a == [] {
      assert a + "\n" + b == "\n" + b;
      assert ("\n" + b)[1..] == b;
    } else {
      SplitLinesCons(a[1..], b);
      assert (a + "\n" + b)[1..] == a[1..] + "\n" + b;
      assert [a[0]] + a[1..] == a;
    }
  }

  /** Splitting a joined list of lines without line feeds gives the lines back. */
  lemma {:induction false} SplitJoinLines(lines: seq<string>)
    requires |lines| >= 1
    requires forall i :: 0 <= i < |lines| ==> NoLineFeed(lines[i])
    ensures SplitLines(JoinLines(lines)) == lines
  {
    if |lines| == 1 {
      SplitLinesSingle(lines[0]);
    } else {
      SplitJoinLines(lines[1..]);
      SplitLinesCons(lines[0], JoinLines(lines[1..]));
    }
  }

  /** Joining one more line appends a line feed and that line. */
  lemma {:induction false} JoinLinesSnoc(lines: seq<string>, last: string)
    requires |lines| >= 1
    ensures JoinLines(lines + [last]) == JoinLines(lines) + "\n" + last
  {
    if |lines| == 1 {
      assert (lines + [last])[1..] == [last];
    } else {
      assert (lines + [last])[1..] == lines[1..] + [last];
      JoinLinesSnoc(lines[1..], last);
      ConcatAssoc(lines[0] + "\n", JoinLines(lines[1..]) + "\n", last);
      ConcatAssoc(lines[0] + "\n", JoinLines(lines[1..]), "\n");
    }
  }

  /** A joined text starts with its first line and a line feed, and ends with a line feed and its last line. */
  lemma {:induction false} JoinLinesEdges(lines: seq<string>)
    requires |lines| >= 2
    ensures lines[0] + "\n" <= JoinLines(lines)
    ensures var j, last := JoinLines(lines), lines[|lines| - 1];
      |j| >= |last| + 1 && j[|j| - |last| - 1..] == "\n" + last
  {
    var n := |lines|;
    var last := lines[n - 1];
    assert lines == lines[..n - 1] + [last];
    JoinLinesSnoc(lines[..n - 1], last);
    var a := JoinLines(lines[..n - 1]);
    ConcatAssoc(a, "\n", last);
    assert (a + ("\n" + last))[|a|..] == "\n" + last;
  }

  lemma DigitsNoLineFeed(s: string)
    requires AllDigits(s)
    ensures NoLineFeed(s)
  {
  }

  lemma IntToStringNoLineFeed(n: int)
    ensures NoLineFeed(IntToString(n))
  {
    if n < 0 {
      DigitsNoLineFeed(NatToString(-n));
    } else {
      DigitsNoLineFeed(NatToString(n));
    }
  }

  const HexDigits := "0123456789abcdef"

  /** How Python's `repr` writes one character of a string quoted by `quote`. */
  function ReprChar(c: char, quote: char): string {
    if c == quote || c == '\\' then ['\\', c]
    else if c == '\t' then "\\t"
    else if c == '\n' then "\\n"
    else if c == '\r' then "\\r"
    else if c < ' ' || c == '\U{7F}' then
      ['\\', 'x', HexDigits[c as int / 16], HexDigits[c as int % 16]]
    else [c]
  }

  function ReprBody(s: string, quote: char): string {
    if s == [] then "" else ReprChar(s[0], quote) + ReprBody(s[1..], quote)
  }

  /** Python's `repr` of a string: single quotes unless only they occur in it. */
  function ReprStr(s: string): string {
    var quote := if '\'' in s && '"' !in s then '"' else '\'';
    [quote] + ReprBody(s, quote) + [quote]
  }

  function ReprItems(items: seq<string>): string {
    if items == [] then ""
    else if |items| == 1 then ReprStr(items[0])
    else ReprStr(items[0]) + ", " + ReprItems(items[1..])
  }

  /** Python's `repr` (and `str`) of a list of strings. */
  function ReprList(items: seq<string>): (r: string)
    ensures NoLineFeed(r)
  {
    ReprItemsNoLineFeed(items);
    "[" + ReprItems(items) + "]"
  }

  lemma NoLineFeedConcat(a: string, b: string)
    requires NoLineFeed(a) && NoLineFeed(b)
    ensures NoLineFeed(a + b)
  {
  }

  lemma ReprCharNoLineFeed(c: char, quote: char)
    requires quote != '\n'
    ensures NoLineFeed(ReprChar(c, quote))
  {
  }

  lemma {:induction false} ReprBodyNoLineFeed(s: string, quote: char)
    requires quote != '\n'
    ensures NoLineFeed(ReprBody(s, quote))
  {
    if s != [] {
      ReprCharNoLineFeed(s[0], quote);
      ReprBodyNoLineFeed(s[1..], quote);
      NoLineFeedConcat(ReprChar(s[0], quote), ReprBody(s[1..], quote));
    }
  }

  lemma {:induction false} ReprItemsNoLineFeed(items: seq<string>)
    ensures NoLineFeed(ReprItems(items))
  {
    if items != [] {
      ReprBodyNoLineFeed(items[0], if '\'' in items[0] && '"' !in items[0] then '"' else '\'');
      ReprItemsNoLineFeed(items[1..]);
    }
  }
}
