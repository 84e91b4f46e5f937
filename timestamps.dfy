/**
  UTC timestamps of one run (lib/classes/log/exec_info/timestamps.py): the
  start time taken at construction, the end time set by the session at
  termination, and the elapsed-time text of the footer.

  A timestamp is a record of its calendar fields, as Python's `datetime`
  holds them; the clock read (`datetime.now(datetime.UTC)`) is a parameter.
*/
module Timestamps {
  import opened Wrappers
  import opened Text

  datatype DateTime = DateTime(year: int, month: int, day: int,
                               hour: int, minute: int, second: int, microsecond: int)
  {
    /** The ranges Python's `datetime` enforces on its fields. */
    predicate Valid() {
      && 1 <= year <= 9999
      && 1 <= month <= 12
      && 1 <= day <= DaysInMonth(year, month)
      && 0 <= hour < 24 && 0 <= minute < 60 && 0 <= second < 60
      && 0 <= microsecond < 1000000
    }
  }

  predicate IsLeapYear(y: int) {
    y % 4 == 0 && (y % 100 != 0 || y % 400 == 0)
  }

  function DaysInMonth(y: int, m: int): int {
    if m == 2 then (if IsLeapYear(y) then 29 else 28)
    else if m == 4 || m == 6 || m == 9 || m == 11 then 30
    else 31
  }

  /**
    Days from 1970-01-01 to the given date of the proleptic Gregorian
    calendar (the calendar of Python's `datetime`).
  */
  function DaysFromCivil(y: int, m: int, d: int): int {
    var y' := if m <= 2 then y - 1 else y;
    var era := y' / 400;
    var yoe := y' - era * 400;
    var doy := (153 * (if m > 2 then m - 3 else m + 9) + 2) / 5 + d - 1;
    var doe := yoe * 365 + yoe / 4 - yoe / 100 + doy;
    era * 146097 + doe - 719468
  }

  /** Microseconds since the epoch; `end - start` of two such values is the `timedelta` in microseconds. */
  function EpochMicros(t: DateTime): int {
    var days := DaysFromCivil(t.year, t.month, t.day);
    ((days * 24 + t.hour) * 60 + t.minute) * 60 * 1000000 + t.second * 1000000 + t.microsecond
  }

  /** `t.strftime('%Y%m%d%H%M%S')`. */
  function Stamp(t: DateTime): string
    requires t.Valid()
  {
    ZeroPad(t.year, 4) + ZeroPad(t.month, 2) + ZeroPad(t.day, 2)
      + ZeroPad(t.hour, 2) + ZeroPad(t.minute, 2) + ZeroPad(t.second, 2)
  }

  /** The stamp is fourteen decimal digits. */
  lemma StampShape(t: DateTime)
    requires t.Valid()
    ensures |Stamp(t)| == 14 && AllDigits(Stamp(t))
  {
    var s := Stamp(t);
    var y, mo, d := ZeroPad(t.year, 4), ZeroPad(t.month, 2), ZeroPad(t.day, 2);
    var h, mi, se := ZeroPad(t.hour, 2), ZeroPad(t.minute, 2), ZeroPad(t.second, 2);
    forall i | 0 <= i < 14 ensures IsDigit(s[i]) {
      if i < 4 { assert s[i] == y[i]; }
      else if i < 6 { assert s[i] == mo[i - 4]; }
      else if i < 8 { assert s[i] == d[i - 6]; }
      else if i < 10 { assert s[i] == h[i - 8]; }
      else if i < 12 { assert s[i] == mi[i - 10]; }
      else { assert s[i] == se[i - 12]; }
    }
  }

  /** Every calendar field reads back from its digits in the stamp. */
  lemma StampFields(t: DateTime)
    requires t.Valid()
    ensures var s := Stamp(t);
      && |s| == 14 && AllDigits(s)
      && DigitsValue(s[0..4]) == t.year && DigitsValue(s[4..6]) == t.month
      && DigitsValue(s[6..8]) == t.day && DigitsValue(s[8..10]) == t.hour
      && DigitsValue(s[10..12]) == t.minute && DigitsValue(s[12..14]) == t.second
  {
    StampShape(t);
    var s := Stamp(t);
    assert Pow10(2) == 100 && Pow10(4) == 10000;
    var y, mo, d := ZeroPad(t.year, 4), ZeroPad(t.month, 2), ZeroPad(t.day, 2);
    var h, mi, se := ZeroPad(t.hour, 2), ZeroPad(t.minute, 2), ZeroPad(t.second, 2);
    var front := y + mo + d + h + mi;
    assert s == front + se && |front| == 12;
    assert s[12..14] == se;
    assert s[..12] == front;
    assert s[0..4] == front[0..4] == y;
    assert s[4..6] == front[4..6] == mo;
    assert s[6..8] == front[6..8] == d;
    assert s[8..10] == front[8..10] == h;
    assert s[10..12] == front[10..12] == mi;
    ZeroPadValue(t.year, 4);
    ZeroPadValue(t.month, 2);
    ZeroPadValue(t.day, 2);
    ZeroPadValue(t.hour, 2);
    ZeroPadValue(t.minute, 2);
    ZeroPadValue(t.second, 2);
  }

  /** `t.isoformat()` of an aware UTC datetime; the fraction is omitted when it is zero. */
  function IsoFormat(t: DateTime): string
    requires t.Valid()
  {
    ZeroPad(t.year, 4) + "-" + ZeroPad(t.month, 2) + "-" + ZeroPad(t.day, 2)
      + "T" + ZeroPad(t.hour, 2) + ":" + ZeroPad(t.minute, 2) + ":" + ZeroPad(t.second, 2)
      + (if t.microsecond == 0 then "" else "." + ZeroPad(t.microsecond, 6))
      + "+00:00"
  }

  lemma IsoFormatNoLineFeed(t: DateTime)
    requires t.Valid()
    ensures NoLineFeed(IsoFormat(t))
  {
    DigitsNoLineFeed(ZeroPad(t.year, 4));
    DigitsNoLineFeed(ZeroPad(t.month, 2));
    DigitsNoLineFeed(ZeroPad(t.day, 2));
    DigitsNoLineFeed(ZeroPad(t.hour, 2));
    DigitsNoLineFeed(ZeroPad(t.minute, 2));
    DigitsNoLineFeed(ZeroPad(t.second, 2));
    DigitsNoLineFeed(ZeroPad(t.microsecond, 6));
  }

  const MicrosPerMinute := 60000000
  const MicrosPerSecond := 1000000
  const MicrosPerMilli := 1000

  /** The four parts of the footer's elapsed time. */
  datatype Elapsed = Elapsed(minutes: int, seconds: int, milliseconds: int, microseconds: int)
  {
    /** Each part below minutes is the remainder left by the coarser unit. */
    predicate Normalized() {
      0 <= seconds < 60 && 0 <= milliseconds < 1000 && 0 <= microseconds < 1000
    }

    function Total(): int {
      MicrosPerMinute * minutes + MicrosPerSecond * seconds + MicrosPerMilli * milliseconds + microseconds
    }
  }

  /**
    Splits a duration in microseconds into whole minutes (rounded towards
    minus infinity, as Python's `//`) and the successive remainders.
  */
  function Decompose(total: int): (e: Elapsed)
    ensures e.Normalized() && e.Total() == total
    ensures MicrosPerMinute * e.minutes <= total < MicrosPerMinute * (e.minutes + 1)
  {
    var rest := total % MicrosPerMinute;
    var fraction := rest % MicrosPerSecond;
    Elapsed(total / MicrosPerMinute, rest / MicrosPerSecond,
            fraction / MicrosPerMilli, fraction % MicrosPerMilli)
  }

  /** What a unit leaves behind is the Euclidean remainder. */
  lemma RemainderStep(a: int, unit: int)
    requires unit > 0
    ensures a - unit * (a / unit) == a % unit
  {
  }

  /** There is only one normalized decomposition of a duration. */
  lemma DecomposeUnique(e: Elapsed, total: int)
    requires e.Normalized() && e.Total() == total
    ensures e == Decompose(total)
  {
    var d := Decompose(total);
    var r := MicrosPerSecond * e.seconds + MicrosPerMilli * e.milliseconds + e.microseconds;
    var r' := MicrosPerSecond * d.seconds + MicrosPerMilli * d.milliseconds + d.microseconds;
    assert 0 <= r < MicrosPerMinute && 0 <= r' < MicrosPerMinute;
    assert MicrosPerMinute * e.minutes + r == MicrosPerMinute * d.minutes + r';
    assert e.minutes == d.minutes;
    assert r == r';
    assert e.seconds == d.seconds;
    assert e.milliseconds == d.milliseconds;
  }

  /** `f'{m:d}m {s:d}s {ms:d}ms {us:d}μs'`, the suffix using U+03BC. */
  function ElapsedText(e: Elapsed): string {
    IntToString(e.minutes) + "m " + IntToString(e.seconds) + "s "
      + IntToString(e.milliseconds) + "ms " + IntToString(e.microseconds) + "\U{03BC}s"
  }

  lemma ElapsedTextNoLineFeed(e: Elapsed)
    ensures NoLineFeed(ElapsedText(e))
  {
    IntToStringNoLineFeed(e.minutes);
    IntToStringNoLineFeed(e.seconds);
    IntToStringNoLineFeed(e.milliseconds);
    IntToStringNoLineFeed(e.microseconds);
  }

  /** Reads a decimal integer followed by `suffix` from the front of `s`. */
  function ParseField(s: string, suffix: string): Option<(int, string)> {
    match ParseInt(s)
    case None => None
    case Some((n, rest)) =>
      match StripPrefix(rest, suffix)
      case None => None
      case Some(after) => Some((n, after))
  }

  lemma ParseFieldOf(n: int, suffix: string, rest: string)
    requires suffix != [] && !IsDigit(suffix[0])
    ensures ParseField(IntToString(n) + suffix + rest, suffix) == Some((n, rest))
  {
    assert IntToString(n) + suffix + rest == IntToString(n) + (suffix + rest);
    ParseIntToString(n, suffix + rest);
    assert StripPrefix(suffix + rest, suffix) == Some(rest);
  }

  /** Reads the four parts back from an elapsed-time text. */
  function ParseElapsed(s: string): Option<Elapsed> {
    match ParseField(s, "m ")
    case None => None
    case Some((m, r1)) =>
      match ParseField(r1, "s ")
      case None => None
      case Some((sec, r2)) =>
        match ParseField(r2, "ms ")
        case None => None
        case Some((ms, r3)) =>
          match ParseField(r3, "\U{03BC}s")
          case None => None
          case Some((us, r4)) =>
            if r4 == [] then Some(Elapsed(m, sec, ms, us)) else None
  }

  /** The elapsed text is exactly the four decimal parts with their unit suffixes, in order. */
  lemma ElapsedTextRoundTrip(e: Elapsed)
    ensures ParseElapsed(ElapsedText(e)) == Some(e)
  {
    var t3 := IntToString(e.microseconds) + "\U{03BC}s";
    var t2 := IntToString(e.milliseconds) + "ms " + t3;
    var t1 := IntToString(e.seconds) + "s " + t2;
    var text := ElapsedText(e);
    assert text == IntToString(e.minutes) + "m " + t1;
    ParseFieldOf(e.minutes, "m ", t1);
    assert ParseField(text, "m ") == Some((e.minutes, t1));
    ParseFieldOf(e.seconds, "s ", t2);
    assert ParseField(t1, "s ") == Some((e.seconds, t2));
    ParseFieldOf(e.milliseconds, "ms ", t3);
    assert ParseField(t2, "ms ") == Some((e.milliseconds, t3));
    assert t3 == IntToString(e.microseconds) + "\U{03BC}s" + [];
    ParseFieldOf(e.microseconds, "\U{03BC}s", []);
    assert ParseField(t3, "\U{03BC}s") == Some((e.microseconds, []));
  }

  /**
    The arithmetic of `_get_elapsed`: whole minutes first, then each finer
    unit from what the coarser ones left, keeping the running total of what
    has been accounted for. The remainders are never negative, so Python's
    `int()` truncation is the floor division written here.
  */
  method SplitElapsed(elapsed: int) returns (parts: Elapsed)
    ensures parts == Decompose(elapsed)
    ensures parts.Normalized() && parts.Total() == elapsed
  {
    var included := 0;
    var wholeMinutes := elapsed / MicrosPerMinute;
    included := included + MicrosPerMinute * wholeMinutes;
    RemainderStep(elapsed, MicrosPerMinute);
    var wholeSeconds := (elapsed - included) / MicrosPerSecond;
    included := included + MicrosPerSecond * wholeSeconds;
    RemainderStep(elapsed % MicrosPerMinute, MicrosPerSecond);
    var wholeMilliseconds := (elapsed - included) / MicrosPerMilli;
    included := included + MicrosPerMilli * wholeMilliseconds;
    RemainderStep(elapsed % MicrosPerMinute % MicrosPerSecond, MicrosPerMilli);
    var wholeMicroseconds := elapsed - included;
    parts := Elapsed(wholeMinutes, wholeSeconds, wholeMilliseconds, wholeMicroseconds);
  }

  /** The elapsed-time text between two timestamps, as the footer shows it. */
  function ElapsedBetween(start: DateTime, end: DateTime): string {
    ElapsedText(Decompose(EpochMicros(end) - EpochMicros(start)))
  }

  lemma ElapsedBetweenNoLineFeed(start: DateTime, end: DateTime)
    ensures NoLineFeed(ElapsedBetween(start, end))
  {
    ElapsedTextNoLineFeed(Decompose(EpochMicros(end) - EpochMicros(start)));
  }

  /** `_Timestamps`: the start time is taken once, at construction; the end time is set later by the session. */
  class Timestamps {
    var start: DateTime
    var end: Option<DateTime>

    /** `__post_init__`: `start` is the clock reading `now`, `end` is still unset. */
    constructor (now: DateTime)
      ensures start == now && end == None
    {
      start := now;
      end := None;
    }

    /** `_get_elapsed`: the elapsed-time text between the start and the end time. */
    method GetElapsed() returns (text: string)
      requires end.Some?
      ensures text == ElapsedBetween(start, end.value)
    {
      var parts := SplitElapsed(EpochMicros(end.value) - EpochMicros(start));
      text := ElapsedText(parts);
    }
  }
}
