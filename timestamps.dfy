/**
 * Calendar timestamps as `datetime.strptime(d, "%d-%m-%Y %H:%M:%S")`
 * accepts them and `strftime("%Y-%m-%dT%H:%M:%S")` renders them
 * (harvest_helpers.py, `parse_name`).
 */
module Timestamps {
  import opened Wrappers
  import opened Text

  datatype DateTime = DateTime(year: int, month: int, day: int, hour: int, minute: int, second: int)

  predicate IsLeapYear(y: int) {
    y % 4 == 0 && (y % 100 != 0 || y % 400 == 0)
  }

  function DaysInMonth(y: int, m: int): int
    requires 1 <= m <= 12
  {
    if m == 2 then (if IsLeapYear(y) then 29 else 28)
    else if m == 4 || m == 6 || m == 9 || m == 11 then 30
    else 31
  }

  /** What the `datetime` constructor accepts. */
  predicate IsValid(t: DateTime) {
    && 1 <= t.year <= 9999
    && 1 <= t.month <= 12
    && 1 <= t.day <= DaysInMonth(t.year, t.month)
    && 0 <= t.hour < 24
    && 0 <= t.minute < 60
    && 0 <= t.second < 60
  }

  /** What Python 2's `strftime` accepts: a valid datetime no earlier than 1900. */
  predicate IsFormattable(t: DateTime) {
    IsValid(t) && t.year >= 1900
  }

  predicate IsDigit(c: char) {
    '0' <= c <= '9'
  }

  predicate AllDigits(s: string) {
    forall i :: 0 <= i < |s| ==> IsDigit(s[i])
  }

  /** The decimal value of a string of ASCII digits. */
  function DigitsValue(s: string): (v: nat)
    requires AllDigits(s)
  {
    if s == [] then 0
    else DigitsValue(s[..|s| - 1]) * 10 + (s[|s| - 1] as int - '0' as int)
  }

  function DigitChar(d: nat): (c: char)
    requires d < 10
  {
    ('0' as int + d) as char
  }

  function Pow10(w: nat): (r: nat)
    ensures r >= 1
  {
    if w == 0 then 1 else 10 * Pow10(w - 1)
  }

  /** The last `w` decimal digits of `n`, most significant first (zero-padded). */
  function Digits(n: nat, w: nat): (s: string)
    ensures |s| == w
  {
    if w == 0 then [] else Digits(n / 10, w - 1) + [DigitChar(n % 10)]
  }

  /** `n` zero-padded to two digits. */
  function Pad2(n: nat): string
    requires n < 100
  {
    Digits(n, 2)
  }

  /** `n` zero-padded to four digits. */
  function Pad4(n: nat): string
    requires n < 10000
  {
    Digits(n, 4)
  }

  /**
   * A field the strptime directives `%d`, `%m`, `%H`, `%M` and `%S` match:
   * one or two digits whose value lies in `lo..hi`. (Their regular
   * expressions, such as `3[01]|[12]\d|0[1-9]|[1-9]` for `%d`, describe
   * exactly these strings.)
   */
  predicate IsShortField(f: string, lo: nat, hi: nat) {
    1 <= |f| <= 2 && AllDigits(f) && lo <= DigitsValue(f) <= hi
  }

  /**
   * `datetime.strptime(datePart + " " + timePart, "%d-%m-%Y %H:%M:%S")`
   * followed by a successful `strftime`, or None where either raises
   * `ValueError`. `%Y` takes exactly four digits and `%S` admits 60 and 61,
   * which the `datetime` constructor then rejects, as it rejects day 0..31
   * beyond the month's length and year 0; Python 2's `strftime` rejects
   * years before 1900. Both parts are whitespace-free tokens here, so the
   * space in the format matches exactly the one space between them.
   */
  function ParseTimestamp(datePart: string, timePart: string): (r: Option<DateTime>)
    ensures r.Some? ==> IsFormattable(r.value)
  {
    var ds, ts := SplitOn(datePart, '-'), SplitOn(timePart, ':');
    if |ds| == 3 && |ts| == 3
      && IsShortField(ds[0], 1, 31) && IsShortField(ds[1], 1, 12)
      && |ds[2]| == 4 && AllDigits(ds[2])
      && IsShortField(ts[0], 0, 23) && IsShortField(ts[1], 0, 59) && IsShortField(ts[2], 0, 61)
    then
      var t := DateTime(DigitsValue(ds[2]), DigitsValue(ds[1]), DigitsValue(ds[0]),
                        DigitsValue(ts[0]), DigitsValue(ts[1]), DigitsValue(ts[2]));
      if IsFormattable(t) then Some(t) else None
    else None
  }

  /** `t.strftime("%Y-%m-%dT%H:%M:%S")` */
  function FormatIso(t: DateTime): string
    requires IsFormattable(t)
  {
    (Pad4(t.year) + "-" + Pad2(t.month) + "-" + Pad2(t.day)) + "T"
      + (Pad2(t.hour) + ":" + Pad2(t.minute) + ":" + Pad2(t.second))
  }

  /** Every field fits the width it is rendered in. */
  predicate FitsWidths(t: DateTime) {
    && 0 <= t.year < 10000
    && 0 <= t.month < 100 && 0 <= t.day < 100
    && 0 <= t.hour < 100 && 0 <= t.minute < 100 && 0 <= t.second < 100
  }

  /** The date as the layer titles carry it: `DD-MM-YYYY`. */
  function DayMonthYear(t: DateTime): string
    requires FitsWidths(t)
  {
    Pad2(t.day) + "-" + Pad2(t.month) + "-" + Pad4(t.year)
  }

  /** The time as the layer titles carry it: `HH:MM:SS`. */
  function HourMinuteSecond(t: DateTime): string
    requires FitsWidths(t)
  {
    Pad2(t.hour) + ":" + Pad2(t.minute) + ":" + Pad2(t.second)
  }

  /**
   * Reads three digit fields `A?B?C` of a string whose fields B and C are
   * two digits wide and whose field A is `w` wide; `?` is any separator.
   */
  function ReadThree(s: string, w: nat): Option<(nat, nat, nat)> {
    if |s| == w + 6 && AllDigits(s[..w]) && AllDigits(s[w + 1..w + 3]) && AllDigits(s[w + 4..])
    then Some((DigitsValue(s[..w]), DigitsValue(s[w + 1..w + 3]), DigitsValue(s[w + 4..])))
    else None
  }

  /** Reads back the fields of an ISO timestamp `YYYY-MM-DDTHH:MM:SS`. */
  function ReadIso(s: string): Option<DateTime> {
    if |s| == 19 then
      match (ReadThree(s[..10], 4), ReadThree(s[11..], 2))
      case (Some((y, mo, d)), Some((h, mi, sec))) => Some(DateTime(y, mo, d, h, mi, sec))
      case _ => None
    else None
  }

  lemma DigitCharValue(d: nat)
    requires d < 10
    ensures IsDigit(DigitChar(d)) && DigitChar(d) as int - '0' as int == d
    ensures DigitChar(d) != '-' && DigitChar(d) != ':'
  {
  }

  lemma {:induction false} DigitsValueSnoc(s: string, c: char)
    requires AllDigits(s) && IsDigit(c)
    ensures AllDigits(s + [c]) && DigitsValue(s + [c]) == DigitsValue(s) * 10 + (c as int - '0' as int)
  {
    assert (s + [c])[..|s|] == s;
  }

  /** A number below `10^w` is rendered in exactly `w` digits that read back as the number. */
  lemma {:induction false} DigitsValueOf(n: nat, w: nat)
    requires n < Pow10(w)
    ensures AllDigits(Digits(n, w)) && DigitsValue(Digits(n, w)) == n
    ensures '-' !in Digits(n, w) && ':' !in Digits(n, w)
  {
    if w > 0 {
      DigitsValueOf(n / 10, w - 1);
      DigitCharValue(n % 10);
      DigitsValueSnoc(Digits(n / 10, w - 1), DigitChar(n % 10));
    }
  }

  lemma Pad2Value(n: nat)
    requires n < 100
    ensures |Pad2(n)| == 2 && AllDigits(Pad2(n)) && DigitsValue(Pad2(n)) == n
    ensures '-' !in Pad2(n) && ':' !in Pad2(n)
  {
    assert Pow10(2) == 100;
    DigitsValueOf(n, 2);
  }

  lemma Pad4Value(n: nat)
    requires n < 10000
    ensures |Pad4(n)| == 4 && AllDigits(Pad4(n)) && DigitsValue(Pad4(n)) == n
    ensures '-' !in Pad4(n) && ':' !in Pad4(n)
  {
    assert Pow10(4) == 10000;
    DigitsValueOf(n, 4);
  }

  lemma SplitThree(a: string, b: string, c: string, sep: char)
    requires sep !in a && sep !in b && sep !in c
    ensures SplitOn(a + [sep] + b + [sep] + c, sep) == [a, b, c]
  {
    var bc := b + [sep] + c;
    assert a + [sep] + b + [sep] + c == a + [sep] + bc;
    SplitOnFirst(a, sep, bc);
    SplitOnFirst(b, sep, c);
  }

  /**
   * A timestamp whose fields lie in the ranges the strptime directives
   * match, rendered as `DD-MM-YYYY` and `HH:MM:SS`, is accepted exactly
   * when it is formattable, and then parses to itself.
   */
  lemma ParseRendered(t: DateTime)
    requires 1 <= t.day <= 31 && 1 <= t.month <= 12 && 0 <= t.year < 10000
    requires 0 <= t.hour <= 23 && 0 <= t.minute <= 59 && 0 <= t.second <= 61
    ensures ParseTimestamp(DayMonthYear(t), HourMinuteSecond(t))
         == if IsFormattable(t) then Some(t) else None
  {
    Pad2Value(t.day);
    Pad2Value(t.month);
    Pad4Value(t.year);
    Pad2Value(t.hour);
    Pad2Value(t.minute);
    Pad2Value(t.second);
    SplitThree(Pad2(t.day), Pad2(t.month), Pad4(t.year), '-');
    SplitThree(Pad2(t.hour), Pad2(t.minute), Pad2(t.second), ':');
  }

  /**
   * Every formattable timestamp, written as `DD-MM-YYYY` and `HH:MM:SS`,
   * parses back to itself.
   */
  lemma ParseTimestampRoundTrip(t: DateTime)
    requires IsFormattable(t)
    ensures ParseTimestamp(DayMonthYear(t), HourMinuteSecond(t)) == Some(t)
  {
    ParseRendered(t);
  }

  lemma ReadThreeOf(a: string, b: string, c: string, sep: char)
    requires AllDigits(a) && AllDigits(b) && AllDigits(c) && |b| == 2 && |c| == 2
    ensures ReadThree(a + [sep] + b + [sep] + c, |a|)
         == Some((DigitsValue(a), DigitsValue(b), DigitsValue(c)))
  {
    var s := a + [sep] + b + [sep] + c;
    assert s[..|a|] == a;
    assert s[|a| + 1..|a| + 3] == b;
    assert s[|a| + 4..] == c;
  }

  /** The rendering is zero-padded and fixed-width, so the fields can be read back. */
  lemma FormatIsoRoundTrip(t: DateTime)
    requires IsFormattable(t)
    ensures |FormatIso(t)| == 19
    ensures ReadIso(FormatIso(t)) == Some(t)
  {
    Pad4Value(t.year);
    Pad2Value(t.month);
    Pad2Value(t.day);
    Pad2Value(t.hour);
    Pad2Value(t.minute);
    Pad2Value(t.second);
    var date := Pad4(t.year) + "-" + Pad2(t.month) + "-" + Pad2(t.day);
    var time := Pad2(t.hour) + ":" + Pad2(t.minute) + ":" + Pad2(t.second);
    ReadThreeOf(Pad4(t.year), Pad2(t.month), Pad2(t.day), '-');
    ReadThreeOf(Pad2(t.hour), Pad2(t.minute), Pad2(t.second), ':');
    var s := FormatIso(t);
    assert s == date + "T" + time;
    assert s[..10] == date;
    assert s[11..] == time;
  }

  /** Distinct timestamps render differently. */
  lemma FormatIsoInjective(t: DateTime, u: DateTime)
    requires IsFormattable(t) && IsFormattable(u)
    requires FormatIso(t) == FormatIso(u)
    ensures t == u
  {
    FormatIsoRoundTrip(t);
    FormatIsoRoundTrip(u);
  }

  /** Day 29 of February is accepted exactly in leap years. */
  lemma LeapDay(y: nat)
    requires 1900 <= y <= 9999
    ensures ParseTimestamp("29-02-" + Pad4(y), "00:00:00").Some? <==> IsLeapYear(y)
  {
    var t := DateTime(y, 2, 29, 0, 0, 0);
    ParseRendered(t);
    LeapDayRendered(y);
    assert IsFormattable(t) <==> IsLeapYear(y);
  }

  lemma LeapDayRendered(y: nat)
    requires y < 10000
    ensures DayMonthYear(DateTime(y, 2, 29, 0, 0, 0)) == "29-02-" + Pad4(y)
    ensures HourMinuteSecond(DateTime(y, 2, 29, 0, 0, 0)) == "00:00:00"
  {
    assert Pad2(29) == "29" && Pad2(2) == "02" && Pad2(0) == "00";
  }
}
