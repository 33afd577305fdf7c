/**
 * Calendar dates and the two `DateTime` format patterns the mail pipeline
 * prints: "dd MMMM yyyy" in message text and "yyyy-MM-dd HH:mm:ss" in the
 * confirmation shown after a send (en-US month names).
 */
module Calendar {
  import opened Wrappers
  import opened Text
  import opened Numbers

  /** The date part of a `DateTime`. */
  datatype Date = Date(year: int, month: int, day: int)

  /** A `DateTime` with one-second resolution. */
  datatype DateTime = DateTime(date: Date, hour: int, minute: int, second: int)

  /** `default(DateTime)`, which is `DateTime.MinValue`: midnight on 1 January of year 1. */
  const MinDateTime := DateTime(Date(1, 1, 1), 0, 0, 0)

  predicate IsLeapYear(y: int) {
    y % 4 == 0 && (y % 100 != 0 || y % 400 == 0)
  }

  function DaysInMonth(y: int, m: int): int
    requires 1 <= m <= 12
  {
    if m == 2 then (if IsLeapYear(y) then 29 else 28)
    else if m == 4 || m == 6 || m == 9 || m == 11 then 30
    else 31
  }

  /** The dates a `DateTime` can hold: years 1 to 9999 of the proleptic Gregorian calendar. */
  predicate ValidDate(d: Date) {
    && 1 <= d.year <= 9999
    && 1 <= d.month <= 12
    && 1 <= d.day <= DaysInMonth(d.year, d.month)
  }

  predicate ValidDateTime(t: DateTime) {
    && ValidDate(t.date)
    && 0 <= t.hour < 24
    && 0 <= t.minute < 60
    && 0 <= t.second < 60
  }

  /** "MMMM" under en-US. */
  const MonthNames: seq<string> := [
    "January", "February", "March", "April", "May", "June",
    "July", "August", "September", "October", "November", "December"
  ]

  function MonthName(m: int): (r: string)
    requires 1 <= m <= 12
    ensures |r| > 0 && BraceFree(r)
  {
    MonthNames[m - 1]
  }

  /** The 1-based number of the month called `name`, or 0 when there is none. */
  function MonthNumber(name: string): (m: int)
    ensures 0 <= m <= 12
  {
    if name == "January" then 1 else if name == "February" then 2
    else if name == "March" then 3 else if name == "April" then 4
    else if name == "May" then 5 else if name == "June" then 6
    else if name == "July" then 7 else if name == "August" then 8
    else if name == "September" then 9 else if name == "October" then 10
    else if name == "November" then 11 else if name == "December" then 12
    else 0
  }

  /** `date.ToString("dd MMMM yyyy")`, e.g. "05 March 2024". */
  function FormatDate(d: Date): (r: string)
    requires ValidDate(d)
    ensures BraceFree(r)
    ensures |r| == 8 + |MonthName(d.month)|
  {
    Pad2(d.day) + " " + MonthName(d.month) + " " + Pad4(d.year)
  }

  /** Reads a date back from the "dd MMMM yyyy" form; None when `s` is not one. */
  function ParseDate(s: string): Option<Date> {
    if |s| < 9 || s[2] != ' ' || s[|s| - 5] != ' ' then None
    else if !AllDigits(s[..2]) || !AllDigits(s[|s| - 4..]) then None
    else
      var d := Date(DigitsValue(s[|s| - 4..]), MonthNumber(s[3..|s| - 5]), DigitsValue(s[..2]));
      if d.month == 0 || !ValidDate(d) then None else Some(d)
  }

  /** The date pattern loses nothing: every valid date reads back from its text. */
  lemma ParseFormatDate(d: Date)
    requires ValidDate(d)
    ensures ParseDate(FormatDate(d)) == Some(d)
  {
    var s := FormatDate(d);
    var name := MonthName(d.month);
    assert s[..2] == Pad2(d.day);
    assert s[|s| - 4..] == Pad4(d.year);
    assert s[3..|s| - 5] == name;
    assert MonthNumber(name) == d.month;
  }

  /** Two different dates never print the same. */
  lemma FormatDateInjective(a: Date, b: Date)
    requires ValidDate(a) && ValidDate(b)
    requires FormatDate(a) == FormatDate(b)
    ensures a == b
  {
    ParseFormatDate(a);
    ParseFormatDate(b);
  }

  /** The format's own example: the fifth of March 2024. */
  lemma FormatDateExample()
    ensures FormatDate(Date(2024, 3, 5)) == "05 March 2024"
  {
    assert Pad2(5) == "05";
    assert Pad4(2024) == "2024";
  }

  /** `t.ToString("yyyy-MM-dd HH:mm:ss")`: every field sits at a fixed offset. */
  function FormatTimestamp(t: DateTime): (r: string)
    requires ValidDateTime(t)
    ensures |r| == 19 && r[4] == '-' && r[7] == '-' && r[10] == ' ' && r[13] == ':' && r[16] == ':'
    ensures AllDigits(r[..4]) && DigitsValue(r[..4]) == t.date.year
    ensures AllDigits(r[5..7]) && DigitsValue(r[5..7]) == t.date.month
    ensures AllDigits(r[8..10]) && DigitsValue(r[8..10]) == t.date.day
    ensures AllDigits(r[11..13]) && DigitsValue(r[11..13]) == t.hour
    ensures AllDigits(r[14..16]) && DigitsValue(r[14..16]) == t.minute
    ensures AllDigits(r[17..19]) && DigitsValue(r[17..19]) == t.second
  {
    var r := Pad4(t.date.year) + "-" + Pad2(t.date.month) + "-" + Pad2(t.date.day)
      + " " + Pad2(t.hour) + ":" + Pad2(t.minute) + ":" + Pad2(t.second);
    assert r[..4] == Pad4(t.date.year);
    assert r[5..7] == Pad2(t.date.month);
    assert r[8..10] == Pad2(t.date.day);
    assert r[11..13] == Pad2(t.hour);
    assert r[14..16] == Pad2(t.minute);
    assert r[17..19] == Pad2(t.second);
    r
  }
}
