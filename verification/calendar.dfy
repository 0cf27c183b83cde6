/** Python's `datetime.date` and `datetime.time` values as far as the forms
    use them: proleptic Gregorian validity and `strftime` output. */
module Calendar {
  import opened Decimal

  /** `datetime.date`: year, month and day. */
  datatype Date = Date(year: int, month: int, day: int)

  /** `datetime.time` with the only two fields `%H:%M` sets. */
  datatype Time = Time(hour: int, minute: int)

  /** `datetime.MINYEAR` and `datetime.MAXYEAR`. */
  const MinYear := 1
  const MaxYear := 9999

  /** Leap years of the proleptic Gregorian calendar. */
  predicate IsLeapYear(y: int) {
    y % 4 == 0 && (y % 100 != 0 || y % 400 == 0)
  }

  /** The month lengths of a common year, January first, as Python's
      `datetime` module tabulates them. */
  const CommonMonthLengths: seq<int> := [31, 28, 31, 30, 31, 30, 31, 31, 30, 31, 30, 31]

  /** The days in month `m` of year `y`: the common-year table, except that
      February of a leap year has 29. */
  function DaysInMonth(y: int, m: int): (n: int)
    requires 1 <= m <= 12
    ensures 28 <= n <= 31
    ensures n == 29 <==> m == 2 && IsLeapYear(y)
    ensures n == (if m == 2 && IsLeapYear(y) then 29 else CommonMonthLengths[m - 1])
  {
    if m == 2 then (if IsLeapYear(y) then 29 else 28)
    else if m == 4 || m == 6 || m == 9 || m == 11 then 30
    else 31
  }

  /** The days in months `1 .. m` of year `y`. */
  function DaysBeforeMonthEnd(y: int, m: nat): (n: int)
    requires m <= 12
  {
    if m == 0 then 0 else DaysBeforeMonthEnd(y, m - 1) + DaysInMonth(y, m)
  }

  /** The twelve months make up 366 days in a leap year and 365 otherwise. */
  lemma {:induction false} YearLength(y: int)
    ensures DaysBeforeMonthEnd(y, 12) == if IsLeapYear(y) then 366 else 365
  {
    var feb := DaysBeforeMonthEnd(y, 2);
    assert feb == if IsLeapYear(y) then 60 else 59 by {
      assert DaysBeforeMonthEnd(y, 1) == 31;
    }
    assert DaysBeforeMonthEnd(y, 3) == feb + 31;
    assert DaysBeforeMonthEnd(y, 4) == feb + 61;
    assert DaysBeforeMonthEnd(y, 5) == feb + 92;
    assert DaysBeforeMonthEnd(y, 6) == feb + 122;
    assert DaysBeforeMonthEnd(y, 7) == feb + 153;
    assert DaysBeforeMonthEnd(y, 8) == feb + 184;
    assert DaysBeforeMonthEnd(y, 9) == feb + 214;
    assert DaysBeforeMonthEnd(y, 10) == feb + 245;
    assert DaysBeforeMonthEnd(y, 11) == feb + 275;
  }

  /** The dates `datetime.date(year, month, day)` constructs without raising. */
  predicate ValidDate(d: Date) {
    MinYear <= d.year <= MaxYear && 1 <= d.month <= 12 && 1 <= d.day <= DaysInMonth(d.year, d.month)
  }

  /** The times `datetime.time(hour, minute)` constructs without raising. */
  predicate ValidTime(t: Time) {
    0 <= t.hour < 24 && 0 <= t.minute < 60
  }

  /** `date.strftime('%Y-%m-%d')`, with the year zero-padded to four digits. */
  function FormatDate(d: Date): (s: string)
    requires ValidDate(d)
    ensures |s| == 10 && s[4] == '-' && s[7] == '-'
  {
    Pad(d.year, 4) + "-" + Pad(d.month, 2) + "-" + Pad(d.day, 2)
  }

  /** `time.strftime('%H:%M')`. */
  function FormatTime(t: Time): (s: string)
    requires ValidTime(t)
    ensures |s| == 5 && s[2] == ':'
  {
    Pad(t.hour, 2) + ":" + Pad(t.minute, 2)
  }
}
