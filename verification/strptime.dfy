/** `datetime.strptime` for the two formats the forms use, `%Y-%m-%d` and
    `%H:%M`. CPython compiles each directive to a regular expression, matches
    it at the start of the input and raises `ValueError` when the match fails
    or leaves characters over; a match whose numbers do not form a real date
    raises too. Every one of those failures becomes `None` here.

    The directive expressions are
      %Y  four digits
      %m  `1[0-2]` or `0[1-9]` or `[1-9]`
      %d  `3[01]` or `[12]` digit or `0[1-9]` or `[1-9]` or space `[1-9]`
      %H  `2[0-3]` or `[01]` digit or one digit
      %M  `[0-5]` digit or one digit
    The alternatives are tried left to right. A `%m` or `%H` token is always
    followed by a separator that no alternative contains, so the token is the
    text up to that separator; `%d` and `%M` end the format, so the first
    alternative that matches is kept and the rest of the input must be empty,
    which accepts exactly the inputs that one alternative matches completely. */
module Strptime {
  import opened Decimal
  import opened Calendar
  import opened Values

  predicate IsNonZeroDigit(c: char) {
    '1' <= c <= '9'
  }

  function TwoDigits(a: char, b: char): nat
    requires IsDigit(a) && IsDigit(b)
  {
    10 * DigitValue(a) + DigitValue(b)
  }

  /** `%m` and the `-` after it: the month and the text after the `-`. */
  function MonthThenDash(t: string): Option<(int, string)> {
    if |t| >= 3 && t[2] == '-' && ((t[0] == '1' && '0' <= t[1] <= '2') || (t[0] == '0' && IsNonZeroDigit(t[1]))) then
      Some((TwoDigits(t[0], t[1]), t[3..]))
    else if |t| >= 2 && t[1] == '-' && IsNonZeroDigit(t[0]) then
      Some((DigitValue(t[0]), t[2..]))
    else
      None
  }

  /** `%d` at the end of the input: the day, when `t` is exactly one token. */
  function DayToEnd(t: string): Option<int> {
    if |t| == 2 && t[0] == '3' && (t[1] == '0' || t[1] == '1') then Some(TwoDigits(t[0], t[1]))
    else if |t| == 2 && (t[0] == '1' || t[0] == '2') && IsDigit(t[1]) then Some(TwoDigits(t[0], t[1]))
    else if |t| == 2 && t[0] == '0' && IsNonZeroDigit(t[1]) then Some(DigitValue(t[1]))
    else if |t| == 1 && IsNonZeroDigit(t[0]) then Some(DigitValue(t[0]))
    else if |t| == 2 && t[0] == ' ' && IsNonZeroDigit(t[1]) then Some(DigitValue(t[1]))
    else None
  }

  /** `datetime.strptime(s, '%Y-%m-%d').date()`, with `ValueError` as `None`. */
  function ParseDate(s: string): (r: Option<Date>)
    ensures r.Some? ==> ValidDate(r.value)
    ensures r.Some? ==> 8 <= |s| <= 10 && AllDigits(s[..4]) && s[4] == '-'
  {
    if |s| < 5 || !AllDigits(s[..4]) || s[4] != '-' then None
    else
      match MonthThenDash(s[5..])
      case None => None
      case Some((month, dayText)) =>
        match DayToEnd(dayText)
        case None => None
        case Some(day) =>
          var d := Date(DigitsValue(s[..4]), month, day);
          if ValidDate(d) then Some(d) else None
  }

  /** `%H` and the `:` after it: the hour and the text after the `:`. */
  function HourThenColon(t: string): Option<(int, string)> {
    if |t| >= 3 && t[2] == ':' && ((t[0] == '2' && '0' <= t[1] <= '3') || ((t[0] == '0' || t[0] == '1') && IsDigit(t[1]))) then
      Some((TwoDigits(t[0], t[1]), t[3..]))
    else if |t| >= 2 && t[1] == ':' && IsDigit(t[0]) then
      Some((DigitValue(t[0]), t[2..]))
    else
      None
  }

  /** `%M` at the end of the input. */
  function MinuteToEnd(t: string): Option<int> {
    if |t| == 2 && '0' <= t[0] <= '5' && IsDigit(t[1]) then Some(TwoDigits(t[0], t[1]))
    else if |t| == 1 && IsDigit(t[0]) then Some(DigitValue(t[0]))
    else None
  }

  /** `datetime.strptime(s, '%H:%M').time()`, with `ValueError` as `None`. */
  function ParseTime(s: string): (r: Option<Time>)
    ensures r.Some? ==> ValidTime(r.value)
    ensures r.Some? ==> 3 <= |s| <= 5
  {
    match HourThenColon(s)
    case None => None
    case Some((hour, minuteText)) =>
      match MinuteToEnd(minuteText)
      case None => None
      case Some(minute) => Some(Time(hour, minute))
  }

  /** Text in the zero-padded `YYYY-MM-DD` layout (digits and dashes only),
      whether or not it names a real date. */
  predicate CanonicalDateText(s: string) {
    |s| == 10 && s[4] == '-' && s[7] == '-'
    && AllDigits(s[..4]) && AllDigits(s[5..7]) && AllDigits(s[8..])
  }

  /** The date the digit groups of a canonical text spell, real or not. */
  function SpelledDate(s: string): Date
    requires CanonicalDateText(s)
  {
    Date(DigitsValue(s[..4]), DigitsValue(s[5..7]), DigitsValue(s[8..]))
  }

  /** Text in the zero-padded `HH:MM` layout. */
  predicate CanonicalTimeText(s: string) {
    |s| == 5 && s[2] == ':' && AllDigits(s[..2]) && AllDigits(s[3..])
  }

  function SpelledTime(s: string): Time
    requires CanonicalTimeText(s)
  {
    Time(DigitsValue(s[..2]), DigitsValue(s[3..]))
  }

  /** A two-digit token is read as the number it spells. */
  lemma TwoDigitsValue(s: string)
    requires |s| == 2 && AllDigits(s)
    ensures TwoDigits(s[0], s[1]) == DigitsValue(s)
  {
    var init := s[..1];
    assert init[..0] == [] && init[0] == s[0];
    assert DigitsValue(init) == DigitValue(s[0]);
  }

  /** The two characters `strftime` writes for a number below 100. */
  lemma PadTwo(n: nat)
    requires n < 100
    ensures Pad(n, 2) == [DigitChar(n / 10), DigitChar(n % 10)]
  {
    assert (n / 10) / 10 == 0 && (n / 10) % 10 == n / 10;
    assert Pad(n / 10, 1) == [DigitChar(n / 10)];
  }

  /** Two digits are the zero-padded text of the number they spell. */
  lemma PadTwoDigits(a: char, b: char)
    requires IsDigit(a) && IsDigit(b)
    ensures Pad(TwoDigits(a, b), 2) == [a, b]
  {
    var n := TwoDigits(a, b);
    assert n / 10 == DigitValue(a) && n % 10 == DigitValue(b);
    PadTwo(n);
  }

  /** One digit is the shortest text of the number it spells. */
  lemma DecimalDigit(a: char)
    requires IsDigit(a)
    ensures DecimalText(DigitValue(a)) == [a]
  {
  }

  /** A padded month and its dash are one `%m` token. */
  lemma MonthToken(month: int, rest: string)
    requires 1 <= month <= 12
    ensures MonthThenDash(Pad(month, 2) + "-" + rest) == Some((month, rest))
  {
    PadTwo(month);
    var t := Pad(month, 2) + "-" + rest;
    assert t[3..] == rest;
  }

  /** A padded day is one `%d` token. */
  lemma DayToken(day: int)
    requires 1 <= day <= 31
    ensures DayToEnd(Pad(day, 2)) == Some(day)
  {
    PadTwo(day);
  }

  /** Every real date, written canonically, parses back to itself. */
  lemma ParseFormatDate(d: Date)
    requires ValidDate(d)
    ensures ParseDate(FormatDate(d)) == Some(d)
  {
    var y, dd := Pad(d.year, 4), Pad(d.day, 2);
    var s := FormatDate(d);
    assert s[..4] == y;
    assert s[5..] == Pad(d.month, 2) + "-" + dd;
    PadValue(d.year, 4);
    MonthToken(d.month, dd);
    DayToken(d.day);
  }

  /** On canonical text the parser accepts exactly the real dates: it yields
      the date the digits spell when that date exists, and `None` otherwise
      (month 13, 30 February, day 29 of February outside leap years, year 0). */
  lemma ParseCanonicalDate(s: string)
    requires CanonicalDateText(s)
    ensures ParseDate(s) == (if ValidDate(SpelledDate(s)) then Some(SpelledDate(s)) else None)
  {
    var mm, dd := s[5..7], s[8..];
    TwoDigitsValue(mm);
    TwoDigitsValue(dd);
    assert s[5..][..2] == mm && s[5..][3..] == dd;
  }

  /** Formatting a date parsed from canonical text gives the text back. */
  lemma FormatParsedDate(s: string)
    requires CanonicalDateText(s) && ParseDate(s).Some?
    ensures FormatDate(ParseDate(s).value) == s
  {
    ParseCanonicalDate(s);
    ValuePad(s[..4]);
    ValuePad(s[5..7]);
    ValuePad(s[8..]);
    assert s == s[..4] + "-" + s[5..7] + "-" + s[8..];
  }

  /** The characters `str` writes for a number below 100. */
  lemma ShortTwo(n: nat)
    requires n < 100
    ensures DecimalText(n) == if n < 10 then [DigitChar(n)] else [DigitChar(n / 10), DigitChar(n % 10)]
  {
    if n >= 10 {
      assert n / 10 < 10;
      assert DecimalText(n / 10) == [DigitChar(n / 10)];
    }
  }

  /** An unpadded month and its dash are one `%m` token. */
  lemma ShortMonthToken(month: int, rest: string)
    requires 1 <= month <= 12
    ensures MonthThenDash(DecimalText(month) + "-" + rest) == Some((month, rest))
  {
    ShortTwo(month);
    var t := DecimalText(month) + "-" + rest;
    if month < 10 {
      assert t[2..] == rest;
    } else {
      assert t[3..] == rest;
    }
  }

  /** An unpadded day is one `%d` token. */
  lemma ShortDayToken(day: int)
    requires 1 <= day <= 31
    ensures DayToEnd(DecimalText(day)) == Some(day)
  {
    ShortTwo(day);
    var t := DecimalText(day);
    if day < 10 {
      assert |t| == 1 && IsNonZeroDigit(t[0]) && DigitValue(t[0]) == day;
    } else {
      assert |t| == 2 && DigitValue(t[0]) == day / 10 && DigitValue(t[1]) == day % 10;
      assert t[0] == '3' ==> t[1] == '0' || t[1] == '1';
    }
  }

  /** The accepted language is wider than the canonical layout: month and
      day may also be written without their leading zero. */
  lemma ParseUnpaddedDate(d: Date)
    requires ValidDate(d)
    ensures ParseDate(Pad(d.year, 4) + "-" + DecimalText(d.month) + "-" + DecimalText(d.day)) == Some(d)
  {
    var dd := DecimalText(d.day);
    PadValue(d.year, 4);
    ShortMonthToken(d.month, dd);
    ShortDayToken(d.day);
    ParseDateParts(Pad(d.year, 4), DecimalText(d.month), dd, d);
  }

  /** A four-digit year, a `%m` token with its dash and a `%d` token make a
      date text that parses to the date they spell. */
  lemma ParseDateParts(y: string, monthText: string, dayText: string, d: Date)
    requires |y| == 4 && AllDigits(y) && DigitsValue(y) == d.year && ValidDate(d)
    requires MonthThenDash(monthText + "-" + dayText) == Some((d.month, dayText))
    requires DayToEnd(dayText) == Some(d.day)
    ensures ParseDate(y + "-" + monthText + "-" + dayText) == Some(d)
  {
    var s := y + "-" + monthText + "-" + dayText;
    assert s[..4] == y && s[4] == '-';
    assert s[5..] == monthText + "-" + dayText;
  }

  /** A padded hour and its colon are one `%H` token. */
  lemma HourToken(hour: int, rest: string)
    requires 0 <= hour < 24
    ensures HourThenColon(Pad(hour, 2) + ":" + rest) == Some((hour, rest))
  {
    PadTwo(hour);
    var t := Pad(hour, 2) + ":" + rest;
    assert t[3..] == rest;
  }

  /** A padded minute is one `%M` token. */
  lemma MinuteToken(minute: int)
    requires 0 <= minute < 60
    ensures MinuteToEnd(Pad(minute, 2)) == Some(minute)
  {
    PadTwo(minute);
  }

  /** Every real time, written canonically, parses back to itself. */
  lemma ParseFormatTime(t: Time)
    requires ValidTime(t)
    ensures ParseTime(FormatTime(t)) == Some(t)
  {
    HourToken(t.hour, Pad(t.minute, 2));
    MinuteToken(t.minute);
  }

  /** On canonical text the parser accepts exactly hours below 24 and
      minutes below 60. */
  lemma ParseCanonicalTime(s: string)
    requires CanonicalTimeText(s)
    ensures ParseTime(s) == (if ValidTime(SpelledTime(s)) then Some(SpelledTime(s)) else None)
  {
    TwoDigitsValue(s[..2]);
    TwoDigitsValue(s[3..]);
  }

  /** Formatting a time parsed from canonical text gives the text back. */
  lemma FormatParsedTime(s: string)
    requires CanonicalTimeText(s) && ParseTime(s).Some?
    ensures FormatTime(ParseTime(s).value) == s
  {
    ParseCanonicalTime(s);
    ValuePad(s[..2]);
    ValuePad(s[3..]);
    assert s == s[..2] + ":" + s[3..];
  }

  /** Hour and minute may also be written as one digit. */
  lemma ParseUnpaddedTime(t: Time)
    requires ValidTime(t)
    ensures ParseTime(DecimalText(t.hour) + ":" + DecimalText(t.minute)) == Some(t)
  {
    var h, m := DecimalText(t.hour), DecimalText(t.minute);
    DecimalTextValue(t.hour);
    DecimalTextValue(t.minute);
    if |h| == 2 {
      TwoDigitsValue(h);
      assert (h + ":" + m)[3..] == m;
    } else {
      assert (h + ":" + m)[2..] == m;
    }
    if |m| == 2 {
      TwoDigitsValue(m);
    }
  }

  /** The texts a two-digit directive (`%m`, `%H`, `%M`) accepts for `n`:
      zero-padded to two digits, or without the leading zero. */
  predicate SpellsNumber(t: string, n: nat) {
    t == Pad(n, 2) || t == DecimalText(n)
  }

  /** The texts `%d` accepts for a day: those of `SpellsNumber`, and a day
      below 10 also after one space instead of a zero. */
  predicate SpellsDay(t: string, n: nat) {
    SpellsNumber(t, n) || (n < 10 && t == " " + DecimalText(n))
  }

  /** `d` is a real date and `s` is one of the texts `%Y-%m-%d` reads as it:
      the four-digit year, a dash, a month spelling, a dash, a day spelling. */
  ghost predicate SpellsDate(s: string, d: Date) {
    ValidDate(d)
    && exists monthText, dayText ::
         SpellsNumber(monthText, d.month) && SpellsDay(dayText, d.day)
         && s == Pad(d.year, 4) + "-" + monthText + "-" + dayText
  }

  /** `t` is a real time and `s` is one of the texts `%H:%M` reads as it. */
  ghost predicate SpellsTime(s: string, t: Time) {
    ValidTime(t)
    && exists hourText, minuteText ::
         SpellsNumber(hourText, t.hour) && SpellsNumber(minuteText, t.minute)
         && s == hourText + ":" + minuteText
  }

  /** A `%m` token that `MonthThenDash` reads is a spelling of its month. */
  lemma MonthTokenText(t: string) returns (monthText: string)
    requires MonthThenDash(t).Some?
    ensures SpellsNumber(monthText, MonthThenDash(t).value.0)
    ensures t == monthText + "-" + MonthThenDash(t).value.1
  {
    if |t| >= 3 && t[2] == '-' && ((t[0] == '1' && '0' <= t[1] <= '2') || (t[0] == '0' && IsNonZeroDigit(t[1]))) {
      monthText := t[..2];
      PadTwoDigits(t[0], t[1]);
      assert t == t[..2] + "-" + t[3..];
    } else {
      monthText := t[..1];
      DecimalDigit(t[0]);
      assert t == t[..1] + "-" + t[2..];
    }
  }

  /** A `%d` token that `DayToEnd` reads is a spelling of its day. */
  lemma DayTokenText(t: string)
    requires DayToEnd(t).Some?
    ensures SpellsDay(t, DayToEnd(t).value)
  {
    if |t| == 1 {
      DecimalDigit(t[0]);
    } else if t[0] == ' ' {
      DecimalDigit(t[1]);
      assert t == " " + [t[1]];
    } else if t[0] == '0' {
      PadTwoDigits(t[0], t[1]);
      assert TwoDigits(t[0], t[1]) == DigitValue(t[1]);
    } else {
      PadTwoDigits(t[0], t[1]);
    }
  }

  /** A day below 10 after one space is one `%d` token. */
  lemma SpaceDayToken(day: int)
    requires 1 <= day <= 9
    ensures DayToEnd(" " + DecimalText(day)) == Some(day)
  {
  }

  /** What `%Y-%m-%d` accepts is a spelling of the date it yields. */
  lemma ParsedDateSpelling(s: string)
    requires ParseDate(s).Some?
    ensures SpellsDate(s, ParseDate(s).value)
  {
    var d := ParseDate(s).value;
    var monthText := MonthTokenText(s[5..]);
    var dayText := MonthThenDash(s[5..]).value.1;
    DayTokenText(dayText);
    ValuePad(s[..4]);
    assert s == s[..4] + "-" + s[5..];
    assert s == Pad(d.year, 4) + "-" + monthText + "-" + dayText;
  }

  /** Every spelling of a real date parses to that date. */
  lemma SpelledDateParses(s: string, d: Date)
    requires SpellsDate(s, d)
    ensures ParseDate(s) == Some(d)
  {
    var monthText, dayText :|
      SpellsNumber(monthText, d.month) && SpellsDay(dayText, d.day)
      && s == Pad(d.year, 4) + "-" + monthText + "-" + dayText;
    if monthText == Pad(d.month, 2) {
      MonthToken(d.month, dayText);
    } else {
      ShortMonthToken(d.month, dayText);
    }
    if dayText == Pad(d.day, 2) {
      DayToken(d.day);
    } else if dayText == DecimalText(d.day) {
      ShortDayToken(d.day);
    } else {
      SpaceDayToken(d.day);
    }
    PadValue(d.year, 4);
    ParseDateParts(Pad(d.year, 4), monthText, dayText, d);
  }

  /** The `%Y-%m-%d` parser accepts exactly the spellings of real dates, and
      reads each as the date it spells. The right-to-left half is the
      rejection: text that spells no real date (a letter in a field, a third
      digit, a missing dash, 30 February) yields `None`. */
  lemma ParseDateSpelling(s: string, d: Date)
    ensures ParseDate(s) == Some(d) <==> SpellsDate(s, d)
  {
    if ParseDate(s) == Some(d) {
      ParsedDateSpelling(s);
    }
    if SpellsDate(s, d) {
      SpelledDateParses(s, d);
    }
  }

  /** A `%H` token that `HourThenColon` reads is a spelling of its hour. */
  lemma HourTokenText(t: string) returns (hourText: string)
    requires HourThenColon(t).Some?
    ensures SpellsNumber(hourText, HourThenColon(t).value.0)
    ensures t == hourText + ":" + HourThenColon(t).value.1
  {
    if |t| >= 3 && t[2] == ':' && ((t[0] == '2' && '0' <= t[1] <= '3') || ((t[0] == '0' || t[0] == '1') && IsDigit(t[1]))) {
      hourText := t[..2];
      PadTwoDigits(t[0], t[1]);
      assert t == t[..2] + ":" + t[3..];
    } else {
      hourText := t[..1];
      DecimalDigit(t[0]);
      assert t == t[..1] + ":" + t[2..];
    }
  }

  /** A `%M` token that `MinuteToEnd` reads is a spelling of its minute. */
  lemma MinuteTokenText(t: string)
    requires MinuteToEnd(t).Some?
    ensures SpellsNumber(t, MinuteToEnd(t).value)
  {
    if |t| == 2 {
      PadTwoDigits(t[0], t[1]);
    } else {
      DecimalDigit(t[0]);
    }
  }

  /** An unpadded hour and its colon are one `%H` token. */
  lemma ShortHourToken(hour: int, rest: string)
    requires 0 <= hour < 24
    ensures HourThenColon(DecimalText(hour) + ":" + rest) == Some((hour, rest))
  {
    ShortTwo(hour);
    var t := DecimalText(hour) + ":" + rest;
    if hour < 10 {
      assert t[2..] == rest;
    } else {
      assert t[3..] == rest;
    }
  }

  /** An unpadded minute is one `%M` token. */
  lemma ShortMinuteToken(minute: int)
    requires 0 <= minute < 60
    ensures MinuteToEnd(DecimalText(minute)) == Some(minute)
  {
    ShortTwo(minute);
  }

  /** What `%H:%M` accepts is a spelling of the time it yields. */
  lemma ParsedTimeSpelling(s: string)
    requires ParseTime(s).Some?
    ensures SpellsTime(s, ParseTime(s).value)
  {
    var hourText := HourTokenText(s);
    var minuteText := HourThenColon(s).value.1;
    MinuteTokenText(minuteText);
    assert s == hourText + ":" + minuteText;
  }

  /** Every spelling of a real time parses to that time. */
  lemma SpelledTimeParses(s: string, t: Time)
    requires SpellsTime(s, t)
    ensures ParseTime(s) == Some(t)
  {
    var hourText, minuteText :|
      SpellsNumber(hourText, t.hour) && SpellsNumber(minuteText, t.minute)
      && s == hourText + ":" + minuteText;
    if hourText == Pad(t.hour, 2) {
      HourToken(t.hour, minuteText);
    } else {
      ShortHourToken(t.hour, minuteText);
    }
    if minuteText == Pad(t.minute, 2) {
      MinuteToken(t.minute);
    } else {
      ShortMinuteToken(t.minute);
    }
  }

  /** The `%H:%M` parser accepts exactly the spellings of real times, with
      hour and minute each padded or not, and reads each as the time it
      spells; any other text (hour 24, minute 60, `9:5x`) yields `None`. */
  lemma ParseTimeSpelling(s: string, t: Time)
    ensures ParseTime(s) == Some(t) <==> SpellsTime(s, t)
  {
    if ParseTime(s) == Some(t) {
      ParsedTimeSpelling(s);
    }
    if SpellsTime(s, t) {
      SpelledTimeParses(s, t);
    }
  }
}
