/** Calendar dates as the console stores them: strings in the extended
    calendar-date form `YYYY-MM-DD` of ISO 8601:2004, section 4.1.2.2.

    JavaScript parses a date-only string of that form as midnight UTC, so
    `new Date(s).getTime()` is the day number of the date times the length of
    a day in milliseconds, and `toISOString().split('T')[0]` of a midnight
    instant gives back that date. UTC has no daylight saving, so adding
    `n * 86 400 000` milliseconds lands exactly `n` civil days later. The
    calendar is the proleptic Gregorian one, as in ECMAScript. */
module CivilDate {
  import opened Text
  import opened Wrappers

  datatype Date = Date(year: int, month: int, day: int)

  const MsPerDay: int := 24 * 60 * 60 * 1000

  /** Days from 0000-01-01 to 1970-01-01, the ECMAScript time origin. */
  const UnixEpochDay: int := 719528

  predicate IsLeapYear(y: int)
  {
    y % 4 == 0 && (y % 100 != 0 || y % 400 == 0)
  }

  function YearLength(y: int): int
  {
    if IsLeapYear(y) then 366 else 365
  }

  function DaysInMonth(y: int, m: int): int
    requires 1 <= m <= 12
  {
    if m == 2 then (if IsLeapYear(y) then 29 else 28)
    else if m == 4 || m == 6 || m == 9 || m == 11 then 30
    else 31
  }

  /** A real day of the calendar: month 1..12, day within that month. */
  predicate IsCalendarDate(d: Date)
  {
    1 <= d.month <= 12 && 1 <= d.day <= DaysInMonth(d.year, d.month)
  }

  /** A calendar date whose year has four digits, so `YYYY-MM-DD` can hold it. */
  predicate InIsoRange(d: Date)
  {
    IsCalendarDate(d) && 0 <= d.year <= 9999
  }

  /** The number of leap years in [0, y) (negative for y < 0). */
  function LeapYearsBefore(y: int): int
  {
    (y + 3) / 4 - (y + 99) / 100 + (y + 399) / 400
  }

  /** Days from 0000-01-01 to the first of January of year y. */
  function DaysBeforeYear(y: int): int
  {
    365 * y + LeapYearsBefore(y)
  }

  /** Days from the first of January to the first of month m of year y. */
  function DaysBeforeMonth(y: int, m: int): int
    requires 1 <= m <= 12
  {
    [0, 31, 59, 90, 120, 151, 181, 212, 243, 273, 304, 334][m - 1]
      + (if m > 2 && IsLeapYear(y) then 1 else 0)
  }

  /** Days since 1970-01-01 (negative before it). */
  function DayNumber(d: Date): int
    requires IsCalendarDate(d)
  {
    DaysBeforeYear(d.year) + DaysBeforeMonth(d.year, d.month) + d.day - 1 - UnixEpochDay
  }

  /** `new Date(iso).getTime()` for a date-only string: midnight UTC of that day. */
  function EpochMs(d: Date): int
    requires IsCalendarDate(d)
  {
    DayNumber(d) * MsPerDay
  }

  /** A date-only string denotes a midnight: a whole number of days since the epoch. */
  lemma EpochMsMidnight(d: Date)
    requires IsCalendarDate(d)
    ensures EpochMs(d) % MsPerDay == 0
    ensures EpochMs(d) / MsPerDay == DayNumber(d)
  {
    WholeDays(DayNumber(d));
  }

  lemma WholeDays(k: int)
    ensures (k * MsPerDay) % MsPerDay == 0 && (k * MsPerDay) / MsPerDay == k
  {
    var e := k * MsPerDay;
    assert e == MsPerDay * (e / MsPerDay) + e % MsPerDay;
    assert MsPerDay * (k - e / MsPerDay) == e % MsPerDay;
  }

  /** Each of the three counts in LeapYearsBefore grows by one exactly at a multiple of its divisor. */
  lemma Step4(y: int)
    ensures (y + 4) / 4 - (y + 3) / 4 == if y % 4 == 0 then 1 else 0
  {
    assert y == 4 * (y / 4) + y % 4;
  }

  lemma Step100(y: int)
    ensures (y + 100) / 100 - (y + 99) / 100 == if y % 100 == 0 then 1 else 0
  {
    assert y == 100 * (y / 100) + y % 100;
  }

  lemma Step400(y: int)
    ensures (y + 400) / 400 - (y + 399) / 400 == if y % 400 == 0 then 1 else 0
  {
    assert y == 400 * (y / 400) + y % 400;
  }

  lemma Multiple400(y: int)
    requires y % 400 == 0
    ensures y % 100 == 0
  {
    assert y == 100 * (4 * (y / 400));
  }

  lemma Multiple100(y: int)
    requires y % 100 == 0
    ensures y % 4 == 0
  {
    assert y == 4 * (25 * (y / 100));
  }

  lemma YearStep(y: int)
    ensures DaysBeforeYear(y + 1) == DaysBeforeYear(y) + YearLength(y)
  {
    Step4(y);
    Step100(y);
    Step400(y);
    if y % 400 == 0 {
      Multiple400(y);
    }
    if y % 100 == 0 {
      Multiple100(y);
    }
    var d4 := if y % 4 == 0 then 1 else 0;
    var d100 := if y % 100 == 0 then 1 else 0;
    var d400 := if y % 400 == 0 then 1 else 0;
    assert LeapYearsBefore(y + 1) == LeapYearsBefore(y) + d4 - d100 + d400;
    assert YearLength(y) == 365 + d4 - d100 + d400;
  }

  lemma MonthStep(y: int, m: int)
    requires 1 <= m <= 12
    ensures m < 12 ==> DaysBeforeMonth(y, m + 1) == DaysBeforeMonth(y, m) + DaysInMonth(y, m)
    ensures m == 12 ==> DaysBeforeMonth(y, m) + DaysInMonth(y, m) == YearLength(y)
  {
  }

  /** The day after a calendar date. */
  function NextDay(d: Date): (r: Date)
    requires IsCalendarDate(d)
    ensures IsCalendarDate(r) && DayNumber(r) == DayNumber(d) + 1
    ensures d.year <= r.year
  {
    MonthStep(d.year, d.month);
    YearStep(d.year);
    if d.day < DaysInMonth(d.year, d.month) then d.(day := d.day + 1)
    else if d.month < 12 then Date(d.year, d.month + 1, 1)
    else Date(d.year + 1, 1, 1)
  }

  /** The day before a calendar date. */
  function PrevDay(d: Date): (r: Date)
    requires IsCalendarDate(d)
    ensures IsCalendarDate(r) && DayNumber(r) == DayNumber(d) - 1
  {
    if d.day > 1 then d.(day := d.day - 1)
    else if d.month > 1 then
      MonthStep(d.year, d.month - 1);
      Date(d.year, d.month - 1, DaysInMonth(d.year, d.month - 1))
    else
      MonthStep(d.year - 1, 12);
      YearStep(d.year - 1);
      Date(d.year - 1, 12, 31)
  }

  /** The date `n` days later, by stepping one civil day at a time. */
  function AddDays(d: Date, n: nat): (r: Date)
    requires IsCalendarDate(d)
    ensures IsCalendarDate(r) && DayNumber(r) == DayNumber(d) + n
    ensures d.year <= r.year
    decreases n
  {
    if n == 0 then d else AddDays(NextDay(d), n - 1)
  }

  lemma {:induction false} DaysBeforeYearMonotone(a: int, b: int)
    requires a <= b
    ensures DaysBeforeYear(a) + (b - a) * 365 <= DaysBeforeYear(b)
    decreases b - a
  {
    if a < b {
      DaysBeforeYearMonotone(a, b - 1);
      YearStep(b - 1);
    }
  }

  lemma {:induction false} DaysBeforeMonthMonotone(y: int, a: int, b: int)
    requires 1 <= a < b <= 12
    ensures DaysBeforeMonth(y, a) + DaysInMonth(y, a) <= DaysBeforeMonth(y, b)
    decreases b - a
  {
    MonthStep(y, a);
    if a + 1 < b {
      DaysBeforeMonthMonotone(y, a + 1, b);
    }
  }

  /** A date's offset into its year lies within the year. */
  lemma DayOfYearBounds(d: Date)
    requires IsCalendarDate(d)
    ensures 0 <= DaysBeforeMonth(d.year, d.month) + d.day - 1 < YearLength(d.year)
  {
    if d.month < 12 {
      DaysBeforeMonthMonotone(d.year, d.month, 12);
    }
    MonthStep(d.year, 12);
  }

  /** A date in an earlier year has a smaller day number. */
  lemma DayNumberOrderedYears(d: Date, e: Date)
    requires IsCalendarDate(d) && IsCalendarDate(e) && d.year < e.year
    ensures DayNumber(d) < DayNumber(e)
  {
    DayOfYearBounds(d);
    DayOfYearBounds(e);
    YearStep(d.year);
    DaysBeforeYearMonotone(d.year + 1, e.year);
    var start := DaysBeforeYear(d.year + 1);
    assert DaysBeforeYear(d.year) + DaysBeforeMonth(d.year, d.month) + d.day - 1 < start;
    assert start <= DaysBeforeYear(e.year);
  }

  /** Earlier dates have smaller day numbers. */
  lemma DayNumberOrdered(d: Date, e: Date)
    requires IsCalendarDate(d) && IsCalendarDate(e)
    requires d.year < e.year || (d.year == e.year && d.month < e.month)
          || (d.year == e.year && d.month == e.month && d.day < e.day)
    ensures DayNumber(d) < DayNumber(e)
  {
    if d.year < e.year {
      DayNumberOrderedYears(d, e);
    } else if d.month < e.month {
      DaysBeforeMonthMonotone(d.year, d.month, e.month);
    }
  }

  /** The civil date of a day number is unique, so a midnight instant has one ISO rendering. */
  lemma DayNumberInjective(d: Date, e: Date)
    requires IsCalendarDate(d) && IsCalendarDate(e)
    requires DayNumber(d) == DayNumber(e)
    ensures d == e
  {
    if d.year < e.year || (d.year == e.year && d.month < e.month)
       || (d.year == e.year && d.month == e.month && d.day < e.day) {
      DayNumberOrdered(d, e);
    } else if e.year < d.year || (e.year == d.year && e.month < d.month)
       || (e.year == d.year && e.month == d.month && e.day < d.day) {
      DayNumberOrdered(e, d);
    }
  }

  /** Shifting by a days and then by b days is shifting by a + b days. */
  lemma AddDaysAdditive(d: Date, a: nat, b: nat)
    requires IsCalendarDate(d)
    ensures AddDays(AddDays(d, a), b) == AddDays(d, a + b)
  {
    DayNumberInjective(AddDays(AddDays(d, a), b), AddDays(d, a + b));
  }

  /** `toISOString().split('T')[0]` of midnight UTC of a date with a four-digit year. */
  function FormatIso(d: Date): (s: string)
    requires InIsoRange(d)
    ensures |s| == 10 && s[4] == '-' && s[7] == '-'
  {
    Digits(d.year, 4) + "-" + Digits(d.month, 2) + "-" + Digits(d.day, 2)
  }

  /** Reading a `YYYY-MM-DD` string as a calendar date; anything else is unparsable. */
  function ParseIso(s: string): (r: Option<Date>)
    ensures r.Some? ==> InIsoRange(r.value)
  {
    if |s| == 10 && s[4] == '-' && s[7] == '-'
       && AllDigits(s[..4]) && AllDigits(s[5..7]) && AllDigits(s[8..]) then
      var d := Date(ParseDigits(s[..4]), ParseDigits(s[5..7]), ParseDigits(s[8..]));
      if IsCalendarDate(d) then Some(d) else None
    else None
  }

  lemma IsoPieces(s: string, y: string, m: string, d: string)
    requires |y| == 4 && |m| == 2 && |d| == 2 && s == y + "-" + m + "-" + d
    ensures s[..4] == y && s[5..7] == m && s[8..] == d && s[4] == '-' && s[7] == '-'
  {
  }

  /** Formatting a date and parsing the text gives the date back. */
  lemma ParseFormatIso(d: Date)
    requires InIsoRange(d)
    ensures ParseIso(FormatIso(d)) == Some(d)
  {
    assert Pow10(2) == 100 && Pow10(4) == 10000;
    DigitsRoundTrip(d.year, 4);
    DigitsRoundTrip(d.month, 2);
    DigitsRoundTrip(d.day, 2);
    IsoPieces(FormatIso(d), Digits(d.year, 4), Digits(d.month, 2), Digits(d.day, 2));
  }

  /** A string that parses is exactly the formatting of its date: the form is canonical. */
  lemma FormatParseIso(s: string)
    requires ParseIso(s).Some?
    ensures FormatIso(ParseIso(s).value) == s
  {
    var y, m, dd := s[..4], s[5..7], s[8..];
    var d := ParseIsoParts(s);
    ParseDigitsRoundTrip(y);
    ParseDigitsRoundTrip(m);
    ParseDigitsRoundTrip(dd);
    IsoJoin(s);
  }

  /** A ten-character text with '-' at positions 4 and 7 is its three fields joined by '-'. */
  lemma IsoJoin(s: string)
    requires |s| == 10 && s[4] == '-' && s[7] == '-'
    ensures s == s[..4] + "-" + s[5..7] + "-" + s[8..]
  {
  }

  /** What a successful parse reads from each field of the text. */
  lemma ParseIsoParts(s: string) returns (d: Date)
    requires ParseIso(s).Some?
    ensures d == ParseIso(s).value && InIsoRange(d)
    ensures |s| == 10 && s[4] == '-' && s[7] == '-'
    ensures AllDigits(s[..4]) && AllDigits(s[5..7]) && AllDigits(s[8..])
    ensures d == Date(ParseDigits(s[..4]), ParseDigits(s[5..7]), ParseDigits(s[8..]))
  {
    d := ParseIso(s).value;
  }

  datatype DateError =
    | Unparsable     // `new Date(s)` is an Invalid Date and `toISOString` throws
    | BeyondYear9999 // the result needs the expanded-year form, which this model does not produce

  /** `new Date(new Date(s).getTime() + days * MsPerDay).toISOString().split('T')[0]`. */
  function ShiftIsoDate(s: string, days: nat): (r: Result<string, DateError>)
    ensures ParseIso(s).None? ==> r == Err(Unparsable)
    ensures ParseIso(s).Some? ==> (r.Ok? <==> AddDays(ParseIso(s).value, days).year <= 9999)
    ensures r.Ok? ==>
              && ParseIso(r.value).Some?
              && DayNumber(ParseIso(r.value).value) == DayNumber(ParseIso(s).value) + days
  {
    match ParseIso(s)
    case None => Err(Unparsable)
    case Some(d) =>
      var e := AddDays(d, days);
      if e.year <= 9999 then
        ParseFormatIso(e);
        Ok(FormatIso(e))
      else Err(BeyondYear9999)
  }

  /** `n` days later is `n * MsPerDay` milliseconds later. */
  lemma EpochMsShift(d: Date, e: Date, n: int)
    requires IsCalendarDate(d) && IsCalendarDate(e) && DayNumber(e) == DayNumber(d) + n
    ensures EpochMs(e) == EpochMs(d) + n * MsPerDay
  {
    calc {
      EpochMs(e);
      (DayNumber(d) + n) * MsPerDay;
      DayNumber(d) * MsPerDay + n * MsPerDay;
    }
  }

  /** The shifted text denotes the instant `days * MsPerDay` milliseconds later. */
  lemma ShiftIsoDateMs(s: string, days: nat)
    requires ShiftIsoDate(s, days).Ok?
    ensures EpochMs(ParseIso(ShiftIsoDate(s, days).value).value) == EpochMs(ParseIso(s).value) + days * MsPerDay
  {
    EpochMsShift(ParseIso(s).value, ParseIso(ShiftIsoDate(s, days).value).value, days);
  }

  /** A shift that stays within four-digit years is the text of the shifted date. */
  lemma ShiftOk(s: string, days: nat)
    requires ParseIso(s).Some? && AddDays(ParseIso(s).value, days).year <= 9999
    ensures ShiftIsoDate(s, days) == Ok(FormatIso(AddDays(ParseIso(s).value, days)))
  {
  }

  /** A shift succeeds only on a parsable date that stays within four-digit years. */
  lemma ShiftDefined(s: string, days: nat)
    requires ShiftIsoDate(s, days).Ok?
    ensures ParseIso(s).Some? && AddDays(ParseIso(s).value, days).year <= 9999
  {
  }

  lemma FormatShiftedParses(d: Date, days: nat)
    requires InIsoRange(d) && AddDays(d, days).year <= 9999
    ensures ParseIso(FormatIso(AddDays(d, days))) == Some(AddDays(d, days))
  {
    ParseFormatIso(AddDays(d, days));
  }

  /** The text a shift produces parses back to the shifted date. */
  lemma ShiftParses(s: string, days: nat)
    requires ShiftIsoDate(s, days).Ok?
    ensures ParseIso(ShiftIsoDate(s, days).value) == Some(AddDays(ParseIso(s).value, days))
  {
    ShiftDefined(s, days);
    ShiftOk(s, days);
    FormatShiftedParses(ParseIso(s).value, days);
  }

  /** Shifting by a days and then by b days is shifting by a + b days, text to text. */
  lemma ShiftTwice(s: string, a: nat, b: nat)
    requires ShiftIsoDate(s, a).Ok? && ShiftIsoDate(ShiftIsoDate(s, a).value, b).Ok?
    ensures ShiftIsoDate(s, a + b) == ShiftIsoDate(ShiftIsoDate(s, a).value, b)
  {
    var d := ParseIso(s).value;
    var t := ShiftIsoDate(s, a).value;
    ShiftParses(s, a);
    AddDaysAdditive(d, a, b);
    ShiftDefined(t, b);
    ShiftOk(t, b);
    ShiftOk(s, a + b);
  }

  /** When `e` is `days` days after `d`, shifting the text of `d` gives the text of `e`. */
  lemma ShiftBetween(d: Date, days: nat, e: Date)
    requires InIsoRange(d) && InIsoRange(e) && DayNumber(e) == DayNumber(d) + days
    ensures ShiftIsoDate(FormatIso(d), days) == Ok(FormatIso(e))
  {
    ParseFormatIso(d);
    DayNumberInjective(AddDays(d, days), e);
  }

  /** Shifting the text of a date is the text of the shifted date. */
  lemma ShiftFormatted(d: Date, days: nat)
    requires InIsoRange(d) && AddDays(d, days).year <= 9999
    ensures ShiftIsoDate(FormatIso(d), days) == Ok(FormatIso(AddDays(d, days)))
  {
    ShiftBetween(d, days, AddDays(d, days));
  }

  /** The digits of the year 2024 and of the month and day numbers the examples use, one digit at a time. */
  lemma ExampleDigits()
    ensures Digits(2024, 4) == "2024"
    ensures Digits(1, 2) == "01" && Digits(3, 2) == "03" && Digits(6, 2) == "06" && Digits(31, 2) == "31"
  {
    assert Digits(2, 1) == "2";
    assert Digits(20, 2) == "20";
    assert Digits(202, 3) == "202";
    assert Digits(0, 1) == "0";
    assert Digits(3, 1) == "3";
    assert Digits(6, 2) == Digits(0, 1) + ['6'];
  }

  lemma FormatJan1() ensures FormatIso(Date(2024, 1, 1)) == "2024-01-01"
  {
    ExampleDigits();
  }

  lemma FormatJan31() ensures FormatIso(Date(2024, 1, 31)) == "2024-01-31"
  {
    ExampleDigits();
  }

  lemma FormatMar1() ensures FormatIso(Date(2024, 3, 1)) == "2024-03-01"
  {
    ExampleDigits();
  }

  lemma FormatJun1() ensures FormatIso(Date(2024, 6, 1)) == "2024-06-01"
  {
    ExampleDigits();
  }

  /** Two renewals from 2024-01-01: thirty days reach 2024-01-31 ... */
  lemma ShiftExampleJanuary()
    ensures ShiftIsoDate("2024-01-01", 30) == Ok("2024-01-31")
  {
    FormatJan1();
    FormatJan31();
    ShiftBetween(Date(2024, 1, 1), 30, Date(2024, 1, 31));
  }

  /** ... and thirty more cross the 29-day February of the leap year 2024 to 2024-03-01. */
  lemma ShiftExampleFebruary()
    ensures ShiftIsoDate("2024-01-31", 30) == Ok("2024-03-01")
  {
    FormatJan31();
    FormatMar1();
    assert DaysBeforeMonth(2024, 3) == 60;
    ShiftBetween(Date(2024, 1, 31), 30, Date(2024, 3, 1));
  }
}
