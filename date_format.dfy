/**
 * Date reformatting for the upstream API: a caller's `YYYY-MM-DD` becomes the portal's
 * `DD.MM.YYYY`, and anything that does not parse as a real calendar date becomes absent.
 * Parsing follows Python's `datetime.strptime(s, "%Y-%m-%d")` lexically: `%Y` is four digits,
 * `%m` is one of `1[0-2]`, `0[1-9]`, `[1-9]`, `%d` is one of `3[01]`, `[12][0-9]`, `0[1-9]`,
 * `[1-9]`, ` [1-9]` (a space before a single digit), and the whole string must be consumed.
 */
module DateFormat {
  import opened Wrappers
  import opened Decimal

  datatype Date = Date(year: int, month: int, day: int)

  predicate IsLeapYear(y: int)
  {
    y % 4 == 0 && (y % 100 != 0 || y % 400 == 0)
  }

  function DaysInMonth(y: int, m: int): (n: int)
    requires 1 <= m <= 12
    ensures 28 <= n <= 31
    ensures m == 2 ==> (n == 29 <==> IsLeapYear(y))
  {
    if m == 2 then (if IsLeapYear(y) then 29 else 28)
    else if m == 4 || m == 6 || m == 9 || m == 11 then 30
    else 31
  }

  /** What `datetime(year, month, day)` accepts: years 1..9999 and a day that exists in the month. */
  predicate ValidDate(d: Date)
  {
    1 <= d.year <= 9999 && 1 <= d.month <= 12 && 1 <= d.day <= DaysInMonth(d.year, d.month)
  }

  /** The `%m` field: `1[0-2]`, `0[1-9]` or `[1-9]`. */
  function MonthField(t: string): (r: Option<int>)
    ensures r.Some? ==> 1 <= r.value <= 12
  {
    if |t| == 1 && '1' <= t[0] <= '9' then Some(DigitValue(t[0]))
    else if |t| == 2 && t[0] == '0' && '1' <= t[1] <= '9' then Some(DigitValue(t[1]))
    else if |t| == 2 && t[0] == '1' && '0' <= t[1] <= '2' then Some(10 + DigitValue(t[1]))
    else None
  }

  /** The `%d` field: `3[01]`, `[12][0-9]`, `0[1-9]`, `[1-9]` or a space and `[1-9]`. */
  function DayField(t: string): (r: Option<int>)
    ensures r.Some? ==> 1 <= r.value <= 31
  {
    if |t| == 1 && '1' <= t[0] <= '9' then Some(DigitValue(t[0]))
    else if |t| == 2 && (t[0] == '0' || t[0] == ' ') && '1' <= t[1] <= '9' then Some(DigitValue(t[1]))
    else if |t| == 2 && '1' <= t[0] <= '2' && IsDigit(t[1]) then Some(10 * DigitValue(t[0]) + DigitValue(t[1]))
    else if |t| == 2 && t[0] == '3' && '0' <= t[1] <= '1' then Some(30 + DigitValue(t[1]))
    else None
  }

  /**
   * `strptime(s, "%Y-%m-%d")`: `Some(date)` when `s` matches the pattern in full and names a
   * valid calendar date, `None` where Python raises `ValueError`.
   */
  function ParseIsoDate(s: string): (r: Option<Date>)
    ensures r.Some? ==> ValidDate(r.value)
  {
    if |s| < 7 || !AllDigits(s[..4]) || s[4] != '-' then None
    else
      var rest := s[5..];
      // The month field is one or two characters long; the '-' after it decides which.
      var k := if rest[1] == '-' then 1 else 2;
      if |rest| <= k || rest[k] != '-' then None
      else
        match (MonthField(rest[..k]), DayField(rest[k + 1..]))
        case (Some(m), Some(d)) =>
          var date := Date(DigitsValue(s[..4]), m, d);
          if ValidDate(date) then Some(date) else None
        case _ => None
  }

  /** `strftime("%d.%m.%Y")`. */
  function RenderApiDate(d: Date): (t: string)
    requires ValidDate(d)
    ensures |t| == 10 && t[2] == '.' && t[5] == '.'
  {
    Digits(d.day, 2) + "." + Digits(d.month, 2) + "." + Digits(d.year, 4)
  }

  /** `strftime("%Y-%m-%d")`: the caller's format, with zero padding. */
  function RenderIsoDate(d: Date): (t: string)
    requires ValidDate(d)
    ensures |t| == 10 && t[4] == '-' && t[7] == '-'
  {
    Digits(d.year, 4) + "-" + Digits(d.month, 2) + "-" + Digits(d.day, 2)
  }

  /** Reads the portal's `DD.MM.YYYY` back into a date (used to state what the reformatting keeps). */
  function ParseApiDate(t: string): (r: Option<Date>)
    ensures r.Some? ==> |t| == 10
  {
    if |t| == 10 && t[2] == '.' && t[5] == '.' && AllDigits(t[..2]) && AllDigits(t[3..5]) && AllDigits(t[6..]) then
      Some(Date(DigitsValue(t[6..]), DigitsValue(t[3..5]), DigitsValue(t[..2])))
    else None
  }

  /** `_format_date_for_api`: absent for a missing or empty input and for anything `strptime` rejects. */
  function FormatDateForApi(s: Option<string>): (r: Option<string>)
    ensures r.None? <==> s.None? || s.value == [] || ParseIsoDate(s.value).None?
    ensures r.Some? ==> ParseApiDate(r.value) == ParseIsoDate(s.value)
  {
    if s.None? || s.value == [] then None
    else
      match ParseIsoDate(s.value)
      case Some(d) =>
        ApiDateRoundTrip(d);
        Some(RenderApiDate(d))
      case None => None
  }

  /** The reformatted date keeps its day, month and year. */
  lemma ApiDateRoundTrip(d: Date)
    requires ValidDate(d)
    ensures ParseApiDate(RenderApiDate(d)) == Some(d)
  {
    var t := RenderApiDate(d);
    assert t[..2] == Digits(d.day, 2);
    assert t[3..5] == Digits(d.month, 2);
    assert t[6..] == Digits(d.year, 4);
    DigitsRoundTrip(d.day, 2);
    DigitsRoundTrip(d.month, 2);
    DigitsRoundTrip(d.year, 4);
  }

  /** A zero-padded `YYYY-MM-DD` rendering of a valid date parses back to that date. */
  lemma IsoDateRoundTrip(d: Date)
    requires ValidDate(d)
    ensures ParseIsoDate(RenderIsoDate(d)) == Some(d)
  {
    var s := RenderIsoDate(d);
    assert s[..4] == Digits(d.year, 4);
    var rest := s[5..];
    assert rest[..2] == Digits(d.month, 2);
    assert rest[3..] == Digits(d.day, 2);
    DigitsRoundTrip(d.year, 4);
    DigitsRoundTrip(d.month, 2);
    DigitsRoundTrip(d.day, 2);
    MonthFieldOfDigits(d.month);
    DayFieldOfDigits(d.day);
  }

  /** The two characters `Digits(n, 2)` writes for a number below 100. */
  lemma TwoDigits(n: nat)
    requires n < 100
    ensures Digits(n, 2) == [DigitChar(n / 10), DigitChar(n % 10)]
  {
    assert Digits(n / 10, 1) == Digits(n / 100, 0) + [DigitChar(n / 10 % 10)];
    assert n / 10 % 10 == n / 10;
  }

  lemma MonthFieldOfDigits(m: int)
    requires 1 <= m <= 12
    ensures MonthField(Digits(m, 2)) == Some(m)
  {
    TwoDigits(m);
    var hi, lo := m / 10, m % 10;
    assert m == 10 * hi + lo && 0 <= hi <= 1 && 0 <= lo < 10;
    var t := [DigitChar(hi), DigitChar(lo)];
    assert DigitValue(t[0]) == hi && DigitValue(t[1]) == lo;
    if hi == 0 {
      assert lo >= 1;
      assert MonthField(t) == Some(lo);
    } else {
      assert lo <= 2;
      assert MonthField(t) == Some(10 + lo);
    }
  }

  lemma DayFieldOfDigits(d: int)
    requires 1 <= d <= 31
    ensures DayField(Digits(d, 2)) == Some(d)
  {
    TwoDigits(d);
    var hi, lo := d / 10, d % 10;
    assert d == 10 * hi + lo && 0 <= hi <= 3 && 0 <= lo < 10;
    var t := [DigitChar(hi), DigitChar(lo)];
    assert DigitValue(t[0]) == hi && DigitValue(t[1]) == lo;
    if hi == 0 {
      assert lo >= 1;
      assert DayField(t) == Some(lo);
    } else if hi == 3 {
      assert lo <= 1;
      assert DayField(t) == Some(30 + lo);
    } else {
      assert DayField(t) == Some(10 * hi + lo);
    }
  }

  /** A valid date given as `YYYY-MM-DD` is sent as `DD.MM.YYYY` with the same day, month and year. */
  lemma FormatsValidDate(d: Date)
    requires ValidDate(d)
    ensures FormatDateForApi(Some(RenderIsoDate(d))) == Some(RenderApiDate(d))
  {
    IsoDateRoundTrip(d);
  }

  /** A well-formed `YYYY-MM-DD` naming a day the calendar does not have is dropped. */
  lemma DropsCalendarInvalidDate(d: Date)
    requires 1 <= d.year <= 9999 && 1 <= d.month <= 12 && 1 <= d.day <= 31
    requires d.day > DaysInMonth(d.year, d.month)
    ensures FormatDateForApi(Some(Digits(d.year, 4) + "-" + Digits(d.month, 2) + "-" + Digits(d.day, 2))) == None
  {
    var s := Digits(d.year, 4) + "-" + Digits(d.month, 2) + "-" + Digits(d.day, 2);
    assert s[..4] == Digits(d.year, 4);
    var rest := s[5..];
    assert rest[..2] == Digits(d.month, 2);
    assert rest[3..] == Digits(d.day, 2);
    DigitsRoundTrip(d.year, 4);
    MonthFieldOfDigits(d.month);
    DayFieldOfDigits(d.day);
  }

  /** The fields of 5 January 2025, zero-padded. */
  lemma ExampleFields()
    ensures Digits(2025, 4) == "2025" && Digits(1, 2) == "01" && Digits(5, 2) == "05"
  {
    assert Digits(2, 1) == [] + ['2'];
    assert Digits(20, 2) == "2" + ['0'];
    assert Digits(202, 3) == "20" + ['2'];
    assert Digits(2025, 4) == "202" + ['5'];
    TwoDigits(1);
    TwoDigits(5);
  }

  lemma IsoExample()
    ensures RenderIsoDate(Date(2025, 1, 5)) == "2025-01-05"
  {
    ExampleFields();
  }

  lemma ApiExample()
    ensures RenderApiDate(Date(2025, 1, 5)) == "05.01.2025"
  {
    ExampleFields();
  }

  /** `"2025-01-05"` is sent as `"05.01.2025"`. */
  lemma ExampleValid()
    ensures FormatDateForApi(Some("2025-01-05")) == Some("05.01.2025")
  {
    IsoExample();
    ApiExample();
    FormatsValidDate(Date(2025, 1, 5));
  }

  /** A date already in the portal's order is not a `YYYY-MM-DD` and is dropped. */
  lemma ExampleMalformed()
    ensures FormatDateForApi(Some("05.01.2025")) == None
  {
    assert !IsDigit("05.01.2025"[..4][2]);
  }

  /** Days in the months of year `y` before month `m`. */
  function DaysBeforeMonth(y: int, m: int): (n: int)
    requires 1 <= m <= 12
    ensures n >= 0
  {
    if m == 1 then 0 else DaysBeforeMonth(y, m - 1) + DaysInMonth(y, m - 1)
  }

  function YearLength(y: int): int
  {
    if IsLeapYear(y) then 366 else 365
  }

  /** Days in the years before year `y`, counting from 1 January of year 1. */
  function DaysBeforeYear(y: int): (n: int)
    requires y >= 1
    ensures n >= 365 * (y - 1)
  {
    if y == 1 then 0 else DaysBeforeYear(y - 1) + YearLength(y - 1)
  }

  /** The proleptic Gregorian day number, 1 for 1 January of year 1 (`date.toordinal`). */
  function Ordinal(d: Date): (n: int)
    requires ValidDate(d)
    ensures n >= 365 * (d.year - 1) + 1
  {
    DaysBeforeYear(d.year) + DaysBeforeMonth(d.year, d.month) + d.day
  }

  /** The twelve months make up the year. */
  lemma MonthsFillYear(y: int)
    ensures DaysBeforeMonth(y, 12) + DaysInMonth(y, 12) == YearLength(y)
  {
    assert DaysBeforeMonth(y, 2) == 31;
    assert DaysBeforeMonth(y, 3) == 31 + DaysInMonth(y, 2);
    assert DaysBeforeMonth(y, 4) == DaysBeforeMonth(y, 3) + 31;
    assert DaysBeforeMonth(y, 5) == DaysBeforeMonth(y, 4) + 30;
    assert DaysBeforeMonth(y, 6) == DaysBeforeMonth(y, 5) + 31;
    assert DaysBeforeMonth(y, 7) == DaysBeforeMonth(y, 6) + 30;
    assert DaysBeforeMonth(y, 8) == DaysBeforeMonth(y, 7) + 31;
    assert DaysBeforeMonth(y, 9) == DaysBeforeMonth(y, 8) + 31;
    assert DaysBeforeMonth(y, 10) == DaysBeforeMonth(y, 9) + 30;
    assert DaysBeforeMonth(y, 11) == DaysBeforeMonth(y, 10) + 31;
    assert DaysBeforeMonth(y, 12) == DaysBeforeMonth(y, 11) + 30;
  }

  /** The day before `d`; every date but 1 January of year 1 has one. */
  function PreviousDay(d: Date): (r: Date)
    requires ValidDate(d) && Ordinal(d) > 1
    ensures ValidDate(r) && Ordinal(r) == Ordinal(d) - 1
  {
    if d.day > 1 then
      Date(d.year, d.month, d.day - 1)
    else if d.month > 1 then
      Date(d.year, d.month - 1, DaysInMonth(d.year, d.month - 1))
    else
      MonthsFillYear(d.year - 1);
      Date(d.year - 1, 12, 31)
  }

  /** `d - timedelta(days=n)`, one day at a time. */
  function DaysBefore(d: Date, n: nat): (r: Date)
    requires ValidDate(d) && Ordinal(d) > n
    ensures ValidDate(r) && Ordinal(r) == Ordinal(d) - n
    decreases n
  {
    if n == 0 then d else DaysBefore(PreviousDay(d), n - 1)
  }

  /** Going back a positive number of days gives an earlier date: a different day and a different ISO string. */
  lemma DaysBeforeIsEarlier(d: Date, n: nat)
    requires ValidDate(d) && Ordinal(d) > n && n > 0
    ensures DaysBefore(d, n) != d && RenderIsoDate(DaysBefore(d, n)) != RenderIsoDate(d)
  {
    var r := DaysBefore(d, n);
    IsoDateRoundTrip(r);
    IsoDateRoundTrip(d);
  }

  /** New Year's Eve is one day before New Year's Day, and 2024 is a leap year. */
  lemma DaysBeforeExamples()
    ensures DaysBefore(Date(2025, 1, 1), 1) == Date(2024, 12, 31)
    ensures DaysBefore(Date(2024, 3, 1), 1) == Date(2024, 2, 29)
  {
  }
}
