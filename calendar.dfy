/**
  Proleptic Gregorian dates at minute resolution, as Python's `datetime` holds the
  dates the configuration reader parses, and `strptime(s, '%Y%m%d%H%M')` for the
  12-character strings it accepts.
 */
module Calendar {
  import opened Wrappers
  import opened PyText

  /** A date and time of day, to the minute. */
  datatype DateTime = DateTime(year: int, month: int, day: int, hour: int, minute: int)

  predicate IsLeap(y: int) {
    y % 4 == 0 && (y % 100 != 0 || y % 400 == 0)
  }

  function DaysInMonth(y: int, m: int): (n: int)
    requires 1 <= m <= 12
    ensures 28 <= n <= 31
    ensures m == 2 ==> (n == 29 <==> IsLeap(y))
  {
    if m == 2 then (if IsLeap(y) then 29 else 28)
    else if m == 4 || m == 6 || m == 9 || m == 11 then 30
    else 31
  }

  /** The dates `datetime` can represent: years 1 to 9999 and real calendar days. */
  predicate Valid(d: DateTime) {
    && 1 <= d.year <= 9999
    && 1 <= d.month <= 12
    && 1 <= d.day <= DaysInMonth(d.year, d.month)
    && 0 <= d.hour < 24
    && 0 <= d.minute < 60
  }

  /** The number of days in the years before y, counting from year 1. */
  function DaysBeforeYear(y: int): int
    requires y >= 1
  {
    var p := y - 1;
    p * 365 + p / 4 - p / 100 + p / 400
  }

  /** The number of days in the months of year y before month m. */
  function DaysBeforeMonth(y: int, m: int): int
    requires 1 <= m <= 12
  {
    var table := [0, 31, 59, 90, 120, 151, 181, 212, 243, 273, 304, 334];
    table[m - 1] + (if m > 2 && IsLeap(y) then 1 else 0)
  }

  /** `date.toordinal()`: 0001-01-01 is day 1. */
  function Ordinal(d: DateTime): int
    requires Valid(d)
  {
    DaysBeforeYear(d.year) + DaysBeforeMonth(d.year, d.month) + d.day
  }

  /** Whole minutes since 0001-01-01 00:00. */
  function Minutes(d: DateTime): (m: int)
    requires Valid(d)
    ensures m >= 0
    ensures m / 1440 == Ordinal(d) - 1 && m % 1440 == d.hour * 60 + d.minute
  {
    (Ordinal(d) - 1) * 1440 + d.hour * 60 + d.minute
  }

  /** The minutes of `end - begin`, that is `delta.days * 1440 + delta.seconds / 60`. */
  function SpanMinutes(begin: DateTime, end: DateTime): (m: int)
    requires Valid(begin) && Valid(end)
    ensures m > 0 <==> Before(begin, end)
    ensures m == 0 <==> begin == end
  {
    BeforeIffMinutes(begin, end);
    BeforeIffMinutes(end, begin);
    Minutes(end) - Minutes(begin)
  }

  /** Python's `a < b` on datetimes: the fields compared in order. */
  predicate Before(a: DateTime, b: DateTime): (r: bool)
    ensures r ==> a != b
  {
    || a.year < b.year
    || (a.year == b.year && a.month < b.month)
    || (a.year == b.year && a.month == b.month && a.day < b.day)
    || (a.year == b.year && a.month == b.month && a.day == b.day && a.hour < b.hour)
    || (a.year == b.year && a.month == b.month && a.day == b.day && a.hour == b.hour
        && a.minute < b.minute)
  }

  // ---------------------------------------------------------------------
  // Minute counts agree with the field order
  // ---------------------------------------------------------------------

  /** Going from year y - 1 to y adds one to y / k exactly when k divides y. */
  lemma DivStep4(y: int)
    ensures y / 4 == (y - 1) / 4 + (if y % 4 == 0 then 1 else 0)
  {
  }

  lemma DivStep100(y: int)
    ensures y / 100 == (y - 1) / 100 + (if y % 100 == 0 then 1 else 0)
  {
  }

  lemma DivStep400(y: int)
    ensures y / 400 == (y - 1) / 400 + (if y % 400 == 0 then 1 else 0)
  {
  }

  /** A multiple of 400 is a multiple of 100, and a multiple of 100 one of 4. */
  lemma Multiples(y: int)
    ensures y % 400 == 0 ==> y % 100 == 0
    ensures y % 100 == 0 ==> y % 4 == 0
  {
    if y % 400 == 0 {
      assert y == 400 * (y / 400);
    }
    if y % 100 == 0 {
      assert y == 100 * (y / 100);
    }
  }

  lemma YearLength(y: int)
    requires y >= 1
    ensures DaysBeforeYear(y + 1) - DaysBeforeYear(y) == if IsLeap(y) then 366 else 365
  {
    DivStep4(y);
    DivStep100(y);
    DivStep400(y);
    Multiples(y);
  }

  lemma {:induction false} YearsApart(y: int, z: int)
    requires 1 <= y < z
    ensures DaysBeforeYear(z) - DaysBeforeYear(y) >= 365
    decreases z - y
  {
    YearLength(y);
    if y + 1 < z {
      YearsApart(y + 1, z);
    }
  }

  /** Every date of year y lies after the days of earlier years and before the next year. */
  lemma OrdinalWithinYear(d: DateTime)
    requires Valid(d)
    ensures DaysBeforeYear(d.year) < Ordinal(d) <= DaysBeforeYear(d.year + 1)
  {
    YearLength(d.year);
  }

  lemma OrdinalWithinMonth(d: DateTime, e: DateTime)
    requires Valid(d) && Valid(e) && d.year == e.year && d.month < e.month
    ensures Ordinal(d) < Ordinal(e)
  {
  }

  /** The field order and the minute order are the same order. */
  lemma BeforeIffMinutes(a: DateTime, b: DateTime)
    requires Valid(a) && Valid(b)
    ensures Before(a, b) <==> Minutes(a) < Minutes(b)
  {
    OrdinalOrder(a, b);
    OrdinalOrder(b, a);
  }

  lemma OrdinalOrder(a: DateTime, b: DateTime)
    requires Valid(a) && Valid(b)
    ensures Before(a, b) ==> Minutes(a) < Minutes(b)
  {
    if a.year < b.year {
      OrdinalWithinYear(a);
      OrdinalWithinYear(b);
      if a.year + 1 < b.year {
        YearsApart(a.year + 1, b.year);
      }
      assert Ordinal(a) < Ordinal(b);
    } else if a.year == b.year && a.month < b.month {
      OrdinalWithinMonth(a, b);
    }
  }

  /** Distinct valid dates are distinct minutes. */
  lemma MinutesInjective(a: DateTime, b: DateTime)
    requires Valid(a) && Valid(b) && Minutes(a) == Minutes(b)
    ensures a == b
  {
    BeforeIffMinutes(a, b);
    BeforeIffMinutes(b, a);
  }

  // ---------------------------------------------------------------------
  // strptime(s, '%Y%m%d%H%M') on 12 characters
  // ---------------------------------------------------------------------

  /** `%Y`: four ASCII digits. */
  function YearField(a: char, b: char, c: char, d: char): (r: Option<int>)
    ensures r.Some? ==> 0 <= r.value <= 9999
  {
    if IsDigit(a) && IsDigit(b) && IsDigit(c) && IsDigit(d)
    then Some(1000 * DigitValue(a) + 100 * DigitValue(b) + 10 * DigitValue(c) + DigitValue(d))
    else None
  }

  /** `%m` as two characters: `1[0-2]` or `0[1-9]`. */
  function MonthField(a: char, b: char): Option<int> {
    if (a == '1' && '0' <= b <= '2') || (a == '0' && '1' <= b <= '9')
    then Some(10 * DigitValue(a) + DigitValue(b)) else None
  }

  /** `%d` as two characters: `3[01]`, `[12][0-9]`, `0[1-9]` or a space and `[1-9]`. */
  function DayField(a: char, b: char): Option<int> {
    if (a == '3' && '0' <= b <= '1') || ('1' <= a <= '2' && IsDigit(b)) || (a == '0' && '1' <= b <= '9')
    then Some(10 * DigitValue(a) + DigitValue(b))
    else if a == ' ' && '1' <= b <= '9' then Some(DigitValue(b))
    else None
  }

  /** `%H` as two characters: `2[0-3]` or `[01][0-9]`. */
  function HourField(a: char, b: char): Option<int> {
    if (a == '2' && '0' <= b <= '3') || ('0' <= a <= '1' && IsDigit(b))
    then Some(10 * DigitValue(a) + DigitValue(b)) else None
  }

  /** `%M` as two characters: `[0-5][0-9]`. */
  function MinuteField(a: char, b: char): Option<int> {
    if '0' <= a <= '5' && IsDigit(b) then Some(10 * DigitValue(a) + DigitValue(b)) else None
  }

  /**
    `datetime.strptime(s, '%Y%m%d%H%M')` for a 12-character s. The directive
    patterns try their two-character forms first; a one-character form leaves
    fewer than 12 characters matched and strptime rejects the unconverted rest,
    so every field must match in its two-character form. Year 0 and days past
    the end of the month are then rejected by the `datetime` constructor.
   */
  function ParseStamp(s: string): (r: Option<DateTime>)
    requires |s| == 12
    ensures r.Some? ==> Valid(r.value)
  {
    match (YearField(s[0], s[1], s[2], s[3]), MonthField(s[4], s[5]), DayField(s[6], s[7]),
           HourField(s[8], s[9]), MinuteField(s[10], s[11]))
    case (Some(year), Some(month), Some(day), Some(hour), Some(minute)) =>
      if year >= 1 && day <= DaysInMonth(year, month)
      then Some(DateTime(year, month, day, hour, minute))
      else None
    case _ => None
  }

  /** `d.strftime('%Y%m%d%H%M')` for a valid date: each field zero-padded. */
  function FormatStamp(d: DateTime): (s: string)
    requires Valid(d)
    ensures |s| == 12
  {
    [ DigitChar(d.year / 10 / 10 / 10), DigitChar(d.year / 10 / 10 % 10), DigitChar(d.year / 10 % 10), DigitChar(d.year % 10),
      DigitChar(d.month / 10), DigitChar(d.month % 10), DigitChar(d.day / 10), DigitChar(d.day % 10),
      DigitChar(d.hour / 10), DigitChar(d.hour % 10), DigitChar(d.minute / 10), DigitChar(d.minute % 10) ]
  }

  lemma YearRoundTrip(y: int)
    requires 1 <= y <= 9999
    ensures YearField(DigitChar(y / 10 / 10 / 10), DigitChar(y / 10 / 10 % 10), DigitChar(y / 10 % 10), DigitChar(y % 10)) == Some(y)
  {
    var q1 := y / 10;
    var q2 := q1 / 10;
    assert y == 10 * q1 + y % 10;
    assert q1 == 10 * q2 + q1 % 10;
    assert q2 == 10 * (q2 / 10) + q2 % 10;
  }

  lemma MonthRoundTrip(m: int)
    requires 1 <= m <= 12
    ensures MonthField(DigitChar(m / 10), DigitChar(m % 10)) == Some(m)
  {
  }

  lemma DayRoundTrip(d: int)
    requires 1 <= d <= 31
    ensures DayField(DigitChar(d / 10), DigitChar(d % 10)) == Some(d)
  {
  }

  lemma HourRoundTrip(h: int)
    requires 0 <= h < 24
    ensures HourField(DigitChar(h / 10), DigitChar(h % 10)) == Some(h)
  {
  }

  lemma MinuteRoundTrip(m: int)
    requires 0 <= m < 60
    ensures MinuteField(DigitChar(m / 10), DigitChar(m % 10)) == Some(m)
  {
  }

  /** strptime reads back what strftime writes. */
  lemma ParseFormat(d: DateTime)
    requires Valid(d)
    ensures ParseStamp(FormatStamp(d)) == Some(d)
  {
    YearRoundTrip(d.year);
    MonthRoundTrip(d.month);
    DayRoundTrip(d.day);
    HourRoundTrip(d.hour);
    MinuteRoundTrip(d.minute);
  }

  /** The date-string sentinel `-9999` is never a formatted date. */
  lemma SentinelNotStamp(d: DateTime)
    requires Valid(d)
    ensures FormatStamp(d) != "-9999"
  {
  }
}
