// Naive calendar date-times as Python's datetime holds them (second precision),
// the strftime forms the programs print, and the day numbering timedelta
// arithmetic rests on.

module Times {
  import opened Text

  datatype DateTime = DateTime(year: nat, month: nat, day: nat, hour: nat, minute: nat, second: nat)

  predicate IsLeap(y: nat) {
    y % 4 == 0 && (y % 100 != 0 || y % 400 == 0)
  }

  function DaysIn(y: nat, m: nat): (n: nat)
    requires 1 <= m <= 12
    ensures 28 <= n <= 31
  {
    if m == 2 then (if IsLeap(y) then 29 else 28)
    else if m == 4 || m == 6 || m == 9 || m == 11 then 30
    else 31
  }

  /** What Python's datetime constructor accepts. */
  predicate ValidDate(dt: DateTime) {
    1 <= dt.year <= 9999 && 1 <= dt.month <= 12 && 1 <= dt.day <= DaysIn(dt.year, dt.month) &&
    dt.hour <= 23 && dt.minute <= 59 && dt.second <= 59
  }

  /** a < b, field by field from the year down. */
  predicate Before(a: DateTime, b: DateTime) {
    if a.year != b.year then a.year < b.year
    else if a.month != b.month then a.month < b.month
    else if a.day != b.day then a.day < b.day
    else if a.hour != b.hour then a.hour < b.hour
    else if a.minute != b.minute then a.minute < b.minute
    else a.second < b.second
  }

  // ---------------------------------------------------------------- printing

  /** A field printed with '%02d'-style zero fill. */
  function Two(n: nat): string {
    ZeroPad(NatToString(n), 2)
  }

  /** A two-digit field prints as two digits that read back as the number. */
  lemma TwoDigits(n: nat)
    requires n < 100
    ensures |Two(n)| == 2 && AllDigits(Two(n)) && DigitsValue(Two(n)) == n
  {
    NatToStringLength(n, 2);
    ZeroPadValue(NatToString(n), 2);
    NatToStringValue(n);
  }

  function YearText(y: nat): string {
    ZeroPad(NatToString(y), 4)
  }

  /** strftime('%H:%M:%S'). */
  function ClockText(dt: DateTime): string {
    Two(dt.hour) + ":" + Two(dt.minute) + ":" + Two(dt.second)
  }

  /** strftime('%Y-%m-%d %H:%M:%S'). */
  function StampText(dt: DateTime): string {
    YearText(dt.year) + "-" + Two(dt.month) + "-" + Two(dt.day) + " " + ClockText(dt)
  }

  /** A printed time starts with a digit. */
  lemma StampStartsWithDigit(dt: DateTime)
    ensures StampText(dt) != [] && IsDigit(StampText(dt)[0])
  {
    var y := YearText(dt.year);
    assert |y| >= 1;
    assert StampText(dt)[0] == y[0];
  }

  // ---------------------------------------------------------------- day numbers

  function YearLength(y: nat): nat {
    if IsLeap(y) then 366 else 365
  }

  /** Days in the years before y (the proleptic Gregorian calendar, from year 1). */
  function DaysBeforeYear(y: nat): int
    requires y >= 1
  {
    var p := y - 1;
    p * 365 + p / 4 - p / 100 + p / 400
  }

  /** Days in the months of year y before month m. */
  function DaysBeforeMonth(y: nat, m: nat): nat
    requires 1 <= m <= 12
  {
    [0, 31, 59, 90, 120, 151, 181, 212, 243, 273, 304, 334][m - 1] + (if m > 2 && IsLeap(y) then 1 else 0)
  }

  /** Seconds from 0001-01-01 00:00:00 to dt: what subtracting two datetimes counts. */
  function Seconds(dt: DateTime): int
    requires ValidDate(dt)
  {
    (DaysBeforeYear(dt.year) + DaysBeforeMonth(dt.year, dt.month) + dt.day - 1) * 86400 +
    dt.hour * 3600 + dt.minute * 60 + dt.second
  }

  lemma YearStep(y: nat)
    requires y >= 1
    ensures DaysBeforeYear(y + 1) == DaysBeforeYear(y) + YearLength(y)
  {
    var p := y - 1;
    Div4Step(y);
    Div100Step(y);
    Div400Step(y);
    DivisorsOfLeap(y);
    assert DaysBeforeYear(y + 1) == y * 365 + y / 4 - y / 100 + y / 400;
    assert DaysBeforeYear(y) == p * 365 + p / 4 - p / 100 + p / 400;
  }

  /** A year divisible by 400 is divisible by 100, and one divisible by 100 by 4. */
  lemma DivisorsOfLeap(y: nat)
    ensures y % 400 == 0 ==> y % 100 == 0
    ensures y % 100 == 0 ==> y % 4 == 0
  {
    if y % 400 == 0 {
      assert y == 400 * (y / 400);
      assert y == 100 * (4 * (y / 400));
    }
    if y % 100 == 0 {
      assert y == 100 * (y / 100);
      assert y == 4 * (25 * (y / 100));
    }
  }

  // Going from y - 1 to y, y / k grows by one exactly when k divides y.

  lemma Div4Step(y: nat)
    requires y >= 1
    ensures y / 4 == (y - 1) / 4 + (if y % 4 == 0 then 1 else 0)
  {
  }

  lemma Div100Step(y: nat)
    requires y >= 1
    ensures y / 100 == (y - 1) / 100 + (if y % 100 == 0 then 1 else 0)
  {
  }

  lemma Div400Step(y: nat)
    requires y >= 1
    ensures y / 400 == (y - 1) / 400 + (if y % 400 == 0 then 1 else 0)
  {
  }

  lemma {:induction false} YearsAscend(a: nat, b: nat)
    requires 1 <= a <= b
    ensures DaysBeforeYear(a) + (b - a) * 365 <= DaysBeforeYear(b)
    decreases b - a
  {
    if a < b {
      YearStep(a);
      YearsAscend(a + 1, b);
    }
  }

  lemma MonthStep(y: nat, m: nat)
    requires 1 <= m <= 11
    ensures DaysBeforeMonth(y, m + 1) == DaysBeforeMonth(y, m) + DaysIn(y, m)
  {
  }

  lemma {:induction false} MonthsAscend(y: nat, a: nat, b: nat)
    requires 1 <= a <= b <= 12
    ensures DaysBeforeMonth(y, a) + (b - a) * 28 <= DaysBeforeMonth(y, b)
    decreases b - a
  {
    if a < b {
      MonthStep(y, a);
      MonthsAscend(y, a + 1, b);
    }
  }

  /** The day of the year, counted from 0, is below the year's length. */
  lemma DayOfYear(dt: DateTime)
    requires ValidDate(dt)
    ensures DaysBeforeMonth(dt.year, dt.month) + dt.day <= YearLength(dt.year)
  {
    if dt.month < 12 {
      MonthStep(dt.year, dt.month);
      MonthsAscend(dt.year, dt.month + 1, 12);
    }
  }

  /** The day number of a date: days since 0001-01-01. */
  function DayNumber(dt: DateTime): int
    requires ValidDate(dt)
  {
    DaysBeforeYear(dt.year) + DaysBeforeMonth(dt.year, dt.month) + dt.day - 1
  }

  lemma DayNumberOrder(a: DateTime, b: DateTime)
    requires ValidDate(a) && ValidDate(b)
    requires a.year < b.year || (a.year == b.year && (a.month < b.month || (a.month == b.month && a.day < b.day)))
    ensures DayNumber(a) < DayNumber(b)
  {
    if a.year < b.year {
      DayOfYear(a);
      YearStep(a.year);
      YearsAscend(a.year + 1, b.year);
    } else if a.month < b.month {
      MonthStep(a.year, a.month);
      MonthsAscend(a.year, a.month + 1, b.month);
    }
  }

  /** An earlier time is fewer seconds from the epoch: durations between ordered times are positive. */
  lemma SecondsOrder(a: DateTime, b: DateTime)
    requires ValidDate(a) && ValidDate(b) && Before(a, b)
    ensures Seconds(a) < Seconds(b)
  {
    assert Seconds(a) == DayNumber(a) * 86400 + a.hour * 3600 + a.minute * 60 + a.second;
    assert Seconds(b) == DayNumber(b) * 86400 + b.hour * 3600 + b.minute * 60 + b.second;
    if a.year != b.year || a.month != b.month || a.day != b.day {
      DayNumberOrder(a, b);
      DayStepSeconds(DayNumber(a), DayNumber(b));
    }
  }

  lemma DayStepSeconds(da: int, db: int)
    requires da < db
    ensures da * 86400 + 86399 < db * 86400
  {
  }

  // ---------------------------------------------------------------- durations

  /**
   * str() of a timedelta of whole seconds: `H:MM:SS`, preceded by `N day, ` or
   * `N days, ` when the day count (rounded down) is not zero.
   */
  function DurationText(total: int): (r: string)
    ensures total >= 0 ==> r != [] && IsDigit(r[0])
  {
    var days := total / 86400;
    var secs := total % 86400;
    var clock := NatToString(secs / 3600) + ":" + Two(secs % 3600 / 60) + ":" + Two(secs % 60);
    if days == 0 then clock
    else IntToString(days) + " day" + (if days == 1 || days == -1 then "" else "s") + ", " + clock
  }

  /** The duration between two ordered times is printed without a sign. */
  lemma DurationUnsigned(start: DateTime, stop: DateTime)
    requires ValidDate(start) && ValidDate(stop) && Before(start, stop)
    ensures DurationText(Seconds(stop) - Seconds(start))[0] != '-'
  {
    SecondsOrder(start, stop);
  }
}
