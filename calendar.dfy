/**
 * Python `datetime` values to the second: the proleptic Gregorian calendar,
 * chronological order, `timedelta(days=a)` arithmetic and the strftime fields.
 */
module Calendar {
  import opened Text

  datatype DateTime = DateTime(year: int, month: int, day: int, hour: int, minute: int, second: int)

  predicate IsLeapYear(y: int)
  {
    y % 4 == 0 && (y % 100 != 0 || y % 400 == 0)
  }

  function DaysInMonth(y: int, m: int): (n: int)
    requires 1 <= m <= 12
    ensures 28 <= n <= 31
  {
    if m == 2 then (if IsLeapYear(y) then 29 else 28)
    else if m == 4 || m == 6 || m == 9 || m == 11 then 30
    else 31
  }

  function DaysInYear(y: int): int
  {
    if IsLeapYear(y) then 366 else 365
  }

  /** A calendar date and time of day, from year 1 onwards. */
  predicate WellFormed(t: DateTime)
  {
    && 1 <= t.year
    && 1 <= t.month <= 12
    && 1 <= t.day <= DaysInMonth(t.year, t.month)
    && 0 <= t.hour < 24 && 0 <= t.minute < 60 && 0 <= t.second < 60
  }

  /** What Python's `datetime` can hold: years 1 to 9999. */
  predicate Valid(t: DateTime)
  {
    WellFormed(t) && t.year <= 9999
  }

  /** `a <= b` on datetimes: lexicographic on (year, month, day, hour, minute, second). */
  predicate Le(a: DateTime, b: DateTime)
  {
    || a.year < b.year
    || (a.year == b.year && a.month < b.month)
    || (a.year == b.year && a.month == b.month && a.day < b.day)
    || (a.year == b.year && a.month == b.month && a.day == b.day && a.hour < b.hour)
    || (a.year == b.year && a.month == b.month && a.day == b.day && a.hour == b.hour && a.minute < b.minute)
    || (a.year == b.year && a.month == b.month && a.day == b.day && a.hour == b.hour && a.minute == b.minute
        && a.second <= b.second)
  }

  lemma LeTotal(a: DateTime, b: DateTime)
    ensures Le(a, b) || Le(b, a)
    ensures Le(a, b) && Le(b, a) ==> a == b
  {
  }

  lemma LeTransitive(a: DateTime, b: DateTime, c: DateTime)
    requires Le(a, b) && Le(b, c)
    ensures Le(a, c)
  {
  }

  /** Days in the years before `y` (Python's `_days_before_year`). */
  function DaysBeforeYear(y: int): int
    requires y >= 1
  {
    var p := y - 1;
    p * 365 + p / 4 - p / 100 + p / 400
  }

  /** Days in the months of year `y` before month `m` (Python's `_days_before_month`). */
  function DaysBeforeMonth(y: int, m: int): int
    requires 1 <= m <= 12
  {
    [0, 31, 59, 90, 120, 151, 181, 212, 243, 273, 304, 334][m - 1]
      + (if m > 2 && IsLeapYear(y) then 1 else 0)
  }

  /** Day number of the date of `t`; 0001-01-01 is day 1 (Python's `toordinal`). */
  function Ordinal(t: DateTime): int
    requires WellFormed(t)
  {
    DaysBeforeYear(t.year) + DaysBeforeMonth(t.year, t.month) + t.day
  }

  function SecondOfDay(t: DateTime): int
  {
    t.hour * 3600 + t.minute * 60 + t.second
  }

  /** Seconds since 0000-12-31 00:00:00, the day before 0001-01-01 (day number 0). */
  function Seconds(t: DateTime): int
    requires WellFormed(t)
  {
    Ordinal(t) * 86400 + SecondOfDay(t)
  }

  /** The date part of `t`, one day later; the time of day is kept. */
  function NextDay(t: DateTime): (r: DateTime)
    requires WellFormed(t)
    ensures WellFormed(r)
    ensures r.hour == t.hour && r.minute == t.minute && r.second == t.second
  {
    if t.day < DaysInMonth(t.year, t.month) then t.(day := t.day + 1)
    else if t.month < 12 then t.(month := t.month + 1, day := 1)
    else t.(year := t.year + 1, month := 1, day := 1)
  }

  /** `t + timedelta(days=n)` for `n >= 0`. */
  function AddDays(t: DateTime, n: nat): (r: DateTime)
    requires WellFormed(t)
    ensures WellFormed(r)
    ensures r.hour == t.hour && r.minute == t.minute && r.second == t.second
    decreases n
  {
    if n == 0 then t else AddDays(NextDay(t), n - 1)
  }

  /** `(b - a).days`: whole days from `a` to `b`, rounded down. */
  function DaysBetween(a: DateTime, b: DateTime): int
    requires WellFormed(a) && WellFormed(b)
  {
    (Seconds(b) - Seconds(a)) / 86400
  }

  lemma {:induction false} DaysBeforeYearStep(y: int)
    requires y >= 1
    ensures DaysBeforeYear(y + 1) == DaysBeforeYear(y) + DaysInYear(y)
  {
    var p := y - 1;
    assert y / 4 - p / 4 == (if y % 4 == 0 then 1 else 0);
    assert y / 100 - p / 100 == (if y % 100 == 0 then 1 else 0);
    assert y / 400 - p / 400 == (if y % 400 == 0 then 1 else 0);
  }

  lemma {:induction false} DaysBeforeYearGrows(y1: int, y2: int)
    requires 1 <= y1 < y2
    ensures DaysBeforeYear(y1) + DaysInYear(y1) <= DaysBeforeYear(y2)
    decreases y2 - y1
  {
    DaysBeforeYearStep(y1);
    if y1 + 1 < y2 {
      DaysBeforeYearGrows(y1 + 1, y2);
    }
  }

  /** A date's day within its year lies between 1 and the length of the year. */
  lemma DayOfYearBounds(t: DateTime)
    requires WellFormed(t)
    ensures 1 <= DaysBeforeMonth(t.year, t.month) + t.day <= DaysInYear(t.year)
  {
  }

  lemma DaysBeforeMonthGrows(y: int, m1: int, m2: int)
    requires 1 <= m1 < m2 <= 12
    ensures DaysBeforeMonth(y, m1) + DaysInMonth(y, m1) <= DaysBeforeMonth(y, m2)
  {
  }

  /** `Ordinal` is strictly increasing in calendar order. */
  lemma OrdinalIncreasing(a: DateTime, b: DateTime)
    requires WellFormed(a) && WellFormed(b)
    requires (a.year, a.month, a.day) != (b.year, b.month, b.day)
    requires Le(a, b)
    ensures Ordinal(a) < Ordinal(b)
  {
    DayOfYearBounds(a);
    DayOfYearBounds(b);
    if a.year < b.year {
      DaysBeforeYearGrows(a.year, b.year);
    } else if a.month < b.month {
      DaysBeforeMonthGrows(a.year, a.month, b.month);
    }
  }

  /** Calendar order is the order of the elapsed seconds. */
  lemma LeIffSeconds(a: DateTime, b: DateTime)
    requires WellFormed(a) && WellFormed(b)
    ensures Le(a, b) <==> Seconds(a) <= Seconds(b)
  {
    if (a.year, a.month, a.day) != (b.year, b.month, b.day) {
      if Le(a, b) {
        OrdinalIncreasing(a, b);
      } else {
        OrdinalIncreasing(b, a);
      }
    }
  }

  /** The day after has the next day number. */
  lemma NextDayOrdinal(t: DateTime)
    requires WellFormed(t)
    ensures Ordinal(NextDay(t)) == Ordinal(t) + 1
  {
    if t.day == DaysInMonth(t.year, t.month) && t.month == 12 {
      DaysBeforeYearStep(t.year);
    }
  }

  lemma {:induction false} AddDaysOrdinal(t: DateTime, n: nat)
    requires WellFormed(t)
    ensures Ordinal(AddDays(t, n)) == Ordinal(t) + n
    decreases n
  {
    if n > 0 {
      NextDayOrdinal(t);
      AddDaysOrdinal(NextDay(t), n - 1);
    }
  }

  /** Two dates with the same day number and time of day are the same datetime. */
  lemma SecondsInjective(a: DateTime, b: DateTime)
    requires WellFormed(a) && WellFormed(b)
    requires Seconds(a) == Seconds(b)
    ensures a == b
  {
    LeIffSeconds(a, b);
    LeIffSeconds(b, a);
    LeTotal(a, b);
  }

  /** The strftime fields `%Y`, `%m`, `%d`, `%H`, `%M`, `%S`. */
  function Year4(t: DateTime): string { Digits(if t.year < 0 then 0 else t.year, 4) }
  function Month2(t: DateTime): string { Digits(if t.month < 0 then 0 else t.month, 2) }
  function Day2(t: DateTime): string { Digits(if t.day < 0 then 0 else t.day, 2) }
  function Hour2(t: DateTime): string { Digits(if t.hour < 0 then 0 else t.hour, 2) }
  function Minute2(t: DateTime): string { Digits(if t.minute < 0 then 0 else t.minute, 2) }
  function Second2(t: DateTime): string { Digits(if t.second < 0 then 0 else t.second, 2) }

  /** `%Y`, `%m` and `%d` together determine the date of a valid datetime. */
  lemma DateFieldsInjective(a: DateTime, b: DateTime)
    requires Valid(a) && Valid(b)
    requires Year4(a) == Year4(b) && Month2(a) == Month2(b) && Day2(a) == Day2(b)
    ensures a.year == b.year && a.month == b.month && a.day == b.day
  {
    DigitsInjective(a.year, b.year, 4);
    DigitsInjective(a.month, b.month, 2);
    DigitsInjective(a.day, b.day, 2);
  }

  /** `%H`, `%M` and `%S` together determine the time of day of a valid datetime. */
  lemma TimeFieldsInjective(a: DateTime, b: DateTime)
    requires Valid(a) && Valid(b)
    requires Hour2(a) == Hour2(b) && Minute2(a) == Minute2(b) && Second2(a) == Second2(b)
    ensures a.hour == b.hour && a.minute == b.minute && a.second == b.second
  {
    DigitsInjective(a.hour, b.hour, 2);
    DigitsInjective(a.minute, b.minute, 2);
    DigitsInjective(a.second, b.second, 2);
  }
}
