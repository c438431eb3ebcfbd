/**
 * The proleptic Gregorian calendar as Python's `calendar` and `datetime`
 * modules implement it: leap years, month lengths, and naive date-times
 * ordered field by field.
 */
module Calendar {

  /** Python's `datetime.MINYEAR` and `datetime.MAXYEAR`. */
  const MinYear: int := 1
  const MaxYear: int := 9999

  /** Multiples of 400 are multiples of 100, and those are multiples of 4. */
  lemma CenturyFacts(year: int)
    ensures year % 100 == 0 ==> year % 4 == 0
    ensures year % 400 == 0 ==> year % 100 == 0
  {
    if year % 100 == 0 {
      assert year == 4 * (25 * (year / 100));
    }
    if year % 400 == 0 {
      assert year == 100 * (4 * (year / 400));
    }
  }

  /** `calendar.isleap`: divisible by 4 and not by 100, or divisible by 400. */
  function IsLeap(year: int): (leap: bool)
    ensures leap ==> year % 4 == 0
    ensures year % 100 == 0 ==> (leap <==> year % 400 == 0)
    ensures year % 4 == 0 && year % 100 != 0 ==> leap
  {
    CenturyFacts(year);
    year % 4 == 0 && (year % 100 != 0 || year % 400 == 0)
  }

  /** The Gregorian calendar repeats every 400 years. */
  lemma LeapCycle(year: int)
    ensures IsLeap(year + 400) == IsLeap(year)
  {
  }

  /** `calendar.monthrange(year, month)[1]`: the table `mdays` plus one for a leap February. */
  function DaysInMonth(year: int, month: int): (d: int)
    requires 1 <= month <= 12
    ensures 28 <= d <= 31
    ensures d == 31 <==> month in {1, 3, 5, 7, 8, 10, 12}
    ensures d == 30 <==> month in {4, 6, 9, 11}
    ensures month == 2 ==> (d == 29 <==> IsLeap(year))
  {
    if month == 2 then (if IsLeap(year) then 29 else 28)
    else if month in {4, 6, 9, 11} then 30
    else 31
  }

  /** A naive date-time at whole-second precision. */
  datatype DateTime = DateTime(year: int, month: int, day: int, hour: int, minute: int, second: int)

  /** What the `datetime` constructor accepts. */
  predicate Valid(t: DateTime)
  {
    && MinYear <= t.year <= MaxYear
    && 1 <= t.month <= 12
    && 1 <= t.day <= DaysInMonth(t.year, t.month)
    && 0 <= t.hour < 24
    && 0 <= t.minute < 60
    && 0 <= t.second < 60
  }

  /** Python's `a < b` on naive date-times: lexicographic over the fields. */
  predicate Before(a: DateTime, b: DateTime)
  {
    || a.year < b.year
    || (a.year == b.year && a.month < b.month)
    || (a.year == b.year && a.month == b.month && a.day < b.day)
    || (a.year == b.year && a.month == b.month && a.day == b.day && a.hour < b.hour)
    || (a.year == b.year && a.month == b.month && a.day == b.day && a.hour == b.hour && a.minute < b.minute)
    || (a.year == b.year && a.month == b.month && a.day == b.day && a.hour == b.hour && a.minute == b.minute
        && a.second < b.second)
  }

  predicate NotAfter(a: DateTime, b: DateTime) { a == b || Before(a, b) }

  /** Days in a year, summed month by month. */
  function DaysInYearUpTo(year: int, month: nat): nat
    requires month <= 12
  {
    if month == 0 then 0 else DaysInYearUpTo(year, month - 1) + DaysInMonth(year, month)
  }

  /** The twelve month lengths add up to 366 in a leap year and to 365 otherwise. */
  lemma YearLength(year: int)
    ensures DaysInYearUpTo(year, 12) == if IsLeap(year) then 366 else 365
  {
    var feb := DaysInMonth(year, 2);
    assert DaysInYearUpTo(year, 1) == 31;
    assert DaysInYearUpTo(year, 2) == 31 + feb;
    assert DaysInYearUpTo(year, 3) == 62 + feb;
    assert DaysInYearUpTo(year, 4) == 92 + feb;
    assert DaysInYearUpTo(year, 5) == 123 + feb;
    assert DaysInYearUpTo(year, 6) == 153 + feb;
    assert DaysInYearUpTo(year, 7) == 184 + feb;
    assert DaysInYearUpTo(year, 8) == 215 + feb;
    assert DaysInYearUpTo(year, 9) == 245 + feb;
    assert DaysInYearUpTo(year, 10) == 276 + feb;
    assert DaysInYearUpTo(year, 11) == 306 + feb;
    assert DaysInYearUpTo(year, 12) == 337 + feb;
  }

  /** February's length in the three classic cases of the leap-year rule. */
  lemma FebruaryExamples()
    ensures DaysInMonth(2024, 2) == 29
    ensures DaysInMonth(1900, 2) == 28
    ensures DaysInMonth(2000, 2) == 29
    ensures DaysInMonth(2023, 2) == 28
  {
  }
}
