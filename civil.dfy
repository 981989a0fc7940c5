// Proleptic Gregorian calendar arithmetic: the part of Go's `time` package
// that the calendar helpers rely on (days in a month, the day number of a
// civil date, the weekday of a day, and the normalisation `time.Date`
// applies to an out-of-range month or to day 0).

module Civil {

  /** A civil date (year, month 1..12, day 1..days in month) once valid. */
  datatype Date = Date(year: int, month: int, day: int)

  predicate IsLeapYear(y: int)
  {
    (y % 4 == 0 && y % 100 != 0) || y % 400 == 0
  }

  function DaysIn(y: int, m: int): (n: int)
    requires 1 <= m <= 12
    ensures 28 <= n <= 31
    ensures n == 29 <==> m == 2 && IsLeapYear(y)
    ensures n == 28 <==> m == 2 && !IsLeapYear(y)
  {
    if m == 2 then (if IsLeapYear(y) then 29 else 28)
    else if m == 4 || m == 6 || m == 9 || m == 11 then 30
    else 31
  }

  predicate ValidDate(d: Date)
  {
    1 <= d.month <= 12 && 1 <= d.day <= DaysIn(d.year, d.month)
  }

  function YearLength(y: int): int
  {
    if IsLeapYear(y) then 366 else 365
  }

  /** Number of leap years among 1 .. y-1 (negative counts below year 1). */
  function LeapYearsBefore(y: int): int
  {
    (y - 1) / 4 - (y - 1) / 100 + (y - 1) / 400
  }

  /** Day number of January 1st of year y, counted from 1970-01-01. */
  function YearStart(y: int): int
  {
    365 * (y - 1970) + LeapYearsBefore(y) - LeapYearsBefore(1970)
  }

  /** Days of year y that lie before the first of month m. */
  function DaysBeforeMonth(y: int, m: int): (n: int)
    requires 1 <= m <= 13
    ensures 0 <= n <= YearLength(y)
    ensures m == 13 ==> n == YearLength(y)
  {
    var base :=
      match m
      case 1 => 0 case 2 => 31 case 3 => 59 case 4 => 90 case 5 => 120
      case 6 => 151 case 7 => 181 case 8 => 212 case 9 => 243 case 10 => 273
      case 11 => 304 case 12 => 334 case _ => 365;
    if m > 2 && IsLeapYear(y) then base + 1 else base
  }

  lemma DaysBeforeMonthStep(y: int, m: int)
    requires 1 <= m <= 12
    ensures DaysBeforeMonth(y, m) + DaysIn(y, m) == DaysBeforeMonth(y, m + 1)
  {
  }

  /** Day number of a civil date: days since 1970-01-01 (negative before). */
  function DayNumber(d: Date): int
    requires 1 <= d.month <= 12
  {
    YearStart(d.year) + DaysBeforeMonth(d.year, d.month) + d.day - 1
  }

  lemma YearStartStep(y: int)
    ensures YearStart(y + 1) == YearStart(y) + YearLength(y)
  {
    DivStep4(y);
    DivStep100(y);
    DivStep400(y);
    DivisorChain(y);
    var a := if y % 4 == 0 then 1 else 0;
    var b := if y % 100 == 0 then 1 else 0;
    var c := if y % 400 == 0 then 1 else 0;
    assert LeapYearsBefore(y + 1) - LeapYearsBefore(y) == a - b + c;
    assert a - b + c == (if IsLeapYear(y) then 1 else 0);
  }

  /** A multiple of 400 is a multiple of 100, and a multiple of 100 one of 4. */
  lemma DivisorChain(y: int)
    ensures y % 400 == 0 ==> y % 100 == 0
    ensures y % 100 == 0 ==> y % 4 == 0
  {
    if y % 400 == 0 {
      MultipleOf100(y, 4 * (y / 400));
    }
    if y % 100 == 0 {
      MultipleOf4(y, 25 * (y / 100));
    }
  }

  lemma MultipleOf100(y: int, k: int)
    requires y == 100 * k
    ensures y % 100 == 0
  {
  }

  lemma MultipleOf4(y: int, k: int)
    requires y == 4 * k
    ensures y % 4 == 0
  {
  }

  lemma DivStep4(y: int)
    ensures y / 4 - (y - 1) / 4 == (if y % 4 == 0 then 1 else 0)
  {
    var q, r := (y - 1) / 4, (y - 1) % 4;
    assert y - 1 == 4 * q + r && 0 <= r < 4;
    if r == 3 {
      assert y == 4 * (q + 1);
    } else {
      assert y == 4 * q + (r + 1) && r + 1 < 4;
    }
  }

  lemma DivStep100(y: int)
    ensures y / 100 - (y - 1) / 100 == (if y % 100 == 0 then 1 else 0)
  {
    var q, r := (y - 1) / 100, (y - 1) % 100;
    assert y - 1 == 100 * q + r && 0 <= r < 100;
    if r == 99 {
      assert y == 100 * (q + 1);
    } else {
      assert y == 100 * q + (r + 1) && r + 1 < 100;
    }
  }

  lemma DivStep400(y: int)
    ensures y / 400 - (y - 1) / 400 == (if y % 400 == 0 then 1 else 0)
  {
    var q, r := (y - 1) / 400, (y - 1) % 400;
    assert y - 1 == 400 * q + r && 0 <= r < 400;
    if r == 399 {
      assert y == 400 * (q + 1);
    } else {
      assert y == 400 * q + (r + 1) && r + 1 < 400;
    }
  }

  /** The days of a valid date lie inside its year, after YearStart. */
  lemma DayOfYearBounds(d: Date)
    requires ValidDate(d)
    ensures YearStart(d.year) <= DayNumber(d) < YearStart(d.year + 1)
  {
    YearStartStep(d.year);
    MonthStartsIncrease(d.year, d.month + 1, 13);
  }

  lemma {:induction false} MonthStartsIncrease(y: int, m1: int, m2: int)
    requires 1 <= m1 <= m2 <= 13
    ensures DaysBeforeMonth(y, m1) <= DaysBeforeMonth(y, m2)
    ensures m1 < m2 ==> DaysBeforeMonth(y, m1) + 28 <= DaysBeforeMonth(y, m2)
    decreases m2 - m1
  {
    if m1 < m2 {
      MonthStartsIncrease(y, m1 + 1, m2);
    }
  }

  lemma {:induction false} YearStartIncreases(y1: int, y2: int)
    requires y1 <= y2
    ensures YearStart(y1) + 365 * (y2 - y1) <= YearStart(y2)
    decreases y2 - y1
  {
    if y1 < y2 {
      YearStartStep(y1);
      YearStartIncreases(y1 + 1, y2);
    }
  }

  /** DayNumber is strictly increasing in the calendar order of valid dates. */
  lemma DayNumberOrder(a: Date, b: Date)
    requires ValidDate(a) && ValidDate(b)
    requires a.year < b.year
          || (a.year == b.year && a.month < b.month)
          || (a.year == b.year && a.month == b.month && a.day < b.day)
    ensures DayNumber(a) < DayNumber(b)
  {
    if a.year < b.year {
      DayOfYearBounds(a);
      DayOfYearBounds(b);
      YearStartIncreases(a.year + 1, b.year);
      assert YearStart(a.year + 1) <= YearStart(b.year);
    } else if a.month < b.month {
      DaysBeforeMonthStep(a.year, a.month);
      MonthStartsIncrease(a.year, a.month + 1, b.month);
      assert DaysBeforeMonth(a.year, a.month) + a.day - 1 < DaysBeforeMonth(b.year, b.month);
    }
  }

  /** Two valid dates share a day number exactly when they are the same date. */
  lemma DayNumberInjective(a: Date, b: Date)
    requires ValidDate(a) && ValidDate(b)
    ensures DayNumber(a) == DayNumber(b) <==> a == b
  {
    if a != b {
      if a.year < b.year || (a.year == b.year && a.month < b.month)
         || (a.year == b.year && a.month == b.month && a.day < b.day) {
        DayNumberOrder(a, b);
      } else {
        DayNumberOrder(b, a);
      }
    }
  }

  /** Go's time.Weekday of a day number: Sunday = 0 .. Saturday = 6; 1970-01-01 was a Thursday. */
  function Weekday(day: int): (w: int)
    ensures 0 <= w <= 6
  {
    (day + 4) % 7
  }

  /** Consecutive days have consecutive weekdays, and the weekday repeats every 7 days. */
  lemma WeekdayShift(day: int, k: int)
    ensures Weekday(day + k) == (Weekday(day) + k) % 7
  {
  }

  /**
   * The month normalisation time.Date applies: a month outside 1..12 moves the
   * year by whole years until it lies in 1..12.
   */
  function NormalizeMonth(y: int, m: int): (r: (int, int))
    ensures 1 <= r.1 <= 12
    ensures 12 * r.0 + r.1 == 12 * y + m
  {
    (y + (m - 1) / 12, (m - 1) % 12 + 1)
  }

  /** The month that precedes month (y, m), both in range. */
  function PreviousMonth(y: int, m: int): (r: (int, int))
    requires 1 <= m <= 12
    ensures 1 <= r.1 <= 12
    ensures 12 * r.0 + r.1 == 12 * y + m - 1
  {
    if m == 1 then (y - 1, 12) else (y, m - 1)
  }

  /**
   * time.Date(y, m, d, ...) for the day values this package passes: the month
   * is normalised first, then day 0 means the last day of the month before;
   * days 1 .. days-in-month are kept.
   */
  function GoDate(y: int, m: int, d: int): (r: Date)
    requires 0 <= d
    requires d <= DaysIn(NormalizeMonth(y, m).0, NormalizeMonth(y, m).1)
    ensures ValidDate(r)
    ensures 12 * r.year + r.month == 12 * y + m - (if d == 0 then 1 else 0)
    ensures d != 0 ==> r.day == d
    ensures d == 0 ==> r.day == DaysIn(r.year, r.month)
  {
    var (ny, nm) := NormalizeMonth(y, m);
    if d == 0 then
      var (py, pm) := PreviousMonth(ny, nm);
      Date(py, pm, DaysIn(py, pm))
    else
      Date(ny, nm, d)
  }

  /** A month index determines year and month in range. */
  lemma MonthIndexUnique(y1: int, m1: int, y2: int, m2: int)
    requires 1 <= m1 <= 12 && 1 <= m2 <= 12
    requires 12 * y1 + m1 == 12 * y2 + m2
    ensures y1 == y2 && m1 == m2
  {
  }
}
