// Calendar helpers of the timeenv package (month arithmetic with day
// clamping, quarter and week boundaries, weekday stepping), stated over
// civil dates and day numbers in a single local time zone.

module TimeExt {
  import opened Civil
  import opened GoStd

  const NanosPerDay: int := 86_400_000_000_000

  /** A local date and the time of day in nanoseconds since midnight, as `t.Date()` and the clock fields give them. */
  datatype DateTime = DateTime(date: Date, clock: int)

  predicate ValidDateTime(t: DateTime)
  {
    ValidDate(t.date) && 0 <= t.clock < NanosPerDay
  }

  /** StartOfDay: the day number of t's local midnight. */
  function StartOfDay(t: DateTime): int
    requires ValidDateTime(t)
  {
    DayNumber(t.date)
  }

  /** daysInMonth(year, month): the day before the first of month+1. */
  function DaysInMonth(year: int, month: int): (n: int)
    ensures 28 <= n <= 31
    ensures n == DaysIn(NormalizeMonth(year, month).0, NormalizeMonth(year, month).1)
  {
    var last := GoDate(year, month + 1, 0);
    MonthIndexUnique(last.year, last.month, NormalizeMonth(year, month).0, NormalizeMonth(year, month).1);
    last.day
  }

  /**
   * AddMonths: move by whole months with Go's truncating `/` and `%`, clamp the
   * day to the target month, keep the time of day, and let time.Date normalise
   * a month that came out as 0 or negative.
   */
  function AddMonths(t: DateTime, months: int): (r: DateTime)
    requires ValidDateTime(t)
    ensures ValidDateTime(r)
    ensures 12 * r.date.year + r.date.month == 12 * t.date.year + t.date.month + months
    ensures r.date.day == if t.date.day <= DaysIn(r.date.year, r.date.month)
                          then t.date.day else DaysIn(r.date.year, r.date.month)
    ensures r.clock == t.clock
  {
    var total := t.date.month - 1 + months;
    var ny := t.date.year + GoQuo(total, 12);
    var nm := GoRem(total, 12) + 1;
    var md := DaysInMonth(ny, nm);
    var d := if t.date.day > md then md else t.date.day;
    var r := DateTime(GoDate(ny, nm, d), t.clock);
    MonthIndexUnique(r.date.year, r.date.month, NormalizeMonth(ny, nm).0, NormalizeMonth(ny, nm).1);
    r
  }

  /** AddMonths agrees with floor-division month arithmetic, whatever the sign of months. */
  lemma AddMonthsIsFloorArithmetic(t: DateTime, months: int)
    requires ValidDateTime(t)
    ensures var total := t.date.month - 1 + months;
            var y := t.date.year + total / 12;
            var m := total % 12 + 1;
            AddMonths(t, months).date == Date(y, m, if t.date.day <= DaysIn(y, m) then t.date.day else DaysIn(y, m))
  {
    var r := AddMonths(t, months);
    var total := t.date.month - 1 + months;
    MonthIndexUnique(r.date.year, r.date.month, t.date.year + total / 12, total % 12 + 1);
  }

  /** Adding a and then b months is adding a + b months when no clamping happens. */
  lemma AddMonthsCompose(t: DateTime, a: int, b: int)
    requires ValidDateTime(t) && t.date.day <= 28
    ensures AddMonths(AddMonths(t, a), b) == AddMonths(t, a + b)
  {
    var r1 := AddMonths(AddMonths(t, a), b);
    var r2 := AddMonths(t, a + b);
    MonthIndexUnique(r1.date.year, r1.date.month, r2.date.year, r2.date.month);
  }

  /** The last day of January plus one month clamps to the last day of February. */
  lemma AddMonthFromJanuaryEnd(y: int, clock: int)
    requires 0 <= clock < NanosPerDay
    ensures AddMonths(DateTime(Date(y, 1, 31), clock), 1) == DateTime(Date(y, 2, DaysIn(y, 2)), clock)
  {
    var t := DateTime(Date(y, 1, 31), clock);
    assert ValidDateTime(t);
    AddMonthsIsFloorArithmetic(t, 1);
  }

  /** The last day of March minus one month clamps to the last day of February. */
  lemma SubtractMonthFromMarchEnd(y: int, clock: int)
    requires 0 <= clock < NanosPerDay
    ensures AddMonths(DateTime(Date(y, 3, 31), clock), -1) == DateTime(Date(y, 2, DaysIn(y, 2)), clock)
  {
    var t := DateTime(Date(y, 3, 31), clock);
    assert ValidDateTime(t);
    AddMonthsIsFloorArithmetic(t, -1);
  }

  /** Example: 2024-01-31 plus one month is 2024-02-29 (leap February). */
  lemma AddMonthsIntoLeapFebruary()
    ensures AddMonths(DateTime(Date(2024, 1, 31), 0), 1).date == Date(2024, 2, 29)
  {
    assert IsLeapYear(2024);
    AddMonthFromJanuaryEnd(2024, 0);
  }

  /** Example: 2023-01-31 plus one month is 2023-02-28. */
  lemma AddMonthsIntoFebruary()
    ensures AddMonths(DateTime(Date(2023, 1, 31), 0), 1).date == Date(2023, 2, 28)
  {
    assert !IsLeapYear(2023);
    AddMonthFromJanuaryEnd(2023, 0);
  }

  /** Example: 2024-03-31 12:30 minus one month is 2024-02-29 12:30. */
  lemma SubtractMonthKeepsClock()
    ensures AddMonths(DateTime(Date(2024, 3, 31), 45_000_000_000_000), -1)
            == DateTime(Date(2024, 2, 29), 45_000_000_000_000)
  {
    assert IsLeapYear(2024);
    SubtractMonthFromMarchEnd(2024, 45_000_000_000_000);
  }

  /** Example: 2023-01-31 minus one month crosses into 2022-12-31. */
  lemma SubtractMonthAcrossYear()
    ensures AddMonths(DateTime(Date(2023, 1, 31), 0), -1).date == Date(2022, 12, 31)
  {
    var t := DateTime(Date(2023, 1, 31), 0);
    assert ValidDateTime(t);
    AddMonthsIsFloorArithmetic(t, -1);
    assert (1 - 1 - 1) / 12 == -1 && (1 - 1 - 1) % 12 + 1 == 12;
    assert DaysIn(2022, 12) == 31;
  }

  /** StartOfQuarter: midnight of the first day of t's quarter. */
  function StartOfQuarter(t: DateTime): (r: DateTime)
    requires ValidDateTime(t)
    ensures ValidDateTime(r)
    ensures r.date.month in {1, 4, 7, 10}
    ensures r.date.year == t.date.year
    ensures r.date.month <= t.date.month < r.date.month + 3
    ensures r.date.day == 1 && r.clock == 0
  {
    var qm := GoQuo(t.date.month - 1, 3) * 3 + 1;
    var r := DateTime(GoDate(t.date.year, qm, 1), 0);
    MonthIndexUnique(r.date.year, r.date.month, t.date.year, qm);
    r
  }

  /**
   * StartOfWeek: the day number of the week's first day, stepping back
   * (7 + weekday - firstWeekday) % 7 days with Go's `%`.
   */
  function StartOfWeek(t: DateTime, firstWeekday: int): (r: int)
    requires ValidDateTime(t)
    ensures 0 <= firstWeekday <= 6 ==>
              Weekday(r) == firstWeekday && 0 <= StartOfDay(t) - r <= 6
  {
    var sd := StartOfDay(t);
    var delta := GoRem(7 + Weekday(sd) - firstWeekday, 7);
    WeekdayShift(sd, -delta);
    sd - delta
  }

  /** StartOfWeek is the latest day on or before t with the first weekday. */
  lemma StartOfWeekLatest(t: DateTime, firstWeekday: int, day: int)
    requires ValidDateTime(t) && 0 <= firstWeekday <= 6
    requires day <= StartOfDay(t) && Weekday(day) == firstWeekday
    ensures day <= StartOfWeek(t, firstWeekday)
  {
    var s := StartOfWeek(t, firstWeekday);
    if day > s {
      WeekdayShift(s, day - s);
      assert false;
    }
  }

  /** EndOfWeek: the last nanosecond before the next week starts, as local nanoseconds since 1970-01-01. */
  function EndOfWeek(t: DateTime, firstWeekday: int): (r: int)
    requires ValidDateTime(t)
    ensures r / NanosPerDay == StartOfWeek(t, firstWeekday) + 6
    ensures r % NanosPerDay == NanosPerDay - 1
    ensures r + 1 == (StartOfWeek(t, firstWeekday) + 7) * NanosPerDay
  {
    StartOfWeek(t, firstWeekday) * NanosPerDay + 7 * NanosPerDay - 1
  }

  /**
   * NextWeekday: the day number of the next given weekday strictly after t's
   * day, a full week ahead when t already falls on it.
   */
  function NextWeekday(t: DateTime, weekday: int): (r: int)
    requires ValidDateTime(t)
    ensures 0 <= weekday <= 6 ==>
              Weekday(r) == weekday && 1 <= r - StartOfDay(t) <= 7
              && (r - StartOfDay(t) == 7 <==> Weekday(StartOfDay(t)) == weekday)
  {
    var sd := StartOfDay(t);
    var delta0 := GoRem(7 + weekday - Weekday(sd), 7);
    var delta := if delta0 == 0 then 7 else delta0;
    WeekdayShift(sd, delta);
    sd + delta
  }

  /** No day strictly between t's day and NextWeekday has the target weekday. */
  lemma NextWeekdayEarliest(t: DateTime, weekday: int, day: int)
    requires ValidDateTime(t) && 0 <= weekday <= 6
    requires StartOfDay(t) < day && Weekday(day) == weekday
    ensures NextWeekday(t, weekday) <= day
  {
    var n := NextWeekday(t, weekday);
    if day < n {
      WeekdayShift(StartOfDay(t), day - StartOfDay(t));
      assert false;
    }
  }

  /** IsSameDay compares the local year, month and day. */
  function IsSameDay(a: DateTime, b: DateTime): (r: bool)
    requires ValidDateTime(a) && ValidDateTime(b)
    ensures r <==> StartOfDay(a) == StartOfDay(b)
  {
    DayNumberInjective(a.date, b.date);
    a.date.year == b.date.year && a.date.month == b.date.month && a.date.day == b.date.day
  }

  /** IsWeekend: Saturday or Sunday. */
  function IsWeekend(t: DateTime): (r: bool)
    requires ValidDateTime(t)
    ensures r <==> Weekday(StartOfDay(t)) in {0, 6}
  {
    var wd := Weekday(StartOfDay(t));
    wd == 6 || wd == 0
  }

  /** The weekend is the last two days of a Monday-first week. */
  lemma WeekendClosesMondayWeek(t: DateTime)
    requires ValidDateTime(t)
    ensures IsWeekend(t) <==> StartOfDay(t) - StartOfWeek(t, 1) >= 5
  {
    var sd := StartOfDay(t);
    var s := StartOfWeek(t, 1);
    WeekdayShift(s, sd - s);
  }

  // ---------------------------------------------------------------------
  // Month, quarter and year boundaries, ranges and differences

  const NanosPerHour: int := 3_600_000_000_000

  /** The local instant of t: nanoseconds since 1970-01-01 00:00 on the local clock. */
  function Instant(t: DateTime): int
    requires ValidDateTime(t)
  {
    StartOfDay(t) * NanosPerDay + t.clock
  }

  /** The last day of month m of year y. */
  function LastDay(y: int, m: int): (d: Date)
    requires 1 <= m <= 12
    ensures ValidDate(d) && d.year == y && d.month == m && d.day == DaysIn(y, m)
  {
    Date(y, m, DaysIn(y, m))
  }

  /** The first day of the month after (y, m) follows the last day of (y, m). */
  lemma NextMonthFollows(y: int, m: int)
    requires 1 <= m <= 12
    ensures m < 12 ==> DayNumber(Date(y, m + 1, 1)) == DayNumber(LastDay(y, m)) + 1
    ensures m == 12 ==> DayNumber(Date(y + 1, 1, 1)) == DayNumber(LastDay(y, m)) + 1
  {
    DaysBeforeMonthStep(y, m);
    YearStartStep(y);
  }

  /** A date no later in its year than month m lies on or before the last day of m. */
  lemma NotAfterLastDay(d: Date, m: int)
    requires ValidDate(d) && d.month <= m <= 12
    ensures DayNumber(d) <= DayNumber(LastDay(d.year, m))
  {
    if d != LastDay(d.year, m) {
      DayNumberOrder(d, LastDay(d.year, m));
    }
  }

  /**
   * k months after midnight of a month's first day, staying within the
   * year, is midnight after the last day of the k-th month counted from it.
   */
  lemma MonthsFromFirst(s: DateTime, k: int)
    requires ValidDateTime(s) && s.date.day == 1 && s.clock == 0
    requires 1 <= k && s.date.month + k - 1 <= 12
    ensures Instant(AddMonths(s, k)) == (DayNumber(LastDay(s.date.year, s.date.month + k - 1)) + 1) * NanosPerDay
  {
    var next := AddMonths(s, k);
    var m := s.date.month + k - 1;
    NextMonthFollows(s.date.year, m);
    if m < 12 {
      MonthIndexUnique(next.date.year, next.date.month, s.date.year, m + 1);
    } else {
      MonthIndexUnique(next.date.year, next.date.month, s.date.year + 1, 1);
    }
  }

  /** Midnight of a day is a whole number of days. */
  lemma Midnight(day: int)
    ensures (day * NanosPerDay) / NanosPerDay == day && (day * NanosPerDay) % NanosPerDay == 0
  {
  }

  /** A time on one of the days lo..hi lies between midnight of lo and the last nanosecond of hi. */
  lemma WithinDays(t: DateTime, lo: int, hi: int)
    requires ValidDateTime(t) && lo <= StartOfDay(t) <= hi
    ensures lo * NanosPerDay <= Instant(t) <= (hi + 1) * NanosPerDay - 1
  {
    var d := StartOfDay(t);
    assert (d - lo) * NanosPerDay >= 0;
    assert (hi - d) * NanosPerDay >= 0;
  }

  /** The last nanosecond of a day, counted as an instant. */
  lemma LastNanosecond(day: int, r: int)
    requires r == (day + 1) * NanosPerDay - 1
    ensures r / NanosPerDay == day && r % NanosPerDay == NanosPerDay - 1
  {
    assert r == day * NanosPerDay + (NanosPerDay - 1);
  }

  /** StartOfMonth: midnight of the first day of t's month. */
  function StartOfMonth(t: DateTime): (r: DateTime)
    requires ValidDateTime(t)
    ensures ValidDateTime(r)
    ensures r.date.year == t.date.year && r.date.month == t.date.month
    ensures r.date.day == 1 && r.clock == 0
    ensures 0 <= Instant(t) - Instant(r) < DaysIn(t.date.year, t.date.month) * NanosPerDay
  {
    var r := DateTime(GoDate(t.date.year, t.date.month, 1), 0);
    MonthIndexUnique(r.date.year, r.date.month, t.date.year, t.date.month);
    r
  }

  /**
   * EndOfMonth: one nanosecond before AddMonths(StartOfMonth(t), 1), as a
   * local instant: the last nanosecond of the last day of t's month.
   */
  function EndOfMonth(t: DateTime): (r: int)
    requires ValidDateTime(t)
    ensures r / NanosPerDay == DayNumber(LastDay(t.date.year, t.date.month))
    ensures r % NanosPerDay == NanosPerDay - 1
    ensures Instant(t) <= r
  {
    var next := AddMonths(StartOfMonth(t), 1);
    MonthsFromFirst(StartOfMonth(t), 1);
    LastNanosecond(DayNumber(LastDay(t.date.year, t.date.month)), Instant(next) - 1);
    NotAfterLastDay(t.date, t.date.month);
    Instant(next) - 1
  }

  /** StartOfYear: midnight of January 1st of t's year. */
  function StartOfYear(t: DateTime): (r: DateTime)
    requires ValidDateTime(t)
    ensures ValidDateTime(r)
    ensures r.date.year == t.date.year && r.date.month == 1 && r.date.day == 1 && r.clock == 0
    ensures 0 <= Instant(t) - Instant(r) < YearLength(t.date.year) * NanosPerDay
  {
    DayOfYearBounds(t.date);
    YearStartStep(t.date.year);
    DateTime(GoDate(t.date.year, 1, 1), 0)
  }

  /** EndOfYear: one nanosecond before January 1st of the next year: the last nanosecond of December 31st. */
  function EndOfYear(t: DateTime): (r: int)
    requires ValidDateTime(t)
    ensures r / NanosPerDay == DayNumber(LastDay(t.date.year, 12))
    ensures r % NanosPerDay == NanosPerDay - 1
    ensures Instant(t) <= r
  {
    var next := DateTime(GoDate(StartOfYear(t).date.year + 1, 1, 1), 0);
    NextMonthFollows(t.date.year, 12);
    LastNanosecond(DayNumber(LastDay(t.date.year, 12)), Instant(next) - 1);
    NotAfterLastDay(t.date, 12);
    Instant(next) - 1
  }

  /**
   * EndOfQuarter: one nanosecond before AddMonths(StartOfQuarter(t), 3): the
   * last nanosecond of the quarter's third month, which holds t.
   */
  function EndOfQuarter(t: DateTime): (r: int)
    requires ValidDateTime(t)
    ensures var q := StartOfQuarter(t).date.month;
            r / NanosPerDay == DayNumber(LastDay(t.date.year, q + 2))
    ensures r % NanosPerDay == NanosPerDay - 1
    ensures Instant(t) <= r
  {
    var soq := StartOfQuarter(t);
    var q := soq.date.month;
    var next := AddMonths(soq, 3);
    MonthsFromFirst(soq, 3);
    LastNanosecond(DayNumber(LastDay(t.date.year, q + 2)), Instant(next) - 1);
    NotAfterLastDay(t.date, q + 2);
    Instant(next) - 1
  }

  /** GetWeekRange: the week's first instant and last nanosecond, seven days apart, around t for a weekday in 0..6. */
  function GetWeekRange(t: DateTime, firstWeekday: int): (r: (int, int))
    requires ValidDateTime(t)
    ensures r == (StartOfWeek(t, firstWeekday) * NanosPerDay, EndOfWeek(t, firstWeekday))
    ensures r.1 - r.0 + 1 == 7 * NanosPerDay
    ensures 0 <= firstWeekday <= 6 ==> r.0 <= Instant(t) <= r.1 && Weekday(r.0 / NanosPerDay) == firstWeekday
  {
    var s := StartOfWeek(t, firstWeekday);
    Midnight(s);
    assert 0 <= firstWeekday <= 6 ==> s * NanosPerDay <= Instant(t) <= (s + 7) * NanosPerDay - 1 by {
      if 0 <= firstWeekday <= 6 {
        WithinDays(t, s, s + 6);
      }
    }
    (s * NanosPerDay, EndOfWeek(t, firstWeekday))
  }

  /** GetMonthRange: the month's first instant and last nanosecond, around t, as long as the month. */
  function GetMonthRange(t: DateTime): (r: (int, int))
    requires ValidDateTime(t)
    ensures r == (Instant(StartOfMonth(t)), EndOfMonth(t))
    ensures r.0 <= Instant(t) <= r.1
    ensures r.1 - r.0 + 1 == DaysIn(t.date.year, t.date.month) * NanosPerDay
  {
    var s := StartOfMonth(t);
    var e := EndOfMonth(t);
    assert e == (DayNumber(LastDay(t.date.year, t.date.month)) + 1) * NanosPerDay - 1;
    (Instant(s), e)
  }

  /** GetQuarterRange: the quarter's first instant and last nanosecond, around t. */
  function GetQuarterRange(t: DateTime): (r: (int, int))
    requires ValidDateTime(t)
    ensures r == (Instant(StartOfQuarter(t)), EndOfQuarter(t))
    ensures r.0 <= Instant(t) <= r.1
    ensures r.0 % NanosPerDay == 0 && r.1 % NanosPerDay == NanosPerDay - 1
  {
    var s := StartOfQuarter(t);
    assert StartOfDay(s) <= StartOfDay(t) by {
      if s.date != t.date {
        DayNumberOrder(s.date, t.date);
      }
    }
    Midnight(StartOfDay(s));
    WithinDays(t, StartOfDay(s), StartOfDay(t));
    (Instant(s), EndOfQuarter(t))
  }

  /** GetYearRange: the year's first instant and last nanosecond, around t, as long as the year. */
  function GetYearRange(t: DateTime): (r: (int, int))
    requires ValidDateTime(t)
    ensures r == (Instant(StartOfYear(t)), EndOfYear(t))
    ensures r.0 <= Instant(t) <= r.1
    ensures r.1 - r.0 + 1 == YearLength(t.date.year) * NanosPerDay
  {
    var s := StartOfYear(t);
    var e := EndOfYear(t);
    assert e == (DayNumber(LastDay(t.date.year, 12)) + 1) * NanosPerDay - 1;
    YearStartStep(t.date.year);
    (Instant(s), e)
  }

  /** The reach of a time.Duration (int64 nanoseconds) in whole days and in whole hours. */
  const MaxDurationDays: int := 106_751
  const MaxDurationHours: int := 2_562_047

  /**
   * time.Time.Sub's result for an exact difference of x nanoseconds: x when
   * it fits in a Duration, otherwise the largest or smallest Duration.
   */
  function SaturatedDuration(x: int): int
  {
    if x > MaxInt64 then MaxInt64 else if x < MinInt64 then MinInt64 else x
  }

  /** The largest and smallest Durations hold 106751 days and 2562047 hours, truncated. */
  lemma DurationLimits()
    ensures GoQuo(MaxInt64, NanosPerDay) == MaxDurationDays && GoQuo(MinInt64, NanosPerDay) == -MaxDurationDays
    ensures GoQuo(MaxInt64, NanosPerHour) == MaxDurationHours && GoQuo(MinInt64, NanosPerHour) == -MaxDurationHours
  {
  }

  /** n whole days in nanoseconds, through Sub and the division by 24h: n itself within the Duration's reach, else the reach. */
  lemma WholeDaysQuotient(n: int)
    ensures Abs(n) <= MaxDurationDays ==> GoQuo(SaturatedDuration(n * NanosPerDay), NanosPerDay) == n
    ensures n > MaxDurationDays ==> GoQuo(SaturatedDuration(n * NanosPerDay), NanosPerDay) == MaxDurationDays
    ensures n < -MaxDurationDays ==> GoQuo(SaturatedDuration(n * NanosPerDay), NanosPerDay) == -MaxDurationDays
  {
    var x := n * NanosPerDay;
    DurationLimits();
    if Abs(n) <= MaxDurationDays {
      assert MinInt64 <= x <= MaxInt64;
      if n < 0 {
        assert Abs(x) == -n * NanosPerDay;
      }
    } else if n > MaxDurationDays {
      assert x >= (MaxDurationDays + 1) * NanosPerDay;
    } else {
      assert x <= -(MaxDurationDays + 1) * NanosPerDay;
    }
  }

  /**
   * DiffDays: the signed count of days from a's local midnight to b's,
   * as time.Time.Sub (which saturates at about 292 years) divided by 24h.
   */
  function DiffDays(a: DateTime, b: DateTime): (r: int)
    requires ValidDateTime(a) && ValidDateTime(b)
    ensures Abs(StartOfDay(b) - StartOfDay(a)) <= MaxDurationDays ==> StartOfDay(a) + r == StartOfDay(b)
    ensures StartOfDay(b) - StartOfDay(a) > MaxDurationDays ==> r == MaxDurationDays
    ensures StartOfDay(b) - StartOfDay(a) < -MaxDurationDays ==> r == -MaxDurationDays
  {
    var n := StartOfDay(b) - StartOfDay(a);
    WholeDaysQuotient(n);
    GoQuo(SaturatedDuration(n * NanosPerDay), NanosPerDay)
  }

  /**
   * Day differences add up along a chain while each lies within a
   * Duration's reach, and are zero exactly on the same day.
   */
  lemma DiffDaysChain(a: DateTime, b: DateTime, c: DateTime)
    requires ValidDateTime(a) && ValidDateTime(b) && ValidDateTime(c)
    ensures Abs(StartOfDay(b) - StartOfDay(a)) <= MaxDurationDays && Abs(StartOfDay(c) - StartOfDay(b)) <= MaxDurationDays &&
            Abs(StartOfDay(c) - StartOfDay(a)) <= MaxDurationDays ==>
              DiffDays(a, b) + DiffDays(b, c) == DiffDays(a, c)
    ensures DiffDays(a, b) == 0 <==> IsSameDay(a, b)
  {
  }

  /**
   * Three hundred years are beyond a Duration: from 1700-01-01 to
   * 2000-01-01 there are 109572 days, and DiffDays gives 106751.
   */
  lemma DiffDaysSaturates()
    ensures var a := DateTime(Date(1700, 1, 1), 0);
            var b := DateTime(Date(2000, 1, 1), 0);
            StartOfDay(b) - StartOfDay(a) == 109572 && DiffDays(a, b) == MaxDurationDays && DiffDays(b, a) == -MaxDurationDays
  {
  }

  /** The hours in x nanoseconds through Sub's saturation and the truncating division by one hour. */
  lemma HoursQuotient(x: int)
    ensures var r := GoQuo(SaturatedDuration(x), NanosPerHour);
            && Abs(r) <= MaxDurationHours
            && (MinInt64 <= x <= MaxInt64 ==> NanosPerHour * Abs(r) <= Abs(x) < NanosPerHour * (Abs(r) + 1))
            && (x > MaxInt64 ==> r == MaxDurationHours)
            && (x < MinInt64 ==> r == -MaxDurationHours)
            && (r != 0 ==> (r > 0 <==> x > 0))
  {
    DurationLimits();
    var d := SaturatedDuration(x);
    var r := GoQuo(d, NanosPerHour);
    assert NanosPerHour * Abs(r) <= Abs(d) <= -MinInt64;
  }

  /**
   * DiffHours: the time from a to b in whole hours, truncated toward zero,
   * as time.Time.Sub (saturating at the Duration's reach) divided by 1h.
   */
  function DiffHours(a: DateTime, b: DateTime): (r: int)
    requires ValidDateTime(a) && ValidDateTime(b)
    ensures Abs(r) <= MaxDurationHours
    ensures MinInt64 <= Instant(b) - Instant(a) <= MaxInt64 ==>
              NanosPerHour * Abs(r) <= Abs(Instant(b) - Instant(a)) < NanosPerHour * (Abs(r) + 1)
    ensures Instant(b) - Instant(a) > MaxInt64 ==> r == MaxDurationHours
    ensures Instant(b) - Instant(a) < MinInt64 ==> r == -MaxDurationHours
    ensures r != 0 ==> (r > 0 <==> Instant(b) > Instant(a))
  {
    HoursQuotient(Instant(b) - Instant(a));
    GoQuo(SaturatedDuration(Instant(b) - Instant(a)), NanosPerHour)
  }

  /**
   * Truncation toward zero makes DiffHours antisymmetric, where a floor
   * would not be; so does the saturation, since 2^63 and 2^63 - 1
   * nanoseconds hold the same whole hours.
   */
  lemma DiffHoursAntisymmetric(a: DateTime, b: DateTime)
    requires ValidDateTime(a) && ValidDateTime(b)
    ensures DiffHours(b, a) == -DiffHours(a, b)
  {
    var x := Instant(b) - Instant(a);
    DurationLimits();
    if MinInt64 < x <= MaxInt64 {
      assert Abs(-x) == Abs(x);
    }
  }

  /** TruncateToHour: the same local day, the clock cut back to the start of its hour. */
  function TruncateToHour(t: DateTime): (r: DateTime)
    requires ValidDateTime(t)
    ensures ValidDateTime(r) && r.date == t.date
    ensures r.clock % NanosPerHour == 0 && r.clock <= t.clock < r.clock + NanosPerHour
  {
    DateTime(t.date, t.clock / NanosPerHour * NanosPerHour)
  }

  /** Truncating an hour-aligned time changes nothing, so truncating twice is truncating once. */
  lemma TruncateToHourIdempotent(t: DateTime)
    requires ValidDateTime(t)
    ensures TruncateToHour(TruncateToHour(t)) == TruncateToHour(t)
  {
    var r := TruncateToHour(t);
    assert r.clock / NanosPerHour * NanosPerHour == r.clock;
  }
}
