// The lunisolar ("nongli") calendar converter of the timeenv package: a
// bit-packed table gives, for every lunar year 1900..2099, the leap month and
// the length of each month; solar dates are counted as days from
// 1900-01-31, the first day of lunar year 1900.

module Lunar {
  import opened Wrappers
  import Civil

  /** A lunar date; isLeap marks the intercalary copy of `month`. */
  datatype LunarDate = LunarDate(year: int, month: int, day: int, isLeap: bool)

  /** The distinct error returns of SolarToLunar and LunarToSolar. */
  datatype LunarError =
    | SolarOutOfRange      // before 1900-01-31 or after 2099-12-31
    | LunarYearOverflow    // the year walk ran past 2099
    | YearOutOfRange       // lunar year outside 1900..2099
    | MonthOutOfRange      // lunar month outside 1..12
    | NoSuchLeapMonth      // isLeap but the year has no leap month, or another one
    | LeapDayOutOfRange    // day outside the leap month
    | DayOutOfRange        // day outside the ordinary month

  /** The first and last lunar years of the table. */
  const FirstYear: int := 1900
  const LastYear: int := 2099

  predicate InTable(y: int)
  {
    FirstYear <= y <= LastYear
  }

  /**
   * `x & mask != 0` for a non-negative x and a power-of-two mask, stated on
   * integers: the bit that mask selects is set in x.
   */
  predicate HasBit(x: int, mask: int)
    requires mask > 0
  {
    (x / mask) % 2 == 1
  }

  /** The mask 0x10000 >> m that selects month m's length bit (m = 13 gives the loop's stop value 0x8). */
  function MonthMask(m: int): (mask: int)
    requires 1 <= m <= 13
    ensures mask >= 0x8
  {
    match m
    case 1 => 0x8000 case 2 => 0x4000 case 3 => 0x2000 case 4 => 0x1000
    case 5 => 0x800 case 6 => 0x400 case 7 => 0x200 case 8 => 0x100
    case 9 => 0x80 case 10 => 0x40 case 11 => 0x20 case 12 => 0x10
    case _ => 0x8
  }

  /** Shifting the mask right by one moves to the next month. */
  lemma MonthMaskStep(m: int)
    requires 1 <= m <= 12
    ensures MonthMask(m + 1) == MonthMask(m) / 2
    ensures MonthMask(m) > 0x8 && MonthMask(13) == 0x8
  {
  }

  // ---------------------------------------------------------------------
  // Decoding one table entry.

  /** An entry's leap month: the low four bits, 0 when the year has none. */
  function EntryLeapMonth(info: int): (m: int)
    ensures 0 <= m <= 15
  {
    info % 16
  }

  /** An entry's leap-month length: 0 without a leap month, else 30 or 29 by bit 0x10000. */
  function EntryLeapDays(info: int): (n: int)
    ensures n == 0 <==> EntryLeapMonth(info) == 0
    ensures n != 0 ==> (n == 30 <==> HasBit(info, 0x10000)) && (n == 29 <==> !HasBit(info, 0x10000))
  {
    if EntryLeapMonth(info) != 0 then
      (if HasBit(info, 0x10000) then 30 else 29)
    else
      0
  }

  /** An entry's length of ordinary month m: 30 days when bit 0x10000 >> m is set, else 29. */
  function EntryMonthDays(info: int, m: int): (n: int)
    requires 1 <= m <= 12
    ensures n == 29 || n == 30
    ensures n == 30 <==> HasBit(info, MonthMask(m))
  {
    if !HasBit(info, MonthMask(m)) then 29 else 30
  }

  /**
   * Number of 30-day months among months 1..k of an entry. (The entry comes
   * first in the decreases clause so that only a literal entry is unfolded
   * all the way down.)
   */
  function BigMonthsThrough(info: int, k: int): (n: int)
    requires 0 <= k <= 12
    ensures 0 <= n <= k
    decreases info, k
  {
    if k == 0 then 0 else BigMonthsThrough(info, k - 1) + Bit(info, MonthMask(k))
  }

  /** 1 when the bit that mask selects is set, else 0. */
  function Bit(info: int, mask: int): (b: int)
    requires mask > 0
    ensures b == 1 <==> HasBit(info, mask)
    ensures b == 0 <==> !HasBit(info, mask)
  {
    if HasBit(info, mask) then 1 else 0
  }

  /** An entry's year length: 348 days, one more per 30-day month, plus the leap month. */
  function EntryYearDays(info: int): (n: int)
    ensures 348 <= n <= 390
  {
    348 + BigMonthsThrough(info, 12) + EntryLeapDays(info)
  }

  /** The year length bit by bit, as lunarYearDays's loop reads the mask 0x8000 down to 0x10. */
  lemma YearDaysByBits(info: int)
    ensures EntryYearDays(info)
            == 348 + Bit(info, 0x8000) + Bit(info, 0x4000) + Bit(info, 0x2000) + Bit(info, 0x1000)
               + Bit(info, 0x800) + Bit(info, 0x400) + Bit(info, 0x200) + Bit(info, 0x100)
               + Bit(info, 0x80) + Bit(info, 0x40) + Bit(info, 0x20) + Bit(info, 0x10)
               + EntryLeapDays(info)
  {
    assert BigMonthsThrough(info, 1) == Bit(info, 0x8000);
    assert BigMonthsThrough(info, 2) == BigMonthsThrough(info, 1) + Bit(info, 0x4000);
    assert BigMonthsThrough(info, 3) == BigMonthsThrough(info, 2) + Bit(info, 0x2000);
    assert BigMonthsThrough(info, 4) == BigMonthsThrough(info, 3) + Bit(info, 0x1000);
    assert BigMonthsThrough(info, 5) == BigMonthsThrough(info, 4) + Bit(info, 0x800);
    assert BigMonthsThrough(info, 6) == BigMonthsThrough(info, 5) + Bit(info, 0x400);
    assert BigMonthsThrough(info, 7) == BigMonthsThrough(info, 6) + Bit(info, 0x200);
    assert BigMonthsThrough(info, 8) == BigMonthsThrough(info, 7) + Bit(info, 0x100);
    assert BigMonthsThrough(info, 9) == BigMonthsThrough(info, 8) + Bit(info, 0x80);
    assert BigMonthsThrough(info, 10) == BigMonthsThrough(info, 9) + Bit(info, 0x40);
    assert BigMonthsThrough(info, 11) == BigMonthsThrough(info, 10) + Bit(info, 0x20);
    assert BigMonthsThrough(info, 12) == BigMonthsThrough(info, 11) + Bit(info, 0x10);
  }

  /** Days of month k together with the leap month that follows it, if any. */
  function MonthSpan(info: int, k: int): (n: int)
    requires 1 <= k <= 12
    ensures 29 <= n <= 60
  {
    EntryMonthDays(info, k) + (if EntryLeapMonth(info) == k then EntryLeapDays(info) else 0)
  }

  /** Days of the year before ordinary month m (leap months included). */
  function DaysBeforeMonth(info: int, m: int): (n: int)
    requires 1 <= m <= 13
    ensures 29 * (m - 1) <= n
  {
    if m == 1 then 0 else DaysBeforeMonth(info, m - 1) + MonthSpan(info, m - 1)
  }

  /** The months before m add up to 29 a month, one per 30-day month, and the leap month once passed. */
  lemma {:induction false} DaysBeforeMonthClosedForm(info: int, m: int)
    requires 1 <= m <= 13
    ensures DaysBeforeMonth(info, m)
            == 29 * (m - 1) + BigMonthsThrough(info, m - 1)
               + (if 1 <= EntryLeapMonth(info) < m then EntryLeapDays(info) else 0)
  {
    if m > 1 {
      DaysBeforeMonthClosedForm(info, m - 1);
    }
  }

  /** With a leap month in 0..12, the twelve months and the leap month make up the year. */
  lemma YearIsItsMonths(info: int)
    requires EntryLeapMonth(info) <= 12
    ensures DaysBeforeMonth(info, 13) == EntryYearDays(info)
  {
    DaysBeforeMonthClosedForm(info, 13);
  }

  /** Later months start later: month m2 starts after all of month m1 < m2. */
  lemma {:induction false} MonthStartsIncrease(info: int, m1: int, m2: int)
    requires 1 <= m1 < m2 <= 13
    ensures DaysBeforeMonth(info, m1) + MonthSpan(info, m1) <= DaysBeforeMonth(info, m2)
    decreases m2 - m1
  {
    if m1 + 1 < m2 {
      MonthStartsIncrease(info, m1 + 1, m2);
    }
  }

  // ---------------------------------------------------------------------
  // The table.

  /** One line of the lunarInfo array: the entries of ten consecutive years. */
  datatype Decade = Decade(y0: int, y1: int, y2: int, y3: int, y4: int,
                           y5: int, y6: int, y7: int, y8: int, y9: int)

  /** Entry k (0..9) of a decade. */
  function DecadeEntry(row: Decade, k: int): int
  {
    match k
    case 0 => row.y0 case 1 => row.y1 case 2 => row.y2 case 3 => row.y3 case 4 => row.y4
    case 5 => row.y5 case 6 => row.y6 case 7 => row.y7 case 8 => row.y8 case _ => row.y9
  }

  /**
   * The lunarInfo array, decade by decade, as a binary tree: read left to
   * right, the leaves are the decades 1900-1909, 1910-1919, ..., 2090-2099,
   * then zero rows that pad the tree to 32 leaves.
   */
  datatype InfoTree = Leaf(row: Decade) | Pair(low: InfoTree, high: InfoTree)

  /** Leaf i of a tree with 2 * half leaves. */
  function Lookup(t: InfoTree, i: int, half: int): Decade
    decreases t, i
  {
    match t
    case Leaf(row) => row
    case Pair(low, high) =>
      if i < half then Lookup(low, i, half / 2) else Lookup(high, i - half, half / 2)
  }

  /** A table entry below 0x20000 that names a leap month in 0..12. */
  predicate WellFormedEntry(info: int)
  {
    0 <= info < 0x20000 && EntryLeapMonth(info) <= 12
  }

  predicate WellFormed(t: InfoTree)
  {
    match t
    case Leaf(r) =>
      && WellFormedEntry(r.y0) && WellFormedEntry(r.y1) && WellFormedEntry(r.y2) && WellFormedEntry(r.y3)
      && WellFormedEntry(r.y4) && WellFormedEntry(r.y5) && WellFormedEntry(r.y6) && WellFormedEntry(r.y7)
      && WellFormedEntry(r.y8) && WellFormedEntry(r.y9)
    case Pair(low, high) => WellFormed(low) && WellFormed(high)
  }

  lemma {:induction false} LookupWellFormed(t: InfoTree, i: int, half: int, k: int)
    requires WellFormed(t)
    ensures WellFormedEntry(DecadeEntry(Lookup(t, i, half), k))
    decreases t, i
  {
    match t
    case Leaf(_) =>
    case Pair(low, high) =>
      if i < half {
        LookupWellFormed(low, i, half / 2, k);
      } else {
        LookupWellFormed(high, i - half, half / 2, k);
      }
  }

  const LunarInfoTable: InfoTree :=
    Pair(
      Pair(
        Pair(
          Pair(
            Pair(
              Leaf(Decade(0x04bd8, 0x04ae0, 0x0a570, 0x054d5, 0x0d260, 0x0d950, 0x16554, 0x056a0, 0x09ad0, 0x055d2)),
              Leaf(Decade(0x04ae0, 0x0a5b6, 0x0a4d0, 0x0d250, 0x1d255, 0x0b540, 0x0d6a0, 0x0ada2, 0x095b0, 0x14977))),
            Pair(
              Leaf(Decade(0x04970, 0x0a4b0, 0x0b4b5, 0x06a50, 0x06d40, 0x1ab54, 0x02b60, 0x09570, 0x052f2, 0x04970)),
              Leaf(Decade(0x06566, 0x0d4a0, 0x0ea50, 0x16a95, 0x05ad0, 0x02b60, 0x186e3, 0x092e0, 0x1c8d7, 0x0c950)))),
          Pair(
            Pair(
              Leaf(Decade(0x0d4a0, 0x1d8a6, 0x0b550, 0x056a0, 0x1a5b4, 0x025d0, 0x092d0, 0x0d2b2, 0x0a950, 0x0b557)),
              Leaf(Decade(0x06ca0, 0x0b550, 0x15355, 0x04da0, 0x0a5b0, 0x14573, 0x052b0, 0x0a9a8, 0x0e950, 0x06aa0))),
            Pair(
              Leaf(Decade(0x0aea6, 0x0ab50, 0x04b60, 0x0aae4, 0x0a570, 0x05260, 0x0f263, 0x0d950, 0x05b57, 0x056a0)),
              Leaf(Decade(0x096d0, 0x04dd5, 0x04ad0, 0x0a4d0, 0x0d4d4, 0x0d250, 0x0d558, 0x0b540, 0x0b6a0, 0x195a6))))),
        Pair(
          Pair(
            Pair(
              Leaf(Decade(0x095b0, 0x049b0, 0x0a974, 0x0a4b0, 0x0b27a, 0x06a50, 0x06d40, 0x0af46, 0x0ab60, 0x09570)),
              Leaf(Decade(0x04af5, 0x04970, 0x064b0, 0x074a3, 0x0ea50, 0x06b58, 0x05ac0, 0x0ab60, 0x096d5, 0x092e0))),
            Pair(
              Leaf(Decade(0x0c960, 0x0d954, 0x0d4a0, 0x0da50, 0x07552, 0x056a0, 0x0abb7, 0x025d0, 0x092d0, 0x0cab5)),
              Leaf(Decade(0x0a950, 0x0b4a0, 0x0baa4, 0x0ad50, 0x055d9, 0x04ba0, 0x0a5b0, 0x15176, 0x052b0, 0x0a930)))),
          Pair(
            Pair(
              Leaf(Decade(0x07954, 0x06aa0, 0x0ad50, 0x05b52, 0x04b60, 0x0a6e6, 0x0a4e0, 0x0d260, 0x0ea65, 0x0d530)),
              Leaf(Decade(0x05aa0, 0x076a3, 0x096d0, 0x04afb, 0x04ad0, 0x0a4d0, 0x1d0b6, 0x0d250, 0x0d520, 0x0dd45))),
            Pair(
              Leaf(Decade(0x0b5a0, 0x056d0, 0x055b2, 0x049b0, 0x0a577, 0x0a4b0, 0x0aa50, 0x1b255, 0x06d20, 0x0ada0)),
              Leaf(Decade(0x14b63, 0x09370, 0x049f8, 0x04970, 0x064b0, 0x168a6, 0x0ea50, 0x06b20, 0x1a6c4, 0x0aae0)))))),
      Pair(
        Pair(
          Pair(
            Pair(
              Leaf(Decade(0x092e0, 0x0d2e3, 0x0c960, 0x0d557, 0x0d4a0, 0x0da50, 0x05d55, 0x056a0, 0x0a6d0, 0x055d4)),
              Leaf(Decade(0x052d0, 0x0a9b8, 0x0a950, 0x0b4a0, 0x0b6a6, 0x0ad50, 0x055a0, 0x0aba4, 0x0a5b0, 0x052b0))),
            Pair(
              Leaf(Decade(0x0b273, 0x06930, 0x07337, 0x06aa0, 0x0ad50, 0x14b55, 0x04b60, 0x0a570, 0x054e4, 0x0d160)),
              Leaf(Decade(0x0e968, 0x0d520, 0x0daa0, 0x16aa6, 0x056d0, 0x04ae0, 0x0a9d4, 0x0a2d0, 0x0d150, 0x0f252)))),
          Leaf(Decade(0, 0, 0, 0, 0, 0, 0, 0, 0, 0))),
        Leaf(Decade(0, 0, 0, 0, 0, 0, 0, 0, 0, 0))))

  lemma TableWellFormed()
    ensures WellFormed(LunarInfoTable)
  {
  }

  /** lunarInfo[y - 1900]: row (y - 1900) / 10, column (y - 1900) % 10; every entry is well formed. */
  function LunarInfo(y: int): (info: int)
    requires InTable(y)
    ensures WellFormedEntry(info)
  {
    TableWellFormed();
    LookupWellFormed(LunarInfoTable, (y - 1900) / 10, 16, (y - 1900) % 10);
    DecadeEntry(Lookup(LunarInfoTable, (y - 1900) / 10, 16), (y - 1900) % 10)
  }

  // ---------------------------------------------------------------------
  // The per-year accessors.

  /** leapMonth(y): 0 when lunar year y has no leap month. */
  function LeapMonth(y: int): (m: int)
    requires InTable(y)
    ensures 0 <= m <= 12
  {
    EntryLeapMonth(LunarInfo(y))
  }

  /** leapDays(y). */
  function LeapDays(y: int): (n: int)
    requires InTable(y)
    ensures n == 0 <==> LeapMonth(y) == 0
  {
    EntryLeapDays(LunarInfo(y))
  }

  /** monthDays(y, m). */
  function MonthDays(y: int, m: int): (n: int)
    requires InTable(y) && 1 <= m <= 12
    ensures n == 29 || n == 30
  {
    EntryMonthDays(LunarInfo(y), m)
  }

  /** The year length lunarYearDays computes. */
  function YearDays(y: int): (n: int)
    requires InTable(y)
    ensures 348 <= n <= 390
  {
    EntryYearDays(LunarInfo(y))
  }

  /** lunarYearDays: walks the mask from 0x8000 down to 0x10, adding one per set bit, then the leap month. */
  method LunarYearDays(y: int) returns (sum: int)
    requires InTable(y)
    ensures sum == YearDays(y)
  {
    var info := LunarInfo(y);
    sum := 348;
    var i := 0x8000;
    ghost var m := 1;
    while i > 0x8
      invariant 1 <= m <= 13
      invariant i == MonthMask(m)
      invariant sum == 348 + BigMonthsThrough(info, m - 1)
      decreases i
    {
      MonthMaskStep(m);
      if HasBit(info, i) {
        sum := sum + 1;
      }
      i := i / 2;
      m := m + 1;
    }
    sum := sum + LeapDays(y);
  }

  /** Days from lunar new year 1900 to lunar new year y. */
  function DaysBeforeYear(y: int): (n: int)
    requires FirstYear <= y <= LastYear + 1
    ensures n >= 0
  {
    if y == FirstYear then 0 else DaysBeforeYear(y - 1) + YearDays(y - 1)
  }

  lemma {:induction false} YearStartsIncrease(y1: int, y2: int)
    requires FirstYear <= y1 < y2 <= LastYear + 1
    ensures DaysBeforeYear(y1) + YearDays(y1) <= DaysBeforeYear(y2)
    decreases y2 - y1
  {
    if y1 + 1 < y2 {
      YearStartsIncrease(y1, y2 - 1);
    }
    assert DaysBeforeYear(y2) == DaysBeforeYear(y2 - 1) + YearDays(y2 - 1);
  }

  /** The lunar dates LunarToSolar accepts. */
  predicate ValidLunarDate(d: LunarDate)
  {
    && InTable(d.year)
    && 1 <= d.month <= 12
    && if d.isLeap then LeapMonth(d.year) == d.month && 1 <= d.day <= LeapDays(d.year)
       else 1 <= d.day <= MonthDays(d.year, d.month)
  }

  /** Days from 1900-01-31 to the solar day of a valid lunar date. */
  function ToOffset(d: LunarDate): int
    requires ValidLunarDate(d)
  {
    DaysBeforeYear(d.year) + DaysBeforeMonth(LunarInfo(d.year), d.month)
    + (if d.isLeap then MonthDays(d.year, d.month) else 0) + d.day - 1
  }

  /** A valid date lies inside its month span and its year. */
  lemma OffsetInsideYear(d: LunarDate)
    requires ValidLunarDate(d)
    ensures DaysBeforeYear(d.year) + DaysBeforeMonth(LunarInfo(d.year), d.month) <= ToOffset(d)
    ensures ToOffset(d) < DaysBeforeYear(d.year) + DaysBeforeMonth(LunarInfo(d.year), d.month)
                          + MonthSpan(LunarInfo(d.year), d.month)
    ensures ToOffset(d) < DaysBeforeYear(d.year) + YearDays(d.year)
  {
    var info := LunarInfo(d.year);
    YearIsItsMonths(info);
    if d.month < 12 {
      MonthStartsIncrease(info, d.month, 13);
    }
  }

  /** Every valid lunar date falls in the table's range of days. */
  lemma ToOffsetBounds(d: LunarDate)
    requires ValidLunarDate(d)
    ensures 0 <= ToOffset(d) < DaysBeforeYear(LastYear + 1)
  {
    OffsetInsideYear(d);
    YearStartsIncrease(d.year, LastYear + 1);
  }

  /** Lexicographic order of (year, month, isLeap, day) is the order of offsets. */
  lemma ToOffsetOrder(a: LunarDate, b: LunarDate)
    requires ValidLunarDate(a) && ValidLunarDate(b)
    requires a.year < b.year
          || (a.year == b.year && a.month < b.month)
          || (a.year == b.year && a.month == b.month && !a.isLeap && b.isLeap)
          || (a.year == b.year && a.month == b.month && a.isLeap == b.isLeap && a.day < b.day)
    ensures ToOffset(a) < ToOffset(b)
  {
    OffsetInsideYear(a);
    OffsetInsideYear(b);
    if a.year < b.year {
      YearStartsIncrease(a.year, b.year);
    } else if a.month < b.month {
      MonthStartsIncrease(LunarInfo(a.year), a.month, b.month);
    }
  }

  /** Distinct valid lunar dates are distinct solar days. */
  lemma ToOffsetInjective(a: LunarDate, b: LunarDate)
    requires ValidLunarDate(a) && ValidLunarDate(b)
    ensures ToOffset(a) == ToOffset(b) <==> a == b
  {
    if a != b {
      if a.year < b.year
         || (a.year == b.year && a.month < b.month)
         || (a.year == b.year && a.month == b.month && !a.isLeap && b.isLeap)
         || (a.year == b.year && a.month == b.month && a.isLeap == b.isLeap && a.day < b.day) {
        ToOffsetOrder(a, b);
      } else {
        ToOffsetOrder(b, a);
      }
    }
  }

  /** A leap month starts right after the whole ordinary month of the same number. */
  lemma LeapMonthFollowsOrdinary(y: int)
    requires InTable(y) && LeapMonth(y) != 0
    ensures ValidLunarDate(LunarDate(y, LeapMonth(y), 1, true))
    ensures ToOffset(LunarDate(y, LeapMonth(y), 1, true))
            == ToOffset(LunarDate(y, LeapMonth(y), 1, false)) + MonthDays(y, LeapMonth(y))
  {
  }

  // ---------------------------------------------------------------------
  // The solar side: whole days counted from 1900-01-31.

  /** 1900-01-31, the solar day of lunar new year 1900. */
  const BaseDate: Civil.Date := Civil.Date(1900, 1, 31)

  /** Whole days from 1900-01-31 to d (negative before it). */
  function SolarOffset(d: Civil.Date): int
    requires 1 <= d.month <= 12
  {
    Civil.DayNumber(d) - Civil.DayNumber(BaseDate)
  }

  /** 2099-12-31, the last supported solar day. */
  const LastSolarOffset: int := 73018

  lemma LastSolarOffsetValue()
    ensures SolarOffset(Civil.Date(2099, 12, 31)) == LastSolarOffset
  {
  }

  // Concrete facts read off the table. Each lemma below states its fact about
  // FirstYear + k rather than a literal year, so that a caller does not start
  // evaluating the table again; the evaluation stays inside the lemma's body.

  /** Row 0 of the table: the entries of lunar years 1900..1909. */
  lemma Row0()
    ensures Lookup(LunarInfoTable, (FirstYear + 0 - 1900) / 10, 16)
            == Decade(0x04bd8, 0x04ae0, 0x0a570, 0x054d5, 0x0d260, 0x0d950, 0x16554, 0x056a0, 0x09ad0, 0x055d2)
  {
    assert (FirstYear + 0 - 1900) / 10 == 0;
    assert Lookup(LunarInfoTable, 0, 16) == Decade(0x04bd8, 0x04ae0, 0x0a570, 0x054d5, 0x0d260, 0x0d950, 0x16554, 0x056a0, 0x09ad0, 0x055d2);
  }

  /** Row 1 of the table: the entries of lunar years 1910..1919. */
  lemma Row1()
    ensures Lookup(LunarInfoTable, (FirstYear + 10 - 1900) / 10, 16)
            == Decade(0x04ae0, 0x0a5b6, 0x0a4d0, 0x0d250, 0x1d255, 0x0b540, 0x0d6a0, 0x0ada2, 0x095b0, 0x14977)
  {
    assert (FirstYear + 10 - 1900) / 10 == 1;
    assert Lookup(LunarInfoTable, 1, 16) == Decade(0x04ae0, 0x0a5b6, 0x0a4d0, 0x0d250, 0x1d255, 0x0b540, 0x0d6a0, 0x0ada2, 0x095b0, 0x14977);
  }

  /** Row 2 of the table: the entries of lunar years 1920..1929. */
  lemma Row2()
    ensures Lookup(LunarInfoTable, (FirstYear + 20 - 1900) / 10, 16)
            == Decade(0x04970, 0x0a4b0, 0x0b4b5, 0x06a50, 0x06d40, 0x1ab54, 0x02b60, 0x09570, 0x052f2, 0x04970)
  {
    assert (FirstYear + 20 - 1900) / 10 == 2;
    assert Lookup(LunarInfoTable, 2, 16) == Decade(0x04970, 0x0a4b0, 0x0b4b5, 0x06a50, 0x06d40, 0x1ab54, 0x02b60, 0x09570, 0x052f2, 0x04970);
  }

  /** Row 3 of the table: the entries of lunar years 1930..1939. */
  lemma Row3()
    ensures Lookup(LunarInfoTable, (FirstYear + 30 - 1900) / 10, 16)
            == Decade(0x06566, 0x0d4a0, 0x0ea50, 0x16a95, 0x05ad0, 0x02b60, 0x186e3, 0x092e0, 0x1c8d7, 0x0c950)
  {
    assert (FirstYear + 30 - 1900) / 10 == 3;
    assert Lookup(LunarInfoTable, 3, 16) == Decade(0x06566, 0x0d4a0, 0x0ea50, 0x16a95, 0x05ad0, 0x02b60, 0x186e3, 0x092e0, 0x1c8d7, 0x0c950);
  }

  /** Row 4 of the table: the entries of lunar years 1940..1949. */
  lemma Row4()
    ensures Lookup(LunarInfoTable, (FirstYear + 40 - 1900) / 10, 16)
            == Decade(0x0d4a0, 0x1d8a6, 0x0b550, 0x056a0, 0x1a5b4, 0x025d0, 0x092d0, 0x0d2b2, 0x0a950, 0x0b557)
  {
    assert (FirstYear + 40 - 1900) / 10 == 4;
    assert Lookup(LunarInfoTable, 4, 16) == Decade(0x0d4a0, 0x1d8a6, 0x0b550, 0x056a0, 0x1a5b4, 0x025d0, 0x092d0, 0x0d2b2, 0x0a950, 0x0b557);
  }

  /** Row 5 of the table: the entries of lunar years 1950..1959. */
  lemma Row5()
    ensures Lookup(LunarInfoTable, (FirstYear + 50 - 1900) / 10, 16)
            == Decade(0x06ca0, 0x0b550, 0x15355, 0x04da0, 0x0a5b0, 0x14573, 0x052b0, 0x0a9a8, 0x0e950, 0x06aa0)
  {
    assert (FirstYear + 50 - 1900) / 10 == 5;
    assert Lookup(LunarInfoTable, 5, 16) == Decade(0x06ca0, 0x0b550, 0x15355, 0x04da0, 0x0a5b0, 0x14573, 0x052b0, 0x0a9a8, 0x0e950, 0x06aa0);
  }

  /** Row 6 of the table: the entries of lunar years 1960..1969. */
  lemma Row6()
    ensures Lookup(LunarInfoTable, (FirstYear + 60 - 1900) / 10, 16)
            == Decade(0x0aea6, 0x0ab50, 0x04b60, 0x0aae4, 0x0a570, 0x05260, 0x0f263, 0x0d950, 0x05b57, 0x056a0)
  {
    assert (FirstYear + 60 - 1900) / 10 == 6;
    assert Lookup(LunarInfoTable, 6, 16) == Decade(0x0aea6, 0x0ab50, 0x04b60, 0x0aae4, 0x0a570, 0x05260, 0x0f263, 0x0d950, 0x05b57, 0x056a0);
  }

  /** Row 7 of the table: the entries of lunar years 1970..1979. */
  lemma Row7()
    ensures Lookup(LunarInfoTable, (FirstYear + 70 - 1900) / 10, 16)
            == Decade(0x096d0, 0x04dd5, 0x04ad0, 0x0a4d0, 0x0d4d4, 0x0d250, 0x0d558, 0x0b540, 0x0b6a0, 0x195a6)
  {
    assert (FirstYear + 70 - 1900) / 10 == 7;
    assert Lookup(LunarInfoTable, 7, 16) == Decade(0x096d0, 0x04dd5, 0x04ad0, 0x0a4d0, 0x0d4d4, 0x0d250, 0x0d558, 0x0b540, 0x0b6a0, 0x195a6);
  }

  /** Row 8 of the table: the entries of lunar years 1980..1989. */
  lemma Row8()
    ensures Lookup(LunarInfoTable, (FirstYear + 80 - 1900) / 10, 16)
            == Decade(0x095b0, 0x049b0, 0x0a974, 0x0a4b0, 0x0b27a, 0x06a50, 0x06d40, 0x0af46, 0x0ab60, 0x09570)
  {
    assert (FirstYear + 80 - 1900) / 10 == 8;
    assert Lookup(LunarInfoTable, 8, 16) == Decade(0x095b0, 0x049b0, 0x0a974, 0x0a4b0, 0x0b27a, 0x06a50, 0x06d40, 0x0af46, 0x0ab60, 0x09570);
  }

  /** Row 9 of the table: the entries of lunar years 1990..1999. */
  lemma Row9()
    ensures Lookup(LunarInfoTable, (FirstYear + 90 - 1900) / 10, 16)
            == Decade(0x04af5, 0x04970, 0x064b0, 0x074a3, 0x0ea50, 0x06b58, 0x05ac0, 0x0ab60, 0x096d5, 0x092e0)
  {
    assert (FirstYear + 90 - 1900) / 10 == 9;
    assert Lookup(LunarInfoTable, 9, 16) == Decade(0x04af5, 0x04970, 0x064b0, 0x074a3, 0x0ea50, 0x06b58, 0x05ac0, 0x0ab60, 0x096d5, 0x092e0);
  }

  /** Row 10 of the table: the entries of lunar years 2000..2009. */
  lemma Row10()
    ensures Lookup(LunarInfoTable, (FirstYear + 100 - 1900) / 10, 16)
            == Decade(0x0c960, 0x0d954, 0x0d4a0, 0x0da50, 0x07552, 0x056a0, 0x0abb7, 0x025d0, 0x092d0, 0x0cab5)
  {
    assert (FirstYear + 100 - 1900) / 10 == 10;
    assert Lookup(LunarInfoTable, 10, 16) == Decade(0x0c960, 0x0d954, 0x0d4a0, 0x0da50, 0x07552, 0x056a0, 0x0abb7, 0x025d0, 0x092d0, 0x0cab5);
  }

  /** Row 11 of the table: the entries of lunar years 2010..2019. */
  lemma Row11()
    ensures Lookup(LunarInfoTable, (FirstYear + 110 - 1900) / 10, 16)
            == Decade(0x0a950, 0x0b4a0, 0x0baa4, 0x0ad50, 0x055d9, 0x04ba0, 0x0a5b0, 0x15176, 0x052b0, 0x0a930)
  {
    assert (FirstYear + 110 - 1900) / 10 == 11;
    assert Lookup(LunarInfoTable, 11, 16) == Decade(0x0a950, 0x0b4a0, 0x0baa4, 0x0ad50, 0x055d9, 0x04ba0, 0x0a5b0, 0x15176, 0x052b0, 0x0a930);
  }

  /** Row 12 of the table: the entries of lunar years 2020..2029. */
  lemma Row12()
    ensures Lookup(LunarInfoTable, (FirstYear + 120 - 1900) / 10, 16)
            == Decade(0x07954, 0x06aa0, 0x0ad50, 0x05b52, 0x04b60, 0x0a6e6, 0x0a4e0, 0x0d260, 0x0ea65, 0x0d530)
  {
    assert (FirstYear + 120 - 1900) / 10 == 12;
    assert Lookup(LunarInfoTable, 12, 16) == Decade(0x07954, 0x06aa0, 0x0ad50, 0x05b52, 0x04b60, 0x0a6e6, 0x0a4e0, 0x0d260, 0x0ea65, 0x0d530);
  }

  /** Row 13 of the table: the entries of lunar years 2030..2039. */
  lemma Row13()
    ensures Lookup(LunarInfoTable, (FirstYear + 130 - 1900) / 10, 16)
            == Decade(0x05aa0, 0x076a3, 0x096d0, 0x04afb, 0x04ad0, 0x0a4d0, 0x1d0b6, 0x0d250, 0x0d520, 0x0dd45)
  {
    assert (FirstYear + 130 - 1900) / 10 == 13;
    assert Lookup(LunarInfoTable, 13, 16) == Decade(0x05aa0, 0x076a3, 0x096d0, 0x04afb, 0x04ad0, 0x0a4d0, 0x1d0b6, 0x0d250, 0x0d520, 0x0dd45);
  }

  /** Row 14 of the table: the entries of lunar years 2040..2049. */
  lemma Row14()
    ensures Lookup(LunarInfoTable, (FirstYear + 140 - 1900) / 10, 16)
            == Decade(0x0b5a0, 0x056d0, 0x055b2, 0x049b0, 0x0a577, 0x0a4b0, 0x0aa50, 0x1b255, 0x06d20, 0x0ada0)
  {
    assert (FirstYear + 140 - 1900) / 10 == 14;
    assert Lookup(LunarInfoTable, 14, 16) == Decade(0x0b5a0, 0x056d0, 0x055b2, 0x049b0, 0x0a577, 0x0a4b0, 0x0aa50, 0x1b255, 0x06d20, 0x0ada0);
  }

  /** Row 15 of the table: the entries of lunar years 2050..2059. */
  lemma Row15()
    ensures Lookup(LunarInfoTable, (FirstYear + 150 - 1900) / 10, 16)
            == Decade(0x14b63, 0x09370, 0x049f8, 0x04970, 0x064b0, 0x168a6, 0x0ea50, 0x06b20, 0x1a6c4, 0x0aae0)
  {
    assert (FirstYear + 150 - 1900) / 10 == 15;
    assert Lookup(LunarInfoTable, 15, 16) == Decade(0x14b63, 0x09370, 0x049f8, 0x04970, 0x064b0, 0x168a6, 0x0ea50, 0x06b20, 0x1a6c4, 0x0aae0);
  }

  /** Row 16 of the table: the entries of lunar years 2060..2069. */
  lemma Row16()
    ensures Lookup(LunarInfoTable, (FirstYear + 160 - 1900) / 10, 16)
            == Decade(0x092e0, 0x0d2e3, 0x0c960, 0x0d557, 0x0d4a0, 0x0da50, 0x05d55, 0x056a0, 0x0a6d0, 0x055d4)
  {
    assert (FirstYear + 160 - 1900) / 10 == 16;
    assert Lookup(LunarInfoTable, 16, 16) == Decade(0x092e0, 0x0d2e3, 0x0c960, 0x0d557, 0x0d4a0, 0x0da50, 0x05d55, 0x056a0, 0x0a6d0, 0x055d4);
  }

  /** Row 17 of the table: the entries of lunar years 2070..2079. */
  lemma Row17()
    ensures Lookup(LunarInfoTable, (FirstYear + 170 - 1900) / 10, 16)
            == Decade(0x052d0, 0x0a9b8, 0x0a950, 0x0b4a0, 0x0b6a6, 0x0ad50, 0x055a0, 0x0aba4, 0x0a5b0, 0x052b0)
  {
    assert (FirstYear + 170 - 1900) / 10 == 17;
    assert Lookup(LunarInfoTable, 17, 16) == Decade(0x052d0, 0x0a9b8, 0x0a950, 0x0b4a0, 0x0b6a6, 0x0ad50, 0x055a0, 0x0aba4, 0x0a5b0, 0x052b0);
  }

  /** Row 18 of the table: the entries of lunar years 2080..2089. */
  lemma Row18()
    ensures Lookup(LunarInfoTable, (FirstYear + 180 - 1900) / 10, 16)
            == Decade(0x0b273, 0x06930, 0x07337, 0x06aa0, 0x0ad50, 0x14b55, 0x04b60, 0x0a570, 0x054e4, 0x0d160)
  {
    assert (FirstYear + 180 - 1900) / 10 == 18;
    assert Lookup(LunarInfoTable, 18, 16) == Decade(0x0b273, 0x06930, 0x07337, 0x06aa0, 0x0ad50, 0x14b55, 0x04b60, 0x0a570, 0x054e4, 0x0d160);
  }

  /** Row 19 of the table: the entries of lunar years 2090..2099. */
  lemma Row19()
    ensures Lookup(LunarInfoTable, (FirstYear + 190 - 1900) / 10, 16)
            == Decade(0x0e968, 0x0d520, 0x0daa0, 0x16aa6, 0x056d0, 0x04ae0, 0x0a9d4, 0x0a2d0, 0x0d150, 0x0f252)
  {
    assert (FirstYear + 190 - 1900) / 10 == 19;
    assert Lookup(LunarInfoTable, 19, 16) == Decade(0x0e968, 0x0d520, 0x0daa0, 0x16aa6, 0x056d0, 0x04ae0, 0x0a9d4, 0x0a2d0, 0x0d150, 0x0f252);
  }

  // The length of every lunar year in the table.

  lemma Entry1900() ensures EntryYearDays(0x04bd8) == 384 {
    YearDaysByBits(0x04bd8);
    assert 0x04bd8 / 0x8000 == 0 && 0x04bd8 / 0x4000 == 1 && 0x04bd8 / 0x2000 == 2 && 0x04bd8 / 0x1000 == 4 && 0x04bd8 / 0x800 == 9 && 0x04bd8 / 0x400 == 18 && 0x04bd8 / 0x200 == 37 && 0x04bd8 / 0x100 == 75 && 0x04bd8 / 0x80 == 151 && 0x04bd8 / 0x40 == 303 && 0x04bd8 / 0x20 == 606 && 0x04bd8 / 0x10 == 1213;
  }
  lemma Length1900() ensures YearDays(FirstYear + 0) == 384 {
    Row0();
    assert LunarInfo(FirstYear + 0) == 0x04bd8;
    Entry1900();
  }
  lemma Entry1901() ensures EntryYearDays(0x04ae0) == 354 {
    YearDaysByBits(0x04ae0);
    assert 0x04ae0 / 0x8000 == 0 && 0x04ae0 / 0x4000 == 1 && 0x04ae0 / 0x2000 == 2 && 0x04ae0 / 0x1000 == 4 && 0x04ae0 / 0x800 == 9 && 0x04ae0 / 0x400 == 18 && 0x04ae0 / 0x200 == 37 && 0x04ae0 / 0x100 == 74 && 0x04ae0 / 0x80 == 149 && 0x04ae0 / 0x40 == 299 && 0x04ae0 / 0x20 == 599 && 0x04ae0 / 0x10 == 1198;
  }
  lemma Length1901() ensures YearDays(FirstYear + 1) == 354 {
    Row0();
    assert LunarInfo(FirstYear + 1) == 0x04ae0;
    Entry1901();
  }
  lemma Entry1902() ensures EntryYearDays(0x0a570) == 355 {
    YearDaysByBits(0x0a570);
    assert 0x0a570 / 0x8000 == 1 && 0x0a570 / 0x4000 == 2 && 0x0a570 / 0x2000 == 5 && 0x0a570 / 0x1000 == 10 && 0x0a570 / 0x800 == 20 && 0x0a570 / 0x400 == 41 && 0x0a570 / 0x200 == 82 && 0x0a570 / 0x100 == 165 && 0x0a570 / 0x80 == 330 && 0x0a570 / 0x40 == 661 && 0x0a570 / 0x20 == 1323 && 0x0a570 / 0x10 == 2647;
  }
  lemma Length1902() ensures YearDays(FirstYear + 2) == 355 {
    Row0();
    assert LunarInfo(FirstYear + 2) == 0x0a570;
    Entry1902();
  }
  lemma Entry1903() ensures EntryYearDays(0x054d5) == 383 {
    YearDaysByBits(0x054d5);
    assert 0x054d5 / 0x8000 == 0 && 0x054d5 / 0x4000 == 1 && 0x054d5 / 0x2000 == 2 && 0x054d5 / 0x1000 == 5 && 0x054d5 / 0x800 == 10 && 0x054d5 / 0x400 == 21 && 0x054d5 / 0x200 == 42 && 0x054d5 / 0x100 == 84 && 0x054d5 / 0x80 == 169 && 0x054d5 / 0x40 == 339 && 0x054d5 / 0x20 == 678 && 0x054d5 / 0x10 == 1357;
  }
  lemma Length1903() ensures YearDays(FirstYear + 3) == 383 {
    Row0();
    assert LunarInfo(FirstYear + 3) == 0x054d5;
    Entry1903();
  }
  lemma Entry1904() ensures EntryYearDays(0x0d260) == 354 {
    YearDaysByBits(0x0d260);
    assert 0x0d260 / 0x8000 == 1 && 0x0d260 / 0x4000 == 3 && 0x0d260 / 0x2000 == 6 && 0x0d260 / 0x1000 == 13 && 0x0d260 / 0x800 == 26 && 0x0d260 / 0x400 == 52 && 0x0d260 / 0x200 == 105 && 0x0d260 / 0x100 == 210 && 0x0d260 / 0x80 == 420 && 0x0d260 / 0x40 == 841 && 0x0d260 / 0x20 == 1683 && 0x0d260 / 0x10 == 3366;
  }
  lemma Length1904() ensures YearDays(FirstYear + 4) == 354 {
    Row0();
    assert LunarInfo(FirstYear + 4) == 0x0d260;
    Entry1904();
  }
  lemma Entry1905() ensures EntryYearDays(0x0d950) == 355 {
    YearDaysByBits(0x0d950);
    assert 0x0d950 / 0x8000 == 1 && 0x0d950 / 0x4000 == 3 && 0x0d950 / 0x2000 == 6 && 0x0d950 / 0x1000 == 13 && 0x0d950 / 0x800 == 27 && 0x0d950 / 0x400 == 54 && 0x0d950 / 0x200 == 108 && 0x0d950 / 0x100 == 217 && 0x0d950 / 0x80 == 434 && 0x0d950 / 0x40 == 869 && 0x0d950 / 0x20 == 1738 && 0x0d950 / 0x10 == 3477;
  }
  lemma Length1905() ensures YearDays(FirstYear + 5) == 355 {
    Row0();
    assert LunarInfo(FirstYear + 5) == 0x0d950;
    Entry1905();
  }
  lemma Entry1906() ensures EntryYearDays(0x16554) == 384 {
    YearDaysByBits(0x16554);
    assert 0x16554 / 0x8000 == 2 && 0x16554 / 0x4000 == 5 && 0x16554 / 0x2000 == 11 && 0x16554 / 0x1000 == 22 && 0x16554 / 0x800 == 44 && 0x16554 / 0x400 == 89 && 0x16554 / 0x200 == 178 && 0x16554 / 0x100 == 357 && 0x16554 / 0x80 == 714 && 0x16554 / 0x40 == 1429 && 0x16554 / 0x20 == 2858 && 0x16554 / 0x10 == 5717;
  }
  lemma Length1906() ensures YearDays(FirstYear + 6) == 384 {
    Row0();
    assert LunarInfo(FirstYear + 6) == 0x16554;
    Entry1906();
  }
  lemma Entry1907() ensures EntryYearDays(0x056a0) == 354 {
    YearDaysByBits(0x056a0);
    assert 0x056a0 / 0x8000 == 0 && 0x056a0 / 0x4000 == 1 && 0x056a0 / 0x2000 == 2 && 0x056a0 / 0x1000 == 5 && 0x056a0 / 0x800 == 10 && 0x056a0 / 0x400 == 21 && 0x056a0 / 0x200 == 43 && 0x056a0 / 0x100 == 86 && 0x056a0 / 0x80 == 173 && 0x056a0 / 0x40 == 346 && 0x056a0 / 0x20 == 693 && 0x056a0 / 0x10 == 1386;
  }
  lemma Length1907() ensures YearDays(FirstYear + 7) == 354 {
    Row0();
    assert LunarInfo(FirstYear + 7) == 0x056a0;
    Entry1907();
  }
  lemma Entry1908() ensures EntryYearDays(0x09ad0) == 355 {
    YearDaysByBits(0x09ad0);
    assert 0x09ad0 / 0x8000 == 1 && 0x09ad0 / 0x4000 == 2 && 0x09ad0 / 0x2000 == 4 && 0x09ad0 / 0x1000 == 9 && 0x09ad0 / 0x800 == 19 && 0x09ad0 / 0x400 == 38 && 0x09ad0 / 0x200 == 77 && 0x09ad0 / 0x100 == 154 && 0x09ad0 / 0x80 == 309 && 0x09ad0 / 0x40 == 619 && 0x09ad0 / 0x20 == 1238 && 0x09ad0 / 0x10 == 2477;
  }
  lemma Length1908() ensures YearDays(FirstYear + 8) == 355 {
    Row0();
    assert LunarInfo(FirstYear + 8) == 0x09ad0;
    Entry1908();
  }
  lemma Entry1909() ensures EntryYearDays(0x055d2) == 384 {
    YearDaysByBits(0x055d2);
    assert 0x055d2 / 0x8000 == 0 && 0x055d2 / 0x4000 == 1 && 0x055d2 / 0x2000 == 2 && 0x055d2 / 0x1000 == 5 && 0x055d2 / 0x800 == 10 && 0x055d2 / 0x400 == 21 && 0x055d2 / 0x200 == 42 && 0x055d2 / 0x100 == 85 && 0x055d2 / 0x80 == 171 && 0x055d2 / 0x40 == 343 && 0x055d2 / 0x20 == 686 && 0x055d2 / 0x10 == 1373;
  }
  lemma Length1909() ensures YearDays(FirstYear + 9) == 384 {
    Row0();
    assert LunarInfo(FirstYear + 9) == 0x055d2;
    Entry1909();
  }

  lemma Entry1910() ensures EntryYearDays(0x04ae0) == 354 {
    YearDaysByBits(0x04ae0);
    assert 0x04ae0 / 0x8000 == 0 && 0x04ae0 / 0x4000 == 1 && 0x04ae0 / 0x2000 == 2 && 0x04ae0 / 0x1000 == 4 && 0x04ae0 / 0x800 == 9 && 0x04ae0 / 0x400 == 18 && 0x04ae0 / 0x200 == 37 && 0x04ae0 / 0x100 == 74 && 0x04ae0 / 0x80 == 149 && 0x04ae0 / 0x40 == 299 && 0x04ae0 / 0x20 == 599 && 0x04ae0 / 0x10 == 1198;
  }
  lemma Length1910() ensures YearDays(FirstYear + 10) == 354 {
    Row1();
    assert LunarInfo(FirstYear + 10) == 0x04ae0;
    Entry1910();
  }
  lemma Entry1911() ensures EntryYearDays(0x0a5b6) == 384 {
    YearDaysByBits(0x0a5b6);
    assert 0x0a5b6 / 0x8000 == 1 && 0x0a5b6 / 0x4000 == 2 && 0x0a5b6 / 0x2000 == 5 && 0x0a5b6 / 0x1000 == 10 && 0x0a5b6 / 0x800 == 20 && 0x0a5b6 / 0x400 == 41 && 0x0a5b6 / 0x200 == 82 && 0x0a5b6 / 0x100 == 165 && 0x0a5b6 / 0x80 == 331 && 0x0a5b6 / 0x40 == 662 && 0x0a5b6 / 0x20 == 1325 && 0x0a5b6 / 0x10 == 2651;
  }
  lemma Length1911() ensures YearDays(FirstYear + 11) == 384 {
    Row1();
    assert LunarInfo(FirstYear + 11) == 0x0a5b6;
    Entry1911();
  }
  lemma Entry1912() ensures EntryYearDays(0x0a4d0) == 354 {
    YearDaysByBits(0x0a4d0);
    assert 0x0a4d0 / 0x8000 == 1 && 0x0a4d0 / 0x4000 == 2 && 0x0a4d0 / 0x2000 == 5 && 0x0a4d0 / 0x1000 == 10 && 0x0a4d0 / 0x800 == 20 && 0x0a4d0 / 0x400 == 41 && 0x0a4d0 / 0x200 == 82 && 0x0a4d0 / 0x100 == 164 && 0x0a4d0 / 0x80 == 329 && 0x0a4d0 / 0x40 == 659 && 0x0a4d0 / 0x20 == 1318 && 0x0a4d0 / 0x10 == 2637;
  }
  lemma Length1912() ensures YearDays(FirstYear + 12) == 354 {
    Row1();
    assert LunarInfo(FirstYear + 12) == 0x0a4d0;
    Entry1912();
  }
  lemma Entry1913() ensures EntryYearDays(0x0d250) == 354 {
    YearDaysByBits(0x0d250);
    assert 0x0d250 / 0x8000 == 1 && 0x0d250 / 0x4000 == 3 && 0x0d250 / 0x2000 == 6 && 0x0d250 / 0x1000 == 13 && 0x0d250 / 0x800 == 26 && 0x0d250 / 0x400 == 52 && 0x0d250 / 0x200 == 105 && 0x0d250 / 0x100 == 210 && 0x0d250 / 0x80 == 420 && 0x0d250 / 0x40 == 841 && 0x0d250 / 0x20 == 1682 && 0x0d250 / 0x10 == 3365;
  }
  lemma Length1913() ensures YearDays(FirstYear + 13) == 354 {
    Row1();
    assert LunarInfo(FirstYear + 13) == 0x0d250;
    Entry1913();
  }
  lemma Entry1914() ensures EntryYearDays(0x1d255) == 384 {
    YearDaysByBits(0x1d255);
    assert 0x1d255 / 0x8000 == 3 && 0x1d255 / 0x4000 == 7 && 0x1d255 / 0x2000 == 14 && 0x1d255 / 0x1000 == 29 && 0x1d255 / 0x800 == 58 && 0x1d255 / 0x400 == 116 && 0x1d255 / 0x200 == 233 && 0x1d255 / 0x100 == 466 && 0x1d255 / 0x80 == 932 && 0x1d255 / 0x40 == 1865 && 0x1d255 / 0x20 == 3730 && 0x1d255 / 0x10 == 7461;
  }
  lemma Length1914() ensures YearDays(FirstYear + 14) == 384 {
    Row1();
    assert LunarInfo(FirstYear + 14) == 0x1d255;
    Entry1914();
  }
  lemma Entry1915() ensures EntryYearDays(0x0b540) == 354 {
    YearDaysByBits(0x0b540);
    assert 0x0b540 / 0x8000 == 1 && 0x0b540 / 0x4000 == 2 && 0x0b540 / 0x2000 == 5 && 0x0b540 / 0x1000 == 11 && 0x0b540 / 0x800 == 22 && 0x0b540 / 0x400 == 45 && 0x0b540 / 0x200 == 90 && 0x0b540 / 0x100 == 181 && 0x0b540 / 0x80 == 362 && 0x0b540 / 0x40 == 725 && 0x0b540 / 0x20 == 1450 && 0x0b540 / 0x10 == 2900;
  }
  lemma Length1915() ensures YearDays(FirstYear + 15) == 354 {
    Row1();
    assert LunarInfo(FirstYear + 15) == 0x0b540;
    Entry1915();
  }
  lemma Entry1916() ensures EntryYearDays(0x0d6a0) == 355 {
    YearDaysByBits(0x0d6a0);
    assert 0x0d6a0 / 0x8000 == 1 && 0x0d6a0 / 0x4000 == 3 && 0x0d6a0 / 0x2000 == 6 && 0x0d6a0 / 0x1000 == 13 && 0x0d6a0 / 0x800 == 26 && 0x0d6a0 / 0x400 == 53 && 0x0d6a0 / 0x200 == 107 && 0x0d6a0 / 0x100 == 214 && 0x0d6a0 / 0x80 == 429 && 0x0d6a0 / 0x40 == 858 && 0x0d6a0 / 0x20 == 1717 && 0x0d6a0 / 0x10 == 3434;
  }
  lemma Length1916() ensures YearDays(FirstYear + 16) == 355 {
    Row1();
    assert LunarInfo(FirstYear + 16) == 0x0d6a0;
    Entry1916();
  }
  lemma Entry1917() ensures EntryYearDays(0x0ada2) == 384 {
    YearDaysByBits(0x0ada2);
    assert 0x0ada2 / 0x8000 == 1 && 0x0ada2 / 0x4000 == 2 && 0x0ada2 / 0x2000 == 5 && 0x0ada2 / 0x1000 == 10 && 0x0ada2 / 0x800 == 21 && 0x0ada2 / 0x400 == 43 && 0x0ada2 / 0x200 == 86 && 0x0ada2 / 0x100 == 173 && 0x0ada2 / 0x80 == 347 && 0x0ada2 / 0x40 == 694 && 0x0ada2 / 0x20 == 1389 && 0x0ada2 / 0x10 == 2778;
  }
  lemma Length1917() ensures YearDays(FirstYear + 17) == 384 {
    Row1();
    assert LunarInfo(FirstYear + 17) == 0x0ada2;
    Entry1917();
  }
  lemma Entry1918() ensures EntryYearDays(0x095b0) == 355 {
    YearDaysByBits(0x095b0);
    assert 0x095b0 / 0x8000 == 1 && 0x095b0 / 0x4000 == 2 && 0x095b0 / 0x2000 == 4 && 0x095b0 / 0x1000 == 9 && 0x095b0 / 0x800 == 18 && 0x095b0 / 0x400 == 37 && 0x095b0 / 0x200 == 74 && 0x095b0 / 0x100 == 149 && 0x095b0 / 0x80 == 299 && 0x095b0 / 0x40 == 598 && 0x095b0 / 0x20 == 1197 && 0x095b0 / 0x10 == 2395;
  }
  lemma Length1918() ensures YearDays(FirstYear + 18) == 355 {
    Row1();
    assert LunarInfo(FirstYear + 18) == 0x095b0;
    Entry1918();
  }
  lemma Entry1919() ensures EntryYearDays(0x14977) == 384 {
    YearDaysByBits(0x14977);
    assert 0x14977 / 0x8000 == 2 && 0x14977 / 0x4000 == 5 && 0x14977 / 0x2000 == 10 && 0x14977 / 0x1000 == 20 && 0x14977 / 0x800 == 41 && 0x14977 / 0x400 == 82 && 0x14977 / 0x200 == 164 && 0x14977 / 0x100 == 329 && 0x14977 / 0x80 == 658 && 0x14977 / 0x40 == 1317 && 0x14977 / 0x20 == 2635 && 0x14977 / 0x10 == 5271;
  }
  lemma Length1919() ensures YearDays(FirstYear + 19) == 384 {
    Row1();
    assert LunarInfo(FirstYear + 19) == 0x14977;
    Entry1919();
  }

  lemma Entry1920() ensures EntryYearDays(0x04970) == 354 {
    YearDaysByBits(0x04970);
    assert 0x04970 / 0x8000 == 0 && 0x04970 / 0x4000 == 1 && 0x04970 / 0x2000 == 2 && 0x04970 / 0x1000 == 4 && 0x04970 / 0x800 == 9 && 0x04970 / 0x400 == 18 && 0x04970 / 0x200 == 36 && 0x04970 / 0x100 == 73 && 0x04970 / 0x80 == 146 && 0x04970 / 0x40 == 293 && 0x04970 / 0x20 == 587 && 0x04970 / 0x10 == 1175;
  }
  lemma Length1920() ensures YearDays(FirstYear + 20) == 354 {
    Row2();
    assert LunarInfo(FirstYear + 20) == 0x04970;
    Entry1920();
  }
  lemma Entry1921() ensures EntryYearDays(0x0a4b0) == 354 {
    YearDaysByBits(0x0a4b0);
    assert 0x0a4b0 / 0x8000 == 1 && 0x0a4b0 / 0x4000 == 2 && 0x0a4b0 / 0x2000 == 5 && 0x0a4b0 / 0x1000 == 10 && 0x0a4b0 / 0x800 == 20 && 0x0a4b0 / 0x400 == 41 && 0x0a4b0 / 0x200 == 82 && 0x0a4b0 / 0x100 == 164 && 0x0a4b0 / 0x80 == 329 && 0x0a4b0 / 0x40 == 658 && 0x0a4b0 / 0x20 == 1317 && 0x0a4b0 / 0x10 == 2635;
  }
  lemma Length1921() ensures YearDays(FirstYear + 21) == 354 {
    Row2();
    assert LunarInfo(FirstYear + 21) == 0x0a4b0;
    Entry1921();
  }
  lemma Entry1922() ensures EntryYearDays(0x0b4b5) == 384 {
    YearDaysByBits(0x0b4b5);
    assert 0x0b4b5 / 0x8000 == 1 && 0x0b4b5 / 0x4000 == 2 && 0x0b4b5 / 0x2000 == 5 && 0x0b4b5 / 0x1000 == 11 && 0x0b4b5 / 0x800 == 22 && 0x0b4b5 / 0x400 == 45 && 0x0b4b5 / 0x200 == 90 && 0x0b4b5 / 0x100 == 180 && 0x0b4b5 / 0x80 == 361 && 0x0b4b5 / 0x40 == 722 && 0x0b4b5 / 0x20 == 1445 && 0x0b4b5 / 0x10 == 2891;
  }
  lemma Length1922() ensures YearDays(FirstYear + 22) == 384 {
    Row2();
    assert LunarInfo(FirstYear + 22) == 0x0b4b5;
    Entry1922();
  }
  lemma Entry1923() ensures EntryYearDays(0x06a50) == 354 {
    YearDaysByBits(0x06a50);
    assert 0x06a50 / 0x8000 == 0 && 0x06a50 / 0x4000 == 1 && 0x06a50 / 0x2000 == 3 && 0x06a50 / 0x1000 == 6 && 0x06a50 / 0x800 == 13 && 0x06a50 / 0x400 == 26 && 0x06a50 / 0x200 == 53 && 0x06a50 / 0x100 == 106 && 0x06a50 / 0x80 == 212 && 0x06a50 / 0x40 == 425 && 0x06a50 / 0x20 == 850 && 0x06a50 / 0x10 == 1701;
  }
  lemma Length1923() ensures YearDays(FirstYear + 23) == 354 {
    Row2();
    assert LunarInfo(FirstYear + 23) == 0x06a50;
    Entry1923();
  }
  lemma Entry1924() ensures EntryYearDays(0x06d40) == 354 {
    YearDaysByBits(0x06d40);
    assert 0x06d40 / 0x8000 == 0 && 0x06d40 / 0x4000 == 1 && 0x06d40 / 0x2000 == 3 && 0x06d40 / 0x1000 == 6 && 0x06d40 / 0x800 == 13 && 0x06d40 / 0x400 == 27 && 0x06d40 / 0x200 == 54 && 0x06d40 / 0x100 == 109 && 0x06d40 / 0x80 == 218 && 0x06d40 / 0x40 == 437 && 0x06d40 / 0x20 == 874 && 0x06d40 / 0x10 == 1748;
  }
  lemma Length1924() ensures YearDays(FirstYear + 24) == 354 {
    Row2();
    assert LunarInfo(FirstYear + 24) == 0x06d40;
    Entry1924();
  }
  lemma Entry1925() ensures EntryYearDays(0x1ab54) == 385 {
    YearDaysByBits(0x1ab54);
    assert 0x1ab54 / 0x8000 == 3 && 0x1ab54 / 0x4000 == 6 && 0x1ab54 / 0x2000 == 13 && 0x1ab54 / 0x1000 == 26 && 0x1ab54 / 0x800 == 53 && 0x1ab54 / 0x400 == 106 && 0x1ab54 / 0x200 == 213 && 0x1ab54 / 0x100 == 427 && 0x1ab54 / 0x80 == 854 && 0x1ab54 / 0x40 == 1709 && 0x1ab54 / 0x20 == 3418 && 0x1ab54 / 0x10 == 6837;
  }
  lemma Length1925() ensures YearDays(FirstYear + 25) == 385 {
    Row2();
    assert LunarInfo(FirstYear + 25) == 0x1ab54;
    Entry1925();
  }
  lemma Entry1926() ensures EntryYearDays(0x02b60) == 354 {
    YearDaysByBits(0x02b60);
    assert 0x02b60 / 0x8000 == 0 && 0x02b60 / 0x4000 == 0 && 0x02b60 / 0x2000 == 1 && 0x02b60 / 0x1000 == 2 && 0x02b60 / 0x800 == 5 && 0x02b60 / 0x400 == 10 && 0x02b60 / 0x200 == 21 && 0x02b60 / 0x100 == 43 && 0x02b60 / 0x80 == 86 && 0x02b60 / 0x40 == 173 && 0x02b60 / 0x20 == 347 && 0x02b60 / 0x10 == 694;
  }
  lemma Length1926() ensures YearDays(FirstYear + 26) == 354 {
    Row2();
    assert LunarInfo(FirstYear + 26) == 0x02b60;
    Entry1926();
  }
  lemma Entry1927() ensures EntryYearDays(0x09570) == 355 {
    YearDaysByBits(0x09570);
    assert 0x09570 / 0x8000 == 1 && 0x09570 / 0x4000 == 2 && 0x09570 / 0x2000 == 4 && 0x09570 / 0x1000 == 9 && 0x09570 / 0x800 == 18 && 0x09570 / 0x400 == 37 && 0x09570 / 0x200 == 74 && 0x09570 / 0x100 == 149 && 0x09570 / 0x80 == 298 && 0x09570 / 0x40 == 597 && 0x09570 / 0x20 == 1195 && 0x09570 / 0x10 == 2391;
  }
  lemma Length1927() ensures YearDays(FirstYear + 27) == 355 {
    Row2();
    assert LunarInfo(FirstYear + 27) == 0x09570;
    Entry1927();
  }
  lemma Entry1928() ensures EntryYearDays(0x052f2) == 384 {
    YearDaysByBits(0x052f2);
    assert 0x052f2 / 0x8000 == 0 && 0x052f2 / 0x4000 == 1 && 0x052f2 / 0x2000 == 2 && 0x052f2 / 0x1000 == 5 && 0x052f2 / 0x800 == 10 && 0x052f2 / 0x400 == 20 && 0x052f2 / 0x200 == 41 && 0x052f2 / 0x100 == 82 && 0x052f2 / 0x80 == 165 && 0x052f2 / 0x40 == 331 && 0x052f2 / 0x20 == 663 && 0x052f2 / 0x10 == 1327;
  }
  lemma Length1928() ensures YearDays(FirstYear + 28) == 384 {
    Row2();
    assert LunarInfo(FirstYear + 28) == 0x052f2;
    Entry1928();
  }
  lemma Entry1929() ensures EntryYearDays(0x04970) == 354 {
    YearDaysByBits(0x04970);
    assert 0x04970 / 0x8000 == 0 && 0x04970 / 0x4000 == 1 && 0x04970 / 0x2000 == 2 && 0x04970 / 0x1000 == 4 && 0x04970 / 0x800 == 9 && 0x04970 / 0x400 == 18 && 0x04970 / 0x200 == 36 && 0x04970 / 0x100 == 73 && 0x04970 / 0x80 == 146 && 0x04970 / 0x40 == 293 && 0x04970 / 0x20 == 587 && 0x04970 / 0x10 == 1175;
  }
  lemma Length1929() ensures YearDays(FirstYear + 29) == 354 {
    Row2();
    assert LunarInfo(FirstYear + 29) == 0x04970;
    Entry1929();
  }

  lemma Entry1930() ensures EntryYearDays(0x06566) == 383 {
    YearDaysByBits(0x06566);
    assert 0x06566 / 0x8000 == 0 && 0x06566 / 0x4000 == 1 && 0x06566 / 0x2000 == 3 && 0x06566 / 0x1000 == 6 && 0x06566 / 0x800 == 12 && 0x06566 / 0x400 == 25 && 0x06566 / 0x200 == 50 && 0x06566 / 0x100 == 101 && 0x06566 / 0x80 == 202 && 0x06566 / 0x40 == 405 && 0x06566 / 0x20 == 811 && 0x06566 / 0x10 == 1622;
  }
  lemma Length1930() ensures YearDays(FirstYear + 30) == 383 {
    Row3();
    assert LunarInfo(FirstYear + 30) == 0x06566;
    Entry1930();
  }
  lemma Entry1931() ensures EntryYearDays(0x0d4a0) == 354 {
    YearDaysByBits(0x0d4a0);
    assert 0x0d4a0 / 0x8000 == 1 && 0x0d4a0 / 0x4000 == 3 && 0x0d4a0 / 0x2000 == 6 && 0x0d4a0 / 0x1000 == 13 && 0x0d4a0 / 0x800 == 26 && 0x0d4a0 / 0x400 == 53 && 0x0d4a0 / 0x200 == 106 && 0x0d4a0 / 0x100 == 212 && 0x0d4a0 / 0x80 == 425 && 0x0d4a0 / 0x40 == 850 && 0x0d4a0 / 0x20 == 1701 && 0x0d4a0 / 0x10 == 3402;
  }
  lemma Length1931() ensures YearDays(FirstYear + 31) == 354 {
    Row3();
    assert LunarInfo(FirstYear + 31) == 0x0d4a0;
    Entry1931();
  }
  lemma Entry1932() ensures EntryYearDays(0x0ea50) == 355 {
    YearDaysByBits(0x0ea50);
    assert 0x0ea50 / 0x8000 == 1 && 0x0ea50 / 0x4000 == 3 && 0x0ea50 / 0x2000 == 7 && 0x0ea50 / 0x1000 == 14 && 0x0ea50 / 0x800 == 29 && 0x0ea50 / 0x400 == 58 && 0x0ea50 / 0x200 == 117 && 0x0ea50 / 0x100 == 234 && 0x0ea50 / 0x80 == 468 && 0x0ea50 / 0x40 == 937 && 0x0ea50 / 0x20 == 1874 && 0x0ea50 / 0x10 == 3749;
  }
  lemma Length1932() ensures YearDays(FirstYear + 32) == 355 {
    Row3();
    assert LunarInfo(FirstYear + 32) == 0x0ea50;
    Entry1932();
  }
  lemma Entry1933() ensures EntryYearDays(0x16a95) == 384 {
    YearDaysByBits(0x16a95);
    assert 0x16a95 / 0x8000 == 2 && 0x16a95 / 0x4000 == 5 && 0x16a95 / 0x2000 == 11 && 0x16a95 / 0x1000 == 22 && 0x16a95 / 0x800 == 45 && 0x16a95 / 0x400 == 90 && 0x16a95 / 0x200 == 181 && 0x16a95 / 0x100 == 362 && 0x16a95 / 0x80 == 725 && 0x16a95 / 0x40 == 1450 && 0x16a95 / 0x20 == 2900 && 0x16a95 / 0x10 == 5801;
  }
  lemma Length1933() ensures YearDays(FirstYear + 33) == 384 {
    Row3();
    assert LunarInfo(FirstYear + 33) == 0x16a95;
    Entry1933();
  }
  lemma Entry1934() ensures EntryYearDays(0x05ad0) == 355 {
    YearDaysByBits(0x05ad0);
    assert 0x05ad0 / 0x8000 == 0 && 0x05ad0 / 0x4000 == 1 && 0x05ad0 / 0x2000 == 2 && 0x05ad0 / 0x1000 == 5 && 0x05ad0 / 0x800 == 11 && 0x05ad0 / 0x400 == 22 && 0x05ad0 / 0x200 == 45 && 0x05ad0 / 0x100 == 90 && 0x05ad0 / 0x80 == 181 && 0x05ad0 / 0x40 == 363 && 0x05ad0 / 0x20 == 726 && 0x05ad0 / 0x10 == 1453;
  }
  lemma Length1934() ensures YearDays(FirstYear + 34) == 355 {
    Row3();
    assert LunarInfo(FirstYear + 34) == 0x05ad0;
    Entry1934();
  }
  lemma Entry1935() ensures EntryYearDays(0x02b60) == 354 {
    YearDaysByBits(0x02b60);
    assert 0x02b60 / 0x8000 == 0 && 0x02b60 / 0x4000 == 0 && 0x02b60 / 0x2000 == 1 && 0x02b60 / 0x1000 == 2 && 0x02b60 / 0x800 == 5 && 0x02b60 / 0x400 == 10 && 0x02b60 / 0x200 == 21 && 0x02b60 / 0x100 == 43 && 0x02b60 / 0x80 == 86 && 0x02b60 / 0x40 == 173 && 0x02b60 / 0x20 == 347 && 0x02b60 / 0x10 == 694;
  }
  lemma Length1935() ensures YearDays(FirstYear + 35) == 354 {
    Row3();
    assert LunarInfo(FirstYear + 35) == 0x02b60;
    Entry1935();
  }
  lemma Entry1936() ensures EntryYearDays(0x186e3) == 384 {
    YearDaysByBits(0x186e3);
    assert 0x186e3 / 0x8000 == 3 && 0x186e3 / 0x4000 == 6 && 0x186e3 / 0x2000 == 12 && 0x186e3 / 0x1000 == 24 && 0x186e3 / 0x800 == 48 && 0x186e3 / 0x400 == 97 && 0x186e3 / 0x200 == 195 && 0x186e3 / 0x100 == 390 && 0x186e3 / 0x80 == 781 && 0x186e3 / 0x40 == 1563 && 0x186e3 / 0x20 == 3127 && 0x186e3 / 0x10 == 6254;
  }
  lemma Length1936() ensures YearDays(FirstYear + 36) == 384 {
    Row3();
    assert LunarInfo(FirstYear + 36) == 0x186e3;
    Entry1936();
  }
  lemma Entry1937() ensures EntryYearDays(0x092e0) == 354 {
    YearDaysByBits(0x092e0);
    assert 0x092e0 / 0x8000 == 1 && 0x092e0 / 0x4000 == 2 && 0x092e0 / 0x2000 == 4 && 0x092e0 / 0x1000 == 9 && 0x092e0 / 0x800 == 18 && 0x092e0 / 0x400 == 36 && 0x092e0 / 0x200 == 73 && 0x092e0 / 0x100 == 146 && 0x092e0 / 0x80 == 293 && 0x092e0 / 0x40 == 587 && 0x092e0 / 0x20 == 1175 && 0x092e0 / 0x10 == 2350;
  }
  lemma Length1937() ensures YearDays(FirstYear + 37) == 354 {
    Row3();
    assert LunarInfo(FirstYear + 37) == 0x092e0;
    Entry1937();
  }
  lemma Entry1938() ensures EntryYearDays(0x1c8d7) == 384 {
    YearDaysByBits(0x1c8d7);
    assert 0x1c8d7 / 0x8000 == 3 && 0x1c8d7 / 0x4000 == 7 && 0x1c8d7 / 0x2000 == 14 && 0x1c8d7 / 0x1000 == 28 && 0x1c8d7 / 0x800 == 57 && 0x1c8d7 / 0x400 == 114 && 0x1c8d7 / 0x200 == 228 && 0x1c8d7 / 0x100 == 456 && 0x1c8d7 / 0x80 == 913 && 0x1c8d7 / 0x40 == 1827 && 0x1c8d7 / 0x20 == 3654 && 0x1c8d7 / 0x10 == 7309;
  }
  lemma Length1938() ensures YearDays(FirstYear + 38) == 384 {
    Row3();
    assert LunarInfo(FirstYear + 38) == 0x1c8d7;
    Entry1938();
  }
  lemma Entry1939() ensures EntryYearDays(0x0c950) == 354 {
    YearDaysByBits(0x0c950);
    assert 0x0c950 / 0x8000 == 1 && 0x0c950 / 0x4000 == 3 && 0x0c950 / 0x2000 == 6 && 0x0c950 / 0x1000 == 12 && 0x0c950 / 0x800 == 25 && 0x0c950 / 0x400 == 50 && 0x0c950 / 0x200 == 100 && 0x0c950 / 0x100 == 201 && 0x0c950 / 0x80 == 402 && 0x0c950 / 0x40 == 805 && 0x0c950 / 0x20 == 1610 && 0x0c950 / 0x10 == 3221;
  }
  lemma Length1939() ensures YearDays(FirstYear + 39) == 354 {
    Row3();
    assert LunarInfo(FirstYear + 39) == 0x0c950;
    Entry1939();
  }

  lemma Entry1940() ensures EntryYearDays(0x0d4a0) == 354 {
    YearDaysByBits(0x0d4a0);
    assert 0x0d4a0 / 0x8000 == 1 && 0x0d4a0 / 0x4000 == 3 && 0x0d4a0 / 0x2000 == 6 && 0x0d4a0 / 0x1000 == 13 && 0x0d4a0 / 0x800 == 26 && 0x0d4a0 / 0x400 == 53 && 0x0d4a0 / 0x200 == 106 && 0x0d4a0 / 0x100 == 212 && 0x0d4a0 / 0x80 == 425 && 0x0d4a0 / 0x40 == 850 && 0x0d4a0 / 0x20 == 1701 && 0x0d4a0 / 0x10 == 3402;
  }
  lemma Length1940() ensures YearDays(FirstYear + 40) == 354 {
    Row4();
    assert LunarInfo(FirstYear + 40) == 0x0d4a0;
    Entry1940();
  }
  lemma Entry1941() ensures EntryYearDays(0x1d8a6) == 384 {
    YearDaysByBits(0x1d8a6);
    assert 0x1d8a6 / 0x8000 == 3 && 0x1d8a6 / 0x4000 == 7 && 0x1d8a6 / 0x2000 == 14 && 0x1d8a6 / 0x1000 == 29 && 0x1d8a6 / 0x800 == 59 && 0x1d8a6 / 0x400 == 118 && 0x1d8a6 / 0x200 == 236 && 0x1d8a6 / 0x100 == 472 && 0x1d8a6 / 0x80 == 945 && 0x1d8a6 / 0x40 == 1890 && 0x1d8a6 / 0x20 == 3781 && 0x1d8a6 / 0x10 == 7562;
  }
  lemma Length1941() ensures YearDays(FirstYear + 41) == 384 {
    Row4();
    assert LunarInfo(FirstYear + 41) == 0x1d8a6;
    Entry1941();
  }
  lemma Entry1942() ensures EntryYearDays(0x0b550) == 355 {
    YearDaysByBits(0x0b550);
    assert 0x0b550 / 0x8000 == 1 && 0x0b550 / 0x4000 == 2 && 0x0b550 / 0x2000 == 5 && 0x0b550 / 0x1000 == 11 && 0x0b550 / 0x800 == 22 && 0x0b550 / 0x400 == 45 && 0x0b550 / 0x200 == 90 && 0x0b550 / 0x100 == 181 && 0x0b550 / 0x80 == 362 && 0x0b550 / 0x40 == 725 && 0x0b550 / 0x20 == 1450 && 0x0b550 / 0x10 == 2901;
  }
  lemma Length1942() ensures YearDays(FirstYear + 42) == 355 {
    Row4();
    assert LunarInfo(FirstYear + 42) == 0x0b550;
    Entry1942();
  }
  lemma Entry1943() ensures EntryYearDays(0x056a0) == 354 {
    YearDaysByBits(0x056a0);
    assert 0x056a0 / 0x8000 == 0 && 0x056a0 / 0x4000 == 1 && 0x056a0 / 0x2000 == 2 && 0x056a0 / 0x1000 == 5 && 0x056a0 / 0x800 == 10 && 0x056a0 / 0x400 == 21 && 0x056a0 / 0x200 == 43 && 0x056a0 / 0x100 == 86 && 0x056a0 / 0x80 == 173 && 0x056a0 / 0x40 == 346 && 0x056a0 / 0x20 == 693 && 0x056a0 / 0x10 == 1386;
  }
  lemma Length1943() ensures YearDays(FirstYear + 43) == 354 {
    Row4();
    assert LunarInfo(FirstYear + 43) == 0x056a0;
    Entry1943();
  }
  lemma Entry1944() ensures EntryYearDays(0x1a5b4) == 385 {
    YearDaysByBits(0x1a5b4);
    assert 0x1a5b4 / 0x8000 == 3 && 0x1a5b4 / 0x4000 == 6 && 0x1a5b4 / 0x2000 == 13 && 0x1a5b4 / 0x1000 == 26 && 0x1a5b4 / 0x800 == 52 && 0x1a5b4 / 0x400 == 105 && 0x1a5b4 / 0x200 == 210 && 0x1a5b4 / 0x100 == 421 && 0x1a5b4 / 0x80 == 843 && 0x1a5b4 / 0x40 == 1686 && 0x1a5b4 / 0x20 == 3373 && 0x1a5b4 / 0x10 == 6747;
  }
  lemma Length1944() ensures YearDays(FirstYear + 44) == 385 {
    Row4();
    assert LunarInfo(FirstYear + 44) == 0x1a5b4;
    Entry1944();
  }
  lemma Entry1945() ensures EntryYearDays(0x025d0) == 354 {
    YearDaysByBits(0x025d0);
    assert 0x025d0 / 0x8000 == 0 && 0x025d0 / 0x4000 == 0 && 0x025d0 / 0x2000 == 1 && 0x025d0 / 0x1000 == 2 && 0x025d0 / 0x800 == 4 && 0x025d0 / 0x400 == 9 && 0x025d0 / 0x200 == 18 && 0x025d0 / 0x100 == 37 && 0x025d0 / 0x80 == 75 && 0x025d0 / 0x40 == 151 && 0x025d0 / 0x20 == 302 && 0x025d0 / 0x10 == 605;
  }
  lemma Length1945() ensures YearDays(FirstYear + 45) == 354 {
    Row4();
    assert LunarInfo(FirstYear + 45) == 0x025d0;
    Entry1945();
  }
  lemma Entry1946() ensures EntryYearDays(0x092d0) == 354 {
    YearDaysByBits(0x092d0);
    assert 0x092d0 / 0x8000 == 1 && 0x092d0 / 0x4000 == 2 && 0x092d0 / 0x2000 == 4 && 0x092d0 / 0x1000 == 9 && 0x092d0 / 0x800 == 18 && 0x092d0 / 0x400 == 36 && 0x092d0 / 0x200 == 73 && 0x092d0 / 0x100 == 146 && 0x092d0 / 0x80 == 293 && 0x092d0 / 0x40 == 587 && 0x092d0 / 0x20 == 1174 && 0x092d0 / 0x10 == 2349;
  }
  lemma Length1946() ensures YearDays(FirstYear + 46) == 354 {
    Row4();
    assert LunarInfo(FirstYear + 46) == 0x092d0;
    Entry1946();
  }
  lemma Entry1947() ensures EntryYearDays(0x0d2b2) == 384 {
    YearDaysByBits(0x0d2b2);
    assert 0x0d2b2 / 0x8000 == 1 && 0x0d2b2 / 0x4000 == 3 && 0x0d2b2 / 0x2000 == 6 && 0x0d2b2 / 0x1000 == 13 && 0x0d2b2 / 0x800 == 26 && 0x0d2b2 / 0x400 == 52 && 0x0d2b2 / 0x200 == 105 && 0x0d2b2 / 0x100 == 210 && 0x0d2b2 / 0x80 == 421 && 0x0d2b2 / 0x40 == 842 && 0x0d2b2 / 0x20 == 1685 && 0x0d2b2 / 0x10 == 3371;
  }
  lemma Length1947() ensures YearDays(FirstYear + 47) == 384 {
    Row4();
    assert LunarInfo(FirstYear + 47) == 0x0d2b2;
    Entry1947();
  }
  lemma Entry1948() ensures EntryYearDays(0x0a950) == 354 {
    YearDaysByBits(0x0a950);
    assert 0x0a950 / 0x8000 == 1 && 0x0a950 / 0x4000 == 2 && 0x0a950 / 0x2000 == 5 && 0x0a950 / 0x1000 == 10 && 0x0a950 / 0x800 == 21 && 0x0a950 / 0x400 == 42 && 0x0a950 / 0x200 == 84 && 0x0a950 / 0x100 == 169 && 0x0a950 / 0x80 == 338 && 0x0a950 / 0x40 == 677 && 0x0a950 / 0x20 == 1354 && 0x0a950 / 0x10 == 2709;
  }
  lemma Length1948() ensures YearDays(FirstYear + 48) == 354 {
    Row4();
    assert LunarInfo(FirstYear + 48) == 0x0a950;
    Entry1948();
  }
  lemma Entry1949() ensures EntryYearDays(0x0b557) == 384 {
    YearDaysByBits(0x0b557);
    assert 0x0b557 / 0x8000 == 1 && 0x0b557 / 0x4000 == 2 && 0x0b557 / 0x2000 == 5 && 0x0b557 / 0x1000 == 11 && 0x0b557 / 0x800 == 22 && 0x0b557 / 0x400 == 45 && 0x0b557 / 0x200 == 90 && 0x0b557 / 0x100 == 181 && 0x0b557 / 0x80 == 362 && 0x0b557 / 0x40 == 725 && 0x0b557 / 0x20 == 1450 && 0x0b557 / 0x10 == 2901;
  }
  lemma Length1949() ensures YearDays(FirstYear + 49) == 384 {
    Row4();
    assert LunarInfo(FirstYear + 49) == 0x0b557;
    Entry1949();
  }

  lemma Entry1950() ensures EntryYearDays(0x06ca0) == 354 {
    YearDaysByBits(0x06ca0);
    assert 0x06ca0 / 0x8000 == 0 && 0x06ca0 / 0x4000 == 1 && 0x06ca0 / 0x2000 == 3 && 0x06ca0 / 0x1000 == 6 && 0x06ca0 / 0x800 == 13 && 0x06ca0 / 0x400 == 27 && 0x06ca0 / 0x200 == 54 && 0x06ca0 / 0x100 == 108 && 0x06ca0 / 0x80 == 217 && 0x06ca0 / 0x40 == 434 && 0x06ca0 / 0x20 == 869 && 0x06ca0 / 0x10 == 1738;
  }
  lemma Length1950() ensures YearDays(FirstYear + 50) == 354 {
    Row5();
    assert LunarInfo(FirstYear + 50) == 0x06ca0;
    Entry1950();
  }
  lemma Entry1951() ensures EntryYearDays(0x0b550) == 355 {
    YearDaysByBits(0x0b550);
    assert 0x0b550 / 0x8000 == 1 && 0x0b550 / 0x4000 == 2 && 0x0b550 / 0x2000 == 5 && 0x0b550 / 0x1000 == 11 && 0x0b550 / 0x800 == 22 && 0x0b550 / 0x400 == 45 && 0x0b550 / 0x200 == 90 && 0x0b550 / 0x100 == 181 && 0x0b550 / 0x80 == 362 && 0x0b550 / 0x40 == 725 && 0x0b550 / 0x20 == 1450 && 0x0b550 / 0x10 == 2901;
  }
  lemma Length1951() ensures YearDays(FirstYear + 51) == 355 {
    Row5();
    assert LunarInfo(FirstYear + 51) == 0x0b550;
    Entry1951();
  }
  lemma Entry1952() ensures EntryYearDays(0x15355) == 384 {
    YearDaysByBits(0x15355);
    assert 0x15355 / 0x8000 == 2 && 0x15355 / 0x4000 == 5 && 0x15355 / 0x2000 == 10 && 0x15355 / 0x1000 == 21 && 0x15355 / 0x800 == 42 && 0x15355 / 0x400 == 84 && 0x15355 / 0x200 == 169 && 0x15355 / 0x100 == 339 && 0x15355 / 0x80 == 678 && 0x15355 / 0x40 == 1357 && 0x15355 / 0x20 == 2714 && 0x15355 / 0x10 == 5429;
  }
  lemma Length1952() ensures YearDays(FirstYear + 52) == 384 {
    Row5();
    assert LunarInfo(FirstYear + 52) == 0x15355;
    Entry1952();
  }
  lemma Entry1953() ensures EntryYearDays(0x04da0) == 354 {
    YearDaysByBits(0x04da0);
    assert 0x04da0 / 0x8000 == 0 && 0x04da0 / 0x4000 == 1 && 0x04da0 / 0x2000 == 2 && 0x04da0 / 0x1000 == 4 && 0x04da0 / 0x800 == 9 && 0x04da0 / 0x400 == 19 && 0x04da0 / 0x200 == 38 && 0x04da0 / 0x100 == 77 && 0x04da0 / 0x80 == 155 && 0x04da0 / 0x40 == 310 && 0x04da0 / 0x20 == 621 && 0x04da0 / 0x10 == 1242;
  }
  lemma Length1953() ensures YearDays(FirstYear + 53) == 354 {
    Row5();
    assert LunarInfo(FirstYear + 53) == 0x04da0;
    Entry1953();
  }
  lemma Entry1954() ensures EntryYearDays(0x0a5b0) == 355 {
    YearDaysByBits(0x0a5b0);
    assert 0x0a5b0 / 0x8000 == 1 && 0x0a5b0 / 0x4000 == 2 && 0x0a5b0 / 0x2000 == 5 && 0x0a5b0 / 0x1000 == 10 && 0x0a5b0 / 0x800 == 20 && 0x0a5b0 / 0x400 == 41 && 0x0a5b0 / 0x200 == 82 && 0x0a5b0 / 0x100 == 165 && 0x0a5b0 / 0x80 == 331 && 0x0a5b0 / 0x40 == 662 && 0x0a5b0 / 0x20 == 1325 && 0x0a5b0 / 0x10 == 2651;
  }
  lemma Length1954() ensures YearDays(FirstYear + 54) == 355 {
    Row5();
    assert LunarInfo(FirstYear + 54) == 0x0a5b0;
    Entry1954();
  }
  lemma Entry1955() ensures EntryYearDays(0x14573) == 384 {
    YearDaysByBits(0x14573);
    assert 0x14573 / 0x8000 == 2 && 0x14573 / 0x4000 == 5 && 0x14573 / 0x2000 == 10 && 0x14573 / 0x1000 == 20 && 0x14573 / 0x800 == 40 && 0x14573 / 0x400 == 81 && 0x14573 / 0x200 == 162 && 0x14573 / 0x100 == 325 && 0x14573 / 0x80 == 650 && 0x14573 / 0x40 == 1301 && 0x14573 / 0x20 == 2603 && 0x14573 / 0x10 == 5207;
  }
  lemma Length1955() ensures YearDays(FirstYear + 55) == 384 {
    Row5();
    assert LunarInfo(FirstYear + 55) == 0x14573;
    Entry1955();
  }
  lemma Entry1956() ensures EntryYearDays(0x052b0) == 354 {
    YearDaysByBits(0x052b0);
    assert 0x052b0 / 0x8000 == 0 && 0x052b0 / 0x4000 == 1 && 0x052b0 / 0x2000 == 2 && 0x052b0 / 0x1000 == 5 && 0x052b0 / 0x800 == 10 && 0x052b0 / 0x400 == 20 && 0x052b0 / 0x200 == 41 && 0x052b0 / 0x100 == 82 && 0x052b0 / 0x80 == 165 && 0x052b0 / 0x40 == 330 && 0x052b0 / 0x20 == 661 && 0x052b0 / 0x10 == 1323;
  }
  lemma Length1956() ensures YearDays(FirstYear + 56) == 354 {
    Row5();
    assert LunarInfo(FirstYear + 56) == 0x052b0;
    Entry1956();
  }
  lemma Entry1957() ensures EntryYearDays(0x0a9a8) == 383 {
    YearDaysByBits(0x0a9a8);
    assert 0x0a9a8 / 0x8000 == 1 && 0x0a9a8 / 0x4000 == 2 && 0x0a9a8 / 0x2000 == 5 && 0x0a9a8 / 0x1000 == 10 && 0x0a9a8 / 0x800 == 21 && 0x0a9a8 / 0x400 == 42 && 0x0a9a8 / 0x200 == 84 && 0x0a9a8 / 0x100 == 169 && 0x0a9a8 / 0x80 == 339 && 0x0a9a8 / 0x40 == 678 && 0x0a9a8 / 0x20 == 1357 && 0x0a9a8 / 0x10 == 2714;
  }
  lemma Length1957() ensures YearDays(FirstYear + 57) == 383 {
    Row5();
    assert LunarInfo(FirstYear + 57) == 0x0a9a8;
    Entry1957();
  }
  lemma Entry1958() ensures EntryYearDays(0x0e950) == 355 {
    YearDaysByBits(0x0e950);
    assert 0x0e950 / 0x8000 == 1 && 0x0e950 / 0x4000 == 3 && 0x0e950 / 0x2000 == 7 && 0x0e950 / 0x1000 == 14 && 0x0e950 / 0x800 == 29 && 0x0e950 / 0x400 == 58 && 0x0e950 / 0x200 == 116 && 0x0e950 / 0x100 == 233 && 0x0e950 / 0x80 == 466 && 0x0e950 / 0x40 == 933 && 0x0e950 / 0x20 == 1866 && 0x0e950 / 0x10 == 3733;
  }
  lemma Length1958() ensures YearDays(FirstYear + 58) == 355 {
    Row5();
    assert LunarInfo(FirstYear + 58) == 0x0e950;
    Entry1958();
  }
  lemma Entry1959() ensures EntryYearDays(0x06aa0) == 354 {
    YearDaysByBits(0x06aa0);
    assert 0x06aa0 / 0x8000 == 0 && 0x06aa0 / 0x4000 == 1 && 0x06aa0 / 0x2000 == 3 && 0x06aa0 / 0x1000 == 6 && 0x06aa0 / 0x800 == 13 && 0x06aa0 / 0x400 == 26 && 0x06aa0 / 0x200 == 53 && 0x06aa0 / 0x100 == 106 && 0x06aa0 / 0x80 == 213 && 0x06aa0 / 0x40 == 426 && 0x06aa0 / 0x20 == 853 && 0x06aa0 / 0x10 == 1706;
  }
  lemma Length1959() ensures YearDays(FirstYear + 59) == 354 {
    Row5();
    assert LunarInfo(FirstYear + 59) == 0x06aa0;
    Entry1959();
  }

  lemma Entry1960() ensures EntryYearDays(0x0aea6) == 384 {
    YearDaysByBits(0x0aea6);
    assert 0x0aea6 / 0x8000 == 1 && 0x0aea6 / 0x4000 == 2 && 0x0aea6 / 0x2000 == 5 && 0x0aea6 / 0x1000 == 10 && 0x0aea6 / 0x800 == 21 && 0x0aea6 / 0x400 == 43 && 0x0aea6 / 0x200 == 87 && 0x0aea6 / 0x100 == 174 && 0x0aea6 / 0x80 == 349 && 0x0aea6 / 0x40 == 698 && 0x0aea6 / 0x20 == 1397 && 0x0aea6 / 0x10 == 2794;
  }
  lemma Length1960() ensures YearDays(FirstYear + 60) == 384 {
    Row6();
    assert LunarInfo(FirstYear + 60) == 0x0aea6;
    Entry1960();
  }
  lemma Entry1961() ensures EntryYearDays(0x0ab50) == 355 {
    YearDaysByBits(0x0ab50);
    assert 0x0ab50 / 0x8000 == 1 && 0x0ab50 / 0x4000 == 2 && 0x0ab50 / 0x2000 == 5 && 0x0ab50 / 0x1000 == 10 && 0x0ab50 / 0x800 == 21 && 0x0ab50 / 0x400 == 42 && 0x0ab50 / 0x200 == 85 && 0x0ab50 / 0x100 == 171 && 0x0ab50 / 0x80 == 342 && 0x0ab50 / 0x40 == 685 && 0x0ab50 / 0x20 == 1370 && 0x0ab50 / 0x10 == 2741;
  }
  lemma Length1961() ensures YearDays(FirstYear + 61) == 355 {
    Row6();
    assert LunarInfo(FirstYear + 61) == 0x0ab50;
    Entry1961();
  }
  lemma Entry1962() ensures EntryYearDays(0x04b60) == 354 {
    YearDaysByBits(0x04b60);
    assert 0x04b60 / 0x8000 == 0 && 0x04b60 / 0x4000 == 1 && 0x04b60 / 0x2000 == 2 && 0x04b60 / 0x1000 == 4 && 0x04b60 / 0x800 == 9 && 0x04b60 / 0x400 == 18 && 0x04b60 / 0x200 == 37 && 0x04b60 / 0x100 == 75 && 0x04b60 / 0x80 == 150 && 0x04b60 / 0x40 == 301 && 0x04b60 / 0x20 == 603 && 0x04b60 / 0x10 == 1206;
  }
  lemma Length1962() ensures YearDays(FirstYear + 62) == 354 {
    Row6();
    assert LunarInfo(FirstYear + 62) == 0x04b60;
    Entry1962();
  }
  lemma Entry1963() ensures EntryYearDays(0x0aae4) == 384 {
    YearDaysByBits(0x0aae4);
    assert 0x0aae4 / 0x8000 == 1 && 0x0aae4 / 0x4000 == 2 && 0x0aae4 / 0x2000 == 5 && 0x0aae4 / 0x1000 == 10 && 0x0aae4 / 0x800 == 21 && 0x0aae4 / 0x400 == 42 && 0x0aae4 / 0x200 == 85 && 0x0aae4 / 0x100 == 170 && 0x0aae4 / 0x80 == 341 && 0x0aae4 / 0x40 == 683 && 0x0aae4 / 0x20 == 1367 && 0x0aae4 / 0x10 == 2734;
  }
  lemma Length1963() ensures YearDays(FirstYear + 63) == 384 {
    Row6();
    assert LunarInfo(FirstYear + 63) == 0x0aae4;
    Entry1963();
  }
  lemma Entry1964() ensures EntryYearDays(0x0a570) == 355 {
    YearDaysByBits(0x0a570);
    assert 0x0a570 / 0x8000 == 1 && 0x0a570 / 0x4000 == 2 && 0x0a570 / 0x2000 == 5 && 0x0a570 / 0x1000 == 10 && 0x0a570 / 0x800 == 20 && 0x0a570 / 0x400 == 41 && 0x0a570 / 0x200 == 82 && 0x0a570 / 0x100 == 165 && 0x0a570 / 0x80 == 330 && 0x0a570 / 0x40 == 661 && 0x0a570 / 0x20 == 1323 && 0x0a570 / 0x10 == 2647;
  }
  lemma Length1964() ensures YearDays(FirstYear + 64) == 355 {
    Row6();
    assert LunarInfo(FirstYear + 64) == 0x0a570;
    Entry1964();
  }
  lemma Entry1965() ensures EntryYearDays(0x05260) == 353 {
    YearDaysByBits(0x05260);
    assert 0x05260 / 0x8000 == 0 && 0x05260 / 0x4000 == 1 && 0x05260 / 0x2000 == 2 && 0x05260 / 0x1000 == 5 && 0x05260 / 0x800 == 10 && 0x05260 / 0x400 == 20 && 0x05260 / 0x200 == 41 && 0x05260 / 0x100 == 82 && 0x05260 / 0x80 == 164 && 0x05260 / 0x40 == 329 && 0x05260 / 0x20 == 659 && 0x05260 / 0x10 == 1318;
  }
  lemma Length1965() ensures YearDays(FirstYear + 65) == 353 {
    Row6();
    assert LunarInfo(FirstYear + 65) == 0x05260;
    Entry1965();
  }
  lemma Entry1966() ensures EntryYearDays(0x0f263) == 384 {
    YearDaysByBits(0x0f263);
    assert 0x0f263 / 0x8000 == 1 && 0x0f263 / 0x4000 == 3 && 0x0f263 / 0x2000 == 7 && 0x0f263 / 0x1000 == 15 && 0x0f263 / 0x800 == 30 && 0x0f263 / 0x400 == 60 && 0x0f263 / 0x200 == 121 && 0x0f263 / 0x100 == 242 && 0x0f263 / 0x80 == 484 && 0x0f263 / 0x40 == 969 && 0x0f263 / 0x20 == 1939 && 0x0f263 / 0x10 == 3878;
  }
  lemma Length1966() ensures YearDays(FirstYear + 66) == 384 {
    Row6();
    assert LunarInfo(FirstYear + 66) == 0x0f263;
    Entry1966();
  }
  lemma Entry1967() ensures EntryYearDays(0x0d950) == 355 {
    YearDaysByBits(0x0d950);
    assert 0x0d950 / 0x8000 == 1 && 0x0d950 / 0x4000 == 3 && 0x0d950 / 0x2000 == 6 && 0x0d950 / 0x1000 == 13 && 0x0d950 / 0x800 == 27 && 0x0d950 / 0x400 == 54 && 0x0d950 / 0x200 == 108 && 0x0d950 / 0x100 == 217 && 0x0d950 / 0x80 == 434 && 0x0d950 / 0x40 == 869 && 0x0d950 / 0x20 == 1738 && 0x0d950 / 0x10 == 3477;
  }
  lemma Length1967() ensures YearDays(FirstYear + 67) == 355 {
    Row6();
    assert LunarInfo(FirstYear + 67) == 0x0d950;
    Entry1967();
  }
  lemma Entry1968() ensures EntryYearDays(0x05b57) == 384 {
    YearDaysByBits(0x05b57);
    assert 0x05b57 / 0x8000 == 0 && 0x05b57 / 0x4000 == 1 && 0x05b57 / 0x2000 == 2 && 0x05b57 / 0x1000 == 5 && 0x05b57 / 0x800 == 11 && 0x05b57 / 0x400 == 22 && 0x05b57 / 0x200 == 45 && 0x05b57 / 0x100 == 91 && 0x05b57 / 0x80 == 182 && 0x05b57 / 0x40 == 365 && 0x05b57 / 0x20 == 730 && 0x05b57 / 0x10 == 1461;
  }
  lemma Length1968() ensures YearDays(FirstYear + 68) == 384 {
    Row6();
    assert LunarInfo(FirstYear + 68) == 0x05b57;
    Entry1968();
  }
  lemma Entry1969() ensures EntryYearDays(0x056a0) == 354 {
    YearDaysByBits(0x056a0);
    assert 0x056a0 / 0x8000 == 0 && 0x056a0 / 0x4000 == 1 && 0x056a0 / 0x2000 == 2 && 0x056a0 / 0x1000 == 5 && 0x056a0 / 0x800 == 10 && 0x056a0 / 0x400 == 21 && 0x056a0 / 0x200 == 43 && 0x056a0 / 0x100 == 86 && 0x056a0 / 0x80 == 173 && 0x056a0 / 0x40 == 346 && 0x056a0 / 0x20 == 693 && 0x056a0 / 0x10 == 1386;
  }
  lemma Length1969() ensures YearDays(FirstYear + 69) == 354 {
    Row6();
    assert LunarInfo(FirstYear + 69) == 0x056a0;
    Entry1969();
  }

  lemma Entry1970() ensures EntryYearDays(0x096d0) == 355 {
    YearDaysByBits(0x096d0);
    assert 0x096d0 / 0x8000 == 1 && 0x096d0 / 0x4000 == 2 && 0x096d0 / 0x2000 == 4 && 0x096d0 / 0x1000 == 9 && 0x096d0 / 0x800 == 18 && 0x096d0 / 0x400 == 37 && 0x096d0 / 0x200 == 75 && 0x096d0 / 0x100 == 150 && 0x096d0 / 0x80 == 301 && 0x096d0 / 0x40 == 603 && 0x096d0 / 0x20 == 1206 && 0x096d0 / 0x10 == 2413;
  }
  lemma Length1970() ensures YearDays(FirstYear + 70) == 355 {
    Row7();
    assert LunarInfo(FirstYear + 70) == 0x096d0;
    Entry1970();
  }
  lemma Entry1971() ensures EntryYearDays(0x04dd5) == 384 {
    YearDaysByBits(0x04dd5);
    assert 0x04dd5 / 0x8000 == 0 && 0x04dd5 / 0x4000 == 1 && 0x04dd5 / 0x2000 == 2 && 0x04dd5 / 0x1000 == 4 && 0x04dd5 / 0x800 == 9 && 0x04dd5 / 0x400 == 19 && 0x04dd5 / 0x200 == 38 && 0x04dd5 / 0x100 == 77 && 0x04dd5 / 0x80 == 155 && 0x04dd5 / 0x40 == 311 && 0x04dd5 / 0x20 == 622 && 0x04dd5 / 0x10 == 1245;
  }
  lemma Length1971() ensures YearDays(FirstYear + 71) == 384 {
    Row7();
    assert LunarInfo(FirstYear + 71) == 0x04dd5;
    Entry1971();
  }
  lemma Entry1972() ensures EntryYearDays(0x04ad0) == 354 {
    YearDaysByBits(0x04ad0);
    assert 0x04ad0 / 0x8000 == 0 && 0x04ad0 / 0x4000 == 1 && 0x04ad0 / 0x2000 == 2 && 0x04ad0 / 0x1000 == 4 && 0x04ad0 / 0x800 == 9 && 0x04ad0 / 0x400 == 18 && 0x04ad0 / 0x200 == 37 && 0x04ad0 / 0x100 == 74 && 0x04ad0 / 0x80 == 149 && 0x04ad0 / 0x40 == 299 && 0x04ad0 / 0x20 == 598 && 0x04ad0 / 0x10 == 1197;
  }
  lemma Length1972() ensures YearDays(FirstYear + 72) == 354 {
    Row7();
    assert LunarInfo(FirstYear + 72) == 0x04ad0;
    Entry1972();
  }
  lemma Entry1973() ensures EntryYearDays(0x0a4d0) == 354 {
    YearDaysByBits(0x0a4d0);
    assert 0x0a4d0 / 0x8000 == 1 && 0x0a4d0 / 0x4000 == 2 && 0x0a4d0 / 0x2000 == 5 && 0x0a4d0 / 0x1000 == 10 && 0x0a4d0 / 0x800 == 20 && 0x0a4d0 / 0x400 == 41 && 0x0a4d0 / 0x200 == 82 && 0x0a4d0 / 0x100 == 164 && 0x0a4d0 / 0x80 == 329 && 0x0a4d0 / 0x40 == 659 && 0x0a4d0 / 0x20 == 1318 && 0x0a4d0 / 0x10 == 2637;
  }
  lemma Length1973() ensures YearDays(FirstYear + 73) == 354 {
    Row7();
    assert LunarInfo(FirstYear + 73) == 0x0a4d0;
    Entry1973();
  }
  lemma Entry1974() ensures EntryYearDays(0x0d4d4) == 384 {
    YearDaysByBits(0x0d4d4);
    assert 0x0d4d4 / 0x8000 == 1 && 0x0d4d4 / 0x4000 == 3 && 0x0d4d4 / 0x2000 == 6 && 0x0d4d4 / 0x1000 == 13 && 0x0d4d4 / 0x800 == 26 && 0x0d4d4 / 0x400 == 53 && 0x0d4d4 / 0x200 == 106 && 0x0d4d4 / 0x100 == 212 && 0x0d4d4 / 0x80 == 425 && 0x0d4d4 / 0x40 == 851 && 0x0d4d4 / 0x20 == 1702 && 0x0d4d4 / 0x10 == 3405;
  }
  lemma Length1974() ensures YearDays(FirstYear + 74) == 384 {
    Row7();
    assert LunarInfo(FirstYear + 74) == 0x0d4d4;
    Entry1974();
  }
  lemma Entry1975() ensures EntryYearDays(0x0d250) == 354 {
    YearDaysByBits(0x0d250);
    assert 0x0d250 / 0x8000 == 1 && 0x0d250 / 0x4000 == 3 && 0x0d250 / 0x2000 == 6 && 0x0d250 / 0x1000 == 13 && 0x0d250 / 0x800 == 26 && 0x0d250 / 0x400 == 52 && 0x0d250 / 0x200 == 105 && 0x0d250 / 0x100 == 210 && 0x0d250 / 0x80 == 420 && 0x0d250 / 0x40 == 841 && 0x0d250 / 0x20 == 1682 && 0x0d250 / 0x10 == 3365;
  }
  lemma Length1975() ensures YearDays(FirstYear + 75) == 354 {
    Row7();
    assert LunarInfo(FirstYear + 75) == 0x0d250;
    Entry1975();
  }
  lemma Entry1976() ensures EntryYearDays(0x0d558) == 384 {
    YearDaysByBits(0x0d558);
    assert 0x0d558 / 0x8000 == 1 && 0x0d558 / 0x4000 == 3 && 0x0d558 / 0x2000 == 6 && 0x0d558 / 0x1000 == 13 && 0x0d558 / 0x800 == 26 && 0x0d558 / 0x400 == 53 && 0x0d558 / 0x200 == 106 && 0x0d558 / 0x100 == 213 && 0x0d558 / 0x80 == 426 && 0x0d558 / 0x40 == 853 && 0x0d558 / 0x20 == 1706 && 0x0d558 / 0x10 == 3413;
  }
  lemma Length1976() ensures YearDays(FirstYear + 76) == 384 {
    Row7();
    assert LunarInfo(FirstYear + 76) == 0x0d558;
    Entry1976();
  }
  lemma Entry1977() ensures EntryYearDays(0x0b540) == 354 {
    YearDaysByBits(0x0b540);
    assert 0x0b540 / 0x8000 == 1 && 0x0b540 / 0x4000 == 2 && 0x0b540 / 0x2000 == 5 && 0x0b540 / 0x1000 == 11 && 0x0b540 / 0x800 == 22 && 0x0b540 / 0x400 == 45 && 0x0b540 / 0x200 == 90 && 0x0b540 / 0x100 == 181 && 0x0b540 / 0x80 == 362 && 0x0b540 / 0x40 == 725 && 0x0b540 / 0x20 == 1450 && 0x0b540 / 0x10 == 2900;
  }
  lemma Length1977() ensures YearDays(FirstYear + 77) == 354 {
    Row7();
    assert LunarInfo(FirstYear + 77) == 0x0b540;
    Entry1977();
  }
  lemma Entry1978() ensures EntryYearDays(0x0b6a0) == 355 {
    YearDaysByBits(0x0b6a0);
    assert 0x0b6a0 / 0x8000 == 1 && 0x0b6a0 / 0x4000 == 2 && 0x0b6a0 / 0x2000 == 5 && 0x0b6a0 / 0x1000 == 11 && 0x0b6a0 / 0x800 == 22 && 0x0b6a0 / 0x400 == 45 && 0x0b6a0 / 0x200 == 91 && 0x0b6a0 / 0x100 == 182 && 0x0b6a0 / 0x80 == 365 && 0x0b6a0 / 0x40 == 730 && 0x0b6a0 / 0x20 == 1461 && 0x0b6a0 / 0x10 == 2922;
  }
  lemma Length1978() ensures YearDays(FirstYear + 78) == 355 {
    Row7();
    assert LunarInfo(FirstYear + 78) == 0x0b6a0;
    Entry1978();
  }
  lemma Entry1979() ensures EntryYearDays(0x195a6) == 384 {
    YearDaysByBits(0x195a6);
    assert 0x195a6 / 0x8000 == 3 && 0x195a6 / 0x4000 == 6 && 0x195a6 / 0x2000 == 12 && 0x195a6 / 0x1000 == 25 && 0x195a6 / 0x800 == 50 && 0x195a6 / 0x400 == 101 && 0x195a6 / 0x200 == 202 && 0x195a6 / 0x100 == 405 && 0x195a6 / 0x80 == 811 && 0x195a6 / 0x40 == 1622 && 0x195a6 / 0x20 == 3245 && 0x195a6 / 0x10 == 6490;
  }
  lemma Length1979() ensures YearDays(FirstYear + 79) == 384 {
    Row7();
    assert LunarInfo(FirstYear + 79) == 0x195a6;
    Entry1979();
  }

  lemma Entry1980() ensures EntryYearDays(0x095b0) == 355 {
    YearDaysByBits(0x095b0);
    assert 0x095b0 / 0x8000 == 1 && 0x095b0 / 0x4000 == 2 && 0x095b0 / 0x2000 == 4 && 0x095b0 / 0x1000 == 9 && 0x095b0 / 0x800 == 18 && 0x095b0 / 0x400 == 37 && 0x095b0 / 0x200 == 74 && 0x095b0 / 0x100 == 149 && 0x095b0 / 0x80 == 299 && 0x095b0 / 0x40 == 598 && 0x095b0 / 0x20 == 1197 && 0x095b0 / 0x10 == 2395;
  }
  lemma Length1980() ensures YearDays(FirstYear + 80) == 355 {
    Row8();
    assert LunarInfo(FirstYear + 80) == 0x095b0;
    Entry1980();
  }
  lemma Entry1981() ensures EntryYearDays(0x049b0) == 354 {
    YearDaysByBits(0x049b0);
    assert 0x049b0 / 0x8000 == 0 && 0x049b0 / 0x4000 == 1 && 0x049b0 / 0x2000 == 2 && 0x049b0 / 0x1000 == 4 && 0x049b0 / 0x800 == 9 && 0x049b0 / 0x400 == 18 && 0x049b0 / 0x200 == 36 && 0x049b0 / 0x100 == 73 && 0x049b0 / 0x80 == 147 && 0x049b0 / 0x40 == 294 && 0x049b0 / 0x20 == 589 && 0x049b0 / 0x10 == 1179;
  }
  lemma Length1981() ensures YearDays(FirstYear + 81) == 354 {
    Row8();
    assert LunarInfo(FirstYear + 81) == 0x049b0;
    Entry1981();
  }
  lemma Entry1982() ensures EntryYearDays(0x0a974) == 384 {
    YearDaysByBits(0x0a974);
    assert 0x0a974 / 0x8000 == 1 && 0x0a974 / 0x4000 == 2 && 0x0a974 / 0x2000 == 5 && 0x0a974 / 0x1000 == 10 && 0x0a974 / 0x800 == 21 && 0x0a974 / 0x400 == 42 && 0x0a974 / 0x200 == 84 && 0x0a974 / 0x100 == 169 && 0x0a974 / 0x80 == 338 && 0x0a974 / 0x40 == 677 && 0x0a974 / 0x20 == 1355 && 0x0a974 / 0x10 == 2711;
  }
  lemma Length1982() ensures YearDays(FirstYear + 82) == 384 {
    Row8();
    assert LunarInfo(FirstYear + 82) == 0x0a974;
    Entry1982();
  }
  lemma Entry1983() ensures EntryYearDays(0x0a4b0) == 354 {
    YearDaysByBits(0x0a4b0);
    assert 0x0a4b0 / 0x8000 == 1 && 0x0a4b0 / 0x4000 == 2 && 0x0a4b0 / 0x2000 == 5 && 0x0a4b0 / 0x1000 == 10 && 0x0a4b0 / 0x800 == 20 && 0x0a4b0 / 0x400 == 41 && 0x0a4b0 / 0x200 == 82 && 0x0a4b0 / 0x100 == 164 && 0x0a4b0 / 0x80 == 329 && 0x0a4b0 / 0x40 == 658 && 0x0a4b0 / 0x20 == 1317 && 0x0a4b0 / 0x10 == 2635;
  }
  lemma Length1983() ensures YearDays(FirstYear + 83) == 354 {
    Row8();
    assert LunarInfo(FirstYear + 83) == 0x0a4b0;
    Entry1983();
  }
  lemma Entry1984() ensures EntryYearDays(0x0b27a) == 384 {
    YearDaysByBits(0x0b27a);
    assert 0x0b27a / 0x8000 == 1 && 0x0b27a / 0x4000 == 2 && 0x0b27a / 0x2000 == 5 && 0x0b27a / 0x1000 == 11 && 0x0b27a / 0x800 == 22 && 0x0b27a / 0x400 == 44 && 0x0b27a / 0x200 == 89 && 0x0b27a / 0x100 == 178 && 0x0b27a / 0x80 == 356 && 0x0b27a / 0x40 == 713 && 0x0b27a / 0x20 == 1427 && 0x0b27a / 0x10 == 2855;
  }
  lemma Length1984() ensures YearDays(FirstYear + 84) == 384 {
    Row8();
    assert LunarInfo(FirstYear + 84) == 0x0b27a;
    Entry1984();
  }
  lemma Entry1985() ensures EntryYearDays(0x06a50) == 354 {
    YearDaysByBits(0x06a50);
    assert 0x06a50 / 0x8000 == 0 && 0x06a50 / 0x4000 == 1 && 0x06a50 / 0x2000 == 3 && 0x06a50 / 0x1000 == 6 && 0x06a50 / 0x800 == 13 && 0x06a50 / 0x400 == 26 && 0x06a50 / 0x200 == 53 && 0x06a50 / 0x100 == 106 && 0x06a50 / 0x80 == 212 && 0x06a50 / 0x40 == 425 && 0x06a50 / 0x20 == 850 && 0x06a50 / 0x10 == 1701;
  }
  lemma Length1985() ensures YearDays(FirstYear + 85) == 354 {
    Row8();
    assert LunarInfo(FirstYear + 85) == 0x06a50;
    Entry1985();
  }
  lemma Entry1986() ensures EntryYearDays(0x06d40) == 354 {
    YearDaysByBits(0x06d40);
    assert 0x06d40 / 0x8000 == 0 && 0x06d40 / 0x4000 == 1 && 0x06d40 / 0x2000 == 3 && 0x06d40 / 0x1000 == 6 && 0x06d40 / 0x800 == 13 && 0x06d40 / 0x400 == 27 && 0x06d40 / 0x200 == 54 && 0x06d40 / 0x100 == 109 && 0x06d40 / 0x80 == 218 && 0x06d40 / 0x40 == 437 && 0x06d40 / 0x20 == 874 && 0x06d40 / 0x10 == 1748;
  }
  lemma Length1986() ensures YearDays(FirstYear + 86) == 354 {
    Row8();
    assert LunarInfo(FirstYear + 86) == 0x06d40;
    Entry1986();
  }
  lemma Entry1987() ensures EntryYearDays(0x0af46) == 384 {
    YearDaysByBits(0x0af46);
    assert 0x0af46 / 0x8000 == 1 && 0x0af46 / 0x4000 == 2 && 0x0af46 / 0x2000 == 5 && 0x0af46 / 0x1000 == 10 && 0x0af46 / 0x800 == 21 && 0x0af46 / 0x400 == 43 && 0x0af46 / 0x200 == 87 && 0x0af46 / 0x100 == 175 && 0x0af46 / 0x80 == 350 && 0x0af46 / 0x40 == 701 && 0x0af46 / 0x20 == 1402 && 0x0af46 / 0x10 == 2804;
  }
  lemma Length1987() ensures YearDays(FirstYear + 87) == 384 {
    Row8();
    assert LunarInfo(FirstYear + 87) == 0x0af46;
    Entry1987();
  }
  lemma Entry1988() ensures EntryYearDays(0x0ab60) == 355 {
    YearDaysByBits(0x0ab60);
    assert 0x0ab60 / 0x8000 == 1 && 0x0ab60 / 0x4000 == 2 && 0x0ab60 / 0x2000 == 5 && 0x0ab60 / 0x1000 == 10 && 0x0ab60 / 0x800 == 21 && 0x0ab60 / 0x400 == 42 && 0x0ab60 / 0x200 == 85 && 0x0ab60 / 0x100 == 171 && 0x0ab60 / 0x80 == 342 && 0x0ab60 / 0x40 == 685 && 0x0ab60 / 0x20 == 1371 && 0x0ab60 / 0x10 == 2742;
  }
  lemma Length1988() ensures YearDays(FirstYear + 88) == 355 {
    Row8();
    assert LunarInfo(FirstYear + 88) == 0x0ab60;
    Entry1988();
  }
  lemma Entry1989() ensures EntryYearDays(0x09570) == 355 {
    YearDaysByBits(0x09570);
    assert 0x09570 / 0x8000 == 1 && 0x09570 / 0x4000 == 2 && 0x09570 / 0x2000 == 4 && 0x09570 / 0x1000 == 9 && 0x09570 / 0x800 == 18 && 0x09570 / 0x400 == 37 && 0x09570 / 0x200 == 74 && 0x09570 / 0x100 == 149 && 0x09570 / 0x80 == 298 && 0x09570 / 0x40 == 597 && 0x09570 / 0x20 == 1195 && 0x09570 / 0x10 == 2391;
  }
  lemma Length1989() ensures YearDays(FirstYear + 89) == 355 {
    Row8();
    assert LunarInfo(FirstYear + 89) == 0x09570;
    Entry1989();
  }

  lemma Entry1990() ensures EntryYearDays(0x04af5) == 384 {
    YearDaysByBits(0x04af5);
    assert 0x04af5 / 0x8000 == 0 && 0x04af5 / 0x4000 == 1 && 0x04af5 / 0x2000 == 2 && 0x04af5 / 0x1000 == 4 && 0x04af5 / 0x800 == 9 && 0x04af5 / 0x400 == 18 && 0x04af5 / 0x200 == 37 && 0x04af5 / 0x100 == 74 && 0x04af5 / 0x80 == 149 && 0x04af5 / 0x40 == 299 && 0x04af5 / 0x20 == 599 && 0x04af5 / 0x10 == 1199;
  }
  lemma Length1990() ensures YearDays(FirstYear + 90) == 384 {
    Row9();
    assert LunarInfo(FirstYear + 90) == 0x04af5;
    Entry1990();
  }
  lemma Entry1991() ensures EntryYearDays(0x04970) == 354 {
    YearDaysByBits(0x04970);
    assert 0x04970 / 0x8000 == 0 && 0x04970 / 0x4000 == 1 && 0x04970 / 0x2000 == 2 && 0x04970 / 0x1000 == 4 && 0x04970 / 0x800 == 9 && 0x04970 / 0x400 == 18 && 0x04970 / 0x200 == 36 && 0x04970 / 0x100 == 73 && 0x04970 / 0x80 == 146 && 0x04970 / 0x40 == 293 && 0x04970 / 0x20 == 587 && 0x04970 / 0x10 == 1175;
  }
  lemma Length1991() ensures YearDays(FirstYear + 91) == 354 {
    Row9();
    assert LunarInfo(FirstYear + 91) == 0x04970;
    Entry1991();
  }
  lemma Entry1992() ensures EntryYearDays(0x064b0) == 354 {
    YearDaysByBits(0x064b0);
    assert 0x064b0 / 0x8000 == 0 && 0x064b0 / 0x4000 == 1 && 0x064b0 / 0x2000 == 3 && 0x064b0 / 0x1000 == 6 && 0x064b0 / 0x800 == 12 && 0x064b0 / 0x400 == 25 && 0x064b0 / 0x200 == 50 && 0x064b0 / 0x100 == 100 && 0x064b0 / 0x80 == 201 && 0x064b0 / 0x40 == 402 && 0x064b0 / 0x20 == 805 && 0x064b0 / 0x10 == 1611;
  }
  lemma Length1992() ensures YearDays(FirstYear + 92) == 354 {
    Row9();
    assert LunarInfo(FirstYear + 92) == 0x064b0;
    Entry1992();
  }
  lemma Entry1993() ensures EntryYearDays(0x074a3) == 383 {
    YearDaysByBits(0x074a3);
    assert 0x074a3 / 0x8000 == 0 && 0x074a3 / 0x4000 == 1 && 0x074a3 / 0x2000 == 3 && 0x074a3 / 0x1000 == 7 && 0x074a3 / 0x800 == 14 && 0x074a3 / 0x400 == 29 && 0x074a3 / 0x200 == 58 && 0x074a3 / 0x100 == 116 && 0x074a3 / 0x80 == 233 && 0x074a3 / 0x40 == 466 && 0x074a3 / 0x20 == 933 && 0x074a3 / 0x10 == 1866;
  }
  lemma Length1993() ensures YearDays(FirstYear + 93) == 383 {
    Row9();
    assert LunarInfo(FirstYear + 93) == 0x074a3;
    Entry1993();
  }
  lemma Entry1994() ensures EntryYearDays(0x0ea50) == 355 {
    YearDaysByBits(0x0ea50);
    assert 0x0ea50 / 0x8000 == 1 && 0x0ea50 / 0x4000 == 3 && 0x0ea50 / 0x2000 == 7 && 0x0ea50 / 0x1000 == 14 && 0x0ea50 / 0x800 == 29 && 0x0ea50 / 0x400 == 58 && 0x0ea50 / 0x200 == 117 && 0x0ea50 / 0x100 == 234 && 0x0ea50 / 0x80 == 468 && 0x0ea50 / 0x40 == 937 && 0x0ea50 / 0x20 == 1874 && 0x0ea50 / 0x10 == 3749;
  }
  lemma Length1994() ensures YearDays(FirstYear + 94) == 355 {
    Row9();
    assert LunarInfo(FirstYear + 94) == 0x0ea50;
    Entry1994();
  }
  lemma Entry1995() ensures EntryYearDays(0x06b58) == 384 {
    YearDaysByBits(0x06b58);
    assert 0x06b58 / 0x8000 == 0 && 0x06b58 / 0x4000 == 1 && 0x06b58 / 0x2000 == 3 && 0x06b58 / 0x1000 == 6 && 0x06b58 / 0x800 == 13 && 0x06b58 / 0x400 == 26 && 0x06b58 / 0x200 == 53 && 0x06b58 / 0x100 == 107 && 0x06b58 / 0x80 == 214 && 0x06b58 / 0x40 == 429 && 0x06b58 / 0x20 == 858 && 0x06b58 / 0x10 == 1717;
  }
  lemma Length1995() ensures YearDays(FirstYear + 95) == 384 {
    Row9();
    assert LunarInfo(FirstYear + 95) == 0x06b58;
    Entry1995();
  }
  lemma Entry1996() ensures EntryYearDays(0x05ac0) == 354 {
    YearDaysByBits(0x05ac0);
    assert 0x05ac0 / 0x8000 == 0 && 0x05ac0 / 0x4000 == 1 && 0x05ac0 / 0x2000 == 2 && 0x05ac0 / 0x1000 == 5 && 0x05ac0 / 0x800 == 11 && 0x05ac0 / 0x400 == 22 && 0x05ac0 / 0x200 == 45 && 0x05ac0 / 0x100 == 90 && 0x05ac0 / 0x80 == 181 && 0x05ac0 / 0x40 == 363 && 0x05ac0 / 0x20 == 726 && 0x05ac0 / 0x10 == 1452;
  }
  lemma Length1996() ensures YearDays(FirstYear + 96) == 354 {
    Row9();
    assert LunarInfo(FirstYear + 96) == 0x05ac0;
    Entry1996();
  }
  lemma Entry1997() ensures EntryYearDays(0x0ab60) == 355 {
    YearDaysByBits(0x0ab60);
    assert 0x0ab60 / 0x8000 == 1 && 0x0ab60 / 0x4000 == 2 && 0x0ab60 / 0x2000 == 5 && 0x0ab60 / 0x1000 == 10 && 0x0ab60 / 0x800 == 21 && 0x0ab60 / 0x400 == 42 && 0x0ab60 / 0x200 == 85 && 0x0ab60 / 0x100 == 171 && 0x0ab60 / 0x80 == 342 && 0x0ab60 / 0x40 == 685 && 0x0ab60 / 0x20 == 1371 && 0x0ab60 / 0x10 == 2742;
  }
  lemma Length1997() ensures YearDays(FirstYear + 97) == 355 {
    Row9();
    assert LunarInfo(FirstYear + 97) == 0x0ab60;
    Entry1997();
  }
  lemma Entry1998() ensures EntryYearDays(0x096d5) == 384 {
    YearDaysByBits(0x096d5);
    assert 0x096d5 / 0x8000 == 1 && 0x096d5 / 0x4000 == 2 && 0x096d5 / 0x2000 == 4 && 0x096d5 / 0x1000 == 9 && 0x096d5 / 0x800 == 18 && 0x096d5 / 0x400 == 37 && 0x096d5 / 0x200 == 75 && 0x096d5 / 0x100 == 150 && 0x096d5 / 0x80 == 301 && 0x096d5 / 0x40 == 603 && 0x096d5 / 0x20 == 1206 && 0x096d5 / 0x10 == 2413;
  }
  lemma Length1998() ensures YearDays(FirstYear + 98) == 384 {
    Row9();
    assert LunarInfo(FirstYear + 98) == 0x096d5;
    Entry1998();
  }
  lemma Entry1999() ensures EntryYearDays(0x092e0) == 354 {
    YearDaysByBits(0x092e0);
    assert 0x092e0 / 0x8000 == 1 && 0x092e0 / 0x4000 == 2 && 0x092e0 / 0x2000 == 4 && 0x092e0 / 0x1000 == 9 && 0x092e0 / 0x800 == 18 && 0x092e0 / 0x400 == 36 && 0x092e0 / 0x200 == 73 && 0x092e0 / 0x100 == 146 && 0x092e0 / 0x80 == 293 && 0x092e0 / 0x40 == 587 && 0x092e0 / 0x20 == 1175 && 0x092e0 / 0x10 == 2350;
  }
  lemma Length1999() ensures YearDays(FirstYear + 99) == 354 {
    Row9();
    assert LunarInfo(FirstYear + 99) == 0x092e0;
    Entry1999();
  }

  lemma Entry2000() ensures EntryYearDays(0x0c960) == 354 {
    YearDaysByBits(0x0c960);
    assert 0x0c960 / 0x8000 == 1 && 0x0c960 / 0x4000 == 3 && 0x0c960 / 0x2000 == 6 && 0x0c960 / 0x1000 == 12 && 0x0c960 / 0x800 == 25 && 0x0c960 / 0x400 == 50 && 0x0c960 / 0x200 == 100 && 0x0c960 / 0x100 == 201 && 0x0c960 / 0x80 == 402 && 0x0c960 / 0x40 == 805 && 0x0c960 / 0x20 == 1611 && 0x0c960 / 0x10 == 3222;
  }
  lemma Length2000() ensures YearDays(FirstYear + 100) == 354 {
    Row10();
    assert LunarInfo(FirstYear + 100) == 0x0c960;
    Entry2000();
  }
  lemma Entry2001() ensures EntryYearDays(0x0d954) == 384 {
    YearDaysByBits(0x0d954);
    assert 0x0d954 / 0x8000 == 1 && 0x0d954 / 0x4000 == 3 && 0x0d954 / 0x2000 == 6 && 0x0d954 / 0x1000 == 13 && 0x0d954 / 0x800 == 27 && 0x0d954 / 0x400 == 54 && 0x0d954 / 0x200 == 108 && 0x0d954 / 0x100 == 217 && 0x0d954 / 0x80 == 434 && 0x0d954 / 0x40 == 869 && 0x0d954 / 0x20 == 1738 && 0x0d954 / 0x10 == 3477;
  }
  lemma Length2001() ensures YearDays(FirstYear + 101) == 384 {
    Row10();
    assert LunarInfo(FirstYear + 101) == 0x0d954;
    Entry2001();
  }
  lemma Entry2002() ensures EntryYearDays(0x0d4a0) == 354 {
    YearDaysByBits(0x0d4a0);
    assert 0x0d4a0 / 0x8000 == 1 && 0x0d4a0 / 0x4000 == 3 && 0x0d4a0 / 0x2000 == 6 && 0x0d4a0 / 0x1000 == 13 && 0x0d4a0 / 0x800 == 26 && 0x0d4a0 / 0x400 == 53 && 0x0d4a0 / 0x200 == 106 && 0x0d4a0 / 0x100 == 212 && 0x0d4a0 / 0x80 == 425 && 0x0d4a0 / 0x40 == 850 && 0x0d4a0 / 0x20 == 1701 && 0x0d4a0 / 0x10 == 3402;
  }
  lemma Length2002() ensures YearDays(FirstYear + 102) == 354 {
    Row10();
    assert LunarInfo(FirstYear + 102) == 0x0d4a0;
    Entry2002();
  }
  lemma Entry2003() ensures EntryYearDays(0x0da50) == 355 {
    YearDaysByBits(0x0da50);
    assert 0x0da50 / 0x8000 == 1 && 0x0da50 / 0x4000 == 3 && 0x0da50 / 0x2000 == 6 && 0x0da50 / 0x1000 == 13 && 0x0da50 / 0x800 == 27 && 0x0da50 / 0x400 == 54 && 0x0da50 / 0x200 == 109 && 0x0da50 / 0x100 == 218 && 0x0da50 / 0x80 == 436 && 0x0da50 / 0x40 == 873 && 0x0da50 / 0x20 == 1746 && 0x0da50 / 0x10 == 3493;
  }
  lemma Length2003() ensures YearDays(FirstYear + 103) == 355 {
    Row10();
    assert LunarInfo(FirstYear + 103) == 0x0da50;
    Entry2003();
  }
  lemma Entry2004() ensures EntryYearDays(0x07552) == 384 {
    YearDaysByBits(0x07552);
    assert 0x07552 / 0x8000 == 0 && 0x07552 / 0x4000 == 1 && 0x07552 / 0x2000 == 3 && 0x07552 / 0x1000 == 7 && 0x07552 / 0x800 == 14 && 0x07552 / 0x400 == 29 && 0x07552 / 0x200 == 58 && 0x07552 / 0x100 == 117 && 0x07552 / 0x80 == 234 && 0x07552 / 0x40 == 469 && 0x07552 / 0x20 == 938 && 0x07552 / 0x10 == 1877;
  }
  lemma Length2004() ensures YearDays(FirstYear + 104) == 384 {
    Row10();
    assert LunarInfo(FirstYear + 104) == 0x07552;
    Entry2004();
  }
  lemma Entry2005() ensures EntryYearDays(0x056a0) == 354 {
    YearDaysByBits(0x056a0);
    assert 0x056a0 / 0x8000 == 0 && 0x056a0 / 0x4000 == 1 && 0x056a0 / 0x2000 == 2 && 0x056a0 / 0x1000 == 5 && 0x056a0 / 0x800 == 10 && 0x056a0 / 0x400 == 21 && 0x056a0 / 0x200 == 43 && 0x056a0 / 0x100 == 86 && 0x056a0 / 0x80 == 173 && 0x056a0 / 0x40 == 346 && 0x056a0 / 0x20 == 693 && 0x056a0 / 0x10 == 1386;
  }
  lemma Length2005() ensures YearDays(FirstYear + 105) == 354 {
    Row10();
    assert LunarInfo(FirstYear + 105) == 0x056a0;
    Entry2005();
  }
  lemma Entry2006() ensures EntryYearDays(0x0abb7) == 385 {
    YearDaysByBits(0x0abb7);
    assert 0x0abb7 / 0x8000 == 1 && 0x0abb7 / 0x4000 == 2 && 0x0abb7 / 0x2000 == 5 && 0x0abb7 / 0x1000 == 10 && 0x0abb7 / 0x800 == 21 && 0x0abb7 / 0x400 == 42 && 0x0abb7 / 0x200 == 85 && 0x0abb7 / 0x100 == 171 && 0x0abb7 / 0x80 == 343 && 0x0abb7 / 0x40 == 686 && 0x0abb7 / 0x20 == 1373 && 0x0abb7 / 0x10 == 2747;
  }
  lemma Length2006() ensures YearDays(FirstYear + 106) == 385 {
    Row10();
    assert LunarInfo(FirstYear + 106) == 0x0abb7;
    Entry2006();
  }
  lemma Entry2007() ensures EntryYearDays(0x025d0) == 354 {
    YearDaysByBits(0x025d0);
    assert 0x025d0 / 0x8000 == 0 && 0x025d0 / 0x4000 == 0 && 0x025d0 / 0x2000 == 1 && 0x025d0 / 0x1000 == 2 && 0x025d0 / 0x800 == 4 && 0x025d0 / 0x400 == 9 && 0x025d0 / 0x200 == 18 && 0x025d0 / 0x100 == 37 && 0x025d0 / 0x80 == 75 && 0x025d0 / 0x40 == 151 && 0x025d0 / 0x20 == 302 && 0x025d0 / 0x10 == 605;
  }
  lemma Length2007() ensures YearDays(FirstYear + 107) == 354 {
    Row10();
    assert LunarInfo(FirstYear + 107) == 0x025d0;
    Entry2007();
  }
  lemma Entry2008() ensures EntryYearDays(0x092d0) == 354 {
    YearDaysByBits(0x092d0);
    assert 0x092d0 / 0x8000 == 1 && 0x092d0 / 0x4000 == 2 && 0x092d0 / 0x2000 == 4 && 0x092d0 / 0x1000 == 9 && 0x092d0 / 0x800 == 18 && 0x092d0 / 0x400 == 36 && 0x092d0 / 0x200 == 73 && 0x092d0 / 0x100 == 146 && 0x092d0 / 0x80 == 293 && 0x092d0 / 0x40 == 587 && 0x092d0 / 0x20 == 1174 && 0x092d0 / 0x10 == 2349;
  }
  lemma Length2008() ensures YearDays(FirstYear + 108) == 354 {
    Row10();
    assert LunarInfo(FirstYear + 108) == 0x092d0;
    Entry2008();
  }
  lemma Entry2009() ensures EntryYearDays(0x0cab5) == 384 {
    YearDaysByBits(0x0cab5);
    assert 0x0cab5 / 0x8000 == 1 && 0x0cab5 / 0x4000 == 3 && 0x0cab5 / 0x2000 == 6 && 0x0cab5 / 0x1000 == 12 && 0x0cab5 / 0x800 == 25 && 0x0cab5 / 0x400 == 50 && 0x0cab5 / 0x200 == 101 && 0x0cab5 / 0x100 == 202 && 0x0cab5 / 0x80 == 405 && 0x0cab5 / 0x40 == 810 && 0x0cab5 / 0x20 == 1621 && 0x0cab5 / 0x10 == 3243;
  }
  lemma Length2009() ensures YearDays(FirstYear + 109) == 384 {
    Row10();
    assert LunarInfo(FirstYear + 109) == 0x0cab5;
    Entry2009();
  }

  lemma Entry2010() ensures EntryYearDays(0x0a950) == 354 {
    YearDaysByBits(0x0a950);
    assert 0x0a950 / 0x8000 == 1 && 0x0a950 / 0x4000 == 2 && 0x0a950 / 0x2000 == 5 && 0x0a950 / 0x1000 == 10 && 0x0a950 / 0x800 == 21 && 0x0a950 / 0x400 == 42 && 0x0a950 / 0x200 == 84 && 0x0a950 / 0x100 == 169 && 0x0a950 / 0x80 == 338 && 0x0a950 / 0x40 == 677 && 0x0a950 / 0x20 == 1354 && 0x0a950 / 0x10 == 2709;
  }
  lemma Length2010() ensures YearDays(FirstYear + 110) == 354 {
    Row11();
    assert LunarInfo(FirstYear + 110) == 0x0a950;
    Entry2010();
  }
  lemma Entry2011() ensures EntryYearDays(0x0b4a0) == 354 {
    YearDaysByBits(0x0b4a0);
    assert 0x0b4a0 / 0x8000 == 1 && 0x0b4a0 / 0x4000 == 2 && 0x0b4a0 / 0x2000 == 5 && 0x0b4a0 / 0x1000 == 11 && 0x0b4a0 / 0x800 == 22 && 0x0b4a0 / 0x400 == 45 && 0x0b4a0 / 0x200 == 90 && 0x0b4a0 / 0x100 == 180 && 0x0b4a0 / 0x80 == 361 && 0x0b4a0 / 0x40 == 722 && 0x0b4a0 / 0x20 == 1445 && 0x0b4a0 / 0x10 == 2890;
  }
  lemma Length2011() ensures YearDays(FirstYear + 111) == 354 {
    Row11();
    assert LunarInfo(FirstYear + 111) == 0x0b4a0;
    Entry2011();
  }
  lemma Entry2012() ensures EntryYearDays(0x0baa4) == 384 {
    YearDaysByBits(0x0baa4);
    assert 0x0baa4 / 0x8000 == 1 && 0x0baa4 / 0x4000 == 2 && 0x0baa4 / 0x2000 == 5 && 0x0baa4 / 0x1000 == 11 && 0x0baa4 / 0x800 == 23 && 0x0baa4 / 0x400 == 46 && 0x0baa4 / 0x200 == 93 && 0x0baa4 / 0x100 == 186 && 0x0baa4 / 0x80 == 373 && 0x0baa4 / 0x40 == 746 && 0x0baa4 / 0x20 == 1493 && 0x0baa4 / 0x10 == 2986;
  }
  lemma Length2012() ensures YearDays(FirstYear + 112) == 384 {
    Row11();
    assert LunarInfo(FirstYear + 112) == 0x0baa4;
    Entry2012();
  }
  lemma Entry2013() ensures EntryYearDays(0x0ad50) == 355 {
    YearDaysByBits(0x0ad50);
    assert 0x0ad50 / 0x8000 == 1 && 0x0ad50 / 0x4000 == 2 && 0x0ad50 / 0x2000 == 5 && 0x0ad50 / 0x1000 == 10 && 0x0ad50 / 0x800 == 21 && 0x0ad50 / 0x400 == 43 && 0x0ad50 / 0x200 == 86 && 0x0ad50 / 0x100 == 173 && 0x0ad50 / 0x80 == 346 && 0x0ad50 / 0x40 == 693 && 0x0ad50 / 0x20 == 1386 && 0x0ad50 / 0x10 == 2773;
  }
  lemma Length2013() ensures YearDays(FirstYear + 113) == 355 {
    Row11();
    assert LunarInfo(FirstYear + 113) == 0x0ad50;
    Entry2013();
  }
  lemma Entry2014() ensures EntryYearDays(0x055d9) == 384 {
    YearDaysByBits(0x055d9);
    assert 0x055d9 / 0x8000 == 0 && 0x055d9 / 0x4000 == 1 && 0x055d9 / 0x2000 == 2 && 0x055d9 / 0x1000 == 5 && 0x055d9 / 0x800 == 10 && 0x055d9 / 0x400 == 21 && 0x055d9 / 0x200 == 42 && 0x055d9 / 0x100 == 85 && 0x055d9 / 0x80 == 171 && 0x055d9 / 0x40 == 343 && 0x055d9 / 0x20 == 686 && 0x055d9 / 0x10 == 1373;
  }
  lemma Length2014() ensures YearDays(FirstYear + 114) == 384 {
    Row11();
    assert LunarInfo(FirstYear + 114) == 0x055d9;
    Entry2014();
  }
  lemma Entry2015() ensures EntryYearDays(0x04ba0) == 354 {
    YearDaysByBits(0x04ba0);
    assert 0x04ba0 / 0x8000 == 0 && 0x04ba0 / 0x4000 == 1 && 0x04ba0 / 0x2000 == 2 && 0x04ba0 / 0x1000 == 4 && 0x04ba0 / 0x800 == 9 && 0x04ba0 / 0x400 == 18 && 0x04ba0 / 0x200 == 37 && 0x04ba0 / 0x100 == 75 && 0x04ba0 / 0x80 == 151 && 0x04ba0 / 0x40 == 302 && 0x04ba0 / 0x20 == 605 && 0x04ba0 / 0x10 == 1210;
  }
  lemma Length2015() ensures YearDays(FirstYear + 115) == 354 {
    Row11();
    assert LunarInfo(FirstYear + 115) == 0x04ba0;
    Entry2015();
  }
  lemma Entry2016() ensures EntryYearDays(0x0a5b0) == 355 {
    YearDaysByBits(0x0a5b0);
    assert 0x0a5b0 / 0x8000 == 1 && 0x0a5b0 / 0x4000 == 2 && 0x0a5b0 / 0x2000 == 5 && 0x0a5b0 / 0x1000 == 10 && 0x0a5b0 / 0x800 == 20 && 0x0a5b0 / 0x400 == 41 && 0x0a5b0 / 0x200 == 82 && 0x0a5b0 / 0x100 == 165 && 0x0a5b0 / 0x80 == 331 && 0x0a5b0 / 0x40 == 662 && 0x0a5b0 / 0x20 == 1325 && 0x0a5b0 / 0x10 == 2651;
  }
  lemma Length2016() ensures YearDays(FirstYear + 116) == 355 {
    Row11();
    assert LunarInfo(FirstYear + 116) == 0x0a5b0;
    Entry2016();
  }
  lemma Entry2017() ensures EntryYearDays(0x15176) == 384 {
    YearDaysByBits(0x15176);
    assert 0x15176 / 0x8000 == 2 && 0x15176 / 0x4000 == 5 && 0x15176 / 0x2000 == 10 && 0x15176 / 0x1000 == 21 && 0x15176 / 0x800 == 42 && 0x15176 / 0x400 == 84 && 0x15176 / 0x200 == 168 && 0x15176 / 0x100 == 337 && 0x15176 / 0x80 == 674 && 0x15176 / 0x40 == 1349 && 0x15176 / 0x20 == 2699 && 0x15176 / 0x10 == 5399;
  }
  lemma Length2017() ensures YearDays(FirstYear + 117) == 384 {
    Row11();
    assert LunarInfo(FirstYear + 117) == 0x15176;
    Entry2017();
  }
  lemma Entry2018() ensures EntryYearDays(0x052b0) == 354 {
    YearDaysByBits(0x052b0);
    assert 0x052b0 / 0x8000 == 0 && 0x052b0 / 0x4000 == 1 && 0x052b0 / 0x2000 == 2 && 0x052b0 / 0x1000 == 5 && 0x052b0 / 0x800 == 10 && 0x052b0 / 0x400 == 20 && 0x052b0 / 0x200 == 41 && 0x052b0 / 0x100 == 82 && 0x052b0 / 0x80 == 165 && 0x052b0 / 0x40 == 330 && 0x052b0 / 0x20 == 661 && 0x052b0 / 0x10 == 1323;
  }
  lemma Length2018() ensures YearDays(FirstYear + 118) == 354 {
    Row11();
    assert LunarInfo(FirstYear + 118) == 0x052b0;
    Entry2018();
  }
  lemma Entry2019() ensures EntryYearDays(0x0a930) == 354 {
    YearDaysByBits(0x0a930);
    assert 0x0a930 / 0x8000 == 1 && 0x0a930 / 0x4000 == 2 && 0x0a930 / 0x2000 == 5 && 0x0a930 / 0x1000 == 10 && 0x0a930 / 0x800 == 21 && 0x0a930 / 0x400 == 42 && 0x0a930 / 0x200 == 84 && 0x0a930 / 0x100 == 169 && 0x0a930 / 0x80 == 338 && 0x0a930 / 0x40 == 676 && 0x0a930 / 0x20 == 1353 && 0x0a930 / 0x10 == 2707;
  }
  lemma Length2019() ensures YearDays(FirstYear + 119) == 354 {
    Row11();
    assert LunarInfo(FirstYear + 119) == 0x0a930;
    Entry2019();
  }

  lemma Entry2020() ensures EntryYearDays(0x07954) == 384 {
    YearDaysByBits(0x07954);
    assert 0x07954 / 0x8000 == 0 && 0x07954 / 0x4000 == 1 && 0x07954 / 0x2000 == 3 && 0x07954 / 0x1000 == 7 && 0x07954 / 0x800 == 15 && 0x07954 / 0x400 == 30 && 0x07954 / 0x200 == 60 && 0x07954 / 0x100 == 121 && 0x07954 / 0x80 == 242 && 0x07954 / 0x40 == 485 && 0x07954 / 0x20 == 970 && 0x07954 / 0x10 == 1941;
  }
  lemma Length2020() ensures YearDays(FirstYear + 120) == 384 {
    Row12();
    assert LunarInfo(FirstYear + 120) == 0x07954;
    Entry2020();
  }
  lemma Entry2021() ensures EntryYearDays(0x06aa0) == 354 {
    YearDaysByBits(0x06aa0);
    assert 0x06aa0 / 0x8000 == 0 && 0x06aa0 / 0x4000 == 1 && 0x06aa0 / 0x2000 == 3 && 0x06aa0 / 0x1000 == 6 && 0x06aa0 / 0x800 == 13 && 0x06aa0 / 0x400 == 26 && 0x06aa0 / 0x200 == 53 && 0x06aa0 / 0x100 == 106 && 0x06aa0 / 0x80 == 213 && 0x06aa0 / 0x40 == 426 && 0x06aa0 / 0x20 == 853 && 0x06aa0 / 0x10 == 1706;
  }
  lemma Length2021() ensures YearDays(FirstYear + 121) == 354 {
    Row12();
    assert LunarInfo(FirstYear + 121) == 0x06aa0;
    Entry2021();
  }
  lemma Entry2022() ensures EntryYearDays(0x0ad50) == 355 {
    YearDaysByBits(0x0ad50);
    assert 0x0ad50 / 0x8000 == 1 && 0x0ad50 / 0x4000 == 2 && 0x0ad50 / 0x2000 == 5 && 0x0ad50 / 0x1000 == 10 && 0x0ad50 / 0x800 == 21 && 0x0ad50 / 0x400 == 43 && 0x0ad50 / 0x200 == 86 && 0x0ad50 / 0x100 == 173 && 0x0ad50 / 0x80 == 346 && 0x0ad50 / 0x40 == 693 && 0x0ad50 / 0x20 == 1386 && 0x0ad50 / 0x10 == 2773;
  }
  lemma Length2022() ensures YearDays(FirstYear + 122) == 355 {
    Row12();
    assert LunarInfo(FirstYear + 122) == 0x0ad50;
    Entry2022();
  }
  lemma Entry2023() ensures EntryYearDays(0x05b52) == 384 {
    YearDaysByBits(0x05b52);
    assert 0x05b52 / 0x8000 == 0 && 0x05b52 / 0x4000 == 1 && 0x05b52 / 0x2000 == 2 && 0x05b52 / 0x1000 == 5 && 0x05b52 / 0x800 == 11 && 0x05b52 / 0x400 == 22 && 0x05b52 / 0x200 == 45 && 0x05b52 / 0x100 == 91 && 0x05b52 / 0x80 == 182 && 0x05b52 / 0x40 == 365 && 0x05b52 / 0x20 == 730 && 0x05b52 / 0x10 == 1461;
  }
  lemma Length2023() ensures YearDays(FirstYear + 123) == 384 {
    Row12();
    assert LunarInfo(FirstYear + 123) == 0x05b52;
    Entry2023();
  }
  lemma Entry2024() ensures EntryYearDays(0x04b60) == 354 {
    YearDaysByBits(0x04b60);
    assert 0x04b60 / 0x8000 == 0 && 0x04b60 / 0x4000 == 1 && 0x04b60 / 0x2000 == 2 && 0x04b60 / 0x1000 == 4 && 0x04b60 / 0x800 == 9 && 0x04b60 / 0x400 == 18 && 0x04b60 / 0x200 == 37 && 0x04b60 / 0x100 == 75 && 0x04b60 / 0x80 == 150 && 0x04b60 / 0x40 == 301 && 0x04b60 / 0x20 == 603 && 0x04b60 / 0x10 == 1206;
  }
  lemma Length2024() ensures YearDays(FirstYear + 124) == 354 {
    Row12();
    assert LunarInfo(FirstYear + 124) == 0x04b60;
    Entry2024();
  }
  lemma Entry2025() ensures EntryYearDays(0x0a6e6) == 384 {
    YearDaysByBits(0x0a6e6);
    assert 0x0a6e6 / 0x8000 == 1 && 0x0a6e6 / 0x4000 == 2 && 0x0a6e6 / 0x2000 == 5 && 0x0a6e6 / 0x1000 == 10 && 0x0a6e6 / 0x800 == 20 && 0x0a6e6 / 0x400 == 41 && 0x0a6e6 / 0x200 == 83 && 0x0a6e6 / 0x100 == 166 && 0x0a6e6 / 0x80 == 333 && 0x0a6e6 / 0x40 == 667 && 0x0a6e6 / 0x20 == 1335 && 0x0a6e6 / 0x10 == 2670;
  }
  lemma Length2025() ensures YearDays(FirstYear + 125) == 384 {
    Row12();
    assert LunarInfo(FirstYear + 125) == 0x0a6e6;
    Entry2025();
  }
  lemma Entry2026() ensures EntryYearDays(0x0a4e0) == 354 {
    YearDaysByBits(0x0a4e0);
    assert 0x0a4e0 / 0x8000 == 1 && 0x0a4e0 / 0x4000 == 2 && 0x0a4e0 / 0x2000 == 5 && 0x0a4e0 / 0x1000 == 10 && 0x0a4e0 / 0x800 == 20 && 0x0a4e0 / 0x400 == 41 && 0x0a4e0 / 0x200 == 82 && 0x0a4e0 / 0x100 == 164 && 0x0a4e0 / 0x80 == 329 && 0x0a4e0 / 0x40 == 659 && 0x0a4e0 / 0x20 == 1319 && 0x0a4e0 / 0x10 == 2638;
  }
  lemma Length2026() ensures YearDays(FirstYear + 126) == 354 {
    Row12();
    assert LunarInfo(FirstYear + 126) == 0x0a4e0;
    Entry2026();
  }
  lemma Entry2027() ensures EntryYearDays(0x0d260) == 354 {
    YearDaysByBits(0x0d260);
    assert 0x0d260 / 0x8000 == 1 && 0x0d260 / 0x4000 == 3 && 0x0d260 / 0x2000 == 6 && 0x0d260 / 0x1000 == 13 && 0x0d260 / 0x800 == 26 && 0x0d260 / 0x400 == 52 && 0x0d260 / 0x200 == 105 && 0x0d260 / 0x100 == 210 && 0x0d260 / 0x80 == 420 && 0x0d260 / 0x40 == 841 && 0x0d260 / 0x20 == 1683 && 0x0d260 / 0x10 == 3366;
  }
  lemma Length2027() ensures YearDays(FirstYear + 127) == 354 {
    Row12();
    assert LunarInfo(FirstYear + 127) == 0x0d260;
    Entry2027();
  }
  lemma Entry2028() ensures EntryYearDays(0x0ea65) == 384 {
    YearDaysByBits(0x0ea65);
    assert 0x0ea65 / 0x8000 == 1 && 0x0ea65 / 0x4000 == 3 && 0x0ea65 / 0x2000 == 7 && 0x0ea65 / 0x1000 == 14 && 0x0ea65 / 0x800 == 29 && 0x0ea65 / 0x400 == 58 && 0x0ea65 / 0x200 == 117 && 0x0ea65 / 0x100 == 234 && 0x0ea65 / 0x80 == 468 && 0x0ea65 / 0x40 == 937 && 0x0ea65 / 0x20 == 1875 && 0x0ea65 / 0x10 == 3750;
  }
  lemma Length2028() ensures YearDays(FirstYear + 128) == 384 {
    Row12();
    assert LunarInfo(FirstYear + 128) == 0x0ea65;
    Entry2028();
  }
  lemma Entry2029() ensures EntryYearDays(0x0d530) == 355 {
    YearDaysByBits(0x0d530);
    assert 0x0d530 / 0x8000 == 1 && 0x0d530 / 0x4000 == 3 && 0x0d530 / 0x2000 == 6 && 0x0d530 / 0x1000 == 13 && 0x0d530 / 0x800 == 26 && 0x0d530 / 0x400 == 53 && 0x0d530 / 0x200 == 106 && 0x0d530 / 0x100 == 213 && 0x0d530 / 0x80 == 426 && 0x0d530 / 0x40 == 852 && 0x0d530 / 0x20 == 1705 && 0x0d530 / 0x10 == 3411;
  }
  lemma Length2029() ensures YearDays(FirstYear + 129) == 355 {
    Row12();
    assert LunarInfo(FirstYear + 129) == 0x0d530;
    Entry2029();
  }

  lemma Entry2030() ensures EntryYearDays(0x05aa0) == 354 {
    YearDaysByBits(0x05aa0);
    assert 0x05aa0 / 0x8000 == 0 && 0x05aa0 / 0x4000 == 1 && 0x05aa0 / 0x2000 == 2 && 0x05aa0 / 0x1000 == 5 && 0x05aa0 / 0x800 == 11 && 0x05aa0 / 0x400 == 22 && 0x05aa0 / 0x200 == 45 && 0x05aa0 / 0x100 == 90 && 0x05aa0 / 0x80 == 181 && 0x05aa0 / 0x40 == 362 && 0x05aa0 / 0x20 == 725 && 0x05aa0 / 0x10 == 1450;
  }
  lemma Length2030() ensures YearDays(FirstYear + 130) == 354 {
    Row13();
    assert LunarInfo(FirstYear + 130) == 0x05aa0;
    Entry2030();
  }
  lemma Entry2031() ensures EntryYearDays(0x076a3) == 384 {
    YearDaysByBits(0x076a3);
    assert 0x076a3 / 0x8000 == 0 && 0x076a3 / 0x4000 == 1 && 0x076a3 / 0x2000 == 3 && 0x076a3 / 0x1000 == 7 && 0x076a3 / 0x800 == 14 && 0x076a3 / 0x400 == 29 && 0x076a3 / 0x200 == 59 && 0x076a3 / 0x100 == 118 && 0x076a3 / 0x80 == 237 && 0x076a3 / 0x40 == 474 && 0x076a3 / 0x20 == 949 && 0x076a3 / 0x10 == 1898;
  }
  lemma Length2031() ensures YearDays(FirstYear + 131) == 384 {
    Row13();
    assert LunarInfo(FirstYear + 131) == 0x076a3;
    Entry2031();
  }
  lemma Entry2032() ensures EntryYearDays(0x096d0) == 355 {
    YearDaysByBits(0x096d0);
    assert 0x096d0 / 0x8000 == 1 && 0x096d0 / 0x4000 == 2 && 0x096d0 / 0x2000 == 4 && 0x096d0 / 0x1000 == 9 && 0x096d0 / 0x800 == 18 && 0x096d0 / 0x400 == 37 && 0x096d0 / 0x200 == 75 && 0x096d0 / 0x100 == 150 && 0x096d0 / 0x80 == 301 && 0x096d0 / 0x40 == 603 && 0x096d0 / 0x20 == 1206 && 0x096d0 / 0x10 == 2413;
  }
  lemma Length2032() ensures YearDays(FirstYear + 132) == 355 {
    Row13();
    assert LunarInfo(FirstYear + 132) == 0x096d0;
    Entry2032();
  }
  lemma Entry2033() ensures EntryYearDays(0x04afb) == 384 {
    YearDaysByBits(0x04afb);
    assert 0x04afb / 0x8000 == 0 && 0x04afb / 0x4000 == 1 && 0x04afb / 0x2000 == 2 && 0x04afb / 0x1000 == 4 && 0x04afb / 0x800 == 9 && 0x04afb / 0x400 == 18 && 0x04afb / 0x200 == 37 && 0x04afb / 0x100 == 74 && 0x04afb / 0x80 == 149 && 0x04afb / 0x40 == 299 && 0x04afb / 0x20 == 599 && 0x04afb / 0x10 == 1199;
  }
  lemma Length2033() ensures YearDays(FirstYear + 133) == 384 {
    Row13();
    assert LunarInfo(FirstYear + 133) == 0x04afb;
    Entry2033();
  }
  lemma Entry2034() ensures EntryYearDays(0x04ad0) == 354 {
    YearDaysByBits(0x04ad0);
    assert 0x04ad0 / 0x8000 == 0 && 0x04ad0 / 0x4000 == 1 && 0x04ad0 / 0x2000 == 2 && 0x04ad0 / 0x1000 == 4 && 0x04ad0 / 0x800 == 9 && 0x04ad0 / 0x400 == 18 && 0x04ad0 / 0x200 == 37 && 0x04ad0 / 0x100 == 74 && 0x04ad0 / 0x80 == 149 && 0x04ad0 / 0x40 == 299 && 0x04ad0 / 0x20 == 598 && 0x04ad0 / 0x10 == 1197;
  }
  lemma Length2034() ensures YearDays(FirstYear + 134) == 354 {
    Row13();
    assert LunarInfo(FirstYear + 134) == 0x04ad0;
    Entry2034();
  }
  lemma Entry2035() ensures EntryYearDays(0x0a4d0) == 354 {
    YearDaysByBits(0x0a4d0);
    assert 0x0a4d0 / 0x8000 == 1 && 0x0a4d0 / 0x4000 == 2 && 0x0a4d0 / 0x2000 == 5 && 0x0a4d0 / 0x1000 == 10 && 0x0a4d0 / 0x800 == 20 && 0x0a4d0 / 0x400 == 41 && 0x0a4d0 / 0x200 == 82 && 0x0a4d0 / 0x100 == 164 && 0x0a4d0 / 0x80 == 329 && 0x0a4d0 / 0x40 == 659 && 0x0a4d0 / 0x20 == 1318 && 0x0a4d0 / 0x10 == 2637;
  }
  lemma Length2035() ensures YearDays(FirstYear + 135) == 354 {
    Row13();
    assert LunarInfo(FirstYear + 135) == 0x0a4d0;
    Entry2035();
  }
  lemma Entry2036() ensures EntryYearDays(0x1d0b6) == 384 {
    YearDaysByBits(0x1d0b6);
    assert 0x1d0b6 / 0x8000 == 3 && 0x1d0b6 / 0x4000 == 7 && 0x1d0b6 / 0x2000 == 14 && 0x1d0b6 / 0x1000 == 29 && 0x1d0b6 / 0x800 == 58 && 0x1d0b6 / 0x400 == 116 && 0x1d0b6 / 0x200 == 232 && 0x1d0b6 / 0x100 == 464 && 0x1d0b6 / 0x80 == 929 && 0x1d0b6 / 0x40 == 1858 && 0x1d0b6 / 0x20 == 3717 && 0x1d0b6 / 0x10 == 7435;
  }
  lemma Length2036() ensures YearDays(FirstYear + 136) == 384 {
    Row13();
    assert LunarInfo(FirstYear + 136) == 0x1d0b6;
    Entry2036();
  }
  lemma Entry2037() ensures EntryYearDays(0x0d250) == 354 {
    YearDaysByBits(0x0d250);
    assert 0x0d250 / 0x8000 == 1 && 0x0d250 / 0x4000 == 3 && 0x0d250 / 0x2000 == 6 && 0x0d250 / 0x1000 == 13 && 0x0d250 / 0x800 == 26 && 0x0d250 / 0x400 == 52 && 0x0d250 / 0x200 == 105 && 0x0d250 / 0x100 == 210 && 0x0d250 / 0x80 == 420 && 0x0d250 / 0x40 == 841 && 0x0d250 / 0x20 == 1682 && 0x0d250 / 0x10 == 3365;
  }
  lemma Length2037() ensures YearDays(FirstYear + 137) == 354 {
    Row13();
    assert LunarInfo(FirstYear + 137) == 0x0d250;
    Entry2037();
  }
  lemma Entry2038() ensures EntryYearDays(0x0d520) == 354 {
    YearDaysByBits(0x0d520);
    assert 0x0d520 / 0x8000 == 1 && 0x0d520 / 0x4000 == 3 && 0x0d520 / 0x2000 == 6 && 0x0d520 / 0x1000 == 13 && 0x0d520 / 0x800 == 26 && 0x0d520 / 0x400 == 53 && 0x0d520 / 0x200 == 106 && 0x0d520 / 0x100 == 213 && 0x0d520 / 0x80 == 426 && 0x0d520 / 0x40 == 852 && 0x0d520 / 0x20 == 1705 && 0x0d520 / 0x10 == 3410;
  }
  lemma Length2038() ensures YearDays(FirstYear + 138) == 354 {
    Row13();
    assert LunarInfo(FirstYear + 138) == 0x0d520;
    Entry2038();
  }
  lemma Entry2039() ensures EntryYearDays(0x0dd45) == 384 {
    YearDaysByBits(0x0dd45);
    assert 0x0dd45 / 0x8000 == 1 && 0x0dd45 / 0x4000 == 3 && 0x0dd45 / 0x2000 == 6 && 0x0dd45 / 0x1000 == 13 && 0x0dd45 / 0x800 == 27 && 0x0dd45 / 0x400 == 55 && 0x0dd45 / 0x200 == 110 && 0x0dd45 / 0x100 == 221 && 0x0dd45 / 0x80 == 442 && 0x0dd45 / 0x40 == 885 && 0x0dd45 / 0x20 == 1770 && 0x0dd45 / 0x10 == 3540;
  }
  lemma Length2039() ensures YearDays(FirstYear + 139) == 384 {
    Row13();
    assert LunarInfo(FirstYear + 139) == 0x0dd45;
    Entry2039();
  }

  lemma Entry2040() ensures EntryYearDays(0x0b5a0) == 355 {
    YearDaysByBits(0x0b5a0);
    assert 0x0b5a0 / 0x8000 == 1 && 0x0b5a0 / 0x4000 == 2 && 0x0b5a0 / 0x2000 == 5 && 0x0b5a0 / 0x1000 == 11 && 0x0b5a0 / 0x800 == 22 && 0x0b5a0 / 0x400 == 45 && 0x0b5a0 / 0x200 == 90 && 0x0b5a0 / 0x100 == 181 && 0x0b5a0 / 0x80 == 363 && 0x0b5a0 / 0x40 == 726 && 0x0b5a0 / 0x20 == 1453 && 0x0b5a0 / 0x10 == 2906;
  }
  lemma Length2040() ensures YearDays(FirstYear + 140) == 355 {
    Row14();
    assert LunarInfo(FirstYear + 140) == 0x0b5a0;
    Entry2040();
  }
  lemma Entry2041() ensures EntryYearDays(0x056d0) == 355 {
    YearDaysByBits(0x056d0);
    assert 0x056d0 / 0x8000 == 0 && 0x056d0 / 0x4000 == 1 && 0x056d0 / 0x2000 == 2 && 0x056d0 / 0x1000 == 5 && 0x056d0 / 0x800 == 10 && 0x056d0 / 0x400 == 21 && 0x056d0 / 0x200 == 43 && 0x056d0 / 0x100 == 86 && 0x056d0 / 0x80 == 173 && 0x056d0 / 0x40 == 347 && 0x056d0 / 0x20 == 694 && 0x056d0 / 0x10 == 1389;
  }
  lemma Length2041() ensures YearDays(FirstYear + 141) == 355 {
    Row14();
    assert LunarInfo(FirstYear + 141) == 0x056d0;
    Entry2041();
  }
  lemma Entry2042() ensures EntryYearDays(0x055b2) == 384 {
    YearDaysByBits(0x055b2);
    assert 0x055b2 / 0x8000 == 0 && 0x055b2 / 0x4000 == 1 && 0x055b2 / 0x2000 == 2 && 0x055b2 / 0x1000 == 5 && 0x055b2 / 0x800 == 10 && 0x055b2 / 0x400 == 21 && 0x055b2 / 0x200 == 42 && 0x055b2 / 0x100 == 85 && 0x055b2 / 0x80 == 171 && 0x055b2 / 0x40 == 342 && 0x055b2 / 0x20 == 685 && 0x055b2 / 0x10 == 1371;
  }
  lemma Length2042() ensures YearDays(FirstYear + 142) == 384 {
    Row14();
    assert LunarInfo(FirstYear + 142) == 0x055b2;
    Entry2042();
  }
  lemma Entry2043() ensures EntryYearDays(0x049b0) == 354 {
    YearDaysByBits(0x049b0);
    assert 0x049b0 / 0x8000 == 0 && 0x049b0 / 0x4000 == 1 && 0x049b0 / 0x2000 == 2 && 0x049b0 / 0x1000 == 4 && 0x049b0 / 0x800 == 9 && 0x049b0 / 0x400 == 18 && 0x049b0 / 0x200 == 36 && 0x049b0 / 0x100 == 73 && 0x049b0 / 0x80 == 147 && 0x049b0 / 0x40 == 294 && 0x049b0 / 0x20 == 589 && 0x049b0 / 0x10 == 1179;
  }
  lemma Length2043() ensures YearDays(FirstYear + 143) == 354 {
    Row14();
    assert LunarInfo(FirstYear + 143) == 0x049b0;
    Entry2043();
  }
  lemma Entry2044() ensures EntryYearDays(0x0a577) == 384 {
    YearDaysByBits(0x0a577);
    assert 0x0a577 / 0x8000 == 1 && 0x0a577 / 0x4000 == 2 && 0x0a577 / 0x2000 == 5 && 0x0a577 / 0x1000 == 10 && 0x0a577 / 0x800 == 20 && 0x0a577 / 0x400 == 41 && 0x0a577 / 0x200 == 82 && 0x0a577 / 0x100 == 165 && 0x0a577 / 0x80 == 330 && 0x0a577 / 0x40 == 661 && 0x0a577 / 0x20 == 1323 && 0x0a577 / 0x10 == 2647;
  }
  lemma Length2044() ensures YearDays(FirstYear + 144) == 384 {
    Row14();
    assert LunarInfo(FirstYear + 144) == 0x0a577;
    Entry2044();
  }
  lemma Entry2045() ensures EntryYearDays(0x0a4b0) == 354 {
    YearDaysByBits(0x0a4b0);
    assert 0x0a4b0 / 0x8000 == 1 && 0x0a4b0 / 0x4000 == 2 && 0x0a4b0 / 0x2000 == 5 && 0x0a4b0 / 0x1000 == 10 && 0x0a4b0 / 0x800 == 20 && 0x0a4b0 / 0x400 == 41 && 0x0a4b0 / 0x200 == 82 && 0x0a4b0 / 0x100 == 164 && 0x0a4b0 / 0x80 == 329 && 0x0a4b0 / 0x40 == 658 && 0x0a4b0 / 0x20 == 1317 && 0x0a4b0 / 0x10 == 2635;
  }
  lemma Length2045() ensures YearDays(FirstYear + 145) == 354 {
    Row14();
    assert LunarInfo(FirstYear + 145) == 0x0a4b0;
    Entry2045();
  }
  lemma Entry2046() ensures EntryYearDays(0x0aa50) == 354 {
    YearDaysByBits(0x0aa50);
    assert 0x0aa50 / 0x8000 == 1 && 0x0aa50 / 0x4000 == 2 && 0x0aa50 / 0x2000 == 5 && 0x0aa50 / 0x1000 == 10 && 0x0aa50 / 0x800 == 21 && 0x0aa50 / 0x400 == 42 && 0x0aa50 / 0x200 == 85 && 0x0aa50 / 0x100 == 170 && 0x0aa50 / 0x80 == 340 && 0x0aa50 / 0x40 == 681 && 0x0aa50 / 0x20 == 1362 && 0x0aa50 / 0x10 == 2725;
  }
  lemma Length2046() ensures YearDays(FirstYear + 146) == 354 {
    Row14();
    assert LunarInfo(FirstYear + 146) == 0x0aa50;
    Entry2046();
  }
  lemma Entry2047() ensures EntryYearDays(0x1b255) == 384 {
    YearDaysByBits(0x1b255);
    assert 0x1b255 / 0x8000 == 3 && 0x1b255 / 0x4000 == 6 && 0x1b255 / 0x2000 == 13 && 0x1b255 / 0x1000 == 27 && 0x1b255 / 0x800 == 54 && 0x1b255 / 0x400 == 108 && 0x1b255 / 0x200 == 217 && 0x1b255 / 0x100 == 434 && 0x1b255 / 0x80 == 868 && 0x1b255 / 0x40 == 1737 && 0x1b255 / 0x20 == 3474 && 0x1b255 / 0x10 == 6949;
  }
  lemma Length2047() ensures YearDays(FirstYear + 147) == 384 {
    Row14();
    assert LunarInfo(FirstYear + 147) == 0x1b255;
    Entry2047();
  }
  lemma Entry2048() ensures EntryYearDays(0x06d20) == 354 {
    YearDaysByBits(0x06d20);
    assert 0x06d20 / 0x8000 == 0 && 0x06d20 / 0x4000 == 1 && 0x06d20 / 0x2000 == 3 && 0x06d20 / 0x1000 == 6 && 0x06d20 / 0x800 == 13 && 0x06d20 / 0x400 == 27 && 0x06d20 / 0x200 == 54 && 0x06d20 / 0x100 == 109 && 0x06d20 / 0x80 == 218 && 0x06d20 / 0x40 == 436 && 0x06d20 / 0x20 == 873 && 0x06d20 / 0x10 == 1746;
  }
  lemma Length2048() ensures YearDays(FirstYear + 148) == 354 {
    Row14();
    assert LunarInfo(FirstYear + 148) == 0x06d20;
    Entry2048();
  }
  lemma Entry2049() ensures EntryYearDays(0x0ada0) == 355 {
    YearDaysByBits(0x0ada0);
    assert 0x0ada0 / 0x8000 == 1 && 0x0ada0 / 0x4000 == 2 && 0x0ada0 / 0x2000 == 5 && 0x0ada0 / 0x1000 == 10 && 0x0ada0 / 0x800 == 21 && 0x0ada0 / 0x400 == 43 && 0x0ada0 / 0x200 == 86 && 0x0ada0 / 0x100 == 173 && 0x0ada0 / 0x80 == 347 && 0x0ada0 / 0x40 == 694 && 0x0ada0 / 0x20 == 1389 && 0x0ada0 / 0x10 == 2778;
  }
  lemma Length2049() ensures YearDays(FirstYear + 149) == 355 {
    Row14();
    assert LunarInfo(FirstYear + 149) == 0x0ada0;
    Entry2049();
  }

  lemma Entry2050() ensures EntryYearDays(0x14b63) == 384 {
    YearDaysByBits(0x14b63);
    assert 0x14b63 / 0x8000 == 2 && 0x14b63 / 0x4000 == 5 && 0x14b63 / 0x2000 == 10 && 0x14b63 / 0x1000 == 20 && 0x14b63 / 0x800 == 41 && 0x14b63 / 0x400 == 82 && 0x14b63 / 0x200 == 165 && 0x14b63 / 0x100 == 331 && 0x14b63 / 0x80 == 662 && 0x14b63 / 0x40 == 1325 && 0x14b63 / 0x20 == 2651 && 0x14b63 / 0x10 == 5302;
  }
  lemma Length2050() ensures YearDays(FirstYear + 150) == 384 {
    Row15();
    assert LunarInfo(FirstYear + 150) == 0x14b63;
    Entry2050();
  }
  lemma Entry2051() ensures EntryYearDays(0x09370) == 355 {
    YearDaysByBits(0x09370);
    assert 0x09370 / 0x8000 == 1 && 0x09370 / 0x4000 == 2 && 0x09370 / 0x2000 == 4 && 0x09370 / 0x1000 == 9 && 0x09370 / 0x800 == 18 && 0x09370 / 0x400 == 36 && 0x09370 / 0x200 == 73 && 0x09370 / 0x100 == 147 && 0x09370 / 0x80 == 294 && 0x09370 / 0x40 == 589 && 0x09370 / 0x20 == 1179 && 0x09370 / 0x10 == 2359;
  }
  lemma Length2051() ensures YearDays(FirstYear + 151) == 355 {
    Row15();
    assert LunarInfo(FirstYear + 151) == 0x09370;
    Entry2051();
  }
  lemma Entry2052() ensures EntryYearDays(0x049f8) == 384 {
    YearDaysByBits(0x049f8);
    assert 0x049f8 / 0x8000 == 0 && 0x049f8 / 0x4000 == 1 && 0x049f8 / 0x2000 == 2 && 0x049f8 / 0x1000 == 4 && 0x049f8 / 0x800 == 9 && 0x049f8 / 0x400 == 18 && 0x049f8 / 0x200 == 36 && 0x049f8 / 0x100 == 73 && 0x049f8 / 0x80 == 147 && 0x049f8 / 0x40 == 295 && 0x049f8 / 0x20 == 591 && 0x049f8 / 0x10 == 1183;
  }
  lemma Length2052() ensures YearDays(FirstYear + 152) == 384 {
    Row15();
    assert LunarInfo(FirstYear + 152) == 0x049f8;
    Entry2052();
  }
  lemma Entry2053() ensures EntryYearDays(0x04970) == 354 {
    YearDaysByBits(0x04970);
    assert 0x04970 / 0x8000 == 0 && 0x04970 / 0x4000 == 1 && 0x04970 / 0x2000 == 2 && 0x04970 / 0x1000 == 4 && 0x04970 / 0x800 == 9 && 0x04970 / 0x400 == 18 && 0x04970 / 0x200 == 36 && 0x04970 / 0x100 == 73 && 0x04970 / 0x80 == 146 && 0x04970 / 0x40 == 293 && 0x04970 / 0x20 == 587 && 0x04970 / 0x10 == 1175;
  }
  lemma Length2053() ensures YearDays(FirstYear + 153) == 354 {
    Row15();
    assert LunarInfo(FirstYear + 153) == 0x04970;
    Entry2053();
  }
  lemma Entry2054() ensures EntryYearDays(0x064b0) == 354 {
    YearDaysByBits(0x064b0);
    assert 0x064b0 / 0x8000 == 0 && 0x064b0 / 0x4000 == 1 && 0x064b0 / 0x2000 == 3 && 0x064b0 / 0x1000 == 6 && 0x064b0 / 0x800 == 12 && 0x064b0 / 0x400 == 25 && 0x064b0 / 0x200 == 50 && 0x064b0 / 0x100 == 100 && 0x064b0 / 0x80 == 201 && 0x064b0 / 0x40 == 402 && 0x064b0 / 0x20 == 805 && 0x064b0 / 0x10 == 1611;
  }
  lemma Length2054() ensures YearDays(FirstYear + 154) == 354 {
    Row15();
    assert LunarInfo(FirstYear + 154) == 0x064b0;
    Entry2054();
  }
  lemma Entry2055() ensures EntryYearDays(0x168a6) == 383 {
    YearDaysByBits(0x168a6);
    assert 0x168a6 / 0x8000 == 2 && 0x168a6 / 0x4000 == 5 && 0x168a6 / 0x2000 == 11 && 0x168a6 / 0x1000 == 22 && 0x168a6 / 0x800 == 45 && 0x168a6 / 0x400 == 90 && 0x168a6 / 0x200 == 180 && 0x168a6 / 0x100 == 360 && 0x168a6 / 0x80 == 721 && 0x168a6 / 0x40 == 1442 && 0x168a6 / 0x20 == 2885 && 0x168a6 / 0x10 == 5770;
  }
  lemma Length2055() ensures YearDays(FirstYear + 155) == 383 {
    Row15();
    assert LunarInfo(FirstYear + 155) == 0x168a6;
    Entry2055();
  }
  lemma Entry2056() ensures EntryYearDays(0x0ea50) == 355 {
    YearDaysByBits(0x0ea50);
    assert 0x0ea50 / 0x8000 == 1 && 0x0ea50 / 0x4000 == 3 && 0x0ea50 / 0x2000 == 7 && 0x0ea50 / 0x1000 == 14 && 0x0ea50 / 0x800 == 29 && 0x0ea50 / 0x400 == 58 && 0x0ea50 / 0x200 == 117 && 0x0ea50 / 0x100 == 234 && 0x0ea50 / 0x80 == 468 && 0x0ea50 / 0x40 == 937 && 0x0ea50 / 0x20 == 1874 && 0x0ea50 / 0x10 == 3749;
  }
  lemma Length2056() ensures YearDays(FirstYear + 156) == 355 {
    Row15();
    assert LunarInfo(FirstYear + 156) == 0x0ea50;
    Entry2056();
  }
  lemma Entry2057() ensures EntryYearDays(0x06b20) == 354 {
    YearDaysByBits(0x06b20);
    assert 0x06b20 / 0x8000 == 0 && 0x06b20 / 0x4000 == 1 && 0x06b20 / 0x2000 == 3 && 0x06b20 / 0x1000 == 6 && 0x06b20 / 0x800 == 13 && 0x06b20 / 0x400 == 26 && 0x06b20 / 0x200 == 53 && 0x06b20 / 0x100 == 107 && 0x06b20 / 0x80 == 214 && 0x06b20 / 0x40 == 428 && 0x06b20 / 0x20 == 857 && 0x06b20 / 0x10 == 1714;
  }
  lemma Length2057() ensures YearDays(FirstYear + 157) == 354 {
    Row15();
    assert LunarInfo(FirstYear + 157) == 0x06b20;
    Entry2057();
  }
  lemma Entry2058() ensures EntryYearDays(0x1a6c4) == 384 {
    YearDaysByBits(0x1a6c4);
    assert 0x1a6c4 / 0x8000 == 3 && 0x1a6c4 / 0x4000 == 6 && 0x1a6c4 / 0x2000 == 13 && 0x1a6c4 / 0x1000 == 26 && 0x1a6c4 / 0x800 == 52 && 0x1a6c4 / 0x400 == 105 && 0x1a6c4 / 0x200 == 211 && 0x1a6c4 / 0x100 == 422 && 0x1a6c4 / 0x80 == 845 && 0x1a6c4 / 0x40 == 1691 && 0x1a6c4 / 0x20 == 3382 && 0x1a6c4 / 0x10 == 6764;
  }
  lemma Length2058() ensures YearDays(FirstYear + 158) == 384 {
    Row15();
    assert LunarInfo(FirstYear + 158) == 0x1a6c4;
    Entry2058();
  }
  lemma Entry2059() ensures EntryYearDays(0x0aae0) == 355 {
    YearDaysByBits(0x0aae0);
    assert 0x0aae0 / 0x8000 == 1 && 0x0aae0 / 0x4000 == 2 && 0x0aae0 / 0x2000 == 5 && 0x0aae0 / 0x1000 == 10 && 0x0aae0 / 0x800 == 21 && 0x0aae0 / 0x400 == 42 && 0x0aae0 / 0x200 == 85 && 0x0aae0 / 0x100 == 170 && 0x0aae0 / 0x80 == 341 && 0x0aae0 / 0x40 == 683 && 0x0aae0 / 0x20 == 1367 && 0x0aae0 / 0x10 == 2734;
  }
  lemma Length2059() ensures YearDays(FirstYear + 159) == 355 {
    Row15();
    assert LunarInfo(FirstYear + 159) == 0x0aae0;
    Entry2059();
  }

  lemma Entry2060() ensures EntryYearDays(0x092e0) == 354 {
    YearDaysByBits(0x092e0);
    assert 0x092e0 / 0x8000 == 1 && 0x092e0 / 0x4000 == 2 && 0x092e0 / 0x2000 == 4 && 0x092e0 / 0x1000 == 9 && 0x092e0 / 0x800 == 18 && 0x092e0 / 0x400 == 36 && 0x092e0 / 0x200 == 73 && 0x092e0 / 0x100 == 146 && 0x092e0 / 0x80 == 293 && 0x092e0 / 0x40 == 587 && 0x092e0 / 0x20 == 1175 && 0x092e0 / 0x10 == 2350;
  }
  lemma Length2060() ensures YearDays(FirstYear + 160) == 354 {
    Row16();
    assert LunarInfo(FirstYear + 160) == 0x092e0;
    Entry2060();
  }
  lemma Entry2061() ensures EntryYearDays(0x0d2e3) == 384 {
    YearDaysByBits(0x0d2e3);
    assert 0x0d2e3 / 0x8000 == 1 && 0x0d2e3 / 0x4000 == 3 && 0x0d2e3 / 0x2000 == 6 && 0x0d2e3 / 0x1000 == 13 && 0x0d2e3 / 0x800 == 26 && 0x0d2e3 / 0x400 == 52 && 0x0d2e3 / 0x200 == 105 && 0x0d2e3 / 0x100 == 210 && 0x0d2e3 / 0x80 == 421 && 0x0d2e3 / 0x40 == 843 && 0x0d2e3 / 0x20 == 1687 && 0x0d2e3 / 0x10 == 3374;
  }
  lemma Length2061() ensures YearDays(FirstYear + 161) == 384 {
    Row16();
    assert LunarInfo(FirstYear + 161) == 0x0d2e3;
    Entry2061();
  }
  lemma Entry2062() ensures EntryYearDays(0x0c960) == 354 {
    YearDaysByBits(0x0c960);
    assert 0x0c960 / 0x8000 == 1 && 0x0c960 / 0x4000 == 3 && 0x0c960 / 0x2000 == 6 && 0x0c960 / 0x1000 == 12 && 0x0c960 / 0x800 == 25 && 0x0c960 / 0x400 == 50 && 0x0c960 / 0x200 == 100 && 0x0c960 / 0x100 == 201 && 0x0c960 / 0x80 == 402 && 0x0c960 / 0x40 == 805 && 0x0c960 / 0x20 == 1611 && 0x0c960 / 0x10 == 3222;
  }
  lemma Length2062() ensures YearDays(FirstYear + 162) == 354 {
    Row16();
    assert LunarInfo(FirstYear + 162) == 0x0c960;
    Entry2062();
  }
  lemma Entry2063() ensures EntryYearDays(0x0d557) == 384 {
    YearDaysByBits(0x0d557);
    assert 0x0d557 / 0x8000 == 1 && 0x0d557 / 0x4000 == 3 && 0x0d557 / 0x2000 == 6 && 0x0d557 / 0x1000 == 13 && 0x0d557 / 0x800 == 26 && 0x0d557 / 0x400 == 53 && 0x0d557 / 0x200 == 106 && 0x0d557 / 0x100 == 213 && 0x0d557 / 0x80 == 426 && 0x0d557 / 0x40 == 853 && 0x0d557 / 0x20 == 1706 && 0x0d557 / 0x10 == 3413;
  }
  lemma Length2063() ensures YearDays(FirstYear + 163) == 384 {
    Row16();
    assert LunarInfo(FirstYear + 163) == 0x0d557;
    Entry2063();
  }
  lemma Entry2064() ensures EntryYearDays(0x0d4a0) == 354 {
    YearDaysByBits(0x0d4a0);
    assert 0x0d4a0 / 0x8000 == 1 && 0x0d4a0 / 0x4000 == 3 && 0x0d4a0 / 0x2000 == 6 && 0x0d4a0 / 0x1000 == 13 && 0x0d4a0 / 0x800 == 26 && 0x0d4a0 / 0x400 == 53 && 0x0d4a0 / 0x200 == 106 && 0x0d4a0 / 0x100 == 212 && 0x0d4a0 / 0x80 == 425 && 0x0d4a0 / 0x40 == 850 && 0x0d4a0 / 0x20 == 1701 && 0x0d4a0 / 0x10 == 3402;
  }
  lemma Length2064() ensures YearDays(FirstYear + 164) == 354 {
    Row16();
    assert LunarInfo(FirstYear + 164) == 0x0d4a0;
    Entry2064();
  }
  lemma Entry2065() ensures EntryYearDays(0x0da50) == 355 {
    YearDaysByBits(0x0da50);
    assert 0x0da50 / 0x8000 == 1 && 0x0da50 / 0x4000 == 3 && 0x0da50 / 0x2000 == 6 && 0x0da50 / 0x1000 == 13 && 0x0da50 / 0x800 == 27 && 0x0da50 / 0x400 == 54 && 0x0da50 / 0x200 == 109 && 0x0da50 / 0x100 == 218 && 0x0da50 / 0x80 == 436 && 0x0da50 / 0x40 == 873 && 0x0da50 / 0x20 == 1746 && 0x0da50 / 0x10 == 3493;
  }
  lemma Length2065() ensures YearDays(FirstYear + 165) == 355 {
    Row16();
    assert LunarInfo(FirstYear + 165) == 0x0da50;
    Entry2065();
  }
  lemma Entry2066() ensures EntryYearDays(0x05d55) == 384 {
    YearDaysByBits(0x05d55);
    assert 0x05d55 / 0x8000 == 0 && 0x05d55 / 0x4000 == 1 && 0x05d55 / 0x2000 == 2 && 0x05d55 / 0x1000 == 5 && 0x05d55 / 0x800 == 11 && 0x05d55 / 0x400 == 23 && 0x05d55 / 0x200 == 46 && 0x05d55 / 0x100 == 93 && 0x05d55 / 0x80 == 186 && 0x05d55 / 0x40 == 373 && 0x05d55 / 0x20 == 746 && 0x05d55 / 0x10 == 1493;
  }
  lemma Length2066() ensures YearDays(FirstYear + 166) == 384 {
    Row16();
    assert LunarInfo(FirstYear + 166) == 0x05d55;
    Entry2066();
  }
  lemma Entry2067() ensures EntryYearDays(0x056a0) == 354 {
    YearDaysByBits(0x056a0);
    assert 0x056a0 / 0x8000 == 0 && 0x056a0 / 0x4000 == 1 && 0x056a0 / 0x2000 == 2 && 0x056a0 / 0x1000 == 5 && 0x056a0 / 0x800 == 10 && 0x056a0 / 0x400 == 21 && 0x056a0 / 0x200 == 43 && 0x056a0 / 0x100 == 86 && 0x056a0 / 0x80 == 173 && 0x056a0 / 0x40 == 346 && 0x056a0 / 0x20 == 693 && 0x056a0 / 0x10 == 1386;
  }
  lemma Length2067() ensures YearDays(FirstYear + 167) == 354 {
    Row16();
    assert LunarInfo(FirstYear + 167) == 0x056a0;
    Entry2067();
  }
  lemma Entry2068() ensures EntryYearDays(0x0a6d0) == 355 {
    YearDaysByBits(0x0a6d0);
    assert 0x0a6d0 / 0x8000 == 1 && 0x0a6d0 / 0x4000 == 2 && 0x0a6d0 / 0x2000 == 5 && 0x0a6d0 / 0x1000 == 10 && 0x0a6d0 / 0x800 == 20 && 0x0a6d0 / 0x400 == 41 && 0x0a6d0 / 0x200 == 83 && 0x0a6d0 / 0x100 == 166 && 0x0a6d0 / 0x80 == 333 && 0x0a6d0 / 0x40 == 667 && 0x0a6d0 / 0x20 == 1334 && 0x0a6d0 / 0x10 == 2669;
  }
  lemma Length2068() ensures YearDays(FirstYear + 168) == 355 {
    Row16();
    assert LunarInfo(FirstYear + 168) == 0x0a6d0;
    Entry2068();
  }
  lemma Entry2069() ensures EntryYearDays(0x055d4) == 384 {
    YearDaysByBits(0x055d4);
    assert 0x055d4 / 0x8000 == 0 && 0x055d4 / 0x4000 == 1 && 0x055d4 / 0x2000 == 2 && 0x055d4 / 0x1000 == 5 && 0x055d4 / 0x800 == 10 && 0x055d4 / 0x400 == 21 && 0x055d4 / 0x200 == 42 && 0x055d4 / 0x100 == 85 && 0x055d4 / 0x80 == 171 && 0x055d4 / 0x40 == 343 && 0x055d4 / 0x20 == 686 && 0x055d4 / 0x10 == 1373;
  }
  lemma Length2069() ensures YearDays(FirstYear + 169) == 384 {
    Row16();
    assert LunarInfo(FirstYear + 169) == 0x055d4;
    Entry2069();
  }

  lemma Entry2070() ensures EntryYearDays(0x052d0) == 354 {
    YearDaysByBits(0x052d0);
    assert 0x052d0 / 0x8000 == 0 && 0x052d0 / 0x4000 == 1 && 0x052d0 / 0x2000 == 2 && 0x052d0 / 0x1000 == 5 && 0x052d0 / 0x800 == 10 && 0x052d0 / 0x400 == 20 && 0x052d0 / 0x200 == 41 && 0x052d0 / 0x100 == 82 && 0x052d0 / 0x80 == 165 && 0x052d0 / 0x40 == 331 && 0x052d0 / 0x20 == 662 && 0x052d0 / 0x10 == 1325;
  }
  lemma Length2070() ensures YearDays(FirstYear + 170) == 354 {
    Row17();
    assert LunarInfo(FirstYear + 170) == 0x052d0;
    Entry2070();
  }
  lemma Entry2071() ensures EntryYearDays(0x0a9b8) == 384 {
    YearDaysByBits(0x0a9b8);
    assert 0x0a9b8 / 0x8000 == 1 && 0x0a9b8 / 0x4000 == 2 && 0x0a9b8 / 0x2000 == 5 && 0x0a9b8 / 0x1000 == 10 && 0x0a9b8 / 0x800 == 21 && 0x0a9b8 / 0x400 == 42 && 0x0a9b8 / 0x200 == 84 && 0x0a9b8 / 0x100 == 169 && 0x0a9b8 / 0x80 == 339 && 0x0a9b8 / 0x40 == 678 && 0x0a9b8 / 0x20 == 1357 && 0x0a9b8 / 0x10 == 2715;
  }
  lemma Length2071() ensures YearDays(FirstYear + 171) == 384 {
    Row17();
    assert LunarInfo(FirstYear + 171) == 0x0a9b8;
    Entry2071();
  }
  lemma Entry2072() ensures EntryYearDays(0x0a950) == 354 {
    YearDaysByBits(0x0a950);
    assert 0x0a950 / 0x8000 == 1 && 0x0a950 / 0x4000 == 2 && 0x0a950 / 0x2000 == 5 && 0x0a950 / 0x1000 == 10 && 0x0a950 / 0x800 == 21 && 0x0a950 / 0x400 == 42 && 0x0a950 / 0x200 == 84 && 0x0a950 / 0x100 == 169 && 0x0a950 / 0x80 == 338 && 0x0a950 / 0x40 == 677 && 0x0a950 / 0x20 == 1354 && 0x0a950 / 0x10 == 2709;
  }
  lemma Length2072() ensures YearDays(FirstYear + 172) == 354 {
    Row17();
    assert LunarInfo(FirstYear + 172) == 0x0a950;
    Entry2072();
  }
  lemma Entry2073() ensures EntryYearDays(0x0b4a0) == 354 {
    YearDaysByBits(0x0b4a0);
    assert 0x0b4a0 / 0x8000 == 1 && 0x0b4a0 / 0x4000 == 2 && 0x0b4a0 / 0x2000 == 5 && 0x0b4a0 / 0x1000 == 11 && 0x0b4a0 / 0x800 == 22 && 0x0b4a0 / 0x400 == 45 && 0x0b4a0 / 0x200 == 90 && 0x0b4a0 / 0x100 == 180 && 0x0b4a0 / 0x80 == 361 && 0x0b4a0 / 0x40 == 722 && 0x0b4a0 / 0x20 == 1445 && 0x0b4a0 / 0x10 == 2890;
  }
  lemma Length2073() ensures YearDays(FirstYear + 173) == 354 {
    Row17();
    assert LunarInfo(FirstYear + 173) == 0x0b4a0;
    Entry2073();
  }
  lemma Entry2074() ensures EntryYearDays(0x0b6a6) == 384 {
    YearDaysByBits(0x0b6a6);
    assert 0x0b6a6 / 0x8000 == 1 && 0x0b6a6 / 0x4000 == 2 && 0x0b6a6 / 0x2000 == 5 && 0x0b6a6 / 0x1000 == 11 && 0x0b6a6 / 0x800 == 22 && 0x0b6a6 / 0x400 == 45 && 0x0b6a6 / 0x200 == 91 && 0x0b6a6 / 0x100 == 182 && 0x0b6a6 / 0x80 == 365 && 0x0b6a6 / 0x40 == 730 && 0x0b6a6 / 0x20 == 1461 && 0x0b6a6 / 0x10 == 2922;
  }
  lemma Length2074() ensures YearDays(FirstYear + 174) == 384 {
    Row17();
    assert LunarInfo(FirstYear + 174) == 0x0b6a6;
    Entry2074();
  }
  lemma Entry2075() ensures EntryYearDays(0x0ad50) == 355 {
    YearDaysByBits(0x0ad50);
    assert 0x0ad50 / 0x8000 == 1 && 0x0ad50 / 0x4000 == 2 && 0x0ad50 / 0x2000 == 5 && 0x0ad50 / 0x1000 == 10 && 0x0ad50 / 0x800 == 21 && 0x0ad50 / 0x400 == 43 && 0x0ad50 / 0x200 == 86 && 0x0ad50 / 0x100 == 173 && 0x0ad50 / 0x80 == 346 && 0x0ad50 / 0x40 == 693 && 0x0ad50 / 0x20 == 1386 && 0x0ad50 / 0x10 == 2773;
  }
  lemma Length2075() ensures YearDays(FirstYear + 175) == 355 {
    Row17();
    assert LunarInfo(FirstYear + 175) == 0x0ad50;
    Entry2075();
  }
  lemma Entry2076() ensures EntryYearDays(0x055a0) == 354 {
    YearDaysByBits(0x055a0);
    assert 0x055a0 / 0x8000 == 0 && 0x055a0 / 0x4000 == 1 && 0x055a0 / 0x2000 == 2 && 0x055a0 / 0x1000 == 5 && 0x055a0 / 0x800 == 10 && 0x055a0 / 0x400 == 21 && 0x055a0 / 0x200 == 42 && 0x055a0 / 0x100 == 85 && 0x055a0 / 0x80 == 171 && 0x055a0 / 0x40 == 342 && 0x055a0 / 0x20 == 685 && 0x055a0 / 0x10 == 1370;
  }
  lemma Length2076() ensures YearDays(FirstYear + 176) == 354 {
    Row17();
    assert LunarInfo(FirstYear + 176) == 0x055a0;
    Entry2076();
  }
  lemma Entry2077() ensures EntryYearDays(0x0aba4) == 384 {
    YearDaysByBits(0x0aba4);
    assert 0x0aba4 / 0x8000 == 1 && 0x0aba4 / 0x4000 == 2 && 0x0aba4 / 0x2000 == 5 && 0x0aba4 / 0x1000 == 10 && 0x0aba4 / 0x800 == 21 && 0x0aba4 / 0x400 == 42 && 0x0aba4 / 0x200 == 85 && 0x0aba4 / 0x100 == 171 && 0x0aba4 / 0x80 == 343 && 0x0aba4 / 0x40 == 686 && 0x0aba4 / 0x20 == 1373 && 0x0aba4 / 0x10 == 2746;
  }
  lemma Length2077() ensures YearDays(FirstYear + 177) == 384 {
    Row17();
    assert LunarInfo(FirstYear + 177) == 0x0aba4;
    Entry2077();
  }
  lemma Entry2078() ensures EntryYearDays(0x0a5b0) == 355 {
    YearDaysByBits(0x0a5b0);
    assert 0x0a5b0 / 0x8000 == 1 && 0x0a5b0 / 0x4000 == 2 && 0x0a5b0 / 0x2000 == 5 && 0x0a5b0 / 0x1000 == 10 && 0x0a5b0 / 0x800 == 20 && 0x0a5b0 / 0x400 == 41 && 0x0a5b0 / 0x200 == 82 && 0x0a5b0 / 0x100 == 165 && 0x0a5b0 / 0x80 == 331 && 0x0a5b0 / 0x40 == 662 && 0x0a5b0 / 0x20 == 1325 && 0x0a5b0 / 0x10 == 2651;
  }
  lemma Length2078() ensures YearDays(FirstYear + 178) == 355 {
    Row17();
    assert LunarInfo(FirstYear + 178) == 0x0a5b0;
    Entry2078();
  }
  lemma Entry2079() ensures EntryYearDays(0x052b0) == 354 {
    YearDaysByBits(0x052b0);
    assert 0x052b0 / 0x8000 == 0 && 0x052b0 / 0x4000 == 1 && 0x052b0 / 0x2000 == 2 && 0x052b0 / 0x1000 == 5 && 0x052b0 / 0x800 == 10 && 0x052b0 / 0x400 == 20 && 0x052b0 / 0x200 == 41 && 0x052b0 / 0x100 == 82 && 0x052b0 / 0x80 == 165 && 0x052b0 / 0x40 == 330 && 0x052b0 / 0x20 == 661 && 0x052b0 / 0x10 == 1323;
  }
  lemma Length2079() ensures YearDays(FirstYear + 179) == 354 {
    Row17();
    assert LunarInfo(FirstYear + 179) == 0x052b0;
    Entry2079();
  }

  lemma Entry2080() ensures EntryYearDays(0x0b273) == 384 {
    YearDaysByBits(0x0b273);
    assert 0x0b273 / 0x8000 == 1 && 0x0b273 / 0x4000 == 2 && 0x0b273 / 0x2000 == 5 && 0x0b273 / 0x1000 == 11 && 0x0b273 / 0x800 == 22 && 0x0b273 / 0x400 == 44 && 0x0b273 / 0x200 == 89 && 0x0b273 / 0x100 == 178 && 0x0b273 / 0x80 == 356 && 0x0b273 / 0x40 == 713 && 0x0b273 / 0x20 == 1427 && 0x0b273 / 0x10 == 2855;
  }
  lemma Length2080() ensures YearDays(FirstYear + 180) == 384 {
    Row18();
    assert LunarInfo(FirstYear + 180) == 0x0b273;
    Entry2080();
  }
  lemma Entry2081() ensures EntryYearDays(0x06930) == 354 {
    YearDaysByBits(0x06930);
    assert 0x06930 / 0x8000 == 0 && 0x06930 / 0x4000 == 1 && 0x06930 / 0x2000 == 3 && 0x06930 / 0x1000 == 6 && 0x06930 / 0x800 == 13 && 0x06930 / 0x400 == 26 && 0x06930 / 0x200 == 52 && 0x06930 / 0x100 == 105 && 0x06930 / 0x80 == 210 && 0x06930 / 0x40 == 420 && 0x06930 / 0x20 == 841 && 0x06930 / 0x10 == 1683;
  }
  lemma Length2081() ensures YearDays(FirstYear + 181) == 354 {
    Row18();
    assert LunarInfo(FirstYear + 181) == 0x06930;
    Entry2081();
  }
  lemma Entry2082() ensures EntryYearDays(0x07337) == 384 {
    YearDaysByBits(0x07337);
    assert 0x07337 / 0x8000 == 0 && 0x07337 / 0x4000 == 1 && 0x07337 / 0x2000 == 3 && 0x07337 / 0x1000 == 7 && 0x07337 / 0x800 == 14 && 0x07337 / 0x400 == 28 && 0x07337 / 0x200 == 57 && 0x07337 / 0x100 == 115 && 0x07337 / 0x80 == 230 && 0x07337 / 0x40 == 460 && 0x07337 / 0x20 == 921 && 0x07337 / 0x10 == 1843;
  }
  lemma Length2082() ensures YearDays(FirstYear + 182) == 384 {
    Row18();
    assert LunarInfo(FirstYear + 182) == 0x07337;
    Entry2082();
  }
  lemma Entry2083() ensures EntryYearDays(0x06aa0) == 354 {
    YearDaysByBits(0x06aa0);
    assert 0x06aa0 / 0x8000 == 0 && 0x06aa0 / 0x4000 == 1 && 0x06aa0 / 0x2000 == 3 && 0x06aa0 / 0x1000 == 6 && 0x06aa0 / 0x800 == 13 && 0x06aa0 / 0x400 == 26 && 0x06aa0 / 0x200 == 53 && 0x06aa0 / 0x100 == 106 && 0x06aa0 / 0x80 == 213 && 0x06aa0 / 0x40 == 426 && 0x06aa0 / 0x20 == 853 && 0x06aa0 / 0x10 == 1706;
  }
  lemma Length2083() ensures YearDays(FirstYear + 183) == 354 {
    Row18();
    assert LunarInfo(FirstYear + 183) == 0x06aa0;
    Entry2083();
  }
  lemma Entry2084() ensures EntryYearDays(0x0ad50) == 355 {
    YearDaysByBits(0x0ad50);
    assert 0x0ad50 / 0x8000 == 1 && 0x0ad50 / 0x4000 == 2 && 0x0ad50 / 0x2000 == 5 && 0x0ad50 / 0x1000 == 10 && 0x0ad50 / 0x800 == 21 && 0x0ad50 / 0x400 == 43 && 0x0ad50 / 0x200 == 86 && 0x0ad50 / 0x100 == 173 && 0x0ad50 / 0x80 == 346 && 0x0ad50 / 0x40 == 693 && 0x0ad50 / 0x20 == 1386 && 0x0ad50 / 0x10 == 2773;
  }
  lemma Length2084() ensures YearDays(FirstYear + 184) == 355 {
    Row18();
    assert LunarInfo(FirstYear + 184) == 0x0ad50;
    Entry2084();
  }
  lemma Entry2085() ensures EntryYearDays(0x14b55) == 384 {
    YearDaysByBits(0x14b55);
    assert 0x14b55 / 0x8000 == 2 && 0x14b55 / 0x4000 == 5 && 0x14b55 / 0x2000 == 10 && 0x14b55 / 0x1000 == 20 && 0x14b55 / 0x800 == 41 && 0x14b55 / 0x400 == 82 && 0x14b55 / 0x200 == 165 && 0x14b55 / 0x100 == 331 && 0x14b55 / 0x80 == 662 && 0x14b55 / 0x40 == 1325 && 0x14b55 / 0x20 == 2650 && 0x14b55 / 0x10 == 5301;
  }
  lemma Length2085() ensures YearDays(FirstYear + 185) == 384 {
    Row18();
    assert LunarInfo(FirstYear + 185) == 0x14b55;
    Entry2085();
  }
  lemma Entry2086() ensures EntryYearDays(0x04b60) == 354 {
    YearDaysByBits(0x04b60);
    assert 0x04b60 / 0x8000 == 0 && 0x04b60 / 0x4000 == 1 && 0x04b60 / 0x2000 == 2 && 0x04b60 / 0x1000 == 4 && 0x04b60 / 0x800 == 9 && 0x04b60 / 0x400 == 18 && 0x04b60 / 0x200 == 37 && 0x04b60 / 0x100 == 75 && 0x04b60 / 0x80 == 150 && 0x04b60 / 0x40 == 301 && 0x04b60 / 0x20 == 603 && 0x04b60 / 0x10 == 1206;
  }
  lemma Length2086() ensures YearDays(FirstYear + 186) == 354 {
    Row18();
    assert LunarInfo(FirstYear + 186) == 0x04b60;
    Entry2086();
  }
  lemma Entry2087() ensures EntryYearDays(0x0a570) == 355 {
    YearDaysByBits(0x0a570);
    assert 0x0a570 / 0x8000 == 1 && 0x0a570 / 0x4000 == 2 && 0x0a570 / 0x2000 == 5 && 0x0a570 / 0x1000 == 10 && 0x0a570 / 0x800 == 20 && 0x0a570 / 0x400 == 41 && 0x0a570 / 0x200 == 82 && 0x0a570 / 0x100 == 165 && 0x0a570 / 0x80 == 330 && 0x0a570 / 0x40 == 661 && 0x0a570 / 0x20 == 1323 && 0x0a570 / 0x10 == 2647;
  }
  lemma Length2087() ensures YearDays(FirstYear + 187) == 355 {
    Row18();
    assert LunarInfo(FirstYear + 187) == 0x0a570;
    Entry2087();
  }
  lemma Entry2088() ensures EntryYearDays(0x054e4) == 383 {
    YearDaysByBits(0x054e4);
    assert 0x054e4 / 0x8000 == 0 && 0x054e4 / 0x4000 == 1 && 0x054e4 / 0x2000 == 2 && 0x054e4 / 0x1000 == 5 && 0x054e4 / 0x800 == 10 && 0x054e4 / 0x400 == 21 && 0x054e4 / 0x200 == 42 && 0x054e4 / 0x100 == 84 && 0x054e4 / 0x80 == 169 && 0x054e4 / 0x40 == 339 && 0x054e4 / 0x20 == 679 && 0x054e4 / 0x10 == 1358;
  }
  lemma Length2088() ensures YearDays(FirstYear + 188) == 383 {
    Row18();
    assert LunarInfo(FirstYear + 188) == 0x054e4;
    Entry2088();
  }
  lemma Entry2089() ensures EntryYearDays(0x0d160) == 354 {
    YearDaysByBits(0x0d160);
    assert 0x0d160 / 0x8000 == 1 && 0x0d160 / 0x4000 == 3 && 0x0d160 / 0x2000 == 6 && 0x0d160 / 0x1000 == 13 && 0x0d160 / 0x800 == 26 && 0x0d160 / 0x400 == 52 && 0x0d160 / 0x200 == 104 && 0x0d160 / 0x100 == 209 && 0x0d160 / 0x80 == 418 && 0x0d160 / 0x40 == 837 && 0x0d160 / 0x20 == 1675 && 0x0d160 / 0x10 == 3350;
  }
  lemma Length2089() ensures YearDays(FirstYear + 189) == 354 {
    Row18();
    assert LunarInfo(FirstYear + 189) == 0x0d160;
    Entry2089();
  }

  lemma Entry2090() ensures EntryYearDays(0x0e968) == 384 {
    YearDaysByBits(0x0e968);
    assert 0x0e968 / 0x8000 == 1 && 0x0e968 / 0x4000 == 3 && 0x0e968 / 0x2000 == 7 && 0x0e968 / 0x1000 == 14 && 0x0e968 / 0x800 == 29 && 0x0e968 / 0x400 == 58 && 0x0e968 / 0x200 == 116 && 0x0e968 / 0x100 == 233 && 0x0e968 / 0x80 == 466 && 0x0e968 / 0x40 == 933 && 0x0e968 / 0x20 == 1867 && 0x0e968 / 0x10 == 3734;
  }
  lemma Length2090() ensures YearDays(FirstYear + 190) == 384 {
    Row19();
    assert LunarInfo(FirstYear + 190) == 0x0e968;
    Entry2090();
  }
  lemma Entry2091() ensures EntryYearDays(0x0d520) == 354 {
    YearDaysByBits(0x0d520);
    assert 0x0d520 / 0x8000 == 1 && 0x0d520 / 0x4000 == 3 && 0x0d520 / 0x2000 == 6 && 0x0d520 / 0x1000 == 13 && 0x0d520 / 0x800 == 26 && 0x0d520 / 0x400 == 53 && 0x0d520 / 0x200 == 106 && 0x0d520 / 0x100 == 213 && 0x0d520 / 0x80 == 426 && 0x0d520 / 0x40 == 852 && 0x0d520 / 0x20 == 1705 && 0x0d520 / 0x10 == 3410;
  }
  lemma Length2091() ensures YearDays(FirstYear + 191) == 354 {
    Row19();
    assert LunarInfo(FirstYear + 191) == 0x0d520;
    Entry2091();
  }
  lemma Entry2092() ensures EntryYearDays(0x0daa0) == 355 {
    YearDaysByBits(0x0daa0);
    assert 0x0daa0 / 0x8000 == 1 && 0x0daa0 / 0x4000 == 3 && 0x0daa0 / 0x2000 == 6 && 0x0daa0 / 0x1000 == 13 && 0x0daa0 / 0x800 == 27 && 0x0daa0 / 0x400 == 54 && 0x0daa0 / 0x200 == 109 && 0x0daa0 / 0x100 == 218 && 0x0daa0 / 0x80 == 437 && 0x0daa0 / 0x40 == 874 && 0x0daa0 / 0x20 == 1749 && 0x0daa0 / 0x10 == 3498;
  }
  lemma Length2092() ensures YearDays(FirstYear + 192) == 355 {
    Row19();
    assert LunarInfo(FirstYear + 192) == 0x0daa0;
    Entry2092();
  }
  lemma Entry2093() ensures EntryYearDays(0x16aa6) == 384 {
    YearDaysByBits(0x16aa6);
    assert 0x16aa6 / 0x8000 == 2 && 0x16aa6 / 0x4000 == 5 && 0x16aa6 / 0x2000 == 11 && 0x16aa6 / 0x1000 == 22 && 0x16aa6 / 0x800 == 45 && 0x16aa6 / 0x400 == 90 && 0x16aa6 / 0x200 == 181 && 0x16aa6 / 0x100 == 362 && 0x16aa6 / 0x80 == 725 && 0x16aa6 / 0x40 == 1450 && 0x16aa6 / 0x20 == 2901 && 0x16aa6 / 0x10 == 5802;
  }
  lemma Length2093() ensures YearDays(FirstYear + 193) == 384 {
    Row19();
    assert LunarInfo(FirstYear + 193) == 0x16aa6;
    Entry2093();
  }
  lemma Entry2094() ensures EntryYearDays(0x056d0) == 355 {
    YearDaysByBits(0x056d0);
    assert 0x056d0 / 0x8000 == 0 && 0x056d0 / 0x4000 == 1 && 0x056d0 / 0x2000 == 2 && 0x056d0 / 0x1000 == 5 && 0x056d0 / 0x800 == 10 && 0x056d0 / 0x400 == 21 && 0x056d0 / 0x200 == 43 && 0x056d0 / 0x100 == 86 && 0x056d0 / 0x80 == 173 && 0x056d0 / 0x40 == 347 && 0x056d0 / 0x20 == 694 && 0x056d0 / 0x10 == 1389;
  }
  lemma Length2094() ensures YearDays(FirstYear + 194) == 355 {
    Row19();
    assert LunarInfo(FirstYear + 194) == 0x056d0;
    Entry2094();
  }
  lemma Entry2095() ensures EntryYearDays(0x04ae0) == 354 {
    YearDaysByBits(0x04ae0);
    assert 0x04ae0 / 0x8000 == 0 && 0x04ae0 / 0x4000 == 1 && 0x04ae0 / 0x2000 == 2 && 0x04ae0 / 0x1000 == 4 && 0x04ae0 / 0x800 == 9 && 0x04ae0 / 0x400 == 18 && 0x04ae0 / 0x200 == 37 && 0x04ae0 / 0x100 == 74 && 0x04ae0 / 0x80 == 149 && 0x04ae0 / 0x40 == 299 && 0x04ae0 / 0x20 == 599 && 0x04ae0 / 0x10 == 1198;
  }
  lemma Length2095() ensures YearDays(FirstYear + 195) == 354 {
    Row19();
    assert LunarInfo(FirstYear + 195) == 0x04ae0;
    Entry2095();
  }
  lemma Entry2096() ensures EntryYearDays(0x0a9d4) == 384 {
    YearDaysByBits(0x0a9d4);
    assert 0x0a9d4 / 0x8000 == 1 && 0x0a9d4 / 0x4000 == 2 && 0x0a9d4 / 0x2000 == 5 && 0x0a9d4 / 0x1000 == 10 && 0x0a9d4 / 0x800 == 21 && 0x0a9d4 / 0x400 == 42 && 0x0a9d4 / 0x200 == 84 && 0x0a9d4 / 0x100 == 169 && 0x0a9d4 / 0x80 == 339 && 0x0a9d4 / 0x40 == 679 && 0x0a9d4 / 0x20 == 1358 && 0x0a9d4 / 0x10 == 2717;
  }
  lemma Length2096() ensures YearDays(FirstYear + 196) == 384 {
    Row19();
    assert LunarInfo(FirstYear + 196) == 0x0a9d4;
    Entry2096();
  }
  lemma Entry2097() ensures EntryYearDays(0x0a2d0) == 354 {
    YearDaysByBits(0x0a2d0);
    assert 0x0a2d0 / 0x8000 == 1 && 0x0a2d0 / 0x4000 == 2 && 0x0a2d0 / 0x2000 == 5 && 0x0a2d0 / 0x1000 == 10 && 0x0a2d0 / 0x800 == 20 && 0x0a2d0 / 0x400 == 40 && 0x0a2d0 / 0x200 == 81 && 0x0a2d0 / 0x100 == 162 && 0x0a2d0 / 0x80 == 325 && 0x0a2d0 / 0x40 == 651 && 0x0a2d0 / 0x20 == 1302 && 0x0a2d0 / 0x10 == 2605;
  }
  lemma Length2097() ensures YearDays(FirstYear + 197) == 354 {
    Row19();
    assert LunarInfo(FirstYear + 197) == 0x0a2d0;
    Entry2097();
  }
  lemma Entry2098() ensures EntryYearDays(0x0d150) == 354 {
    YearDaysByBits(0x0d150);
    assert 0x0d150 / 0x8000 == 1 && 0x0d150 / 0x4000 == 3 && 0x0d150 / 0x2000 == 6 && 0x0d150 / 0x1000 == 13 && 0x0d150 / 0x800 == 26 && 0x0d150 / 0x400 == 52 && 0x0d150 / 0x200 == 104 && 0x0d150 / 0x100 == 209 && 0x0d150 / 0x80 == 418 && 0x0d150 / 0x40 == 837 && 0x0d150 / 0x20 == 1674 && 0x0d150 / 0x10 == 3349;
  }
  lemma Length2098() ensures YearDays(FirstYear + 198) == 354 {
    Row19();
    assert LunarInfo(FirstYear + 198) == 0x0d150;
    Entry2098();
  }
  lemma Entry2099() ensures EntryYearDays(0x0f252) == 384 {
    YearDaysByBits(0x0f252);
    assert 0x0f252 / 0x8000 == 1 && 0x0f252 / 0x4000 == 3 && 0x0f252 / 0x2000 == 7 && 0x0f252 / 0x1000 == 15 && 0x0f252 / 0x800 == 30 && 0x0f252 / 0x400 == 60 && 0x0f252 / 0x200 == 121 && 0x0f252 / 0x100 == 242 && 0x0f252 / 0x80 == 484 && 0x0f252 / 0x40 == 969 && 0x0f252 / 0x20 == 1938 && 0x0f252 / 0x10 == 3877;
  }
  lemma Length2099() ensures YearDays(FirstYear + 199) == 384 {
    Row19();
    assert LunarInfo(FirstYear + 199) == 0x0f252;
    Entry2099();
  }

  /** Lunar year 1901 starts this many days after 1900-01-31: the length of lunar year 1900. */
  lemma Start1901() ensures DaysBeforeYear(FirstYear + 1) == 384 {
    Length1900();
    assert DaysBeforeYear(FirstYear + 1) == DaysBeforeYear(FirstYear) + YearDays(FirstYear);
  }

  // Each later lunar year starts where the one before it starts, plus its length.
  lemma Start1902() ensures DaysBeforeYear(FirstYear + 2) == 738 {
    Start1901();
    Length1901();
    assert DaysBeforeYear(FirstYear + 2) == DaysBeforeYear(FirstYear + 1) + YearDays(FirstYear + 1);
  }
  lemma Start1903() ensures DaysBeforeYear(FirstYear + 3) == 1093 {
    Start1902();
    Length1902();
    assert DaysBeforeYear(FirstYear + 3) == DaysBeforeYear(FirstYear + 2) + YearDays(FirstYear + 2);
  }
  lemma Start1904() ensures DaysBeforeYear(FirstYear + 4) == 1476 {
    Start1903();
    Length1903();
    assert DaysBeforeYear(FirstYear + 4) == DaysBeforeYear(FirstYear + 3) + YearDays(FirstYear + 3);
  }
  lemma Start1905() ensures DaysBeforeYear(FirstYear + 5) == 1830 {
    Start1904();
    Length1904();
    assert DaysBeforeYear(FirstYear + 5) == DaysBeforeYear(FirstYear + 4) + YearDays(FirstYear + 4);
  }
  lemma Start1906() ensures DaysBeforeYear(FirstYear + 6) == 2185 {
    Start1905();
    Length1905();
    assert DaysBeforeYear(FirstYear + 6) == DaysBeforeYear(FirstYear + 5) + YearDays(FirstYear + 5);
  }
  lemma Start1907() ensures DaysBeforeYear(FirstYear + 7) == 2569 {
    Start1906();
    Length1906();
    assert DaysBeforeYear(FirstYear + 7) == DaysBeforeYear(FirstYear + 6) + YearDays(FirstYear + 6);
  }
  lemma Start1908() ensures DaysBeforeYear(FirstYear + 8) == 2923 {
    Start1907();
    Length1907();
    assert DaysBeforeYear(FirstYear + 8) == DaysBeforeYear(FirstYear + 7) + YearDays(FirstYear + 7);
  }
  lemma Start1909() ensures DaysBeforeYear(FirstYear + 9) == 3278 {
    Start1908();
    Length1908();
    assert DaysBeforeYear(FirstYear + 9) == DaysBeforeYear(FirstYear + 8) + YearDays(FirstYear + 8);
  }
  lemma Start1910() ensures DaysBeforeYear(FirstYear + 10) == 3662 {
    Start1909();
    Length1909();
    assert DaysBeforeYear(FirstYear + 10) == DaysBeforeYear(FirstYear + 9) + YearDays(FirstYear + 9);
  }
  lemma Start1911() ensures DaysBeforeYear(FirstYear + 11) == 4016 {
    Start1910();
    Length1910();
    assert DaysBeforeYear(FirstYear + 11) == DaysBeforeYear(FirstYear + 10) + YearDays(FirstYear + 10);
  }
  lemma Start1912() ensures DaysBeforeYear(FirstYear + 12) == 4400 {
    Start1911();
    Length1911();
    assert DaysBeforeYear(FirstYear + 12) == DaysBeforeYear(FirstYear + 11) + YearDays(FirstYear + 11);
  }
  lemma Start1913() ensures DaysBeforeYear(FirstYear + 13) == 4754 {
    Start1912();
    Length1912();
    assert DaysBeforeYear(FirstYear + 13) == DaysBeforeYear(FirstYear + 12) + YearDays(FirstYear + 12);
  }
  lemma Start1914() ensures DaysBeforeYear(FirstYear + 14) == 5108 {
    Start1913();
    Length1913();
    assert DaysBeforeYear(FirstYear + 14) == DaysBeforeYear(FirstYear + 13) + YearDays(FirstYear + 13);
  }
  lemma Start1915() ensures DaysBeforeYear(FirstYear + 15) == 5492 {
    Start1914();
    Length1914();
    assert DaysBeforeYear(FirstYear + 15) == DaysBeforeYear(FirstYear + 14) + YearDays(FirstYear + 14);
  }
  lemma Start1916() ensures DaysBeforeYear(FirstYear + 16) == 5846 {
    Start1915();
    Length1915();
    assert DaysBeforeYear(FirstYear + 16) == DaysBeforeYear(FirstYear + 15) + YearDays(FirstYear + 15);
  }
  lemma Start1917() ensures DaysBeforeYear(FirstYear + 17) == 6201 {
    Start1916();
    Length1916();
    assert DaysBeforeYear(FirstYear + 17) == DaysBeforeYear(FirstYear + 16) + YearDays(FirstYear + 16);
  }
  lemma Start1918() ensures DaysBeforeYear(FirstYear + 18) == 6585 {
    Start1917();
    Length1917();
    assert DaysBeforeYear(FirstYear + 18) == DaysBeforeYear(FirstYear + 17) + YearDays(FirstYear + 17);
  }
  lemma Start1919() ensures DaysBeforeYear(FirstYear + 19) == 6940 {
    Start1918();
    Length1918();
    assert DaysBeforeYear(FirstYear + 19) == DaysBeforeYear(FirstYear + 18) + YearDays(FirstYear + 18);
  }
  lemma Start1920() ensures DaysBeforeYear(FirstYear + 20) == 7324 {
    Start1919();
    Length1919();
    assert DaysBeforeYear(FirstYear + 20) == DaysBeforeYear(FirstYear + 19) + YearDays(FirstYear + 19);
  }
  lemma Start1921() ensures DaysBeforeYear(FirstYear + 21) == 7678 {
    Start1920();
    Length1920();
    assert DaysBeforeYear(FirstYear + 21) == DaysBeforeYear(FirstYear + 20) + YearDays(FirstYear + 20);
  }
  lemma Start1922() ensures DaysBeforeYear(FirstYear + 22) == 8032 {
    Start1921();
    Length1921();
    assert DaysBeforeYear(FirstYear + 22) == DaysBeforeYear(FirstYear + 21) + YearDays(FirstYear + 21);
  }
  lemma Start1923() ensures DaysBeforeYear(FirstYear + 23) == 8416 {
    Start1922();
    Length1922();
    assert DaysBeforeYear(FirstYear + 23) == DaysBeforeYear(FirstYear + 22) + YearDays(FirstYear + 22);
  }
  lemma Start1924() ensures DaysBeforeYear(FirstYear + 24) == 8770 {
    Start1923();
    Length1923();
    assert DaysBeforeYear(FirstYear + 24) == DaysBeforeYear(FirstYear + 23) + YearDays(FirstYear + 23);
  }
  lemma Start1925() ensures DaysBeforeYear(FirstYear + 25) == 9124 {
    Start1924();
    Length1924();
    assert DaysBeforeYear(FirstYear + 25) == DaysBeforeYear(FirstYear + 24) + YearDays(FirstYear + 24);
  }
  lemma Start1926() ensures DaysBeforeYear(FirstYear + 26) == 9509 {
    Start1925();
    Length1925();
    assert DaysBeforeYear(FirstYear + 26) == DaysBeforeYear(FirstYear + 25) + YearDays(FirstYear + 25);
  }
  lemma Start1927() ensures DaysBeforeYear(FirstYear + 27) == 9863 {
    Start1926();
    Length1926();
    assert DaysBeforeYear(FirstYear + 27) == DaysBeforeYear(FirstYear + 26) + YearDays(FirstYear + 26);
  }
  lemma Start1928() ensures DaysBeforeYear(FirstYear + 28) == 10218 {
    Start1927();
    Length1927();
    assert DaysBeforeYear(FirstYear + 28) == DaysBeforeYear(FirstYear + 27) + YearDays(FirstYear + 27);
  }
  lemma Start1929() ensures DaysBeforeYear(FirstYear + 29) == 10602 {
    Start1928();
    Length1928();
    assert DaysBeforeYear(FirstYear + 29) == DaysBeforeYear(FirstYear + 28) + YearDays(FirstYear + 28);
  }
  lemma Start1930() ensures DaysBeforeYear(FirstYear + 30) == 10956 {
    Start1929();
    Length1929();
    assert DaysBeforeYear(FirstYear + 30) == DaysBeforeYear(FirstYear + 29) + YearDays(FirstYear + 29);
  }
  lemma Start1931() ensures DaysBeforeYear(FirstYear + 31) == 11339 {
    Start1930();
    Length1930();
    assert DaysBeforeYear(FirstYear + 31) == DaysBeforeYear(FirstYear + 30) + YearDays(FirstYear + 30);
  }
  lemma Start1932() ensures DaysBeforeYear(FirstYear + 32) == 11693 {
    Start1931();
    Length1931();
    assert DaysBeforeYear(FirstYear + 32) == DaysBeforeYear(FirstYear + 31) + YearDays(FirstYear + 31);
  }
  lemma Start1933() ensures DaysBeforeYear(FirstYear + 33) == 12048 {
    Start1932();
    Length1932();
    assert DaysBeforeYear(FirstYear + 33) == DaysBeforeYear(FirstYear + 32) + YearDays(FirstYear + 32);
  }
  lemma Start1934() ensures DaysBeforeYear(FirstYear + 34) == 12432 {
    Start1933();
    Length1933();
    assert DaysBeforeYear(FirstYear + 34) == DaysBeforeYear(FirstYear + 33) + YearDays(FirstYear + 33);
  }
  lemma Start1935() ensures DaysBeforeYear(FirstYear + 35) == 12787 {
    Start1934();
    Length1934();
    assert DaysBeforeYear(FirstYear + 35) == DaysBeforeYear(FirstYear + 34) + YearDays(FirstYear + 34);
  }
  lemma Start1936() ensures DaysBeforeYear(FirstYear + 36) == 13141 {
    Start1935();
    Length1935();
    assert DaysBeforeYear(FirstYear + 36) == DaysBeforeYear(FirstYear + 35) + YearDays(FirstYear + 35);
  }
  lemma Start1937() ensures DaysBeforeYear(FirstYear + 37) == 13525 {
    Start1936();
    Length1936();
    assert DaysBeforeYear(FirstYear + 37) == DaysBeforeYear(FirstYear + 36) + YearDays(FirstYear + 36);
  }
  lemma Start1938() ensures DaysBeforeYear(FirstYear + 38) == 13879 {
    Start1937();
    Length1937();
    assert DaysBeforeYear(FirstYear + 38) == DaysBeforeYear(FirstYear + 37) + YearDays(FirstYear + 37);
  }
  lemma Start1939() ensures DaysBeforeYear(FirstYear + 39) == 14263 {
    Start1938();
    Length1938();
    assert DaysBeforeYear(FirstYear + 39) == DaysBeforeYear(FirstYear + 38) + YearDays(FirstYear + 38);
  }
  lemma Start1940() ensures DaysBeforeYear(FirstYear + 40) == 14617 {
    Start1939();
    Length1939();
    assert DaysBeforeYear(FirstYear + 40) == DaysBeforeYear(FirstYear + 39) + YearDays(FirstYear + 39);
  }
  lemma Start1941() ensures DaysBeforeYear(FirstYear + 41) == 14971 {
    Start1940();
    Length1940();
    assert DaysBeforeYear(FirstYear + 41) == DaysBeforeYear(FirstYear + 40) + YearDays(FirstYear + 40);
  }
  lemma Start1942() ensures DaysBeforeYear(FirstYear + 42) == 15355 {
    Start1941();
    Length1941();
    assert DaysBeforeYear(FirstYear + 42) == DaysBeforeYear(FirstYear + 41) + YearDays(FirstYear + 41);
  }
  lemma Start1943() ensures DaysBeforeYear(FirstYear + 43) == 15710 {
    Start1942();
    Length1942();
    assert DaysBeforeYear(FirstYear + 43) == DaysBeforeYear(FirstYear + 42) + YearDays(FirstYear + 42);
  }
  lemma Start1944() ensures DaysBeforeYear(FirstYear + 44) == 16064 {
    Start1943();
    Length1943();
    assert DaysBeforeYear(FirstYear + 44) == DaysBeforeYear(FirstYear + 43) + YearDays(FirstYear + 43);
  }
  lemma Start1945() ensures DaysBeforeYear(FirstYear + 45) == 16449 {
    Start1944();
    Length1944();
    assert DaysBeforeYear(FirstYear + 45) == DaysBeforeYear(FirstYear + 44) + YearDays(FirstYear + 44);
  }
  lemma Start1946() ensures DaysBeforeYear(FirstYear + 46) == 16803 {
    Start1945();
    Length1945();
    assert DaysBeforeYear(FirstYear + 46) == DaysBeforeYear(FirstYear + 45) + YearDays(FirstYear + 45);
  }
  lemma Start1947() ensures DaysBeforeYear(FirstYear + 47) == 17157 {
    Start1946();
    Length1946();
    assert DaysBeforeYear(FirstYear + 47) == DaysBeforeYear(FirstYear + 46) + YearDays(FirstYear + 46);
  }
  lemma Start1948() ensures DaysBeforeYear(FirstYear + 48) == 17541 {
    Start1947();
    Length1947();
    assert DaysBeforeYear(FirstYear + 48) == DaysBeforeYear(FirstYear + 47) + YearDays(FirstYear + 47);
  }
  lemma Start1949() ensures DaysBeforeYear(FirstYear + 49) == 17895 {
    Start1948();
    Length1948();
    assert DaysBeforeYear(FirstYear + 49) == DaysBeforeYear(FirstYear + 48) + YearDays(FirstYear + 48);
  }
  lemma Start1950() ensures DaysBeforeYear(FirstYear + 50) == 18279 {
    Start1949();
    Length1949();
    assert DaysBeforeYear(FirstYear + 50) == DaysBeforeYear(FirstYear + 49) + YearDays(FirstYear + 49);
  }
  lemma Start1951() ensures DaysBeforeYear(FirstYear + 51) == 18633 {
    Start1950();
    Length1950();
    assert DaysBeforeYear(FirstYear + 51) == DaysBeforeYear(FirstYear + 50) + YearDays(FirstYear + 50);
  }
  lemma Start1952() ensures DaysBeforeYear(FirstYear + 52) == 18988 {
    Start1951();
    Length1951();
    assert DaysBeforeYear(FirstYear + 52) == DaysBeforeYear(FirstYear + 51) + YearDays(FirstYear + 51);
  }
  lemma Start1953() ensures DaysBeforeYear(FirstYear + 53) == 19372 {
    Start1952();
    Length1952();
    assert DaysBeforeYear(FirstYear + 53) == DaysBeforeYear(FirstYear + 52) + YearDays(FirstYear + 52);
  }
  lemma Start1954() ensures DaysBeforeYear(FirstYear + 54) == 19726 {
    Start1953();
    Length1953();
    assert DaysBeforeYear(FirstYear + 54) == DaysBeforeYear(FirstYear + 53) + YearDays(FirstYear + 53);
  }
  lemma Start1955() ensures DaysBeforeYear(FirstYear + 55) == 20081 {
    Start1954();
    Length1954();
    assert DaysBeforeYear(FirstYear + 55) == DaysBeforeYear(FirstYear + 54) + YearDays(FirstYear + 54);
  }
  lemma Start1956() ensures DaysBeforeYear(FirstYear + 56) == 20465 {
    Start1955();
    Length1955();
    assert DaysBeforeYear(FirstYear + 56) == DaysBeforeYear(FirstYear + 55) + YearDays(FirstYear + 55);
  }
  lemma Start1957() ensures DaysBeforeYear(FirstYear + 57) == 20819 {
    Start1956();
    Length1956();
    assert DaysBeforeYear(FirstYear + 57) == DaysBeforeYear(FirstYear + 56) + YearDays(FirstYear + 56);
  }
  lemma Start1958() ensures DaysBeforeYear(FirstYear + 58) == 21202 {
    Start1957();
    Length1957();
    assert DaysBeforeYear(FirstYear + 58) == DaysBeforeYear(FirstYear + 57) + YearDays(FirstYear + 57);
  }
  lemma Start1959() ensures DaysBeforeYear(FirstYear + 59) == 21557 {
    Start1958();
    Length1958();
    assert DaysBeforeYear(FirstYear + 59) == DaysBeforeYear(FirstYear + 58) + YearDays(FirstYear + 58);
  }
  lemma Start1960() ensures DaysBeforeYear(FirstYear + 60) == 21911 {
    Start1959();
    Length1959();
    assert DaysBeforeYear(FirstYear + 60) == DaysBeforeYear(FirstYear + 59) + YearDays(FirstYear + 59);
  }
  lemma Start1961() ensures DaysBeforeYear(FirstYear + 61) == 22295 {
    Start1960();
    Length1960();
    assert DaysBeforeYear(FirstYear + 61) == DaysBeforeYear(FirstYear + 60) + YearDays(FirstYear + 60);
  }
  lemma Start1962() ensures DaysBeforeYear(FirstYear + 62) == 22650 {
    Start1961();
    Length1961();
    assert DaysBeforeYear(FirstYear + 62) == DaysBeforeYear(FirstYear + 61) + YearDays(FirstYear + 61);
  }
  lemma Start1963() ensures DaysBeforeYear(FirstYear + 63) == 23004 {
    Start1962();
    Length1962();
    assert DaysBeforeYear(FirstYear + 63) == DaysBeforeYear(FirstYear + 62) + YearDays(FirstYear + 62);
  }
  lemma Start1964() ensures DaysBeforeYear(FirstYear + 64) == 23388 {
    Start1963();
    Length1963();
    assert DaysBeforeYear(FirstYear + 64) == DaysBeforeYear(FirstYear + 63) + YearDays(FirstYear + 63);
  }
  lemma Start1965() ensures DaysBeforeYear(FirstYear + 65) == 23743 {
    Start1964();
    Length1964();
    assert DaysBeforeYear(FirstYear + 65) == DaysBeforeYear(FirstYear + 64) + YearDays(FirstYear + 64);
  }
  lemma Start1966() ensures DaysBeforeYear(FirstYear + 66) == 24096 {
    Start1965();
    Length1965();
    assert DaysBeforeYear(FirstYear + 66) == DaysBeforeYear(FirstYear + 65) + YearDays(FirstYear + 65);
  }
  lemma Start1967() ensures DaysBeforeYear(FirstYear + 67) == 24480 {
    Start1966();
    Length1966();
    assert DaysBeforeYear(FirstYear + 67) == DaysBeforeYear(FirstYear + 66) + YearDays(FirstYear + 66);
  }
  lemma Start1968() ensures DaysBeforeYear(FirstYear + 68) == 24835 {
    Start1967();
    Length1967();
    assert DaysBeforeYear(FirstYear + 68) == DaysBeforeYear(FirstYear + 67) + YearDays(FirstYear + 67);
  }
  lemma Start1969() ensures DaysBeforeYear(FirstYear + 69) == 25219 {
    Start1968();
    Length1968();
    assert DaysBeforeYear(FirstYear + 69) == DaysBeforeYear(FirstYear + 68) + YearDays(FirstYear + 68);
  }
  lemma Start1970() ensures DaysBeforeYear(FirstYear + 70) == 25573 {
    Start1969();
    Length1969();
    assert DaysBeforeYear(FirstYear + 70) == DaysBeforeYear(FirstYear + 69) + YearDays(FirstYear + 69);
  }
  lemma Start1971() ensures DaysBeforeYear(FirstYear + 71) == 25928 {
    Start1970();
    Length1970();
    assert DaysBeforeYear(FirstYear + 71) == DaysBeforeYear(FirstYear + 70) + YearDays(FirstYear + 70);
  }
  lemma Start1972() ensures DaysBeforeYear(FirstYear + 72) == 26312 {
    Start1971();
    Length1971();
    assert DaysBeforeYear(FirstYear + 72) == DaysBeforeYear(FirstYear + 71) + YearDays(FirstYear + 71);
  }
  lemma Start1973() ensures DaysBeforeYear(FirstYear + 73) == 26666 {
    Start1972();
    Length1972();
    assert DaysBeforeYear(FirstYear + 73) == DaysBeforeYear(FirstYear + 72) + YearDays(FirstYear + 72);
  }
  lemma Start1974() ensures DaysBeforeYear(FirstYear + 74) == 27020 {
    Start1973();
    Length1973();
    assert DaysBeforeYear(FirstYear + 74) == DaysBeforeYear(FirstYear + 73) + YearDays(FirstYear + 73);
  }
  lemma Start1975() ensures DaysBeforeYear(FirstYear + 75) == 27404 {
    Start1974();
    Length1974();
    assert DaysBeforeYear(FirstYear + 75) == DaysBeforeYear(FirstYear + 74) + YearDays(FirstYear + 74);
  }
  lemma Start1976() ensures DaysBeforeYear(FirstYear + 76) == 27758 {
    Start1975();
    Length1975();
    assert DaysBeforeYear(FirstYear + 76) == DaysBeforeYear(FirstYear + 75) + YearDays(FirstYear + 75);
  }
  lemma Start1977() ensures DaysBeforeYear(FirstYear + 77) == 28142 {
    Start1976();
    Length1976();
    assert DaysBeforeYear(FirstYear + 77) == DaysBeforeYear(FirstYear + 76) + YearDays(FirstYear + 76);
  }
  lemma Start1978() ensures DaysBeforeYear(FirstYear + 78) == 28496 {
    Start1977();
    Length1977();
    assert DaysBeforeYear(FirstYear + 78) == DaysBeforeYear(FirstYear + 77) + YearDays(FirstYear + 77);
  }
  lemma Start1979() ensures DaysBeforeYear(FirstYear + 79) == 28851 {
    Start1978();
    Length1978();
    assert DaysBeforeYear(FirstYear + 79) == DaysBeforeYear(FirstYear + 78) + YearDays(FirstYear + 78);
  }
  lemma Start1980() ensures DaysBeforeYear(FirstYear + 80) == 29235 {
    Start1979();
    Length1979();
    assert DaysBeforeYear(FirstYear + 80) == DaysBeforeYear(FirstYear + 79) + YearDays(FirstYear + 79);
  }
  lemma Start1981() ensures DaysBeforeYear(FirstYear + 81) == 29590 {
    Start1980();
    Length1980();
    assert DaysBeforeYear(FirstYear + 81) == DaysBeforeYear(FirstYear + 80) + YearDays(FirstYear + 80);
  }
  lemma Start1982() ensures DaysBeforeYear(FirstYear + 82) == 29944 {
    Start1981();
    Length1981();
    assert DaysBeforeYear(FirstYear + 82) == DaysBeforeYear(FirstYear + 81) + YearDays(FirstYear + 81);
  }
  lemma Start1983() ensures DaysBeforeYear(FirstYear + 83) == 30328 {
    Start1982();
    Length1982();
    assert DaysBeforeYear(FirstYear + 83) == DaysBeforeYear(FirstYear + 82) + YearDays(FirstYear + 82);
  }
  lemma Start1984() ensures DaysBeforeYear(FirstYear + 84) == 30682 {
    Start1983();
    Length1983();
    assert DaysBeforeYear(FirstYear + 84) == DaysBeforeYear(FirstYear + 83) + YearDays(FirstYear + 83);
  }
  lemma Start1985() ensures DaysBeforeYear(FirstYear + 85) == 31066 {
    Start1984();
    Length1984();
    assert DaysBeforeYear(FirstYear + 85) == DaysBeforeYear(FirstYear + 84) + YearDays(FirstYear + 84);
  }
  lemma Start1986() ensures DaysBeforeYear(FirstYear + 86) == 31420 {
    Start1985();
    Length1985();
    assert DaysBeforeYear(FirstYear + 86) == DaysBeforeYear(FirstYear + 85) + YearDays(FirstYear + 85);
  }
  lemma Start1987() ensures DaysBeforeYear(FirstYear + 87) == 31774 {
    Start1986();
    Length1986();
    assert DaysBeforeYear(FirstYear + 87) == DaysBeforeYear(FirstYear + 86) + YearDays(FirstYear + 86);
  }
  lemma Start1988() ensures DaysBeforeYear(FirstYear + 88) == 32158 {
    Start1987();
    Length1987();
    assert DaysBeforeYear(FirstYear + 88) == DaysBeforeYear(FirstYear + 87) + YearDays(FirstYear + 87);
  }
  lemma Start1989() ensures DaysBeforeYear(FirstYear + 89) == 32513 {
    Start1988();
    Length1988();
    assert DaysBeforeYear(FirstYear + 89) == DaysBeforeYear(FirstYear + 88) + YearDays(FirstYear + 88);
  }
  lemma Start1990() ensures DaysBeforeYear(FirstYear + 90) == 32868 {
    Start1989();
    Length1989();
    assert DaysBeforeYear(FirstYear + 90) == DaysBeforeYear(FirstYear + 89) + YearDays(FirstYear + 89);
  }
  lemma Start1991() ensures DaysBeforeYear(FirstYear + 91) == 33252 {
    Start1990();
    Length1990();
    assert DaysBeforeYear(FirstYear + 91) == DaysBeforeYear(FirstYear + 90) + YearDays(FirstYear + 90);
  }
  lemma Start1992() ensures DaysBeforeYear(FirstYear + 92) == 33606 {
    Start1991();
    Length1991();
    assert DaysBeforeYear(FirstYear + 92) == DaysBeforeYear(FirstYear + 91) + YearDays(FirstYear + 91);
  }
  lemma Start1993() ensures DaysBeforeYear(FirstYear + 93) == 33960 {
    Start1992();
    Length1992();
    assert DaysBeforeYear(FirstYear + 93) == DaysBeforeYear(FirstYear + 92) + YearDays(FirstYear + 92);
  }
  lemma Start1994() ensures DaysBeforeYear(FirstYear + 94) == 34343 {
    Start1993();
    Length1993();
    assert DaysBeforeYear(FirstYear + 94) == DaysBeforeYear(FirstYear + 93) + YearDays(FirstYear + 93);
  }
  lemma Start1995() ensures DaysBeforeYear(FirstYear + 95) == 34698 {
    Start1994();
    Length1994();
    assert DaysBeforeYear(FirstYear + 95) == DaysBeforeYear(FirstYear + 94) + YearDays(FirstYear + 94);
  }
  lemma Start1996() ensures DaysBeforeYear(FirstYear + 96) == 35082 {
    Start1995();
    Length1995();
    assert DaysBeforeYear(FirstYear + 96) == DaysBeforeYear(FirstYear + 95) + YearDays(FirstYear + 95);
  }
  lemma Start1997() ensures DaysBeforeYear(FirstYear + 97) == 35436 {
    Start1996();
    Length1996();
    assert DaysBeforeYear(FirstYear + 97) == DaysBeforeYear(FirstYear + 96) + YearDays(FirstYear + 96);
  }
  lemma Start1998() ensures DaysBeforeYear(FirstYear + 98) == 35791 {
    Start1997();
    Length1997();
    assert DaysBeforeYear(FirstYear + 98) == DaysBeforeYear(FirstYear + 97) + YearDays(FirstYear + 97);
  }
  lemma Start1999() ensures DaysBeforeYear(FirstYear + 99) == 36175 {
    Start1998();
    Length1998();
    assert DaysBeforeYear(FirstYear + 99) == DaysBeforeYear(FirstYear + 98) + YearDays(FirstYear + 98);
  }
  lemma Start2000() ensures DaysBeforeYear(FirstYear + 100) == 36529 {
    Start1999();
    Length1999();
    assert DaysBeforeYear(FirstYear + 100) == DaysBeforeYear(FirstYear + 99) + YearDays(FirstYear + 99);
  }
  lemma Start2001() ensures DaysBeforeYear(FirstYear + 101) == 36883 {
    Start2000();
    Length2000();
    assert DaysBeforeYear(FirstYear + 101) == DaysBeforeYear(FirstYear + 100) + YearDays(FirstYear + 100);
  }
  lemma Start2002() ensures DaysBeforeYear(FirstYear + 102) == 37267 {
    Start2001();
    Length2001();
    assert DaysBeforeYear(FirstYear + 102) == DaysBeforeYear(FirstYear + 101) + YearDays(FirstYear + 101);
  }
  lemma Start2003() ensures DaysBeforeYear(FirstYear + 103) == 37621 {
    Start2002();
    Length2002();
    assert DaysBeforeYear(FirstYear + 103) == DaysBeforeYear(FirstYear + 102) + YearDays(FirstYear + 102);
  }
  lemma Start2004() ensures DaysBeforeYear(FirstYear + 104) == 37976 {
    Start2003();
    Length2003();
    assert DaysBeforeYear(FirstYear + 104) == DaysBeforeYear(FirstYear + 103) + YearDays(FirstYear + 103);
  }
  lemma Start2005() ensures DaysBeforeYear(FirstYear + 105) == 38360 {
    Start2004();
    Length2004();
    assert DaysBeforeYear(FirstYear + 105) == DaysBeforeYear(FirstYear + 104) + YearDays(FirstYear + 104);
  }
  lemma Start2006() ensures DaysBeforeYear(FirstYear + 106) == 38714 {
    Start2005();
    Length2005();
    assert DaysBeforeYear(FirstYear + 106) == DaysBeforeYear(FirstYear + 105) + YearDays(FirstYear + 105);
  }
  lemma Start2007() ensures DaysBeforeYear(FirstYear + 107) == 39099 {
    Start2006();
    Length2006();
    assert DaysBeforeYear(FirstYear + 107) == DaysBeforeYear(FirstYear + 106) + YearDays(FirstYear + 106);
  }
  lemma Start2008() ensures DaysBeforeYear(FirstYear + 108) == 39453 {
    Start2007();
    Length2007();
    assert DaysBeforeYear(FirstYear + 108) == DaysBeforeYear(FirstYear + 107) + YearDays(FirstYear + 107);
  }
  lemma Start2009() ensures DaysBeforeYear(FirstYear + 109) == 39807 {
    Start2008();
    Length2008();
    assert DaysBeforeYear(FirstYear + 109) == DaysBeforeYear(FirstYear + 108) + YearDays(FirstYear + 108);
  }
  lemma Start2010() ensures DaysBeforeYear(FirstYear + 110) == 40191 {
    Start2009();
    Length2009();
    assert DaysBeforeYear(FirstYear + 110) == DaysBeforeYear(FirstYear + 109) + YearDays(FirstYear + 109);
  }
  lemma Start2011() ensures DaysBeforeYear(FirstYear + 111) == 40545 {
    Start2010();
    Length2010();
    assert DaysBeforeYear(FirstYear + 111) == DaysBeforeYear(FirstYear + 110) + YearDays(FirstYear + 110);
  }
  lemma Start2012() ensures DaysBeforeYear(FirstYear + 112) == 40899 {
    Start2011();
    Length2011();
    assert DaysBeforeYear(FirstYear + 112) == DaysBeforeYear(FirstYear + 111) + YearDays(FirstYear + 111);
  }
  lemma Start2013() ensures DaysBeforeYear(FirstYear + 113) == 41283 {
    Start2012();
    Length2012();
    assert DaysBeforeYear(FirstYear + 113) == DaysBeforeYear(FirstYear + 112) + YearDays(FirstYear + 112);
  }
  lemma Start2014() ensures DaysBeforeYear(FirstYear + 114) == 41638 {
    Start2013();
    Length2013();
    assert DaysBeforeYear(FirstYear + 114) == DaysBeforeYear(FirstYear + 113) + YearDays(FirstYear + 113);
  }
  lemma Start2015() ensures DaysBeforeYear(FirstYear + 115) == 42022 {
    Start2014();
    Length2014();
    assert DaysBeforeYear(FirstYear + 115) == DaysBeforeYear(FirstYear + 114) + YearDays(FirstYear + 114);
  }
  lemma Start2016() ensures DaysBeforeYear(FirstYear + 116) == 42376 {
    Start2015();
    Length2015();
    assert DaysBeforeYear(FirstYear + 116) == DaysBeforeYear(FirstYear + 115) + YearDays(FirstYear + 115);
  }
  lemma Start2017() ensures DaysBeforeYear(FirstYear + 117) == 42731 {
    Start2016();
    Length2016();
    assert DaysBeforeYear(FirstYear + 117) == DaysBeforeYear(FirstYear + 116) + YearDays(FirstYear + 116);
  }
  lemma Start2018() ensures DaysBeforeYear(FirstYear + 118) == 43115 {
    Start2017();
    Length2017();
    assert DaysBeforeYear(FirstYear + 118) == DaysBeforeYear(FirstYear + 117) + YearDays(FirstYear + 117);
  }
  lemma Start2019() ensures DaysBeforeYear(FirstYear + 119) == 43469 {
    Start2018();
    Length2018();
    assert DaysBeforeYear(FirstYear + 119) == DaysBeforeYear(FirstYear + 118) + YearDays(FirstYear + 118);
  }
  lemma Start2020() ensures DaysBeforeYear(FirstYear + 120) == 43823 {
    Start2019();
    Length2019();
    assert DaysBeforeYear(FirstYear + 120) == DaysBeforeYear(FirstYear + 119) + YearDays(FirstYear + 119);
  }
  lemma Start2021() ensures DaysBeforeYear(FirstYear + 121) == 44207 {
    Start2020();
    Length2020();
    assert DaysBeforeYear(FirstYear + 121) == DaysBeforeYear(FirstYear + 120) + YearDays(FirstYear + 120);
  }
  lemma Start2022() ensures DaysBeforeYear(FirstYear + 122) == 44561 {
    Start2021();
    Length2021();
    assert DaysBeforeYear(FirstYear + 122) == DaysBeforeYear(FirstYear + 121) + YearDays(FirstYear + 121);
  }
  lemma Start2023() ensures DaysBeforeYear(FirstYear + 123) == 44916 {
    Start2022();
    Length2022();
    assert DaysBeforeYear(FirstYear + 123) == DaysBeforeYear(FirstYear + 122) + YearDays(FirstYear + 122);
  }
  lemma Start2024() ensures DaysBeforeYear(FirstYear + 124) == 45300 {
    Start2023();
    Length2023();
    assert DaysBeforeYear(FirstYear + 124) == DaysBeforeYear(FirstYear + 123) + YearDays(FirstYear + 123);
  }
  lemma Start2025() ensures DaysBeforeYear(FirstYear + 125) == 45654 {
    Start2024();
    Length2024();
    assert DaysBeforeYear(FirstYear + 125) == DaysBeforeYear(FirstYear + 124) + YearDays(FirstYear + 124);
  }
  lemma Start2026() ensures DaysBeforeYear(FirstYear + 126) == 46038 {
    Start2025();
    Length2025();
    assert DaysBeforeYear(FirstYear + 126) == DaysBeforeYear(FirstYear + 125) + YearDays(FirstYear + 125);
  }
  lemma Start2027() ensures DaysBeforeYear(FirstYear + 127) == 46392 {
    Start2026();
    Length2026();
    assert DaysBeforeYear(FirstYear + 127) == DaysBeforeYear(FirstYear + 126) + YearDays(FirstYear + 126);
  }
  lemma Start2028() ensures DaysBeforeYear(FirstYear + 128) == 46746 {
    Start2027();
    Length2027();
    assert DaysBeforeYear(FirstYear + 128) == DaysBeforeYear(FirstYear + 127) + YearDays(FirstYear + 127);
  }
  lemma Start2029() ensures DaysBeforeYear(FirstYear + 129) == 47130 {
    Start2028();
    Length2028();
    assert DaysBeforeYear(FirstYear + 129) == DaysBeforeYear(FirstYear + 128) + YearDays(FirstYear + 128);
  }
  lemma Start2030() ensures DaysBeforeYear(FirstYear + 130) == 47485 {
    Start2029();
    Length2029();
    assert DaysBeforeYear(FirstYear + 130) == DaysBeforeYear(FirstYear + 129) + YearDays(FirstYear + 129);
  }
  lemma Start2031() ensures DaysBeforeYear(FirstYear + 131) == 47839 {
    Start2030();
    Length2030();
    assert DaysBeforeYear(FirstYear + 131) == DaysBeforeYear(FirstYear + 130) + YearDays(FirstYear + 130);
  }
  lemma Start2032() ensures DaysBeforeYear(FirstYear + 132) == 48223 {
    Start2031();
    Length2031();
    assert DaysBeforeYear(FirstYear + 132) == DaysBeforeYear(FirstYear + 131) + YearDays(FirstYear + 131);
  }
  lemma Start2033() ensures DaysBeforeYear(FirstYear + 133) == 48578 {
    Start2032();
    Length2032();
    assert DaysBeforeYear(FirstYear + 133) == DaysBeforeYear(FirstYear + 132) + YearDays(FirstYear + 132);
  }
  lemma Start2034() ensures DaysBeforeYear(FirstYear + 134) == 48962 {
    Start2033();
    Length2033();
    assert DaysBeforeYear(FirstYear + 134) == DaysBeforeYear(FirstYear + 133) + YearDays(FirstYear + 133);
  }
  lemma Start2035() ensures DaysBeforeYear(FirstYear + 135) == 49316 {
    Start2034();
    Length2034();
    assert DaysBeforeYear(FirstYear + 135) == DaysBeforeYear(FirstYear + 134) + YearDays(FirstYear + 134);
  }
  lemma Start2036() ensures DaysBeforeYear(FirstYear + 136) == 49670 {
    Start2035();
    Length2035();
    assert DaysBeforeYear(FirstYear + 136) == DaysBeforeYear(FirstYear + 135) + YearDays(FirstYear + 135);
  }
  lemma Start2037() ensures DaysBeforeYear(FirstYear + 137) == 50054 {
    Start2036();
    Length2036();
    assert DaysBeforeYear(FirstYear + 137) == DaysBeforeYear(FirstYear + 136) + YearDays(FirstYear + 136);
  }
  lemma Start2038() ensures DaysBeforeYear(FirstYear + 138) == 50408 {
    Start2037();
    Length2037();
    assert DaysBeforeYear(FirstYear + 138) == DaysBeforeYear(FirstYear + 137) + YearDays(FirstYear + 137);
  }
  lemma Start2039() ensures DaysBeforeYear(FirstYear + 139) == 50762 {
    Start2038();
    Length2038();
    assert DaysBeforeYear(FirstYear + 139) == DaysBeforeYear(FirstYear + 138) + YearDays(FirstYear + 138);
  }
  lemma Start2040() ensures DaysBeforeYear(FirstYear + 140) == 51146 {
    Start2039();
    Length2039();
    assert DaysBeforeYear(FirstYear + 140) == DaysBeforeYear(FirstYear + 139) + YearDays(FirstYear + 139);
  }
  lemma Start2041() ensures DaysBeforeYear(FirstYear + 141) == 51501 {
    Start2040();
    Length2040();
    assert DaysBeforeYear(FirstYear + 141) == DaysBeforeYear(FirstYear + 140) + YearDays(FirstYear + 140);
  }
  lemma Start2042() ensures DaysBeforeYear(FirstYear + 142) == 51856 {
    Start2041();
    Length2041();
    assert DaysBeforeYear(FirstYear + 142) == DaysBeforeYear(FirstYear + 141) + YearDays(FirstYear + 141);
  }
  lemma Start2043() ensures DaysBeforeYear(FirstYear + 143) == 52240 {
    Start2042();
    Length2042();
    assert DaysBeforeYear(FirstYear + 143) == DaysBeforeYear(FirstYear + 142) + YearDays(FirstYear + 142);
  }
  lemma Start2044() ensures DaysBeforeYear(FirstYear + 144) == 52594 {
    Start2043();
    Length2043();
    assert DaysBeforeYear(FirstYear + 144) == DaysBeforeYear(FirstYear + 143) + YearDays(FirstYear + 143);
  }
  lemma Start2045() ensures DaysBeforeYear(FirstYear + 145) == 52978 {
    Start2044();
    Length2044();
    assert DaysBeforeYear(FirstYear + 145) == DaysBeforeYear(FirstYear + 144) + YearDays(FirstYear + 144);
  }
  lemma Start2046() ensures DaysBeforeYear(FirstYear + 146) == 53332 {
    Start2045();
    Length2045();
    assert DaysBeforeYear(FirstYear + 146) == DaysBeforeYear(FirstYear + 145) + YearDays(FirstYear + 145);
  }
  lemma Start2047() ensures DaysBeforeYear(FirstYear + 147) == 53686 {
    Start2046();
    Length2046();
    assert DaysBeforeYear(FirstYear + 147) == DaysBeforeYear(FirstYear + 146) + YearDays(FirstYear + 146);
  }
  lemma Start2048() ensures DaysBeforeYear(FirstYear + 148) == 54070 {
    Start2047();
    Length2047();
    assert DaysBeforeYear(FirstYear + 148) == DaysBeforeYear(FirstYear + 147) + YearDays(FirstYear + 147);
  }
  lemma Start2049() ensures DaysBeforeYear(FirstYear + 149) == 54424 {
    Start2048();
    Length2048();
    assert DaysBeforeYear(FirstYear + 149) == DaysBeforeYear(FirstYear + 148) + YearDays(FirstYear + 148);
  }
  lemma Start2050() ensures DaysBeforeYear(FirstYear + 150) == 54779 {
    Start2049();
    Length2049();
    assert DaysBeforeYear(FirstYear + 150) == DaysBeforeYear(FirstYear + 149) + YearDays(FirstYear + 149);
  }
  lemma Start2051() ensures DaysBeforeYear(FirstYear + 151) == 55163 {
    Start2050();
    Length2050();
    assert DaysBeforeYear(FirstYear + 151) == DaysBeforeYear(FirstYear + 150) + YearDays(FirstYear + 150);
  }
  lemma Start2052() ensures DaysBeforeYear(FirstYear + 152) == 55518 {
    Start2051();
    Length2051();
    assert DaysBeforeYear(FirstYear + 152) == DaysBeforeYear(FirstYear + 151) + YearDays(FirstYear + 151);
  }
  lemma Start2053() ensures DaysBeforeYear(FirstYear + 153) == 55902 {
    Start2052();
    Length2052();
    assert DaysBeforeYear(FirstYear + 153) == DaysBeforeYear(FirstYear + 152) + YearDays(FirstYear + 152);
  }
  lemma Start2054() ensures DaysBeforeYear(FirstYear + 154) == 56256 {
    Start2053();
    Length2053();
    assert DaysBeforeYear(FirstYear + 154) == DaysBeforeYear(FirstYear + 153) + YearDays(FirstYear + 153);
  }
  lemma Start2055() ensures DaysBeforeYear(FirstYear + 155) == 56610 {
    Start2054();
    Length2054();
    assert DaysBeforeYear(FirstYear + 155) == DaysBeforeYear(FirstYear + 154) + YearDays(FirstYear + 154);
  }
  lemma Start2056() ensures DaysBeforeYear(FirstYear + 156) == 56993 {
    Start2055();
    Length2055();
    assert DaysBeforeYear(FirstYear + 156) == DaysBeforeYear(FirstYear + 155) + YearDays(FirstYear + 155);
  }
  lemma Start2057() ensures DaysBeforeYear(FirstYear + 157) == 57348 {
    Start2056();
    Length2056();
    assert DaysBeforeYear(FirstYear + 157) == DaysBeforeYear(FirstYear + 156) + YearDays(FirstYear + 156);
  }
  lemma Start2058() ensures DaysBeforeYear(FirstYear + 158) == 57702 {
    Start2057();
    Length2057();
    assert DaysBeforeYear(FirstYear + 158) == DaysBeforeYear(FirstYear + 157) + YearDays(FirstYear + 157);
  }
  lemma Start2059() ensures DaysBeforeYear(FirstYear + 159) == 58086 {
    Start2058();
    Length2058();
    assert DaysBeforeYear(FirstYear + 159) == DaysBeforeYear(FirstYear + 158) + YearDays(FirstYear + 158);
  }
  lemma Start2060() ensures DaysBeforeYear(FirstYear + 160) == 58441 {
    Start2059();
    Length2059();
    assert DaysBeforeYear(FirstYear + 160) == DaysBeforeYear(FirstYear + 159) + YearDays(FirstYear + 159);
  }
  lemma Start2061() ensures DaysBeforeYear(FirstYear + 161) == 58795 {
    Start2060();
    Length2060();
    assert DaysBeforeYear(FirstYear + 161) == DaysBeforeYear(FirstYear + 160) + YearDays(FirstYear + 160);
  }
  lemma Start2062() ensures DaysBeforeYear(FirstYear + 162) == 59179 {
    Start2061();
    Length2061();
    assert DaysBeforeYear(FirstYear + 162) == DaysBeforeYear(FirstYear + 161) + YearDays(FirstYear + 161);
  }
  lemma Start2063() ensures DaysBeforeYear(FirstYear + 163) == 59533 {
    Start2062();
    Length2062();
    assert DaysBeforeYear(FirstYear + 163) == DaysBeforeYear(FirstYear + 162) + YearDays(FirstYear + 162);
  }
  lemma Start2064() ensures DaysBeforeYear(FirstYear + 164) == 59917 {
    Start2063();
    Length2063();
    assert DaysBeforeYear(FirstYear + 164) == DaysBeforeYear(FirstYear + 163) + YearDays(FirstYear + 163);
  }
  lemma Start2065() ensures DaysBeforeYear(FirstYear + 165) == 60271 {
    Start2064();
    Length2064();
    assert DaysBeforeYear(FirstYear + 165) == DaysBeforeYear(FirstYear + 164) + YearDays(FirstYear + 164);
  }
  lemma Start2066() ensures DaysBeforeYear(FirstYear + 166) == 60626 {
    Start2065();
    Length2065();
    assert DaysBeforeYear(FirstYear + 166) == DaysBeforeYear(FirstYear + 165) + YearDays(FirstYear + 165);
  }
  lemma Start2067() ensures DaysBeforeYear(FirstYear + 167) == 61010 {
    Start2066();
    Length2066();
    assert DaysBeforeYear(FirstYear + 167) == DaysBeforeYear(FirstYear + 166) + YearDays(FirstYear + 166);
  }
  lemma Start2068() ensures DaysBeforeYear(FirstYear + 168) == 61364 {
    Start2067();
    Length2067();
    assert DaysBeforeYear(FirstYear + 168) == DaysBeforeYear(FirstYear + 167) + YearDays(FirstYear + 167);
  }
  lemma Start2069() ensures DaysBeforeYear(FirstYear + 169) == 61719 {
    Start2068();
    Length2068();
    assert DaysBeforeYear(FirstYear + 169) == DaysBeforeYear(FirstYear + 168) + YearDays(FirstYear + 168);
  }
  lemma Start2070() ensures DaysBeforeYear(FirstYear + 170) == 62103 {
    Start2069();
    Length2069();
    assert DaysBeforeYear(FirstYear + 170) == DaysBeforeYear(FirstYear + 169) + YearDays(FirstYear + 169);
  }
  lemma Start2071() ensures DaysBeforeYear(FirstYear + 171) == 62457 {
    Start2070();
    Length2070();
    assert DaysBeforeYear(FirstYear + 171) == DaysBeforeYear(FirstYear + 170) + YearDays(FirstYear + 170);
  }
  lemma Start2072() ensures DaysBeforeYear(FirstYear + 172) == 62841 {
    Start2071();
    Length2071();
    assert DaysBeforeYear(FirstYear + 172) == DaysBeforeYear(FirstYear + 171) + YearDays(FirstYear + 171);
  }
  lemma Start2073() ensures DaysBeforeYear(FirstYear + 173) == 63195 {
    Start2072();
    Length2072();
    assert DaysBeforeYear(FirstYear + 173) == DaysBeforeYear(FirstYear + 172) + YearDays(FirstYear + 172);
  }
  lemma Start2074() ensures DaysBeforeYear(FirstYear + 174) == 63549 {
    Start2073();
    Length2073();
    assert DaysBeforeYear(FirstYear + 174) == DaysBeforeYear(FirstYear + 173) + YearDays(FirstYear + 173);
  }
  lemma Start2075() ensures DaysBeforeYear(FirstYear + 175) == 63933 {
    Start2074();
    Length2074();
    assert DaysBeforeYear(FirstYear + 175) == DaysBeforeYear(FirstYear + 174) + YearDays(FirstYear + 174);
  }
  lemma Start2076() ensures DaysBeforeYear(FirstYear + 176) == 64288 {
    Start2075();
    Length2075();
    assert DaysBeforeYear(FirstYear + 176) == DaysBeforeYear(FirstYear + 175) + YearDays(FirstYear + 175);
  }
  lemma Start2077() ensures DaysBeforeYear(FirstYear + 177) == 64642 {
    Start2076();
    Length2076();
    assert DaysBeforeYear(FirstYear + 177) == DaysBeforeYear(FirstYear + 176) + YearDays(FirstYear + 176);
  }
  lemma Start2078() ensures DaysBeforeYear(FirstYear + 178) == 65026 {
    Start2077();
    Length2077();
    assert DaysBeforeYear(FirstYear + 178) == DaysBeforeYear(FirstYear + 177) + YearDays(FirstYear + 177);
  }
  lemma Start2079() ensures DaysBeforeYear(FirstYear + 179) == 65381 {
    Start2078();
    Length2078();
    assert DaysBeforeYear(FirstYear + 179) == DaysBeforeYear(FirstYear + 178) + YearDays(FirstYear + 178);
  }
  lemma Start2080() ensures DaysBeforeYear(FirstYear + 180) == 65735 {
    Start2079();
    Length2079();
    assert DaysBeforeYear(FirstYear + 180) == DaysBeforeYear(FirstYear + 179) + YearDays(FirstYear + 179);
  }
  lemma Start2081() ensures DaysBeforeYear(FirstYear + 181) == 66119 {
    Start2080();
    Length2080();
    assert DaysBeforeYear(FirstYear + 181) == DaysBeforeYear(FirstYear + 180) + YearDays(FirstYear + 180);
  }
  lemma Start2082() ensures DaysBeforeYear(FirstYear + 182) == 66473 {
    Start2081();
    Length2081();
    assert DaysBeforeYear(FirstYear + 182) == DaysBeforeYear(FirstYear + 181) + YearDays(FirstYear + 181);
  }
  lemma Start2083() ensures DaysBeforeYear(FirstYear + 183) == 66857 {
    Start2082();
    Length2082();
    assert DaysBeforeYear(FirstYear + 183) == DaysBeforeYear(FirstYear + 182) + YearDays(FirstYear + 182);
  }
  lemma Start2084() ensures DaysBeforeYear(FirstYear + 184) == 67211 {
    Start2083();
    Length2083();
    assert DaysBeforeYear(FirstYear + 184) == DaysBeforeYear(FirstYear + 183) + YearDays(FirstYear + 183);
  }
  lemma Start2085() ensures DaysBeforeYear(FirstYear + 185) == 67566 {
    Start2084();
    Length2084();
    assert DaysBeforeYear(FirstYear + 185) == DaysBeforeYear(FirstYear + 184) + YearDays(FirstYear + 184);
  }
  lemma Start2086() ensures DaysBeforeYear(FirstYear + 186) == 67950 {
    Start2085();
    Length2085();
    assert DaysBeforeYear(FirstYear + 186) == DaysBeforeYear(FirstYear + 185) + YearDays(FirstYear + 185);
  }
  lemma Start2087() ensures DaysBeforeYear(FirstYear + 187) == 68304 {
    Start2086();
    Length2086();
    assert DaysBeforeYear(FirstYear + 187) == DaysBeforeYear(FirstYear + 186) + YearDays(FirstYear + 186);
  }
  lemma Start2088() ensures DaysBeforeYear(FirstYear + 188) == 68659 {
    Start2087();
    Length2087();
    assert DaysBeforeYear(FirstYear + 188) == DaysBeforeYear(FirstYear + 187) + YearDays(FirstYear + 187);
  }
  lemma Start2089() ensures DaysBeforeYear(FirstYear + 189) == 69042 {
    Start2088();
    Length2088();
    assert DaysBeforeYear(FirstYear + 189) == DaysBeforeYear(FirstYear + 188) + YearDays(FirstYear + 188);
  }
  lemma Start2090() ensures DaysBeforeYear(FirstYear + 190) == 69396 {
    Start2089();
    Length2089();
    assert DaysBeforeYear(FirstYear + 190) == DaysBeforeYear(FirstYear + 189) + YearDays(FirstYear + 189);
  }
  lemma Start2091() ensures DaysBeforeYear(FirstYear + 191) == 69780 {
    Start2090();
    Length2090();
    assert DaysBeforeYear(FirstYear + 191) == DaysBeforeYear(FirstYear + 190) + YearDays(FirstYear + 190);
  }
  lemma Start2092() ensures DaysBeforeYear(FirstYear + 192) == 70134 {
    Start2091();
    Length2091();
    assert DaysBeforeYear(FirstYear + 192) == DaysBeforeYear(FirstYear + 191) + YearDays(FirstYear + 191);
  }
  lemma Start2093() ensures DaysBeforeYear(FirstYear + 193) == 70489 {
    Start2092();
    Length2092();
    assert DaysBeforeYear(FirstYear + 193) == DaysBeforeYear(FirstYear + 192) + YearDays(FirstYear + 192);
  }
  lemma Start2094() ensures DaysBeforeYear(FirstYear + 194) == 70873 {
    Start2093();
    Length2093();
    assert DaysBeforeYear(FirstYear + 194) == DaysBeforeYear(FirstYear + 193) + YearDays(FirstYear + 193);
  }
  lemma Start2095() ensures DaysBeforeYear(FirstYear + 195) == 71228 {
    Start2094();
    Length2094();
    assert DaysBeforeYear(FirstYear + 195) == DaysBeforeYear(FirstYear + 194) + YearDays(FirstYear + 194);
  }
  lemma Start2096() ensures DaysBeforeYear(FirstYear + 196) == 71582 {
    Start2095();
    Length2095();
    assert DaysBeforeYear(FirstYear + 196) == DaysBeforeYear(FirstYear + 195) + YearDays(FirstYear + 195);
  }
  lemma Start2097() ensures DaysBeforeYear(FirstYear + 197) == 71966 {
    Start2096();
    Length2096();
    assert DaysBeforeYear(FirstYear + 197) == DaysBeforeYear(FirstYear + 196) + YearDays(FirstYear + 196);
  }
  lemma Start2098() ensures DaysBeforeYear(FirstYear + 198) == 72320 {
    Start2097();
    Length2097();
    assert DaysBeforeYear(FirstYear + 198) == DaysBeforeYear(FirstYear + 197) + YearDays(FirstYear + 197);
  }
  lemma Start2099() ensures DaysBeforeYear(FirstYear + 199) == 72674 {
    Start2098();
    Length2098();
    assert DaysBeforeYear(FirstYear + 199) == DaysBeforeYear(FirstYear + 198) + YearDays(FirstYear + 198);
  }
  lemma Start2100() ensures DaysBeforeYear(FirstYear + 200) == 73058 {
    Start2099();
    Length2099();
    assert DaysBeforeYear(FirstYear + 200) == DaysBeforeYear(FirstYear + 199) + YearDays(FirstYear + 199);
  }

  /** The table reaches past 2099-12-31: lunar year 2100 starts 40 days after it. */
  lemma TableCoversSolarRange()
    ensures DaysBeforeYear(LastYear + 1) == LastSolarOffset + 40
  {
    Start2100();
  }

  /** Lunar new year's day is the first day of the lunar year. */
  lemma NewYearOffset(y: int)
    requires InTable(y)
    ensures ValidLunarDate(LunarDate(y, 1, 1, false))
    ensures ToOffset(LunarDate(y, 1, 1, false)) == DaysBeforeYear(y)
  {
  }

  /** The lunar side of the three new years: their offsets from 1900-01-31. */
  lemma FestivalLunarOffsets(y: int)
    requires y == 2021 || y == 2023 || y == 2024
    ensures ValidLunarDate(LunarDate(y, 1, 1, false))
    ensures ToOffset(LunarDate(y, 1, 1, false))
            == if y == 2021 then 44207 else if y == 2023 then 44916 else 45300
  {
    Start2021();
    Start2023();
    Start2024();
    NewYearOffset(y);
    if y == 2021 {
      assert y == FirstYear + 121;
    } else if y == 2023 {
      assert y == FirstYear + 123;
    } else {
      assert y == FirstYear + 124;
    }
  }

  /** The solar side of the three new years: their offsets from 1900-01-31. */
  lemma FestivalSolarOffsets(d: Civil.Date)
    requires || d == Civil.Date(2021, 2, 12)
             || d == Civil.Date(2023, 1, 22)
             || d == Civil.Date(2024, 2, 10)
    ensures SolarOffset(d) == if d.year == 2021 then 44207 else if d.year == 2023 then 44916 else 45300
  {
  }

  /** Lunar new year (month 1, day 1) of 2021, 2023 and 2024 falls on 2021-02-12, 2023-01-22 and 2024-02-10. */
  lemma SpringFestivals(y: int, d: Civil.Date)
    requires || (y == 2021 && d == Civil.Date(2021, 2, 12))
             || (y == 2023 && d == Civil.Date(2023, 1, 22))
             || (y == 2024 && d == Civil.Date(2024, 2, 10))
    ensures ValidLunarDate(LunarDate(y, 1, 1, false))
    ensures ToOffset(LunarDate(y, 1, 1, false)) == SolarOffset(d)
  {
    FestivalLunarOffsets(y);
    FestivalSolarOffsets(d);
  }

  /** Day k + 1 of ordinary month m, as an offset. */
  lemma OrdinaryDayOffset(y: int, m: int, k: int)
    requires InTable(y) && 1 <= m <= 12 && 0 <= k < MonthDays(y, m)
    ensures ValidLunarDate(LunarDate(y, m, k + 1, false))
    ensures ToOffset(LunarDate(y, m, k + 1, false)) == DaysBeforeYear(y) + DaysBeforeMonth(LunarInfo(y), m) + k
  {
  }

  /** Day k + 1 of leap month m, as an offset: the ordinary month m comes first. */
  lemma LeapDayOffset(y: int, m: int, k: int)
    requires InTable(y) && 1 <= m <= 12 && LeapMonth(y) == m && 0 <= k < LeapDays(y)
    ensures ValidLunarDate(LunarDate(y, m, k + 1, true))
    ensures ToOffset(LunarDate(y, m, k + 1, true))
            == DaysBeforeYear(y) + DaysBeforeMonth(LunarInfo(y), m) + MonthDays(y, m) + k
  {
  }

  /** Month m's span in year y: its own days, then the leap month's when m is the leap month. */
  lemma MonthSpanOf(y: int, m: int)
    requires InTable(y) && 1 <= m <= 12
    ensures DaysBeforeMonth(LunarInfo(y), m + 1)
            == DaysBeforeMonth(LunarInfo(y), m) + MonthDays(y, m) + (if LeapMonth(y) == m then LeapDays(y) else 0)
  {
  }

  // ---------------------------------------------------------------------
  // The two conversions.

  /**
   * The month walk of SolarToLunar: take whole months (a leap month right
   * after its ordinary month) off an offset inside lunar year y until it
   * falls inside one; the result is that month, the day in it and whether
   * it is the leap month.
   */
  method LocateMonth(y: int, inYear: int) returns (m: int, day: int, isLeap: bool)
    requires InTable(y) && 0 <= inYear < YearDays(y)
    ensures ValidLunarDate(LunarDate(y, m, day, isLeap))
    ensures ToOffset(LunarDate(y, m, day, isLeap)) == DaysBeforeYear(y) + inYear
  {
    ghost var info := LunarInfo(y);
    YearIsItsMonths(info);
    assert inYear < DaysBeforeMonth(info, 13);
    var leap := LeapMonth(y);
    var offset := inYear;
    isLeap := false;
    m := 1;
    while m <= 12
      invariant 1 <= m <= 13
      invariant 0 <= offset && inYear == DaysBeforeMonth(info, m) + offset
    {
      MonthSpanOf(y, m);
      var md := MonthDays(y, m);
      if offset < md {
        OrdinaryDayOffset(y, m, offset);
        break;
      }
      offset := offset - md;
      if leap != 0 && m == leap {
        var ld := LeapDays(y);
        if offset < ld {
          isLeap := true;
          LeapDayOffset(y, m, offset);
          break;
        }
        offset := offset - ld;
      }
      m := m + 1;
    }
    day := offset + 1;
  }

  /**
   * The year walk of SolarToLunar: take whole lunar years off an offset from
   * 1900-01-31 until it falls inside one, or the table runs out.
   */
  method LocateYear(total: int) returns (y: int, offset: int)
    requires 0 <= total
    ensures FirstYear <= y <= LastYear + 1
    ensures 0 <= offset && total == DaysBeforeYear(y) + offset
    ensures y <= LastYear ==> offset < YearDays(y)
  {
    offset := total;
    y := 1900;
    while y <= 2099
      invariant FirstYear <= y <= LastYear + 1
      invariant 0 <= offset && total == DaysBeforeYear(y) + offset
    {
      var diy := LunarYearDays(y);
      if offset < diy {
        return;
      }
      offset := offset - diy;
      y := y + 1;
    }
  }

  /**
   * SolarToLunar: reject days outside 1900-01-31 .. 2099-12-31, then walk
   * whole lunar years and then months until the remaining offset falls
   * inside one.
   */
  method SolarToLunar(d: Civil.Date) returns (r: Result<LunarDate, LunarError>)
    requires Civil.ValidDate(d)
    ensures r.Ok? <==> 0 <= SolarOffset(d) <= LastSolarOffset
    ensures r.Err? ==> r.error == SolarOutOfRange
    ensures r.Ok? ==> ValidLunarDate(r.value) && ToOffset(r.value) == SolarOffset(d)
  {
    var total := SolarOffset(d);
    if total < 0 || total > LastSolarOffset {
      return Err(SolarOutOfRange);
    }
    var y, offset := LocateYear(total);
    if y > 2099 {
      // The table reaches past the last supported day, so this is never taken.
      TableCoversSolarRange();
      return Err(LunarYearOverflow);
    }
    var m, day, isLeap := LocateMonth(y, offset);
    r := Ok(LunarDate(y, m, day, isLeap));
  }

  /** The whole-year sum of LunarToSolar: days from 1900-01-31 to lunar new year `year`. */
  method SumYears(year: int) returns (offset: int)
    requires InTable(year)
    ensures offset == DaysBeforeYear(year)
  {
    offset := 0;
    var y := 1900;
    while y < year
      invariant FirstYear <= y <= year
      invariant offset == DaysBeforeYear(y)
    {
      var diy := LunarYearDays(y);
      offset := offset + diy;
      y := y + 1;
    }
  }

  /** The month sum of LunarToSolar: days of year y before its ordinary month `month`. */
  method SumMonths(y: int, month: int) returns (offset: int)
    requires InTable(y) && 1 <= month <= 12
    ensures offset == DaysBeforeMonth(LunarInfo(y), month)
  {
    var lm := LeapMonth(y);
    offset := 0;
    var m := 1;
    while m < month
      invariant 1 <= m <= month
      invariant offset == DaysBeforeMonth(LunarInfo(y), m)
    {
      MonthSpanOf(y, m);
      offset := offset + MonthDays(y, m);
      if lm != 0 && m == lm {
        offset := offset + LeapDays(y);
      }
      m := m + 1;
    }
  }

  /**
   * LunarToSolar: validate the year, month, leap flag and day, then add up the
   * whole years, the months before (with a leap month after its ordinary
   * month) and the day; the result is the solar day as an offset from 1900-01-31.
   */
  method LunarToSolar(d: LunarDate) returns (r: Result<int, LunarError>)
    ensures r.Ok? <==> ValidLunarDate(d)
    ensures r.Ok? ==> r.value == ToOffset(d)
    ensures !InTable(d.year) ==> r == Err(YearOutOfRange)
    ensures InTable(d.year) && !(1 <= d.month <= 12) ==> r == Err(MonthOutOfRange)
    ensures InTable(d.year) && 1 <= d.month <= 12 && d.isLeap && LeapMonth(d.year) != d.month
            ==> r == Err(NoSuchLeapMonth)
    ensures r.Err? && InTable(d.year) && 1 <= d.month <= 12
            && (!d.isLeap || LeapMonth(d.year) == d.month)
            ==> r.error == (if d.isLeap then LeapDayOutOfRange else DayOutOfRange)
  {
    if d.year < 1900 || d.year > 2099 {
      return Err(YearOutOfRange);
    }
    if d.month < 1 || d.month > 12 {
      return Err(MonthOutOfRange);
    }
    var lm := LeapMonth(d.year);
    if d.isLeap {
      if lm == 0 || lm != d.month {
        return Err(NoSuchLeapMonth);
      }
      if d.day < 1 || d.day > LeapDays(d.year) {
        return Err(LeapDayOutOfRange);
      }
    } else {
      if d.day < 1 || d.day > MonthDays(d.year, d.month) {
        return Err(DayOutOfRange);
      }
    }

    var offset := SumYears(d.year);
    var months := SumMonths(d.year, d.month);
    offset := offset + months;
    if d.isLeap {
      offset := offset + MonthDays(d.year, d.month);
    }
    offset := offset + d.day - 1;
    r := Ok(offset);
  }

  /** Solar day -> lunar date -> solar day is the identity on the supported range. */
  method SolarRoundTrip(d: Civil.Date) returns (back: Result<int, LunarError>)
    requires Civil.ValidDate(d) && 0 <= SolarOffset(d) <= LastSolarOffset
    ensures back == Ok(SolarOffset(d))
  {
    var ld := SolarToLunar(d);
    back := LunarToSolar(ld.value);
  }

  /**
   * Lunar date -> solar day -> lunar date is the identity on valid lunar dates
   * whose solar day SolarToLunar accepts; the later ones are refused.
   */
  method LunarRoundTrip(ld: LunarDate, d: Civil.Date) returns (back: Result<LunarDate, LunarError>)
    requires ValidLunarDate(ld) && Civil.ValidDate(d)
    requires SolarOffset(d) == ToOffset(ld)
    ensures back.Ok? <==> ToOffset(ld) <= LastSolarOffset
    ensures back.Ok? ==> back.value == ld
  {
    ToOffsetBounds(ld);
    back := SolarToLunar(d);
    if back.Ok? {
      ToOffsetInjective(back.value, ld);
    }
  }

  /** Without a leap twelfth month, the last day of month 12 is the last day of the year. */
  lemma YearEndOffset(y: int)
    requires InTable(y) && LeapMonth(y) != 12
    ensures ValidLunarDate(LunarDate(y, 12, MonthDays(y, 12), false))
    ensures ToOffset(LunarDate(y, 12, MonthDays(y, 12), false)) == DaysBeforeYear(y + 1) - 1
  {
    ghost var info := LunarInfo(y);
    YearIsItsMonths(info);
    assert DaysBeforeMonth(info, 13) == DaysBeforeMonth(info, 12) + MonthSpan(info, 12);
  }

  /** Lunar 2099 has no leap twelfth month and its twelfth month has 30 days. */
  lemma LastMonthOfTable()
    ensures LeapMonth(LastYear) != 12 && MonthDays(LastYear, 12) == 30
  {
    Row19();
    assert LunarInfo(LastYear) == 0xf252;
  }

  /**
   * The table's last lunar day, the 30th of the twelfth month of 2099, falls
   * 39 days after 2099-12-31, the last solar day SolarToLunar accepts.
   */
  lemma LastLunarDayBeyondSolarRange()
    ensures ValidLunarDate(LunarDate(LastYear, 12, 30, false))
    ensures ToOffset(LunarDate(LastYear, 12, 30, false)) == LastSolarOffset + 39
  {
    LastMonthOfTable();
    YearEndOffset(LastYear);
    TableCoversSolarRange();
  }
}
