// timeenv/lunar_convert.go as written measures days with time.Duration:
// SolarToLunar divides the time between two local midnights by 24 hours,
// and LunarToSolar adds offset * 24 hours to the base midnight. Both
// midnights are in the caller's zone, whose UTC offset on 1900-01-31 need
// not be its offset on the date converted (summer time, or a zone such as
// Asia/Shanghai that kept local mean time, +08:05:43, until 1901).
// Zone offsets are in seconds east of UTC.

module LunarClock {

  import opened Wrappers
  import opened GoStd
  import Civil
  import Lunar

  const SecondsPerDay: int := 86400

  /**
   * dayStart.Sub(base) / (24 * time.Hour): the local midnights `days`
   * civil days apart lie at zone offsets baseZone and dayZone, so the
   * Duration between them is short by the change of offset, and Go's
   * integer division truncates toward zero.
   */
  function ElapsedDays(days: int, baseZone: int, dayZone: int): (n: int)
    ensures baseZone == dayZone ==> n == days
  {
    var elapsed := days * SecondsPerDay - (dayZone - baseZone);
    assert baseZone == dayZone ==> GoQuo(elapsed, SecondsPerDay) == days by {
      if baseZone == dayZone && days < 0 {
        assert Abs(elapsed) == -days * SecondsPerDay;
      }
    }
    GoQuo(elapsed, SecondsPerDay)
  }

  /** A zone that is ahead of its 1900 offset, by less than a day, loses one day after the base day. */
  lemma ZoneAheadLosesADay(days: int, baseZone: int, dayZone: int)
    requires days >= 1 && 0 < dayZone - baseZone < SecondsPerDay
    ensures ElapsedDays(days, baseZone, dayZone) == days - 1
  {
    var elapsed := days * SecondsPerDay - (dayZone - baseZone);
    assert (days - 1) * SecondsPerDay < elapsed < days * SecondsPerDay;
  }

  /** A zone that is behind its 1900 offset, by less than a day, counts whole days exactly. */
  lemma ZoneBehindCountsDays(days: int, baseZone: int, dayZone: int)
    requires days >= 0 && -SecondsPerDay < dayZone - baseZone <= 0
    ensures ElapsedDays(days, baseZone, dayZone) == days
  {
    var elapsed := days * SecondsPerDay - (dayZone - baseZone);
    assert days * SecondsPerDay <= elapsed < (days + 1) * SecondsPerDay;
  }

  /**
   * SolarToLunar as written, with the zone offsets of the base midnight
   * and of the date's midnight: the range check on civil days, then the
   * year and month walks from the Duration-based offset.
   */
  method SolarToLunarInZone(d: Civil.Date, baseZone: int, dayZone: int) returns (r: Result<Lunar.LunarDate, Lunar.LunarError>)
    requires Civil.ValidDate(d) && -SecondsPerDay < dayZone - baseZone < SecondsPerDay
    ensures r.Ok? <==> 0 <= Lunar.SolarOffset(d) <= Lunar.LastSolarOffset
    ensures r.Err? ==> r.error == Lunar.SolarOutOfRange
    ensures r.Ok? ==> Lunar.ValidLunarDate(r.value)
    ensures r.Ok? ==> Lunar.ToOffset(r.value) == ElapsedDays(Lunar.SolarOffset(d), baseZone, dayZone)
  {
    var total := Lunar.SolarOffset(d);
    if total < 0 || total > Lunar.LastSolarOffset {
      return Err(Lunar.SolarOutOfRange);
    }
    var offset := ElapsedDays(total, baseZone, dayZone);
    if dayZone - baseZone > 0 {
      if total >= 1 {
        ZoneAheadLosesADay(total, baseZone, dayZone);
      } else {
        assert offset == 0;
      }
    } else {
      ZoneBehindCountsDays(total, baseZone, dayZone);
    }
    var y, inYear := Lunar.LocateYear(offset);
    if y > Lunar.LastYear {
      // The table reaches past the last supported day, so this is never taken.
      Lunar.TableCoversSolarRange();
      return Err(Lunar.LunarYearOverflow);
    }
    var m, day, isLeap := Lunar.LocateMonth(y, inYear);
    r := Ok(Lunar.LunarDate(y, m, day, isLeap));
  }

  /**
   * In a zone whose offset on the date is ahead of its offset on
   * 1900-01-31 (summer time, say New York in July against EST in 1900),
   * the written SolarToLunar gives the lunar date of the day before:
   * the one Lunar.SolarToLunar gives for the previous civil day.
   */
  method SummerDayReadsAsDayBefore(d: Civil.Date, baseZone: int, dayZone: int) returns (r: Result<Lunar.LunarDate, Lunar.LunarError>)
    requires Civil.ValidDate(d) && 1 <= Lunar.SolarOffset(d) <= Lunar.LastSolarOffset
    requires 0 < dayZone - baseZone < SecondsPerDay
    ensures r.Ok? && Lunar.ValidLunarDate(r.value) && Lunar.ToOffset(r.value) == Lunar.SolarOffset(d) - 1
  {
    r := SolarToLunarInZone(d, baseZone, dayZone);
    ZoneAheadLosesADay(Lunar.SolarOffset(d), baseZone, dayZone);
  }

  /**
   * base.Add(offset * 24h) read on the local clock: the civil day (counted
   * from 1900-01-31) and the second of that day, when the zone's offset
   * at the result is resultZone.
   */
  function LocalClock(offset: int, baseZone: int, resultZone: int): (r: (int, int))
    ensures 0 <= r.1 < SecondsPerDay
    ensures r.0 * SecondsPerDay + r.1 == offset * SecondsPerDay + (resultZone - baseZone)
  {
    var local := offset * SecondsPerDay + (resultZone - baseZone);
    (local / SecondsPerDay, local % SecondsPerDay)
  }

  /** In the base's own zone offset, LunarToSolar's instant is midnight of day `offset`, as Lunar.LunarToSolar counts. */
  lemma SameZoneIsMidnight(offset: int, zone: int)
    ensures LocalClock(offset, zone, zone) == (offset, 0)
  {
    var r := LocalClock(offset, zone, zone);
    assert (r.0 - offset) * SecondsPerDay == -r.1;
  }

  /**
   * Where the zone's offset has fallen since 1900 (Asia/Shanghai: from
   * +08:05:43 to +08:00, 343 seconds), the written LunarToSolar lands on
   * the evening of the day before: 23:54:17 for Shanghai.
   */
  lemma ZoneBehindEndsDayBefore(offset: int, baseZone: int, resultZone: int)
    requires 0 < baseZone - resultZone < SecondsPerDay
    ensures LocalClock(offset, baseZone, resultZone) == (offset - 1, SecondsPerDay - (baseZone - resultZone))
    ensures baseZone - resultZone == 343 ==> LocalClock(offset, baseZone, resultZone).1 == 23 * 3600 + 54 * 60 + 17
  {
    var r := LocalClock(offset, baseZone, resultZone);
    var k := (offset - 1) * SecondsPerDay + (SecondsPerDay - (baseZone - resultZone));
    assert r.0 * SecondsPerDay + r.1 == k;
    assert r.0 == offset - 1 by {
      assert (offset - 1) * SecondsPerDay <= k < offset * SecondsPerDay;
    }
  }
}
