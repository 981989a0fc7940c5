# go_utils core, modelled in Dafny

This project models the deterministic core of the Go utility library
`go_utils` and proves what its functions promise. Each Go package becomes
one or more Dafny modules. All files are verified together.

- **timeenv**
  - `lunar.dfy` models the lunar calendar table and the solar ⇄ lunar
    conversions (`SolarToLunar`, `LunarToSolar`), counted in whole civil
    days from 1900-01-31. It proves both round trips.
  - `lunar_clock.dfy` models the same conversions as written. They measure
    days with `time.Duration` in the caller's time zone.
  - `time_ext.dfy` models month arithmetic with day clamping, quarter and
    week boundaries, weekday stepping, `IsSameDay` and `IsWeekend`. Times
    are civil dates plus a clock; `civil.dfy` holds the proleptic Gregorian
    calendar and `time.Date`'s normalisation.
- **numberchinese**
  - Integers, floats and RMB amounts are written as Chinese numerals:
    `numberchinese_base`, `_int`, `_float` and `_rmb`.
  - `numeral_reader.dfy` reads the text back. The value round trips are
    proved over it.
  - `numberchinese_samples.dfy` pins the exact text of the package's own
    examples.
  - The model follows the code and its tests. For example, 11 is "十零一"
    and 123 as an amount is "壹百零贰十叁元". The doc comment of
    `ToChineseRMBUpper` shows "壹佰贰拾叁元" instead, which the code does
    not produce.
- **iniutil**
  - `iniutil.dfy` models the `Config` class: its getters and setters,
    `Merge`, `LoadFromReader` and `SaveToWriter`. It proves that saving and
    loading again gives back the same data.
  - `iniadvanced.dfy` models `LoadFromReaderWithOptions` and its options
    (colon separator, inline comments, multiline values, duplicate keys,
    includes). It also models `Interpolate` and `resolveValue`, including
    the depth limit.
- **validate**: the check-digit validators `IsChineseIDCard` (ISO 7064
  MOD 11-2) and `IsUnifiedSocialCreditCode` (mod 31). Each is proved
  against its check-code equation, together with the test vectors.
- **convert**
  - The numeric, bool and string conversions over a model of Go's
    `interface{}` values: `convert_base`, `convert_numeric`,
    `convert_bool` and `convert_string`.
  - Base conversion, with round trips through `strconv`: `base_convert.dfy`
    and `strconv.dfy`.
  - Slice deduplication (`array_unique.dfy`), slice and map conversion
    (`array_map_convert.dfy`), and the struct ⇄ map conversion
    (`struct_map_convert.dfy`), whose struct is a class of mutable cells.
- **collections, kvcache, strutil**
  - The generic collection helpers (`collections.dfy`).
  - The key-value cache as a class over a map (`kvcache.dfy`).
  - The string helpers named in the model table (`strutil.dfy`).
- **captcha**
  - `GenerateCodeString`, `BuildAlphabet` and the input checks of
    `GenerateDigitCodeImagePNG`.
  - `fillRect` and `drawDigit7Seg` on an image class over a pixel array.
  - `maxInt` and `absInt`.
- **cryptorand**: `RandomInt`, `RandomString` and the `UUIDv4` layout.
  The random source is a parameter, so every property is stated for all
  random draws. It proves that the UUID text reads back to its stamped
  bytes.

Shared modules: `gostd.dfy` (Go's truncating division, `strconv.Atoi`,
`strings` helpers), `gosort.dfy` (`sort.Strings`), `maps.dfy`, `seqs.dfy`,
`ascii.dfy` and `wrappers.dfy`.

Randomness, clocks and file or stream I/O are parameters of the model.
They are listed below.

## Model

| member | source | states |
|---|---|---|
| Lunar.MonthMask | timeenv/lunar_convert.go:222-224 | the mask `0x10000 >> m` selecting month m's length bit is at least 0x8, the stop value of lunarYearDays's loop |
| Lunar.MonthMaskStep | timeenv/lunar_convert.go:188 | `i >>= 1` moves the mask from month m to month m + 1, and 0x8 is reached exactly after month 12 |
| Lunar.EntryLeapMonth | timeenv/lunar_convert.go:214-216 | the low four bits of an entry name the leap month, 0..15 |
| Lunar.EntryLeapDays | timeenv/lunar_convert.go:200-208 | the leap month has 0 days exactly when there is none, otherwise 30 days iff bit 0x10000 is set and 29 iff it is clear |
| Lunar.EntryMonthDays | timeenv/lunar_convert.go:223-228 | an ordinary month has 29 or 30 days, 30 exactly when its bit `0x10000 >> m` is set |
| Lunar.BigMonthsThrough | timeenv/lunar_convert.go:188-192 | the number of 30-day months among months 1..k lies in 0..k |
| Lunar.Bit | timeenv/lunar_convert.go:189 | the test `info & mask != 0` as 1 or 0, 1 exactly when the bit is set |
| Lunar.EntryYearDays | timeenv/lunar_convert.go:185-194 | a lunar year has between 348 and 390 days |
| Lunar.YearDaysByBits | timeenv/lunar_convert.go:186-193 | the year length is 348 plus one for each of the twelve bits 0x8000..0x10 that is set, plus the leap-month days |
| Lunar.MonthSpan | timeenv/lunar_convert.go:59-72 | a month together with the leap month after it spans 29..60 days |
| Lunar.DaysBeforeMonth | timeenv/lunar_convert.go:115-120 | the days of a year before ordinary month m are at least 29 per month passed |
| Lunar.DaysBeforeMonthClosedForm | timeenv/lunar_convert.go:115-120 | the days before month m are 29 per month, one per 30-day month, plus the leap month once it is passed |
| Lunar.YearIsItsMonths | timeenv/lunar_convert.go:185-194 | the twelve months and the leap month add up to lunarYearDays |
| Lunar.MonthStartsIncrease | timeenv/lunar_convert.go:115-120 | a later month starts after the whole earlier month (with its leap month) ends |
| Lunar.LookupWellFormed | timeenv/lunar_convert.go:138-179 | every entry of a well-formed table is below 0x20000 and names a leap month in 0..12 |
| Lunar.TableWellFormed | timeenv/lunar_convert.go:138-179 | the 200-entry table is well formed |
| Lunar.LunarInfo | timeenv/lunar_convert.go:138-179 | `lunarInfo[y - 1900]` for 1900..2099 is a well-formed entry |
| Lunar.LeapMonth | timeenv/lunar_convert.go:214-216 | leapMonth(y) lies in 0..12 |
| Lunar.LeapDays | timeenv/lunar_convert.go:200-208 | leapDays(y) is 0 exactly when leapMonth(y) is 0 |
| Lunar.MonthDays | timeenv/lunar_convert.go:223-228 | monthDays(y, m) is 29 or 30 |
| Lunar.YearDays | timeenv/lunar_convert.go:185-194 | lunarYearDays(y) lies in 348..390 |
| Lunar.LunarYearDays | timeenv/lunar_convert.go:185-194 | the loop over the masks 0x8000 down to 0x10 returns the year length of the table entry |
| Lunar.DaysBeforeYear | timeenv/lunar_convert.go:111-113 | the days from lunar new year 1900 to lunar new year y are never negative |
| Lunar.YearStartsIncrease | timeenv/lunar_convert.go:111-113 | a later lunar year starts after the whole earlier year ends |
| Lunar.OffsetInsideYear | timeenv/lunar_convert.go:109-126 | a valid lunar date's day count lies inside its month span and inside its year |
| Lunar.ToOffsetBounds | timeenv/lunar_convert.go:109-126 | every valid lunar date of 1900..2099 counts to a day inside the table |
| Lunar.ToOffsetOrder | timeenv/lunar_convert.go:109-126 | the order of (year, month, leap after ordinary, day) is the order of the solar days |
| Lunar.ToOffsetInjective | timeenv/lunar_convert.go:109-126 | two valid lunar dates give the same solar day if and only if they are equal |
| Lunar.LeapMonthFollowsOrdinary | timeenv/lunar_convert.go:121-124 | the first day of a leap month comes right after the whole ordinary month of the same number |
| Lunar.LastSolarOffsetValue | timeenv/lunar_convert.go:33 | 2099-12-31, the last day accepted, is 73018 days after 1900-01-31 |
| Lunar.Row0 | timeenv/lunar_convert.go:140 | the table entries of lunar years 1900..1909 |
| Lunar.Row1 | timeenv/lunar_convert.go:142 | the table entries of lunar years 1910..1919 |
| Lunar.Row2 | timeenv/lunar_convert.go:144 | the table entries of lunar years 1920..1929 |
| Lunar.Row3 | timeenv/lunar_convert.go:146 | the table entries of lunar years 1930..1939 |
| Lunar.Row4 | timeenv/lunar_convert.go:148 | the table entries of lunar years 1940..1949 |
| Lunar.Row5 | timeenv/lunar_convert.go:150 | the table entries of lunar years 1950..1959 |
| Lunar.Row6 | timeenv/lunar_convert.go:152 | the table entries of lunar years 1960..1969 |
| Lunar.Row7 | timeenv/lunar_convert.go:154 | the table entries of lunar years 1970..1979 |
| Lunar.Row8 | timeenv/lunar_convert.go:156 | the table entries of lunar years 1980..1989 |
| Lunar.Row9 | timeenv/lunar_convert.go:158 | the table entries of lunar years 1990..1999 |
| Lunar.Row10 | timeenv/lunar_convert.go:160 | the table entries of lunar years 2000..2009 |
| Lunar.Row11 | timeenv/lunar_convert.go:162 | the table entries of lunar years 2010..2019 |
| Lunar.Row12 | timeenv/lunar_convert.go:164 | the table entries of lunar years 2020..2029 |
| Lunar.Row13 | timeenv/lunar_convert.go:166 | the table entries of lunar years 2030..2039 |
| Lunar.Row14 | timeenv/lunar_convert.go:168 | the table entries of lunar years 2040..2049 |
| Lunar.Row15 | timeenv/lunar_convert.go:170 | the table entries of lunar years 2050..2059 |
| Lunar.Row16 | timeenv/lunar_convert.go:172 | the table entries of lunar years 2060..2069 |
| Lunar.Row17 | timeenv/lunar_convert.go:174 | the table entries of lunar years 2070..2079 |
| Lunar.Row18 | timeenv/lunar_convert.go:176 | the table entries of lunar years 2080..2089 |
| Lunar.Row19 | timeenv/lunar_convert.go:178 | the table entries of lunar years 2090..2099 |
| Lunar.TableCoversSolarRange | timeenv/lunar_convert.go:50-52 | lunar year 2100 would start 40 days after 2099-12-31, so the "year out of range" error after the year walk is never reached |
| Lunar.NewYearOffset | timeenv/lunar_convert.go:109-126 | month 1, day 1 of a lunar year is valid and is the first day of that year |
| Lunar.FestivalLunarOffsets | timeenv/timeenv_test.go:106-111 | lunar new year of 2021, 2023 and 2024 counts to days 44207, 44916 and 45300 after 1900-01-31 |
| Lunar.FestivalSolarOffsets | timeenv/timeenv_test.go:106-111 | 2021-02-12, 2023-01-22 and 2024-02-10 are days 44207, 44916 and 45300 after 1900-01-31 |
| Lunar.SpringFestivals | timeenv/timeenv_test.go:106-120 | lunar new year of 2021, 2023 and 2024 falls on 2021-02-12, 2023-01-22 and 2024-02-10 |
| Lunar.OrdinaryDayOffset | timeenv/lunar_convert.go:115-126 | day k + 1 of ordinary month m is valid and lies k days after the month's start |
| Lunar.LeapDayOffset | timeenv/lunar_convert.go:121-126 | day k + 1 of the leap month lies after the whole ordinary month of the same number |
| Lunar.MonthSpanOf | timeenv/lunar_convert.go:115-120 | the next month starts after month m's own days and, when m is the leap month, the leap month's days |
| Lunar.LocateMonth | timeenv/lunar_convert.go:54-76 | the month walk ends on a valid lunar date (month, day, leap flag) whose day count is the offset inside the year |
| Lunar.LocateYear | timeenv/lunar_convert.go:40-49 | the year walk ends on a year in 1900..2100 and a remainder that, with the days of the years walked, is the whole offset and lies inside the year found |
| Lunar.SolarToLunar | timeenv/lunar_convert.go:28-77 | succeeds exactly for days 1900-01-31..2099-12-31 (else the range error), and then returns the valid lunar date that counts to that very day |
| Lunar.SumYears | timeenv/lunar_convert.go:109-113 | the whole-year loop sums the days from lunar new year 1900 to lunar new year `year` |
| Lunar.SumMonths | timeenv/lunar_convert.go:114-120 | the month loop sums the days of the year before ordinary month `month`, leap month included once passed |
| Lunar.LunarToSolar | timeenv/lunar_convert.go:84-130 | succeeds exactly for valid lunar dates and then returns their solar day; otherwise the year, month, missing-leap-month, leap-day or day error in the order the checks run |
| Lunar.SolarRoundTrip | timeenv/lunar_convert.go:28-130 | solar day to lunar date and back is the identity on 1900-01-31..2099-12-31 |
| Lunar.LunarRoundTrip | timeenv/lunar_convert.go:28-130 | lunar date to solar day and back is the identity exactly when the solar day is at most 2099-12-31 |
| Lunar.YearEndOffset | timeenv/lunar_convert.go:115-126 | without a leap twelfth month, the last day of month 12 is the day before the next lunar new year |
| Lunar.LastMonthOfTable | timeenv/lunar_convert.go:178 | lunar 2099 has no leap twelfth month and its twelfth month has 30 days |
| Lunar.LastLunarDayBeyondSolarRange | timeenv/lunar_convert.go:33 | the table's last lunar day (2099, month 12, day 30) falls 39 days after 2099-12-31, so it converts to solar but not back |
| LunarClock.ElapsedDays | timeenv/lunar_convert.go:38 | `dayStart.Sub(base) / 24h` with both midnights in one zone counts civil days exactly when the zone's offset is the same at both |
| LunarClock.ZoneAheadLosesADay | timeenv/lunar_convert.go:38 | when the zone's offset on the date is ahead of its 1900 offset by less than a day, the truncating division counts one day too few |
| LunarClock.ZoneBehindCountsDays | timeenv/lunar_convert.go:38 | when the offset is behind by less than a day, the count is still the number of civil days |
| LunarClock.SolarToLunarInZone | timeenv/lunar_convert.go:28-77 | as written: the range check by civil day, then the walks from the Duration-based count; the result is the lunar date of that count |
| LunarClock.SummerDayReadsAsDayBefore | timeenv/lunar_convert.go:28-77 | as written, in a zone ahead of its 1900 offset, every day after 1900-01-31 converts to the lunar date of the previous solar day |
| LunarClock.LocalClock | timeenv/lunar_convert.go:129 | `base.Add(offset * 24h)` read on the local clock: a civil day and a second of the day in 0..86399 for the same instant |
| LunarClock.SameZoneIsMidnight | timeenv/lunar_convert.go:129 | with the zone's 1900 offset unchanged, the result is midnight of the counted day |
| LunarClock.ZoneBehindEndsDayBefore | timeenv/lunar_convert.go:129 | when the offset has fallen since 1900, the result is the evening of the day before (23:54:17 for a 343-second fall) |
| TimeExt.DaysInMonth | timeenv/time_ext_util.go:248-251 | `time.Date(year, month+1, 0)` gives 28..31, the length of the (normalised) month |
| TimeExt.AddMonths | timeenv/time_ext_util.go:139-150 | moves exactly `months` months, clamps the day to the target month's length, keeps the time of day |
| TimeExt.AddMonthsIsFloorArithmetic | timeenv/time_ext_util.go:143-149 | the truncating `/` and `%` followed by time.Date's normalisation agree with floor-division month arithmetic for every sign of `months` |
| TimeExt.AddMonthsCompose | timeenv/time_ext_util.go:139-150 | adding a and then b months is adding a + b months when the day is at most 28 |
| TimeExt.AddMonthFromJanuaryEnd | timeenv/time_ext_util.go:146-147 | January 31 plus one month clamps to the last day of February of the same year |
| TimeExt.SubtractMonthFromMarchEnd | timeenv/time_ext_util.go:146-147 | March 31 minus one month clamps to the last day of February |
| TimeExt.AddMonthsIntoLeapFebruary | timeenv/timeenv_test.go:58-61 | 2024-01-31 plus one month is 2024-02-29 |
| TimeExt.AddMonthsIntoFebruary | timeenv/timeenv_test.go:62-65 | 2023-01-31 plus one month is 2023-02-28 |
| TimeExt.SubtractMonthKeepsClock | timeenv/time_ext_util.go:139-150 | 2024-03-31 12:30 minus one month is 2024-02-29 12:30 |
| TimeExt.SubtractMonthAcrossYear | timeenv/time_ext_util.go:143-145 | 2023-01-31 minus one month is 2022-12-31: a negative total moves into the previous year |
| TimeExt.StartOfQuarter | timeenv/time_ext_util.go:74-81 | midnight of day 1 of month 1, 4, 7 or 10 of the same year, the quarter containing t's month |
| TimeExt.StartOfWeek | timeenv/time_ext_util.go:12-18 | a day with the first weekday, 0..6 days before t's day |
| TimeExt.StartOfWeekLatest | timeenv/time_ext_util.go:12-18 | no later day on or before t's day has the first weekday |
| TimeExt.EndOfWeek | timeenv/time_ext_util.go:25-28 | the last nanosecond of the sixth day after StartOfWeek, one nanosecond before the next week's start |
| TimeExt.NextWeekday | timeenv/time_ext_util.go:199-206 | a day with the target weekday 1..7 days after t's day, exactly 7 when t's day already has it |
| TimeExt.NextWeekdayEarliest | timeenv/time_ext_util.go:199-206 | no day strictly between t's day and the result has the target weekday |
| TimeExt.IsSameDay | timeenv/time_ext_util.go:179-183 | true exactly when both times fall on the same local day |
| TimeExt.IsWeekend | timeenv/time_ext_util.go:189-192 | true exactly when t's weekday is Saturday or Sunday |
| TimeExt.WeekendClosesMondayWeek | timeenv/time_ext_util.go:12-18 | the weekend is days 5 and 6 of a week that starts on Monday |
| TimeExt.LastDay | timeenv/time_ext_util.go:248-251 | the valid date that closes the month: its day is the month's length |
| TimeExt.NextMonthFollows | timeenv/time_ext_util.go:44-48 | the first day of the next month, in the next year after December, is the day after the month's last day |
| TimeExt.MonthsFromFirst | timeenv/time_ext_util.go:44-48 | k months after a month's first midnight, within the year, is the midnight that ends the k-th month |
| TimeExt.StartOfMonth | timeenv/time_ext_util.go:34-38 | midnight of day 1 of t's year and month; t lies less than a month's length after it |
| TimeExt.EndOfMonth | timeenv/time_ext_util.go:44-48 | the last nanosecond of the month's last day, not before t |
| TimeExt.StartOfYear | timeenv/time_ext_util.go:54-58 | midnight of January 1st of t's year; t lies less than a year's length after it |
| TimeExt.EndOfYear | timeenv/time_ext_util.go:64-68 | the last nanosecond of December 31st of t's year, not before t |
| TimeExt.EndOfQuarter | timeenv/time_ext_util.go:87-91 | the last nanosecond of the last day of the quarter's third month, not before t |
| TimeExt.GetWeekRange | timeenv/time_ext_util.go:98-102 | the pair is (StartOfWeek, EndOfWeek) of t; the range spans exactly seven days; for a weekday in 0..6 it holds t and starts on that weekday |
| TimeExt.GetMonthRange | timeenv/time_ext_util.go:108-112 | the pair is (StartOfMonth, EndOfMonth) of t; it holds t and spans exactly the days of t's month |
| TimeExt.GetQuarterRange | timeenv/time_ext_util.go:118-122 | the pair is (StartOfQuarter, EndOfQuarter) of t; it holds t, starts at a midnight and ends on a day's last nanosecond |
| TimeExt.GetYearRange | timeenv/time_ext_util.go:128-132 | the pair is (StartOfYear, EndOfYear) of t; it holds t and spans exactly the days of t's year |
| TimeExt.DurationLimits | timeenv/time_ext_util.go:160-161 | the largest and smallest Duration hold 106751 whole days and 2562047 whole hours |
| TimeExt.WholeDaysQuotient | timeenv/time_ext_util.go:159-161 | a day count times 24 hours, saturated by Sub and divided by 24 hours, is the count itself within 106751 days and 106751 with its sign beyond |
| TimeExt.DiffDays | timeenv/time_ext_util.go:157-162 | the signed number of days from a's local day to b's while it is within 106751; beyond, Sub saturates and the result is 106751 with the sign of the difference |
| TimeExt.DiffDaysChain | timeenv/time_ext_util.go:157-162 | differences add along a chain when each is within 106751 days, and are zero exactly for the same day |
| TimeExt.DiffDaysSaturates | timeenv/time_ext_util.go:157-162 | from 1700-01-01 to 2000-01-01, 109572 days apart, the result is 106751, and -106751 the other way |
| TimeExt.HoursQuotient | timeenv/time_ext_util.go:170-171 | a Duration saturated by Sub and divided by an hour: at most 2562047 in size, truncated toward zero within int64, 2562047 with its sign beyond |
| TimeExt.DiffHours | timeenv/time_ext_util.go:169-172 | whole hours between the instants, truncated toward zero, with the sign of b - a; at most 2562047, the saturated value once the difference leaves int64 |
| TimeExt.DiffHoursAntisymmetric | timeenv/time_ext_util.go:169-172 | swapping the arguments negates the result |
| TimeExt.TruncateToHour | timeenv/time_ext_util.go:212-216 | the same day, the clock cut back to the start of its hour |
| TimeExt.TruncateToHourIdempotent | timeenv/time_ext_util.go:212-216 | truncating twice is truncating once |
| NumberChineseBase.LowerDigitTable | numberchinese/number_chinese_base.go:11 | the lower-case digits 零..九 are ten distinct runes that a reader can map back to 0..9 |
| NumberChineseBase.UpperDigitTable | numberchinese/number_chinese_base.go:13 | the financial digits 零..玖 are ten distinct runes that a reader can map back to 0..9 |
| NumberChineseBase.SmallUnitsValues | numberchinese/number_chinese_base.go:15 | 千, 百 and 十 are single unit runes worth 1000, 100 and 10, and the ones place has no unit |
| NumberChineseBase.BigUnitsValues | numberchinese/number_chinese_base.go:17 | 万, 亿, 兆, 京 and 垓 are single unit runes worth 10000 to the powers 1..5, and group 0 has no unit |
| NumberChineseBase.IndexByte | numberchinese/number_chinese_base.go:38-45 | the index of the first b in s, or -1 exactly when s has no b |
| NumberChineseBase.AllZero | numberchinese/number_chinese_base.go:51-61 | true exactly when every character is '0', so also for the empty string |
| NumberChineseBase.ConcatAppend | numberchinese/number_chinese_base.go:67-73 | joining two lists of parts is joining each list and concatenating the results |
| NumberChineseBase.ConcatLength | numberchinese/number_chinese_base.go:68-69 | the joined text is as long as the parts together |
| NumberChineseBase.JoinStrings | numberchinese/number_chinese_base.go:67-73 | the result is the parts one after the other, of the length counted first |
| NumberChineseFloat.ParseUintValue | numberchinese/number_chinese_float.go:26 | `strconv.ParseUint(intPart, 10, 64)` with the error dropped: the decimal value when it fits in 64 bits, the largest uint64 on overflow, 0 for any other text |
| NumberChineseFloat.IntPart | numberchinese/number_chinese_float.go:19-25 | with fraction digits asked for and a '.' present, the text before the first '.', which with '.' and the fraction part rebuilds the text; otherwise the whole text |
| NumberChineseFloat.FractionText | numberchinese/number_chinese_float.go:30-33 | one table digit per fraction digit, in order |
| NumberChineseFloat.PointRead | numberchinese/number_chinese_float.go:29 | reading "点" closes the integer part and starts the fraction |
| NumberChineseFloat.FractionRead | numberchinese/number_chinese_float.go:30-33 | reading the fraction digits back gives their decimal value and their count |
| NumberChineseFloat.UnsignedFloatRead | numberchinese/number_chinese_float.go:26-34 | the integer part, "点" and the fraction read back as the integer value, whether a fraction was written, and its digits |
| NumberChineseFloat.FloatTextReads | numberchinese/number_chinese_float.go:14-67 | reading back either float writer's text gives the sign, the integer part, and the fraction digits exactly when some fraction digit is not zero |
| NumberChineseFloat.SplitFixed | numberchinese/number_chinese_float.go:19-25 | the integer and fraction parts split at the first '.' only when fraction digits were asked for |
| NumberChineseFloat.AppendFraction | numberchinese/number_chinese_float.go:30-33 | the loop appends the table digit of each fraction digit to the output |
| NumberChineseFloat.FloatToChinese | numberchinese/number_chinese_float.go:15-36 | the shared body writes the float text: "负" for negatives, the integer, then "点" and the digits unless the fraction is all zeros |
| NumberChineseFloat.ToChineseLowerFloat | numberchinese/number_chinese_float.go:14-37 | the float text with lower-case digits and "一" dropped before "十" |
| NumberChineseFloat.ToChineseUpperFloat | numberchinese/number_chinese_float.go:44-67 | the float text with financial digits and "壹十" kept |
| NumberChineseFloat.NumberText | numberchinese/number_chinese_float.go:74-103 | the type switch fails exactly for a value that is not an integer or a float |
| NumberChineseFloat.ToChineseLowerNumber | numberchinese/number_chinese_float.go:74-103 | ints through ToChineseLowerInt, uints through integerToChinese, floats through ToChineseLowerFloat, anything else ErrUnsupportedNumberType |
| NumberChineseFloat.ToChineseUpperNumber | numberchinese/number_chinese_float.go:110-139 | the same switch with the upper-case writers |
| NumberChineseFloat.NumberTextReads | numberchinese/number_chinese_float.go:74-139 | whatever the generic entry points write reads back as the signed value, the unsigned value, or the float's sign, integer part and fraction digits |
| NumberChineseRmb.Jiao | numberchinese/number_chinese_rmb.go:41 | 角 is the first fraction digit, 0 when there is none |
| NumberChineseRmb.Fen | numberchinese/number_chinese_rmb.go:42 | 分 is the second fraction digit, 0 when there is none |
| NumberChineseRmb.CentsText | numberchinese/number_chinese_rmb.go:45-59 | what follows "元" is never empty and ends in "分" when 分 is non-zero, else "角" when 角 is non-zero, else "整" |
| NumberChineseRmb.AmountTextShape | numberchinese/number_chinese_rmb.go:36-37 | the text starts with "负" for negatives, then the integer part in financial digits, then "元" |
| NumberChineseRmb.AmountTextEnd | numberchinese/number_chinese_rmb.go:45-59 | the text ends in "整" exactly when 角 and 分 are both zero |
| NumberChineseRmb.TextShape | numberchinese/number_chinese_rmb.go:36-62 | where sign, integer part, "元" and cents sit in the text |
| NumberChineseRmb.AmountTextSplit | numberchinese/number_chinese_rmb.go:36-62 | the text is the sign, the integer part, "元" and the cents, in that order |
| NumberChineseRmb.LoneFen | numberchinese/number_chinese_rmb.go:52-58 | a 分 without 角 is written "零", its digit, "分" |
| NumberChineseRmb.JiaoRead | numberchinese/number_chinese_rmb.go:48-51 | reading the 角 part adds ten fen per 角 |
| NumberChineseRmb.FenRead | numberchinese/number_chinese_rmb.go:52-58 | reading the 分 part adds one fen per 分, the "零" before it adding nothing |
| NumberChineseRmb.CentsRead | numberchinese/number_chinese_rmb.go:45-59 | the cents read back as ten fen per 角 plus one per 分 |
| NumberChineseRmb.YuanRead | numberchinese/number_chinese_rmb.go:37 | "元" closes the integer part, counted in fen |
| NumberChineseRmb.AmountTextReads | numberchinese/number_chinese_rmb.go:16-64 | an amount's text reads back as its sign and its value in fen |
| NumberChineseRmb.AmountReads | numberchinese/number_chinese_rmb.go:16-64 | the same for any digit table |
| NumberChineseRmb.RmbTextReads | numberchinese/number_chinese_rmb.go:16-64 | ToChineseRMBUpper's text reads back as the sign and the two-decimal amount in fen |
| NumberChineseRmb.CentsParts | numberchinese/number_chinese_rmb.go:40-59 | the parts appended after "元" join to the cents text |
| NumberChineseRmb.ConcatOne | numberchinese/number_chinese_rmb.go:61 | joining one part gives that part |
| NumberChineseRmb.ConcatTwo | numberchinese/number_chinese_rmb.go:61 | joining two parts concatenates them |
| NumberChineseRmb.FenPartsJoin | numberchinese/number_chinese_rmb.go:52-58 | the 分 parts ("零" only without 角) join to the 分 text |
| NumberChineseRmb.ToChineseRMBUpper | numberchinese/number_chinese_rmb.go:16-64 | from the formatted text on: split at '.', integer part, "元", then "整" or the 角/分 parts, "负" in front for negatives |
| NumberChineseRmb.MoneyText | numberchinese/number_chinese_rmb.go:70-99 | the type switch fails exactly for a value that is not an integer or a float |
| NumberChineseRmb.ToChineseRMBUpperNumber | numberchinese/number_chinese_rmb.go:70-99 | integers become whole 元 ("…元整"), floats go through their two-decimal text, anything else ErrUnsupportedNumberType |
| NumberChineseRmb.WholeAmount | numberchinese/number_chinese_rmb.go:45-46 | a whole amount is written as its integer, "元" and "整" |
| NumberChineseRmb.MoneyTextReads | numberchinese/number_chinese_rmb.go:70-99 | whatever ToChineseRMBUpperNumber writes reads back as the amount in fen with its sign |
| NumberChineseInt.Places | numberchinese/number_chinese_int.go:15 | the thousands, hundreds, tens and units of a group are four decimal digits |
| NumberChineseInt.GroupDigits | numberchinese/number_chinese_int.go:15 | the four places, weighted 1000, 100, 10 and 1, make up the group |
| NumberChineseInt.HighestPlace | numberchinese/number_chinese_int.go:18-21 | the first non-zero place: every place before it is zero and it is not, or 4 when all are zero |
| NumberChineseInt.HighestPlaceOfZero | numberchinese/number_chinese_int.go:12-14 | a group has no non-zero place exactly when it is 0 |
| NumberChineseInt.ZeroPlaceStep | numberchinese/number_chinese_int.go:24-27 | a zero place writes nothing and only sets prevZero |
| NumberChineseInt.PlaceStep | numberchinese/number_chinese_int.go:28-36 | a non-zero place writes its text, after which prevZero is cleared only if a "零" was written |
| NumberChineseInt.PlaceTextNonEmpty | numberchinese/number_chinese_int.go:33-36 | a non-zero place always writes something (its unit or its digit) |
| NumberChineseInt.AppendPlace | numberchinese/number_chinese_int.go:28-36 | one round of the digit loop appends "零" when prevZero is set and something was written, the digit unless it is the "一" left out before "十", and the unit |
| NumberChineseInt.FindHighestPlace | numberchinese/number_chinese_int.go:18-21 | the first loop returns the first non-zero place, or 4 |
| NumberChineseInt.WritePlaces | numberchinese/number_chinese_int.go:17-38 | the digit loop writes the group's text from the thousands down |
| NumberChineseInt.FourDigitToChinese | numberchinese/number_chinese_int.go:11-39 | the text of a group below 10000 (empty for 0) and its first non-zero place (4 for 0) |
| NumberChineseInt.GroupTextRead | numberchinese/number_chinese_int.go:11-39 | reading a group's text back adds the group to the open section (units digit left pending) |
| NumberChineseInt.GroupTextEmpty | numberchinese/number_chinese_int.go:12-14 | a group's text is empty exactly when the group is 0 |
| NumberChineseInt.Groups | numberchinese/number_chinese_int.go:51-55 | the groups of u are each below 10000, and there are none exactly when u is 0 |
| NumberChineseInt.GroupsValueCons | numberchinese/number_chinese_int.go:52-55 | putting a group below the others multiplies their value by 10000 |
| NumberChineseInt.GroupsValueOf | numberchinese/number_chinese_int.go:51-55 | the groups are the base-10000 digits of u: weighted by 10000^j they add up to u |
| NumberChineseInt.GroupsCount | numberchinese/number_chinese_int.go:51-55 | a number below 10000^k has at most k groups |
| NumberChineseInt.Uint64Groups | numberchinese/number_chinese_base.go:17 | a uint64 has at most five groups, so bigUnits (six entries) always has a unit for it |
| NumberChineseInt.PartsUpTo | numberchinese/number_chinese_int.go:56-65 | the parts array has one entry per group filled so far |
| NumberChineseInt.HighsUpTo | numberchinese/number_chinese_int.go:57-64 | the highestIdx array has one entry per group filled so far |
| NumberChineseInt.PartsUpToIndex | numberchinese/number_chinese_int.go:58-65 | entry j of the parts array is the part of group j |
| NumberChineseInt.HighsUpToIndex | numberchinese/number_chinese_int.go:58-65 | entry j of highestIdx is the first non-zero place of group j |
| NumberChineseInt.SplitGroups | numberchinese/number_chinese_int.go:51-55 | repeated division by 10000 yields the groups, lowest first |
| NumberChineseInt.WritePart | numberchinese/number_chinese_int.go:59-64 | group i is written as its text and big unit (empty for a zero group), with its first non-zero place |
| NumberChineseInt.WriteGroups | numberchinese/number_chinese_int.go:56-65 | the second loop fills parts and highestIdx for every group |
| NumberChineseInt.AppendGroup | numberchinese/number_chinese_int.go:70-82 | an empty part only asks for "零" once something is written; a written part is preceded by "零" when one was asked for or when it starts below the thousands after something was written |
| NumberChineseInt.AssembleParts | numberchinese/number_chinese_int.go:66-84 | the third loop puts the parts together from the highest group down |
| NumberChineseInt.IntegerToChinese | numberchinese/number_chinese_int.go:47-85 | "零" for 0, else the groups' parts assembled with the "零" rules |
| NumberChineseInt.BigUnitWeight | numberchinese/number_chinese_base.go:17 | the big unit of group j is worth 10000^j |
| NumberChineseInt.GroupPartsRead | numberchinese/number_chinese_int.go:56-65 | every part integerToChinese writes reads back as its group times its weight |
| NumberChineseInt.AssembleTextRead | numberchinese/number_chinese_int.go:66-84 | the assembled parts, with any "零" between them, read back as the value of the groups |
| NumberChineseInt.IntegerTextReads | numberchinese/number_chinese_int.go:47-85 | reading back what integerToChinese writes gives u, for every uint64 and either digit table |
| NumberChineseInt.NegInt64 | numberchinese/number_chinese_int.go:96 | Go's int64 negation `n = -n`: the result is an int64 congruent to -n modulo 2^64 (so MinInt64 stays MinInt64) |
| NumberChineseInt.Uint64Of | numberchinese/number_chinese_int.go:97 | `uint64(n)` reads the two's-complement bits unsigned |
| NumberChineseInt.MagnitudeIsAbs | numberchinese/number_chinese_int.go:96-97 | for every negative int64, MinInt64 included, `uint64(-n)` is the magnitude of n |
| NumberChineseInt.SignedTextReads | numberchinese/number_chinese_int.go:91-115 | the signed text of any int64 reads back as that number, sign included |
| NumberChineseInt.SignedTextSign | numberchinese/number_chinese_int.go:98 | the text is never empty and starts with "负" exactly for negative numbers |
| NumberChineseInt.UnsignedText | numberchinese/number_chinese_int.go:98-99 | a text that reads as a non-zero unsigned number does not start with "负" |
| NumberChineseInt.NegativeStays | numberchinese/number_chinese_int.go:98 | once "负" has been read, the number stays negative |
| NumberChineseInt.ToChineseLowerInt | numberchinese/number_chinese_int.go:91-100 | lower-case text of an int64, which reads back as n |
| NumberChineseInt.ToChineseUpperInt | numberchinese/number_chinese_int.go:106-115 | financial upper-case text of an int64, which reads back as n |
| NumberChineseInt.OmitOnlyAtTens | numberchinese/number_chinese_int.go:32 | omitOneTen changes nothing unless the thousands and hundreds are zero and the tens digit is 1 |
| NumberChineseInt.OmitOneTen | numberchinese/number_chinese_int.go:32-35 | the "一" before "十" is left out exactly for groups 10..19, whose text then starts with "十"; every other group is written the same either way |
| NumberChineseInt.OneDigitGroup | numberchinese/number_chinese_int.go:22-37 | a one-digit group is that digit alone |
| NumberChineseInt.TwoDigitGroup | numberchinese/number_chinese_int.go:22-37 | a two-digit group is the tens digit (left out for 1 when asked), "十", and "零" plus the units digit when that is not zero: the zero leading places leave prevZero set |
| NumberChineseInt.HighestPlaceBelowThousands | numberchinese/number_chinese_int.go:78 | a written group starts below the thousands exactly when it is below 1000 |
| NumberChineseInt.AssembleLast | numberchinese/number_chinese_int.go:69-83 | the last round of the assembly loop after something was written |
| NumberChineseInt.AssembleTwo | numberchinese/number_chinese_int.go:69-83 | the assembly loop over two parts, the higher one written |
| NumberChineseInt.AssembleThree | numberchinese/number_chinese_int.go:69-83 | the assembly loop over three parts, the highest one written: a zero middle group asks for "零" before the lowest |
| NumberChineseInt.PartShape | numberchinese/number_chinese_int.go:59-64 | part j is empty exactly for a zero group, and a written part starts below the thousands exactly below 1000 |
| NumberChineseInt.GroupPart | numberchinese/number_chinese_int.go:59-64 | part j is the group's text followed by its big unit, or empty for a zero group |
| NumberChineseInt.IntegerTextOf | numberchinese/number_chinese_int.go:47-85 | a non-zero u is the assembly of its groups' parts |
| NumberChineseInt.TwoGroupsOf | numberchinese/number_chinese_int.go:51-55 | hi * 10000 + lo splits into the groups lo, hi |
| NumberChineseInt.ThreeGroupsOf | numberchinese/number_chinese_int.go:51-55 | a * 10^8 + b * 10^4 + c splits into the groups c, b, a |
| NumberChineseInt.OneGroup | numberchinese/number_chinese_int.go:47-85 | a number below 10000 is written as its group's text |
| NumberChineseInt.TwoGroupsText | numberchinese/number_chinese_int.go:69-83 | two groups: the high part, then "零" and the low part when it is below 1000, or the low part alone |
| NumberChineseInt.TwoParts | numberchinese/number_chinese_int.go:59-64 | the parts of a two-group number: the high group and "万", and the low group unless it is zero |
| NumberChineseInt.TwoGroupsAssembled | numberchinese/number_chinese_int.go:47-85 | a two-group number is assembled from its two parts |
| NumberChineseInt.TwoGroups | numberchinese/number_chinese_int.go:47-85 | a two-group number is its high group and "万", then the low group unless zero, with "零" before it exactly when it is below 1000 |
| NumberChineseInt.ThreeGroupsText | numberchinese/number_chinese_int.go:69-83 | three groups: "零" before a written group below 1000, and before the low group when the middle one is zero |
| NumberChineseInt.ThreeParts | numberchinese/number_chinese_int.go:59-64 | the parts of a three-group number: each written group with its big unit (亿, 万), nothing for a zero group |
| NumberChineseInt.ThreeGroupsAssembled | numberchinese/number_chinese_int.go:47-85 | a three-group number is assembled from its three parts |
| NumberChineseInt.ThreeGroups | numberchinese/number_chinese_int.go:47-85 | a three-group number is its high group and "亿", the middle group and "万" unless zero, the low group unless zero, with the "零" rules between them |
| NumberChineseInt.HundredsGroup | numberchinese/number_chinese_int.go:22-37 | a whole number of hundreds is the digit and "百" |
| NumberChineseInt.ThousandsGroup | numberchinese/number_chinese_int.go:22-37 | a whole number of thousands is the digit and "千" |
| NumberChineseInt.ThousandsUnitsGroup | numberchinese/number_chinese_int.go:22-37 | thousands and units only: one "零" for the zero hundreds and tens |
| NumberChineseInt.HundredsTensUnitsGroup | numberchinese/number_chinese_int.go:22-37 | three non-zero digits below 1000: the zero thousands leave prevZero set past the hundreds, so "零" comes before the tens |
| NumberChineseInt.TwoDigitNumber | numberchinese/number_chinese_int.go:47-85 | 10..99 is the tens digit (left out for 1 when asked), "十", and "零" plus the units digit when it is not zero |
| NumberChineseInt.PositiveText | numberchinese/number_chinese_int.go:91-99 | a positive int64 is written as its uint64 value |
| NumberChineseSamples.LowerEleven | numberchinese/numberchinese_test.go:16-18 | 11 in lower case is "十零一" |
| NumberChineseSamples.LowerTwenty | numberchinese/numberchinese_test.go:19-21 | 20 in lower case is "二十" |
| NumberChineseSamples.UpperTen | numberchinese/numberchinese_boundary_test.go:73-75 | 10 in upper case is "壹十" |
| NumberChineseSamples.LowerUnsignedTwelve | numberchinese/numberchinese_test.go:58-60 | uint32 12 in lower case is "十零二" |
| NumberChineseSamples.LowerTenThousandOne | numberchinese/numberchinese_boundary_test.go:51-53 | 10001 in lower case is "一万零一" |
| NumberChineseSamples.LowerTenThousandTen | numberchinese/numberchinese_boundary_test.go:54-56 | 10010 in lower case is "一万零十" |
| NumberChineseSamples.LowerMillionThousand | numberchinese/numberchinese_boundary_test.go:60-62 | 1001000 in lower case is "一百万一千" |
| NumberChineseSamples.LowerHundredMillion | numberchinese/numberchinese_boundary_test.go:63-65 | 100010001 in lower case is "一亿零一万零一" |
| NumberChineseSamples.PointAt | numberchinese/number_chinese_float.go:20-25 | a text "ip.fp" with no '.' in ip splits back into ip and fp |
| NumberChineseSamples.WrittenFraction | numberchinese/number_chinese_float.go:26-34 | with a non-zero fraction, the float text is the integer text, "点" and the fraction digits |
| NumberChineseSamples.AmountOf | numberchinese/number_chinese_rmb.go:28-61 | an amount with two fraction digits is the integer text, "元" and the 角/分 text |
| NumberChineseSamples.TwoFractionDigits | numberchinese/number_chinese_float.go:30-33 | two fraction digits go through the table one by one |
| NumberChineseSamples.LowerTwentyFiveFraction | numberchinese/numberchinese_test.go:42-44 | the fraction "25" in lower case is "二五" |
| NumberChineseSamples.UpperZeroFiveFraction | numberchinese/numberchinese_test.go:45-47 | the fraction "05" in upper case is "零伍" |
| NumberChineseSamples.LowerTenPart | numberchinese/numberchinese_test.go:42-44 | the integer part "10" in lower case is "十" |
| NumberChineseSamples.LowerTenPointTwentyFive | numberchinese/numberchinese_test.go:42-44 | 10.25 with two fraction digits in lower case is "十点二五" |
| NumberChineseSamples.UpperThousandOnePart | numberchinese/numberchinese_test.go:45-47 | the integer part "1001" in upper case is "壹千零壹" |
| NumberChineseSamples.UpperThousandOnePointZeroFive | numberchinese/numberchinese_test.go:45-47 | 1001.05 in upper case is "壹千零壹点零伍" |
| NumberChineseSamples.FortyFiveCents | numberchinese/numberchinese_test.go:71-73 | the fraction "45" is "肆角伍分" |
| NumberChineseSamples.UnsignedAmount | numberchinese/number_chinese_rmb.go:36-61 | an unsigned amount is the integer text, "元" and the cents text |
| NumberChineseSamples.AmountThreeHundred | numberchinese/numberchinese_test.go:74-76 | 300 as an amount is "叁百元整" |
| NumberChineseSamples.UpperOneTwentyThreePart | numberchinese/numberchinese_test.go:71-73 | the integer part "123" in upper case is "壹百零贰十叁" |
| NumberChineseSamples.AmountOneTwentyThreeFortyFive | numberchinese/numberchinese_test.go:71-73 | 123.45 as an amount is "壹百零贰十叁元肆角伍分" |
| ChineseNumeralReader.SmallUnitValue | numberchinese/number_chinese_base.go:15 | 千, 百 and 十 read as 1000, 100 and 10 |
| ChineseNumeralReader.BigUnitValue | numberchinese/number_chinese_base.go:17 | 万..垓 read as non-negative weights |
| ChineseNumeralReader.ReadAppend | numberchinese/number_chinese_base.go:67-73 | reading joined text reads the first part, then the second |
| ChineseNumeralReader.StepDigit | numberchinese/number_chinese_base.go:11-13 | a table digit reads as its position in the table |
| ChineseNumeralReader.StepMarker | numberchinese/number_chinese_base.go:15-17 | a unit or other marker is never taken for a digit |
| Validate.NormalizeFixed | validate/validate_util.go:94 | a string without lower-case letters or surrounding white space is unchanged by the upper-casing and trimming |
| Validate.IsChineseIDCard | validate/validate_util.go:93-126 | true exactly for inputs that, upper-cased and trimmed, have 18 characters, 17 digits then a digit or 'X', a real YYYYMMDD birth date at 6..13, and the check character the weighted digit sum selects |
| Validate.LeadingDigits | validate/validate_util.go:99-103 | the digit loop answers whether the first n characters are digits |
| Validate.IdDigitSum | validate/validate_util.go:117-123 | the summing loop gives the first 17 digits times their weights |
| Validate.IdWeightsArePowersOfTwo | validate/validate_util.go:117 | the weights are 2^17 .. 2^1 reduced mod 11, those of ISO 7064 MOD 11-2 |
| Validate.IdSampleSum | validate/validate_test.go:61 | the weighted sum of 11010519491231002 is 167 |
| Validate.Sample1949Valid | validate/validate_test.go:61 | 19491231 is a real day |
| Validate.Sample1999Invalid | validate/validate_test.go:63 | 19990230 is not a day |
| Validate.IdAccepted | validate/validate_test.go:61 | 11010519491231002X is accepted |
| Validate.IdWrongCheckRejected | validate/validate_test.go:65 | 110105194912310021 is rejected for its check character |
| Validate.IdImpossibleDateRejected | validate/validate_test.go:63 | 11010519990230002X is rejected for its birth date |
| Validate.CheckValue | validate/validate_util.go:104-107 | a check character is worth its digit, or 10 for 'X' |
| Validate.IdCodeCompletesMod11 | validate/validate_util.go:119-125 | the code table selects exactly the character whose value brings the weighted sum to 1 mod 11, the MOD 11-2 check |
| Validate.CodeValue | validate/validate_util.go:162 | a symbol of the alphabet is worth its position, 0..30 |
| Validate.CharsetPositions | validate/validate_util.go:162 | the alphabet 0-9 and A-Y without I, O, S, V, Z lists exactly the code symbols, each at the position of its value |
| Validate.CharsetSymbols | validate/validate_util.go:162 | every position of the alphabet holds a code symbol of that value |
| Validate.CharsetSymbol | validate/validate_util.go:162 | every code symbol sits at the position of its value |
| Validate.CheckSymbol | validate/validate_util.go:181-183 | `charset[(31 - sum % 31) % 31]` is a code symbol of that value |
| Validate.IsUnifiedSocialCreditCode | validate/validate_util.go:156-186 | true exactly for inputs that, upper-cased and trimmed, have 18 characters whose first 17 are in the alphabet and whose last is the check symbol of their weighted sum |
| Validate.CodeTable | validate/validate_util.go:166-169 | the map built from the alphabet holds exactly the code symbols, each mapped to its value |
| Validate.CodeSum | validate/validate_util.go:172-179 | the lookup loop fails exactly when one of the first 17 characters is outside the alphabet, else gives their weighted sum |
| Validate.CreditSampleSum | validate/validate_test.go:98 | the weighted sum of 12345678901234567 is 1418 |
| Validate.CheckOfSampleSum | validate/validate_test.go:98 | the check symbol for 1418 is '8' |
| Validate.CreditSample | validate/validate_test.go:98-103 | a code starting 12345678901234567 is valid exactly when it ends in '8' |
| Validate.CreditAccepted | validate/validate_test.go:98-99 | 123456789012345678 is valid |
| Validate.CreditWrongCheckRejected | validate/validate_test.go:103 | 123456789012345679 is invalid |
| Validate.CreditLetterIRejected | validate/validate_test.go:101 | I23456789012345678 is invalid: 'I' is not in the alphabet |
| Validate.CreditWeightsArePowersOfThree | validate/validate_util.go:163 | the weights are 3^0 .. 3^16 reduced mod 31, those of GB 32100-2015 |
| Validate.CheckValueMod31 | validate/validate_util.go:181-182 | (31 - sum mod 31) mod 31 is the one value below 31 that completes sum to a multiple of 31 |
| Validate.CreditCheckCompletesMod31 | validate/validate_util.go:172-185 | a code with 17 alphabet symbols is valid exactly when its last symbol's value brings the weighted sum to a multiple of 31 |
| IniUtil.AssignReads | iniutil/ini_util.go:205-210 | after Set the key is present and reads back the value; every other key keeps its presence and value |
| IniUtil.RemovedReads | iniutil/ini_util.go:217-221 | after Delete the key is absent and reads as the default; every other key keeps its presence and value |
| IniUtil.MergeEntries | iniutil/ini_util.go:266-287 | a section or key is in the merge iff it is in a or in b; on a key both hold, b's value wins exactly when overwrite |
| IniUtil.MergeSectionSymmetric | iniutil/ini_util.go:279-283 | merging two sections keeping the first's values equals merging them the other way round with overwrite |
| IniUtil.MergeSymmetric | iniutil/ini_util.go:266-287 | Merge(a, b, false) holds the same data as Merge(b, a, true) |
| IniUtil.MergeSectionEmpty | iniutil/ini_util.go:271-283 | merging a section with an empty one, on either side, gives the section |
| IniUtil.MergeIdentity | iniutil/ini_util.go:266-287 | merging with an empty configuration, on either side, copies the other |
| IniUtil.SectionIsMerge | iniutil/ini_util.go:277-283 | a section holding x's entries with kv's on top where overwrite allows is the merge of the two |
| IniUtil.DataIsMerge | iniutil/ini_util.go:266-287 | data holding a's sections, each merged with b's where b has it, is the merge |
| IniUtil.Classify | iniutil/ini_util.go:39-71 | a header's name and an assignment's key come trimmed, and a key is non-empty and holds no '=' |
| IniUtil.ClassifyTrimmed | iniutil/ini_util.go:45-67 | the same for a line already trimmed |
| IniUtil.KeyOfAssignment | iniutil/ini_util.go:58-62 | the text before the first '=' of a trimmed line, trimmed, is a non-empty key without '=' |
| IniUtil.Parse | iniutil/ini_util.go:37-44 | one meaning per input line |
| IniUtil.FoldAppend | iniutil/ini_util.go:37-72 | reading x + y is reading x, then y from the state x left |
| IniUtil.FoldThree | iniutil/ini_util.go:37-72 | the same for three pieces |
| IniUtil.LoadFromReader | iniutil/ini_util.go:32-77 | the configuration the loop builds is that of the lines read in order, the first losing a byte-order mark |
| IniUtil.ContainsSpecial | iniutil/ini_util.go:115 | true iff the value has a tab, space, '"', ';', '#', '[', ']' or '=' |
| IniUtil.EntryLines | iniutil/ini_util.go:112-119 | one line per key written |
| IniUtil.SectionLines | iniutil/ini_util.go:103-121 | a section always writes at least its blank separator line |
| IniUtil.SaveLines | iniutil/ini_util.go:103-122 | some line is written for every non-empty configuration |
| IniUtil.TextAppend | iniutil/ini_util.go:118 | writing one more line appends it and a newline |
| IniUtil.SortedKeys | iniutil/ini_util.go:99-101 | the collected, sorted keys are the keys of the map in ascending order |
| IniUtil.WriteEntryStep | iniutil/ini_util.go:112-119 | writing the next entry extends the section's text by exactly that entry's line |
| IniUtil.TextConcat | iniutil/ini_util.go:103-122 | the text of two runs of lines is the concatenation of their texts |
| IniUtil.SaveToWriter | iniutil/ini_util.go:96-125 | a nil configuration is an error; otherwise the text is the sections sorted by name, each with its header unless unnamed, its entries sorted by key with special values quoted, and a blank line |
| IniUtil.WriteSection | iniutil/ini_util.go:103-122 | the loop for one section writes its header, its sorted entries and a blank line |
| IniUtil.WriteSectionStart | iniutil/ini_util.go:104-106 | before any entry a named section has written its header only, the unnamed one nothing |
| IniUtil.WriteSectionEnd | iniutil/ini_util.go:112-121 | after the last entry the blank line completes the section's text |
| IniUtil.NewlineAfter | iniutil/ini_util.go:34-39 | a line without a newline is cut at the newline that ends it |
| IniUtil.SplitText | iniutil/ini_util.go:34-39 | scanning the written text line by line gives back the written lines, and an empty last piece |
| IniUtil.EntryLineReads | iniutil/ini_util.go:58-71 | the line written for a portable entry reads back as that entry |
| IniUtil.QuotedReads | iniutil/ini_util.go:65-67 | a written value loses exactly the quotes SaveToWriter added and has no white space at its ends |
| IniUtil.EntryShapeReads | iniutil/ini_util.go:58-67 | `k=q` reads back as key k with q unquoted |
| IniUtil.ClassifyAssignment | iniutil/ini_util.go:58-67 | a trimmed line with '=' after its first rune, not a comment or header, is the assignment of its trimmed halves |
| IniUtil.ClassifyClean | iniutil/ini_util.go:41-44 | a trimmed line not starting with a byte-order mark is read as it stands |
| IniUtil.HeaderLineReads | iniutil/ini_util.go:48-51 | the header written for a portable section reads back as that section |
| IniUtil.ClassifyHeader | iniutil/ini_util.go:48-51 | a line in brackets names the trimmed text between them |
| IniUtil.ClassifyBlank | iniutil/ini_util.go:45 | a blank line is skipped |
| IniUtil.FoldOne | iniutil/ini_util.go:37-72 | reading one line applies its meaning |
| IniUtil.FoldEntryLines | iniutil/ini_util.go:68-71 | reading the entry lines of kv adds those entries to the current section |
| IniUtil.AddEntry | iniutil/ini_util.go:71 | storing the next key extends the entries read so far by it |
| IniUtil.FoldHeader | iniutil/ini_util.go:48-55 | reading a section's header creates the empty section and enters it |
| IniUtil.FoldSortedEntries | iniutil/ini_util.go:68-71 | reading a section's sorted entry lines fills the section with kv |
| IniUtil.FoldSection | iniutil/ini_util.go:37-72 | reading a portable section's lines adds exactly that section |
| IniUtil.ParseSectionLines | iniutil/ini_util.go:103-121 | a section's written lines read as its header, its entries and a skipped blank |
| IniUtil.FoldBlank | iniutil/ini_util.go:45 | a blank line leaves the state alone |
| IniUtil.FoldSaveLines | iniutil/ini_util.go:96-125 | reading the lines of strictly sorted portable sections gives those sections back |
| IniUtil.SaveLoadRoundTrip | iniutil/iniutil_test.go:55-93 | loading the text SaveToWriter writes for a portable configuration gives that configuration back |
| IniUtil.SaveLinesOneLine | iniutil/ini_util.go:103-122 | no written line of a portable configuration contains a newline |
| IniUtil.SectionLinesOneLine | iniutil/ini_util.go:103-121 | the same for one section |
| IniUtil.EntryLinesOneLine | iniutil/ini_util.go:112-119 | the same for a section's entries |
| IniUtil.Config.constructor | iniutil/ini_util.go:24-26 | New gives a configuration with no sections |
| IniUtil.Config.GetString | iniutil/ini_util.go:144-150 | the stored value when section and key exist, def otherwise |
| IniUtil.Config.GetInt | iniutil/ini_util.go:158-164 | def and no error for an absent or empty value; otherwise the parse of the trimmed value, or def and an error when it does not parse |
| IniUtil.Config.GetBool | iniutil/ini_util.go:186-197 | no error iff the trimmed, lower-cased value is empty or one of true/yes/on/1/false/no/off/0; true exactly for the first four; def when empty or on error |
| IniUtil.Config.Set | iniutil/ini_util.go:205-210 | the new data is the old with the key set, creating its section; the key then reads back the value |
| IniUtil.Config.Delete | iniutil/ini_util.go:217-221 | the new data is the old without the key; the key is then absent |
| IniUtil.Config.Sections | iniutil/ini_util.go:227-232 | every section name once, strictly ascending |
| IniUtil.Config.Keys | iniutil/ini_util.go:238-245 | the section's keys once each, strictly ascending; none for a missing section |
| IniUtil.Config.MergeFrom | iniutil/ini_util.go:269-285 | one of Merge's outer loops leaves the merge of the old data with the source |
| IniUtil.Config.MergeSectionInto | iniutil/ini_util.go:277-284 | the inner loop merges kv into that section only |
| IniUtil.Merge | iniutil/ini_util.go:266-287 | a fresh configuration holding the merge of a and b, a nil side counting as empty |
| IniUtil.GetIntOfItoa | iniutil/ini_util.go:158-164 | an int64 stored in decimal reads back through GetInt with no error |
| IniAdvanced.TrimTrailing | iniutil/ini_advanced.go:59 | strings.TrimRight with one rune: the longest prefix not ending in c, every rune cut being c |
| IniAdvanced.CommentStart | iniutil/ini_advanced.go:252-262 | the first position holding ';' or '#' outside double quotes, or the length when there is none |
| IniAdvanced.StripInlineComment | iniutil/ini_advanced.go:252-262 | the loop with its quote flag returns the trimmed text before the first unquoted ';' or '#' |
| IniAdvanced.FirstComment | iniutil/ini_advanced.go:257-258 | a comment position with none before it is the one the loop stops at |
| IniAdvanced.StripNoComment | iniutil/ini_advanced.go:261 | without ';' and '#' only the surrounding white space is removed |
| IniAdvanced.SeparatorIndex | iniutil/ini_advanced.go:118-125 | -1 or a position holding '=' (or ':' when allowed) with no '=' (nor allowed ':') before it |
| IniAdvanced.SeparatorWithoutColon | iniutil/ini_advanced.go:118-125 | without allowColon the separator is the first '=', as LoadFromReader finds it |
| IniAdvanced.Ensure | iniutil/ini_advanced.go:145-148 | the section exists afterwards, every other section and every entry unchanged |
| IniAdvanced.Store | iniutil/ini_advanced.go:148-153 | the key is set in its section, nothing else changes; with appendDuplicateKeys and an old value, the value is old and new trimmed and joined by ',', otherwise the new value |
| IniAdvanced.TrimmedLines | iniutil/ini_advanced.go:47-53 | one trimmed line per input line |
| IniAdvanced.CloseFrom | iniutil/ini_advanced.go:217-218 | the first '}' at or after k, or the end of the value |
| IniAdvanced.ReferenceSplits | iniutil/ini_advanced.go:224-230 | `${key}` names the current section; `${sec.key}` splits at the first '.' so the two parts rejoin to the token |
| IniAdvanced.ResolveValue | iniutil/ini_advanced.go:205-243 | the value and the write-backs the recursive resolution makes are those of the function Resolve |
| IniAdvanced.ExpandValue | iniutil/ini_advanced.go:214-239 | the scanning loop gives the outcome of the scan from position 0 |
| IniAdvanced.ScanStep | iniutil/ini_advanced.go:216-238 | one step of the loop moves strictly forward and leaves the scan's outcome unchanged, or stops with the scan's error |
| IniAdvanced.FindClose | iniutil/ini_advanced.go:217-218 | the inner loop stops at the first '}' |
| IniAdvanced.SplitReference | iniutil/ini_advanced.go:225-230 | the token split into the entry it refers to |
| IniAdvanced.ResolveExpands | iniutil/ini_advanced.go:210-242 | a present, non-empty value with budget left is scanned and, without error, written back |
| IniAdvanced.ResolveWritesBack | iniutil/ini_advanced.go:241-242 | a scan that succeeds without changing the data writes its output back and returns it |
| IniAdvanced.ExpandCopies | iniutil/ini_advanced.go:215-238 | a rune that does not open a closed placeholder is copied |
| IniAdvanced.ExpandResolves | iniutil/ini_advanced.go:224-234 | a closed placeholder is replaced by its resolved reference, or its error ends the scan |
| IniAdvanced.Interpolate | iniutil/ini_advanced.go:184-196 | nil is left alone; otherwise every entry is resolved with budget 10 in the iteration order given, stopping at the first error |
| IniAdvanced.AssignSame | iniutil/ini_advanced.go:241 | writing back a key's own value changes nothing |
| IniAdvanced.ResolveKeepsEntries | iniutil/ini_advanced.go:205-243 | resolution never adds or removes a section or key |
| IniAdvanced.ExpandKeepsEntries | iniutil/ini_advanced.go:214-239 | neither does the scan |
| IniAdvanced.ExpandVerbatim | iniutil/ini_advanced.go:214-239 | with no closed placeholder left the scan copies the rest and leaves the data alone |
| IniAdvanced.ResolveVerbatim | iniutil/ini_advanced.go:205-243 | a value without placeholders resolves to itself and the data is unchanged |
| IniAdvanced.WholePlaceholder | iniutil/ini_advanced.go:217-224 | in a value that is exactly `${token}` the closing '}' is the last rune and the token lies between |
| IniAdvanced.ExpandPlaceholder | iniutil/ini_advanced.go:224-234 | such a value scans to what its reference resolves to with one level less |
| IniAdvanced.PlaceholderResolves | iniutil/iniutil_advanced_test.go:83-90 | a value that is exactly a reference to another entry without placeholders resolves to that entry's value, which is written back in its place |
| IniAdvanced.SelfReference | iniutil/ini_advanced.go:206-208 | a value that refers to its own key is an interpolation cycle error |
| IniAdvanced.PathInjective | iniutil/ini_advanced.go:206 | distinct keys of one section have distinct paths |
| IniAdvanced.ChainStops | iniutil/ini_advanced.go:211 | a chain of whole-value references is followed exactly depth links, giving the raw value found there |
| IniAdvanced.ChainBeyondMaxDepth | iniutil/ini_advanced.go:186 | with the budget 10 a chain of more links ends at the eleventh key's value, placeholder left in |
| IniAdvanced.InterpolateKeepsEntries | iniutil/ini_advanced.go:184-196 | Interpolate only rewrites values |
| IniAdvanced.InterpolatePlain | iniutil/ini_advanced.go:184-196 | data without placeholders passes unchanged and without error |
| IniAdvanced.EnsureSection | iniutil/ini_advanced.go:145 | creates the section in place when missing |
| IniAdvanced.StoreValue | iniutil/ini_advanced.go:148-153 | stores the value in place as Store describes |
| IniAdvanced.ReadLine | iniutil/ini_advanced.go:58-153 | the configuration and reader state after one trimmed line, or the include's error, are those Step gives |
| IniAdvanced.ReadInclude | iniutil/ini_advanced.go:78-106 | the resolver's error is returned, or a fresh configuration merging the included data into the current one with includeOverwrite |
| IniAdvanced.ReadContinued | iniutil/ini_advanced.go:58-74 | a line inside a multi-line value is read as Continue describes |
| IniAdvanced.ReadValue | iniutil/ini_advanced.go:130-139 | the value after the separator, trimmed, comment cut when asked, quotes removed |
| IniAdvanced.ReadEntry | iniutil/ini_advanced.go:118-153 | a `key = value` line is read as Entry describes |
| IniAdvanced.LoadFromReaderWithOptions | iniutil/ini_advanced.go:38-165 | a fresh configuration holding the data the lines describe under the options, or the first include or interpolation error |
| IniAdvanced.StepDefaults | iniutil/ini_advanced.go:38-153 | with every option off a line that is not an include reads as in LoadFromReader |
| IniAdvanced.EntryDefaults | iniutil/ini_advanced.go:118-153 | with every option off an assignment splits at its first '=' as in LoadFromReader |
| IniAdvanced.RunDefaults | iniutil/ini_advanced.go:47-154 | lines without includes, read with every option off, fold as LoadFromReader folds them |
| IniAdvanced.LoadDefaults | iniutil/ini_advanced.go:38-165 | the zero options read a stream without include directives exactly as LoadFromReader does |
| IniAdvanced.RunAppend | iniutil/ini_advanced.go:47-154 | reading a + b reads a, then b from where a left off, an error in a ending the read |
| IniAdvanced.ContinuedLines | iniutil/ini_advanced.go:58-64 | inside a multi-line value, lines ending in '\' only extend the pending value |
| IniAdvanced.MultilineJoins | iniutil/iniutil_advanced_test.go:32-42 | a multi-line value is the first value and each later line joined by newlines, trailing '\' removed, trimmed and stored |
| IniAdvanced.UnfinishedValueDropped | iniutil/ini_advanced.go:141-164 | a multi-line value still open at the end of the input is never stored; only its section exists |
| IniAdvanced.Values | iniutil/ini_advanced.go:129-139 | the value each line carries |
| IniAdvanced.TrimAll | iniutil/ini_advanced.go:150 | each value trimmed |
| IniAdvanced.StepSetsKey | iniutil/ini_advanced.go:148-153 | a line that sets key stores its value under key in the current section |
| IniAdvanced.RepeatedKey | iniutil/ini_advanced.go:47-154 | lines that all set one key store their values in order |
| IniAdvanced.RepeatedKeyStep | iniutil/ini_advanced.go:148-153 | the last such line stores its value after the others' |
| IniAdvanced.StoreAllValues | iniutil/ini_advanced.go:148-153 | storing all the values stores all but the last, then the last |
| IniAdvanced.JoinTrimmed | iniutil/ini_advanced.go:150 | a ','-join of two or more trimmed parts is trimmed |
| IniAdvanced.AppendJoins | iniutil/ini_advanced.go:149-150 | with appendDuplicateKeys a key set two or more times holds every value, trimmed, joined by ',' in order |
| IniAdvanced.LastValueWins | iniutil/ini_advanced.go:151-152 | without it the last value wins |
| IniAdvanced.DuplicateKeys | iniutil/iniutil_advanced_test.go:96-107 | a key set on several lines ends with the values joined by ',' when appending, else the last value |
| IniAdvanced.IncludeMerges | iniutil/ini_advanced.go:78-106 | an include merges the named data into the data so far: a key is there iff it was or is included, the included value winning iff includeOverwrite or the key was new; a resolver error ends the read |
| ConvertNumeric.ToInt64 | convert/type_convert_numeric.go:68-113 | a success lies in the int64 range; every error is nil input, an empty string, a parse failure or an unsupported type |
| ConvertNumeric.ToUint64 | convert/type_convert_numeric.go:119-169 | a success lies in 0..2^64-1; every error is nil input, a negative signed value, an empty string, a parse failure or an unsupported type |
| ConvertNumeric.ToInt32 | convert/type_convert_numeric.go:238-247 | a success is ToInt64's own value and lies in the int32 range; ToInt64's error passes through |
| ConvertNumeric.ToInt16 | convert/type_convert_numeric.go:268-277 | a success is ToInt64's own value and lies in the int16 range; ToInt64's error passes through |
| ConvertNumeric.ToUint32 | convert/type_convert_numeric.go:253-262 | a success is ToUint64's own value and at most 2^32-1; ToUint64's error passes through |
| ConvertNumeric.ToUint16 | convert/type_convert_numeric.go:283-292 | a success is ToUint64's own value and at most 65535; ToUint64's error passes through |
| ConvertNumeric.ToInt64OfUint | convert/type_convert_numeric.go:83-92 | an unsigned integer of any width arrives as its two's-complement int64: unchanged up to 2^63-1, less 2^64 above |
| ConvertNumeric.ToInt64OfInt | convert/type_convert_numeric.go:134-146 | a signed integer of any width converts to itself, and to an unsigned value exactly when it is not negative |
| ConvertNumeric.SignedNarrowing | convert/type_convert_numeric.go:238-277 | for signed inputs ToInt32 and ToInt16 succeed exactly on their ranges, giving the value itself |
| ConvertNumeric.UnsignedNarrowing | convert/type_convert_numeric.go:253-292 | for unsigned inputs ToUint32 and ToUint16 succeed exactly up to their maximum; negative signed inputs are refused by all three unsigned conversions |
| ConvertNumeric.NarrowingSamples | convert/convert_boundary_test.go:9-81 | the boundary values of the package's checks are accepted and the values one past them refused |
| ConvertNumeric.BoolIsOneOrZero | convert/type_convert_numeric.go:97-99 | true converts to 1 and false to 0 for every integer target |
| ConvertNumeric.TextIsTrimmedThenParsed | convert/type_convert_numeric.go:100-109 | a string converts to what strconv parses from it once trimmed; white space alone is the empty-string error |
| ConvertNumeric.SignedTextRoundTrip | convert/type_convert_numeric.go:100-109 | an integer written in base 10 reads back by ToInt64 |
| ConvertNumeric.UnsignedTextRoundTrip | convert/type_convert_numeric.go:156-165 | an unsigned integer written in base 10 reads back by ToUint64 |
| ConvertNumeric.NilAndOtherTypes | convert/type_convert_numeric.go:69-71 | nil and values of unsupported types are errors for every integer target, nil exactly giving the nil-input error |
| ConvertNumeric.LargestUintNarrowsToMinusOne | convert/type_convert_numeric.go:238-247 | as written, the largest uint64 passes ToInt32 and ToInt16 as -1 |
| ConvertNumeric.ToSignedChecked | convert/type_convert_numeric.go:238-277 | a success is the value the input stands for and lies in the target's signed range |
| ConvertNumeric.ToSignedCheckedComplete | convert/type_convert_numeric.go:238-277 | the checked narrowing accepts every input whose value is in range and agrees with ToInt32 and ToInt16 except on unsigned inputs above 2^63-1 |
| ConvertBool.ToBool | convert/type_convert_bool.go:14-62 | errors come only from nil, strings and types outside the switch; bools, integers and floats always convert |
| ConvertBool.WordsDisjoint | convert/type_convert_bool.go:51-55 | no word is in both lists, so a word's truth value does not depend on the order of the cases |
| ConvertBool.PlainWord | convert/type_convert_bool.go:46 | a word of lower-case letters, digits and CJK runes is unchanged by lower-casing and trimming |
| ConvertBool.PlainReads | convert/type_convert_bool.go:45-58 | such a word reads as the lookup in the two lists says |
| ConvertBool.TrueWord | convert/type_convert_bool.go:52-53 | each of 1, t, true, y, yes, on, ok, 是, 真, 对, 开 reads as true |
| ConvertBool.FalseWord | convert/type_convert_bool.go:54-55 | each of 0, f, false, n, no, off, 否, 假, 错, 关 reads as false |
| ConvertBool.ListedIsIn | convert/type_convert_bool.go:51-58 | the front-to-back comparison of the switch is list membership |
| ConvertBool.NoEmptyWord | convert/type_convert_bool.go:47-49 | neither list holds the empty word, so the empty-string error hides no listed word |
| ConvertBool.OnlyListedWords | convert/type_convert_bool.go:45-58 | a string reads as a bool exactly when, lower-cased and trimmed, it is a listed word, and then as the list it is in |
| ConvertBool.CaseInsensitive | convert/type_convert_bool.go:46 | upper- or lower-casing a string's letters does not change how it reads |
| ConvertBool.LowerIgnoresCase | convert/type_convert_bool.go:46 | lower-casing forgets the letters' earlier case and is idempotent |
| ConvertBool.LowerIgnoresCaseAt | convert/type_convert_bool.go:46 | the same rune by rune |
| ConvertBool.AgreesWithToInt64 | convert/type_convert_bool.go:19-44 | for every integer and bool, ToBool is true exactly when ToInt64 gives a non-zero value |
| ConvertBool.Samples | convert/convert_test.go:54-59 | 是 reads as true and 否 as false |
| ConvertBool.ZeroAndNil | convert/convert_test.go:60-62 | zero reads as false, and nil is the nil-input error |
| ConvertString.BoolTextSpelled | convert/type_convert_string.go:21-23 | a bool is written "true" or "false" |
| ConvertString.ToString | convert/type_convert_string.go:14-56 | an error exactly for nil, a map, or a value of another type without a String method; errors are nil input or unsupported |
| ConvertString.SignedTextReadsBack | convert/type_convert_string.go:24-33 | a signed integer is written as strconv.Itoa writes it and ToInt64 reads it back |
| ConvertString.UnsignedTextReadsBack | convert/type_convert_string.go:34-43 | an unsigned integer is written in base 10 and ToUint64 reads it back |
| ConvertString.BoolTextReadsBack | convert/type_convert_string.go:21-23 | a bool's text reads back by ToBool |
| ConvertString.Samples | convert/convert_test.go:73-84 | 123 gives "123", true gives "true", a Stringer gives its String(), nil is an error |
| BaseConvert.DigitsOf | convert/base_convert.go:15-47 | an error exactly for values that are not integers or bools, always the unsupported-type error; a result is non-empty and starts with '-' exactly for a negative signed integer |
| BaseConvert.Prefixed | convert/base_convert.go:53-58 | the prefix adds exactly its own length |
| BaseConvert.ToBinStringWithPrefix | convert/base_convert.go:53-58 | fails exactly when ToBinString fails; otherwise its text with "0b" after the sign |
| BaseConvert.ToOctStringWithPrefix | convert/base_convert.go:102-107 | fails exactly when ToOctString fails; otherwise its text with "0o" after the sign |
| BaseConvert.ToHexString | convert/base_convert.go:114-148 | fails exactly when the value has no base-16 digits |
| BaseConvert.ToHexStringWithPrefix | convert/base_convert.go:155-161 | fails exactly when ToHexString fails; otherwise its text with a lower-case "0x" after the sign |
| BaseConvert.ParseIntFromBase | convert/base_convert.go:168-178 | a success lies in the int64 range; the bad-base error exactly when the base is neither 0 nor 2..36, any other error a parse failure; with base 0 well-placed '_' separators are skipped |
| BaseConvert.ParseUintFromBase | convert/base_convert.go:185-198 | a success lies in 0..2^64-1; the bad-base error exactly for a base outside 0 and 2..36, the negative error exactly for an accepted base and trimmed text starting with '-'; with base 0 well-placed '_' separators are skipped |
| BaseConvert.ConvertBaseString | convert/base_convert.go:208-231 | errors are a bad base or a parse failure, the bad-base error exactly when the target base is outside 2..36 |
| BaseConvert.PrintedTrims | convert/base_convert.go:169 | digits, signs and letters survive trimming |
| BaseConvert.PrintedJoin | convert/base_convert.go:56 | joining such texts keeps them so |
| BaseConvert.FormatUintPrinted | convert/base_convert.go:27-36 | FormatUint writes only digits and letters |
| BaseConvert.FormatIntPrinted | convert/base_convert.go:17-26 | FormatInt writes only a sign, digits and letters |
| BaseConvert.UpperPrinted | convert/base_convert.go:146 | upper-casing keeps that so |
| BaseConvert.SignedReadsBack | convert/base_convert.go:168-178 | a signed value written in base 2..36, in either case, reads back by ParseIntFromBase in that base |
| BaseConvert.UnsignedReadsBack | convert/base_convert.go:185-198 | an unsigned value written in base 2..36 reads back by ParseUintFromBase |
| BaseConvert.StringsReadBack | convert/base_convert.go:15-148 | ToBinString, ToOctString and ToHexString of a signed integer read back in bases 2, 8 and 16 |
| BaseConvert.PrefixedFormatInt | convert/base_convert.go:56 | the prefix goes between the sign and the magnitude |
| BaseConvert.PrefixedReadsBack | convert/base_convert.go:53-58 | a prefixed text reads back with base 0, which infers the base from the prefix |
| BaseConvert.PrefixedStringsReadBack | convert/base_convert.go:53-161 | the lower-case prefixed strings of a signed integer read back with base 0 |
| BaseConvert.NegativeTextRefused | convert/base_convert.go:190-192 | the text of a negative value is refused by ParseUintFromBase in every accepted base |
| BaseConvert.SeparatedDecimalReads | convert/base_convert.go:168-198 | with base 0, "a_b" of two decimal digit runs reads as "ab" by both ParseUintFromBase and ParseIntFromBase |
| BaseConvert.ConvertSucceeds | convert/base_convert.go:208-216 | ConvertBaseString succeeds exactly when the target base is valid and the trimmed text parses in the source base |
| BaseConvert.RewrittenReadsBack | convert/base_convert.go:217-218 | the rewritten text without prefix reads back in the target base, in either case |
| BaseConvert.RewrittenPrefixedReadsBack | convert/base_convert.go:219-229 | with the lower-case prefix of base 2, 8 or 16 it reads back with base 0 |
| BaseConvert.ConvertKeepsValue | convert/base_convert.go:208-231 | the converted text reads back in the target base as the value read in the source base |
| BaseConvert.ConvertPrefixedKeepsValue | convert/base_convert.go:208-231 | the prefixed converted text reads back with base 0 as that value |
| BaseConvert.DecimalTarget | convert/base_convert.go:217-229 | base 10 in lower case is the decimal text of the value; no prefix is added |
| BaseConvert.TenSample | convert/convert_test.go:105-107 | 10 is 1010 in base 2 |
| BaseConvert.OtherSamples | convert/convert_test.go:108-116 | uint8 3 is 11 and true is 1; a string and nil are unsupported |
| BaseConvert.NegativeSample | convert/convert_test.go:117-119 | -2 is -10, and -0b10 with its prefix |
| ArrayUnique.KeyOf | convert/array_unique.go:39-52 | a comparable value is its own key; another value is keyed by its %#v text |
| ArrayUnique.FirstByKey | convert/array_unique.go:37-54 | no longer than the input |
| ArrayUnique.FirstAt | convert/array_unique.go:41-44 | the first index holding the key, or the length when none does |
| ArrayUnique.KeysOfSnoc | convert/array_unique.go:44 | one more element adds its key to the keys seen |
| ArrayUnique.UniqueBy | convert/array_unique.go:37-54 | the loop with its seen set keeps the first element of each key, in input order, and ends in the panic exactly when some element's lookup panics |
| ArrayUnique.FirstAtPrefix | convert/array_unique.go:37-54 | a key's first index found in a prefix is its first index in the whole |
| ArrayUnique.KeepsFirstsPrefix | convert/array_unique.go:37-54 | elements kept from a prefix keep their first indices in the whole |
| ArrayUnique.KeepsFirstsSnoc | convert/array_unique.go:53 | an element whose key is new extends the kept elements |
| ArrayUnique.KeepsFirstsSeen | convert/array_unique.go:41-43 | an element whose key was seen leaves them as they are |
| ArrayUnique.FirstByKeyKeeps | convert/array_unique.go:37-54 | the output has exactly the keys of the input, each kept element is the first input element with its key, in the order the keys first appear |
| ArrayUnique.FirstByKeyDistinctKeys | convert/array_unique.go:41-51 | no two kept elements share a key |
| ArrayUnique.UniqueSlice | convert/array_unique.go:18-56 | nil and non-slices are refused; a comparable element type holding an unhashable value panics; otherwise the first element of each key, keyed by value or by %#v text as the element type is comparable |
| ArrayUnique.ComparableIsDedup | convert/array_unique.go:39-44 | for comparable elements UniqueSlice is element-wise de-duplication |
| ArrayUnique.FormattedCollide | convert/convert_test.go:136-143 | elements with equal %#v texts count as one, the first kept |
| ArrayUnique.DedupSnoc | convert/array_unique.go:41-53 | de-duplicating one more element appends it exactly when it is new |
| ArrayUnique.FirstRepeatDropped | convert/convert_test.go:127-134 | a, b, a keeps a, b |
| ArrayUnique.RepeatsDropped | convert/convert_test.go:127-134 | a, b, a, c, b, d keeps a, b, c, d |
| ArrayUnique.IntSample | convert/convert_test.go:127-134 | [1, 2, 1, 3, 2, 4] keeps [1, 2, 3, 4] |
| ArrayUnique.FieldIndex | convert/array_unique.go:176-193 | the first exported field whose tag value before any comma or whose Go name is the one asked for; none exactly when no field qualifies |
| ArrayUnique.FieldIndexIsFirst | convert/array_unique.go:177-191 | a qualifying field with none before it is the one found |
| ArrayUnique.FieldIndexByNameOrTag | convert/array_unique.go:176-193 | the loop finds the index FieldIndex describes |
| ArrayUnique.FieldKey | convert/array_unique.go:100-118 | the shared placeholder exactly for a nil pointer or a missing map key; otherwise the field value, or its %#v text when the field's type is not comparable |
| ArrayUnique.UniqueSliceByField | convert/array_unique.go:67-163 | the errors in order (nil, empty field name, not a slice, field not found, map keys not strings, other elements); a comparable field type holding an unhashable value panics; otherwise the first element of each field value, nil pointers and missing map keys sharing one key |
| ArrayUnique.MissingKeptOnce | convert/array_unique.go:102-108 | at most one kept element lacks the field |
| ArrayUnique.ThirdRepeatsFirst | convert/array_unique.go:98-125 | of three elements the third is dropped when it repeats the first's key and the second's differs |
| ArrayUnique.ThreeKeysKept | convert/array_unique.go:98-125 | three distinct keys are all kept |
| ArrayUnique.UserFieldsFound | convert/convert_test.go:151-165 | ID is found by its Go name, Name by its json tag value "name" |
| ArrayUnique.UserSample | convert/convert_test.go:155-171 | by ID {1 a}, {2 b}, {1 c} keeps the first two; by the json name all three stay |
| ArrayUnique.TwoPairsCollapse | convert/array_unique.go:98-125 | two pairs of equal keys keep the first of each pair |
| ArrayUnique.PointerSample | convert/convert_test.go:174-181 | nil, nil, {1 a}, {1 b} by ID keeps one nil and {1 a} |
| ArrayMapConvert.IndexMap | convert/array_map_convert.go:22-28 | the keys are exactly the indices of the slice, each mapped to its element |
| ArrayMapConvert.ToMapFromSlice | convert/array_map_convert.go:13-29 | nil and non-slices are refused; otherwise the loop writes every index with its element |
| ArrayMapConvert.ValuesAlong | convert/array_map_convert.go:43-49 | one value per key read |
| ArrayMapConvert.AlongAt | convert/array_map_convert.go:45-48 | the value at each position is the map's value for the key at that position |
| ArrayMapConvert.ToSliceFromMapValues | convert/array_map_convert.go:35-51 | nil and non-maps are refused; otherwise the value of every key, along an order listing each key once |
| ArrayMapConvert.ToSliceFromMapKeys | convert/array_map_convert.go:57-72 | nil and non-maps are refused; otherwise every key exactly once |
| ArrayMapConvert.AlongConcat | convert/array_map_convert.go:45-48 | reading along a concatenation concatenates the readings |
| ArrayMapConvert.DistinctOnce | convert/array_map_convert.go:43 | a sequence without repetitions holds each of its elements once |
| ArrayMapConvert.WalksAgree | convert/array_map_convert.go:43 | two walks of a map list the same keys, each once |
| ArrayMapConvert.Without | convert/array_map_convert.go:43 | one key fewer |
| ArrayMapConvert.MultisetMiddle | convert/array_map_convert.go:43-49 | taking out a middle element takes it out of the multiset |
| ArrayMapConvert.MultisetCancel | convert/array_map_convert.go:43-49 | multisets equal after adding the same element were equal |
| ArrayMapConvert.MultisetWithout | convert/array_map_convert.go:43-49 | taking out the element at p takes it out of the multiset |
| ArrayMapConvert.OthersIn | convert/array_map_convert.go:43-49 | the other keys are keys of the map too |
| ArrayMapConvert.AlongSplit | convert/array_map_convert.go:45-48 | reading along an order splits around any of its keys |
| ArrayMapConvert.AlongWithout | convert/array_map_convert.go:45-48 | reading along an order is reading along the others plus one key's value |
| ArrayMapConvert.MatchingPlace | convert/array_map_convert.go:43 | two orders of the same keys match up after taking out their common first key |
| ArrayMapConvert.AlongPermuted | convert/array_map_convert.go:43-49 | two orders of the same keys read the same values, each as often |
| ArrayMapConvert.WalkOrderFree | convert/array_map_convert.go:35-51 | whatever order MapKeys takes, the multiset of values is the same |
| ArrayMapConvert.AscendingWalk | convert/array_map_convert.go:22-28 | the ascending indices walk the map built from a slice and read the slice back |
| ArrayMapConvert.SliceComesBack | convert/array_map_convert.go:13-51 | ToSliceFromMapValues after ToMapFromSlice gives back the slice's elements, each as often |
| ArrayMapConvert.WalkLength | convert/array_map_convert.go:43-44 | a walk is as long as the map |
| ArrayMapConvert.DistinctCard | convert/array_map_convert.go:43 | a sequence without repetitions has as many distinct elements as positions |
| ArrayMapConvert.ValuesSample | convert/convert_test.go:197-203 | the values of {"a": 1, "b": 2}, in any order, are 1 and 2 |
| ArrayMapConvert.IndexSample | convert/convert_test.go:190-195 | [x, y] becomes {0: x, 1: y} |
| StructMapConvert.Zero | convert/struct_map_convert.go:152-170 | the zero value of a type is a value of that type |
| StructMapConvert.FieldKey | convert/struct_map_convert.go:112-132 | no key exactly when a tag name is given and its value is "-"; otherwise the field name or the non-empty text before the first comma |
| StructMapConvert.FieldKeyRules | convert/struct_map_convert.go:112-132 | no tag name gives the field name, "-" skips, a non-empty text before the comma is the key, an empty one falls back to the field name |
| StructMapConvert.KeyDesignatesField | convert/struct_map_convert.go:112-132 | a field's key is a name by which the field lookup of array_unique.go finds it |
| StructMapConvert.FieldKeySamples | convert/struct_map_convert.go:112-132 | `json:"name,omitempty"` gives name, "-" skips, ",omitempty" and no tag name give the field name |
| StructMapConvert.WrapSigned | convert/struct_map_convert.go:188-191 | reflect's Convert into a signed type lands in the type's range and keeps values already in it |
| StructMapConvert.WrapUnsigned | convert/struct_map_convert.go:188-191 | the same for an unsigned type |
| StructMapConvert.RuneText | convert/struct_map_convert.go:188-191 | an integer converted to a string is one rune: itself when a scalar value below U+D800, U+FFFD outside the Unicode range |
| StructMapConvert.Converted | convert/struct_map_convert.go:188-191 | the converted data is a value of the field's type: integers wrapped or read as a rune, text as its UTF-8 bytes or its code points, a byte or rune slice as the text it encodes |
| StructMapConvert.CodePoints | convert/struct_map_convert.go:188-191 | `[]rune(s)`: one code point per rune of s, in order |
| StructMapConvert.RunesText | convert/struct_map_convert.go:188-191 | `string(rs)`: one rune per element, each as an integer converted to a string reads it |
| StructMapConvert.RunesTextOfCodePoints | convert/struct_map_convert.go:188-191 | `string([]rune(s))` is s |
| StructMapConvert.ByKind | convert/struct_map_convert.go:195-238 | the kind switch yields only values of the field's type |
| StructMapConvert.SetSimple | convert/struct_map_convert.go:184-238 | assign, convert (integers among integer and string types, text into and out of []byte and []rune) or go by kind, always yielding a value of the field's type |
| StructMapConvert.TextSlicesRoundTrip | convert/struct_map_convert.go:140-191 | text given to a []byte or []rune field is stored as its UTF-8 bytes or code points without error, and those slices given to a string field give the text back |
| StructMapConvert.SlicesThroughText | convert/struct_map_convert.go:188-191 | a valid UTF-8 []byte, or a []rune of scalar values, given to a string field becomes text that encodes back to the same slice |
| StructMapConvert.TextIntoBytesSample | convert/struct_map_convert.go:188-191 | "hi" fills a []byte field with 104, 105 and a []rune field with 104, 105; "é" gives the bytes 0xC3, 0xA9 |
| StructMapConvert.SetField | convert/struct_map_convert.go:140-239 | the field always holds a value of its type, and a failure leaves a non-struct field as it was |
| StructMapConvert.FillFrom | convert/struct_map_convert.go:84-104 | the struct always holds values of its field types |
| StructMapConvert.FillLeavesUnselected | convert/struct_map_convert.go:84-104 | a field the loop does not select keeps its data |
| StructMapConvert.FillSetsSelected | convert/struct_map_convert.go:84-104 | after a successful loop every selected field holds what setFieldValue made of its entry |
| StructMapConvert.FillStopsAtFailure | convert/struct_map_convert.go:99-101 | a failing loop reports the failure of some selected field and leaves every later field as it was |
| StructMapConvert.ReadTextNarrowsSigned | convert/struct_map_convert.go:203-216 | a signed field given text ToInt64 reads as n takes n when it fits, else refuses it and keeps its value |
| StructMapConvert.ReadTextNarrowsUnsigned | convert/struct_map_convert.go:217-230 | the same for unsigned fields and ToUint64 |
| StructMapConvert.TextNarrowsSigned | convert/struct_map_convert.go:203-216 | the decimal text of an int64 is taken by a signed field exactly when in range, else refused as out of range |
| StructMapConvert.TextNarrowsUnsigned | convert/struct_map_convert.go:217-230 | the decimal text of a uint64 is taken by an unsigned field exactly when in range |
| StructMapConvert.IntegerSkipsRangeCheck | convert/struct_map_convert.go:188-191 | as written, an integer of another integer type is wrapped into the field's range without an error |
| StructMapConvert.ThreeHundredIntoInt8 | convert/struct_map_convert.go:188-191 | as written, 300 as an int becomes 44 in an int8 field, while its text is refused |
| StructMapConvert.IntegerBecomesRune | convert/struct_map_convert.go:188-191 | as written, an integer given to a string field is read as a rune: 65 becomes "A" |
| StructMapConvert.SetSimpleChecked | convert/struct_map_convert.go:184-238 | corrected: a value of the field's type, for a signed field from a non-assignable value the number the value stands for, and for every non-integer value the same result as SetSimple |
| StructMapConvert.CheckedIntegers | convert/struct_map_convert.go:203-230 | corrected: an integer is taken by a sized integer field exactly when in range and keeps its number; a string field gets its decimal text |
| StructMapConvert.CheckedSamples | convert/struct_map_convert.go:195-216 | corrected: 300 is refused by an int8 field and 65 becomes "65" |
| StructMapConvert.Cell.constructor | convert/struct_map_convert.go:152-170 | reflect.New: a variable of the type holding its zero value |
| StructMapConvert.FillStructFromMap | convert/struct_map_convert.go:74-105 | the errors for a nil map, nil out, non-pointer or nil pointer, and non-struct change nothing; otherwise the struct becomes what the field loop makes of it |
| StructMapConvert.EntryOf | convert/struct_map_convert.go:42-63 | a nil pointer gives a nil entry; a nested map exactly for a struct or a non-nil pointer to a struct |
| StructMapConvert.Deref | convert/struct_map_convert.go:20-29 | one dereference yields a value of its type |
| StructMapConvert.StructEntries | convert/struct_map_convert.go:32-64 | the loop over the fields builds the map Entries describes |
| StructMapConvert.ToMapFromStruct | convert/struct_map_convert.go:16-66 | nil and nil pointers are errors, anything but a struct after one dereference is an error; a struct gives the map of its exported, unskipped fields |
| StructMapConvert.EntryWriter | convert/struct_map_convert.go:32-64 | every entry was written by an exported, unskipped field under that field's key |
| StructMapConvert.LastWriterWins | convert/struct_map_convert.go:32-64 | under a shared key the last such field's entry is kept |
| StructMapConvert.EntriesKeys | convert/struct_map_convert.go:32-64 | the keys are exactly those of the exported, unskipped fields |
| StructMapConvert.NilPointerEntry | convert/struct_map_convert.go:42-46 | a nil pointer field is a nil entry |
| StructMapConvert.FillSucceeds | convert/struct_map_convert.go:84-104 | the loop succeeds when every selected field takes its entry |
| StructMapConvert.PlainValues | convert/struct_map_convert.go:74-105 | exactly the entries holding a plain value |
| StructMapConvert.FlatEntry | convert/struct_map_convert.go:32-64 | in a flat struct each field's entry is its own value under its own key |
| StructMapConvert.FlatRoundTrip | convert/struct_map_convert.go:16-105 | ToMapFromStruct then FillStructFromMap with the same tag restores a flat struct whatever it held before |
| Collections.Contains | collections/generic_collections_util.go:10-17 | true exactly when an element equals target |
| Collections.IndexOf | collections/generic_collections_util.go:24-31 | -1 exactly when target is absent; otherwise an index holding target with no target before it |
| Collections.Dedup | collections/generic_collections_util.go:37-47 | no longer than the input |
| Collections.FirstIndex | collections/generic_collections_util.go:37-47 | the first index holding the element |
| Collections.DedupElements | collections/generic_collections_util.go:37-47 | the result holds exactly the input's elements |
| Collections.DedupDistinct | collections/generic_collections_util.go:37-47 | no element is repeated |
| Collections.FirstIndexPrefix | collections/generic_collections_util.go:37-47 | the first index in a prefix holding the element is its first index in the whole |
| Collections.FirstIndexAt | collections/generic_collections_util.go:37-47 | an occurrence with none before it is the first |
| Collections.PrefixOrder | collections/generic_collections_util.go:37-47 | an order by first occurrence in a prefix is one in the whole |
| Collections.AppendOrder | collections/generic_collections_util.go:37-47 | an element first occurring after all kept ones extends the order |
| Collections.DedupFirstOccurrenceOrder | collections/collections_boundary_test.go:12-33 | the kept elements come in the order of their first occurrence |
| Collections.Unique | collections/generic_collections_util.go:37-47 | the loop with its seen set keeps the first occurrence of each element in order: no repeats, the same elements |
| Collections.Map | collections/generic_collections_util.go:54-60 | same length, fn applied at every position |
| Collections.Kept | collections/generic_collections_util.go:67-75 | no longer than the input |
| Collections.Filter | collections/generic_collections_util.go:67-75 | the loop keeps the accepted elements in order |
| Collections.KeptElements | collections/collections_boundary_test.go:35-58 | exactly the accepted elements are kept; all when all are accepted, none when none are |
| Collections.Keys | collections/generic_collections_util.go:81-87 | every key once and nothing else |
| Collections.Values | collections/generic_collections_util.go:93-99 | one value per key, along an order listing each key once |
| Collections.Merge | collections/generic_collections_util.go:106-115 | a key is in the result iff it is in a or b; b's value wins, a's stays where b lacks the key |
| Collections.GetOrDefault | collections/generic_collections_util.go:123-128 | the stored value when present, def otherwise |
| KVCache.Cache.constructor | kvcache/kvcache.go:18-22 | an empty cache |
| KVCache.Cache.Set | kvcache/kvcache.go:29-34 | the store is the old one with the key set; the count grows by one exactly for a new key |
| KVCache.Cache.Get | kvcache/kvcache.go:41-46 | ok exactly when the key is present, with its value; otherwise the zero value |
| KVCache.Cache.Delete | kvcache/kvcache.go:52-61 | deleted exactly when the key was present; the store loses that key only, and the count drops by one exactly then |
| KVCache.Cache.Has | kvcache/kvcache.go:67-72 | true exactly when the key is present |
| KVCache.Cache.Len | kvcache/kvcache.go:78-83 | the number of keys |
| KVCache.Cache.Clear | kvcache/kvcache.go:89-93 | the store is empty |
| KVCache.Cache.Keys | kvcache/kvcache.go:99-107 | every key once and nothing else |
| KVCache.Cache.Values | kvcache/kvcache.go:113-121 | one value per key, along some order listing each key once |
| KVCache.OverwriteKeepsLen | kvcache/kvcache.go:29-34 | overwriting a present key keeps the count |
| KVCache.InsertGrowsLen | kvcache/kvcache.go:29-34 | setting a new key adds one |
| KVCache.DeleteShrinksLen | kvcache/kvcache.go:52-61 | deleting a present key removes exactly one, and the key is then absent |
| StrUtil.IsEmpty | strutil/strutil.go:12-17 | true exactly when every rune is white space |
| StrUtil.TrimmedPieceIsFixed | strutil/strutil.go:91-92 | a kept piece is exactly a non-empty string that trimming leaves unchanged |
| StrUtil.NonEmptyTrimmed | strutil/strutil.go:89-95 | no more pieces than parts |
| StrUtil.NonEmptyTrimmedPieces | strutil/strutil.go:89-95 | every kept piece is non-empty and already trimmed |
| StrUtil.SplitTrimNonEmpty | strutil/strutil.go:85-97 | the loop gives the trimmed non-empty parts of the split, in order, each non-empty and trimmed |
| StrUtil.SafeSubstring | strutil/strutil.go:105-134 | as intended: a negative start counts as 0; length 0 or a start past the end gives ""; otherwise the runes from start, `length` of them or to the end when length is negative or too long |
| StrUtil.WrappedSum | strutil/strutil.go:126-127 | `start+length` on Go's 64-bit int is the true sum while it fits and a negative number once it passes the int64 maximum |
| StrUtil.Substring | strutil/strutil.go:105-134 | as written: it panics (`None`) exactly when length > 0, start lies inside the string and start+length passes the int64 maximum; otherwise it gives what SafeSubstring gives |
| StrUtil.SubstringOverflowPanics | strutil/strutil.go:126-133 | `Substring("ab", 1, MaxInt64)` panics where the intended result is "b"; one less gives "b" |
| StrUtil.Reversed | strutil/strutil.go:140-148 | same length, rune k is rune n-1-k of the input |
| StrUtil.ReversedTwice | strutil/strutil_boundary_test.go:29-39 | reversing twice gives the string back |
| StrUtil.Reverse | strutil/strutil.go:140-148 | the two-pointer swap loop yields the reversed runes |
| StrUtil.PadLeft | strutil/strutil.go:156-163 | s unchanged when long enough; otherwise pad repeated for the missing runes, then s; a one-rune pad reaches exactly totalLen with s at the end |
| StrUtil.PadRight | strutil/strutil.go:171-178 | s unchanged when long enough; otherwise s, then pad repeated; a one-rune pad reaches exactly totalLen with s at the start |
| Captcha.EffectiveAlphabet | captcha/captcha.go:25-27 | an empty alphabet is replaced by the default one, so the alphabet drawn from is never empty |
| Captcha.GenerateCodeString | captcha/captcha.go:21-42 | the buffer loop gives the code for the draws: empty for length <= 0, else one alphabet character per random byte (or fallback index) |
| Captcha.CodeTextShape | captcha/captcha.go:21-42 | the code has max(length, 0) characters, each from the alphabet; a crypto/rand byte reaches only the first 256 characters |
| Captcha.SingleCharacterCode | captcha/captcha_alpha_test.go:77-81 | a one-character alphabet gives that character repeated length times, whatever the draws |
| Captcha.FiveTimesX | captcha/captcha_alpha_test.go:77-81 | GenerateCodeString(5, "X") is "XXXXX" whatever the draws |
| Captcha.CodeTextReaches | captcha/captcha.go:28-41 | with at most 256 characters, every non-empty string over the alphabet is produced by some crypto/rand bytes |
| Captcha.MarkAll | captcha/captcha.go:140-144 | after the loop a character is marked exactly when it was marked before or occurs in the string |
| Captcha.SelectRanges | captcha/captcha.go:132-137 | the chosen ranges appended in the order A-Z, a-z, 0-9, with A-Z when none is chosen |
| Captcha.BuildAlphabet | captcha/captcha.go:130-157 | the gather, exclude and first-occurrence loops give exactly the selection without excluded characters and without repeats |
| Captcha.RangeClasses | captcha/captcha.go:133-135 | each range is of one character class and has no repeated character |
| Captcha.AppendClass | captcha/captcha.go:133-135 | appending a distinct run of the next class keeps the sequence distinct and its classes ordered |
| Captcha.SelectedShape | captcha/captcha.go:132-137 | the selection has no repeated character and its classes never decrease |
| Captcha.KeptDistinct | captcha/captcha.go:149-155 | dropping excluded characters keeps a distinct sequence distinct |
| Captcha.KeptOrdered | captcha/captcha.go:149-155 | dropping excluded characters keeps the class order |
| Captcha.OrderedSnoc | captcha/captcha.go:149-155 | appending a character of at least every earlier class keeps the class order |
| Captcha.DedupOfDistinct | captcha/captcha.go:147-155 | first-occurrence deduplication leaves a sequence without repeats unchanged |
| Captcha.AlphabetOrder | captcha/captcha.go:128-157 | the alphabet is the selection in its own order with excluded characters dropped; it has no duplicates, and upper case precedes lower case precedes digits |
| Captcha.AlphabetMembers | captcha/captcha.go:130-157 | a character is in the alphabet exactly when a chosen range (A-Z when none) holds it, it is not custom-excluded and, with excludeAmbiguous, it is not one of O 0 I 1 l |
| Captcha.SelectedMembers | captcha/captcha.go:132-137 | a character is selected exactly when a chosen range, or A-Z when none is chosen, holds it |
| Captcha.NoneSelectedIsUpper | captcha/captcha.go:136-137 | choosing no range gives the same alphabet as choosing upper case only |
| Captcha.KeptAppend | captcha/captcha.go:149-155 | the exclusion filter distributes over concatenation |
| Captcha.KeptAll | captcha/captcha.go:149-155 | filtering a sequence whose every character is kept leaves it unchanged |
| Captcha.AmbiguousChars | captcha/captcha.go:142-144 | the ambiguous set is exactly O, 0, I, 1 and l |
| Captcha.KeptAllBut | captcha/captcha.go:149-155 | filtering drops the one excluded character between two kept runs |
| Captcha.KeptNone | captcha/captcha.go:149-155 | filtering a sequence with no kept character gives the empty sequence |
| Captcha.KeptUpperUnambiguous | captcha/captcha.go:142-155 | A-Z under the ambiguous exclusion loses exactly I and O |
| Captcha.KeptDigitsUnambiguous | captcha/captcha.go:142-155 | 0-9 under the ambiguous exclusion loses exactly 0 and 1 |
| Captcha.DefaultAlphabetAt | captcha/captcha.go:25-27 | the default alphabet has 32 characters: A-H, J-N, P-Z, then 2-9 |
| Captcha.DefaultAlphabetPieces | captcha/captcha.go:25-27 | A-Z without I and O followed by 2-9 spells the default alphabet |
| Captcha.UpperDigitsUnambiguous | captcha/captcha_alpha_test.go:11-17 | BuildAlphabet(true, false, true, true, "") is the default alphabet of GenerateCodeString |
| Captcha.KeptLowerWithoutABCL | captcha/captcha_alpha_test.go:23-29 | a-z without a, b, c and l, for every filter dropping exactly those |
| Captcha.LowerDigitsPieces | captcha/captcha_alpha_test.go:23-29 | the kept pieces of a-z and 0-9 spell "defghijkmnopqrstuvwxyz23456789" |
| Captcha.LowerDigitsWithoutABC | captcha/captcha_alpha_test.go:23-29 | BuildAlphabet(false, true, true, true, "abc") is "defghijkmnopqrstuvwxyz23456789" |
| Captcha.NoneSelectedNothingExcluded | captcha/captcha_alpha_test.go:35-41 | BuildAlphabet(false, false, false, false, "") is A-Z |
| Captcha.CheckImageInput | captcha/captcha.go:52-63 | the scan returns the first failing check in source order: empty code, a non-digit, a size under 30x20 |
| Captcha.ImageInputAccepted | captcha/captcha.go:52-63 | the input is accepted exactly for a non-empty all-digit code on at least 30x20 pixels |
| Captcha.ImageInputSamples | captcha/captcha_image_test.go:37-49 | "12A" is refused as a non-digit, "123" on 20x10 as too small, "1234" on 160x50 is accepted |
| Captcha.Image.constructor | captcha/captcha.go:68 | a width x height RGBA image with every pixel transparent black |
| Captcha.FillRect | captcha/captcha.go:213-226 | after ordering and clipping the corners, exactly the in-image pixels of the half-open rectangle take the color; all others keep theirs |
| Captcha.DrawDigit7Seg | captcha/captcha.go:169-205 | exactly the pixels some lit segment of the digit covers take the color; a digit outside 0..9 changes nothing |
| Captcha.EightAndOne | captcha/captcha.go:187-198 | eight lights all seven segments and one lights the two on the right |
| Captcha.DigitsDistinguishable | captcha/captcha.go:187-198 | no two digits light the same set of segments |
| Captcha.MaxInt | captcha/captcha.go:259 | the larger of the two: at least both, and equal to one |
| Captcha.AbsInt | captcha/captcha.go:264 | the magnitude: non-negative and equal to v or -v |
| CryptoRand.RandomInt | cryptorand/crypto_rand_util.go:58-65 | min when max < min; otherwise a value in the closed range [min, max], and min itself when min == max |
| CryptoRand.RandomIntReaches | cryptorand/crypto_rand_util.go:58-65 | every value of [min, max] is returned for some draw of Intn |
| CryptoRand.RandomIntAsWrittenAgrees | cryptorand/crypto_rand_util.go:58-65 | on 64-bit ints, below the wrap-around of max-min+1, the code as written returns what RandomInt returns |
| CryptoRand.RandomIntAsWrittenPanics | cryptorand/crypto_rand_util.go:64 | a range of 2^63 or more values wraps max-min+1 to a count that Intn refuses with a panic |
| CryptoRand.NonNegativeRangePanics | cryptorand/crypto_rand_util.go:64 | RandomInt(0, math.MaxInt64) panics as written |
| CryptoRand.LetterAt | cryptorand/crypto_rand_util.go:72 | every position of the alphabet holds an ASCII letter or digit |
| CryptoRand.LettersAt | cryptorand/crypto_rand_util.go:72 | the alphabet has 62 characters: a-z, then A-Z, then 0-9 |
| CryptoRand.LetterIndex | cryptorand/crypto_rand_util.go:72 | every ASCII letter or digit sits at some position below 62 |
| CryptoRand.LettersAreLetters | cryptorand/crypto_rand_util.go:72 | the alphabet holds exactly the ASCII letters and digits |
| CryptoRand.Pick | cryptorand/crypto_rand_util.go:81-88 | a crypto/rand byte modulo the alphabet size, or the fallback Intn index, always selects an alphabet character |
| CryptoRand.Picks | cryptorand/crypto_rand_util.go:76-90 | one picked character per draw, in order |
| CryptoRand.RandomString | cryptorand/crypto_rand_util.go:71-91 | the buffer loop gives the text for the draws: empty for length <= 0, else one letter per draw |
| CryptoRand.RandomTextShape | cryptorand/cryptorand_boundary_test.go:33-47 | the string has max(length, 0) characters, each an ASCII letter or digit |
| CryptoRand.BytesFor | cryptorand/crypto_rand_util.go:81-88 | a byte sequence that selects each letter of the given text |
| CryptoRand.RandomTextReaches | cryptorand/crypto_rand_util.go:71-91 | every non-empty string of ASCII letters and digits is returned for some crypto/rand bytes |
| CryptoRand.StampMasks | cryptorand/crypto_rand_util.go:108-110 | the version and variant masks on bytes equal the arithmetic of the stamp |
| CryptoRand.StampBits | cryptorand/crypto_rand_util.go:107-110 | the high nibble of byte 6 is 4 and the two high bits of byte 8 are 10; every other bit is the random input's |
| CryptoRand.StampIdempotent | cryptorand/crypto_rand_util.go:107-110 | stamping stamped bytes changes nothing |
| CryptoRand.HexDigit | cryptorand/crypto_rand_util.go:111-115 | a value below 16 becomes a lower-case hexadecimal digit |
| CryptoRand.HexValue | cryptorand/crypto_rand_util.go:111-115 | a lower-case hexadecimal digit has a value below 16 |
| CryptoRand.HexEncode | cryptorand/crypto_rand_util.go:111-115 | two lower-case digits per byte, high nibble first |
| CryptoRand.HexDecode | cryptorand/crypto_rand_util.go:111-115 | half as many bytes as digits |
| CryptoRand.HexRoundTrip | cryptorand/crypto_rand_util.go:111-115 | decoding the hexadecimal text gives the bytes back |
| CryptoRand.HexEncodeAppend | cryptorand/crypto_rand_util.go:111-115 | the text of a + b is the text of a followed by the text of b |
| CryptoRand.Groups | cryptorand/crypto_rand_util.go:111-115 | five hexadecimal groups of 8, 4, 4, 4 and 12 digits |
| CryptoRand.ParseGroups | cryptorand/crypto_rand_util.go:111-115 | a successful read yields only hexadecimal digits, one fewer separator than groups |
| CryptoRand.ParseJoin | cryptorand/crypto_rand_util.go:111-115 | groups of the given sizes joined by '-' are read back as their digits |
| CryptoRand.ConcatFive | cryptorand/crypto_rand_util.go:111-115 | five strings concatenated in order |
| CryptoRand.GroupDigits | cryptorand/crypto_rand_util.go:111-115 | the digits of the five groups are the hexadecimal text of all sixteen bytes |
| CryptoRand.UUIDRoundTrip | cryptorand/crypto_rand_util.go:97-116 | reading the UUIDv4 text back gives the stamped bytes, so distinct stamped bytes give distinct texts |
| CryptoRand.UUIDShape | cryptorand/cryptorand_boundary_test.go:56-77 | 36 characters in the 8-4-4-4-12 layout; the third group starts with '4' and the fourth with 8, 9, a or b |
| ConvertBase.BeforeComma | convert/struct_map_convert.go:124-127 | the prefix of the tag value up to, not including, its first comma; the whole value when it has none |
| Strconv.FormatUint | convert/base_convert.go:27-36 | strconv.FormatUint: non-empty digits of the base whose value is n, with no leading zero unless n is 0 |
| Strconv.ParseFormatUint | convert/base_convert.go:185-198 | strconv.ParseUint reads back what strconv.FormatUint writes in the same base |
| Strconv.ParseFormatInt | convert/base_convert.go:168-178 | strconv.ParseInt reads back what strconv.FormatInt writes in the same base |
| Strconv.InferPrefixed | convert/base_convert.go:53-58 | with base 0, a 0b, 0o or 0x prefix selects base 2, 8 or 16 for the digits after it, separators skipped when well placed |
| Strconv.ParseUint | convert/base_convert.go:193 | strconv.ParseUint: a success lies in 0..2^64-1 and needs non-empty text and a base of 0 or 2..36; with base 2..36 it reads the digits, with base 0 and no '_' the digits after the inferred prefix |
| Strconv.WithoutUnderscores | convert/base_convert.go:193 | the digits with every '_' separator dropped, unchanged when there is none |
| Strconv.DecimalStart | convert/base_convert.go:193 | with base 0, text starting with 1..9 is decimal, and reads as its digits without separators when the separators are well placed |
| Strconv.SeparatedDecimal | convert/base_convert.go:193 | with base 0, a '_' between two decimal digit runs is skipped: "a_b" reads as "ab" |
| Strconv.SeparatedSigned | convert/base_convert.go:173 | with base 0, strconv.ParseInt also skips such a separator, with or without a leading '-' |
| Strconv.SeparatedThousand | convert/base_convert.go:193 | with base 0, "1_000" reads as 1000 |
| Strconv.SeparatedHex | convert/base_convert.go:193 | with base 0, "0x_ff" reads as 255: a '_' may follow the base prefix |
| Strconv.MisplacedSeparators | convert/base_convert.go:193 | doubled, trailing or leading '_' is refused with base 0, and every '_' with an explicit base |
| Strconv.ParseInt | convert/base_convert.go:173 | strconv.ParseInt: a success lies in the int64 range and is negative only after a leading '-' |
| GoStd.Atoi | iniutil/ini_util.go:161 | strconv.Atoi: a success is an int64 given by an optional sign and decimal digits |
| GoStd.AtoiItoa | iniutil/ini_util.go:161 | strconv.Atoi reads back the decimal text of every int64 |
| GoStd.TrimSpace | iniutil/ini_advanced.go:252-262 | strings.TrimSpace: the text between the leading and trailing white space, starting and ending with non-space |
| GoStd.TrimSpaceIdempotent | iniutil/ini_advanced.go:252-262 | trimming twice is trimming once |
| GoStd.GoQuo | timeenv/lunar_convert.go:38 | Go's integer division truncates toward zero: the quotient's magnitude is the floor of the magnitudes' ratio, with the sign of the operands' product |
| GoStd.GoRem | numberchinese/number_chinese_int.go:15 | Go's remainder: dividend = divisor * quotient + remainder, smaller than the divisor in magnitude, with the dividend's sign |
| GoSort.SortStrings | iniutil/ini_util.go:227-245 | sort.Strings: the result is sorted and a permutation of the input |
| GoSort.StrictlySortedUnique | iniutil/ini_util.go:227-245 | two strictly sorted sequences with the same elements are equal, so the sorted keys are determined by the key set |
| Civil.GoDate | timeenv/time_ext_util.go:249 | time.Date normalisation of a month past December and of day 0: a valid date in the same month index, or the last day of the previous month |
| Civil.DayNumberInjective | timeenv/lunar_convert.go:30-36 | distinct civil dates have distinct day numbers |
| Civil.WeekdayShift | timeenv/time_ext_util.go:14-17 | moving k days moves the weekday by k modulo 7 |
| GoStd.EncodeRune | convert/struct_map_convert.go:188-191 | the UTF-8 encoding of a rune: one to four bytes, one exactly for ASCII |
| GoStd.DecodeRune | convert/struct_map_convert.go:188-191 | utf8.DecodeRune: the rune whose encoding starts the bytes and its width, or U+FFFD and width 1 |
| GoStd.EncodeRunes | convert/struct_map_convert.go:188-191 | `[]byte(s)`: bytes, at least one per rune |
| GoStd.DecodeRunes | convert/struct_map_convert.go:188-191 | the runes a range loop reads from bytes, at most one per byte |
| GoStd.DecodeRuneOfEncoded | convert/struct_map_convert.go:188-191 | decoding the encoding of a rune, whatever follows it, gives the rune and the encoding's width |
| GoStd.DecodeEncode | convert/struct_map_convert.go:188-191 | decoding the UTF-8 encoding of a text gives the text back, and the encoding is valid UTF-8 |
| GoStd.EncodeDecode | convert/struct_map_convert.go:188-191 | valid UTF-8 decodes to runes that encode back to the same bytes |

## Left out

Time and calendar (timeenv):
- SolarToLunar: counts whole civil days from 1900-01-31. The Go code divides a `time.Duration` between two local midnights by 24 hours. The two differ where the zone's UTC offset changed since 1900 (see Findings). `LunarClock` models the as-written arithmetic for fixed offsets; the time-zone database itself is not part of this model.
- LunarToSolar: returns the civil day. The Go code adds `offset * 24h` to the base instant, which ends off midnight where the zone's offset changed (see Findings).
- SolarToLunar: the Go range check compares instants with 2099-12-31 23:59:59.999999999. The model compares civil day numbers, which is the same in a zone with a fixed offset.
- StartOfWeek: steps back `delta * 24h` with `Add`. The model counts civil days, so the hour by which the Go result misses 00:00 across a DST change is not captured.
- EndOfWeek: inherits StartOfWeek's `Add(±n*24h)`, and across a DST change it is off by the same hour.
- NextWeekday: steps forward `delta * 24h` with `Add`, with the same DST gap as StartOfWeek.
- DiffDays: divides a Duration by 24 hours. Across a DST change a local day has 23 or 25 hours, so Go can count one day less. The model counts civil days.
- DiffDaysChain: additivity is stated only while each difference is within 106751 days, because Sub saturates beyond that and the sum of two saturated results is not the saturated whole.
- DiffHours: instants are local-clock nanoseconds (`Instant`). A change of UTC offset between the two times is not modelled.
- EndOfMonth: the same local-clock instants. So are EndOfYear, EndOfQuarter and the Get*Range functions.
- AddMonths: integers are unbounded. The int64 overflow of `int(m)-1+months`, and of the year, for month counts near ±2^63 is not modelled.
- FormatRFC3339, ParseRFC3339 and ToLocal: layout formatting and parsing and `Time.In` belong to Go's time package and its zone data. They are not part of this model.
- time_env_util.go: reads `time.Now` and environment variables. It is not part of this model.
- Throughout timeenv, the `time.Location` argument is a single local calendar, and times below a nanosecond do not occur.

Chinese numerals (numberchinese):
- ToChineseRMBUpperNumber: integer amounts are limited to |n| ≤ 2^53, where `float64(x)` is exact. The Go code converts any int, int64, uint or uint64 to float64 and so rounds larger values to a nearby multiple of a power of two. That rounding is not modelled.
- ncRoundTo and `strconv.FormatFloat`: ToChineseLowerFloat, ToChineseUpperFloat and ToChineseRMBUpper start from the sign and the fixed-point text that FormatFloat produced. Binary floating-point rounding is not modelled.
- ToChineseLowerNumber and ToChineseUpperNumber: float32 and float64 arguments go through that same text.

INI (iniutil):
- LoadFromReader: the input is its sequence of lines. `bufio.Scanner`'s failure on a line over 64 KiB (`bufio.ErrTooLong`) and reader errors are not modelled.
- SaveToWriter: returns the text it writes. Write and `Flush` errors of the writer are not modelled.
- LoadFromFile, SaveToFile and LoadFromFileWithOptions: open or create a file and call the stream versions. File I/O is not part of this model.
- LoadFromReaderWithOptions: an include directive asks a `Resolver` parameter (`iniadvanced.dfy`) for the configuration the included stream loads to. The default `os.Open` relative to `BaseDir` is not modelled. The error that the Go `IncludeResolver` returns is overwritten by the next assignment and so ignored. The model follows the resolver's result and stops on an error.
- Interpolate: Go walks the sections and keys in map order, which is unspecified. The model takes that order as the parameter `order`, and its lemmas hold for every order.
- GetFloat64: parses a float and is not modelled.
- GetBool: lower-cases ASCII letters only, where Go's `strings.ToLower` maps all of Unicode. No non-ASCII letter lower-cases to a letter of the accepted words, so the verdicts agree.

Validators and conversions:
- IsChineseIDCard: upper-cases ASCII letters only. Go's `strings.ToUpper` also maps 'ſ' to 'S' and 'ı' to 'I'. Neither is a character the check accepts, so the verdicts agree. Go counts 18 bytes where the model counts 18 runes, and a non-ASCII character fails the digit check in both.
- IsUnifiedSocialCreditCode: the same ASCII-only upper-casing. 'S' and 'I' are outside its alphabet, so the verdicts agree.
- IsEmail, IsMobileCN, IsURL, IsIP, IsCNPatentApplicationNo and IsCNPatentNo: each is one call into Go's regexp engine, `net/url` or `net.ParseIP`. They are not part of this model.
- ToBool: lower-cases ASCII letters only. Go's `strings.ToLower` maps the Kelvin sign U+212A to 'k', so Go accepts "oK" as "ok" and the model refuses it.
- ToFloat64 and ToFloat32: floating point is not modelled. So are the float cases of ToInt, ToInt64, ToUint64, ToString, ToBool and the base conversions.
- ConvertError: the error kind is modelled. The message text (`fmt.Sprintf` of the value) is not.
- ToString and the `%#v` keys of UniqueSlice: a value of another type carries the text its `String` method or `fmt` gives it as data (`Named`, `show`). `fmt`'s formatting itself is not modelled.
- UniqueSlice and UniqueSliceByField: the runtime panic "hash of unhashable type" is the result `Err(UnhashablePanic)`, and whether a dynamic value can be hashed is the `hashable` parameter rather than Go's type information.
- Strconv.ParseUint and Strconv.ParseInt: a syntax error and a range error are both `None`; the error text the wrappers pass on is not modelled.
- FillStructFromMap: struct fields are a sequence of typed cells. Reflection is not modelled. Neither are unexported embedded structs, `CanSet` on unaddressable values, float fields, field types other than the ones `FieldType` lists (a slice of another element type, a channel or another map type is `OtherType`, which no value converts into), or pointer aliasing between fields.
- SetSimple: strings are rune sequences, so a []byte that is not valid UTF-8 becomes, in a string field, the runes a range loop reads from it (U+FFFD per bad byte) rather than its raw bytes. A nil slice and an empty slice are not told apart.
- ToMapFromStruct: the error branch for a nested pointer-to-struct field cannot be reached, because the nested call gets a struct. The model returns no error there.
- Go map iteration order (Keys, Values, ToSliceFromMapKeys, ToSliceFromMapValues, Merge): results are stated as sets and multisets, or for whatever order the walk takes.

Other packages:
- KVCache: the `sync.RWMutex` only serialises callers. The model is single-threaded map semantics.
- StrUtil: Trim, ToUpper, ToLower, ContainsSubstr, ReplaceAll, Split and Join are single calls into Go's `strings` package. They are not part of this model beyond the helpers in `gostd.dfy`.
- Substring: works on runes, as the Go code does. The byte offsets Go's `for range` computes along the way are not modelled. Go's `int` is taken to be 64 bits wide, and the panic on an index out of range is the result `None`.
- GenerateCodeString: the alphabet is a sequence of runes, while Go indexes its bytes. The two agree for ASCII alphabets, including every alphabet BuildAlphabet builds. A non-ASCII alphabet makes Go emit byte fragments, which are not modelled.
- GenerateDigitCodeImagePNG: only the input checks are modelled, plus `fillRect` and `drawDigit7Seg` on an image. The random jitter, `drawLine` (floating point), the noise and `png.Encode` are not. captcha_text.go (fonts, rotation, warping) is not part of this model.
- AbsInt: on unbounded integers. Go's `absInt(math.MinInt)` overflows and returns `math.MinInt`. The package calls it only on small coordinate differences.
- CryptoRand: crypto/rand and math/rand are parameters (the bytes read, the values Intn returned). So is the fallback that happens when crypto/rand fails. `mrand.Seed` and the hash helpers (MD5String, SHA256String, HmacSHA256, SHA512String) are not part of this model.
- filejson and netutil: file-system, JSON and network-interface I/O. They are not part of this model.

## Findings

| source | as written | input that shows it | evidently intended | confidence | as-written member | corrected member |
|---|---|---|---|---|---|---|
| timeenv/lunar_convert.go:38 | the day offset is a `time.Duration` between local midnights divided by 24h, truncated | `time.Local` = America/New_York, 1900-01-31 at -05:00 and a July date at -04:00: the offset is one day short, so the lunar date of the day before is returned | the number of civil days since 1900-01-31 | not executed | LunarClock.SummerDayReadsAsDayBefore | Lunar.SolarToLunar |
| timeenv/lunar_convert.go:129 | the solar date is `base.Add(offset*24h)` from a 1900 local midnight | `time.Local` = Asia/Shanghai (+08:05:43 in 1900, +08:00 now): every result is 23:54:17 on the day before | midnight of the civil day `offset` days after 1900-01-31 | not executed | LunarClock.ZoneBehindEndsDayBefore | Lunar.LunarToSolar |
| cryptorand/crypto_rand_util.go:64 | `min + mrand.Intn(max-min+1)` on int | `RandomInt(0, math.MaxInt64)`: `max-min+1` wraps to a negative count and Intn panics | a value in [min, max] for every min <= max | not executed | CryptoRand.NonNegativeRangePanics | CryptoRand.RandomInt |
| convert/type_convert_numeric.go:238-247 | ToInt32 and ToInt16 range-check `ToInt64(v)`, which reinterprets a uint64 above 2^63-1 as negative | `ToInt32(uint64(math.MaxUint64))` returns -1 with no error | an out-of-range error for any value outside the target range | not executed | ConvertNumeric.LargestUintNarrowsToMinusOne | ConvertNumeric.ToSignedChecked |
| convert/struct_map_convert.go:188-191 | a value convertible to the field's type is set with `reflect.Value.Convert`, before the range checks | `FillStructFromMap` with `map{"A": 300}` into an `int8` field sets 44 with no error; the text "300" is refused | the out-of-range error of lines 206-229 for integer values too | not executed | StructMapConvert.ThreeHundredIntoInt8 | StructMapConvert.SetSimpleChecked |
| convert/struct_map_convert.go:188-191 | an int is convertible to string, so `Convert` reads it as a code point | `map{"S": 65}` into a `string` field sets "A" | the `%v` text "65", as the string case at lines 195-197 gives | not executed | StructMapConvert.IntegerBecomesRune | StructMapConvert.SetSimpleChecked |
| strutil/strutil.go:126-133 | `end := start+length` on int, compared with the rune count and then used as an index | `Substring("ab", 1, math.MaxInt64)`: the sum wraps to a negative `end` and `runePositions[end]` panics | the runes from start to the end of the string, "b" | not executed | StrUtil.SubstringOverflowPanics | StrUtil.SafeSubstring |
