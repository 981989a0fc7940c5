// A reader for the Chinese numerals the numberchinese package writes. It is
// the partner of the writers: reading back what they write recovers the
// number (NumberChineseInt.IntegerTextReads, NumberChineseFloat and
// NumberChineseRmb). It reads left to right and keeps the value of the
// groups already closed by 万/亿/兆/京/垓 in `total`, the value of the current
// four-digit group in `section` and the last digit read in `pending`.
// A unit with no digit before it counts once, which is how "十" stands for
// "一十"; "零" only resets `pending`.

module ChineseNumeralReader {
  import Collections

  datatype Reading = Reading(
    negative: bool,      // "负" has been read
    total: int,          // the closed groups (or, after "元", the amount in fen)
    section: int,        // the current group up to its tens
    pending: int,        // the last digit read
    inFraction: bool,    // "点" has been read
    fraction: int,       // the digits read after "点", as one decimal number
    places: int)         // how many digits were read after "点"

  const Start: Reading := Reading(false, 0, 0, 0, false, 0, 0)

  /** The value of 千, 百 and 十 (0 for any other rune). */
  function SmallUnitValue(c: char): (v: int)
    ensures v == 0 || v == 10 || v == 100 || v == 1000
  {
    if c == '十' then 10 else if c == '百' then 100 else if c == '千' then 1000 else 0
  }

  /** The value of 万, 亿, 兆, 京 and 垓 (0 for any other rune). */
  function BigUnitValue(c: char): (v: int)
    ensures v >= 0
  {
    if c == '万' then 10000
    else if c == '亿' then 1_0000_0000
    else if c == '兆' then 1_0000_0000_0000
    else if c == '京' then 1_0000_0000_0000_0000
    else if c == '垓' then 1_0000_0000_0000_0000_0000
    else 0
  }

  /** The runes that are not digits: units, the sign, the point and the currency words. */
  predicate IsMarker(c: char)
  {
    || SmallUnitValue(c) > 0 || BigUnitValue(c) > 0
    || c == '负' || c == '点' || c == '元' || c == '角' || c == '分' || c == '整'
  }

  /** A digit table: ten distinct runes, "零" first, none of them a marker. */
  predicate DigitTable(digits: seq<char>)
  {
    && |digits| == 10
    && digits[0] == '零'
    && Collections.Distinct(digits)
    && (forall i :: 0 <= i < 10 ==> !IsMarker(digits[i]))
  }

  /** n times the value of the unit c (0 for any other rune), with the unit's value written out. */
  function UnitTimes(c: char, n: int): int
  {
    if c == '十' then 10 * n
    else if c == '百' then 100 * n
    else if c == '千' then 1000 * n
    else if c == '万' then 10000 * n
    else if c == '亿' then 1_0000_0000 * n
    else if c == '兆' then 1_0000_0000_0000 * n
    else if c == '京' then 1_0000_0000_0000_0000 * n
    else if c == '垓' then 1_0000_0000_0000_0000_0000 * n
    else 0
  }

  /** The total after reading the marker c. */
  function TotalAfter(r: Reading, c: char): int
  {
    if SmallUnitValue(c) > 0 then r.total
    else if BigUnitValue(c) > 0 then r.total + UnitTimes(c, r.section + r.pending)
    else if c == '点' then r.total + r.section + r.pending
    else if c == '元' then (r.total + r.section + r.pending) * 100
    else if c == '角' then r.total + r.pending * 10
    else if c == '分' then r.total + r.pending
    else r.total
  }

  /** The section after reading the marker c. */
  function SectionAfter(r: Reading, c: char): int
  {
    if SmallUnitValue(c) > 0 then r.section + UnitTimes(c, if r.pending == 0 then 1 else r.pending)
    else if BigUnitValue(c) > 0 || c == '点' || c == '元' then 0
    else r.section
  }

  /** The pending digit after reading the marker c. */
  function PendingAfter(r: Reading, c: char): int
  {
    if SmallUnitValue(c) > 0 || BigUnitValue(c) > 0 || c == '点' || c == '元' || c == '角' || c == '分' then 0
    else r.pending
  }

  /**
   * Read one rune. A digit of the table is pending, or after "点" goes to
   * the fraction. 千/百/十 add the pending digit (or one) times the unit to
   * the section; 万 and the higher units move the section, times the unit,
   * to the total; "点" closes the integer part; "元" closes it in fen;
   * 角 and 分 add tens and units of fen; "负" sets the sign. Any other
   * rune is ignored.
   */
  function Step(digits: seq<char>, r: Reading, c: char): Reading
  {
    var digit := c in digits;
    Reading(
      r.negative || (!digit && c == '负'),
      if digit then r.total else TotalAfter(r, c),
      if digit then r.section else SectionAfter(r, c),
      if !digit then PendingAfter(r, c)
      else if r.inFraction then r.pending
      else Collections.FirstIndex(digits, c),
      r.inFraction || (!digit && c == '点'),
      if digit && r.inFraction then r.fraction * 10 + Collections.FirstIndex(digits, c) else r.fraction,
      if digit && r.inFraction then r.places + 1 else r.places)
  }

  /** Read a string from left to right. */
  function Read(digits: seq<char>, r: Reading, s: string): Reading
    decreases |s|
  {
    if s == [] then r else Read(digits, Step(digits, r, s[0]), s[1..])
  }

  /** The number read so far, without its sign. */
  function Value(r: Reading): int
  {
    r.total + r.section + r.pending
  }

  /** The number read so far, with its sign. */
  function SignedValue(r: Reading): int
  {
    if r.negative then -Value(r) else Value(r)
  }

  /** Reading a concatenation reads the first part, then the second. */
  lemma {:induction false} ReadAppend(digits: seq<char>, r: Reading, a: string, b: string)
    ensures Read(digits, r, a + b) == Read(digits, Read(digits, r, a), b)
    decreases |a|
  {
    if a == [] {
      assert a + b == b;
    } else {
      assert (a + b)[0] == a[0];
      assert (a + b)[1..] == a[1..] + b;
      ReadAppend(digits, Step(digits, r, a[0]), a[1..], b);
    }
  }

  /** Once a has been read into r1, reading a + b goes on from r1. */
  lemma ReadThen(digits: seq<char>, r: Reading, a: string, b: string, r1: Reading)
    requires Read(digits, r, a) == r1
    ensures Read(digits, r, a + b) == Read(digits, r1, b)
  {
    ReadAppend(digits, r, a, b);
  }

  /** Reading a one-rune string is one step. */
  lemma ReadOne(digits: seq<char>, r: Reading, c: char)
    ensures Read(digits, r, [c]) == Step(digits, r, c)
  {
    assert [c][1..] == [];
  }

  /** A digit of a digit table reads as its position in the table. */
  lemma StepDigit(digits: seq<char>, r: Reading, d: int)
    requires DigitTable(digits) && 0 <= d < 10
    ensures Read(digits, r, [digits[d]])
            == if r.inFraction then r.(fraction := r.fraction * 10 + d, places := r.places + 1) else r.(pending := d)
  {
    ReadOne(digits, r, digits[d]);
    var i := Collections.FirstIndex(digits, digits[d]);
    assert i == d;
  }

  /** A marker is never taken for a digit. */
  lemma StepMarker(digits: seq<char>, r: Reading, c: char)
    requires DigitTable(digits) && IsMarker(c)
    ensures Read(digits, r, [c]) == Step(digits, r, c)
    ensures c !in digits
  {
    ReadOne(digits, r, c);
  }
}
