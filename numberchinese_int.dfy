// Integers written in Chinese numerals (numberchinese/number_chinese_int.go).
// A number is cut into four-digit groups, lowest first; each group is
// written by fourDigitToChinese, followed by its big unit, and the groups are
// put together from the highest down with "零" between them where needed.
//
// fourDigitToChinese sets prevZero on every zero digit, leading zeros
// included, and clears it only when it writes a "零"; so a group whose
// leading places are zero gets a "零" after its first written place:
// 11 is written "十零一" and 123 in upper case "壹百零贰十叁". The model keeps
// this, and the reader still reads such text back to the number.
//
// Both functions collect pieces in a []string and join them at the end
// (ncJoinStrings). The model appends each piece to the joined string
// directly: whenever the Go code appends, at least one non-empty piece goes
// in, so `len(out) > 0` holds exactly when the joined text is non-empty.

module NumberChineseInt {
  import Seqs
  import opened GoStd
  import opened ChineseNumeralReader
  import opened NumberChineseBase

  // ---------------------------------------------------------------------
  // fourDigitToChinese

  /** The digits of a group: thousands, hundreds, tens and units. */
  function Places(group: nat): (vals: seq<int>)
    ensures PlaceDigits(vals)
  {
    [group / 1000 % 10, group / 100 % 10, group / 10 % 10, group % 10]
  }

  /** Four decimal digits. */
  predicate PlaceDigits(vals: seq<int>)
  {
    |vals| == 4 && forall i :: 0 <= i < 4 ==> 0 <= vals[i] < 10
  }

  /** d times the weight of place i < 3: 1000, 100 or 10. */
  function PlaceTimes(i: int, d: int): int
  {
    if i == 0 then 1000 * d else if i == 1 then 100 * d else 10 * d
  }

  /** The value of the places from i to the tens. */
  function PlacesValue(vals: seq<int>, i: int): int
    requires PlaceDigits(vals) && 0 <= i <= 4
    decreases 4 - i
  {
    if i >= 3 then 0 else PlaceTimes(i, vals[i]) + PlacesValue(vals, i + 1)
  }

  /** A group below 10000 is the value of its places plus its units digit. */
  lemma GroupDigits(group: nat)
    requires group < 10000
    ensures PlacesValue(Places(group), 0) + group % 10 == group
  {
    var a := group / 10;
    var b := a / 10;
    var c := b / 10;
    assert group / 100 == b;
    assert group / 1000 == c;
    assert c < 10;
    assert PlacesValue(Places(group), 0) == c * 1000 + (b % 10) * 100 + (a % 10) * 10;
  }

  /** The first place holding a non-zero digit, or 4 when there is none. */
  function HighestPlace(vals: seq<int>): (h: int)
    requires PlaceDigits(vals)
    ensures 0 <= h <= 4
    ensures forall j :: 0 <= j < h ==> vals[j] == 0
    ensures h < 4 ==> vals[h] != 0
  {
    if vals[0] != 0 then 0
    else if vals[1] != 0 then 1
    else if vals[2] != 0 then 2
    else if vals[3] != 0 then 3
    else 4
  }

  /** A group below 10000 has no non-zero place exactly when it is 0. */
  lemma HighestPlaceOfZero(group: nat)
    requires group < 10000
    ensures HighestPlace(Places(group)) == 4 <==> group == 0
  {
    GroupDigits(group);
  }

  /**
   * What the digit loop of fourDigitToChinese appends for a non-zero digit
   * at place i: "零" when prevZero is set and something has been appended,
   * the digit unless it is the "一" left out before "十" (omitOneTen, with
   * zero thousands and hundreds), and the place's unit.
   */
  function PlaceText(vals: seq<int>, digits: seq<char>, omitOneTen: bool, i: int, prevZero: bool, started: bool): string
    requires PlaceDigits(vals) && 0 <= i < 4 && |digits| == 10
  {
    var zero := if prevZero && started then [digits[0]] else [];
    var omitOne := omitOneTen && i == 2 && vals[i] == 1 && vals[0] == 0 && vals[1] == 0;
    var digit := if omitOne then [] else [digits[vals[i]]];
    zero + digit + SmallUnits[i]
  }

  /** The text the digit loop of fourDigitToChinese appends from place i on. */
  function GroupTextFrom(vals: seq<int>, digits: seq<char>, omitOneTen: bool, i: int, prevZero: bool, started: bool): string
    requires PlaceDigits(vals) && 0 <= i <= 4 && |digits| == 10
    decreases 4 - i
  {
    if i == 4 then []
    else if vals[i] == 0 then GroupTextFrom(vals, digits, omitOneTen, i + 1, true, started)
    else
      PlaceText(vals, digits, omitOneTen, i, prevZero, started)
      + GroupTextFrom(vals, digits, omitOneTen, i + 1, prevZero && !started, true)
  }

  /** The text of one group. */
  function GroupText(group: nat, digits: seq<char>, omitOneTen: bool): string
    requires |digits| == 10
  {
    GroupTextFrom(Places(group), digits, omitOneTen, 0, false, false)
  }

  /** A zero place writes nothing and only sets prevZero. */
  lemma ZeroPlaceStep(vals: seq<int>, digits: seq<char>, omitOneTen: bool, i: int, prevZero: bool, started: bool)
    requires PlaceDigits(vals) && 0 <= i < 4 && |digits| == 10 && vals[i] == 0
    ensures GroupTextFrom(vals, digits, omitOneTen, i, prevZero, started)
            == GroupTextFrom(vals, digits, omitOneTen, i + 1, true, started)
    ensures PlacesValue(vals, i) == PlacesValue(vals, i + 1)
  {
  }

  /** A non-zero place writes its text, then the later places follow with something written. */
  lemma PlaceStep(vals: seq<int>, digits: seq<char>, omitOneTen: bool, i: int, prevZero: bool, started: bool)
    requires PlaceDigits(vals) && 0 <= i < 4 && |digits| == 10 && vals[i] != 0
    ensures GroupTextFrom(vals, digits, omitOneTen, i, prevZero, started)
            == PlaceText(vals, digits, omitOneTen, i, prevZero, started)
               + GroupTextFrom(vals, digits, omitOneTen, i + 1, prevZero && !started, true)
  {
  }

  /** Whatever is written for a non-zero place is not empty. */
  lemma PlaceTextNonEmpty(vals: seq<int>, digits: seq<char>, omitOneTen: bool, i: int, prevZero: bool, started: bool)
    requires PlaceDigits(vals) && 0 <= i < 4 && |digits| == 10
    ensures |PlaceText(vals, digits, omitOneTen, i, prevZero, started)| > 0
  {
    SmallUnitsValues();
  }

  /**
   * The body of the digit loop of fourDigitToChinese for a non-zero digit
   * at place i: append the "零", the digit and the unit, clearing prevZero
   * when a "零" is written.
   */
  method AppendPlace(out: string, vals: seq<int>, digits: seq<char>, omitOneTen: bool, i: int, prevZero: bool)
    returns (out': string, prevZero': bool)
    requires PlaceDigits(vals) && 0 <= i < 4 && vals[i] != 0 && |digits| == 10
    ensures out' == out + PlaceText(vals, digits, omitOneTen, i, prevZero, |out| > 0)
    ensures prevZero' == (prevZero && |out| == 0)
    ensures |out'| > 0
  {
    var d := vals[i];
    out', prevZero' := out, prevZero;
    ghost var zero: string := [];
    if prevZero' && |out'| > 0 {
      out' := out' + [digits[0]];
      prevZero' := false;
      zero := [digits[0]];
    }
    var omitOne := omitOneTen && i == 2 && d == 1 && vals[0] == 0 && vals[1] == 0;
    ghost var digit: string := [];
    if !omitOne {
      out' := out' + [digits[d]];
      digit := [digits[d]];
    }
    out' := out' + SmallUnits[i];
    assert out' == out + zero + digit + SmallUnits[i];
    assert PlaceText(vals, digits, omitOneTen, i, prevZero, |out| > 0) == zero + digit + SmallUnits[i];
    PlaceTextNonEmpty(vals, digits, omitOneTen, i, prevZero, |out| > 0);
  }

  /** Appending to a joined text: (a + b) + c is a + (b + c). */
  lemma AppendAssoc(a: string, b: string, c: string)
    ensures (a + b) + c == a + (b + c)
  {
  }

  /** The first loop of fourDigitToChinese: the first non-zero place, or 4. */
  method FindHighestPlace(vals: seq<int>) returns (highestIdx: int)
    requires PlaceDigits(vals)
    ensures highestIdx == HighestPlace(vals)
  {
    highestIdx := 4;
    var i := 0;
    while i < 4
      invariant 0 <= i <= 4
      invariant forall j :: 0 <= j < i ==> vals[j] == 0
    {
      if vals[i] != 0 {
        highestIdx := i;
        break;
      }
      i := i + 1;
    }
  }

  /** The second loop of fourDigitToChinese: write the places from the thousands down. */
  method WritePlaces(vals: seq<int>, digits: seq<char>, omitOneTen: bool) returns (out: string)
    requires PlaceDigits(vals) && |digits| == 10
    ensures out == GroupTextFrom(vals, digits, omitOneTen, 0, false, false)
  {
    ghost var whole := GroupTextFrom(vals, digits, omitOneTen, 0, false, false);
    out := [];
    var prevZero := false;
    var i := 0;
    while i < 4
      invariant 0 <= i <= 4
      invariant out + GroupTextFrom(vals, digits, omitOneTen, i, prevZero, |out| > 0) == whole
    {
      var d := vals[i];
      if d == 0 {
        ZeroPlaceStep(vals, digits, omitOneTen, i, prevZero, |out| > 0);
        prevZero := true;
      } else {
        ghost var before := out;
        ghost var head := PlaceText(vals, digits, omitOneTen, i, prevZero, |out| > 0);
        PlaceStep(vals, digits, omitOneTen, i, prevZero, |out| > 0);
        out, prevZero := AppendPlace(out, vals, digits, omitOneTen, i, prevZero);
        AppendAssoc(before, head, GroupTextFrom(vals, digits, omitOneTen, i + 1, prevZero, true));
      }
      i := i + 1;
    }
    assert GroupTextFrom(vals, digits, omitOneTen, 4, prevZero, |out| > 0) == [];
  }

  /** fourDigitToChinese: the text of a group below 10000 and the first place it writes. */
  method FourDigitToChinese(group: nat, digits: seq<char>, omitOneTen: bool) returns (s: string, highestIdx: int)
    requires group < 10000 && |digits| == 10
    ensures s == GroupText(group, digits, omitOneTen)
    ensures highestIdx == HighestPlace(Places(group))
  {
    if group == 0 {
      assert GroupTextFrom(Places(group), digits, omitOneTen, 0, false, false) == [];
      return "", 4;
    }
    var vals := [group / 1000 % 10, group / 100 % 10, group / 10 % 10, group % 10];
    assert vals == Places(group);
    highestIdx := FindHighestPlace(vals);
    s := WritePlaces(vals, digits, omitOneTen);
  }

  // ---------------------------------------------------------------------
  // Reading a group back

  /** Reading the unit of place i < 3 adds the count before it times the place's weight. */
  lemma SmallUnitRead(digits: seq<char>, r: Reading, i: int, count: int)
    requires DigitTable(digits) && 0 <= i < 3
    requires (r.pending != 0 && count == r.pending) || (r.pending == 0 && count == 1)
    ensures Read(digits, r, SmallUnits[i]) == r.(section := r.section + PlaceTimes(i, count), pending := 0)
  {
    SmallUnitsValues();
    assert SmallUnits[i] == [SmallUnits[i][0]];
    assert SmallUnits[i][0] == (if i == 0 then '千' else if i == 1 then '百' else '十');
    StepMarker(digits, r, SmallUnits[i][0]);
  }

  /** Reading an optional "零" and then digit d leaves d pending. */
  lemma ZeroDigitRead(digits: seq<char>, r: Reading, zero: string, d: int)
    requires DigitTable(digits) && 0 < d < 10 && r.pending == 0 && !r.inFraction
    requires zero == [] || zero == [digits[0]]
    ensures Read(digits, r, zero + [digits[d]]) == r.(pending := d)
  {
    if zero != [] {
      StepDigit(digits, r, 0);
    }
    assert Read(digits, r, zero) == r;
    StepDigit(digits, r, d);
    ReadThen(digits, r, zero, [digits[d]], r);
  }

  /** Reading an optional "零" on its own changes nothing when no digit is pending. */
  lemma ZeroRead(digits: seq<char>, r: Reading, zero: string)
    requires DigitTable(digits) && r.pending == 0 && !r.inFraction
    requires zero == [] || zero == [digits[0]]
    ensures Read(digits, r, zero) == r
  {
    if zero != [] {
      StepDigit(digits, r, 0);
    }
  }

  /** Reading what is written for a non-zero digit at place i < 3 adds the digit times the weight. */
  lemma UnitPlaceRead(digits: seq<char>, vals: seq<int>, omitOneTen: bool, i: int, prevZero: bool, started: bool, r: Reading)
    requires DigitTable(digits) && PlaceDigits(vals) && 0 <= i < 3 && vals[i] != 0
    requires r.pending == 0 && !r.inFraction
    ensures Read(digits, r, PlaceText(vals, digits, omitOneTen, i, prevZero, started))
            == r.(section := r.section + PlaceTimes(i, vals[i]))
  {
    var d := vals[i];
    var zero: string := if prevZero && started then [digits[0]] else [];
    var omitOne := omitOneTen && i == 2 && d == 1 && vals[0] == 0 && vals[1] == 0;
    if omitOne {
      assert PlaceText(vals, digits, omitOneTen, i, prevZero, started) == zero + SmallUnits[i];
      ZeroRead(digits, r, zero);
      SmallUnitRead(digits, r, i, 1);
      ReadThen(digits, r, zero, SmallUnits[i], r);
    } else {
      var r1 := r.(pending := d);
      assert PlaceText(vals, digits, omitOneTen, i, prevZero, started) == (zero + [digits[d]]) + SmallUnits[i];
      ZeroDigitRead(digits, r, zero, d);
      SmallUnitRead(digits, r1, i, d);
      ReadThen(digits, r, zero + [digits[d]], SmallUnits[i], r1);
    }
  }

  /** Reading what is written for a non-zero units digit leaves it pending. */
  lemma OnesPlaceRead(digits: seq<char>, vals: seq<int>, omitOneTen: bool, prevZero: bool, started: bool, r: Reading)
    requires DigitTable(digits) && PlaceDigits(vals) && vals[3] != 0
    requires r.pending == 0 && !r.inFraction
    ensures Read(digits, r, PlaceText(vals, digits, omitOneTen, 3, prevZero, started)) == r.(pending := vals[3])
  {
    var zero: string := if prevZero && started then [digits[0]] else [];
    SmallUnitsValues();
    assert PlaceText(vals, digits, omitOneTen, 3, prevZero, started) == zero + [digits[vals[3]]];
    ZeroDigitRead(digits, r, zero, vals[3]);
  }

  /** The text from place i on when nothing is left to write. */
  lemma NothingLeftRead(digits: seq<char>, vals: seq<int>, omitOneTen: bool, prevZero: bool, started: bool, r: Reading)
    requires DigitTable(digits) && PlaceDigits(vals) && vals[3] == 0 && r.pending == 0
    ensures Read(digits, r, GroupTextFrom(vals, digits, omitOneTen, 3, prevZero, started))
            == r.(section := r.section + PlacesValue(vals, 3), pending := vals[3])
  {
    assert GroupTextFrom(vals, digits, omitOneTen, 3, prevZero, started) == [];
  }

  /** A non-zero units digit: reading its text leaves it pending. */
  lemma OnesFromRead(digits: seq<char>, vals: seq<int>, omitOneTen: bool, prevZero: bool, started: bool, r: Reading)
    requires DigitTable(digits) && PlaceDigits(vals) && vals[3] != 0
    requires r.pending == 0 && !r.inFraction
    ensures Read(digits, r, GroupTextFrom(vals, digits, omitOneTen, 3, prevZero, started))
            == r.(section := r.section + PlacesValue(vals, 3), pending := vals[3])
  {
    PlaceStep(vals, digits, omitOneTen, 3, prevZero, started);
    var head := PlaceText(vals, digits, omitOneTen, 3, prevZero, started);
    assert GroupTextFrom(vals, digits, omitOneTen, 4, prevZero && !started, true) == [];
    assert head + [] == head;
    OnesPlaceRead(digits, vals, omitOneTen, prevZero, started, r);
  }

  lemma LastFromRead(digits: seq<char>, vals: seq<int>, omitOneTen: bool, prevZero: bool, started: bool, r: Reading)
    requires DigitTable(digits) && PlaceDigits(vals)
    requires r.pending == 0 && !r.inFraction
    ensures Read(digits, r, GroupTextFrom(vals, digits, omitOneTen, 3, prevZero, started))
            == r.(section := r.section + PlacesValue(vals, 3), pending := vals[3])
  {
      if vals[3] == 0 {
        NothingLeftRead(digits, vals, omitOneTen, prevZero, started, r);
      } else {
        OnesFromRead(digits, vals, omitOneTen, prevZero, started, r);
      }
  }

  /** A zero digit at place i < 3 writes nothing: the text is that of the later places. */
  lemma {:induction false} ZeroFromRead(digits: seq<char>, vals: seq<int>, omitOneTen: bool, i: int,
                                        prevZero: bool, started: bool, r: Reading)
    requires DigitTable(digits) && PlaceDigits(vals) && 0 <= i < 3 && vals[i] == 0
    requires r.pending == 0 && !r.inFraction
    ensures Read(digits, r, GroupTextFrom(vals, digits, omitOneTen, i, prevZero, started))
            == r.(section := r.section + PlacesValue(vals, i), pending := vals[3])
    decreases 4 - i, 0
  {
    GroupTextFromRead(digits, vals, omitOneTen, i + 1, true, started, r);
    ZeroPlaceStep(vals, digits, omitOneTen, i, prevZero, started);
  }

  /** A non-zero digit at place i < 3: its text, then the later places read from where it left off. */
  lemma {:induction false} UnitFromRead(digits: seq<char>, vals: seq<int>, omitOneTen: bool, i: int,
                                        prevZero: bool, started: bool, r: Reading)
    requires DigitTable(digits) && PlaceDigits(vals) && 0 <= i < 3 && vals[i] != 0
    requires r.pending == 0 && !r.inFraction
    ensures Read(digits, r, GroupTextFrom(vals, digits, omitOneTen, i, prevZero, started))
            == r.(section := r.section + PlacesValue(vals, i), pending := vals[3])
    decreases 4 - i, 0
  {
    var r1 := r.(section := r.section + PlaceTimes(i, vals[i]));
    GroupTextFromRead(digits, vals, omitOneTen, i + 1, prevZero && !started, true, r1);
    PlaceStep(vals, digits, omitOneTen, i, prevZero, started);
    UnitPlaceRead(digits, vals, omitOneTen, i, prevZero, started, r);
    ReadThen(digits, r, PlaceText(vals, digits, omitOneTen, i, prevZero, started),
             GroupTextFrom(vals, digits, omitOneTen, i + 1, prevZero && !started, true), r1);
  }

  /**
   * Reading the text from place i on adds the places' value to the
   * section and leaves the units digit pending.
   */
  lemma {:induction false} GroupTextFromRead(digits: seq<char>, vals: seq<int>, omitOneTen: bool, i: int,
                                             prevZero: bool, started: bool, r: Reading)
    requires DigitTable(digits) && PlaceDigits(vals) && 0 <= i <= 3
    requires r.pending == 0 && !r.inFraction
    ensures Read(digits, r, GroupTextFrom(vals, digits, omitOneTen, i, prevZero, started))
            == r.(section := r.section + PlacesValue(vals, i), pending := vals[3])
    decreases 4 - i, 1
  {
    if i == 3 {
      LastFromRead(digits, vals, omitOneTen, prevZero, started, r);
    } else if vals[i] == 0 {
      ZeroFromRead(digits, vals, omitOneTen, i, prevZero, started, r);
    } else {
      UnitFromRead(digits, vals, omitOneTen, i, prevZero, started, r);
    }
  }

  /** Reading a group's text adds the group, less its units digit, to the section and leaves that digit pending. */
  lemma GroupTextRead(digits: seq<char>, group: nat, omitOneTen: bool, r: Reading)
    requires DigitTable(digits) && group < 10000
    requires r.pending == 0 && !r.inFraction
    ensures Read(digits, r, GroupText(group, digits, omitOneTen))
            == r.(section := r.section + group - group % 10, pending := group % 10)
  {
    GroupTextFromRead(digits, Places(group), omitOneTen, 0, false, false, r);
    GroupDigits(group);
  }

  /** A group's text is empty exactly when the group is 0. */
  lemma GroupTextEmpty(digits: seq<char>, group: nat, omitOneTen: bool)
    requires DigitTable(digits) && group < 10000
    ensures GroupText(group, digits, omitOneTen) == [] <==> group == 0
  {
    if group == 0 {
      assert GroupTextFrom(Places(group), digits, omitOneTen, 0, false, false) == [];
    } else {
      GroupTextRead(digits, group, omitOneTen, Start);
      assert Read(digits, Start, []) == Start;
    }
  }

  // ---------------------------------------------------------------------
  // integerToChinese

  /** The four-digit groups of u, lowest first. */
  function Groups(u: nat): (gs: seq<int>)
    ensures forall i :: 0 <= i < |gs| ==> 0 <= gs[i] < 10000
    ensures gs == [] <==> u == 0
    decreases u
  {
    if u == 0 then [] else [u % 10000] + Groups(u / 10000)
  }

  /** At most six groups, each below 10000: what integerToChinese has units for. */
  predicate ValidGroups(gs: seq<int>)
  {
    |gs| <= 6 && forall i :: 0 <= i < |gs| ==> 0 <= gs[i] < 10000
  }

  /** g times the weight of group j < 6, 10000^j. */
  function GroupTimes(j: int, g: int): int
  {
    if j == 0 then g
    else if j == 1 then 1_0000 * g
    else if j == 2 then 1_0000_0000 * g
    else if j == 3 then 1_0000_0000_0000 * g
    else if j == 4 then 1_0000_0000_0000_0000 * g
    else 1_0000_0000_0000_0000_0000 * g
  }

  /** The value of the lowest n groups. */
  function GroupsValue(gs: seq<int>, n: nat): int
    requires n <= |gs| <= 6
  {
    if n == 0 then 0 else GroupsValue(gs, n - 1) + GroupTimes(n - 1, gs[n - 1])
  }

  /** Putting a group below the others multiplies their value by 10000. */
  lemma {:induction false} GroupsValueCons(a: int, rest: seq<int>, n: nat)
    requires n <= |rest| <= 5
    ensures GroupsValue([a] + rest, n + 1) == a + 10000 * GroupsValue(rest, n)
  {
    if n > 0 {
      GroupsValueCons(a, rest, n - 1);
      assert ([a] + rest)[n] == rest[n - 1];
      assert GroupTimes(n, rest[n - 1]) == 10000 * GroupTimes(n - 1, rest[n - 1]);
    }
  }

  /** The groups are the base-10000 digits of u. */
  lemma {:induction false} GroupsValueOf(u: nat)
    requires |Groups(u)| <= 6
    ensures GroupsValue(Groups(u), |Groups(u)|) == u
    decreases u
  {
    if u > 0 {
      GroupsValueOf(u / 10000);
      GroupsValueCons(u % 10000, Groups(u / 10000), |Groups(u / 10000)|);
    }
  }

  /** A number below 10000^k has at most k groups. */
  lemma {:induction false} GroupsCount(u: nat, k: nat)
    requires u < Pow(10000, k)
    ensures |Groups(u)| <= k
    decreases u
  {
    if u > 0 {
      assert k > 0;
      assert u / 10000 < Pow(10000, k - 1);
      GroupsCount(u / 10000, k - 1);
    }
  }

  /** A uint64 has at most five groups. */
  lemma Uint64Groups(u: nat)
    requires u < TwoTo64
    ensures ValidGroups(Groups(u)) && |Groups(u)| <= 5
  {
    assert Pow(10000, 5) == 1_0000_0000_0000_0000_0000;
    GroupsCount(u, 5);
  }

  /** What integerToChinese keeps for group i: its text and big unit, or "" for a zero group. */
  function Part(gs: seq<int>, i: int, digits: seq<char>, omitOneTen: bool): string
    requires ValidGroups(gs) && 0 <= i < |gs| && |digits| == 10
  {
    var s := GroupText(gs[i], digits, omitOneTen);
    if s != [] then s + BigUnits[i] else s
  }

  /** The parts of the lowest n groups, as integerToChinese fills its `parts` array. */
  function PartsUpTo(gs: seq<int>, n: int, digits: seq<char>, omitOneTen: bool): (parts: seq<string>)
    requires ValidGroups(gs) && 0 <= n <= |gs| && |digits| == 10
    ensures |parts| == n
  {
    if n == 0 then [] else PartsUpTo(gs, n - 1, digits, omitOneTen) + [Part(gs, n - 1, digits, omitOneTen)]
  }

  /** The first written place of the lowest n groups, as integerToChinese fills its `highestIdx` array. */
  function HighsUpTo(gs: seq<int>, n: int): (highs: seq<int>)
    requires ValidGroups(gs) && 0 <= n <= |gs|
    ensures |highs| == n
  {
    if n == 0 then [] else HighsUpTo(gs, n - 1) + [HighestPlace(Places(gs[n - 1]))]
  }

  /** Element j of the parts is the part of group j. */
  lemma {:induction false} PartsUpToIndex(gs: seq<int>, n: int, digits: seq<char>, omitOneTen: bool)
    requires ValidGroups(gs) && 0 <= n <= |gs| && |digits| == 10
    ensures |PartsUpTo(gs, n, digits, omitOneTen)| == n
    ensures forall j :: 0 <= j < n ==> PartsUpTo(gs, n, digits, omitOneTen)[j] == Part(gs, j, digits, omitOneTen)
  {
    if n > 0 {
      PartsUpToIndex(gs, n - 1, digits, omitOneTen);
      var prev, last := PartsUpTo(gs, n - 1, digits, omitOneTen), Part(gs, n - 1, digits, omitOneTen);
      assert PartsUpTo(gs, n, digits, omitOneTen) == prev + [last];
      forall j | 0 <= j < n
        ensures PartsUpTo(gs, n, digits, omitOneTen)[j] == Part(gs, j, digits, omitOneTen)
      {
        if j < n - 1 {
          assert (prev + [last])[j] == prev[j];
        }
      }
    }
  }

  /** Element j of the first written places is that of group j. */
  lemma {:induction false} HighsUpToIndex(gs: seq<int>, n: int)
    requires ValidGroups(gs) && 0 <= n <= |gs|
    ensures |HighsUpTo(gs, n)| == n
    ensures forall j :: 0 <= j < n ==> HighsUpTo(gs, n)[j] == HighestPlace(Places(gs[j]))
  {
    if n > 0 {
      HighsUpToIndex(gs, n - 1);
    }
  }

  /**
   * What the assembly loop of integerToChinese writes for parts i-1 down
   * to 0, given its needZero and hasAppended flags. An empty part (a zero
   * group) asks for a "零" once something has been written; a written part
   * is preceded by "零" when one was asked for, or when something has been
   * written and its group does not start at the thousands place.
   */
  function AssembleText(parts: seq<string>, highs: seq<int>, zero: char, i: int, needZero: bool, hasAppended: bool): string
    requires |highs| == |parts| && 0 <= i <= |parts|
    decreases i
  {
    if i == 0 then []
    else if parts[i - 1] == [] then AssembleText(parts, highs, zero, i - 1, needZero || hasAppended, hasAppended)
    else
      (if needZero || (hasAppended && highs[i - 1] > 0) then [zero] else [])
      + parts[i - 1] + AssembleText(parts, highs, zero, i - 1, false, true)
  }

  /** The text integerToChinese writes for a uint64. */
  function IntegerText(u: nat, digits: seq<char>, omitOneTen: bool): string
    requires u < TwoTo64 && |digits| == 10
  {
    if u == 0 then [digits[0]]
    else
      var gs := Groups(u);
      Uint64Groups(u);
      HighsUpToIndex(gs, |gs|);
      PartsUpToIndex(gs, |gs|, digits, omitOneTen);
      AssembleText(PartsUpTo(gs, |gs|, digits, omitOneTen), HighsUpTo(gs, |gs|), digits[0], |gs|, false, false)
  }

  /** The first loop of integerToChinese: split off groups by repeated division by 10000. */
  method SplitGroups(u: nat) returns (groups: seq<int>)
    ensures groups == Groups(u)
  {
    groups := [];
    var rest: nat := u;
    while rest > 0
      invariant groups + Groups(rest) == Groups(u)
      decreases rest
    {
      assert Groups(rest) == [rest % 10000] + Groups(rest / 10000);
      groups := groups + [rest % 10000];
      rest := rest / 10000;
    }
    assert Groups(rest) == [];
  }

  /**
   * The second loop of integerToChinese: write every group with its big
   * unit into `parts` (an empty part for a zero group) and its first
   * written place into `highestIdx`. The Go code stores into slices made
   * to length; the model appends, filling the same indices in order.
   */
  /** The text of group i followed by its big unit, or nothing for a zero group, and the group's highest place. */
  method WritePart(groups: seq<int>, i: int, digits: seq<char>, omitOneTen: bool) returns (t: string, h: int)
    requires ValidGroups(groups) && 0 <= i < |groups| && |digits| == 10
    ensures t == Part(groups, i, digits, omitOneTen)
    ensures h == HighestPlace(Places(groups[i]))
  {
    t, h := FourDigitToChinese(groups[i], digits, omitOneTen);
    if t != [] {
      t := t + BigUnits[i];
    }
  }

  method WriteGroups(groups: seq<int>, digits: seq<char>, omitOneTen: bool) returns (parts: seq<string>, highestIdx: seq<int>)
    requires ValidGroups(groups) && |digits| == 10
    ensures parts == PartsUpTo(groups, |groups|, digits, omitOneTen)
    ensures highestIdx == HighsUpTo(groups, |groups|)
  {
    parts, highestIdx := [], [];
    var i := 0;
    while i < |groups|
      invariant 0 <= i <= |groups|
      invariant parts == PartsUpTo(groups, i, digits, omitOneTen)
      invariant highestIdx == HighsUpTo(groups, i)
    {
      var t, h := WritePart(groups, i, digits, omitOneTen);
      assert HighsUpTo(groups, i + 1) == highestIdx + [h];
      parts := parts + [t];
      highestIdx := highestIdx + [h];
      i := i + 1;
    }
  }

  /** One step of the assembly loop: the part, preceded by "零" when called for, or only a request for "零". */
  method AppendGroup(out: string, part: string, zero: char, needZero: bool, hasAppended: bool, highest: int)
    returns (out': string, needZero': bool, hasAppended': bool)
    ensures part == [] ==> out' == out && needZero' == (needZero || hasAppended) && hasAppended' == hasAppended
    ensures part != [] ==> && !needZero' && hasAppended'
                           && out' == out + (if needZero || (hasAppended && highest > 0) then [zero] else []) + part
  {
    out', needZero', hasAppended' := out, needZero, hasAppended;
    if part == [] {
      if hasAppended {
        needZero' := true;
      }
      return;
    }
    if needZero {
      out' := out' + [zero];
      needZero' := false;
    } else if hasAppended && highest > 0 {
      out' := out' + [zero];
    }
    out' := out' + part;
    hasAppended' := true;
  }

  /** The third loop of integerToChinese: put the parts together from the highest group down. */
  method AssembleParts(parts: seq<string>, highs: seq<int>, zero: char) returns (out: string)
    requires |highs| == |parts|
    ensures out == AssembleText(parts, highs, zero, |parts|, false, false)
  {
    out := [];
    var needZero, hasAppended := false, false;
    var i := |parts| - 1;
    while i >= 0
      invariant -1 <= i < |parts|
      invariant out + AssembleText(parts, highs, zero, i + 1, needZero, hasAppended)
                == AssembleText(parts, highs, zero, |parts|, false, false)
    {
      ghost var before := out;
      ghost var z: string := if needZero || (hasAppended && highs[i] > 0) then [zero] else [];
      ghost var later := AssembleText(parts, highs, zero, i, false, true);
      if parts[i] != [] {
        assert AssembleText(parts, highs, zero, i + 1, needZero, hasAppended) == z + parts[i] + later;
      }
      out, needZero, hasAppended := AppendGroup(out, parts[i], zero, needZero, hasAppended, highs[i]);
      if parts[i] != [] {
        assert before + (z + parts[i] + later) == out + later;
      }
      i := i - 1;
    }
    assert AssembleText(parts, highs, zero, 0, needZero, hasAppended) == [];
  }

  /** integerToChinese: the groups of u, their parts, and the parts put together. */
  method IntegerToChinese(u: nat, digits: seq<char>, omitOneTen: bool) returns (s: string)
    requires u < TwoTo64 && |digits| == 10
    ensures s == IntegerText(u, digits, omitOneTen)
  {
    if u == 0 {
      return [digits[0]];
    }
    Uint64Groups(u);
    var groups := SplitGroups(u);
    var parts, highestIdx := WriteGroups(groups, digits, omitOneTen);
    HighsUpToIndex(groups, |groups|);
    PartsUpToIndex(groups, |groups|, digits, omitOneTen);
    s := AssembleParts(parts, highestIdx, digits[0]);
  }

  // ---------------------------------------------------------------------
  // Reading an integer back

  /** A reading with no open group: nothing in `section` or `pending`, not after "点". */
  predicate Closed(r: Reading)
  {
    r.section == 0 && r.pending == 0 && !r.inFraction
  }

  /** The big unit of group j is worth the group's weight. */
  lemma BigUnitWeight(j: int, g: int)
    requires 1 <= j < 6
    ensures UnitTimes(BigUnits[j][0], g) == GroupTimes(j, g)
  {
    assert BigUnits[j][0] == (if j == 1 then '万' else if j == 2 then '亿' else if j == 3 then '兆' else if j == 4 then '京' else '垓');
  }

  /** Reading a big unit closes the section: its value times the unit's, w, goes to the total. */
  lemma BigUnitRead(digits: seq<char>, r: Reading, j: int, w: int)
    requires DigitTable(digits) && 1 <= j < 6
    requires w == UnitTimes(BigUnits[j][0], r.section + r.pending)
    ensures Read(digits, r, BigUnits[j]) == r.(total := r.total + w, section := 0, pending := 0)
  {
    BigUnitsValues();
    assert BigUnits[j] == [BigUnits[j][0]];
    StepMarker(digits, r, BigUnits[j][0]);
  }

  /** The lowest group has no big unit to read. */
  lemma LowestUnitRead(digits: seq<char>, r: Reading)
    ensures Read(digits, r, BigUnits[0]) == r
  {
    assert BigUnits[0] == [];
  }

  /** The big unit of group j > 0 closes a group read as g into the total, adding w, g times the unit. */
  lemma BigUnitCloses(digits: seq<char>, g: int, j: int, w: int, r: Reading)
    requires DigitTable(digits) && 1 <= j < 6 && w == GroupTimes(j, g)
    requires r.section == 0 && r.pending == 0
    ensures Read(digits, r.(section := g - g % 10, pending := g % 10), BigUnits[j]) == r.(total := r.total + w)
  {
    assert (g - g % 10) + g % 10 == g;
    BigUnitWeight(j, g);
    BigUnitRead(digits, r.(section := g - g % 10, pending := g % 10), j, w);
  }

  /** The part of the lowest group is its text: it has no big unit. */
  lemma LowestPart(gs: seq<int>, digits: seq<char>, omitOneTen: bool)
    requires ValidGroups(gs) && 0 < |gs| && |digits| == 10
    ensures Part(gs, 0, digits, omitOneTen) == GroupText(gs[0], digits, omitOneTen)
  {
    assert BigUnits[0] == [];
  }

  /** Reading the big unit of group j > 0 after the group's text closes the group into the total. */
  lemma UnitAfterGroupRead(digits: seq<char>, text: string, g: int, j: int, w: int, r: Reading)
    requires DigitTable(digits) && 1 <= j < 6 && w == GroupTimes(j, g)
    requires Read(digits, r, text) == r.(section := g - g % 10, pending := g % 10)
    requires r.section == 0 && r.pending == 0
    ensures Read(digits, r, text + BigUnits[j]) == r.(total := r.total + w)
  {
    ReadThen(digits, r, text, BigUnits[j], r.(section := g - g % 10, pending := g % 10));
    BigUnitCloses(digits, g, j, w, r);
  }

  /** What reading the part p of the lowest group, holding g, does: the group stays open. */
  ghost predicate LowestPartReads(digits: seq<char>, p: string, g: int)
  {
    forall r: Reading {:trigger Read(digits, r, p)} :: Closed(r) && g != 0 ==> Read(digits, r, p) == r.(section := g - g % 10, pending := g % 10)
  }

  /** What reading the part p of a higher group, holding g, does: w, the group's weighted value, goes to the total. */
  ghost predicate HigherPartReads(digits: seq<char>, p: string, g: int, w: int)
  {
    forall r: Reading {:trigger Read(digits, r, p)} :: Closed(r) && g != 0 ==> Read(digits, r, p) == r.(total := r.total + w)
  }

  /** What reading the part p of group j, holding g, does; a part is empty exactly for a zero group. */
  ghost predicate PartReads(digits: seq<char>, p: string, g: int, j: int)
  {
    && 0 <= j < 6
    && (p == [] <==> g == 0)
    && (j == 0 ==> LowestPartReads(digits, p, g))
    && (j > 0 ==> HigherPartReads(digits, p, g, GroupTimes(j, g)))
  }

  /** The part of the lowest group reads as that group, left open. */
  lemma LowestPartRead(digits: seq<char>, gs: seq<int>, omitOneTen: bool)
    requires DigitTable(digits) && ValidGroups(gs) && 0 < |gs|
    ensures LowestPartReads(digits, Part(gs, 0, digits, omitOneTen), gs[0])
  {
    LowestPart(gs, digits, omitOneTen);
    forall r: Reading | Closed(r) && gs[0] != 0
      ensures Read(digits, r, GroupText(gs[0], digits, omitOneTen)) == r.(section := gs[0] - gs[0] % 10, pending := gs[0] % 10)
    {
      GroupTextRead(digits, gs[0], omitOneTen, r);
    }
  }

  /** The part of group j > 0 read from one closed reading. */
  lemma HigherPartReadAt(digits: seq<char>, gs: seq<int>, j: int, omitOneTen: bool, r: Reading)
    requires DigitTable(digits) && ValidGroups(gs) && 1 <= j < |gs| && gs[j] != 0 && Closed(r)
    ensures Read(digits, r, GroupText(gs[j], digits, omitOneTen) + BigUnits[j]) == r.(total := r.total + GroupTimes(j, gs[j]))
  {
    GroupTextRead(digits, gs[j], omitOneTen, r);
    UnitAfterGroupRead(digits, GroupText(gs[j], digits, omitOneTen), gs[j], j, GroupTimes(j, gs[j]), r);
  }

  /** The part of group j > 0 reads as that group times its weight, 10000^j. */
  lemma HigherPartRead(digits: seq<char>, gs: seq<int>, j: int, omitOneTen: bool)
    requires DigitTable(digits) && ValidGroups(gs) && 1 <= j < |gs|
    ensures HigherPartReads(digits, Part(gs, j, digits, omitOneTen), gs[j], GroupTimes(j, gs[j]))
  {
    GroupTextEmpty(digits, gs[j], omitOneTen);
    forall r: Reading | Closed(r) && gs[j] != 0
      ensures Read(digits, r, GroupText(gs[j], digits, omitOneTen) + BigUnits[j]) == r.(total := r.total + GroupTimes(j, gs[j]))
    {
      HigherPartReadAt(digits, gs, j, omitOneTen, r);
    }
  }

  /** The part of any group reads as the group. */
  lemma PartRead(digits: seq<char>, gs: seq<int>, j: int, omitOneTen: bool)
    requires DigitTable(digits) && ValidGroups(gs) && 0 <= j < |gs|
    ensures PartReads(digits, Part(gs, j, digits, omitOneTen), gs[j], j)
  {
    GroupTextEmpty(digits, gs[j], omitOneTen);
    if j == 0 {
      LowestPartRead(digits, gs, omitOneTen);
    } else {
      HigherPartRead(digits, gs, j, omitOneTen);
    }
  }

  /** All the parts integerToChinese writes read as their groups. */
  lemma GroupPartsRead(digits: seq<char>, gs: seq<int>, omitOneTen: bool)
    requires DigitTable(digits) && ValidGroups(gs)
    ensures forall j :: 0 <= j < |gs| ==> PartReads(digits, PartsUpTo(gs, |gs|, digits, omitOneTen)[j], gs[j], j)
  {
    PartsUpToIndex(gs, |gs|, digits, omitOneTen);
    forall j | 0 <= j < |gs|
      ensures PartReads(digits, Part(gs, j, digits, omitOneTen), gs[j], j)
    {
      PartRead(digits, gs, j, omitOneTen);
    }
  }

  /** Reading from r to r2 added v to the number and left the sign and the fraction alone. */
  predicate Adds(r: Reading, r2: Reading, v: int)
  {
    Value(r2) == r.total + v && r2.negative == r.negative && !r2.inFraction && r2.fraction == r.fraction && r2.places == r.places
  }

  /** Adding w to the total, then v, adds v + w. */
  lemma AddsAfter(r: Reading, r0: Reading, r2: Reading, v: int, w: int)
    requires r0 == r.(total := r.total + w) && Adds(r0, r2, v)
    ensures Adds(r, r2, v + w)
  {
  }

  /** A "零" before a part reads as nothing when no digit is pending. */
  lemma ZeroThenRead(digits: seq<char>, zero: string, part: string, later: string, r: Reading, r0: Reading)
    requires DigitTable(digits) && (zero == [] || zero == [digits[0]])
    requires r.pending == 0 && !r.inFraction
    requires Read(digits, r, part) == r0
    ensures Read(digits, r, zero + part + later) == Read(digits, r0, later)
  {
    ZeroRead(digits, r, zero);
    AppendAssoc(zero, part, later);
    ReadThen(digits, r, zero, part + later, r);
    ReadThen(digits, r, part, later, r0);
  }

  /** The lowest group, written last, completes the number. */
  lemma LowestPartStep(digits: seq<char>, zero: string, p: string, later: string, g: int, r: Reading)
    requires DigitTable(digits) && (zero == [] || zero == [digits[0]]) && later == []
    requires Closed(r) && g != 0 && LowestPartReads(digits, p, g)
    ensures Adds(r, Read(digits, r, zero + p + later), g)
  {
    var r0 := r.(section := g - g % 10, pending := g % 10);
    ZeroThenRead(digits, zero, p, later, r, r0);
  }

  /** A higher group goes to the total, and reading goes on with the groups below it. */
  lemma HigherPartStep(digits: seq<char>, zero: string, p: string, later: string, g: int, w: int, r: Reading)
    requires DigitTable(digits) && (zero == [] || zero == [digits[0]])
    requires Closed(r) && g != 0 && HigherPartReads(digits, p, g, w)
    ensures Read(digits, r, zero + p + later) == Read(digits, r.(total := r.total + w), later)
  {
    ZeroThenRead(digits, zero, p, later, r, r.(total := r.total + w));
  }

  /** An empty part (a zero group) only passes its request for "零" on: it adds nothing. */
  lemma EmptyPartStep(digits: seq<char>, gs: seq<int>, parts: seq<string>, highs: seq<int>,
                      i: int, needZero: bool, hasAppended: bool, r: Reading)
    requires |parts| == |gs| == |highs| <= 6 && 0 < i <= |gs| && |digits| == 10
    requires parts[i - 1] == [] && gs[i - 1] == 0
    requires Adds(r, Read(digits, r, AssembleText(parts, highs, digits[0], i - 1, needZero || hasAppended, hasAppended)),
                  GroupsValue(gs, i - 1))
    ensures Adds(r, Read(digits, r, AssembleText(parts, highs, digits[0], i, needZero, hasAppended)), GroupsValue(gs, i))
  {
  }

  /** The lowest part, when written, completes the number. */
  lemma LowestWrittenStep(digits: seq<char>, gs: seq<int>, parts: seq<string>, highs: seq<int>,
                          needZero: bool, hasAppended: bool, r: Reading)
    requires DigitTable(digits) && |parts| == |gs| == |highs| <= 6 && 0 < |gs|
    requires parts[0] != [] && gs[0] != 0 && LowestPartReads(digits, parts[0], gs[0])
    requires Closed(r)
    ensures Adds(r, Read(digits, r, AssembleText(parts, highs, digits[0], 1, needZero, hasAppended)), GroupsValue(gs, 1))
  {
    var zero: string := if needZero || (hasAppended && highs[0] > 0) then [digits[0]] else [];
    var later := AssembleText(parts, highs, digits[0], 0, false, true);
    assert later == [];
    LowestPartStep(digits, zero, parts[0], later, gs[0], r);
  }

  /** A higher part, when written, goes to the total, and the parts below it follow. */
  lemma HigherWrittenStep(digits: seq<char>, gs: seq<int>, parts: seq<string>, highs: seq<int>,
                          i: int, needZero: bool, hasAppended: bool, r: Reading)
    requires DigitTable(digits) && |parts| == |gs| == |highs| <= 6 && 1 < i <= |gs|
    requires parts[i - 1] != [] && gs[i - 1] != 0
    requires HigherPartReads(digits, parts[i - 1], gs[i - 1], GroupTimes(i - 1, gs[i - 1]))
    requires Closed(r)
    requires var r0 := r.(total := r.total + GroupTimes(i - 1, gs[i - 1]));
             Adds(r0, Read(digits, r0, AssembleText(parts, highs, digits[0], i - 1, false, true)), GroupsValue(gs, i - 1))
    ensures Adds(r, Read(digits, r, AssembleText(parts, highs, digits[0], i, needZero, hasAppended)), GroupsValue(gs, i))
  {
    var w := GroupTimes(i - 1, gs[i - 1]);
    var r0 := r.(total := r.total + w);
    var zero: string := if needZero || (hasAppended && highs[i - 1] > 0) then [digits[0]] else [];
    var later := AssembleText(parts, highs, digits[0], i - 1, false, true);
    HigherPartStep(digits, zero, parts[i - 1], later, gs[i - 1], w, r);
    AddsAfter(r, r0, Read(digits, r0, later), GroupsValue(gs, i - 1), w);
  }

  /**
   * One step of the assembly: given what reading parts i-2 down to 0 does
   * in either state of the flags, reading parts i-1 down to 0 adds the
   * value of the lowest i groups.
   */
  lemma AssembleStep(digits: seq<char>, gs: seq<int>, parts: seq<string>, highs: seq<int>,
                     i: int, needZero: bool, hasAppended: bool, r: Reading)
    requires DigitTable(digits) && |parts| == |gs| == |highs| <= 6 && 0 < i <= |gs|
    requires PartReads(digits, parts[i - 1], gs[i - 1], i - 1)
    requires Closed(r)
    requires Adds(r, Read(digits, r, AssembleText(parts, highs, digits[0], i - 1, needZero || hasAppended, hasAppended)),
                  GroupsValue(gs, i - 1))
    requires var r0 := r.(total := r.total + GroupTimes(i - 1, gs[i - 1]));
             Adds(r0, Read(digits, r0, AssembleText(parts, highs, digits[0], i - 1, false, true)), GroupsValue(gs, i - 1))
    ensures Adds(r, Read(digits, r, AssembleText(parts, highs, digits[0], i, needZero, hasAppended)), GroupsValue(gs, i))
  {
    if parts[i - 1] == [] {
      EmptyPartStep(digits, gs, parts, highs, i, needZero, hasAppended, r);
    } else if i == 1 {
      LowestWrittenStep(digits, gs, parts, highs, needZero, hasAppended, r);
    } else {
      HigherWrittenStep(digits, gs, parts, highs, i, needZero, hasAppended, r);
    }
  }

  /** Reading the parts i-1 down to 0 as the assembly loop writes them adds the groups' value. */
  lemma {:induction false} AssembleTextRead(digits: seq<char>, gs: seq<int>, parts: seq<string>,
                                            highs: seq<int>, i: int, needZero: bool, hasAppended: bool, r: Reading)
    requires DigitTable(digits) && |parts| == |gs| == |highs| <= 6 && 0 <= i <= |gs|
    requires forall j :: 0 <= j < |gs| ==> PartReads(digits, parts[j], gs[j], j)
    requires Closed(r)
    ensures Adds(r, Read(digits, r, AssembleText(parts, highs, digits[0], i, needZero, hasAppended)), GroupsValue(gs, i))
    decreases i
  {
    if i == 0 {
      assert AssembleText(parts, highs, digits[0], i, needZero, hasAppended) == [];
    } else {
      AssembleTextRead(digits, gs, parts, highs, i - 1, needZero || hasAppended, hasAppended, r);
      AssembleTextRead(digits, gs, parts, highs, i - 1, false, true, r.(total := r.total + GroupTimes(i - 1, gs[i - 1])));
      AssembleStep(digits, gs, parts, highs, i, needZero, hasAppended, r);
    }
  }

  /**
   * Reading back what integerToChinese writes gives the number: the
   * partner of the writer, for every uint64 and either digit table.
   */
  lemma IntegerTextReads(digits: seq<char>, u: nat, omitOneTen: bool, r: Reading)
    requires DigitTable(digits) && u < TwoTo64 && Closed(r)
    ensures Adds(r, Read(digits, r, IntegerText(u, digits, omitOneTen)), u)
  {
    if u == 0 {
      StepDigit(digits, r, 0);
    } else {
      Uint64Groups(u);
      var gs := Groups(u);
      GroupPartsRead(digits, gs, omitOneTen);
      HighsUpToIndex(gs, |gs|);
      PartsUpToIndex(gs, |gs|, digits, omitOneTen);
      AssembleTextRead(digits, gs, PartsUpTo(gs, |gs|, digits, omitOneTen), HighsUpTo(gs, |gs|), |gs|, false, false, r);
      GroupsValueOf(u);
    }
  }

  // ---------------------------------------------------------------------
  // ToChineseLowerInt and ToChineseUpperInt

  /** The int64 range; the bounds are GoStd's. */
  predicate IsInt64(n: int)
  {
    MinInt64 <= n <= MaxInt64
  }

  /** Go's int64 negation: -MinInt64 wraps back to MinInt64. */
  function NegInt64(n: int): (m: int)
    requires IsInt64(n)
    ensures IsInt64(m)
    ensures (m + n) % TwoTo64 == 0
  {
    if n == MinInt64 then n else -n
  }

  /** uint64(m) for an int64 m: its two's-complement bits read unsigned. */
  function Uint64Of(m: int): (u: nat)
    requires IsInt64(m)
    ensures u < TwoTo64 && (u - m) % TwoTo64 == 0
  {
    if m < 0 then m + TwoTo64 else m
  }

  /** The uint64 the entry points hand to integerToChinese is |n|, even for MinInt64. */
  lemma MagnitudeIsAbs(n: int)
    requires IsInt64(n) && n < 0
    ensures Uint64Of(NegInt64(n)) == -n
  {
  }

  /** What ToChineseLowerInt (digits LowerDigits, omitOneTen) and ToChineseUpperInt write for n. */
  function SignedText(n: int, digits: seq<char>, omitOneTen: bool): string
    requires IsInt64(n) && |digits| == 10
  {
    if n == 0 then [digits[0]]
    else
      var t := IntegerText(if n < 0 then Uint64Of(NegInt64(n)) else n, digits, omitOneTen);
      if n < 0 then "负" + t else t
  }

  /** The text of n reads back, with its sign, as n. */
  lemma SignedTextReads(n: int, digits: seq<char>, omitOneTen: bool)
    requires IsInt64(n) && DigitTable(digits)
    ensures SignedValue(Read(digits, Start, SignedText(n, digits, omitOneTen))) == n
  {
    if n == 0 {
      StepDigit(digits, Start, 0);
    } else if n > 0 {
      IntegerTextReads(digits, n, omitOneTen, Start);
    } else {
      MagnitudeIsAbs(n);
      var u := Uint64Of(NegInt64(n));
      var r1 := Start.(negative := true);
      StepMarker(digits, Start, '负');
      ReadThen(digits, Start, "负", IntegerText(u, digits, omitOneTen), r1);
      IntegerTextReads(digits, u, omitOneTen, r1);
    }
  }

  /** The sign is written exactly for negative numbers. */
  lemma SignedTextSign(n: int, digits: seq<char>, omitOneTen: bool)
    requires IsInt64(n) && DigitTable(digits)
    ensures |SignedText(n, digits, omitOneTen)| > 0
    ensures SignedText(n, digits, omitOneTen)[0] == '负' <==> n < 0
  {
    if n > 0 {
      IntegerTextReads(digits, n, omitOneTen, Start);
      UnsignedText(digits, SignedText(n, digits, omitOneTen));
    }
  }

  /** A text that reads as a non-zero number without a sign neither is empty nor starts with "负". */
  lemma UnsignedText(digits: seq<char>, t: string)
    requires DigitTable(digits)
    requires Value(Read(digits, Start, t)) != 0 && !Read(digits, Start, t).negative
    ensures |t| > 0 && t[0] != '负'
  {
    if t[0] == '负' {
      StepMarker(digits, Start, '负');
      ReadThen(digits, Start, [t[0]], t[1..], Start.(negative := true));
      assert [t[0]] + t[1..] == t;
      NegativeStays(digits, Start.(negative := true), t[1..]);
      assert false;
    }
  }

  /** Once the sign has been read it stays. */
  lemma {:induction false} NegativeStays(digits: seq<char>, r: Reading, s: string)
    requires r.negative
    ensures Read(digits, r, s).negative
    decreases |s|
  {
    if s != [] {
      NegativeStays(digits, Step(digits, r, s[0]), s[1..]);
    }
  }

  /** ToChineseLowerInt: lower-case digits, "一" left out before "十". */
  method ToChineseLowerInt(n: int) returns (s: string)
    requires IsInt64(n)
    ensures s == SignedText(n, LowerDigits, true)
    ensures SignedValue(Read(LowerDigits, Start, s)) == n
  {
    LowerDigitTable();
    SignedTextReads(n, LowerDigits, true);
    if n == 0 {
      return [LowerDigits[0]];
    }
    var neg := n < 0;
    var m := n;
    if neg {
      m := NegInt64(n);
    }
    var t := IntegerToChinese(Uint64Of(m), LowerDigits, true);
    if neg {
      return "负" + t;
    }
    return t;
  }

  /** ToChineseUpperInt: financial upper-case digits, the "壹" before "十" written out. */
  method ToChineseUpperInt(n: int) returns (s: string)
    requires IsInt64(n)
    ensures s == SignedText(n, UpperDigits, false)
    ensures SignedValue(Read(UpperDigits, Start, s)) == n
  {
    UpperDigitTable();
    SignedTextReads(n, UpperDigits, false);
    if n == 0 {
      return [UpperDigits[0]];
    }
    var neg := n < 0;
    var m := n;
    if neg {
      m := NegInt64(n);
    }
    var t := IntegerToChinese(Uint64Of(m), UpperDigits, false);
    if neg {
      return "负" + t;
    }
    return t;
  }

  // ---------------------------------------------------------------------
  // Shape of the text

  /** With the tens digit left alone, omitOneTen changes nothing from place i on. */
  lemma {:induction false} OmitOnlyAtTens(vals: seq<int>, digits: seq<char>, i: int, prevZero: bool, started: bool)
    requires PlaceDigits(vals) && 0 <= i <= 4 && |digits| == 10
    requires i >= 3 || !(vals[0] == 0 && vals[1] == 0 && vals[2] == 1)
    ensures GroupTextFrom(vals, digits, true, i, prevZero, started) == GroupTextFrom(vals, digits, false, i, prevZero, started)
    decreases 4 - i
  {
    if i < 4 {
      if vals[i] == 0 {
        OmitOnlyAtTens(vals, digits, i + 1, true, started);
      } else {
        OmitOnlyAtTens(vals, digits, i + 1, prevZero && !started, true);
        assert PlaceText(vals, digits, true, i, prevZero, started) == PlaceText(vals, digits, false, i, prevZero, started);
      }
    }
  }

  /**
   * fourDigitToChinese leaves out the "一" before "十" exactly for the
   * groups 10 to 19 and only when asked to: then the text starts with "十"
   * and is the full text less its first rune; every other group is written
   * the same either way.
   */
  lemma OmitOneTen(group: nat, digits: seq<char>)
    requires group < 10000 && |digits| == 10
    ensures 10 <= group < 20 ==>
              && GroupText(group, digits, false) == [digits[1]] + GroupText(group, digits, true)
              && GroupText(group, digits, true)[..1] == "十"
    ensures !(10 <= group < 20) ==> GroupText(group, digits, false) == GroupText(group, digits, true)
  {
    var vals := Places(group);
    if 10 <= group < 20 {
      assert vals[0] == 0 && vals[1] == 0 && vals[2] == 1;
      OmitOnlyAtTens(vals, digits, 3, true, true);
      forall o: bool
        ensures GroupText(group, digits, o)
                == PlaceText(vals, digits, o, 2, true, false) + GroupTextFrom(vals, digits, o, 3, true, true)
      {
        ZeroPlaceStep(vals, digits, o, 0, false, false);
        ZeroPlaceStep(vals, digits, o, 1, true, false);
        PlaceStep(vals, digits, o, 2, true, false);
      }
    } else {
      assert !(vals[0] == 0 && vals[1] == 0 && vals[2] == 1);
      OmitOnlyAtTens(vals, digits, 0, false, false);
    }
  }

  /** A group of one digit d is that digit alone. */
  lemma OneDigitGroup(d: nat, digits: seq<char>, omitOneTen: bool)
    requires 1 <= d <= 9 && |digits| == 10
    ensures GroupText(d, digits, omitOneTen) == [digits[d]]
  {
    var vals := Places(d);
    assert vals == [0, 0, 0, d];
    ZeroPlaceStep(vals, digits, omitOneTen, 0, false, false);
    ZeroPlaceStep(vals, digits, omitOneTen, 1, true, false);
    ZeroPlaceStep(vals, digits, omitOneTen, 2, true, false);
    PlaceStep(vals, digits, omitOneTen, 3, true, false);
  }

  /**
   * A group of two digits t and d: the tens digit (left out for 1 when
   * asked), "十", and for a non-zero d a "零" -- set by the leading zero
   * places -- and d.
   */
  lemma TwoDigitGroup(t: nat, d: nat, digits: seq<char>, omitOneTen: bool)
    requires 1 <= t <= 9 && d <= 9 && |digits| == 10
    ensures GroupText(10 * t + d, digits, omitOneTen)
            == (if omitOneTen && t == 1 then [] else [digits[t]]) + "十" + (if d == 0 then [] else [digits[0], digits[d]])
  {
    var vals := Places(10 * t + d);
    assert vals == [0, 0, t, d];
    ZeroPlaceStep(vals, digits, omitOneTen, 0, false, false);
    ZeroPlaceStep(vals, digits, omitOneTen, 1, true, false);
    PlaceStep(vals, digits, omitOneTen, 2, true, false);
    if d == 0 {
      ZeroPlaceStep(vals, digits, omitOneTen, 3, true, true);
    } else {
      PlaceStep(vals, digits, omitOneTen, 3, true, true);
    }
  }

  /** A written group starts below the thousands exactly when it is below 1000. */
  lemma HighestPlaceBelowThousands(group: nat)
    requires 0 < group < 10000
    ensures HighestPlace(Places(group)) > 0 <==> group < 1000
  {
  }

  /** The last round of the assembly loop, after something has been written. */
  lemma AssembleLast(parts: seq<string>, highs: seq<int>, zero: char, needZero: bool)
    requires |parts| == |highs| >= 1
    ensures AssembleText(parts, highs, zero, 1, needZero, true)
            == if parts[0] == [] then [] else (if needZero || highs[0] > 0 then [zero] else []) + parts[0]
  {
    assert AssembleText(parts, highs, zero, 0, false, true) == [];
  }

  /** The assembly loop over two parts, the higher one written. */
  lemma AssembleTwo(parts: seq<string>, highs: seq<int>, zero: char)
    requires |parts| == |highs| == 2 && parts[1] != []
    ensures AssembleText(parts, highs, zero, 2, false, false)
            == parts[1] + (if parts[0] == [] then [] else (if highs[0] > 0 then [zero] else []) + parts[0])
  {
    AssembleLast(parts, highs, zero, false);
  }

  /** The assembly loop over three parts, the highest one written. */
  lemma AssembleThree(parts: seq<string>, highs: seq<int>, zero: char)
    requires |parts| == |highs| == 3 && parts[2] != []
    ensures AssembleText(parts, highs, zero, 3, false, false)
            == parts[2]
               + (if parts[1] == [] then [] else (if highs[1] > 0 then [zero] else []) + parts[1])
               + (if parts[0] == [] then [] else (if parts[1] == [] || highs[0] > 0 then [zero] else []) + parts[0])
  {
    AssembleLast(parts, highs, zero, parts[1] == []);
    var low := AssembleText(parts, highs, zero, 1, parts[1] == [], true);
    var mid := if parts[1] == [] then [] else (if highs[1] > 0 then [zero] else []) + parts[1];
    var top := AssembleText(parts, highs, zero, 2, false, true);
    assert top == mid + low;
    assert [] + parts[2] == parts[2];
    assert AssembleText(parts, highs, zero, 3, false, false) == parts[2] + top;
    Seqs.AppendAssoc(parts[2], mid, low);
  }

  /** Part j of the groups is empty exactly for a zero group, and a written one starts below the thousands exactly below 1000. */
  lemma PartShape(gs: seq<int>, j: int, digits: seq<char>, omitOneTen: bool)
    requires ValidGroups(gs) && 0 <= j < |gs| && DigitTable(digits)
    ensures |PartsUpTo(gs, |gs|, digits, omitOneTen)| == |HighsUpTo(gs, |gs|)| == |gs|
    ensures PartsUpTo(gs, |gs|, digits, omitOneTen)[j] == [] <==> gs[j] == 0
    ensures gs[j] != 0 ==> (HighsUpTo(gs, |gs|)[j] > 0 <==> gs[j] < 1000)
  {
    PartsUpToIndex(gs, |gs|, digits, omitOneTen);
    HighsUpToIndex(gs, |gs|);
    GroupTextEmpty(digits, gs[j], omitOneTen);
    if gs[j] != 0 {
      HighestPlaceBelowThousands(gs[j]);
      assert |Part(gs, j, digits, omitOneTen)| > 0;
    }
  }

  /** Part j of the groups: its text and big unit, or nothing for a zero group; and where it starts. */
  lemma GroupPart(gs: seq<int>, j: int, digits: seq<char>, omitOneTen: bool)
    requires ValidGroups(gs) && 0 <= j < |gs| && DigitTable(digits)
    ensures |PartsUpTo(gs, |gs|, digits, omitOneTen)| == |HighsUpTo(gs, |gs|)| == |gs|
    ensures PartsUpTo(gs, |gs|, digits, omitOneTen)[j]
            == if gs[j] == 0 then [] else GroupText(gs[j], digits, omitOneTen) + BigUnits[j]
    ensures gs[j] != 0 ==> (HighsUpTo(gs, |gs|)[j] > 0 <==> gs[j] < 1000)
  {
    PartsUpToIndex(gs, |gs|, digits, omitOneTen);
    HighsUpToIndex(gs, |gs|);
    GroupTextEmpty(digits, gs[j], omitOneTen);
    if gs[j] != 0 {
      HighestPlaceBelowThousands(gs[j]);
    }
  }

  /** integerToChinese for a non-zero u with groups gs: the assembly loop over their parts. */
  lemma IntegerTextOf(u: nat, gs: seq<int>, digits: seq<char>, omitOneTen: bool)
    requires 0 < u < TwoTo64 && |digits| == 10 && Groups(u) == gs
    ensures ValidGroups(gs)
    ensures IntegerText(u, digits, omitOneTen)
            == AssembleText(PartsUpTo(gs, |gs|, digits, omitOneTen), HighsUpTo(gs, |gs|), digits[0], |gs|, false, false)
  {
    Uint64Groups(u);
  }

  /** The groups of a number of two groups, low first. */
  lemma TwoGroupsOf(hi: nat, lo: nat)
    requires 0 < hi < 1_0000 && lo < 1_0000
    ensures Groups(hi * 1_0000 + lo) == [lo, hi]
  {
    assert Groups(hi) == [hi] by {
      assert Groups(hi / 1_0000) == [];
    }
  }

  /** The groups of a number of three groups, low first. */
  lemma ThreeGroupsOf(a: nat, b: nat, c: nat)
    requires 0 < a < 1_0000 && b < 1_0000 && c < 1_0000
    ensures Groups(a * 1_0000_0000 + b * 1_0000 + c) == [c, b, a]
  {
    var u := a * 1_0000_0000 + b * 1_0000 + c;
    assert u % 1_0000 == c && u / 1_0000 == a * 1_0000 + b;
    TwoGroupsOf(a, b);
  }

  /** What integerToChinese writes for a number of one group: that group's text. */
  lemma OneGroup(u: nat, digits: seq<char>, omitOneTen: bool)
    requires 0 < u < 1_0000 && DigitTable(digits)
    ensures IntegerText(u, digits, omitOneTen) == GroupText(u, digits, omitOneTen)
  {
    var gs := [u];
    assert Groups(u) == gs by {
      assert Groups(u / 1_0000) == [];
    }
    IntegerTextOf(u, gs, digits, omitOneTen);
    GroupPart(gs, 0, digits, omitOneTen);
    var parts, highs := PartsUpTo(gs, 1, digits, omitOneTen), HighsUpTo(gs, 1);
    assert AssembleText(parts, highs, digits[0], 0, false, true) == [];
  }

  /** The assembly loop over two groups, the higher one not zero. */
  lemma TwoGroupsText(gs: seq<int>, digits: seq<char>, omitOneTen: bool)
    requires ValidGroups(gs) && |gs| == 2 && gs[1] != 0 && DigitTable(digits)
    ensures var parts := PartsUpTo(gs, 2, digits, omitOneTen);
            AssembleText(parts, HighsUpTo(gs, 2), digits[0], 2, false, false)
            == parts[1] + (if gs[0] == 0 then [] else (if gs[0] < 1000 then [digits[0]] else []) + parts[0])
  {
    PartShape(gs, 0, digits, omitOneTen);
    PartShape(gs, 1, digits, omitOneTen);
    AssembleTwo(PartsUpTo(gs, 2, digits, omitOneTen), HighsUpTo(gs, 2), digits[0]);
  }

  /** The parts of a two-group number: the high group and "万", and the low group unless it is zero. */
  lemma TwoParts(hi: nat, lo: nat, digits: seq<char>, omitOneTen: bool)
    requires 0 < hi < 1_0000 && lo < 1_0000 && DigitTable(digits)
    ensures var parts := PartsUpTo([lo, hi], 2, digits, omitOneTen);
            && parts[1] == GroupText(hi, digits, omitOneTen) + "万"
            && parts[0] == if lo == 0 then [] else GroupText(lo, digits, omitOneTen)
  {
    GroupPart([lo, hi], 0, digits, omitOneTen);
    GroupPart([lo, hi], 1, digits, omitOneTen);
  }

  /** A two-group number is assembled from its two parts. */
  lemma TwoGroupsAssembled(hi: nat, lo: nat, digits: seq<char>, omitOneTen: bool)
    requires 0 < hi < 1_0000 && lo < 1_0000 && DigitTable(digits)
    ensures var parts := PartsUpTo([lo, hi], 2, digits, omitOneTen);
            IntegerText(hi * 1_0000 + lo, digits, omitOneTen)
            == parts[1] + (if lo == 0 then [] else (if lo < 1000 then [digits[0]] else []) + parts[0])
  {
    TwoGroupsOf(hi, lo);
    IntegerTextOf(hi * 1_0000 + lo, [lo, hi], digits, omitOneTen);
    TwoGroupsText([lo, hi], digits, omitOneTen);
  }

  /**
   * A number of two groups: the high group and "万", then the low group
   * unless it is zero, with a "零" before it exactly when it starts below
   * the thousands.
   */
  lemma TwoGroups(hi: nat, lo: nat, digits: seq<char>, omitOneTen: bool)
    requires 0 < hi < 1_0000 && lo < 1_0000 && DigitTable(digits)
    ensures IntegerText(hi * 1_0000 + lo, digits, omitOneTen)
            == GroupText(hi, digits, omitOneTen) + "万"
               + (if lo == 0 then [] else if lo < 1000 then [digits[0]] + GroupText(lo, digits, omitOneTen)
                  else GroupText(lo, digits, omitOneTen))
  {
    TwoGroupsAssembled(hi, lo, digits, omitOneTen);
    TwoParts(hi, lo, digits, omitOneTen);
  }

  /** The assembly loop over three groups, the highest one not zero. */
  lemma ThreeGroupsText(gs: seq<int>, digits: seq<char>, omitOneTen: bool)
    requires ValidGroups(gs) && |gs| == 3 && gs[2] != 0 && DigitTable(digits)
    ensures var parts, z := PartsUpTo(gs, 3, digits, omitOneTen), digits[0];
            AssembleText(parts, HighsUpTo(gs, 3), z, 3, false, false)
            == parts[2]
               + (if gs[1] == 0 then [] else (if gs[1] < 1000 then [z] else []) + parts[1])
               + (if gs[0] == 0 then [] else (if gs[1] == 0 || gs[0] < 1000 then [z] else []) + parts[0])
  {
    PartShape(gs, 0, digits, omitOneTen);
    PartShape(gs, 1, digits, omitOneTen);
    PartShape(gs, 2, digits, omitOneTen);
    AssembleThree(PartsUpTo(gs, 3, digits, omitOneTen), HighsUpTo(gs, 3), digits[0]);
  }

  /** The parts of a three-group number: each written group with its big unit, nothing for a zero group. */
  lemma ThreeParts(a: nat, b: nat, c: nat, digits: seq<char>, omitOneTen: bool)
    requires 0 < a < 1_0000 && b < 1_0000 && c < 1_0000 && DigitTable(digits)
    ensures var parts := PartsUpTo([c, b, a], 3, digits, omitOneTen);
            && parts[2] == GroupText(a, digits, omitOneTen) + "亿"
            && parts[1] == (if b == 0 then [] else GroupText(b, digits, omitOneTen) + "万")
            && parts[0] == (if c == 0 then [] else GroupText(c, digits, omitOneTen))
  {
    GroupPart([c, b, a], 0, digits, omitOneTen);
    GroupPart([c, b, a], 1, digits, omitOneTen);
    GroupPart([c, b, a], 2, digits, omitOneTen);
  }

  /** A three-group number is assembled from its three parts. */
  lemma ThreeGroupsAssembled(a: nat, b: nat, c: nat, digits: seq<char>, omitOneTen: bool)
    requires 0 < a < 1_0000 && b < 1_0000 && c < 1_0000 && DigitTable(digits)
    ensures var parts, z := PartsUpTo([c, b, a], 3, digits, omitOneTen), digits[0];
            IntegerText(a * 1_0000_0000 + b * 1_0000 + c, digits, omitOneTen)
            == parts[2]
               + (if b == 0 then [] else (if b < 1000 then [z] else []) + parts[1])
               + (if c == 0 then [] else (if b == 0 || c < 1000 then [z] else []) + parts[0])
  {
    ThreeGroupsOf(a, b, c);
    IntegerTextOf(a * 1_0000_0000 + b * 1_0000 + c, [c, b, a], digits, omitOneTen);
    ThreeGroupsText([c, b, a], digits, omitOneTen);
  }

  /**
   * A number of three groups: the high group and "亿"; the middle group and
   * "万" unless it is zero; the low group unless it is zero. A "零" goes
   * before a written group that starts below the thousands, and before the
   * low group when the middle group is zero.
   */
  lemma ThreeGroups(a: nat, b: nat, c: nat, digits: seq<char>, omitOneTen: bool)
    requires 0 < a < 1_0000 && b < 1_0000 && c < 1_0000 && DigitTable(digits)
    ensures var z := digits[0];
            IntegerText(a * 1_0000_0000 + b * 1_0000 + c, digits, omitOneTen)
            == GroupText(a, digits, omitOneTen) + "亿"
               + (if b == 0 then [] else (if b < 1000 then [z] else []) + (GroupText(b, digits, omitOneTen) + "万"))
               + (if c == 0 then [] else (if b == 0 || c < 1000 then [z] else []) + GroupText(c, digits, omitOneTen))
  {
    ThreeGroupsAssembled(a, b, c, digits, omitOneTen);
    ThreeParts(a, b, c, digits, omitOneTen);
  }

  /** A whole number of hundreds h: the digit and "百". */
  lemma HundredsGroup(g: nat, h: nat, digits: seq<char>, omitOneTen: bool)
    requires 1 <= h <= 9 && g == 100 * h && |digits| == 10
    ensures GroupText(g, digits, omitOneTen) == [digits[h]] + "百"
  {
    var vals := Places(g);
    assert vals == [0, h, 0, 0];
    ZeroPlaceStep(vals, digits, omitOneTen, 0, false, false);
    PlaceStep(vals, digits, omitOneTen, 1, true, false);
    ZeroPlaceStep(vals, digits, omitOneTen, 2, true, true);
    ZeroPlaceStep(vals, digits, omitOneTen, 3, true, true);
  }

  /** A whole number of thousands a: the digit and "千". */
  lemma ThousandsGroup(g: nat, a: nat, digits: seq<char>, omitOneTen: bool)
    requires 1 <= a <= 9 && g == 1000 * a && |digits| == 10
    ensures GroupText(g, digits, omitOneTen) == [digits[a]] + "千"
  {
    var vals := Places(g);
    assert vals == [a, 0, 0, 0];
    PlaceStep(vals, digits, omitOneTen, 0, false, false);
    ZeroPlaceStep(vals, digits, omitOneTen, 1, false, true);
    ZeroPlaceStep(vals, digits, omitOneTen, 2, true, true);
    ZeroPlaceStep(vals, digits, omitOneTen, 3, true, true);
  }

  /** a thousands and d units: the zero hundreds and tens write one "零" before the units. */
  lemma ThousandsUnitsGroup(g: nat, a: nat, d: nat, digits: seq<char>, omitOneTen: bool)
    requires 1 <= a <= 9 && 1 <= d <= 9 && g == 1000 * a + d && |digits| == 10
    ensures GroupText(g, digits, omitOneTen) == [digits[a]] + "千" + [digits[0], digits[d]]
  {
    var vals := Places(g);
    assert g / 10 == 100 * a && g / 100 == 10 * a && g / 1000 == a;
    assert vals == [a, 0, 0, d];
    PlaceStep(vals, digits, omitOneTen, 0, false, false);
    ZeroPlaceStep(vals, digits, omitOneTen, 1, false, true);
    ZeroPlaceStep(vals, digits, omitOneTen, 2, true, true);
    PlaceStep(vals, digits, omitOneTen, 3, true, true);
    assert PlaceText(vals, digits, omitOneTen, 3, true, true) == [digits[0], digits[d]];
  }

  /**
   * Three non-zero digits h, t, d: the zero thousands leave prevZero set
   * until after the hundreds, so a "零" comes before the tens.
   */
  lemma HundredsTensUnitsGroup(g: nat, h: nat, t: nat, d: nat, digits: seq<char>, omitOneTen: bool)
    requires 1 <= h <= 9 && 1 <= t <= 9 && 1 <= d <= 9 && g == 100 * h + 10 * t + d && |digits| == 10
    ensures GroupText(g, digits, omitOneTen) == [digits[h]] + "百" + [digits[0], digits[t]] + "十" + [digits[d]]
  {
    var vals := Places(g);
    assert g / 10 == 10 * h + t && g / 100 == h && g / 1000 == 0;
    assert vals == [0, h, t, d];
    ZeroPlaceStep(vals, digits, omitOneTen, 0, false, false);
    PlaceStep(vals, digits, omitOneTen, 1, true, false);
    PlaceStep(vals, digits, omitOneTen, 2, true, true);
    PlaceStep(vals, digits, omitOneTen, 3, false, true);
    assert PlaceText(vals, digits, omitOneTen, 2, true, true) == [digits[0], digits[t]] + "十";
  }

  /**
   * A number from 10 to 99: the tens digit (left out for 1 when asked),
   * "十", and for a non-zero units digit a "零" and that digit.
   */
  lemma TwoDigitNumber(n: nat, t: nat, d: nat, digits: seq<char>, omitOneTen: bool)
    requires 1 <= t <= 9 && d <= 9 && n == 10 * t + d && DigitTable(digits)
    ensures IntegerText(n, digits, omitOneTen)
            == (if omitOneTen && t == 1 then [] else [digits[t]]) + "十" + (if d == 0 then [] else [digits[0], digits[d]])
  {
    OneGroup(n, digits, omitOneTen);
    TwoDigitGroup(t, d, digits, omitOneTen);
  }


  /** A positive int64 is written as its uint64 value. */
  lemma PositiveText(n: int, digits: seq<char>, omitOneTen: bool)
    requires 0 < n <= MaxInt64 && |digits| == 10
    ensures SignedText(n, digits, omitOneTen) == IntegerText(n, digits, omitOneTen)
  {
  }
}
