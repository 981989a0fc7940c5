// The tables and scanning helpers of the Chinese numeral writers
// (numberchinese/number_chinese_base.go). Every entry of the Go digit tables
// is a one-rune string, so a table is modelled as a sequence of its runes.

module NumberChineseBase {
  import opened ChineseNumeralReader

  /** cnLowerDigits: 零 一 二 三 四 五 六 七 八 九. */
  const LowerDigits: seq<char> := ['零', '一', '二', '三', '四', '五', '六', '七', '八', '九']
  /** cnUpperDigits, the financial forms: 零 壹 贰 叁 肆 伍 陆 柒 捌 玖. */
  const UpperDigits: seq<char> := ['零', '壹', '贰', '叁', '肆', '伍', '陆', '柒', '捌', '玖']
  /** smallUnits: the units of the places of a four-digit group. */
  const SmallUnits: seq<string> := ["千", "百", "十", ""]
  /** bigUnits: the unit of each four-digit group, lowest group first. */
  const BigUnits: seq<string> := ["", "万", "亿", "兆", "京", "垓"]

  /** ErrUnsupportedNumberType: the one error the entry points return. */
  datatype NumberError = UnsupportedNumberType

  /** Error(): the message of the error. */
  function Message(e: NumberError): string
  {
    "unsupported number type"
  }

  /** The lower-case table is a digit table the reader understands. */
  lemma LowerDigitTable()
    ensures DigitTable(LowerDigits)
  {
  }

  /** The upper-case table is a digit table the reader understands. */
  lemma UpperDigitTable()
    ensures DigitTable(UpperDigits)
  {
  }

  /** Each small unit but the last is one rune of the place's value. */
  lemma SmallUnitsValues()
    ensures |SmallUnits| == 4 && SmallUnits[3] == []
    ensures forall i :: 0 <= i < 3 ==> |SmallUnits[i]| == 1 && IsMarker(SmallUnits[i][0])
    ensures SmallUnitValue(SmallUnits[0][0]) == 1000
    ensures SmallUnitValue(SmallUnits[1][0]) == 100
    ensures SmallUnitValue(SmallUnits[2][0]) == 10
  {
  }

  /** Each big unit but the first is one rune worth 10000 to the power of its index. */
  lemma BigUnitsValues()
    ensures |BigUnits| == 6 && BigUnits[0] == []
    ensures forall j :: 1 <= j < 6 ==> |BigUnits[j]| == 1 && IsMarker(BigUnits[j][0])
    ensures BigUnitValue(BigUnits[1][0]) == 10000
    ensures BigUnitValue(BigUnits[2][0]) == 10000 * 10000
    ensures BigUnitValue(BigUnits[3][0]) == 10000 * 10000 * 10000
    ensures BigUnitValue(BigUnits[4][0]) == 10000 * 10000 * 10000 * 10000
    ensures BigUnitValue(BigUnits[5][0]) == 10000 * 10000 * 10000 * 10000 * 10000
  {
  }

  /** ncIndexByte: the index of the first b in s, or -1 when there is none. */
  method IndexByte(s: string, b: char) returns (idx: int)
    ensures -1 <= idx < |s|
    ensures idx == -1 <==> b !in s
    ensures idx >= 0 ==> s[idx] == b && b !in s[..idx]
  {
    var i := 0;
    while i < |s|
      invariant 0 <= i <= |s| && b !in s[..i]
    {
      if s[i] == b {
        return i;
      }
      i := i + 1;
    }
    return -1;
  }

  /** ncAllZero: every character is '0' (so true for the empty string). */
  method AllZero(s: string) returns (r: bool)
    ensures r <==> forall i :: 0 <= i < |s| ==> s[i] == '0'
  {
    if |s| == 0 {
      return true;
    }
    var i := 0;
    while i < |s|
      invariant 0 <= i <= |s|
      invariant forall j :: 0 <= j < i ==> s[j] == '0'
    {
      if s[i] != '0' {
        return false;
      }
      i := i + 1;
    }
    return true;
  }

  /** The parts written one after the other. */
  function Concat(parts: seq<string>): string
  {
    if parts == [] then [] else Concat(parts[..|parts| - 1]) + parts[|parts| - 1]
  }

  /** The sum of the parts' lengths. */
  function TotalLength(parts: seq<string>): nat
  {
    if parts == [] then 0 else TotalLength(parts[..|parts| - 1]) + |parts[|parts| - 1]|
  }

  /** Concatenation distributes over joining two lists of parts. */
  lemma {:induction false} ConcatAppend(a: seq<string>, b: seq<string>)
    ensures Concat(a + b) == Concat(a) + Concat(b)
    decreases |b|
  {
    if b == [] {
      assert a + b == a;
    } else {
      var init, last := b[..|b| - 1], b[|b| - 1];
      assert a + b == (a + init) + [last];
      assert ((a + init) + [last])[..|a + init|] == a + init;
      ConcatAppend(a, init);
      calc {
        Concat(a + b);
        Concat(a + init) + last;
        Concat(a) + Concat(init) + last;
        Concat(a) + (Concat(init) + last);
      }
    }
  }

  /** The concatenation is as long as the parts together. */
  lemma {:induction false} ConcatLength(a: seq<string>)
    ensures |Concat(a)| == TotalLength(a)
    decreases |a|
  {
    if a != [] {
      ConcatLength(a[..|a| - 1]);
    }
  }

  /**
   * ncJoinStrings: add up the lengths, then append every part in order to
   * a buffer of that capacity.
   */
  method JoinStrings(arr: seq<string>) returns (s: string)
    ensures s == Concat(arr)
    ensures |s| == TotalLength(arr)
  {
    var total := 0;
    var i := 0;
    while i < |arr|
      invariant 0 <= i <= |arr| && total == TotalLength(arr[..i])
    {
      assert arr[..i + 1][..i] == arr[..i];
      total := total + |arr[i]|;
      i := i + 1;
    }
    assert arr[..i] == arr;
    s := [];
    i := 0;
    while i < |arr|
      invariant 0 <= i <= |arr| && s == Concat(arr[..i])
    {
      assert arr[..i + 1][..i] == arr[..i];
      s := s + arr[i];
      i := i + 1;
    }
    assert arr[..i] == arr;
    ConcatLength(arr);
    assert |s| == total;
  }
}
