// Amounts of money in financial upper-case numerals, 元/角/分
// (numberchinese/number_chinese_rmb.go).
//
// ToChineseRMBUpper takes the sign of the amount, rounds its magnitude to
// two decimals (ncRoundTo) and formats it with strconv.FormatFloat(amount,
// 'f', 2, 64). Rounding and formatting are floating point; the model starts
// from their outcome: `neg` (amount < 0) and `fixed`, the formatted text.

module NumberChineseRmb {
  import opened GoStd
  import opened Wrappers
  import Collections
  import opened ChineseNumeralReader
  import opened NumberChineseBase
  import opened NumberChineseInt
  import opened NumberChineseFloat

  /** The largest magnitude up to which every integer is a float64 exactly. */
  const MaxExactFloat: int := 0x20_0000_0000_0000

  /** 角: the first digit after the point, 0 without one. */
  function Jiao(frac: string): (d: int)
    requires DigitsUpTo(frac, |frac|)
    ensures 0 <= d <= 9
  {
    if |frac| >= 1 then DigitValue(frac[0]) else 0
  }

  /** 分: the second digit after the point, 0 without one. */
  function Fen(frac: string): (d: int)
    requires DigitsUpTo(frac, |frac|)
    ensures 0 <= d <= 9
  {
    if |frac| >= 2 then DigitValue(frac[1]) else 0
  }

  /** A non-zero 角: its digit, then "角". */
  function JiaoText(digits: seq<char>, jiao: int): string
    requires |digits| == 10 && 0 <= jiao <= 9
  {
    if jiao != 0 then [digits[jiao], '角'] else []
  }

  /** A non-zero 分: "零" when 角 is zero, its digit, then "分". */
  function FenText(digits: seq<char>, jiao: int, fen: int): string
    requires |digits| == 10 && 0 <= fen <= 9
  {
    if fen != 0 then (if jiao == 0 then [digits[0]] else []) + [digits[fen], '分'] else []
  }

  /** What follows "元": "整" for a whole amount, else the 角 and 分 parts. */
  function CentsText(digits: seq<char>, jiao: int, fen: int): (t: string)
    requires |digits| == 10 && 0 <= jiao <= 9 && 0 <= fen <= 9
    ensures t != []
    ensures t[|t| - 1] == (if fen != 0 then '分' else if jiao != 0 then '角' else '整')
  {
    if jiao == 0 && fen == 0 then "整"
    else
      var t := JiaoText(digits, jiao) + FenText(digits, jiao, fen);
      assert fen != 0 ==> t[|t| - 1] == FenText(digits, jiao, fen)[|FenText(digits, jiao, fen)| - 1];
      t
  }

  /** The text of an amount of ip 元, jiao 角 and fen 分. */
  function AmountText(neg: bool, ip: nat, jiao: int, fen: int): string
    requires ip < TwoTo64 && 0 <= jiao <= 9 && 0 <= fen <= 9
  {
    var res := IntegerText(ip, UpperDigits, false) + "元" + CentsText(UpperDigits, jiao, fen);
    if neg then "负" + res else res
  }

  /** What ToChineseRMBUpper writes for the sign and the formatted magnitude. */
  function RmbText(neg: bool, fixed: string): string
    requires FractionDigits(fixed, 2)
  {
    var frac := FracPart(fixed, 2);
    AmountText(neg, ParseUintValue(IntPart(fixed, 2)), Jiao(frac), Fen(frac))
  }

  // ---------------------------------------------------------------------
  // Shape of the text

  /** The integer part in upper-case digits comes first (after "负"), then "元", then the cents. */
  lemma AmountTextShape(neg: bool, ip: nat, jiao: int, fen: int)
    requires ip < TwoTo64 && 0 <= jiao <= 9 && 0 <= fen <= 9
    ensures var t := AmountText(neg, ip, jiao, fen);
            var head := if neg then "负" else "";
            var whole := IntegerText(ip, UpperDigits, false);
            && t[..|head|] == head
            && t[|head|..|head| + |whole|] == whole
            && t[|head| + |whole|] == '元'
  {
    var head: string := if neg then "负" else "";
    var whole := IntegerText(ip, UpperDigits, false);
    var cents := CentsText(UpperDigits, jiao, fen);
    AmountTextSplit(neg, ip, jiao, fen);
    TextShape(head, whole, cents);
  }

  /** The text ends in "整" exactly when both 角 and 分 are zero, else in "角" or "分". */
  lemma AmountTextEnd(neg: bool, ip: nat, jiao: int, fen: int)
    requires ip < TwoTo64 && 0 <= jiao <= 9 && 0 <= fen <= 9
    ensures var t := AmountText(neg, ip, jiao, fen);
            t[|t| - 1] == (if fen != 0 then '分' else if jiao != 0 then '角' else '整')
  {
    var head: string := if neg then "负" else "";
    AmountTextSplit(neg, ip, jiao, fen);
    TextShape(head, IntegerText(ip, UpperDigits, false), CentsText(UpperDigits, jiao, fen));
  }

  /** Where the sign, the integer part, "元" and the cents sit in their concatenation. */
  lemma TextShape(head: string, whole: string, cents: string)
    requires cents != []
    ensures var t := head + (whole + "元" + cents);
            && t[..|head|] == head
            && t[|head|..|head| + |whole|] == whole
            && t[|head| + |whole|] == '元'
            && t[|t| - 1] == cents[|cents| - 1]
  {
    var res := whole + "元" + cents;
    var t := head + res;
    assert t[|head|..] == res;
    assert res[..|whole|] == whole;
    assert t[|head|..|head| + |whole|] == res[..|whole|];
  }

  /** The text is the sign, the integer part, "元" and the cents, in that order. */
  lemma AmountTextSplit(neg: bool, ip: nat, jiao: int, fen: int)
    requires ip < TwoTo64 && 0 <= jiao <= 9 && 0 <= fen <= 9
    ensures AmountText(neg, ip, jiao, fen)
            == (if neg then "负" else "") + (IntegerText(ip, UpperDigits, false) + "元" + CentsText(UpperDigits, jiao, fen))
  {
    if !neg {
      assert "" + (IntegerText(ip, UpperDigits, false) + "元" + CentsText(UpperDigits, jiao, fen))
          == IntegerText(ip, UpperDigits, false) + "元" + CentsText(UpperDigits, jiao, fen);
    }
  }

  /** A lone 分 is written after "零": 零, the digit, 分. */
  lemma LoneFen(digits: seq<char>, fen: int)
    requires |digits| == 10 && 1 <= fen <= 9
    ensures CentsText(digits, 0, fen) == [digits[0], digits[fen], '分']
  {
  }

  // ---------------------------------------------------------------------
  // Reading the text back

  /** 角 read after "元" adds ten fen per 角. */
  lemma JiaoRead(digits: seq<char>, jiao: int, r: Reading)
    requires DigitTable(digits) && 0 <= jiao <= 9 && r.pending == 0 && !r.inFraction
    ensures Read(digits, r, JiaoText(digits, jiao)) == r.(total := r.total + jiao * 10)
  {
    if jiao != 0 {
      StepDigit(digits, r, jiao);
      ReadThen(digits, r, [digits[jiao]], ['角'], r.(pending := jiao));
      StepMarker(digits, r.(pending := jiao), '角');
      assert [digits[jiao]] + ['角'] == JiaoText(digits, jiao);
    }
  }

  /** 分 read after "元" and 角 adds one fen per 分; "零" changes nothing. */
  lemma FenRead(digits: seq<char>, jiao: int, fen: int, r: Reading)
    requires DigitTable(digits) && 0 <= fen <= 9 && r.pending == 0 && !r.inFraction
    ensures Read(digits, r, FenText(digits, jiao, fen)) == r.(total := r.total + fen)
  {
    if fen != 0 {
      var z: string := if jiao == 0 then [digits[0]] else [];
      if jiao == 0 {
        StepDigit(digits, r, 0);
      }
      assert Read(digits, r, z) == r;
      ReadThen(digits, r, z, [digits[fen]], r);
      StepDigit(digits, r, fen);
      ReadThen(digits, r, z + [digits[fen]], ['分'], r.(pending := fen));
      StepMarker(digits, r.(pending := fen), '分');
      assert z + [digits[fen]] + ['分'] == FenText(digits, jiao, fen);
    }
  }

  /** The cents read after "元" add ten fen per 角 and one per 分. */
  lemma CentsRead(digits: seq<char>, jiao: int, fen: int, r: Reading)
    requires DigitTable(digits) && 0 <= jiao <= 9 && 0 <= fen <= 9 && r.pending == 0 && !r.inFraction
    ensures Read(digits, r, CentsText(digits, jiao, fen)) == r.(total := r.total + jiao * 10 + fen)
  {
    if jiao == 0 && fen == 0 {
      StepMarker(digits, r, '整');
    } else {
      var ra := r.(total := r.total + jiao * 10);
      JiaoRead(digits, jiao, r);
      ReadThen(digits, r, JiaoText(digits, jiao), FenText(digits, jiao, fen), ra);
      FenRead(digits, jiao, fen, ra);
    }
  }

  /** "元" closes the integer part read so far, counted in fen. */
  lemma YuanRead(digits: seq<char>, r: Reading)
    requires DigitTable(digits)
    ensures Read(digits, r, "元") == r.(total := Value(r) * 100, section := 0, pending := 0)
  {
    StepMarker(digits, r, '元');
  }

  /** Reading back an amount's text gives its sign and its value in fen. */
  lemma AmountTextReads(neg: bool, ip: nat, jiao: int, fen: int)
    requires ip < TwoTo64 && 0 <= jiao <= 9 && 0 <= fen <= 9
    ensures var r := Read(UpperDigits, Start, AmountText(neg, ip, jiao, fen));
            r.negative == neg && Value(r) == ip * 100 + jiao * 10 + fen
  {
    UpperDigitTable();
    AmountReads(UpperDigits, neg, ip, jiao, fen);
    AmountTextSplit(neg, ip, jiao, fen);
  }

  /** AmountTextReads for any digit table. */
  lemma AmountReads(digits: seq<char>, neg: bool, ip: nat, jiao: int, fen: int)
    requires DigitTable(digits) && ip < TwoTo64 && 0 <= jiao <= 9 && 0 <= fen <= 9
    ensures var head: string := if neg then "负" else "";
            var r := Read(digits, Start, head + (IntegerText(ip, digits, false) + "元" + CentsText(digits, jiao, fen)));
            r.negative == neg && Value(r) == ip * 100 + jiao * 10 + fen
  {
    var r0 := if neg then Start.(negative := true) else Start;
    var head: string := if neg then "负" else "";
    if neg {
      StepMarker(digits, Start, '负');
    }
    assert Read(digits, Start, head) == r0;
    var whole := IntegerText(ip, digits, false);
    var cents := CentsText(digits, jiao, fen);
    ReadThen(digits, Start, head, whole + "元" + cents, r0);
    IntegerTextReads(digits, ip, false, r0);
    var r1 := Read(digits, r0, whole);
    ReadThen(digits, r0, whole, "元", r1);
    YuanRead(digits, r1);
    var r2 := r1.(total := Value(r1) * 100, section := 0, pending := 0);
    ReadThen(digits, r0, whole + "元", cents, r2);
    CentsRead(digits, jiao, fen, r2);
  }

  /** Reading back ToChineseRMBUpper's text gives the sign and the formatted amount in fen. */
  lemma RmbTextReads(neg: bool, fixed: string)
    requires FractionDigits(fixed, 2)
    ensures var frac := FracPart(fixed, 2);
            var r := Read(UpperDigits, Start, RmbText(neg, fixed));
            && r.negative == neg
            && Value(r) == ParseUintValue(IntPart(fixed, 2)) * 100 + Jiao(frac) * 10 + Fen(frac)
  {
    var frac := FracPart(fixed, 2);
    AmountTextReads(neg, ParseUintValue(IntPart(fixed, 2)), Jiao(frac), Fen(frac));
  }

  // ---------------------------------------------------------------------
  // The writer

  /** The 角/分 branch of ToChineseRMBUpper: the parts that follow "元". */
  method CentsParts(jiao: int, fen: int) returns (parts: seq<string>)
    requires 0 <= jiao <= 9 && 0 <= fen <= 9
    ensures Concat(parts) == CentsText(UpperDigits, jiao, fen)
  {
    if jiao == 0 && fen == 0 {
      parts := ["整"];
      ConcatOne("整");
      return;
    }
    var jiaoParts: seq<string> := [];
    if jiao != 0 {
      jiaoParts := [[UpperDigits[jiao]], "角"];
      ConcatTwo([UpperDigits[jiao]], "角");
    }
    var fenParts: seq<string> := [];
    if fen != 0 {
      if jiao == 0 {
        fenParts := [[UpperDigits[0]]];
      }
      fenParts := fenParts + [[UpperDigits[fen]], "分"];
      FenPartsJoin(jiao, fen, fenParts);
    }
    parts := jiaoParts + fenParts;
    ConcatAppend(jiaoParts, fenParts);
  }

  lemma ConcatOne(a: string)
    ensures Concat([a]) == a
  {
    assert Concat([a]) == Concat([]) + a;
  }

  lemma ConcatTwo(a: string, b: string)
    ensures Concat([a, b]) == a + b
  {
    assert [a, b][..1] == [a];
    ConcatOne(a);
  }

  lemma FenPartsJoin(jiao: int, fen: int, parts: seq<string>)
    requires 1 <= fen <= 9
    requires parts == (if jiao == 0 then [[UpperDigits[0]]] else []) + [[UpperDigits[fen]], "分"]
    ensures Concat(parts) == FenText(UpperDigits, jiao, fen)
  {
    var z: seq<string> := if jiao == 0 then [[UpperDigits[0]]] else [];
    ConcatAppend(z, [[UpperDigits[fen]], "分"]);
    ConcatTwo([UpperDigits[fen]], "分");
    if jiao == 0 {
      ConcatOne([UpperDigits[0]]);
    }
  }

  /** ToChineseRMBUpper, from the formatted text on. */
  method ToChineseRMBUpper(neg: bool, fixed: string) returns (s: string)
    requires FractionDigits(fixed, 2)
    ensures s == RmbText(neg, fixed)
  {
    var intPart, fracPart := SplitFixed(fixed, 2);
    var ip := ParseUintValue(intPart);
    var integerCN := IntegerToChinese(ip, UpperDigits, false);
    var jiao, fen := 0, 0;
    if |fracPart| >= 1 {
      jiao := fracPart[0] as int - '0' as int;
    }
    if |fracPart| >= 2 {
      fen := fracPart[1] as int - '0' as int;
    }
    assert jiao == Jiao(fracPart) && fen == Fen(fracPart);
    var cents := CentsParts(jiao, fen);
    var out := [integerCN, "元"] + cents;
    assert Concat(out) == integerCN + "元" + CentsText(UpperDigits, jiao, fen) by {
      ConcatAppend([integerCN, "元"], cents);
      ConcatTwo(integerCN, "元");
    }
    var res := JoinStrings(out);
    assert res == AmountText(false, ip, jiao, fen);
    if neg {
      return "负" + res;
    }
    return res;
  }

  // ---------------------------------------------------------------------
  // The generic entry point

  /**
   * The dynamic value handed to ToChineseRMBUpperNumber: a signed or
   * unsigned integer of any width, a float given by its sign and its text
   * formatted with two decimals, or a value of any other type.
   */
  datatype Money = SignedAmount(n: int) | UnsignedAmount(u: nat) | FloatAmount(negative: bool, fixed: string) | OtherAmount

  /** The integers a float64 holds exactly, and two-decimal float text. */
  predicate ValidMoney(v: Money)
  {
    match v
    case SignedAmount(n) => -MaxExactFloat <= n <= MaxExactFloat
    case UnsignedAmount(u) => u <= MaxExactFloat
    case FloatAmount(_, fixed) => FractionDigits(fixed, 2)
    case OtherAmount => true
  }

  /** What ToChineseRMBUpperNumber returns: integers as whole 元, floats through their text. */
  function MoneyText(v: Money): (r: Result<string, NumberError>)
    requires ValidMoney(v)
    ensures r.Err? <==> v.OtherAmount?
  {
    match v
    case SignedAmount(n) => Ok(AmountText(n < 0, Abs(n), 0, 0))
    case UnsignedAmount(u) => Ok(AmountText(false, u, 0, 0))
    case FloatAmount(neg, fixed) => Ok(RmbText(neg, fixed))
    case OtherAmount => Err(UnsupportedNumberType)
  }

  /** ToChineseRMBUpperNumber: an integer x is float64(x), whose two-decimal text is x followed by ".00". */
  method ToChineseRMBUpperNumber(v: Money) returns (r: Result<string, NumberError>)
    requires ValidMoney(v)
    ensures r == MoneyText(v)
  {
    match v {
      case SignedAmount(n) =>
        var s := WholeAmount(n < 0, Abs(n));
        return Ok(s);
      case UnsignedAmount(u) =>
        var s := WholeAmount(false, u);
        return Ok(s);
      case FloatAmount(neg, fixed) =>
        var s := ToChineseRMBUpper(neg, fixed);
        return Ok(s);
      case OtherAmount =>
        return Err(UnsupportedNumberType);
    }
  }

  /** ToChineseRMBUpper on a whole amount: the integer, "元" and "整". */
  method WholeAmount(neg: bool, ip: nat) returns (s: string)
    requires ip < TwoTo64
    ensures s == AmountText(neg, ip, 0, 0)
  {
    var integerCN := IntegerToChinese(ip, UpperDigits, false);
    s := integerCN + "元" + "整";
    if neg {
      s := "负" + s;
    }
  }

  /** Whatever ToChineseRMBUpperNumber writes reads back as the amount in fen, with its sign. */
  lemma MoneyTextReads(v: Money)
    requires ValidMoney(v) && !v.OtherAmount?
    ensures var r := Read(UpperDigits, Start, MoneyText(v).value);
            match v
            case SignedAmount(n) => SignedValue(r) == n * 100
            case UnsignedAmount(u) => !r.negative && Value(r) == u * 100
            case FloatAmount(neg, fixed) =>
              var frac := FracPart(fixed, 2);
              r.negative == neg && Value(r) == ParseUintValue(IntPart(fixed, 2)) * 100 + Jiao(frac) * 10 + Fen(frac)
            case OtherAmount => false
  {
    match v
    case SignedAmount(n) =>
      AmountTextReads(n < 0, Abs(n), 0, 0);
    case UnsignedAmount(u) =>
      AmountTextReads(false, u, 0, 0);
    case FloatAmount(neg, fixed) =>
      RmbTextReads(neg, fixed);
  }
}
