// Sample texts of the Chinese numeral writers (numberchinese), derived
// from the shape lemmas of NumberChineseInt. The samples of more than one
// group take the number and its groups as parameters tied together by
// their requires, so that the text follows from the group lemmas instead
// of from evaluating the writer on a literal.

module NumberChineseSamples {
  import opened GoStd
  import opened ChineseNumeralReader
  import opened NumberChineseBase
  import opened NumberChineseInt
  import opened NumberChineseFloat
  import opened NumberChineseRmb
  import opened Wrappers
  import Collections

  /** 11 in lower case: "十" without "一", then the "零" the leading zero places left, then "一". */
  lemma LowerEleven()
    ensures SignedText(11, LowerDigits, true) == "十零一"
  {
    LowerDigitTable();
    PositiveText(11, LowerDigits, true);
    TwoDigitNumber(11, 1, 1, LowerDigits, true);
  }

  /** 20 in lower case. */
  lemma LowerTwenty()
    ensures SignedText(20, LowerDigits, true) == "二十"
  {
    LowerDigitTable();
    PositiveText(20, LowerDigits, true);
    TwoDigitNumber(20, 2, 0, LowerDigits, true);
  }

  /** 10 in upper case keeps its "壹". */
  lemma UpperTen()
    ensures SignedText(10, UpperDigits, false) == "壹十"
  {
    UpperDigitTable();
    PositiveText(10, UpperDigits, false);
    TwoDigitNumber(10, 1, 0, UpperDigits, false);
  }

  /** A uint32 12 goes through integerToChinese directly. */
  lemma LowerUnsignedTwelve()
    ensures IntegerText(12, LowerDigits, true) == "十零二"
  {
    LowerDigitTable();
    TwoDigitNumber(12, 1, 2, LowerDigits, true);
  }

  /** 10001, as g * 10000 + g with g = 1: the low group 0001 starts below the thousands, so a "零" joins it. */
  lemma LowerTenThousandOne(n: int, g: nat)
    requires g == 1 && n == g * 1_0000 + g
    ensures SignedText(n, LowerDigits, true) == "一万零一"
  {
    LowerDigitTable();
    PositiveText(n, LowerDigits, true);
    OneDigitGroup(g, LowerDigits, true);
    TwoGroups(g, g, LowerDigits, true);
  }

  /** 10010, as g * 10000 + 10 * g with g = 1: likewise, the low group 0010 written as its tens place alone. */
  lemma LowerTenThousandTen(n: int, g: nat)
    requires g == 1 && n == g * 1_0000 + 10 * g
    ensures SignedText(n, LowerDigits, true) == "一万零十"
  {
    LowerDigitTable();
    PositiveText(n, LowerDigits, true);
    OneDigitGroup(g, LowerDigits, true);
    TwoDigitGroup(g, 0, LowerDigits, true);
    TwoGroups(g, 10 * g, LowerDigits, true);
  }

  /** 1001000, as h * 10000 + t with h = 100 and t = 1000: the low group 1000 starts at the thousands, so no "零". */
  lemma LowerMillionThousand(n: int, h: nat, t: nat)
    requires h == 100 && t == 1000 && n == h * 1_0000 + t
    ensures SignedText(n, LowerDigits, true) == "一百万一千"
  {
    LowerDigitTable();
    PositiveText(n, LowerDigits, true);
    HundredsGroup(h, 1, LowerDigits, true);
    ThousandsGroup(t, 1, LowerDigits, true);
    TwoGroups(h, t, LowerDigits, true);
  }

  /** 100010001, as g * 10^8 + g * 10^4 + g with g = 1: a "零" before each group below 1000. */
  lemma LowerHundredMillion(n: int, g: nat)
    requires g == 1 && n == g * 1_0000_0000 + g * 1_0000 + g
    ensures SignedText(n, LowerDigits, true) == "一亿零一万零一"
  {
    LowerDigitTable();
    PositiveText(n, LowerDigits, true);
    OneDigitGroup(g, LowerDigits, true);
    ThreeGroups(g, g, g, LowerDigits, true);
  }

  // ---------------------------------------------------------------------
  // Decimals and amounts, from their two-decimal text

  /** The first '.' of ip + "." + fp when ip has none. */
  lemma PointAt(ip: string, fp: string)
    requires '.' !in ip
    ensures HasPoint(ip + "." + fp, 2)
    ensures IntPart(ip + "." + fp, 2) == ip && FracPart(ip + "." + fp, 2) == fp
  {
    var fixed := ip + "." + fp;
    var i := |ip|;
    assert fixed[i] == '.';
    assert fixed[..i] == ip;
    Collections.FirstIndexAt(fixed, '.', i);
    assert fixed[..i] == ip && fixed[i + 1..] == fp;
  }

  /** A text whose integer digits ip have no '.', with a non-zero fraction fp: the integer part, "点" and the fraction digits. */
  lemma WrittenFraction(ip: string, fp: string, digits: seq<char>, omitOneTen: bool, whole: string, frac: string)
    requires '.' !in ip && DigitsUpTo(fp, |fp|) && !AllZeros(fp) && |digits| == 10
    requires IntegerText(ParseUintValue(ip), digits, omitOneTen) == whole
    requires FractionText(fp, digits) == frac
    ensures FractionDigits(ip + "." + fp, 2)
    ensures FloatText(false, ip + "." + fp, 2, digits, omitOneTen) == whole + "点" + frac
  {
    PointAt(ip, fp);
  }

  /** The amount of a text with integer digits ip and two fraction digits fp: the integer part in 元, then 角 and 分. */
  lemma AmountOf(ip: string, fp: string, whole: string, cents: string)
    requires '.' !in ip && |fp| == 2 && DigitsUpTo(fp, 2)
    requires IntegerText(ParseUintValue(ip), UpperDigits, false) == whole
    requires CentsText(UpperDigits, DigitValue(fp[0]), DigitValue(fp[1])) == cents
    ensures ValidMoney(FloatAmount(false, ip + "." + fp))
    ensures MoneyText(FloatAmount(false, ip + "." + fp)) == Ok(whole + "元" + cents)
  {
    PointAt(ip, fp);
  }

  /** Two fraction digits through a digit table. */
  lemma TwoFractionDigits(frac: string, digits: seq<char>, text: string)
    requires |frac| == 2 && DigitsUpTo(frac, 2) && |digits| == 10
    requires text == [digits[DigitValue(frac[0])], digits[DigitValue(frac[1])]]
    ensures FractionText(frac, digits) == text
    ensures DigitValue(frac[0]) != 0 || DigitValue(frac[1]) != 0 ==> !AllZeros(frac)
  {
    if DigitValue(frac[0]) != 0 {
      assert frac[0] != '0';
    }
    if DigitValue(frac[1]) != 0 {
      assert frac[1] != '0';
    }
  }

  /** The fraction "25" in lower case. */
  lemma LowerTwentyFiveFraction(frac: string)
    requires |frac| == 2 && frac[0] == '2' && frac[1] == '5'
    ensures DigitsUpTo(frac, 2) && !AllZeros(frac)
    ensures FractionText(frac, LowerDigits) == "二五"
  {
    TwoFractionDigits(frac, LowerDigits, "二五");
  }

  /** The fraction "05" in upper case. */
  lemma UpperZeroFiveFraction(frac: string)
    requires |frac| == 2 && frac[0] == '0' && frac[1] == '5'
    ensures DigitsUpTo(frac, 2) && !AllZeros(frac)
    ensures FractionText(frac, UpperDigits) == "零伍"
  {
    TwoFractionDigits(frac, UpperDigits, "零伍");
  }

  /** The integer part "10" is written "十" in lower case. */
  lemma LowerTenPart(ip: string)
    requires |ip| == 2 && ip[0] == '1' && ip[1] == '0'
    ensures IntegerText(ParseUintValue(ip), LowerDigits, true) == "十"
  {
    LowerDigitTable();
    assert DigitsUpTo(ip, 2);
    DecimalTwo(ip);
    TwoDigitNumber(ParseUintValue(ip), 1, 0, LowerDigits, true);
  }

  /** 10.25 in lower case: "十" for the integer part, then "点" and each fraction digit. */
  lemma LowerTenPointTwentyFive(ip: string, fp: string)
    requires |ip| == 2 && ip[0] == '1' && ip[1] == '0' && |fp| == 2 && fp[0] == '2' && fp[1] == '5'
    ensures FractionDigits(ip + "." + fp, 2)
    ensures FloatText(false, ip + "." + fp, 2, LowerDigits, true) == "十点二五"
  {
    LowerTenPart(ip);
    LowerTwentyFiveFraction(fp);
    WrittenFraction(ip, fp, LowerDigits, true, "十", "二五");
    TenPointTwentyFiveWords();
  }

  /** The integer part "1001" is written "壹千零壹" in upper case. */
  lemma UpperThousandOnePart(ip: string)
    requires |ip| == 4 && ip[0] == '1' && ip[1] == '0' && ip[2] == '0' && ip[3] == '1'
    ensures IntegerText(ParseUintValue(ip), UpperDigits, false) == "壹千零壹"
  {
    UpperDigitTable();
    assert DigitsUpTo(ip, 4);
    DecimalFour(ip);
    var n := ParseUintValue(ip);
    OneGroup(n, UpperDigits, false);
    ThousandsUnitsGroup(n, 1, 1, UpperDigits, false);
    ThousandOneWords();
  }

  /** 1001.05 in upper case: one "零" for the zero hundreds and tens, and the fraction "零伍". */
  lemma UpperThousandOnePointZeroFive(ip: string, fp: string)
    requires |ip| == 4 && ip[0] == '1' && ip[1] == '0' && ip[2] == '0' && ip[3] == '1'
    requires |fp| == 2 && fp[0] == '0' && fp[1] == '5'
    ensures FractionDigits(ip + "." + fp, 2)
    ensures FloatText(false, ip + "." + fp, 2, UpperDigits, false) == "壹千零壹点零伍"
  {
    UpperThousandOnePart(ip);
    UpperZeroFiveFraction(fp);
    WrittenFraction(ip, fp, UpperDigits, false, "壹千零壹", "零伍");
    ThousandOnePointZeroFiveWords();
  }

  /** The two fraction digits "45" as 角 and 分. */
  lemma FortyFiveCents(fp: string)
    requires |fp| == 2 && fp[0] == '4' && fp[1] == '5'
    ensures DigitsUpTo(fp, 2)
    ensures CentsText(UpperDigits, DigitValue(fp[0]), DigitValue(fp[1])) == "肆角伍分"
  {
    assert DigitValue(fp[0]) == 4 && DigitValue(fp[1]) == 5;
  }

  /** An amount without sign: the integer text, "元", and what follows it. */
  lemma UnsignedAmount(ip: nat, jiao: int, fen: int, whole: string, cents: string)
    requires ip < TwoTo64 && 0 <= jiao <= 9 && 0 <= fen <= 9
    requires IntegerText(ip, UpperDigits, false) == whole && CentsText(UpperDigits, jiao, fen) == cents
    ensures AmountText(false, ip, jiao, fen) == whole + "元" + cents
  {
  }

  /** 300 as an amount: "叁百", "元" and "整". */
  lemma AmountThreeHundred(n: int)
    requires n == 100 * 3
    ensures ValidMoney(SignedAmount(n))
    ensures MoneyText(SignedAmount(n)) == Ok("叁百元整")
  {
    UpperDigitTable();
    OneGroup(n, UpperDigits, false);
    HundredsGroup(n, 3, UpperDigits, false);
    assert Abs(n) == n;
    UnsignedAmount(n, 0, 0, "叁百", "整");
    ThreeHundredWords();
  }

  /** The integer part "123" is written "壹百零贰十叁" in upper case. */
  lemma UpperOneTwentyThreePart(ip: string)
    requires |ip| == 3 && ip[0] == '1' && ip[1] == '2' && ip[2] == '3'
    ensures IntegerText(ParseUintValue(ip), UpperDigits, false) == "壹百零贰十叁"
  {
    UpperDigitTable();
    assert DigitsUpTo(ip, 3);
    DecimalThree(ip);
    var n := ParseUintValue(ip);
    OneGroup(n, UpperDigits, false);
    HundredsTensUnitsGroup(n, 1, 2, 3, UpperDigits, false);
    OneTwentyThreeWords();
  }

  /** 123.45 as an amount: "壹百零贰十叁", "元", then "肆角" and "伍分". */
  lemma AmountOneTwentyThreeFortyFive(ip: string, fp: string)
    requires |ip| == 3 && ip[0] == '1' && ip[1] == '2' && ip[2] == '3' && |fp| == 2 && fp[0] == '4' && fp[1] == '5'
    ensures ValidMoney(FloatAmount(false, ip + "." + fp))
    ensures MoneyText(FloatAmount(false, ip + "." + fp)) == Ok("壹百零贰十叁元肆角伍分")
  {
    UpperOneTwentyThreePart(ip);
    FortyFiveCents(fp);
    AmountOf(ip, fp, "壹百零贰十叁", "肆角伍分");
    OneTwentyThreeFortyFiveWords();
  }

  // The sample texts put together from their parts.

  lemma TenPointTwentyFiveWords()
    ensures "十" + "点" + "二五" == "十点二五"
  {
  }

  lemma ThousandOnePointZeroFiveWords()
    ensures "壹千零壹" + "点" + "零伍" == "壹千零壹点零伍"
  {
  }

  lemma ThreeHundredWords()
    ensures "叁百" + "元" + "整" == "叁百元整"
  {
  }

  lemma OneTwentyThreeFortyFiveWords()
    ensures "壹百零贰十叁" + "元" + "肆角伍分" == "壹百零贰十叁元肆角伍分"
  {
  }

  lemma ThousandOneWords()
    ensures [UpperDigits[1]] + "千" + [UpperDigits[0], UpperDigits[1]] == "壹千零壹"
  {
  }

  lemma OneTwentyThreeWords()
    ensures [UpperDigits[1]] + "百" + [UpperDigits[0], UpperDigits[2]] + "十" + [UpperDigits[3]] == "壹百零贰十叁"
  {
  }
}
