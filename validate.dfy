// Check-character validators (validate/validate_util.go): the 18-character
// resident identity number of GB 11643-1999, whose last character is an
// ISO 7064:1983 MOD 11-2 check character, and the 18-character unified
// social credit code of GB 32100-2015, whose last character is a MOD 31
// check character over a 31-symbol alphabet.

module Validate {
  import opened GoStd
  import Civil
  import Collections

  /** The inputs are upper-cased and then trimmed before they are checked. */
  function Normalize(s: string): string
  {
    TrimSpace(ToUpperAscii(s))
  }

  /** A string without lower-case letters or surrounding white space is already normalised. */
  lemma NormalizeFixed(t: string)
    requires forall i :: 0 <= i < |t| ==> !('a' <= t[i] <= 'z')
    requires t == [] || (!IsSpace(t[0]) && !IsSpace(t[|t| - 1]))
    ensures Normalize(t) == t
  {
    assert ToUpperAscii(t) == t;
    TrimSpaceOfTrimmed(t);
  }

  // ---------------------------------------------------------------------
  // Resident identity number

  const IdWeights: seq<int> := [7, 9, 10, 5, 8, 4, 2, 1, 6, 3, 7, 9, 10, 5, 8, 4, 2]
  const IdCodes: string := "10X98765432"

  /** The sum of the first n digits of s, each times its weight in w. */
  function WeightedDigitSum(s: string, w: seq<int>, n: int): int
    requires DigitsUpTo(s, n) && n <= |w|
  {
    if n == 0 then 0 else WeightedDigitSum(s, w, n - 1) + DigitValue(s[n - 1]) * w[n - 1]
  }

  /** Characters 6..13 spell YYYYMMDD of a real day (time.Parse with layout "20060102"). */
  predicate ValidBirthDate(ymd: string)
    requires |ymd| == 8 && DigitsUpTo(ymd, 8)
  {
    Civil.ValidDate(Civil.Date(DecimalValue(ymd[..4]), DecimalValue(ymd[4..6]), DecimalValue(ymd[6..])))
  }

  /** A normalised string that passes every test of IsChineseIDCard. */
  predicate IsIdNumber(t: string)
  {
    && |t| == 18
    && DigitsUpTo(t, 17)
    && (IsDigit(t[17]) || t[17] == 'X')
    && ValidBirthDate(t[6..14])
    && IdCodes[WeightedDigitSum(t, IdWeights, 17) % 11] == t[17]
  }

  /**
   * IsChineseIDCard: upper-case and trim, require 18 characters, 17 digits
   * and a digit or 'X', a real birth date, and the check character the
   * weighted digit sum selects.
   */
  method IsChineseIDCard(s: string) returns (ok: bool)
    ensures ok <==> IsIdNumber(Normalize(s))
  {
    var t := Normalize(s);
    if |t| != 18 {
      return false;
    }
    var digits := LeadingDigits(t, 17);
    if !digits {
      return false;
    }
    var last := t[17];
    if !((last >= '0' && last <= '9') || last == 'X') {
      return false;
    }
    if !ValidBirthDate(t[6..14]) {
      return false;
    }
    var sum := IdDigitSum(t);
    var mod := sum % 11;
    ok := IdCodes[mod] == last;
  }

  /** The digit loop of IsChineseIDCard: are the first n characters digits? */
  method LeadingDigits(t: string, n: int) returns (ok: bool)
    requires 0 <= n <= |t|
    ensures ok <==> DigitsUpTo(t, n)
  {
    var i := 0;
    while i < n
      invariant 0 <= i <= n && DigitsUpTo(t, i)
    {
      if t[i] < '0' || t[i] > '9' {
        return false;
      }
      i := i + 1;
    }
    return true;
  }

  /** The summing loop of IsChineseIDCard: the first 17 digits times their weights. */
  method IdDigitSum(t: string) returns (sum: int)
    requires DigitsUpTo(t, 17)
    ensures sum == WeightedDigitSum(t, IdWeights, 17)
  {
    sum := 0;
    var i := 0;
    while i < 17
      invariant 0 <= i <= 17
      invariant sum == WeightedDigitSum(t, IdWeights, i)
    {
      assert DigitsUpTo(t, i + 1);
      sum := sum + DigitValue(t[i]) * IdWeights[i];
      i := i + 1;
    }
  }

  /** The GB 11643-1999 weights are the powers 2^17 .. 2^1 reduced mod 11. */
  lemma IdWeightsArePowersOfTwo()
    ensures forall i :: 0 <= i < 17 ==> IdWeights[i] == Pow(2, 17 - i) % 11
  {
    assert Pow(2, 10) == 1024;
    assert Pow(2, 17) == 131072;
  }

  /** The weighted digit sum of the seventeen digits 11010519491231002. */
  lemma IdSampleSum(t: string)
    requires |t| == 18 && DigitsUpTo(t, 17)
    requires t[0] == '1' && t[1] == '1' && t[2] == '0' && t[3] == '1' && t[4] == '0' && t[5] == '5'
    requires t[6] == '1' && t[7] == '9' && t[8] == '4' && t[9] == '9' && t[10] == '1' && t[11] == '2'
    requires t[12] == '3' && t[13] == '1' && t[14] == '0' && t[15] == '0' && t[16] == '2'
    ensures WeightedDigitSum(t, IdWeights, 17) == 167
  {
    assert WeightedDigitSum(t, IdWeights, 1) == 7;
    assert WeightedDigitSum(t, IdWeights, 2) == 16;
    assert WeightedDigitSum(t, IdWeights, 3) == 16;
    assert WeightedDigitSum(t, IdWeights, 4) == 21;
    assert WeightedDigitSum(t, IdWeights, 5) == 21;
    assert WeightedDigitSum(t, IdWeights, 6) == 41;
    assert WeightedDigitSum(t, IdWeights, 7) == 43;
    assert WeightedDigitSum(t, IdWeights, 8) == 52;
    assert WeightedDigitSum(t, IdWeights, 9) == 76;
    assert WeightedDigitSum(t, IdWeights, 10) == 103;
    assert WeightedDigitSum(t, IdWeights, 11) == 110;
    assert WeightedDigitSum(t, IdWeights, 12) == 128;
    assert WeightedDigitSum(t, IdWeights, 13) == 158;
    assert WeightedDigitSum(t, IdWeights, 14) == 163;
    assert WeightedDigitSum(t, IdWeights, 15) == 163;
    assert WeightedDigitSum(t, IdWeights, 16) == 163;
  }

  /** The birth date 1949-12-31 is a real day. */
  lemma Sample1949Valid(ymd: string)
    requires ymd == "19491231"
    ensures DigitsUpTo(ymd, 8) && ValidBirthDate(ymd)
  {
    DecimalFour(ymd[..4]);
    DecimalTwo(ymd[4..6]);
    DecimalTwo(ymd[6..]);
  }

  /** 1999-02-30 is not a day: February 1999 has 28. */
  lemma Sample1999Invalid(ymd: string)
    requires ymd == "19990230"
    ensures DigitsUpTo(ymd, 8) && !ValidBirthDate(ymd)
  {
    DecimalFour(ymd[..4]);
    DecimalTwo(ymd[4..6]);
    DecimalTwo(ymd[6..]);
  }

  /**
   * The identity number 11010519491231002X is accepted: its weighted sum
   * 167 leaves 2 mod 11, which selects 'X'.
   */
  lemma IdAccepted()
    ensures IsIdNumber("11010519491231002X")
  {
    var t := "11010519491231002X";
    assert DigitsUpTo(t, 17);
    IdSampleSum(t);
    Sample1949Valid(t[6..14]);
    assert IdCodes[167 % 11] == 'X';
  }

  /** The same number with the check character '1' is rejected. */
  lemma IdWrongCheckRejected()
    ensures !IsIdNumber("110105194912310021")
  {
    var t := "110105194912310021";
    assert DigitsUpTo(t, 17);
    IdSampleSum(t);
    assert IdCodes[167 % 11] != t[17];
  }

  /** A number born on 30 February 1999 is rejected. */
  lemma IdImpossibleDateRejected()
    ensures !IsIdNumber("11010519990230002X")
  {
    var t := "11010519990230002X";
    assert DigitsUpTo(t, 17);
    Sample1999Invalid(t[6..14]);
  }

  /** The value of a check character: its digit, or 10 for 'X'. */
  function CheckValue(c: char): (v: int)
    requires IsDigit(c) || c == 'X'
    ensures 0 <= v <= 10
  {
    if c == 'X' then 10 else DigitValue(c)
  }

  /**
   * The code table inverts ISO 7064 MOD 11-2: the character it selects is
   * the one that brings the weighted sum plus its value to 1 mod 11.
   */
  lemma IdCodeCompletesMod11(sum: int, c: char)
    requires IsDigit(c) || c == 'X'
    ensures IdCodes[sum % 11] == c <==> (sum + CheckValue(c)) % 11 == 1
  {
    var m := sum % 11;
    assert (sum + CheckValue(c)) % 11 == (m + CheckValue(c)) % 11;
    if m == 0 { assert IdCodes[0] == '1'; }
    else if m == 1 { assert IdCodes[1] == '0'; }
    else if m == 2 { assert IdCodes[2] == 'X'; }
    else if m == 3 { assert IdCodes[3] == '9'; }
    else if m == 4 { assert IdCodes[4] == '8'; }
    else if m == 5 { assert IdCodes[5] == '7'; }
    else if m == 6 { assert IdCodes[6] == '6'; }
    else if m == 7 { assert IdCodes[7] == '5'; }
    else if m == 8 { assert IdCodes[8] == '4'; }
    else if m == 9 { assert IdCodes[9] == '3'; }
    else { assert IdCodes[10] == '2'; }
  }

  // ---------------------------------------------------------------------
  // Unified social credit code

  const CreditCharset: string := "0123456789ABCDEFGHJKLMNPQRTUWXY"
  const CreditWeights: seq<int> := [1, 3, 9, 27, 19, 26, 16, 17, 20, 29, 25, 13, 8, 24, 10, 30, 28]

  /** The symbols of the alphabet: digits and the capitals other than I, O, S, V and Z. */
  predicate IsCodeSymbol(c: char)
  {
    || ('0' <= c <= '9') || ('A' <= c <= 'H') || ('J' <= c <= 'N')
    || c == 'P' || c == 'Q' || c == 'R' || c == 'T' || c == 'U' || ('W' <= c <= 'Y')
  }

  /** The value of a code symbol: its position in the alphabet. */
  function CodeValue(c: char): (v: int)
    requires IsCodeSymbol(c)
    ensures 0 <= v < 31
  {
    if c <= '9' then c as int - '0' as int
    else if c <= 'H' then 10 + (c as int - 'A' as int)
    else if c <= 'N' then 18 + (c as int - 'J' as int)
    else if c == 'P' then 23
    else if c == 'Q' then 24
    else if c == 'R' then 25
    else if c == 'T' then 26
    else if c == 'U' then 27
    else 28 + (c as int - 'W' as int)
  }

  /** The alphabet lists exactly the code symbols, each at the position that is its value. */
  lemma CharsetPositions()
    ensures forall i :: 0 <= i < |CreditCharset| ==> IsCodeSymbol(CreditCharset[i]) && CodeValue(CreditCharset[i]) == i
    ensures forall c :: IsCodeSymbol(c) ==> CreditCharset[CodeValue(c)] == c
  {
    CharsetSymbols();
    forall c | IsCodeSymbol(c)
      ensures CreditCharset[CodeValue(c)] == c
    {
      CharsetSymbol(c);
    }
  }

  /** Each position of the alphabet holds a code symbol of that value. */
  lemma CharsetSymbols()
    ensures forall i :: 0 <= i < |CreditCharset| ==> IsCodeSymbol(CreditCharset[i]) && CodeValue(CreditCharset[i]) == i
  {
  }

  /** Each code symbol sits at the position of its value. */
  lemma CharsetSymbol(c: char)
    requires IsCodeSymbol(c)
    ensures CreditCharset[CodeValue(c)] == c
  {
  }

  /** The sum of the values of the first n symbols, each times its weight. */
  function WeightedCodeSum(t: string, n: int): int
    requires 0 <= n <= |t| && n <= 17
    requires forall i :: 0 <= i < n ==> IsCodeSymbol(t[i])
  {
    if n == 0 then 0 else WeightedCodeSum(t, n - 1) + CodeValue(t[n - 1]) * CreditWeights[n - 1]
  }

  /** A normalised string that passes every test of IsUnifiedSocialCreditCode. */
  predicate IsCreditCode(t: string)
  {
    && |t| == 18
    && (forall i :: 0 <= i < 17 ==> IsCodeSymbol(t[i]))
    && t[17] == CheckSymbol(WeightedCodeSum(t, 17))
  }

  /** The check symbol for a weighted sum: the alphabet's symbol at (31 - sum mod 31) mod 31. */
  function CheckSymbol(sum: int): (c: char)
    ensures IsCodeSymbol(c) && CodeValue(c) == (31 - sum % 31) % 31
  {
    CharsetPositions();
    CreditCharset[(31 - sum % 31) % 31]
  }

  /**
   * IsUnifiedSocialCreditCode: upper-case and trim, require 18 characters,
   * look the first 17 up in a symbol-to-value table, and compare the last
   * with the symbol that makes the weighted sum a multiple of 31.
   */
  method IsUnifiedSocialCreditCode(s: string) returns (ok: bool)
    ensures ok <==> IsCreditCode(Normalize(s))
  {
    var t := Normalize(s);
    if |t| != 18 {
      return false;
    }
    var inAlphabet, sum := CodeSum(t);
    if !inAlphabet {
      return false;
    }
    ok := t[17] == CheckSymbol(sum);
  }

  /** The symbol-to-value table IsUnifiedSocialCreditCode builds from the alphabet. */
  method CodeTable() returns (dict: map<char, int>)
    ensures forall c :: c in dict <==> IsCodeSymbol(c)
    ensures forall c :: c in dict ==> dict[c] == CodeValue(c)
  {
    dict := map[];
    var i := 0;
    CharsetPositions();
    while i < |CreditCharset|
      invariant 0 <= i <= |CreditCharset|
      invariant forall c :: c in dict <==> IsCodeSymbol(c) && CodeValue(c) < i
      invariant forall c :: c in dict ==> dict[c] == CodeValue(c)
    {
      dict := dict[CreditCharset[i] := i];
      i := i + 1;
    }
  }

  /**
   * The table and lookup loop of IsUnifiedSocialCreditCode: stop at the
   * first symbol outside the alphabet, else sum the values times their weights.
   */
  method CodeSum(t: string) returns (inAlphabet: bool, sum: int)
    requires |t| >= 17
    ensures inAlphabet <==> forall i :: 0 <= i < 17 ==> IsCodeSymbol(t[i])
    ensures inAlphabet ==> sum == WeightedCodeSum(t, 17)
  {
    var dict := CodeTable();
    sum := 0;
    var i := 0;
    while i < 17
      invariant 0 <= i <= 17
      invariant forall j :: 0 <= j < i ==> IsCodeSymbol(t[j])
      invariant sum == WeightedCodeSum(t, i)
    {
      if t[i] !in dict {
        return false, sum;
      }
      sum := sum + dict[t[i]] * CreditWeights[i];
      i := i + 1;
    }
    inAlphabet := true;
  }

  /** The weighted sum of the seventeen symbols 12345678901234567. */
  lemma CreditSampleSum(t: string)
    requires |t| == 18 && forall i :: 0 <= i < 17 ==> IsCodeSymbol(t[i])
    requires t[0] == '1' && t[1] == '2' && t[2] == '3' && t[3] == '4' && t[4] == '5' && t[5] == '6'
    requires t[6] == '7' && t[7] == '8' && t[8] == '9' && t[9] == '0' && t[10] == '1' && t[11] == '2'
    requires t[12] == '3' && t[13] == '4' && t[14] == '5' && t[15] == '6' && t[16] == '7'
    ensures WeightedCodeSum(t, 17) == 1418
  {
    assert WeightedCodeSum(t, 1) == 1;
    assert WeightedCodeSum(t, 2) == 7;
    assert WeightedCodeSum(t, 3) == 34;
    assert WeightedCodeSum(t, 4) == 142;
    assert WeightedCodeSum(t, 5) == 237;
    assert WeightedCodeSum(t, 6) == 393;
    assert WeightedCodeSum(t, 7) == 505;
    assert WeightedCodeSum(t, 8) == 641;
    assert WeightedCodeSum(t, 9) == 821;
    assert WeightedCodeSum(t, 10) == 821;
    assert WeightedCodeSum(t, 11) == 846;
    assert WeightedCodeSum(t, 12) == 872;
    assert WeightedCodeSum(t, 13) == 896;
    assert WeightedCodeSum(t, 14) == 992;
    assert WeightedCodeSum(t, 15) == 1042;
    assert WeightedCodeSum(t, 16) == 1222;
  }

  /** The check symbol of the sample's weighted sum 1418 is '8'. */
  lemma CheckOfSampleSum()
    ensures CheckSymbol(1418) == '8'
  {
    assert (31 - 1418 % 31) % 31 == 8;
    assert CreditCharset[8] == '8';
  }

  /**
   * A code whose first 17 symbols are 1234567890 1234567: the weighted sum is
   * 1418, which is 23 mod 31, so the code is valid exactly when its check
   * symbol is '8', the symbol of value 8.
   */
  lemma CreditSample(t: string)
    requires |t| == 18
    requires t[0] == '1' && t[1] == '2' && t[2] == '3' && t[3] == '4' && t[4] == '5' && t[5] == '6'
    requires t[6] == '7' && t[7] == '8' && t[8] == '9' && t[9] == '0' && t[10] == '1' && t[11] == '2'
    requires t[12] == '3' && t[13] == '4' && t[14] == '5' && t[15] == '6' && t[16] == '7'
    ensures IsCreditCode(t) <==> t[17] == '8'
  {
    assert forall i :: 0 <= i < 17 ==> IsCodeSymbol(t[i]);
    CreditSampleSum(t);
    CheckOfSampleSum();
  }

  /** The sample code 123456789012345678 is valid. */
  lemma CreditAccepted()
    ensures IsCreditCode("123456789012345678")
  {
    CreditSample("123456789012345678");
  }

  /** The same code with the check symbol '9' is invalid. */
  lemma CreditWrongCheckRejected()
    ensures !IsCreditCode("123456789012345679")
  {
    CreditSample("123456789012345679");
  }

  /** A code starting with 'I', a letter outside the alphabet, is invalid. */
  lemma CreditLetterIRejected()
    ensures !IsCreditCode("I23456789012345678")
  {
    assert !IsCodeSymbol("I23456789012345678"[0]);
  }

  /** The GB 32100-2015 weights are the powers 3^0 .. 3^16 reduced mod 31. */
  lemma CreditWeightsArePowersOfThree()
    ensures forall i :: 0 <= i < 17 ==> CreditWeights[i] == Pow(3, i) % 31
  {
    assert Pow(3, 5) == 243;
    assert Pow(3, 10) == 59049;
    assert Pow(3, 16) == 43046721;
  }

  /** The check value (31 - sum mod 31) mod 31 is the one value below 31 that completes sum to a multiple of 31. */
  lemma CheckValueMod31(sum: int, v: int)
    requires 0 <= v < 31
    ensures (31 - sum % 31) % 31 == v <==> (sum + v) % 31 == 0
  {
    var m := sum % 31;
    assert (sum + v) % 31 == (m + v) % 31;
    if m == 0 {
      assert (31 - m) % 31 == 0;
    } else {
      assert (31 - m) % 31 == 31 - m;
      assert (m + v) % 31 == 0 <==> m + v == 31;
    }
  }

  /** The check symbol is the one whose value brings the weighted sum to a multiple of 31. */
  lemma CreditCheckCompletesMod31(t: string)
    requires |t| == 18 && forall i :: 0 <= i < 17 ==> IsCodeSymbol(t[i])
    ensures IsCreditCode(t) <==> IsCodeSymbol(t[17]) && (WeightedCodeSum(t, 17) + CodeValue(t[17])) % 31 == 0
  {
    var sum := WeightedCodeSum(t, 17);
    var c := CheckSymbol(sum);
    if IsCodeSymbol(t[17]) {
      var v := CodeValue(t[17]);
      CheckValueMod31(sum, v);
      CharsetPositions();
      assert c == t[17] <==> CodeValue(c) == v;
    }
  }
}
