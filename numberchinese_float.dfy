// Decimal numbers and the generic entry points of the Chinese numeral
// writers (numberchinese/number_chinese_float.go).
//
// ToChineseLowerFloat and ToChineseUpperFloat take the sign of f, round its
// magnitude (ncRoundTo) and format it with strconv.FormatFloat(f, 'f',
// fracDigits, 64). Rounding and formatting are floating point; the model
// starts from their outcome: `neg` (f < 0) and `fixed`, the text FormatFloat
// produced. Everything the Go code does with that text is modelled.

module NumberChineseFloat {
  import opened GoStd
  import opened Wrappers
  import Collections
  import opened ChineseNumeralReader
  import opened NumberChineseBase
  import opened NumberChineseInt

  // ---------------------------------------------------------------------
  // From the formatted text to integer part and fraction digits

  /**
   * strconv.ParseUint(s, 10, 64) with its error dropped: the value of a
   * string of decimal digits, the largest uint64 when that overflows, and 0
   * for the empty string or any other rune.
   */
  function ParseUintValue(s: string): (n: nat)
    ensures n < TwoTo64
    ensures s != [] && DigitsUpTo(s, |s|) && DecimalValue(s) < TwoTo64 ==> n == DecimalValue(s)
    ensures !(s != [] && DigitsUpTo(s, |s|)) ==> n == 0
  {
    if s != [] && DigitsUpTo(s, |s|) then
      if DecimalValue(s) < TwoTo64 then DecimalValue(s) else TwoTo64 - 1
    else 0
  }

  /** The text is cut at its first '.' only when fraction digits were asked for. */
  predicate HasPoint(fixed: string, fracDigits: int)
  {
    fracDigits > 0 && '.' in fixed
  }

  /** The integer part: everything before the first '.', or the whole text. */
  function IntPart(fixed: string, fracDigits: int): (ip: string)
    ensures HasPoint(fixed, fracDigits) ==> '.' !in ip && ip + ['.'] + FracPart(fixed, fracDigits) == fixed
    ensures !HasPoint(fixed, fracDigits) ==> ip == fixed
  {
    if HasPoint(fixed, fracDigits) then
      var i := Collections.FirstIndex(fixed, '.');
      assert fixed[..i] + ['.'] + fixed[i + 1..] == fixed;
      fixed[..i]
    else fixed
  }

  /** The fraction part: everything after the first '.', or nothing. */
  function FracPart(fixed: string, fracDigits: int): string
  {
    if HasPoint(fixed, fracDigits) then fixed[Collections.FirstIndex(fixed, '.') + 1..] else []
  }

  /** What the fraction loop needs: every byte after the point is a digit. */
  predicate FractionDigits(fixed: string, fracDigits: int)
  {
    DigitsUpTo(FracPart(fixed, fracDigits), |FracPart(fixed, fracDigits)|)
  }

  /** "零" and "点" follow only when some fraction digit is not '0'. */
  predicate AllZeros(s: string)
  {
    forall i :: 0 <= i < |s| ==> s[i] == '0'
  }

  /** The point and fraction digits are written. */
  predicate WritesFraction(fixed: string, fracDigits: int)
  {
    fracDigits > 0 && !AllZeros(FracPart(fixed, fracDigits))
  }

  /** Each fraction digit through the digit table, in order. */
  function FractionText(frac: string, digits: seq<char>): (t: string)
    requires DigitsUpTo(frac, |frac|) && |digits| == 10
    ensures |t| == |frac|
    ensures forall i :: 0 <= i < |frac| ==> t[i] == digits[DigitValue(frac[i])]
  {
    if frac == [] then [] else FractionText(frac[..|frac| - 1], digits) + [digits[DigitValue(frac[|frac| - 1])]]
  }

  /**
   * What ToChineseLowerFloat (LowerDigits, omitOneTen) and
   * ToChineseUpperFloat (UpperDigits, "壹十" kept) write.
   */
  function FloatText(neg: bool, fixed: string, fracDigits: int, digits: seq<char>, omitOneTen: bool): string
    requires FractionDigits(fixed, fracDigits) && |digits| == 10
  {
    var frac := FracPart(fixed, fracDigits);
    var whole := IntegerText(ParseUintValue(IntPart(fixed, fracDigits)), digits, omitOneTen);
    var out := if WritesFraction(fixed, fracDigits) then whole + "点" + FractionText(frac, digits) else whole;
    if neg then "负" + out else out
  }

  // ---------------------------------------------------------------------
  // Reading the text back

  /** "点" moves the integer part read so far to the total and starts the fraction. */
  lemma PointRead(digits: seq<char>, r: Reading)
    requires DigitTable(digits)
    ensures Read(digits, r, "点") == r.(total := Value(r), section := 0, pending := 0, inFraction := true)
  {
    StepMarker(digits, r, '点');
  }

  /** Fraction digits read after "点" make up the fraction, digit by digit. */
  lemma {:induction false} FractionRead(digits: seq<char>, frac: string, r: Reading)
    requires DigitTable(digits) && DigitsUpTo(frac, |frac|) && r.inFraction && r.fraction == 0 && r.places == 0
    ensures Read(digits, r, FractionText(frac, digits)) == r.(fraction := DecimalValue(frac), places := |frac|)
    decreases |frac|
  {
    if frac != [] {
      var init := frac[..|frac| - 1];
      var d := DigitValue(frac[|frac| - 1]);
      assert FractionText(frac, digits) == FractionText(init, digits) + [digits[d]];
      FractionRead(digits, init, r);
      var r1 := r.(fraction := DecimalValue(init), places := |init|);
      ReadThen(digits, r, FractionText(init, digits), [digits[d]], r1);
      StepDigit(digits, r1, d);
    }
  }

  /** The integer part, the point and the fraction, read from a closed state. */
  lemma UnsignedFloatRead(digits: seq<char>, fixed: string, fracDigits: int, omitOneTen: bool, r: Reading)
    requires DigitTable(digits) && FractionDigits(fixed, fracDigits) && Closed(r) && r.fraction == 0 && r.places == 0
    ensures var r2 := Read(digits, r, FloatText(false, fixed, fracDigits, digits, omitOneTen));
            && r2.negative == r.negative
            && Value(r2) == r.total + ParseUintValue(IntPart(fixed, fracDigits))
            && r2.inFraction == WritesFraction(fixed, fracDigits)
            && r2.fraction == (if WritesFraction(fixed, fracDigits) then DecimalValue(FracPart(fixed, fracDigits)) else 0)
            && r2.places == (if WritesFraction(fixed, fracDigits) then |FracPart(fixed, fracDigits)| else 0)
  {
    var u := ParseUintValue(IntPart(fixed, fracDigits));
    var whole := IntegerText(u, digits, omitOneTen);
    IntegerTextReads(digits, u, omitOneTen, r);
    var r1 := Read(digits, r, whole);
    if WritesFraction(fixed, fracDigits) {
      var frac := FracPart(fixed, fracDigits);
      var r2 := r1.(total := Value(r1), section := 0, pending := 0, inFraction := true);
      ReadThen(digits, r, whole, "点", r1);
      PointRead(digits, r1);
      ReadThen(digits, r, whole + "点", FractionText(frac, digits), r2);
      FractionRead(digits, frac, r2);
    }
  }

  /**
   * Reading back what the float writers write gives the sign, the integer
   * part, whether "点" was written, and the fraction digits.
   */
  lemma FloatTextReads(neg: bool, fixed: string, fracDigits: int, digits: seq<char>, omitOneTen: bool)
    requires DigitTable(digits) && FractionDigits(fixed, fracDigits)
    ensures var r := Read(digits, Start, FloatText(neg, fixed, fracDigits, digits, omitOneTen));
            && r.negative == neg
            && Value(r) == ParseUintValue(IntPart(fixed, fracDigits))
            && r.inFraction == WritesFraction(fixed, fracDigits)
            && r.fraction == (if WritesFraction(fixed, fracDigits) then DecimalValue(FracPart(fixed, fracDigits)) else 0)
            && r.places == (if WritesFraction(fixed, fracDigits) then |FracPart(fixed, fracDigits)| else 0)
  {
    var body := FloatText(false, fixed, fracDigits, digits, omitOneTen);
    if neg {
      var r1 := Start.(negative := true);
      StepMarker(digits, Start, '负');
      ReadThen(digits, Start, "负", body, r1);
      UnsignedFloatRead(digits, fixed, fracDigits, omitOneTen, r1);
    } else {
      UnsignedFloatRead(digits, fixed, fracDigits, omitOneTen, Start);
    }
  }

  // ---------------------------------------------------------------------
  // The writers

  /** The first step of both writers: cut the text at its first '.' when fraction digits were asked for. */
  method SplitFixed(fixed: string, fracDigits: int) returns (intPart: string, fracPart: string)
    ensures intPart == IntPart(fixed, fracDigits) && fracPart == FracPart(fixed, fracDigits)
  {
    intPart, fracPart := fixed, "";
    if fracDigits > 0 {
      var idx := IndexByte(fixed, '.');
      if idx >= 0 {
        assert idx == Collections.FirstIndex(fixed, '.');
        intPart := fixed[..idx];
        fracPart := fixed[idx + 1..];
      }
    }
  }

  /** The fraction loop of both writers: each digit of fracPart, through the table, goes on the end of out. */
  method AppendFraction(out: string, fracPart: string, digits: seq<char>) returns (out': string)
    requires DigitsUpTo(fracPart, |fracPart|) && |digits| == 10
    ensures out' == out + FractionText(fracPart, digits)
  {
    out' := out;
    var i := 0;
    while i < |fracPart|
      invariant 0 <= i <= |fracPart|
      invariant out' == out + FractionText(fracPart[..i], digits)
    {
      var d := fracPart[i] as int - '0' as int;
      assert fracPart[..i + 1][..i] == fracPart[..i];
      out' := out' + [digits[d]];
      i := i + 1;
    }
    assert fracPart[..i] == fracPart;
  }

  /** The body ToChineseLowerFloat and ToChineseUpperFloat share, from the formatted text on. */
  method FloatToChinese(neg: bool, fixed: string, fracDigits: int, digits: seq<char>, omitOneTen: bool)
    returns (s: string)
    requires FractionDigits(fixed, fracDigits) && |digits| == 10
    ensures s == FloatText(neg, fixed, fracDigits, digits, omitOneTen)
  {
    var intPart, fracPart := SplitFixed(fixed, fracDigits);
    var ip := ParseUintValue(intPart);
    var out := IntegerToChinese(ip, digits, omitOneTen);
    var allZero := AllZero(fracPart);
    if fracDigits > 0 && !allZero {
      out := AppendFraction(out + "点", fracPart, digits);
    }
    if neg {
      return "负" + out;
    }
    return out;
  }

  /** ToChineseLowerFloat: lower-case digits, "一" left out before "十". */
  method ToChineseLowerFloat(neg: bool, fixed: string, fracDigits: int) returns (s: string)
    requires FractionDigits(fixed, fracDigits)
    ensures s == FloatText(neg, fixed, fracDigits, LowerDigits, true)
  {
    s := FloatToChinese(neg, fixed, fracDigits, LowerDigits, true);
  }

  /** ToChineseUpperFloat: financial upper-case digits, "壹十" written out. */
  method ToChineseUpperFloat(neg: bool, fixed: string, fracDigits: int) returns (s: string)
    requires FractionDigits(fixed, fracDigits)
    ensures s == FloatText(neg, fixed, fracDigits, UpperDigits, false)
  {
    s := FloatToChinese(neg, fixed, fracDigits, UpperDigits, false);
  }

  // ---------------------------------------------------------------------
  // The generic entry points

  /**
   * The dynamic value handed to the generic entry points: a signed integer
   * of any width (widened to int64), an unsigned one (widened to uint64), a
   * float given by its sign and formatted text, or a value of any other type.
   */
  datatype Number = Signed(n: int) | Unsigned(u: nat) | Float(negative: bool, fixed: string) | Other

  /** What the type switch needs of each case to stay in range. */
  predicate ValidNumber(v: Number, fracDigits: int)
  {
    match v
    case Signed(n) => IsInt64(n)
    case Unsigned(u) => u < TwoTo64
    case Float(_, fixed) => FractionDigits(fixed, fracDigits)
    case Other => true
  }

  /** What the generic entry point writes for v with the given table. */
  function NumberText(v: Number, fracDigits: int, digits: seq<char>, omitOneTen: bool): (r: Result<string, NumberError>)
    requires ValidNumber(v, fracDigits) && |digits| == 10
    ensures r.Err? <==> v.Other?
  {
    match v
    case Signed(n) => Ok(SignedText(n, digits, omitOneTen))
    case Unsigned(u) => Ok(IntegerText(u, digits, omitOneTen))
    case Float(neg, fixed) => Ok(FloatText(neg, fixed, fracDigits, digits, omitOneTen))
    case Other => Err(UnsupportedNumberType)
  }

  /** ToChineseLowerNumber: the int cases through ToChineseLowerInt, uint through integerToChinese. */
  method ToChineseLowerNumber(v: Number, fracDigits: int) returns (r: Result<string, NumberError>)
    requires ValidNumber(v, fracDigits)
    ensures r == NumberText(v, fracDigits, LowerDigits, true)
  {
    match v {
      case Signed(n) =>
        var s := ToChineseLowerInt(n);
        return Ok(s);
      case Unsigned(u) =>
        var s := IntegerToChinese(u, LowerDigits, true);
        return Ok(s);
      case Float(neg, fixed) =>
        var s := ToChineseLowerFloat(neg, fixed, fracDigits);
        return Ok(s);
      case Other =>
        return Err(UnsupportedNumberType);
    }
  }

  /** ToChineseUpperNumber: as ToChineseLowerNumber with the upper-case writers. */
  method ToChineseUpperNumber(v: Number, fracDigits: int) returns (r: Result<string, NumberError>)
    requires ValidNumber(v, fracDigits)
    ensures r == NumberText(v, fracDigits, UpperDigits, false)
  {
    match v {
      case Signed(n) =>
        var s := ToChineseUpperInt(n);
        return Ok(s);
      case Unsigned(u) =>
        var s := IntegerToChinese(u, UpperDigits, false);
        return Ok(s);
      case Float(neg, fixed) =>
        var s := ToChineseUpperFloat(neg, fixed, fracDigits);
        return Ok(s);
      case Other =>
        return Err(UnsupportedNumberType);
    }
  }

  /**
   * Whatever the generic entry points write reads back as the number: the
   * signed value for ints, the value for uints, and sign, integer part and
   * fraction digits for floats.
   */
  lemma NumberTextReads(v: Number, fracDigits: int, digits: seq<char>, omitOneTen: bool)
    requires ValidNumber(v, fracDigits) && DigitTable(digits) && !v.Other?
    ensures var r := Read(digits, Start, NumberText(v, fracDigits, digits, omitOneTen).value);
            match v
            case Signed(n) => SignedValue(r) == n
            case Unsigned(u) => !r.negative && Value(r) == u
            case Float(neg, fixed) =>
              && r.negative == neg
              && Value(r) == ParseUintValue(IntPart(fixed, fracDigits))
              && r.fraction == (if WritesFraction(fixed, fracDigits) then DecimalValue(FracPart(fixed, fracDigits)) else 0)
            && r.places == (if WritesFraction(fixed, fracDigits) then |FracPart(fixed, fracDigits)| else 0)
            case Other => false
  {
    match v
    case Signed(n) => SignedTextReads(n, digits, omitOneTen);
    case Unsigned(u) => IntegerTextReads(digits, u, omitOneTen, Start);
    case Float(neg, fixed) => FloatTextReads(neg, fixed, fracDigits, digits, omitOneTen);
  }
}
