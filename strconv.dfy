// Go's strconv integer formatting and parsing in any base from 2 to 36,
// which the convert package's base conversions are built on.

module Strconv {

  import opened Wrappers
  import opened GoStd

  /** The largest uint64. */
  const MaxUint64: int := TwoTo64 - 1

  /** The bases strconv formats and parses explicitly. */
  predicate ValidBase(base: int)
  {
    2 <= base <= 36
  }

  /** The rune strconv writes for digit d: '0'..'9', then 'a'..'z'. */
  function DigitChar(d: nat): (c: char)
    requires d < 36
    ensures '0' <= c <= '9' || 'a' <= c <= 'z'
  {
    if d < 10 then ('0' as int + d) as char else ('a' as int + d - 10) as char
  }

  /**
   * The digit value strconv reads from c: letters count in either case;
   * 36 for a rune that is no digit in any base.
   */
  function DigitOf(c: char): (d: nat)
    ensures d <= 36
  {
    if '0' <= c <= '9' then c as int - '0' as int
    else if 'a' <= c <= 'z' then c as int - 'a' as int + 10
    else if 'A' <= c <= 'Z' then c as int - 'A' as int + 10
    else 36
  }

  /** Every rune of s is a digit of the base. */
  predicate DigitsIn(s: string, base: nat)
  {
    forall i :: 0 <= i < |s| ==> DigitOf(s[i]) < base
  }

  /** The number the digits of s spell in the base, most significant first. */
  function ValueIn(s: string, base: nat): nat
    requires DigitsIn(s, base)
  {
    if s == [] then 0 else ValueIn(s[..|s| - 1], base) * base + DigitOf(s[|s| - 1])
  }

  /**
   * strconv.FormatUint: the digits of n in the base, lower-case, without
   * leading zeros; they spell n back.
   */
  function FormatUint(n: nat, base: nat): (s: string)
    requires ValidBase(base)
    ensures s != [] && DigitsIn(s, base) && ValueIn(s, base) == n
    ensures s[0] == '0' ==> n == 0
    ensures forall i :: 0 <= i < |s| ==> '0' <= s[i] <= '9' || 'a' <= s[i] <= 'z'
  {
    if n < base then
      ValueSnoc([], n, base);
      [DigitChar(n)]
    else
      var q, r := n / base, n % base;
      DivMod(n, base);
      var h := FormatUint(q, base);
      ValueSnoc(h, r, base);
      h + [DigitChar(r)]
  }

  /** Appending the rune of digit d to the digits h multiplies their value by the base and adds d. */
  lemma ValueSnoc(h: string, d: nat, base: nat)
    requires ValidBase(base) && d < base && DigitsIn(h, base)
    ensures DigitsIn(h + [DigitChar(d)], base)
    ensures ValueIn(h + [DigitChar(d)], base) == ValueIn(h, base) * base + d
  {
    var s := h + [DigitChar(d)];
    assert s[..|s| - 1] == h;
  }

  /** Euclid's division of n by the base: quotient, remainder, and a smaller quotient. */
  lemma DivMod(n: nat, base: nat)
    requires base >= 2
    ensures n == (n / base) * base + n % base && 0 <= n % base < base
    ensures n >= base ==> 1 <= n / base < n
  {
  }

  /** strconv.FormatInt: FormatUint of the magnitude, after a '-' for a negative v. */
  function FormatInt(v: int, base: nat): (s: string)
    requires ValidBase(base)
    ensures s != []
    ensures s[0] == '-' <==> v < 0
  {
    if v < 0 then "-" + FormatUint(-v, base) else FormatUint(v, base)
  }

  /**
   * The base strconv infers when it is given base 0, and the text after the
   * prefix: "0b", "0o" or "0x" (either case) followed by at least one more
   * rune, otherwise a leading '0' for octal, otherwise decimal.
   */
  function InferBase(s: string): (r: (nat, string))
    requires s != []
    ensures r.0 in {2, 8, 10, 16}
    ensures r.0 == 10 <==> s[0] != '0'
    ensures |r.1| <= |s| && r.1 == s[|s| - |r.1|..]
  {
    if s[0] != '0' then (10, s)
    else if |s| >= 3 && s[1] in "bB" then (2, s[2..])
    else if |s| >= 3 && s[1] in "oO" then (8, s[2..])
    else if |s| >= 3 && s[1] in "xX" then (16, s[2..])
    else (8, s[1..])
  }

  /** The digits of s read in the base, when they all are digits and the value fits in a uint64. */
  function ParseDigits(s: string, base: nat): Option<nat>
  {
    if DigitsIn(s, base) && ValueIn(s, base) <= MaxUint64 then Some(ValueIn(s, base)) else None
  }

  /**
   * strconv.ParseUint(s, base, 64): the empty string, a base other than 0
   * and 2..36, a rune that is no digit of the base (a sign included) and a
   * value beyond the uint64 range are errors. Base 0 infers the base from
   * the prefix and skips '_' digit separators, which underscoreOK must
   * then accept.
   */
  function ParseUint(s: string, base: int): (r: Option<nat>)
    ensures r.Some? ==> r.value <= MaxUint64
    ensures r.Some? ==> s != [] && (base == 0 || ValidBase(base))
    ensures ValidBase(base) ==> r == (if s == [] then None else ParseDigits(s, base))
    ensures base == 0 && s != [] && '_' !in s ==> r == ParseDigits(InferBase(s).1, InferBase(s).0)
  {
    if s == [] then None
    else if base == 0 then
      var (b, body) := InferBase(s);
      if '_' in body && !UnderscoreOK(s) then None else ParseDigits(WithoutUnderscores(body), b)
    else if ValidBase(base) then ParseDigits(s, base)
    else None
  }

  /** s with every '_' removed, as the digit loop of base 0 skips them. */
  function WithoutUnderscores(s: string): (r: string)
    ensures '_' !in r && |r| <= |s|
    ensures '_' !in s ==> r == s
  {
    if s == [] then []
    else if s[0] == '_' then WithoutUnderscores(s[1..])
    else [s[0]] + WithoutUnderscores(s[1..])
  }

  /** The classes of the last rune underscoreOK has seen: none yet, a digit or the base prefix, '_', anything else. */
  datatype Saw = SawStart | SawDigit | SawUnderscore | SawOther

  /**
   * underscoreOK: after an optional sign and an optional 0b, 0o or 0x
   * prefix (which counts as a digit), every '_' follows a digit and is
   * followed by one; digits are '0'..'9', and after 0x also 'a'..'f' in
   * either case.
   */
  function UnderscoreOK(s: string): bool
  {
    var u := if |s| >= 1 && (s[0] == '-' || s[0] == '+') then s[1..] else s;
    if |u| >= 2 && u[0] == '0' && u[1] in "bBoOxX" then UnderscoresFrom(u[2..], SawDigit, u[1] in "xX")
    else UnderscoresFrom(u, SawStart, false)
  }

  /** The scan of underscoreOK over the rest of the text, having last seen saw. */
  function UnderscoresFrom(s: string, saw: Saw, hex: bool): bool
  {
    if s == [] then saw != SawUnderscore
    else if '0' <= s[0] <= '9' || (hex && ('a' <= s[0] <= 'f' || 'A' <= s[0] <= 'F')) then UnderscoresFrom(s[1..], SawDigit, hex)
    else if s[0] == '_' then saw == SawDigit && UnderscoresFrom(s[1..], SawUnderscore, hex)
    else saw != SawUnderscore && UnderscoresFrom(s[1..], SawOther, hex)
  }

  /**
   * strconv.ParseInt(s, base, 64): an optional '+' or '-', then what
   * ParseUint accepts, with the signed value inside the int64 range.
   */
  function ParseInt(s: string, base: int): (r: Option<int>)
    ensures r.Some? ==> MinInt64 <= r.value <= MaxInt64
    ensures r.Some? ==> s != [] && (r.value < 0 ==> s[0] == '-')
  {
    if s == [] then None else WithSign(s[0] == '-', ParseUint(Unsigned(s), base))
  }

  /** A parsed magnitude, negated when neg holds, kept only inside the int64 range. */
  function WithSign(neg: bool, u: Option<nat>): (r: Option<int>)
    ensures r.Some? ==> MinInt64 <= r.value <= MaxInt64 && (r.value < 0 ==> neg)
  {
    match u
    case None => None
    case Some(m) =>
      var n := if neg then -(m as int) else m;
      if MinInt64 <= n <= MaxInt64 then Some(n) else None
  }

  // ---------------------------------------------------------------------
  // Round trips

  /** ParseUint reads back, in the same base, every uint64 FormatUint writes. */
  lemma ParseFormatUint(n: nat, base: nat)
    requires ValidBase(base) && n <= MaxUint64
    ensures ParseUint(FormatUint(n, base), base) == Some(n)
  {
  }

  /** ParseInt reads back, in the same base, every int64 FormatInt writes. */
  lemma ParseFormatInt(v: int, base: nat)
    requires ValidBase(base) && MinInt64 <= v <= MaxInt64
    ensures ParseInt(FormatInt(v, base), base) == Some(v)
  {
    var s := FormatInt(v, base);
    if v < 0 {
      assert Unsigned(s) == FormatUint(-v, base);
    } else {
      assert Unsigned(s) == FormatUint(v, base);
    }
  }

  /** Two strings whose runes have the same digit values spell the same number. */
  lemma {:induction false} SameDigits(s: string, t: string, base: nat)
    requires DigitsIn(s, base) && |s| == |t|
    requires forall i :: 0 <= i < |s| ==> DigitOf(s[i]) == DigitOf(t[i])
    ensures DigitsIn(t, base) && ValueIn(t, base) == ValueIn(s, base)
  {
    if s != [] {
      SameDigits(s[..|s| - 1], t[..|t| - 1], base);
    }
  }

  /** Upper-casing does not change the digit value of any rune. */
  lemma UpperKeepsDigits(s: string)
    ensures |ToUpperAscii(s)| == |s|
    ensures forall i :: 0 <= i < |s| ==> DigitOf(ToUpperAscii(s)[i]) == DigitOf(s[i])
  {
  }

  /**
   * ParseInt reads the same from two strings with the same sign rune and,
   * rune by rune, the same digit values.
   */
  lemma ParseIntSameDigits(s: string, t: string, base: nat)
    requires ValidBase(base) && |s| == |t| && s != []
    requires s[0] == '-' <==> t[0] == '-'
    requires s[0] == '+' <==> t[0] == '+'
    requires forall i :: 0 <= i < |s| ==> DigitOf(s[i]) == DigitOf(t[i])
    ensures ParseInt(s, base) == ParseInt(t, base)
  {
    var k := if s[0] == '-' || s[0] == '+' then 1 else 0;
    var us, ut := s[k..], t[k..];
    assert Unsigned(s) == us && Unsigned(t) == ut;
    forall i | 0 <= i < |us|
      ensures DigitOf(us[i]) == DigitOf(ut[i])
    {
      assert us[i] == s[k + i] && ut[i] == t[k + i];
    }
    ParseUintSameDigits(us, ut, base);
  }

  /** ParseUint reads the same from two strings with, rune by rune, the same digit values. */
  lemma ParseUintSameDigits(s: string, t: string, base: nat)
    requires ValidBase(base) && |s| == |t|
    requires forall i :: 0 <= i < |s| ==> DigitOf(s[i]) == DigitOf(t[i])
    ensures ParseUint(s, base) == ParseUint(t, base)
  {
    if DigitsIn(s, base) {
      SameDigits(s, t, base);
    } else if DigitsIn(t, base) {
      SameDigits(t, s, base);
    }
  }

  /** Upper-casing FormatInt's output does not change what ParseInt reads from it. */
  lemma ParseUpperFormatInt(v: int, base: nat)
    requires ValidBase(base) && MinInt64 <= v <= MaxInt64
    ensures ParseInt(ToUpperAscii(FormatInt(v, base)), base) == Some(v)
  {
    var s := FormatInt(v, base);
    UpperKeepsDigits(s);
    ParseIntSameDigits(s, ToUpperAscii(s), base);
    ParseFormatInt(v, base);
  }

  /** The prefix strconv recognises for base 2, 8 or 16 when it is given base 0. */
  function PrefixOf(base: nat): (p: string)
    requires base in {2, 8, 16}
    ensures |p| == 2 && p[0] == '0'
  {
    if base == 2 then "0b" else if base == 8 then "0o" else "0x"
  }

  /**
   * With base 0, a prefix selects the base of the digits after it, read
   * without their '_' separators when underscoreOK accepts them.
   */
  lemma InferPrefixed(d: string, base: nat)
    requires base in {2, 8, 16} && d != []
    ensures ParseUint(PrefixOf(base) + d, 0) ==
              if '_' in d && !UnderscoreOK(PrefixOf(base) + d) then None else ParseDigits(WithoutUnderscores(d), base)
  {
    var s := PrefixOf(base) + d;
    assert s[2..] == d;
    assert s[1] == PrefixOf(base)[1];
    assert InferBase(s) == (base, d);
  }

  /**
   * A value written in base 2, 8 or 16 behind that base's prefix, with the
   * sign in front of the prefix, reads back with base 0.
   */
  lemma ParsePrefixedFormatInt(v: int, base: nat)
    requires base in {2, 8, 16} && MinInt64 <= v <= MaxInt64
    ensures ParseInt(Signed(v < 0, PrefixOf(base) + FormatUint(Abs(v), base)), 0) == Some(v)
  {
    var d := FormatUint(Abs(v), base);
    var u := PrefixOf(base) + d;
    assert '_' !in d;
    assert ParseUint(u, 0) == Some(Abs(v)) by {
      InferPrefixed(d, base);
    }
    ParseSigned(v < 0, u, 0);
    assert WithSign(v < 0, Some(Abs(v))) == Some(v);
  }

  /** ParseInt reads Signed(neg, u) as ParseUint's magnitude of u, negated when neg holds. */
  lemma ParseSigned(neg: bool, u: string, base: int)
    requires u != [] && u[0] != '-' && u[0] != '+'
    ensures ParseInt(Signed(neg, u), base) == WithSign(neg, ParseUint(u, base))
  {
    var s := Signed(neg, u);
    if neg {
      assert s == "-" + u && s[1..] == u;
    } else {
      assert s == u;
    }
  }

  /** body behind a '-' when neg holds. */
  function Signed(neg: bool, body: string): (s: string)
    ensures |s| == |body| + (if neg then 1 else 0)
  {
    if neg then "-" + body else body
  }

  // ---------------------------------------------------------------------
  // Digit separators under base 0

  /** Decimal digits only. */
  predicate AllDecimal(s: string)
  {
    forall i :: 0 <= i < |s| ==> '0' <= s[i] <= '9'
  }

  /** A run of digits leaves underscoreOK's scan having just seen a digit. */
  lemma {:induction false} DigitRun(a: string, rest: string, saw: Saw, hex: bool)
    requires a != [] && AllDecimal(a)
    ensures UnderscoresFrom(a + rest, saw, hex) == UnderscoresFrom(rest, SawDigit, hex)
  {
    assert (a + rest)[1..] == a[1..] + rest;
    if |a| > 1 {
      DigitRun(a[1..], rest, SawDigit, hex);
    }
  }

  /** Removing separators distributes over concatenation. */
  lemma {:induction false} WithoutUnderscoresAppend(a: string, b: string)
    ensures WithoutUnderscores(a + b) == WithoutUnderscores(a) + WithoutUnderscores(b)
  {
    if a != [] {
      var w := WithoutUnderscores(a[1..]) + WithoutUnderscores(b);
      assert (a + b)[0] == a[0] && (a + b)[1..] == a[1..] + b;
      WithoutUnderscoresAppend(a[1..], b);
      assert WithoutUnderscores(a[1..] + b) == w;
      if a[0] == '_' {
        assert WithoutUnderscores(a + b) == w;
      } else {
        assert WithoutUnderscores(a + b) == [a[0]] + w;
        assert [a[0]] + w == ([a[0]] + WithoutUnderscores(a[1..])) + WithoutUnderscores(b);
      }
    } else {
      assert a + b == b;
    }
  }

  /** A text starting with a digit 1..9 is decimal for base 0, and underscoreOK scans it from the start. */
  lemma DecimalStart(s: string)
    requires s != [] && '1' <= s[0] <= '9'
    ensures InferBase(s) == (10, s)
    ensures UnderscoreOK(s) == UnderscoresFrom(s, SawStart, false)
    ensures ParseUint(s, 0) == if '_' in s && !UnderscoreOK(s) then None else ParseDigits(WithoutUnderscores(s), 10)
  {
  }

  /**
   * With base 0, a '_' between two runs of decimal digits (the first not
   * starting with '0') is a separator: the text reads as the digits alone.
   */
  lemma SeparatedDecimal(a: string, b: string)
    requires a != [] && b != [] && AllDecimal(a) && AllDecimal(b) && a[0] != '0'
    ensures ParseUint(a + "_" + b, 0) == ParseUint(a + b, 0)
    ensures ParseUint(a + "_" + b, 0) == ParseDigits(a + b, 10)
  {
    var s := a + "_" + b;
    var t := "_" + b;
    assert s == a + t && t[1..] == b && t[0] == '_';
    assert s[0] == a[0] && (a + b)[0] == a[0];
    assert '_' !in a && '_' !in b;
    assert '_' !in a + b;
    assert UnderscoresFrom(s, SawStart, false) by {
      DigitRun(a, t, SawStart, false);
      DigitRun(b, [], SawUnderscore, false);
      assert b + [] == b;
    }
    assert WithoutUnderscores(s) == a + b by {
      WithoutUnderscoresAppend(a, t);
    }
    DecimalStart(s);
    DecimalStart(a + b);
  }

  /** The same separator in a signed text: ParseInt reads it as the digits alone, with or without a '-'. */
  lemma SeparatedSigned(a: string, b: string)
    requires a != [] && b != [] && AllDecimal(a) && AllDecimal(b) && a[0] != '0'
    ensures ParseInt(a + "_" + b, 0) == ParseInt(a + b, 0)
    ensures ParseInt("-" + (a + "_" + b), 0) == WithSign(true, ParseDigits(a + b, 10))
  {
    var s := a + "_" + b;
    assert s[0] == a[0] && (a + b)[0] == a[0];
    SeparatedDecimal(a, b);
    ParseSigned(true, s, 0);
    ParseSigned(false, s, 0);
    ParseSigned(false, a + b, 0);
  }

  /** The decimal digits "1000". */
  lemma ThousandDigits()
    ensures ParseDigits("1000", 10) == Some(1000)
  {
    assert "1000"[..3] == "100" && "100"[..2] == "10" && "10"[..1] == "1" && "1"[..0] == "";
  }

  /** "1_000" reads as 1000 with base 0. */
  lemma SeparatedThousand()
    ensures ParseUint("1_000", 0) == Some(1000)
  {
    var a, b := "1", "000";
    assert AllDecimal(a) && AllDecimal(b);
    SeparatedDecimal(a, b);
    assert a + "_" + b == "1_000";
    assert a + b == "1000";
    ThousandDigits();
  }

  /** "0x_ff" reads as 255 with base 0: a separator may follow the prefix. */
  lemma SeparatedHex()
    ensures ParseUint("0x_ff", 0) == Some(255)
  {
    var s := "0x_ff";
    assert InferBase(s) == (16, "_ff") by {
      assert s[1] in "xX" && s[2..] == "_ff";
    }
    assert '_' in "_ff" by {
      assert "_ff"[0] == '_';
    }
    assert UnderscoreOK(s) by {
      assert s[2..] == "_ff" && "_ff"[1..] == "ff" && "ff"[1..] == "f" && "f"[1..] == "";
      assert UnderscoresFrom("f", SawDigit, true);
      assert UnderscoresFrom("ff", SawUnderscore, true);
      assert UnderscoresFrom("_ff", SawDigit, true);
    }
    assert WithoutUnderscores("_ff") == "ff" by {
      assert "_ff"[1..] == "ff" && "ff"[1..] == "f" && "f"[1..] == "";
    }
    assert ParseDigits("ff", 16) == Some(255) by {
      assert "ff"[..1] == "f" && "f"[..0] == "";
    }
  }

  /** A doubled, trailing or leading separator is refused with base 0, and any '_' with a fixed base. */
  lemma MisplacedSeparators()
    ensures ParseUint("1__0", 0) == None
    ensures ParseUint("10_", 0) == None
    ensures ParseUint("_10", 0) == None
    ensures ParseUint("1_0", 10) == None
  {
    assert "1__0"[1] == '_' && "1__0"[1..] == "__0" && "__0"[1..] == "_0";
    DecimalStart("1__0");
    assert "10_"[2] == '_' && "10_"[1..] == "0_" && "0_"[1..] == "_" && "_"[1..] == "";
    DecimalStart("10_");
    assert "_10"[0] == '_' && InferBase("_10") == (10, "_10");
    assert DigitOf("1_0"[1]) == 36;
  }

  // ---------------------------------------------------------------------
  // The decimal case agrees with GoStd's Itoa and Atoi

  /** Decimal digits are exactly the runes with a digit value below ten, and spell the same number. */
  lemma {:induction false} DecimalIsBaseTen(s: string)
    ensures DigitsIn(s, 10) <==> DigitsUpTo(s, |s|)
    ensures DigitsIn(s, 10) ==> ValueIn(s, 10) == DecimalValue(s)
  {
    if s != [] {
      DecimalIsBaseTen(s[..|s| - 1]);
      if DigitsIn(s, 10) {
        assert DigitsIn(s[..|s| - 1], 10);
      }
      if DigitsUpTo(s, |s|) {
        assert DigitsUpTo(s[..|s| - 1], |s| - 1);
      }
    }
  }

  /** Itoa is FormatInt in base 10. */
  lemma ItoaIsFormatInt(n: int)
    ensures Itoa(n) == FormatInt(n, 10)
  {
    DecimalDigitsIsFormatUint(Abs(n));
  }

  lemma {:induction false} DecimalDigitsIsFormatUint(n: nat)
    ensures DecimalDigits(n) == FormatUint(n, 10)
  {
    if n >= 10 {
      DecimalDigitsIsFormatUint(n / 10);
    }
  }

  /** Atoi is ParseInt in base 10. */
  lemma AtoiIsParseInt(s: string)
    ensures Atoi(s) == ParseInt(s, 10)
  {
    if s != [] {
      DecimalIsBaseTen(Unsigned(s));
    }
  }
}
