// convert/base_convert.go: integers written in base 2, 8 or 16 (with or
// without a prefix), text parsed in a given base, and text carried from
// one base to another.

module BaseConvert {

  import opened Wrappers
  import opened GoStd
  import opened ConvertBase
  import Strconv

  /**
   * The digits ToBinString, ToOctString and ToHexString write for a value:
   * strconv.FormatInt for a signed integer, strconv.FormatUint for an
   * unsigned one, "1" or "0" for a bool; any other value, nil included, is
   * unsupported.
   */
  function DigitsOf(v: Value, base: nat): (r: Result<string, ConvertError>)
    requires Strconv.ValidBase(base)
    ensures r.Err? <==> !(v.Int? || v.Uint? || v.Bool?)
    ensures r.Err? ==> r.error == Unsupported
    ensures r.Ok? ==> r.value != [] && (r.value[0] == '-' <==> v.Int? && v.i < 0)
  {
    if v.Int? then Ok(Strconv.FormatInt(v.i, base))
    else if v.Uint? then Ok(Strconv.FormatUint(v.u, base))
    else if v.Bool? then Ok(if v.b then "1" else "0")
    else Err(Unsupported)
  }

  /** The prefix put after the sign: "-" + prefix + digits for a negative text, prefix + digits otherwise. */
  function Prefixed(s: string, prefix: string): (t: string)
    ensures |t| == |s| + |prefix|
  {
    if s != [] && s[0] == '-' then "-" + prefix + s[1..] else prefix + s
  }

  /** ToBinString: the value in base 2, without a prefix. */
  function ToBinString(v: Value): Result<string, ConvertError>
  {
    DigitsOf(v, 2)
  }

  /** ToBinStringWithPrefix: ToBinString with "0b" after the sign. */
  function ToBinStringWithPrefix(v: Value): (r: Result<string, ConvertError>)
    ensures r.Err? <==> ToBinString(v).Err?
    ensures r.Ok? ==> r.value == Prefixed(ToBinString(v).value, "0b")
  {
    match ToBinString(v)
    case Err(e) => Err(e)
    case Ok(s) => Ok(Prefixed(s, "0b"))
  }

  /** ToOctString: the value in base 8, without a prefix. */
  function ToOctString(v: Value): Result<string, ConvertError>
  {
    DigitsOf(v, 8)
  }

  /** ToOctStringWithPrefix: ToOctString with "0o" after the sign. */
  function ToOctStringWithPrefix(v: Value): (r: Result<string, ConvertError>)
    ensures r.Err? <==> ToOctString(v).Err?
    ensures r.Ok? ==> r.value == Prefixed(ToOctString(v).value, "0o")
  {
    match ToOctString(v)
    case Err(e) => Err(e)
    case Ok(s) => Ok(Prefixed(s, "0o"))
  }

  /** ToHexString: the value in base 16, its letters upper-cased when asked. */
  function ToHexString(v: Value, uppercase: bool): (r: Result<string, ConvertError>)
    ensures r.Err? <==> DigitsOf(v, 16).Err?
  {
    match DigitsOf(v, 16)
    case Err(e) => Err(e)
    case Ok(s) => Ok(if uppercase then ToUpperAscii(s) else s)
  }

  /** ToHexStringWithPrefix: ToHexString with "0x" after the sign; the prefix stays lower-case. */
  function ToHexStringWithPrefix(v: Value, uppercase: bool): (r: Result<string, ConvertError>)
    ensures r.Err? <==> ToHexString(v, uppercase).Err?
    ensures r.Ok? ==> r.value == Prefixed(ToHexString(v, uppercase).value, "0x")
  {
    match ToHexString(v, uppercase)
    case Err(e) => Err(e)
    case Ok(s) => Ok(Prefixed(s, "0x"))
  }

  /** A base ParseIntFromBase and ParseUintFromBase accept: 0 (inferred from the prefix) or 2 to 36. */
  predicate AcceptedBase(base: int)
  {
    base == 0 || Strconv.ValidBase(base)
  }

  /**
   * ParseIntFromBase: the text trimmed, the base checked, then
   * strconv.ParseInt(s, base, 64).
   */
  function ParseIntFromBase(s: string, base: int): (r: Result<int, ConvertError>)
    ensures r.Ok? ==> MinInt64 <= r.value <= MaxInt64
    ensures r.Err? ==> r.error in {BadBase, ParseFailure}
    ensures r.Err? && r.error == BadBase <==> !AcceptedBase(base)
  {
    var t := TrimSpace(s);
    if !AcceptedBase(base) then Err(BadBase)
    else
      match Strconv.ParseInt(t, base)
      case None => Err(ParseFailure)
      case Some(n) => Ok(n)
  }

  /**
   * ParseUintFromBase: the text trimmed, the base checked, a leading '-'
   * refused, then strconv.ParseUint(s, base, 64).
   */
  function ParseUintFromBase(s: string, base: int): (r: Result<int, ConvertError>)
    ensures r.Ok? ==> 0 <= r.value <= Strconv.MaxUint64
    ensures r.Err? ==> r.error in {BadBase, NegativeText, ParseFailure}
    ensures r.Err? && r.error == BadBase <==> !AcceptedBase(base)
    ensures r.Err? && r.error == NegativeText <==> AcceptedBase(base) && TrimSpace(s) != [] && TrimSpace(s)[0] == '-'
  {
    var t := TrimSpace(s);
    if !AcceptedBase(base) then Err(BadBase)
    else if t != [] && t[0] == '-' then Err(NegativeText)
    else
      match Strconv.ParseUint(t, base)
      case None => Err(ParseFailure)
      case Some(n) => Ok(n)
  }

  /** A text that starts and ends with a decimal digit trims to itself. */
  lemma DigitEndsTrim(s: string)
    requires s != [] && '0' <= s[0] <= '9' && '0' <= s[|s| - 1] <= '9'
    ensures TrimSpace(s) == s
  {
    TrimSpaceOfTrimmed(s);
  }

  /** Two texts that trim to themselves, start alike and parse alike by strconv.ParseUint read alike. */
  lemma UnsignedReadsAlike(s: string, t: string)
    requires s != [] && t != [] && s[0] == t[0] && TrimSpace(s) == s && TrimSpace(t) == t
    requires Strconv.ParseUint(s, 0) == Strconv.ParseUint(t, 0)
    ensures ParseUintFromBase(s, 0) == ParseUintFromBase(t, 0)
  {
  }

  /** Two texts that trim to themselves and parse alike by strconv.ParseInt read alike. */
  lemma SignedReadsAlike(s: string, t: string)
    requires TrimSpace(s) == s && TrimSpace(t) == t
    requires Strconv.ParseInt(s, 0) == Strconv.ParseInt(t, 0)
    ensures ParseIntFromBase(s, 0) == ParseIntFromBase(t, 0)
  {
  }

  /**
   * With base 0 a '_' between two runs of decimal digits is a digit
   * separator: the text reads as the digits alone, signed or unsigned.
   */
  lemma SeparatedDecimalReads(a: string, b: string)
    requires a != [] && b != [] && Strconv.AllDecimal(a) && Strconv.AllDecimal(b) && a[0] != '0'
    ensures ParseUintFromBase(a + "_" + b, 0) == ParseUintFromBase(a + b, 0)
    ensures ParseIntFromBase(a + "_" + b, 0) == ParseIntFromBase(a + b, 0)
  {
    var s := a + "_" + b;
    var t := a + b;
    assert s[0] == a[0] && s[|s| - 1] == b[|b| - 1];
    assert t[0] == a[0] && t[|t| - 1] == b[|b| - 1];
    DigitEndsTrim(s);
    DigitEndsTrim(t);
    Strconv.SeparatedDecimal(a, b);
    Strconv.SeparatedSigned(a, b);
    UnsignedReadsAlike(s, t);
    SignedReadsAlike(s, t);
  }

  /**
   * What ConvertBaseString writes for the value it read: strconv.FormatInt
   * in the target base, upper-cased when asked, and given the base's prefix
   * after the sign when asked and the base is 2, 8 or 16.
   */
  function Rewritten(v: int, toBase: nat, uppercase: bool, withPrefix: bool): string
    requires Strconv.ValidBase(toBase)
  {
    var out := Strconv.FormatInt(v, toBase);
    var out := if uppercase then ToUpperAscii(out) else out;
    if withPrefix && toBase in {2, 8, 16} then Prefixed(out, Strconv.PrefixOf(toBase)) else out
  }

  /**
   * ConvertBaseString: the target base checked first, then the trimmed text
   * parsed by strconv.ParseInt in fromBase (which strconv itself checks),
   * then rewritten in the target base.
   */
  function ConvertBaseString(s: string, fromBase: int, toBase: int, uppercase: bool, withPrefix: bool): (r: Result<string, ConvertError>)
    ensures r.Err? ==> r.error in {BadBase, ParseFailure}
    ensures r.Err? && r.error == BadBase <==> !Strconv.ValidBase(toBase)
  {
    if !Strconv.ValidBase(toBase) then Err(BadBase)
    else
      match Strconv.ParseInt(TrimSpace(s), fromBase)
      case None => Err(ParseFailure)
      case Some(v) => Ok(Rewritten(v, toBase, uppercase, withPrefix))
  }

  // ---------------------------------------------------------------------
  // Text without surrounding white space

  /** A rune FormatInt or a prefix writes: a sign, a digit or an ASCII letter. */
  predicate Printed(c: char)
  {
    c == '-' || '0' <= c <= '9' || 'a' <= c <= 'z' || 'A' <= c <= 'Z'
  }

  /** Every rune of s is printed. */
  predicate AllPrinted(s: string)
  {
    forall i :: 0 <= i < |s| ==> Printed(s[i])
  }

  /** Text made of printed runes trims to itself. */
  lemma PrintedTrims(s: string)
    requires AllPrinted(s)
    ensures TrimSpace(s) == s
  {
    TrimSpaceOfTrimmed(s);
  }

  /** Joining printed texts gives printed text. */
  lemma PrintedJoin(a: string, b: string)
    requires AllPrinted(a) && AllPrinted(b)
    ensures AllPrinted(a + b)
  {
    forall i | 0 <= i < |a + b|
      ensures Printed((a + b)[i])
    {
      if i >= |a| {
        assert (a + b)[i] == b[i - |a|];
      }
    }
  }

  /** FormatUint writes printed runes. */
  lemma FormatUintPrinted(n: nat, base: nat)
    requires Strconv.ValidBase(base)
    ensures AllPrinted(Strconv.FormatUint(n, base))
  {
  }

  /** So does FormatInt, whose only other rune is the sign. */
  lemma FormatIntPrinted(v: int, base: nat)
    requires Strconv.ValidBase(base)
    ensures AllPrinted(Strconv.FormatInt(v, base))
  {
    var u := Strconv.FormatUint(Abs(v), base);
    FormatUintPrinted(Abs(v), base);
    if v < 0 {
      assert AllPrinted("-");
      PrintedJoin("-", u);
    }
  }

  /** Upper-casing keeps runes printed. */
  lemma UpperPrinted(s: string)
    requires AllPrinted(s)
    ensures AllPrinted(ToUpperAscii(s))
  {
  }

  // ---------------------------------------------------------------------
  // Round trips

  /** A signed value written in base 2 to 36 reads back by ParseIntFromBase in that base, in either case. */
  lemma SignedReadsBack(w: Width, i: int, base: nat, uppercase: bool)
    requires Strconv.ValidBase(base) && w.MinSigned() <= i <= w.MaxSigned()
    ensures var s := Strconv.FormatInt(i, base);
            ParseIntFromBase(if uppercase then ToUpperAscii(s) else s, base) == Ok(i)
  {
    var s := Strconv.FormatInt(i, base);
    FormatIntPrinted(i, base);
    if uppercase {
      UpperPrinted(s);
      PrintedTrims(ToUpperAscii(s));
      Strconv.ParseUpperFormatInt(i, base);
    } else {
      PrintedTrims(s);
      Strconv.ParseFormatInt(i, base);
    }
  }

  /** An unsigned value written in base 2 to 36 reads back by ParseUintFromBase in that base. */
  lemma UnsignedReadsBack(w: Width, u: nat, base: nat)
    requires Strconv.ValidBase(base) && u <= w.MaxUnsigned()
    ensures ParseUintFromBase(Strconv.FormatUint(u, base), base) == Ok(u)
  {
    var s := Strconv.FormatUint(u, base);
    FormatUintPrinted(u, base);
    PrintedTrims(s);
    Strconv.ParseFormatUint(u, base);
  }

  /** ToBinString, ToOctString and ToHexString of a signed integer read back in their base. */
  lemma StringsReadBack(w: Width, i: int, uppercase: bool)
    requires w.MinSigned() <= i <= w.MaxSigned()
    ensures ParseIntFromBase(ToBinString(Int(w, i)).value, 2) == Ok(i)
    ensures ParseIntFromBase(ToOctString(Int(w, i)).value, 8) == Ok(i)
    ensures ParseIntFromBase(ToHexString(Int(w, i), uppercase).value, 16) == Ok(i)
  {
    SignedReadsBack(w, i, 2, false);
    SignedReadsBack(w, i, 8, false);
    SignedReadsBack(w, i, 16, uppercase);
  }

  /** The prefix goes after the sign: Prefixed is Signed around prefix and magnitude. */
  lemma PrefixedFormatInt(v: int, base: nat, p: string)
    requires Strconv.ValidBase(base)
    ensures Prefixed(Strconv.FormatInt(v, base), p) == Strconv.Signed(v < 0, p + Strconv.FormatUint(Abs(v), base))
  {
    var s, u := Strconv.FormatInt(v, base), Strconv.FormatUint(Abs(v), base);
    if v < 0 {
      assert s == "-" + u && s[1..] == u;
      assert "-" + p + u == "-" + (p + u);
    } else {
      assert s == u && s[0] != '-';
    }
  }

  /** A prefixed text reads back with base 0, which infers the base from the prefix. */
  lemma PrefixedReadsBack(w: Width, i: int, base: nat)
    requires base in {2, 8, 16} && w.MinSigned() <= i <= w.MaxSigned()
    ensures ParseIntFromBase(Prefixed(Strconv.FormatInt(i, base), Strconv.PrefixOf(base)), 0) == Ok(i)
  {
    var p := Strconv.PrefixOf(base);
    var d := Strconv.FormatUint(Abs(i), base);
    var t := Strconv.Signed(i < 0, p + d);
    PrefixedFormatInt(i, base, p);
    assert AllPrinted(t) by {
      assert AllPrinted(p);
      FormatUintPrinted(Abs(i), base);
      PrintedJoin(p, d);
      if i < 0 {
        assert AllPrinted("-");
        PrintedJoin("-", p + d);
      }
    }
    PrintedTrims(t);
    Strconv.ParsePrefixedFormatInt(i, base);
  }

  /** The prefixed strings of a signed integer, in lower case, read back with base 0. */
  lemma PrefixedStringsReadBack(w: Width, i: int)
    requires w.MinSigned() <= i <= w.MaxSigned()
    ensures ParseIntFromBase(ToBinStringWithPrefix(Int(w, i)).value, 0) == Ok(i)
    ensures ParseIntFromBase(ToOctStringWithPrefix(Int(w, i)).value, 0) == Ok(i)
    ensures ParseIntFromBase(ToHexStringWithPrefix(Int(w, i), false).value, 0) == Ok(i)
  {
    PrefixedReadsBack(w, i, 2);
    PrefixedReadsBack(w, i, 8);
    PrefixedReadsBack(w, i, 16);
  }

  /** The text of a negative signed value is refused by ParseUintFromBase in every accepted base. */
  lemma NegativeTextRefused(i: int, base: nat)
    requires Strconv.ValidBase(base) && i < 0
    ensures ParseUintFromBase(Strconv.FormatInt(i, base), base) == Err(NegativeText)
  {
    FormatIntPrinted(i, base);
    PrintedTrims(Strconv.FormatInt(i, base));
  }

  /** ConvertBaseString succeeds exactly when the target base is valid and strconv reads the trimmed text in the source base. */
  lemma ConvertSucceeds(s: string, fromBase: int, toBase: int, uppercase: bool, withPrefix: bool)
    ensures ConvertBaseString(s, fromBase, toBase, uppercase, withPrefix).Ok?
            <==> Strconv.ValidBase(toBase) && Strconv.ParseInt(TrimSpace(s), fromBase).Some?
  {
  }

  /** The text Rewritten writes without a prefix reads back in the target base, in either case. */
  lemma RewrittenReadsBack(v: int, toBase: nat, uppercase: bool)
    requires Strconv.ValidBase(toBase) && MinInt64 <= v <= MaxInt64
    ensures ParseIntFromBase(Rewritten(v, toBase, uppercase, false), toBase) == Ok(v)
  {
    SignedReadsBack(W64, v, toBase, uppercase);
  }

  /** The text Rewritten writes with the lower-case prefix of base 2, 8 or 16 reads back with base 0. */
  lemma RewrittenPrefixedReadsBack(v: int, toBase: nat)
    requires toBase in {2, 8, 16} && MinInt64 <= v <= MaxInt64
    ensures ParseIntFromBase(Rewritten(v, toBase, false, true), 0) == Ok(v)
  {
    PrefixedReadsBack(W64, v, toBase);
  }

  /** Without a prefix, the converted text reads back in the target base as the value v read in the source base. */
  lemma ConvertKeepsValue(s: string, fromBase: int, toBase: int, uppercase: bool, v: int)
    requires Strconv.ValidBase(toBase) && Strconv.ParseInt(TrimSpace(s), fromBase) == Some(v)
    ensures ConvertBaseString(s, fromBase, toBase, uppercase, false).Ok?
    ensures ParseIntFromBase(ConvertBaseString(s, fromBase, toBase, uppercase, false).value, toBase) == Ok(v)
  {
    var t := Rewritten(v, toBase, uppercase, false);
    assert ConvertBaseString(s, fromBase, toBase, uppercase, false) == Ok(t);
    RewrittenReadsBack(v, toBase, uppercase);
  }

  /** With the lower-case prefix of base 2, 8 or 16, the converted text reads back with base 0. */
  lemma ConvertPrefixedKeepsValue(s: string, fromBase: int, toBase: int, v: int)
    requires toBase in {2, 8, 16} && Strconv.ParseInt(TrimSpace(s), fromBase) == Some(v)
    ensures ConvertBaseString(s, fromBase, toBase, false, true).Ok?
    ensures ParseIntFromBase(ConvertBaseString(s, fromBase, toBase, false, true).value, 0) == Ok(v)
  {
    var t := Rewritten(v, toBase, false, true);
    assert ConvertBaseString(s, fromBase, toBase, false, true) == Ok(t);
    RewrittenPrefixedReadsBack(v, toBase);
  }

  /** Base 10 in lower case is strconv.Itoa of the value read; no prefix is added for it. */
  lemma DecimalTarget(s: string, fromBase: int, withPrefix: bool, v: int)
    requires Strconv.ParseInt(TrimSpace(s), fromBase) == Some(v)
    ensures ConvertBaseString(s, fromBase, 10, false, withPrefix) == Ok(Itoa(v))
  {
    Strconv.ItoaIsFormatInt(v);
  }

  // ---------------------------------------------------------------------
  // The package's own checks

  /** 10 is 1010 in base 2. */
  lemma TenSample()
    ensures ToBinString(Int(W64, 10)) == Ok("1010")
  {
    assert Strconv.FormatUint(10, 2) == "1010" by {
      assert Strconv.FormatUint(1, 2) == "1";
      assert Strconv.FormatUint(2, 2) == "10";
      assert Strconv.FormatUint(5, 2) == "101";
    }
  }

  /** uint8 3 is 11, true is 1, and a string or nil is unsupported. */
  lemma OtherSamples()
    ensures ToBinString(Uint(W8, 3)) == Ok("11")
    ensures ToBinString(Bool(true)) == Ok("1")
    ensures ToBinString(Str("10")).Err? && ToBinString(Nil).Err?
  {
    assert Strconv.FormatUint(3, 2) == "11" by {
      assert Strconv.FormatUint(1, 2) == "1";
    }
  }

  /** -2 is -10, and with its prefix -0b10: the sign stays in front. */
  lemma NegativeSample()
    ensures ToBinString(Int(W64, -2)) == Ok("-10")
    ensures ToBinStringWithPrefix(Int(W64, -2)) == Ok("-0b10")
  {
    assert Strconv.FormatInt(-2, 2) == "-10" by {
      assert Strconv.FormatUint(1, 2) == "1";
      assert Strconv.FormatUint(2, 2) == "10";
    }
    assert Prefixed("-10", "0b") == "-0b10";
  }
}
