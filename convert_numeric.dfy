// convert/type_convert_numeric.go: conversions of a dynamically typed
// value to the fixed-width integer types.

module ConvertNumeric {

  import opened Wrappers
  import opened GoStd
  import opened ConvertBase
  import Strconv

  /** The string case of ToInt and ToInt64: trimmed, non-empty, then strconv.ParseInt(s, 10, 64). */
  function ParseSignedText(x: string): Result<int, ConvertError>
  {
    var s := TrimSpace(x);
    if s == [] then Err(EmptyString)
    else
      match Strconv.ParseInt(s, 10)
      case None => Err(ParseFailure)
      case Some(n) => Ok(n)
  }

  /** The string case of ToUint64: trimmed, non-empty, then strconv.ParseUint(s, 10, 64). */
  function ParseUnsignedText(x: string): Result<int, ConvertError>
  {
    var s := TrimSpace(x);
    if s == [] then Err(EmptyString)
    else
      match Strconv.ParseUint(s, 10)
      case None => Err(ParseFailure)
      case Some(n) => Ok(n)
  }

  /**
   * ToInt64, and ToInt, which on a 64-bit platform is the same function:
   * nil is an error, signed integers keep their value, unsigned ones are
   * reinterpreted as two's complement, a bool is 1 or 0, a string is
   * trimmed and parsed in base 10, anything else is unsupported.
   */
  function ToInt64(v: Value): (r: Result<int, ConvertError>)
    requires v.Fits()
    ensures r.Ok? ==> MinInt64 <= r.value <= MaxInt64
    ensures r.Err? ==> r.error in {NilInput, EmptyString, ParseFailure, Unsupported}
  {
    if v.Str? then ParseSignedText(v.s)
    else if v.Nil? then Err(NilInput)
    else if v.Int? then Ok(v.i)
    else if v.Uint? then Ok(WrapInt64(v.u))
    else if v.Bool? then Ok(if v.b then 1 else 0)
    else Err(Unsupported)
  }

  /**
   * ToUint64: nil is an error, unsigned integers keep their value, a
   * negative signed integer is an error, a bool is 1 or 0, a string is
   * trimmed and parsed in base 10 without a sign.
   */
  function ToUint64(v: Value): (r: Result<int, ConvertError>)
    requires v.Fits()
    ensures r.Ok? ==> 0 <= r.value <= Strconv.MaxUint64
    ensures r.Err? ==> r.error in {NilInput, NegativeToUnsigned, EmptyString, ParseFailure, Unsupported}
  {
    if v.Str? then ParseUnsignedText(v.s)
    else if v.Nil? then Err(NilInput)
    else if v.Uint? then Ok(v.u)
    else if v.Int? then (if v.i < 0 then Err(NegativeToUnsigned) else Ok(v.i))
    else if v.Bool? then Ok(if v.b then 1 else 0)
    else Err(Unsupported)
  }

  /** A ToInt64 result kept only when it lies in the signed range of the width. */
  function NarrowSigned(r: Result<int, ConvertError>, w: Width): Result<int, ConvertError>
  {
    match r
    case Err(e) => Err(e)
    case Ok(n) => if n < w.MinSigned() || n > w.MaxSigned() then Err(OutOfRange) else Ok(n)
  }

  /** A ToUint64 result kept only when it lies in the unsigned range of the width. */
  function NarrowUnsigned(r: Result<int, ConvertError>, w: Width): Result<int, ConvertError>
  {
    match r
    case Err(e) => Err(e)
    case Ok(n) => if n > w.MaxUnsigned() then Err(OutOfRange) else Ok(n)
  }

  /** ToInt32: ToInt64, then an error outside [-2147483648, 2147483647]. */
  function ToInt32(v: Value): (r: Result<int, ConvertError>)
    requires v.Fits()
    ensures r.Ok? ==> -0x8000_0000 <= r.value <= 0x7fff_ffff && ToInt64(v) == r
    ensures ToInt64(v).Err? ==> r == ToInt64(v)
  {
    NarrowSigned(ToInt64(v), W32)
  }

  /** ToInt16: ToInt64, then an error outside [-32768, 32767]. */
  function ToInt16(v: Value): (r: Result<int, ConvertError>)
    requires v.Fits()
    ensures r.Ok? ==> -0x8000 <= r.value <= 0x7fff && ToInt64(v) == r
    ensures ToInt64(v).Err? ==> r == ToInt64(v)
  {
    NarrowSigned(ToInt64(v), W16)
  }

  /** ToUint32: ToUint64, then an error above 4294967295. */
  function ToUint32(v: Value): (r: Result<int, ConvertError>)
    requires v.Fits()
    ensures r.Ok? ==> 0 <= r.value <= 0xffff_ffff && ToUint64(v) == r
    ensures ToUint64(v).Err? ==> r == ToUint64(v)
  {
    NarrowUnsigned(ToUint64(v), W32)
  }

  /** ToUint16: ToUint64, then an error above 65535. */
  function ToUint16(v: Value): (r: Result<int, ConvertError>)
    requires v.Fits()
    ensures r.Ok? ==> 0 <= r.value <= 0xffff && ToUint64(v) == r
    ensures ToUint64(v).Err? ==> r == ToUint64(v)
  {
    NarrowUnsigned(ToUint64(v), W16)
  }

  // ---------------------------------------------------------------------
  // Properties

  /**
   * An unsigned integer reaches ToInt64 as two's complement: unchanged up
   * to 2^63 - 1, less 2^64 above it.
   */
  lemma ToInt64OfUint(w: Width, u: nat)
    requires u <= w.MaxUnsigned()
    ensures ToInt64(Uint(w, u)) == Ok(if u <= MaxInt64 then u else u - TwoTo64)
  {
    var r := WrapInt64(u);
    if u > MaxInt64 {
      assert (u - r) % TwoTo64 == 0;
      assert r == u - TwoTo64 by {
        var d := u - r;
        assert 0 < d < 2 * TwoTo64;
        assert d == TwoTo64;
      }
    }
  }

  /** Every signed integer type converts to exactly its own value. */
  lemma ToInt64OfInt(w: Width, i: int)
    requires w.MinSigned() <= i <= w.MaxSigned()
    ensures ToInt64(Int(w, i)) == Ok(i)
    ensures ToUint64(Int(w, i)) == (if i < 0 then Err(NegativeToUnsigned) else Ok(i))
  {
  }

  /**
   * For a signed integer of any width, ToInt32 and ToInt16 succeed exactly
   * on their target range and then return the value itself.
   */
  lemma SignedNarrowing(w: Width, i: int)
    requires w.MinSigned() <= i <= w.MaxSigned()
    ensures ToInt32(Int(w, i)).Ok? <==> -0x8000_0000 <= i <= 0x7fff_ffff
    ensures ToInt16(Int(w, i)).Ok? <==> -0x8000 <= i <= 0x7fff
    ensures ToInt32(Int(w, i)).Ok? ==> ToInt32(Int(w, i)).value == i
    ensures ToInt16(Int(w, i)).Ok? ==> ToInt16(Int(w, i)).value == i
  {
    ToInt64OfInt(w, i);
  }

  /**
   * For an unsigned integer of any width, ToUint32 and ToUint16 succeed
   * exactly up to their maximum; a negative signed integer is refused.
   */
  lemma UnsignedNarrowing(w: Width, u: nat, i: int)
    requires u <= w.MaxUnsigned() && w.MinSigned() <= i < 0
    ensures ToUint32(Uint(w, u)).Ok? <==> u <= 0xffff_ffff
    ensures ToUint16(Uint(w, u)).Ok? <==> u <= 0xffff
    ensures ToUint32(Uint(w, u)).Ok? ==> ToUint32(Uint(w, u)).value == u
    ensures ToUint32(Int(w, i)) == Err(NegativeToUnsigned)
    ensures ToUint16(Int(w, i)) == Err(NegativeToUnsigned)
    ensures ToUint64(Int(w, i)) == Err(NegativeToUnsigned)
  {
  }

  /** The boundary cases of the package's own checks, for int64 and uint64 inputs. */
  lemma NarrowingSamples()
    ensures ToInt32(Int(W64, -2147483648)) == Ok(-2147483648)
    ensures ToInt32(Int(W64, 2147483647)) == Ok(2147483647)
    ensures ToInt32(Int(W64, 2147483648)).Err? && ToInt32(Int(W64, -2147483649)).Err?
    ensures ToInt16(Int(W64, -32768)) == Ok(-32768) && ToInt16(Int(W64, 32767)) == Ok(32767)
    ensures ToInt16(Int(W64, -32769)).Err? && ToInt16(Int(W64, 32768)).Err?
    ensures ToUint32(Uint(W64, 4294967295)) == Ok(4294967295) && ToUint32(Uint(W64, 4294967296)).Err?
    ensures ToUint16(Uint(W64, 65535)) == Ok(65535) && ToUint16(Uint(W64, 65536)).Err?
    ensures ToUint32(Int(W64, -1)).Err? && ToUint16(Int(W64, -1)).Err?
  {
    SignedNarrowing(W64, -2147483648);
    SignedNarrowing(W64, 2147483647);
    SignedNarrowing(W64, 2147483648);
    SignedNarrowing(W64, -2147483649);
    SignedNarrowing(W64, -32768);
    SignedNarrowing(W64, 32767);
    SignedNarrowing(W64, -32769);
    SignedNarrowing(W64, 32768);
  }

  /** A bool converts to 1 for true and 0 for false, signed or unsigned. */
  lemma BoolIsOneOrZero(b: bool)
    ensures ToInt64(Bool(b)) == ToUint64(Bool(b)) == Ok(if b then 1 else 0)
    ensures ToInt32(Bool(b)) == ToInt16(Bool(b)) == ToUint32(Bool(b)) == ToUint16(Bool(b))
  {
  }

  /**
   * A string converts to what strconv reads from it once trimmed; a string
   * of white space alone is the empty-string error.
   */
  lemma TextIsTrimmedThenParsed(x: string)
    ensures ToInt64(Str(x)).Ok? ==> Strconv.ParseInt(TrimSpace(x), 10) == Some(ToInt64(Str(x)).value)
    ensures ToUint64(Str(x)).Ok? ==> Strconv.ParseUint(TrimSpace(x), 10) == Some(ToUint64(Str(x)).value)
    ensures (forall i :: 0 <= i < |x| ==> IsSpace(x[i])) ==> ToInt64(Str(x)) == ToUint64(Str(x)) == Err(EmptyString)
  {
    TrimSpaceEmpty(x);
  }

  /** A string FormatInt writes in base 10 reads back by ToInt64. */
  lemma SignedTextRoundTrip(n: int)
    requires MinInt64 <= n <= MaxInt64
    ensures ToInt64(Str(Strconv.FormatInt(n, 10))) == Ok(n)
  {
    var t := Strconv.FormatInt(n, 10);
    assert TrimSpace(t) == t by {
      TrimSpaceOfTrimmed(t);
    }
    Strconv.ParseFormatInt(n, 10);
  }

  /** A string FormatUint writes in base 10 reads back by ToUint64. */
  lemma UnsignedTextRoundTrip(u: nat)
    requires u <= Strconv.MaxUint64
    ensures ToUint64(Str(Strconv.FormatUint(u, 10))) == Ok(u)
  {
    var t := Strconv.FormatUint(u, 10);
    assert TrimSpace(t) == t by {
      TrimSpaceOfTrimmed(t);
    }
    Strconv.ParseFormatUint(u, 10);
  }

  /** Nil and values of other types are errors for every integer target. */
  lemma NilAndOtherTypes(v: Value)
    requires v.Nil? || v.Dict? || v.ByteSlice? || v.RuneSlice? || v.Named?
    requires v.Fits()
    ensures ToInt64(v).Err? && ToUint64(v).Err? && ToInt32(v).Err? && ToInt16(v).Err?
    ensures ToUint32(v).Err? && ToUint16(v).Err?
    ensures v.Nil? <==> ToInt64(v) == Err(NilInput)
  {
  }

  // ---------------------------------------------------------------------
  // ToInt32 and ToInt16 on a large unsigned input

  /** The integer a value stands for: its number, 1 or 0 for a bool, or what its text parses to. */
  function Denoted(v: Value): Option<int>
  {
    match v
    case Int(_, i) => Some(i)
    case Uint(_, u) => Some(u)
    case Bool(b) => Some(if b then 1 else 0)
    case Str(x) => if ParseSignedText(x).Ok? then Some(ParseSignedText(x).value) else None
    case _ => None
  }

  /**
   * As written, ToInt32 and ToInt16 range-check the two's-complement
   * reinterpretation of a uint64, so the largest uint64 comes out as -1
   * instead of being refused as out of range.
   */
  lemma LargestUintNarrowsToMinusOne()
    ensures Denoted(Uint(W64, TwoTo64 - 1)) == Some(TwoTo64 - 1)
    ensures ToInt32(Uint(W64, TwoTo64 - 1)) == Ok(-1)
    ensures ToInt16(Uint(W64, TwoTo64 - 1)) == Ok(-1)
  {
    ToInt64OfUint(W64, TwoTo64 - 1);
  }

  /**
   * A signed narrowing that checks the value the input stands for, so a
   * large unsigned input is out of range instead of wrapping.
   */
  function ToSignedChecked(v: Value, w: Width): (r: Result<int, ConvertError>)
    requires v.Fits()
    ensures r.Ok? ==> Denoted(v) == Some(r.value) && w.MinSigned() <= r.value <= w.MaxSigned()
  {
    match v
    case Uint(_, u) => if u > w.MaxSigned() then Err(OutOfRange) else Ok(u)
    case _ => NarrowSigned(ToInt64(v), w)
  }

  /**
   * The checked narrowing accepts every input whose value lies in the
   * target range, and agrees with ToInt32 and ToInt16 except on unsigned
   * inputs above the int64 range.
   */
  lemma ToSignedCheckedComplete(v: Value, w: Width)
    requires v.Fits()
    ensures Denoted(v).Some? && w.MinSigned() <= Denoted(v).value <= w.MaxSigned() ==> ToSignedChecked(v, w) == Ok(Denoted(v).value)
    ensures !(v.Uint? && v.u > MaxInt64) ==> ToSignedChecked(v, W32) == ToInt32(v) && ToSignedChecked(v, W16) == ToInt16(v)
  {
    if v.Uint? {
      ToInt64OfUint(v.w, v.u);
    }
  }
}
