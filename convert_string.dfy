// convert/type_convert_string.go: conversion of a dynamically typed value
// to its text.

module ConvertString {

  import opened Wrappers
  import opened GoStd
  import opened ConvertBase
  import Strconv
  import ConvertNumeric
  import ConvertBool

  /**
   * The text strconv.FormatBool gives a bool, "true" or "false": the third
   * word of ToBool's true list and of its false list.
   */
  function BoolText(b: bool): string
  {
    if b then ConvertBool.TrueWords[2] else ConvertBool.FalseWords[2]
  }

  /** The two texts spelled out. */
  lemma BoolTextSpelled()
    ensures BoolText(true) == "true" && BoolText(false) == "false"
  {
  }

  /**
   * ToString: nil is an error, a string is itself, a bool is "true" or
   * "false", an integer is its base-10 digits, a value with a String
   * method is what that method returns, anything else is unsupported.
   */
  function ToString(v: Value): (r: Result<string, ConvertError>)
    ensures r.Err? ==> r.error in {NilInput, Unsupported}
    ensures r.Err? <==> v.Nil? || v.Dict? || v.ByteSlice? || v.RuneSlice? || (v.Named? && v.shown.None?)
  {
    if v.Bool? then Ok(BoolText(v.b))
    else if v.Str? then Ok(v.s)
    else if v.Nil? then Err(NilInput)
    else if v.Int? then Ok(Strconv.FormatInt(v.i, 10))
    else if v.Uint? then Ok(Strconv.FormatUint(v.u, 10))
    else if v.Named? && v.shown.Some? then Ok(v.shown.value)
    else Err(Unsupported)
  }

  // ---------------------------------------------------------------------
  // Round trips with the other conversions

  /** The text of a signed integer is strconv.Itoa's, and ToInt64 reads it back. */
  lemma SignedTextReadsBack(w: Width, i: int)
    requires w.MinSigned() <= i <= w.MaxSigned()
    ensures ToString(Int(w, i)) == Ok(Itoa(i))
    ensures ConvertNumeric.ToInt64(Str(Itoa(i))) == Ok(i)
  {
    Strconv.ItoaIsFormatInt(i);
    ConvertNumeric.SignedTextRoundTrip(i);
  }

  /** The text of an unsigned integer reads back by ToUint64. */
  lemma UnsignedTextReadsBack(w: Width, u: nat)
    requires u <= w.MaxUnsigned()
    ensures ToString(Uint(w, u)) == Ok(Strconv.FormatUint(u, 10))
    ensures ConvertNumeric.ToUint64(Str(Strconv.FormatUint(u, 10))) == Ok(u)
  {
    ConvertNumeric.UnsignedTextRoundTrip(u);
  }

  /** The text of a bool reads back by ToBool. */
  lemma BoolTextReadsBack(b: bool)
    ensures ToString(Bool(b)) == Ok(BoolText(b))
    ensures ConvertBool.ToBool(Str(BoolText(b))) == Ok(b)
  {
    if b {
      ConvertBool.TrueWord(2);
    } else {
      ConvertBool.FalseWord(2);
    }
  }

  /** The cases of the package's own checks. */
  lemma Samples()
    ensures ToString(Int(W64, 123)) == Ok("123")
    ensures ToString(Bool(true)) == Ok("true")
    ensures ToString(Named("S", Some("S(10)"))) == Ok("S(10)")
    ensures ToString(Nil) == Err(NilInput)
  {
    assert Strconv.FormatUint(1, 10) == "1";
    assert Strconv.FormatUint(12, 10) == "12";
    assert Strconv.FormatUint(123, 10) == "123";
    assert ToString(Bool(true)) == Ok("true") by {
      BoolTextSpelled();
    }
  }
}
