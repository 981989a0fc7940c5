// convert/type_convert_bool.go: conversion of a dynamically typed value
// to bool, with English and Chinese words for the string case.

module ConvertBool {

  import opened Wrappers
  import opened GoStd
  import opened ConvertBase
  import ConvertNumeric

  /** The words that read as true, after lower-casing and trimming. */
  const TrueWords: seq<string> := ["1", "t", "true", "y", "yes", "on", "ok", "是", "真", "对", "开"]

  /** The words that read as false, after lower-casing and trimming. */
  const FalseWords: seq<string> := ["0", "f", "false", "n", "no", "off", "否", "假", "错", "关"]

  /** A string as ToBool looks it up: ASCII letters lower-cased, then trimmed. */
  function Normalize(x: string): string
  {
    TrimSpace(ToLowerAscii(x))
  }

  /** The word is one of the list's, compared front to back as the switch does. */
  predicate Listed(s: string, words: seq<string>)
    decreases |words|
  {
    words != [] && (words[0] == s || Listed(s, words[1..]))
  }

  /** The truth value of a normalized word, or why it has none. */
  function Lookup(s: string): Result<bool, ConvertError>
  {
    if s == "" then Err(EmptyString)
    else if Listed(s, TrueWords) then Ok(true)
    else if Listed(s, FalseWords) then Ok(false)
    else Err(UnknownBoolWord)
  }

  /**
   * ToBool: nil is an error, a bool is itself, a number is true when it is
   * not zero, a string must be one of the known words, anything else is
   * unsupported.
   */
  function ToBool(v: Value): (r: Result<bool, ConvertError>)
    ensures r.Err? ==> v.Nil? || v.Str? || v.Dict? || v.ByteSlice? || v.RuneSlice? || v.Named?
  {
    if v.Str? then Lookup(Normalize(v.s))
    else if v.Nil? then Err(NilInput)
    else if v.Bool? then Ok(v.b)
    else if v.Int? then Ok(v.i != 0)
    else if v.Uint? then Ok(v.u != 0)
    else Err(Unsupported)
  }

  // ---------------------------------------------------------------------
  // Properties

  /** No word reads both ways, so the order of the two lookups does not matter. */
  lemma WordsDisjoint()
    ensures forall w :: w in TrueWords ==> w !in FalseWords
  {
  }

  /** A rune that is a lower-case ASCII letter, a decimal digit, or beyond U+3000 (past every white space rune). */
  predicate Simple(c: char)
  {
    'a' <= c <= 'z' || '0' <= c <= '9' || c > '\U{3000}'
  }

  /** A word of simple runes is its own normalized form. */
  lemma PlainWord(w: string)
    requires forall i :: 0 <= i < |w| ==> Simple(w[i])
    ensures Normalize(w) == w
  {
    assert ToLowerAscii(w) == w;
    TrimSpaceOfTrimmed(w);
  }

  /** A word of simple runes reads as Lookup says, since normalizing leaves it as it is. */
  lemma PlainReads(w: string)
    requires forall i :: 0 <= i < |w| ==> Simple(w[i])
    ensures ToBool(Str(w)) == Lookup(w)
  {
    PlainWord(w);
  }

  /** A word of the true list, of simple runes, reads as true. */
  lemma TrueWord(k: nat)
    requires k < |TrueWords|
    requires forall i :: 0 <= i < |TrueWords[k]| ==> Simple(TrueWords[k][i])
    ensures ToBool(Str(TrueWords[k])) == Ok(true)
  {
    var w := TrueWords[k];
    PlainReads(w);
    assert w != "" && w in TrueWords;
    ListedIsIn(w, TrueWords);
  }

  /** A word of the false list, of simple runes, reads as false. */
  lemma FalseWord(k: nat)
    requires k < |FalseWords|
    requires forall i :: 0 <= i < |FalseWords[k]| ==> Simple(FalseWords[k][i])
    ensures ToBool(Str(FalseWords[k])) == Ok(false)
  {
    var w := FalseWords[k];
    PlainReads(w);
    WordsDisjoint();
    assert w != "" && w in FalseWords && w !in TrueWords;
    ListedIsIn(w, TrueWords);
    ListedIsIn(w, FalseWords);
  }

  /** Listed is membership. */
  lemma {:induction false} ListedIsIn(s: string, words: seq<string>)
    ensures Listed(s, words) <==> s in words
    decreases |words|
  {
    if words != [] {
      ListedIsIn(s, words[1..]);
      assert words == [words[0]] + words[1..];
    }
  }

  /** Neither list holds the empty word, so Lookup's first test does not hide a listed word. */
  lemma NoEmptyWord()
    ensures "" !in TrueWords && "" !in FalseWords
  {
  }

  /** Only a listed word, up to case and surrounding white space, reads as a bool. */
  lemma OnlyListedWords(x: string)
    ensures ToBool(Str(x)).Ok? ==> Normalize(x) in (if ToBool(Str(x)).value then TrueWords else FalseWords)
    ensures ToBool(Str(x)).Err? <==> Normalize(x) !in TrueWords && Normalize(x) !in FalseWords
  {
    var n := Normalize(x);
    assert ToBool(Str(x)) == Lookup(n);
    ListedIsIn(n, TrueWords);
    ListedIsIn(n, FalseWords);
    NoEmptyWord();
  }

  /** Upper-casing or lower-casing the ASCII letters of a string does not change how it reads. */
  lemma CaseInsensitive(x: string)
    ensures ToBool(Str(ToUpperAscii(x))) == ToBool(Str(x))
    ensures ToBool(Str(ToLowerAscii(x))) == ToBool(Str(x))
  {
    LowerIgnoresCase(x);
    assert Normalize(ToUpperAscii(x)) == Normalize(x);
    assert Normalize(ToLowerAscii(x)) == Normalize(x);
  }

  /** Lower-casing forgets whether the ASCII letters were upper- or lower-cased before. */
  lemma LowerIgnoresCase(x: string)
    ensures ToLowerAscii(ToUpperAscii(x)) == ToLowerAscii(x)
    ensures ToLowerAscii(ToLowerAscii(x)) == ToLowerAscii(x)
  {
    var l, ul, ll := ToLowerAscii(x), ToLowerAscii(ToUpperAscii(x)), ToLowerAscii(ToLowerAscii(x));
    forall i | 0 <= i < |x|
      ensures ul[i] == l[i] && ll[i] == l[i]
    {
      LowerIgnoresCaseAt(x, i);
    }
  }

  /** The same, rune by rune. */
  lemma LowerIgnoresCaseAt(x: string, i: nat)
    requires i < |x|
    ensures ToLowerAscii(ToUpperAscii(x))[i] == ToLowerAscii(x)[i]
    ensures ToLowerAscii(ToLowerAscii(x))[i] == ToLowerAscii(x)[i]
  {
    var U, L := ToUpperAscii(x), ToLowerAscii(x);
    assert ToLowerAscii(U)[i] == LowerRune(UpperRune(x[i]));
    assert ToLowerAscii(L)[i] == LowerRune(LowerRune(x[i]));
  }

  /** For every number and bool, ToBool is true exactly when ToInt64 gives a non-zero value. */
  lemma AgreesWithToInt64(v: Value)
    requires v.Fits() && (v.Int? || v.Uint? || v.Bool?)
    ensures ConvertNumeric.ToInt64(v).Ok?
    ensures ToBool(v) == Ok(ConvertNumeric.ToInt64(v).value != 0)
  {
    if v.Uint? {
      ConvertNumeric.ToInt64OfUint(v.w, v.u);
    }
  }

  /** The Chinese words of the package's own checks: 是 (yes) reads as true, 否 (no) as false. */
  lemma Samples()
    ensures TrueWords[7] == "是" && ToBool(Str(TrueWords[7])) == Ok(true)
    ensures FalseWords[6] == "否" && ToBool(Str(FalseWords[6])) == Ok(false)
  {
    assert ToBool(Str(TrueWords[7])) == Ok(true) by {
      TrueWord(7);
    }
    FalseWord(6);
  }

  /** Zero reads as false and nil is an error, as the package's own checks expect. */
  lemma ZeroAndNil()
    ensures ToBool(Int(W64, 0)) == Ok(false) && ToBool(Uint(W64, 0)) == Ok(false)
    ensures ToBool(Nil) == Err(NilInput)
  {
  }
}
