// Captcha helpers: code strings drawn from an alphabet, the alphabet
// builder, the argument checks of the digit image, and the rectangle and
// seven-segment painters over an RGBA pixel buffer.

module Captcha {
  import opened GoStd
  import opened Wrappers
  import Ascii
  import Collections
  import CryptoRand

  // ---------------------------------------------------------------------
  // GenerateCodeString

  /** The alphabet used when the caller passes "": A-Z and 2-9 without I and O. */
  const DefaultAlphabet: string := "ABCDEFGHJKLMNPQRSTUVWXYZ23456789"

  /** The alphabet the characters are drawn from. */
  function EffectiveAlphabet(alphabet: string): (a: string)
    ensures a != []
  {
    if alphabet == [] then DefaultAlphabet else alphabet
  }

  /** The code GenerateCodeString returns: empty for length <= 0, else one character per draw. */
  function CodeText(length: int, alphabet: string, draws: seq<CryptoRand.Draw>): (s: string)
    requires length > 0 ==> CryptoRand.DrawsFor(length, draws, |EffectiveAlphabet(alphabet)|)
  {
    if length <= 0 then [] else CryptoRand.Picks(EffectiveAlphabet(alphabet), length, draws)
  }

  /** GenerateCodeString: fill a buffer of length bytes, one draw each. */
  method GenerateCodeString(length: int, alphabet: string, draws: seq<CryptoRand.Draw>) returns (s: string)
    requires length > 0 ==> CryptoRand.DrawsFor(length, draws, |EffectiveAlphabet(alphabet)|)
    ensures s == CodeText(length, alphabet, draws)
  {
    if length <= 0 {
      return "";
    }
    var alpha := alphabet;
    if alpha == "" {
      alpha := DefaultAlphabet;
    }
    var b := new char[length];
    var i := 0;
    while i < length
      invariant 0 <= i <= length
      invariant forall j :: 0 <= j < i ==> b[j] == CryptoRand.Pick(alpha, draws[j])
    {
      match draws[i] {
        case MathIndex(k) =>
          b[i] := alpha[k];
        case CryptoByte(rb) =>
          var idx := rb % |alpha|;
          b[i] := alpha[idx];
      }
      i := i + 1;
    }
    s := b[..];
  }

  /**
   * The code has max(length, 0) characters, all from the alphabet; a byte
   * from crypto/rand can select only one of the first 256 of them.
   */
  lemma CodeTextShape(length: int, alphabet: string, draws: seq<CryptoRand.Draw>)
    requires length > 0 ==> CryptoRand.DrawsFor(length, draws, |EffectiveAlphabet(alphabet)|)
    ensures |CodeText(length, alphabet, draws)| == if length <= 0 then 0 else length
    ensures forall i :: 0 <= i < |CodeText(length, alphabet, draws)| ==>
      CodeText(length, alphabet, draws)[i] in EffectiveAlphabet(alphabet)
    ensures forall i :: 0 <= i < |CodeText(length, alphabet, draws)| && draws[i].CryptoByte? ==>
      CodeText(length, alphabet, draws)[i] in EffectiveAlphabet(alphabet)[..if |EffectiveAlphabet(alphabet)| < 256 then |EffectiveAlphabet(alphabet)| else 256]
  {
    var a := EffectiveAlphabet(alphabet);
    var s := CodeText(length, alphabet, draws);
    forall i | 0 <= i < |s| && draws[i].CryptoByte?
      ensures s[i] in a[..if |a| < 256 then |a| else 256]
    {
      var k := draws[i].b % |a|;
      assert s[i] == a[k];
      assert k < 256 && k < |a|;
      assert a[..if |a| < 256 then |a| else 256][k] == s[i];
    }
  }

  /** A one-character alphabet repeats that character length times. */
  lemma SingleCharacterCode(length: int, c: char, draws: seq<CryptoRand.Draw>)
    requires length > 0 && CryptoRand.DrawsFor(length, draws, 1)
    ensures CodeText(length, [c], draws) == Repeat([c], length)
  {
    var s := CodeText(length, [c], draws);
    var r := Repeat([c], length);
    assert |s| == |r|;
    forall i | 0 <= i < length
      ensures s[i] == r[i]
    {
      assert s[i] in [c];
    }
  }

  /** GenerateCodeString(5, "X") is "XXXXX" whatever the draws. */
  lemma FiveTimesX(draws: seq<CryptoRand.Draw>)
    requires CryptoRand.DrawsFor(5, draws, 1)
    ensures CodeText(5, "X", draws) == "XXXXX"
  {
    SingleCharacterCode(5, 'X', draws);
    assert Repeat("X", 5) == "XXXXX";
  }

  /** Bytes that select each character of t from the alphabet a. */
  function IndexBytes(a: string, t: string): (draws: seq<CryptoRand.Draw>)
    requires forall i :: 0 <= i < |t| ==> t[i] in a
    ensures |draws| == |t|
  {
    seq(|t|, i requires 0 <= i < |t| => CryptoRand.CryptoByte(Collections.FirstIndex(a, t[i])))
  }

  /** A remainder by a larger divisor. */
  lemma SmallMod(k: nat, n: nat)
    requires k < n
    ensures k % n == k
  {
  }

  /**
   * With at most 256 characters in the alphabet, every non-empty string over
   * it is the code for some crypto/rand bytes.
   */
  lemma CodeTextReaches(alphabet: string, t: string)
    requires |EffectiveAlphabet(alphabet)| <= 256
    requires t != [] && forall i :: 0 <= i < |t| ==> t[i] in EffectiveAlphabet(alphabet)
    ensures CryptoRand.DrawsFor(|t|, IndexBytes(EffectiveAlphabet(alphabet), t), |EffectiveAlphabet(alphabet)|)
    ensures CodeText(|t|, alphabet, IndexBytes(EffectiveAlphabet(alphabet), t)) == t
  {
    var a := EffectiveAlphabet(alphabet);
    var draws := IndexBytes(a, t);
    forall i | 0 <= i < |t|
      ensures CryptoRand.ValidDraw(draws[i], |a|) && CryptoRand.Pick(a, draws[i]) == t[i]
    {
      var k := Collections.FirstIndex(a, t[i]);
      assert draws[i] == CryptoRand.CryptoByte(k);
      SmallMod(k, |a|);
    }
  }

  // ---------------------------------------------------------------------
  // BuildAlphabet

  /** The characters the flags select, in the order A-Z, a-z, 0-9; A-Z when no flag is set. */
  function Selected(upper: bool, lower: bool, digits: bool): (s: string)
  {
    var sb := (if upper then Ascii.Upper() else []) + (if lower then Ascii.Lower() else [])
      + (if digits then Ascii.Digits() else []);
    if sb == [] then Ascii.Upper() else sb
  }

  /** The characters excludeAmbiguous removes. */
  const Ambiguous: string := "O0I1l"

  /** Whether a character is removed from the alphabet. */
  predicate Excluded(c: char, excludeAmbiguous: bool, customExclude: string)
  {
    c in customExclude || (excludeAmbiguous && c in Ambiguous)
  }

  /** The alphabet BuildAlphabet returns: the selection without excluded characters, first occurrences only. */
  function Alphabet(upper: bool, lower: bool, digits: bool, excludeAmbiguous: bool, customExclude: string): (a: string)
  {
    Collections.Dedup(Collections.Kept(Selected(upper, lower, digits), c => !Excluded(c, excludeAmbiguous, customExclude)))
  }

  /** Mark every character of s in a set. */
  method MarkAll(marked: set<char>, s: string) returns (out: set<char>)
    ensures forall c :: c in out <==> c in marked || c in s
  {
    out := marked;
    var i := 0;
    while i < |s|
      invariant 0 <= i <= |s|
      invariant forall c :: c in out <==> c in marked || c in s[..i]
    {
      assert s[..i + 1] == s[..i] + [s[i]];
      out := out + {s[i]};
      i := i + 1;
    }
    assert s[..i] == s;
  }

  /** One more element through Kept. */
  lemma KeptSnoc(s: seq<char>, n: nat, keep: char -> bool)
    requires n < |s|
    ensures Collections.Kept(s[..n + 1], keep) ==
      if keep(s[n]) then Collections.Kept(s[..n], keep) + [s[n]] else Collections.Kept(s[..n], keep)
  {
    assert s[..n + 1][..n] == s[..n];
  }

  /** One more element through Dedup. */
  lemma DedupSnoc(s: seq<char>, x: char)
    ensures Collections.Dedup(s + [x]) ==
      if x in Collections.Dedup(s) then Collections.Dedup(s) else Collections.Dedup(s) + [x]
  {
    assert (s + [x])[..|s|] == s;
    Collections.DedupElements(s);
  }

  /** Append the chosen ranges, falling back to A-Z when none is chosen. */
  method SelectRanges(upper: bool, lower: bool, digits: bool) returns (sb: string)
    ensures sb == Selected(upper, lower, digits)
  {
    sb := [];
    if upper { sb := sb + Ascii.Upper(); }
    if lower { sb := sb + Ascii.Lower(); }
    if digits { sb := sb + Ascii.Digits(); }
    if |sb| == 0 { sb := sb + Ascii.Upper(); }
  }

  /**
   * BuildAlphabet: gather the selected ranges, collect the excluded
   * characters, then append each remaining character the first time it appears.
   */
  method BuildAlphabet(upper: bool, lower: bool, digits: bool, excludeAmbiguous: bool, customExclude: string)
    returns (a: string)
    ensures a == Alphabet(upper, lower, digits, excludeAmbiguous, customExclude)
  {
    var sb := SelectRanges(upper, lower, digits);
    var exclude := MarkAll({}, customExclude);
    if excludeAmbiguous {
      exclude := MarkAll(exclude, Ambiguous);
    }
    ghost var keep := c => !Excluded(c, excludeAmbiguous, customExclude);
    assert forall c :: c in exclude <==> !keep(c);

    var used: set<char> := {};
    a := [];
    var i := 0;
    while i < |sb|
      invariant 0 <= i <= |sb|
      invariant a == Collections.Dedup(Collections.Kept(sb[..i], keep))
      invariant forall c :: c in used <==> c in a
    {
      KeptSnoc(sb, i, keep);
      assert keep(sb[i]) <==> sb[i] !in exclude;
      if sb[i] !in exclude {
        DedupSnoc(Collections.Kept(sb[..i], keep), sb[i]);
        if sb[i] !in used {
          used := used + {sb[i]};
          a := a + [sb[i]];
        }
      }
      i := i + 1;
    }
    assert sb[..i] == sb;
  }

  /** Three character classes: upper case, lower case, digit. */
  function Class(c: char): nat
  {
    if 'A' <= c <= 'Z' then 0 else if 'a' <= c <= 'z' then 1 else 2
  }

  /** Character classes never decrease along s. */
  predicate ClassOrdered(s: string)
  {
    forall i, j :: 0 <= i < j < |s| ==> Class(s[i]) <= Class(s[j])
  }

  /** Every character of s has a class in lo..hi. */
  predicate ClassesWithin(s: string, lo: nat, hi: nat)
  {
    forall i :: 0 <= i < |s| ==> lo <= Class(s[i]) <= hi
  }

  /** Each range is of one class and without repeats. */
  lemma RangeClasses()
    ensures ClassesWithin(Ascii.Upper(), 0, 0) && ClassesWithin(Ascii.Lower(), 1, 1) && ClassesWithin(Ascii.Digits(), 2, 2)
    ensures Collections.Distinct(Ascii.Upper()) && Collections.Distinct(Ascii.Lower()) && Collections.Distinct(Ascii.Digits())
  {
    Ascii.UpperAt();
    Ascii.LowerAt();
    Ascii.DigitsAt();
    Ascii.RangesDistinct();
  }

  /** A run of class k + 1 after characters of class at most k. */
  lemma AppendClass(s: string, t: string, k: nat)
    requires ClassOrdered(s) && Collections.Distinct(s) && ClassesWithin(s, 0, k)
    requires Collections.Distinct(t) && ClassesWithin(t, k + 1, k + 1)
    ensures ClassOrdered(s + t) && Collections.Distinct(s + t) && ClassesWithin(s + t, 0, k + 1)
  {
    var st := s + t;
    forall i, j | 0 <= i < j < |st|
      ensures Class(st[i]) <= Class(st[j]) && st[i] != st[j]
    {
      if j < |s| {
        assert st[i] == s[i] && st[j] == s[j];
      } else if i >= |s| {
        assert st[i] == t[i - |s|] && st[j] == t[j - |s|];
      } else {
        assert st[i] == s[i] && st[j] == t[j - |s|];
      }
    }
  }

  /** The selection has no repeated character, and its classes never decrease. */
  lemma SelectedShape(upper: bool, lower: bool, digits: bool)
    ensures Collections.Distinct(Selected(upper, lower, digits))
    ensures ClassOrdered(Selected(upper, lower, digits))
  {
    RangeClasses();
    var u: string := if upper then Ascii.Upper() else [];
    var l: string := if lower then Ascii.Lower() else [];
    var d: string := if digits then Ascii.Digits() else [];
    assert ClassOrdered(u) && ClassesWithin(u, 0, 0);
    AppendClass(u, l, 0);
    AppendClass(u + l, d, 1);
    if u + l + d == [] {
      assert ClassOrdered(Ascii.Upper());
    }
  }

  /** Kept keeps a distinct sequence distinct. */
  lemma {:induction false} KeptDistinct(s: seq<char>, keep: char -> bool)
    requires Collections.Distinct(s)
    ensures Collections.Distinct(Collections.Kept(s, keep))
  {
    if s != [] {
      var init := s[..|s| - 1];
      KeptDistinct(init, keep);
      Collections.KeptElements(init, keep);
      if keep(s[|s| - 1]) {
        assert s[|s| - 1] !in init;
      }
    }
  }

  /** Kept keeps a sequence whose classes never decrease in that order. */
  lemma {:induction false} KeptOrdered(s: seq<char>, keep: char -> bool)
    requires ClassOrdered(s)
    ensures ClassOrdered(Collections.Kept(s, keep))
  {
    if s != [] {
      var init := s[..|s| - 1];
      var last := s[|s| - 1];
      assert ClassOrdered(init);
      KeptOrdered(init, keep);
      var k := Collections.Kept(init, keep);
      if keep(last) {
        forall x | x in k
          ensures Class(x) <= Class(last)
        {
          Collections.KeptElements(init, keep);
          var i :| 0 <= i < |init| && init[i] == x;
        }
        OrderedSnoc(k, last);
      }
    }
  }

  /** Appending a character of class at least that of every earlier one keeps the order. */
  lemma OrderedSnoc(k: string, x: char)
    requires ClassOrdered(k) && forall y :: y in k ==> Class(y) <= Class(x)
    ensures ClassOrdered(k + [x])
  {
    var t := k + [x];
    forall i, j | 0 <= i < j < |t|
      ensures Class(t[i]) <= Class(t[j])
    {
      assert t[i] == k[i];
      if j == |k| {
        assert t[i] in k;
      }
    }
  }

  /** Dedup of a sequence without repeats is the sequence itself. */
  lemma {:induction false} DedupOfDistinct(s: seq<char>)
    requires Collections.Distinct(s)
    ensures Collections.Dedup(s) == s
  {
    if s != [] {
      var init := s[..|s| - 1];
      DedupOfDistinct(init);
      assert s == init + [s[|s| - 1]];
    }
  }

  /**
   * The alphabet is the selection in its own order with the excluded
   * characters dropped: so it has no duplicate, and upper case letters come
   * before lower case ones, which come before digits.
   */
  lemma AlphabetOrder(upper: bool, lower: bool, digits: bool, excludeAmbiguous: bool, customExclude: string)
    ensures Alphabet(upper, lower, digits, excludeAmbiguous, customExclude)
      == Collections.Kept(Selected(upper, lower, digits), c => !Excluded(c, excludeAmbiguous, customExclude))
    ensures Collections.Distinct(Alphabet(upper, lower, digits, excludeAmbiguous, customExclude))
    ensures ClassOrdered(Alphabet(upper, lower, digits, excludeAmbiguous, customExclude))
  {
    var keep := c => !Excluded(c, excludeAmbiguous, customExclude);
    var s := Selected(upper, lower, digits);
    SelectedShape(upper, lower, digits);
    KeptDistinct(s, keep);
    KeptOrdered(s, keep);
    DedupOfDistinct(Collections.Kept(s, keep));
  }

  /**
   * A character is in the alphabet exactly when one of the chosen ranges
   * holds it (A-Z when none is chosen) and it is neither custom-excluded nor,
   * with excludeAmbiguous, one of O 0 I 1 l.
   */
  lemma AlphabetMembers(upper: bool, lower: bool, digits: bool, excludeAmbiguous: bool, customExclude: string, c: char)
    ensures c in Alphabet(upper, lower, digits, excludeAmbiguous, customExclude) <==>
      ((upper && 'A' <= c <= 'Z') || (lower && 'a' <= c <= 'z') || (digits && '0' <= c <= '9')
       || (!upper && !lower && !digits && 'A' <= c <= 'Z'))
      && c !in customExclude && !(excludeAmbiguous && c in "O0I1l")
  {
    var keep := c => !Excluded(c, excludeAmbiguous, customExclude);
    var s := Selected(upper, lower, digits);
    assert c in Alphabet(upper, lower, digits, excludeAmbiguous, customExclude) <==> c in s && keep(c) by {
      Collections.KeptElements(s, keep);
      Collections.DedupElements(Collections.Kept(s, keep));
    }
    SelectedMembers(upper, lower, digits, c);
  }

  /** A character is selected exactly when one of the chosen ranges, or A-Z when none is chosen, holds it. */
  lemma SelectedMembers(upper: bool, lower: bool, digits: bool, c: char)
    ensures c in Selected(upper, lower, digits) <==>
      (upper && 'A' <= c <= 'Z') || (lower && 'a' <= c <= 'z') || (digits && '0' <= c <= '9')
      || (!upper && !lower && !digits && 'A' <= c <= 'Z')
  {
    Ascii.Ranges(c);
    if !upper && !lower && !digits {
      assert Selected(upper, lower, digits) == Ascii.Upper();
    }
  }

  /** With no range chosen the alphabet is that of upper case only. */
  lemma NoneSelectedIsUpper(excludeAmbiguous: bool, customExclude: string)
    ensures Alphabet(false, false, false, excludeAmbiguous, customExclude)
      == Alphabet(true, false, false, excludeAmbiguous, customExclude)
  {
    assert Selected(false, false, false) == Selected(true, false, false);
  }

  /** Kept distributes over concatenation. */
  lemma {:induction false} KeptAppend(s: seq<char>, t: seq<char>, keep: char -> bool)
    ensures Collections.Kept(s + t, keep) == Collections.Kept(s, keep) + Collections.Kept(t, keep)
  {
    if t == [] {
      assert s + t == s;
    } else {
      var tInit := t[..|t| - 1];
      KeptAppend(s, tInit, keep);
      assert (s + t)[..|s + t| - 1] == s + tInit;
    }
  }

  /** Kept of a sequence whose every element is kept. */
  lemma KeptAll(s: seq<char>, keep: char -> bool)
    requires forall i :: 0 <= i < |s| ==> keep(s[i])
    ensures Collections.Kept(s, keep) == s
  {
    Collections.KeptElements(s, keep);
  }

  /** Over lo..hi, keep drops exactly the characters of dropped. */
  predicate KeepsRangeBut(keep: char -> bool, lo: char, hi: char, dropped: set<char>)
  {
    forall c :: lo <= c <= hi ==> (keep(c) <==> c !in dropped)
  }

  /** The ambiguous characters one by one. */
  lemma AmbiguousChars(c: char)
    ensures c in Ambiguous <==> c == 'O' || c == '0' || c == 'I' || c == '1' || c == 'l'
  {
  }

  /** Kept drops the one element between two runs of kept elements. */
  lemma KeptAllBut(s: seq<char>, x: char, t: seq<char>, keep: char -> bool)
    requires !keep(x)
    requires forall k :: 0 <= k < |s| ==> keep(s[k])
    requires forall k :: 0 <= k < |t| ==> keep(t[k])
    ensures Collections.Kept(s + [x] + t, keep) == s + t
  {
    KeptAppend(s + [x], t, keep);
    KeptAppend(s, [x], keep);
    assert [x][..0] == [];
    KeptAll(s, keep);
    KeptAll(t, keep);
  }

  /** Kept of a sequence none of whose elements is kept. */
  lemma KeptNone(s: seq<char>, keep: char -> bool)
    requires forall k :: 0 <= k < |s| ==> !keep(s[k])
    ensures Collections.Kept(s, keep) == []
  {
    Collections.KeptElements(s, keep);
  }

  /** A-Z without I and O, for any keep that drops exactly those two upper case letters. */
  lemma KeptUpperUnambiguous(u: string, keep: char -> bool)
    requires Ascii.IsRange(u, 'A', 26)
    requires KeepsRangeBut(keep, 'A', 'Z', {'I', 'O'})
    ensures Collections.Kept(u, keep) == u[..8] + u[9..14] + u[15..]
  {
    var p, q, r := u[..8], u[9..14], u[15..];
    assert u == (p + [u[8]] + q) + ([] + [u[14]] + r);
    KeptAppend(p + [u[8]] + q, [] + [u[14]] + r, keep);
    assert forall k :: 0 <= k < 8 ==> p[k] == ('A' as int + k) as char;
    assert forall k :: 0 <= k < 5 ==> q[k] == ('A' as int + 9 + k) as char;
    assert forall k :: 0 <= k < 11 ==> r[k] == ('A' as int + 15 + k) as char;
    KeptAllBut(p, u[8], q, keep);
    KeptAllBut([], u[14], r, keep);
  }

  /** 0-9 without 0 and 1, for any keep that drops exactly those two digits. */
  lemma KeptDigitsUnambiguous(d: string, keep: char -> bool)
    requires Ascii.IsRange(d, '0', 10)
    requires KeepsRangeBut(keep, '0', '9', {'0', '1'})
    ensures Collections.Kept(d, keep) == d[2..]
  {
    assert d == d[..2] + d[2..];
    KeptAppend(d[..2], d[2..], keep);
    KeptNone(d[..2], keep);
    KeptAll(d[2..], keep);
  }

  /** The default alphabet position by position. */
  lemma DefaultAlphabetAt()
    ensures |DefaultAlphabet| == 32
    ensures forall k :: 0 <= k < 32 ==>
      DefaultAlphabet[k] == if k < 8 then ('A' as int + k) as char
        else if k < 13 then ('A' as int + k + 1) as char
        else if k < 24 then ('A' as int + k + 2) as char
        else ('0' as int + k - 22) as char
  {
  }

  /** The kept pieces of A-Z and 0-9 spell the default alphabet. */
  lemma DefaultAlphabetPieces(u: string, d: string)
    requires Ascii.IsRange(u, 'A', 26)
    requires Ascii.IsRange(d, '0', 10)
    ensures u[..8] + u[9..14] + u[15..] + d[2..] == DefaultAlphabet
  {
    DefaultAlphabetAt();
    var p := u[..8] + u[9..14] + u[15..] + d[2..];
    assert |p| == 32;
    forall k | 0 <= k < 32
      ensures p[k] == DefaultAlphabet[k]
    {
      if k < 8 {
        assert p[k] == u[k];
      } else if k < 13 {
        assert p[k] == u[k + 1];
      } else if k < 24 {
        assert p[k] == u[k + 2];
      } else {
        assert p[k] == d[k - 22];
      }
    }
  }

  /** BuildAlphabet(true, false, true, true, "") is the default alphabet of GenerateCodeString. */
  lemma UpperDigitsUnambiguous()
    ensures Alphabet(true, false, true, true, "") == DefaultAlphabet
  {
    var keep := c => !Excluded(c, true, "");
    var u, d := Ascii.Upper(), Ascii.Digits();
    assert Alphabet(true, false, true, true, "") == Collections.Kept(u + d, keep) by {
      AlphabetOrder(true, false, true, true, "");
      assert Selected(true, false, true) == u + d;
    }
    assert KeepsRangeBut(keep, 'A', 'Z', {'I', 'O'}) && KeepsRangeBut(keep, '0', '9', {'0', '1'}) by {
      forall c
        ensures keep(c) <==> !(c == 'O' || c == '0' || c == 'I' || c == '1' || c == 'l')
      {
        AmbiguousChars(c);
      }
    }
    Ascii.UpperAt();
    Ascii.DigitsAt();
    KeptAppend(u, d, keep);
    KeptUpperUnambiguous(u, keep);
    KeptDigitsUnambiguous(d, keep);
    DefaultAlphabetPieces(u, d);
  }

  /** a-z without a, b, c and l, for any keep that drops exactly those four lower case letters. */
  lemma KeptLowerWithoutABCL(l: string, keep: char -> bool)
    requires Ascii.IsRange(l, 'a', 26)
    requires KeepsRangeBut(keep, 'a', 'z', {'a', 'b', 'c', 'l'})
    ensures Collections.Kept(l, keep) == l[3..11] + l[12..]
  {
    var p, q, r := l[..3], l[3..11], l[12..];
    assert l == p + (q + [l[11]] + r);
    KeptAppend(p, q + [l[11]] + r, keep);
    KeptNone(p, keep);
    assert forall k :: 0 <= k < 8 ==> q[k] == ('a' as int + 3 + k) as char;
    assert forall k :: 0 <= k < 14 ==> r[k] == ('a' as int + 12 + k) as char;
    KeptAllBut(q, l[11], r, keep);
  }

  /** The kept pieces of a-z and 0-9 spell the alphabet of the second BuildAlphabet sample. */
  lemma LowerDigitsPieces(l: string, d: string)
    requires Ascii.IsRange(l, 'a', 26)
    requires Ascii.IsRange(d, '0', 10)
    ensures l[3..11] + l[12..] + d[2..] == "defghijkmnopqrstuvwxyz23456789"
  {
    var want := "defghijkmnopqrstuvwxyz23456789";
    assert |want| == 30 && forall k :: 0 <= k < 30 ==>
      want[k] == if k < 8 then ('a' as int + k + 3) as char
        else if k < 22 then ('a' as int + k + 4) as char
        else ('0' as int + k - 20) as char;
    var p := l[3..11] + l[12..] + d[2..];
    assert |p| == 30;
    forall k | 0 <= k < 30
      ensures p[k] == want[k]
    {
      if k < 8 {
        assert p[k] == l[k + 3];
      } else if k < 22 {
        assert p[k] == l[k + 4];
      } else {
        assert p[k] == d[k - 20];
      }
    }
  }

  /** BuildAlphabet(false, true, true, true, "abc") is a-z and 2-9 without a, b, c and l. */
  lemma LowerDigitsWithoutABC()
    ensures Alphabet(false, true, true, true, "abc") == "defghijkmnopqrstuvwxyz23456789"
  {
    var keep := c => !Excluded(c, true, "abc");
    var l, d := Ascii.Lower(), Ascii.Digits();
    assert Alphabet(false, true, true, true, "abc") == Collections.Kept(l + d, keep) by {
      AlphabetOrder(false, true, true, true, "abc");
      assert Selected(false, true, true) == l + d;
    }
    assert KeepsRangeBut(keep, 'a', 'z', {'a', 'b', 'c', 'l'}) && KeepsRangeBut(keep, '0', '9', {'0', '1'}) by {
      forall c
        ensures keep(c) <==> !(c == 'a' || c == 'b' || c == 'c' || c == 'O' || c == '0' || c == 'I' || c == '1' || c == 'l')
      {
        AmbiguousChars(c);
      }
    }
    Ascii.LowerAt();
    Ascii.DigitsAt();
    KeptAppend(l, d, keep);
    KeptLowerWithoutABCL(l, keep);
    KeptDigitsUnambiguous(d, keep);
    LowerDigitsPieces(l, d);
  }

  /** With no range chosen and nothing excluded the alphabet is A-Z. */
  lemma NoneSelectedNothingExcluded()
    ensures Alphabet(false, false, false, false, "") == Ascii.Upper()
  {
    AlphabetOrder(false, false, false, false, "");
    KeptAll(Ascii.Upper(), c => !Excluded(c, false, ""));
  }

  // ---------------------------------------------------------------------
  // GenerateDigitCodeImagePNG: argument checks

  /** Why the digit image is refused. */
  datatype ImageError = EmptyCode | NonDigit | TooSmall

  /** The first failing check, in the order of the source: empty code, a non-digit, a size under 30x20. */
  function ImageInputError(code: string, width: int, height: int): Option<ImageError>
  {
    if code == [] then Some(EmptyCode)
    else if exists i :: 0 <= i < |code| && !IsDigit(code[i]) then Some(NonDigit)
    else if width < 30 || height < 20 then Some(TooSmall)
    else None
  }

  /** The checks of GenerateDigitCodeImagePNG, scanning the code one character at a time. */
  method CheckImageInput(code: string, width: int, height: int) returns (err: Option<ImageError>)
    ensures err == ImageInputError(code, width, height)
  {
    if code == "" {
      return Some(EmptyCode);
    }
    var i := 0;
    while i < |code|
      invariant 0 <= i <= |code|
      invariant forall j :: 0 <= j < i ==> IsDigit(code[j])
    {
      if code[i] < '0' || code[i] > '9' {
        return Some(NonDigit);
      }
      i := i + 1;
    }
    if width < 30 || height < 20 {
      return Some(TooSmall);
    }
    return None;
  }

  /** The image is made exactly for a non-empty all-digit code on at least 30x20 pixels. */
  lemma ImageInputAccepted(code: string, width: int, height: int)
    ensures ImageInputError(code, width, height) == None <==>
      code != [] && (forall i :: 0 <= i < |code| ==> '0' <= code[i] <= '9') && width >= 30 && height >= 20
  {
  }

  /** "12A" is refused for its letter, and "123" on 20x10 pixels for its size; "1234" on 160x50 is accepted. */
  lemma ImageInputSamples()
    ensures ImageInputError("12A", 120, 40) == Some(NonDigit)
    ensures ImageInputError("123", 20, 10) == Some(TooSmall)
    ensures ImageInputError("1234", 160, 50) == None
  {
    assert !IsDigit("12A"[2]);
  }

  // ---------------------------------------------------------------------
  // Pixels

  /** An 8-bit channel. */
  type uint8 = x: int | 0 <= x < 256

  /** A color.RGBA value. */
  datatype Color = RGBA(r: uint8, g: uint8, b: uint8, a: uint8)

  /** An image.RGBA with bounds (0, 0)-(width, height); a pixel is pix[y, x]. */
  class Image {
    const width: nat
    const height: nat
    const pix: array2<Color>

    ghost predicate Valid()
      reads this
    {
      pix.Length0 == height && pix.Length1 == width
    }

    /** image.NewRGBA(image.Rect(0, 0, width, height)): every pixel transparent black. */
    constructor (width: nat, height: nat)
      ensures Valid() && this.width == width && this.height == height && fresh(pix)
      ensures forall y, x :: 0 <= y < height && 0 <= x < width ==> pix[y, x] == RGBA(0, 0, 0, 0)
    {
      this.width := width;
      this.height := height;
      pix := new Color[height, width]((y, x) => RGBA(0, 0, 0, 0));
    }
  }

  /** A rectangle given by two corners. */
  datatype Rect = Rect(x0: int, y0: int, x1: int, y1: int)

  /** The half-open rectangle between the corners, whichever way round they are given, holds (x, y). */
  predicate Covers(r: Rect, x: int, y: int)
  {
    (if r.x0 <= r.x1 then r.x0 <= x < r.x1 else r.x1 <= x < r.x0)
    && (if r.y0 <= r.y1 then r.y0 <= y < r.y1 else r.y1 <= y < r.y0)
  }

  /**
   * fillRect: order the corners, clip them to the bounds, and paint the
   * pixels of [x0, x1) x [y0, y1) row by row. Exactly the pixels of the image
   * the rectangle covers take the color; all others keep theirs.
   */
  method FillRect(img: Image, x0: int, y0: int, x1: int, y1: int, col: Color)
    requires img.Valid()
    modifies img.pix
    ensures forall y, x :: 0 <= y < img.height && 0 <= x < img.width ==>
      img.pix[y, x] == if Covers(Rect(x0, y0, x1, y1), x, y) then col else old(img.pix[y, x])
  {
    var ax0, ay0, ax1, ay1 := x0, y0, x1, y1;
    if ax0 > ax1 { ax0, ax1 := ax1, ax0; }
    if ay0 > ay1 { ay0, ay1 := ay1, ay0; }
    if ax0 < 0 { ax0 := 0; }
    if ay0 < 0 { ay0 := 0; }
    if ax1 > img.width { ax1 := img.width; }
    if ay1 > img.height { ay1 := img.height; }
    var y := ay0;
    while y < ay1
      invariant ay0 <= y
      invariant forall py, px :: 0 <= py < img.height && 0 <= px < img.width ==>
        img.pix[py, px] == if Covers(Rect(x0, y0, x1, y1), px, py) && py < y then col else old(img.pix[py, px])
      decreases ay1 - y
    {
      var x := ax0;
      while x < ax1
        invariant ax0 <= x
        invariant forall py, px :: 0 <= py < img.height && 0 <= px < img.width ==>
          img.pix[py, px] ==
            if Covers(Rect(x0, y0, x1, y1), px, py) && (py < y || (py == y && px < x)) then col
            else old(img.pix[py, px])
        decreases ax1 - x
      {
        img.pix[y, x] := col;
        x := x + 1;
      }
      y := y + 1;
    }
  }

  // ---------------------------------------------------------------------
  // drawDigit7Seg

  /**
   * The seven segments of a digit cell, with mid = (top + bottom) / 2:
   * 0 top bar, 1 upper left, 2 upper right, 3 middle bar, 4 lower left,
   * 5 lower right, 6 bottom bar.
   */
  function Segment(i: nat, left: int, top: int, right: int, bottom: int, thick: int): Rect
    requires i < 7
  {
    var mid := GoQuo(top + bottom, 2);
    [ Rect(left, top, right, top + thick),
      Rect(left, top, left + thick, mid),
      Rect(right - thick, top, right, mid),
      Rect(left, mid - GoQuo(thick, 2), right, mid + GoQuo(thick, 2)),
      Rect(left, mid, left + thick, bottom),
      Rect(right - thick, mid, right, bottom),
      Rect(left, bottom - thick, right, bottom) ][i]
  }

  /** Which segments each digit lights. */
  const LitTable: seq<seq<bool>> := [
    [true, true, true, false, true, true, true],
    [false, false, true, false, false, true, false],
    [true, false, true, true, true, false, true],
    [true, false, true, true, false, true, true],
    [false, true, true, true, false, true, false],
    [true, true, false, true, false, true, true],
    [true, true, false, true, true, true, true],
    [true, false, true, false, false, true, false],
    [true, true, true, true, true, true, true],
    [true, true, true, true, false, true, true]
  ]

  /** Segment i is lit for the digit. */
  predicate Lit(digit: int, i: int)
  {
    0 <= digit <= 9 && 0 <= i < 7 && LitTable[digit][i]
  }

  /** The segments lit for the digit. */
  function LitSegments(digit: int): set<nat>
  {
    set i: nat | i < 7 && Lit(digit, i)
  }

  /** Some lit segment among the first k covers (x, y). */
  predicate PaintedBy(k: nat, digit: int, left: int, top: int, right: int, bottom: int, thick: int, x: int, y: int)
    requires k <= 7
  {
    exists i: nat :: i < k && Lit(digit, i) && Covers(Segment(i, left, top, right, bottom, thick), x, y)
  }

  /**
   * drawDigit7Seg: fill every lit segment of the digit. The pixels some lit
   * segment covers take the color; all others, and every pixel when the
   * digit is outside 0..9, keep theirs.
   */
  method DrawDigit7Seg(img: Image, digit: int, left: int, top: int, right: int, bottom: int, thick: int, col: Color)
    requires img.Valid()
    modifies img.pix
    ensures forall y, x :: 0 <= y < img.height && 0 <= x < img.width ==>
      img.pix[y, x] == if PaintedBy(7, digit, left, top, right, bottom, thick, x, y) then col else old(img.pix[y, x])
    ensures !(0 <= digit <= 9) ==> forall y, x :: 0 <= y < img.height && 0 <= x < img.width ==>
      img.pix[y, x] == old(img.pix[y, x])
  {
    if digit < 0 || digit > 9 {
      return;
    }
    for i := 0 to 7
      invariant forall y, x :: 0 <= y < img.height && 0 <= x < img.width ==>
        img.pix[y, x] == if PaintedBy(i, digit, left, top, right, bottom, thick, x, y) then col else old(img.pix[y, x])
    {
      if LitTable[digit][i] {
        var r := Segment(i, left, top, right, bottom, thick);
        FillRect(img, r.x0, r.y0, r.x1, r.y1, col);
      }
      forall y, x | 0 <= y < img.height && 0 <= x < img.width
        ensures PaintedBy(i + 1, digit, left, top, right, bottom, thick, x, y) <==>
          PaintedBy(i, digit, left, top, right, bottom, thick, x, y)
          || (Lit(digit, i) && Covers(Segment(i, left, top, right, bottom, thick), x, y))
      {
        if PaintedBy(i + 1, digit, left, top, right, bottom, thick, x, y) {
          var j: nat :| j < i + 1 && Lit(digit, j) && Covers(Segment(j, left, top, right, bottom, thick), x, y);
          if j < i {
            assert PaintedBy(i, digit, left, top, right, bottom, thick, x, y);
          }
        }
      }
    }
  }

  /** Eight lights all seven segments and one lights the two on the right. */
  lemma EightAndOne()
    ensures LitSegments(8) == {0, 1, 2, 3, 4, 5, 6}
    ensures LitSegments(1) == {2, 5}
  {
    assert forall i: nat :: i in LitSegments(1) <==> i == 2 || i == 5;
    assert forall i: nat :: i in LitSegments(8) <==> i < 7;
  }

  /** No two digits light the same segments, so each drawn digit can be read back. */
  lemma DigitsDistinguishable(d: int, e: int)
    requires 0 <= d <= 9 && 0 <= e <= 9 && d != e
    ensures LitSegments(d) != LitSegments(e)
  {
    assert LitTable[d] != LitTable[e];
    var i: nat :| i < 7 && LitTable[d][i] != LitTable[e][i];
    assert i in LitSegments(d) <==> LitTable[d][i];
    assert i in LitSegments(e) <==> LitTable[e][i];
  }

  // ---------------------------------------------------------------------
  // Integer helpers

  /** maxInt: the larger of the two. */
  function MaxInt(a: int, b: int): (r: int)
    ensures r >= a && r >= b && (r == a || r == b)
  {
    if a > b then a else b
  }

  /** absInt: the magnitude. */
  function AbsInt(v: int): (r: int)
    ensures r >= 0 && (r == v || r == -v)
  {
    Abs(v)
  }
}
