// The ASCII ranges the captcha and random-string alphabets are built from.

module Ascii {
  /** A-Z. */
  function Upper(): (s: string)
    ensures |s| == 26
  {
    seq(26, k requires 0 <= k < 26 => ('A' as int + k) as char)
  }
  /** a-z. */
  function Lower(): (s: string)
    ensures |s| == 26
  {
    seq(26, k requires 0 <= k < 26 => ('a' as int + k) as char)
  }
  /** 0-9. */
  function Digits(): (s: string)
    ensures |s| == 10
  {
    seq(10, k requires 0 <= k < 10 => ('0' as int + k) as char)
  }

  /** s holds the n characters from first on, in order. */
  predicate IsRange(s: string, first: char, n: nat)
  {
    |s| == n && first as int + n <= 0xD800 && forall k :: 0 <= k < n ==> s[k] == (first as int + k) as char
  }

  lemma UpperAt()
    ensures IsRange(Upper(), 'A', 26)
  {
  }

  lemma LowerAt()
    ensures IsRange(Lower(), 'a', 26)
  {
  }

  lemma DigitsAt()
    ensures IsRange(Digits(), '0', 10)
  {
  }

  /** Each range holds exactly its characters. */
  lemma Ranges(c: char)
    ensures c in Upper() <==> 'A' <= c <= 'Z'
    ensures c in Lower() <==> 'a' <= c <= 'z'
    ensures c in Digits() <==> '0' <= c <= '9'
  {
    UpperAt();
    LowerAt();
    DigitsAt();
    if 'A' <= c <= 'Z' {
      assert Upper()[c as int - 'A' as int] == c;
    }
    if 'a' <= c <= 'z' {
      assert Lower()[c as int - 'a' as int] == c;
    }
    if '0' <= c <= '9' {
      assert Digits()[c as int - '0' as int] == c;
    }
  }

  /** No character repeats within a range. */
  lemma RangesDistinct()
    ensures forall i, j :: 0 <= i < j < |Upper()| ==> Upper()[i] != Upper()[j]
    ensures forall i, j :: 0 <= i < j < |Lower()| ==> Lower()[i] != Lower()[j]
    ensures forall i, j :: 0 <= i < j < |Digits()| ==> Digits()[i] != Digits()[j]
  {
    UpperAt();
    LowerAt();
    DigitsAt();
  }
}
