// String helpers (strutil/strutil.go), on strings as sequences of runes.

module StrUtil {
  import opened Wrappers
  import opened GoStd

  /** IsEmpty: the string is empty once white space is trimmed. */
  function IsEmpty(s: string): (r: bool)
    ensures r <==> forall i :: 0 <= i < |s| ==> IsSpace(s[i])
  {
    TrimSpaceEmpty(s);
    |TrimSpace(s)| == 0
  }

  // ---------------------------------------------------------------------
  // SplitTrimNonEmpty

  /** A piece SplitTrimNonEmpty can return: not empty and with nothing left to trim. */
  predicate TrimmedPiece(p: string)
  {
    p != [] && !IsSpace(p[0]) && !IsSpace(p[|p| - 1])
  }

  /** A trimmed piece is what TrimSpace leaves unchanged. */
  lemma TrimmedPieceIsFixed(p: string)
    requires p != []
    ensures TrimmedPiece(p) <==> TrimSpace(p) == p
  {
    if TrimmedPiece(p) {
      TrimSpaceOfTrimmed(p);
    }
  }

  /** The trimmed pieces that are not empty, in order. */
  function NonEmptyTrimmed(parts: seq<string>): (r: seq<string>)
    ensures |r| <= |parts|
  {
    if parts == [] then []
    else
      var t := TrimSpace(parts[|parts| - 1]);
      if |t| > 0 then NonEmptyTrimmed(parts[..|parts| - 1]) + [t]
      else NonEmptyTrimmed(parts[..|parts| - 1])
  }

  /** Every piece kept is non-empty and already trimmed. */
  lemma {:induction false} NonEmptyTrimmedPieces(parts: seq<string>)
    ensures forall i :: 0 <= i < |NonEmptyTrimmed(parts)| ==> TrimmedPiece(NonEmptyTrimmed(parts)[i])
  {
    if parts != [] {
      var init := parts[..|parts| - 1];
      var t := TrimSpace(parts[|parts| - 1]);
      NonEmptyTrimmedPieces(init);
      if |t| > 0 {
        assert TrimmedPiece(t);
        assert NonEmptyTrimmed(parts) == NonEmptyTrimmed(init) + [t];
      } else {
        assert NonEmptyTrimmed(parts) == NonEmptyTrimmed(init);
      }
    }
  }

  /** SplitTrimNonEmpty: split, trim every piece and keep the non-empty ones. */
  method SplitTrimNonEmpty(s: string, sep: string) returns (out: seq<string>)
    ensures out == NonEmptyTrimmed(Split(s, sep))
    ensures forall i :: 0 <= i < |out| ==> TrimmedPiece(out[i])
  {
    var parts := Split(s, sep);
    out := [];
    var i := 0;
    while i < |parts|
      invariant 0 <= i <= |parts|
      invariant out == NonEmptyTrimmed(parts[..i])
    {
      assert parts[..i + 1][..i] == parts[..i];
      var p := TrimSpace(parts[i]);
      if |p| > 0 {
        out := out + [p];
      }
      i := i + 1;
    }
    assert parts[..i] == parts;
    NonEmptyTrimmedPieces(parts);
  }

  // ---------------------------------------------------------------------
  // Substring, Reverse, padding

  /**
   * Substring as intended: `length` runes from rune `start` (a negative
   * start counts as 0); a negative length runs to the end, a length past
   * the end stops there, and a zero length or a start past the end gives "".
   */
  function SafeSubstring(s: string, start: int, length: int): (r: string)
    ensures var st := if start < 0 then 0 else start;
            && (length == 0 || st >= |s| ==> r == [])
            && (length != 0 && st < |s| ==>
                  && st + |r| <= |s| && r == s[st..st + |r|]
                  && |r| == (if length < 0 || st + length > |s| then |s| - st else length))
  {
    var st := if start < 0 then 0 else start;
    if length == 0 || st >= |s| then []
    else
      var end := if length > 0 && st + length < |s| then st + length else |s|;
      s[st..end]
  }

  /** A non-negative int64 plus an int64 wraps around exactly when the sum leaves the int64 range, and then is negative. */
  lemma WrappedSum(a: int, b: int)
    requires 0 <= a <= MaxInt64 && MinInt64 <= b <= MaxInt64
    ensures a + b <= MaxInt64 ==> WrapInt64(a + b) == a + b
    ensures a + b > MaxInt64 ==> WrapInt64(a + b) == a + b - TwoTo64 < 0
  {
    if a + b > MaxInt64 {
      assert 0 <= a + b - MinInt64 - TwoTo64 < TwoTo64;
    }
  }

  /**
   * Substring as written: SafeSubstring's runes, except that `start +
   * length` is computed on a 64-bit int. When that sum wraps around it is
   * negative, passes the `start+length < end` guard, and indexing the rune
   * positions with it panics: None here.
   */
  function Substring(s: string, start: int, length: int): (r: Option<string>)
    requires MinInt64 <= start <= MaxInt64 && MinInt64 <= length <= MaxInt64
    ensures var st := if start < 0 then 0 else start;
            r.None? <==> length > 0 && st < |s| && st + length > MaxInt64
    ensures r.Some? ==> r.value == SafeSubstring(s, start, length)
  {
    var st := if start < 0 then 0 else start;
    if length == 0 || st >= |s| then Some([])
    else
      WrappedSum(st, length);
      var sum := WrapInt64(st + length);
      var end := if length > 0 && sum < |s| then sum else |s|;
      if end < 0 then None else Some(s[st..end])
  }

  /** The wrap-around: two runes from rune 1 on with the largest length panic, where the rest of the string was meant. */
  lemma SubstringOverflowPanics()
    ensures Substring("ab", 1, MaxInt64) == None
    ensures SafeSubstring("ab", 1, MaxInt64) == "b"
    ensures Substring("ab", 1, MaxInt64 - 1) == Some("b")
  {
  }

  /** The runes of s in reverse order. */
  function Reversed(s: string): (r: string)
    ensures |r| == |s|
    ensures forall k :: 0 <= k < |s| ==> r[k] == s[|s| - 1 - k]
  {
    if s == [] then [] else Reversed(s[1..]) + [s[0]]
  }

  /** Reversing twice gives back the string. */
  lemma ReversedTwice(s: string)
    ensures Reversed(Reversed(s)) == s
  {
  }

  /** Reverse: swap runes from both ends towards the middle, in place. */
  method Reverse(s: string) returns (r: string)
    ensures r == Reversed(s)
  {
    var a := new char[|s|](k requires 0 <= k < |s| => s[k]);
    var i, j := 0, |s| - 1;
    while i < j
      invariant 0 <= i <= |s| && j == |s| - 1 - i && i <= j + 1
      invariant forall k :: 0 <= k < i ==> a[k] == s[|s| - 1 - k] && a[|s| - 1 - k] == s[k]
      invariant forall k :: i <= k <= j ==> a[k] == s[k]
    {
      a[i], a[j] := a[j], a[i];
      i, j := i + 1, j - 1;
    }
    r := a[..];
  }

  /** PadLeft: repeat pad on the left for the missing runes; s unchanged when long enough. */
  function PadLeft(s: string, pad: string, totalLen: int): (r: string)
    ensures |s| >= totalLen ==> r == s
    ensures |s| < totalLen ==> r == Repeat(pad, totalLen - |s|) + s
    ensures |s| < totalLen && |pad| == 1 ==> |r| == totalLen && r[totalLen - |s|..] == s
  {
    if |s| >= totalLen then s else Repeat(pad, totalLen - |s|) + s
  }

  /** PadRight: repeat pad on the right for the missing runes; s unchanged when long enough. */
  function PadRight(s: string, pad: string, totalLen: int): (r: string)
    ensures |s| >= totalLen ==> r == s
    ensures |s| < totalLen ==> r == s + Repeat(pad, totalLen - |s|)
    ensures |s| < totalLen && |pad| == 1 ==> |r| == totalLen && r[..|s|] == s
  {
    if |s| >= totalLen then s else s + Repeat(pad, totalLen - |s|)
  }
}
