// Behaviour of the Go built-ins and standard-library routines that the
// utility packages call, restated over Dafny integers and sequences.

module GoStd {

  import opened Wrappers
  import Seqs

  function Abs(x: int): (r: nat)
    ensures r == x || r == -x
  {
    if x < 0 then -x else x
  }

  /** Go's integer `/`: the quotient truncated toward zero. */
  function GoQuo(a: int, b: int): (q: int)
    requires b != 0
    ensures Abs(b) * Abs(q) <= Abs(a) < Abs(b) * (Abs(q) + 1)
    ensures q != 0 ==> ((q < 0) <==> ((a < 0) != (b < 0)))
  {
    var q0 := Abs(a) / Abs(b);
    DivBounds(Abs(a), Abs(b));
    if (a < 0) == (b < 0) then q0 else -q0
  }

  lemma DivBounds(n: nat, d: nat)
    requires d > 0
    ensures d * (n / d) <= n < d * (n / d + 1)
  {
    assert n == d * (n / d) + n % d;
  }

  /** Go's integer `%`: the remainder takes the sign of the dividend. */
  function GoRem(a: int, b: int): (r: int)
    requires b != 0
    ensures a == b * GoQuo(a, b) + r
    ensures Abs(r) < Abs(b)
    ensures a >= 0 ==> r >= 0
    ensures a <= 0 ==> r <= 0
  {
    var r0 := Abs(a) % Abs(b);
    var r := if a >= 0 then r0 else -r0;
    TruncatedDivision(a, b, GoQuo(a, b), r);
    r
  }

  /** Truncated quotient and remainder put a back together. */
  lemma {:induction false} TruncatedDivision(a: int, b: int, q: int, r: int)
    requires b != 0
    requires q == if (a < 0) == (b < 0) then Abs(a) / Abs(b) else -(Abs(a) / Abs(b))
    requires r == if a >= 0 then Abs(a) % Abs(b) else -(Abs(a) % Abs(b))
    ensures a == b * q + r
  {
    var n, d := Abs(a), Abs(b);
    var q0: int, r0: int := n / d, n % d;
    assert n == d * q0 + r0;
    if b < 0 {
      assert b * q == d * -q;
    }
  }

  /** For a non-negative dividend and a positive divisor Go's operators agree with Dafny's. */
  lemma GoDivNonNegative(a: int, b: int)
    requires a >= 0 && b > 0
    ensures GoQuo(a, b) == a / b && GoRem(a, b) == a % b
  {
  }

  // ---------------------------------------------------------------------
  // Decimal digits (strconv)

  predicate IsDigit(c: char)
  {
    '0' <= c <= '9'
  }

  function DigitValue(c: char): (v: int)
    requires IsDigit(c)
    ensures 0 <= v <= 9
  {
    c as int - '0' as int
  }

  /** The first n characters of s are decimal digits. */
  predicate DigitsUpTo(s: string, n: int)
  {
    0 <= n <= |s| && forall i :: 0 <= i < n ==> IsDigit(s[i])
  }

  /** The decimal number a string of digits spells. */
  function DecimalValue(s: string): (n: nat)
    requires DigitsUpTo(s, |s|)
  {
    if s == [] then 0 else DecimalValue(s[..|s| - 1]) * 10 + DigitValue(s[|s| - 1])
  }

  /** A two-digit string spells ten times its first digit plus its second. */
  lemma DecimalTwo(s: string)
    requires |s| == 2 && DigitsUpTo(s, 2)
    ensures DecimalValue(s) == 10 * DigitValue(s[0]) + DigitValue(s[1])
  {
    var h := s[..1];
    assert h[..0] == [] && h[0] == s[0] && s[..|s| - 1] == h;
    assert DecimalValue(h) == DigitValue(s[0]);
  }

  /** A four-digit string spells its digits in positional notation. */
  lemma DecimalFour(s: string)
    requires |s| == 4 && DigitsUpTo(s, 4)
    ensures DecimalValue(s) == 1000 * DigitValue(s[0]) + 100 * DigitValue(s[1]) + 10 * DigitValue(s[2]) + DigitValue(s[3])
  {
    DecimalTwo(s[..2]);
    assert s[..3][..2] == s[..2];
  }

  /** A three-digit string spells its digits in positional notation. */
  lemma DecimalThree(s: string)
    requires |s| == 3 && DigitsUpTo(s, 3)
    ensures DecimalValue(s) == 100 * DigitValue(s[0]) + 10 * DigitValue(s[1]) + DigitValue(s[2])
  {
    DecimalTwo(s[..2]);
    assert s[..2] == s[..|s| - 1];
  }

  /** b to the power e. */
  function Pow(b: nat, e: nat): nat
  {
    if e == 0 then 1 else b * Pow(b, e - 1)
  }

  /** The decimal digits of n, most significant first, without leading zeros. */
  function DecimalDigits(n: nat): (s: string)
    ensures s != [] && DigitsUpTo(s, |s|) && DecimalValue(s) == n
    ensures s[0] == '0' ==> n == 0
  {
    if n < 10 then [('0' as int + n) as char]
    else
      var h := DecimalDigits(n / 10);
      var s := h + [('0' as int + n % 10) as char];
      assert s[..|s| - 1] == h;
      s
  }

  const MinInt64: int := -0x8000_0000_0000_0000
  const MaxInt64: int := 0x7fff_ffff_ffff_ffff
  /** One more than the largest uint64. */
  const TwoTo64: int := 0x1_0000_0000_0000_0000

  /** A 64-bit two's-complement result: x reduced into the int64 range. */
  function WrapInt64(x: int): (r: int)
    ensures MinInt64 <= r <= MaxInt64
    ensures MinInt64 <= x <= MaxInt64 ==> r == x
    ensures (x - r) % TwoTo64 == 0
  {
    var m := (x - MinInt64) % TwoTo64;
    m + MinInt64
  }

  /** strconv.Itoa: base-10 digits with a leading '-' for negatives. */
  function Itoa(n: int): (s: string)
  {
    if n < 0 then "-" + DecimalDigits(-n) else DecimalDigits(n)
  }

  /** The text after an optional leading '+' or '-'. */
  function Unsigned(s: string): (body: string)
    ensures |body| <= |s| && body == s[|s| - |body|..]
  {
    if s != [] && (s[0] == '+' || s[0] == '-') then s[1..] else s
  }

  /**
   * strconv.Atoi on a 64-bit platform: an optional sign and at least one
   * decimal digit, nothing else, with a value that fits in an int64.
   */
  function Atoi(s: string): (r: Option<int>)
    ensures r.Some? ==> MinInt64 <= r.value <= MaxInt64
    ensures r.Some? ==> Unsigned(s) != [] && DigitsUpTo(Unsigned(s), |Unsigned(s)|)
    ensures r.Some? ==> r.value == (if s[0] == '-' then -1 else 1) * DecimalValue(Unsigned(s))
  {
    var body := Unsigned(s);
    if body == [] || !DigitsUpTo(body, |body|) then None
    else
      var v: int := DecimalValue(body);
      var n := if s[0] == '-' then -v else v;
      if MinInt64 <= n <= MaxInt64 then Some(n) else None
  }

  /** Atoi reads back every int64 that Itoa writes. */
  lemma AtoiItoa(n: int)
    requires MinInt64 <= n <= MaxInt64
    ensures Atoi(Itoa(n)) == Some(n)
  {
    var s := Itoa(n);
    if n < 0 {
      assert Unsigned(s) == DecimalDigits(-n);
    } else {
      assert Unsigned(s) == DecimalDigits(n);
    }
  }

  // ---------------------------------------------------------------------
  // Strings. A Go string is modelled as its sequence of runes.

  /** unicode.IsSpace: the ASCII blanks, U+0085, U+00A0 and Unicode's White_Space characters. */
  predicate IsSpace(c: char)
  {
    || c == '\t' || c == '\n' || c == '\U{000B}' || c == '\U{000C}' || c == '\r' || c == ' '
    || c == '\U{0085}' || c == '\U{00A0}' || c == '\U{1680}'
    || ('\U{2000}' <= c <= '\U{200A}')
    || c == '\U{2028}' || c == '\U{2029}' || c == '\U{202F}' || c == '\U{205F}' || c == '\U{3000}'
  }

  /** The first index at or after i whose rune is not white space; |s| when there is none. */
  function SkipSpace(s: string, i: nat): (j: nat)
    requires i <= |s|
    ensures i <= j <= |s|
    ensures j < |s| ==> !IsSpace(s[j])
    ensures forall k :: i <= k < j ==> IsSpace(s[k])
    decreases |s| - i
  {
    if i < |s| && IsSpace(s[i]) then SkipSpace(s, i + 1) else i
  }

  /** The end of s[lo..hi] once the white space at its end is dropped. */
  function DropSpace(s: string, lo: nat, hi: nat): (j: nat)
    requires lo <= hi <= |s|
    ensures lo <= j <= hi
    ensures j > lo ==> !IsSpace(s[j - 1])
    ensures forall k :: j <= k < hi ==> IsSpace(s[k])
    decreases hi
  {
    if hi > lo && IsSpace(s[hi - 1]) then DropSpace(s, lo, hi - 1) else hi
  }

  /** strings.TrimSpace: s without its leading and trailing white space. */
  function TrimSpace(s: string): (r: string)
    ensures r == [] || (!IsSpace(r[0]) && !IsSpace(r[|r| - 1]))
    ensures var lo := SkipSpace(s, 0);
            && lo + |r| <= |s| && r == s[lo..lo + |r|]
            && (forall i :: 0 <= i < lo ==> IsSpace(s[i]))
            && (forall i :: lo + |r| <= i < |s| ==> IsSpace(s[i]))
  {
    var lo := SkipSpace(s, 0);
    s[lo..DropSpace(s, lo, |s|)]
  }

  /** A string with no white space at either end trims to itself. */
  lemma TrimSpaceOfTrimmed(s: string)
    requires s == [] || (!IsSpace(s[0]) && !IsSpace(s[|s| - 1]))
    ensures TrimSpace(s) == s
  {
    if s != [] {
      assert SkipSpace(s, 0) == 0;
      assert DropSpace(s, 0, |s|) == |s|;
    }
  }

  /** Trimming twice trims nothing more. */
  lemma TrimSpaceIdempotent(s: string)
    ensures TrimSpace(TrimSpace(s)) == TrimSpace(s)
  {
    TrimSpaceOfTrimmed(TrimSpace(s));
  }

  /** A string that starts with a non-space rune does not trim to nothing. */
  lemma TrimmedNonEmpty(s: string)
    requires s != [] && !IsSpace(s[0])
    ensures TrimSpace(s) != []
  {
    assert SkipSpace(s, 0) == 0;
  }

  /** Trimming adds no rune. */
  lemma TrimSpaceAvoids(s: string, c: char)
    requires c !in s
    ensures c !in TrimSpace(s)
  {
    var r := TrimSpace(s);
    var lo := SkipSpace(s, 0);
    forall j | 0 <= j < |r|
      ensures r[j] != c
    {
      assert r[j] == s[lo + j];
    }
  }

  /** Only a string of white space trims to nothing. */
  lemma TrimSpaceEmpty(s: string)
    ensures TrimSpace(s) == [] <==> forall i :: 0 <= i < |s| ==> IsSpace(s[i])
  {
    var lo := SkipSpace(s, 0);
    if lo < |s| {
      assert !IsSpace(s[lo]);
    }
  }

  /** unicode.ToLower restricted to ASCII: an upper-case letter becomes its lower-case form. */
  function LowerRune(c: char): char
  {
    if 'A' <= c <= 'Z' then c - 'A' + 'a' else c
  }

  /** unicode.ToUpper restricted to ASCII: a lower-case letter becomes its upper-case form. */
  function UpperRune(c: char): char
  {
    if 'a' <= c <= 'z' then c - 'a' + 'A' else c
  }

  /** ASCII letters lower-cased; every other rune unchanged. */
  function ToLowerAscii(s: string): (r: string)
    ensures |r| == |s|
    ensures forall i :: 0 <= i < |s| ==> r[i] == LowerRune(s[i])
  {
    seq(|s|, i requires 0 <= i < |s| => LowerRune(s[i]))
  }

  /** ASCII letters upper-cased; every other rune unchanged. */
  function ToUpperAscii(s: string): (r: string)
    ensures |r| == |s|
    ensures forall i :: 0 <= i < |s| ==> r[i] == UpperRune(s[i])
  {
    seq(|s|, i requires 0 <= i < |s| => UpperRune(s[i]))
  }

  /** strings.Repeat: n copies of p. */
  function Repeat(p: string, n: nat): (r: string)
    ensures |r| == n * |p|
    ensures forall c :: c in r ==> c in p
    ensures |p| == 1 ==> forall i :: 0 <= i < |r| ==> r[i] == p[0]
  {
    if n == 0 then [] else p + Repeat(p, n - 1)
  }

  /** strings.IndexByte and strings.IndexRune: the first position of c in s, or -1. */
  function IndexRune(s: string, c: char): (i: int)
    ensures -1 <= i < |s|
    ensures i >= 0 ==> s[i] == c
    ensures forall j :: 0 <= j < |s| && (i == -1 || j < i) ==> s[j] != c
  {
    if s == [] then -1
    else if s[0] == c then 0
    else
      var k := IndexRune(s[1..], c);
      if k < 0 then -1 else k + 1
  }

  /** The first c in a + [c] + b is the one after a, when a has none. */
  lemma IndexRuneAfter(a: string, c: char, b: string)
    requires c !in a
    ensures IndexRune(a + [c] + b, c) == |a|
  {
    var s := a + [c] + b;
    assert s[|a|] == c;
    forall j | 0 <= j < |a|
      ensures s[j] != c
    {
      assert s[j] == a[j];
    }
  }

  /** strings.TrimPrefix: s without p in front, when p is in front. */
  function TrimPrefix(s: string, p: string): (r: string)
    ensures r == s || (|p| <= |s| && s == p + r)
  {
    if |p| <= |s| && s[..|p|] == p then s[|p|..] else s
  }

  /** A string that does not start like p keeps its front. */
  lemma TrimPrefixMismatch(s: string, p: string)
    requires p != [] && (s == [] || s[0] != p[0])
    ensures TrimPrefix(s, p) == s
  {
    if |p| <= |s| {
      assert s[..|p|][0] != p[0];
    }
  }

  /** sep occurs in s at position i. */
  predicate OccursAt(s: string, sep: string, i: int)
  {
    0 <= i && i + |sep| <= |s| && s[i..i + |sep|] == sep
  }

  /** strings.Index: the first position of sep in s, or -1. */
  function Index(s: string, sep: string): (i: int)
    ensures i == -1 || OccursAt(s, sep, i)
    ensures forall j :: 0 <= j && (i == -1 || j < i) ==> !OccursAt(s, sep, j)
  {
    if |s| < |sep| then -1
    else if s[..|sep|] == sep then 0
    else
      var k := Index(s[1..], sep);
      assert forall j :: 1 <= j ==> (OccursAt(s, sep, j) <==> OccursAt(s[1..], sep, j - 1)) by {
        forall j | 1 <= j ensures OccursAt(s, sep, j) <==> OccursAt(s[1..], sep, j - 1) {
          if j + |sep| <= |s| {
            assert s[1..][j - 1..j - 1 + |sep|] == s[j..j + |sep|];
          }
        }
      }
      if k < 0 then -1 else k + 1
  }

  /** strings.Split for a non-empty separator: the pieces between its occurrences. */
  function SplitOn(s: string, sep: string): (parts: seq<string>)
    requires sep != []
    ensures |parts| >= 1
    decreases |s|
  {
    var i := Index(s, sep);
    if i < 0 then [s] else [s[..i]] + SplitOn(s[i + |sep|..], sep)
  }

  /** strings.Split: an empty separator splits after every rune. */
  function Split(s: string, sep: string): (parts: seq<string>)
  {
    if sep != [] then SplitOn(s, sep) else seq(|s|, i requires 0 <= i < |s| => [s[i]])
  }

  /** strings.Join: the parts with sep between neighbours. */
  function Join(parts: seq<string>, sep: string): (r: string)
  {
    if parts == [] then []
    else if |parts| == 1 then parts[0]
    else parts[0] + sep + Join(parts[1..], sep)
  }

  /** Joining one more part puts sep and the part after the join of the others. */
  lemma {:induction false} JoinSnoc(parts: seq<string>, x: string, sep: string)
    requires parts != []
    ensures Join(parts + [x], sep) == Join(parts, sep) + sep + x
    decreases |parts|
  {
    if |parts| == 1 {
      assert (parts + [x])[1..] == [x];
    } else {
      assert (parts + [x])[1..] == parts[1..] + [x];
      JoinSnoc(parts[1..], x, sep);
    }
  }

  /** The join of two or more parts ends with sep and the last part. */
  lemma JoinLast(parts: seq<string>, sep: string)
    requires |parts| >= 2
    ensures Join(parts, sep) == Join(parts[..|parts| - 1], sep) + sep + parts[|parts| - 1]
  {
    Seqs.Snoc(parts);
    JoinSnoc(parts[..|parts| - 1], parts[|parts| - 1], sep);
  }

  /** Joining the pieces of a split with the same separator gives back the string. */
  lemma {:induction false} JoinSplit(s: string, sep: string)
    requires sep != []
    ensures Join(SplitOn(s, sep), sep) == s
    decreases |s|
  {
    var i := Index(s, sep);
    if i >= 0 {
      var rest := s[i + |sep|..];
      var parts := SplitOn(rest, sep);
      JoinSplit(rest, sep);
      assert SplitOn(s, sep) == [s[..i]] + parts;
      assert ([s[..i]] + parts)[1..] == parts;
      assert Join(SplitOn(s, sep), sep) == s[..i] + sep + Join(parts, sep);
      assert s == s[..i] + s[i..i + |sep|] + rest;
    }
  }

  /** The text before the first occurrence of sep does not contain sep. */
  lemma BeforeFirstAvoidsSep(s: string, sep: string, i: int)
    requires sep != [] && i == Index(s, sep) && i >= 0
    ensures Index(s[..i], sep) == -1
  {
    var p := s[..i];
    var k := Index(p, sep);
    if k != -1 {
      assert p[k..k + |sep|] == s[k..k + |sep|];
      assert OccursAt(s, sep, k);
    }
  }

  /** No piece of a split contains the separator. */
  lemma {:induction false} SplitPiecesAvoidSep(s: string, sep: string)
    requires sep != []
    ensures forall p :: p in SplitOn(s, sep) ==> Index(p, sep) == -1
    decreases |s|
  {
    var i := Index(s, sep);
    if i >= 0 {
      var rest := s[i + |sep|..];
      SplitPiecesAvoidSep(rest, sep);
      BeforeFirstAvoidsSep(s, sep, i);
      assert SplitOn(s, sep) == [s[..i]] + SplitOn(rest, sep);
    }
  }

  // ---------------------------------------------------------------------
  // UTF-8: the bytes of a string, and the runes a byte sequence reads as

  /** An integer that fits in a byte. */
  predicate IsByte(b: int)
  {
    0 <= b < 256
  }

  /** utf8.RuneError, the rune an invalid encoding reads as. */
  const ReplacementChar: char := '\U{FFFD}'

  /** A Unicode scalar value: a code point that is not a surrogate. */
  predicate IsScalar(n: int)
  {
    0 <= n < 0xD800 || 0xE000 <= n < 0x11_0000
  }

  /** utf8.EncodeRune: one byte below U+0080, two below U+0800, three below U+10000, four above. */
  function EncodeRune(c: char): (r: seq<int>)
    ensures 1 <= |r| <= 4 && forall i :: 0 <= i < |r| ==> IsByte(r[i])
    ensures |r| == 1 <==> c as int < 0x80
  {
    var n := c as int;
    if n < 0x80 then [n]
    else if n < 0x800 then [0xC0 + n / 0x40, 0x80 + n % 0x40]
    else if n < 0x1_0000 then [0xE0 + n / 0x1000, 0x80 + n / 0x40 % 0x40, 0x80 + n % 0x40]
    else [0xF0 + n / 0x4_0000, 0x80 + n / 0x1000 % 0x40, 0x80 + n / 0x40 % 0x40, 0x80 + n % 0x40]
  }

  /** The length of the encoding a leading byte announces, or 0 for a byte no encoding starts with. */
  function LeadWidth(b: int): nat
  {
    if b < 0x80 then 1
    else if 0xC0 <= b < 0xE0 then 2
    else if 0xE0 <= b < 0xF0 then 3
    else if 0xF0 <= b < 0xF8 then 4
    else 0
  }

  /** The code point an encoding's payload bits spell, the leading and continuation markers taken off. */
  function CodePointOf(e: seq<int>): int
    requires 1 <= |e| <= 4
  {
    if |e| == 1 then e[0]
    else if |e| == 2 then (e[0] - 0xC0) * 0x40 + (e[1] - 0x80)
    else if |e| == 3 then (e[0] - 0xE0) * 0x1000 + (e[1] - 0x80) * 0x40 + (e[2] - 0x80)
    else (e[0] - 0xF0) * 0x4_0000 + (e[1] - 0x80) * 0x1000 + (e[2] - 0x80) * 0x40 + (e[3] - 0x80)
  }

  /**
   * utf8.DecodeRune: the first rune of bs and its width. Only the shortest
   * encoding of a scalar value is valid; anything else, an incomplete
   * encoding included, reads as U+FFFD of width 1.
   */
  function DecodeRune(bs: seq<int>): (r: (char, nat))
    requires bs != []
    ensures 1 <= r.1 <= |bs|
    ensures EncodeRune(r.0) == bs[..r.1] || r == (ReplacementChar, 1)
  {
    var w := LeadWidth(bs[0]);
    if w == 0 || w > |bs| then (ReplacementChar, 1)
    else
      var n := CodePointOf(bs[..w]);
      if IsScalar(n) && EncodeRune(n as char) == bs[..w] then (n as char, w) else (ReplacementChar, 1)
  }

  /** []byte(s): the UTF-8 encoding of the string's runes, one after the other. */
  function EncodeRunes(s: string): (bs: seq<int>)
    ensures |s| <= |bs| && forall i :: 0 <= i < |bs| ==> IsByte(bs[i])
  {
    if s == [] then [] else EncodeRune(s[0]) + EncodeRunes(s[1..])
  }

  /** string(bs) as a sequence of runes: what a `for range` over it reads, one DecodeRune at a time. */
  function DecodeRunes(bs: seq<int>): (s: string)
    ensures |s| <= |bs|
    decreases |bs|
  {
    if bs == [] then [] else [DecodeRune(bs).0] + DecodeRunes(bs[DecodeRune(bs).1..])
  }

  /** A byte sequence that is valid UTF-8: no step of the reading hits an invalid encoding. */
  predicate ValidUtf8(bs: seq<int>)
    decreases |bs|
  {
    bs == [] || (DecodeRune(bs) != (ReplacementChar, 1) && ValidUtf8(bs[DecodeRune(bs).1..]))
  }

  /** n's six-bit groups: the quotient by 64 and the remainder put n back together. */
  lemma SixBits(n: int)
    requires 0 <= n
    ensures n == n / 0x40 * 0x40 + n % 0x40 && 0 <= n % 0x40 < 0x40
    ensures n / 0x1000 == n / 0x40 / 0x40 && n / 0x4_0000 == n / 0x1000 / 0x40
  {
  }

  /** A two-byte encoding: a leading byte announcing width 2, then one continuation byte, spelling n. */
  lemma TwoBytes(n: int)
    requires 0x80 <= n < 0x800
    ensures var e := [0xC0 + n / 0x40, 0x80 + n % 0x40];
            LeadWidth(e[0]) == 2 && CodePointOf(e) == n
  {
    SixBits(n);
  }

  /** A three-byte encoding announces width 3 and spells n. */
  lemma ThreeBytes(n: int)
    requires 0x800 <= n < 0x1_0000
    ensures var e := [0xE0 + n / 0x1000, 0x80 + n / 0x40 % 0x40, 0x80 + n % 0x40];
            LeadWidth(e[0]) == 3 && CodePointOf(e) == n
  {
    SixBits(n);
    SixBits(n / 0x40);
  }

  /** A four-byte encoding announces width 4 and spells n. */
  lemma FourBytes(n: int)
    requires 0x1_0000 <= n < 0x11_0000
    ensures var e := [0xF0 + n / 0x4_0000, 0x80 + n / 0x1000 % 0x40, 0x80 + n / 0x40 % 0x40, 0x80 + n % 0x40];
            LeadWidth(e[0]) == 4 && CodePointOf(e) == n
  {
    SixBits(n);
    SixBits(n / 0x40);
    SixBits(n / 0x1000);
  }

  /** The encoding of a rune, whatever follows it, decodes to that rune and its own width. */
  lemma DecodeRuneOfEncoded(c: char, rest: seq<int>)
    ensures DecodeRune(EncodeRune(c) + rest) == (c, |EncodeRune(c)|)
  {
    var e := EncodeRune(c);
    var bs := e + rest;
    assert bs[..|e|] == e;
    var n := c as int;
    if n < 0x80 {
    } else if n < 0x800 {
      TwoBytes(n);
    } else if n < 0x1_0000 {
      ThreeBytes(n);
    } else {
      FourBytes(n);
    }
    assert LeadWidth(bs[0]) == |e| && CodePointOf(e) == n;
    assert (n as char) == c;
  }

  /** string([]byte(s)) == s: the bytes of a string read back as its runes. */
  lemma {:induction false} DecodeEncode(s: string)
    ensures DecodeRunes(EncodeRunes(s)) == s
    ensures ValidUtf8(EncodeRunes(s))
  {
    if s != [] {
      var e := EncodeRune(s[0]);
      var rest := EncodeRunes(s[1..]);
      DecodeRuneOfEncoded(s[0], rest);
      assert (e + rest)[|e|..] == rest;
      DecodeEncode(s[1..]);
    }
  }

  /** []byte(string(bs)) == bs for valid UTF-8: the runes read re-encode to the bytes. */
  lemma {:induction false} EncodeDecode(bs: seq<int>)
    requires ValidUtf8(bs)
    ensures EncodeRunes(DecodeRunes(bs)) == bs
  {
    if bs != [] {
      var (c, w) := DecodeRune(bs);
      EncodeDecode(bs[w..]);
      assert [c] + DecodeRunes(bs[w..]) == DecodeRunes(bs);
      assert ([c] + DecodeRunes(bs[w..]))[1..] == DecodeRunes(bs[w..]);
      assert bs[..w] + bs[w..] == bs;
    }
  }
}
