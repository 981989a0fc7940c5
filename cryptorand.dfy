// The random helpers of cryptorand (cryptorand/crypto_rand_util.go) with
// their randomness supplied as inputs: the value math/rand's Intn returned,
// the bytes crypto/rand read (or the indices the math/rand fallback drew),
// and the sixteen bytes a UUID starts from. The hash helpers are library
// calls and are not part of this model.

module CryptoRand {
  import opened GoStd
  import opened Wrappers
  import Seqs
  import Ascii

  // ---------------------------------------------------------------------
  // RandomInt

  /**
   * RandomInt(min, max), with min as lo and max as hi: lo when hi < lo,
   * otherwise lo plus what mrand.Intn(hi-lo+1) returned, pick, which is below hi-lo+1.
   */
  function RandomInt(lo: int, hi: int, pick: nat): (v: int)
    requires lo <= hi ==> pick <= hi - lo
    ensures hi < lo ==> v == lo
    ensures lo <= hi ==> lo <= v <= hi
    ensures lo == hi ==> v == lo
  {
    if hi < lo then lo else lo + pick
  }

  /** Every value of [lo, hi] is what RandomInt gives for some draw of Intn. */
  lemma RandomIntReaches(lo: int, hi: int, v: int)
    requires lo <= v <= hi
    ensures RandomInt(lo, hi, v - lo) == v
  {
  }

  /**
   * RandomInt as written on 64-bit ints: hi-lo+1 wraps around, and Intn
   * panics (None here) when the count it is given is not positive.
   */
  function RandomIntAsWritten(lo: int, hi: int, pick: nat): (r: Option<int>)
    requires MinInt64 <= lo <= MaxInt64 && MinInt64 <= hi <= MaxInt64
    requires lo <= hi && WrapInt64(hi - lo + 1) > 0 ==> pick < WrapInt64(hi - lo + 1)
  {
    if hi < lo then Some(lo)
    else
      var n := WrapInt64(hi - lo + 1);
      if n <= 0 then None else Some(lo + pick)
  }

  /** Below the wrap-around the code as written agrees with RandomInt. */
  lemma RandomIntAsWrittenAgrees(lo: int, hi: int, pick: nat)
    requires MinInt64 <= lo <= MaxInt64 && MinInt64 <= hi <= MaxInt64
    requires hi < lo || (hi - lo < MaxInt64 && pick <= hi - lo)
    ensures RandomIntAsWritten(lo, hi, pick) == Some(RandomInt(lo, hi, pick))
  {
  }

  /** A range of 2^63 or more values makes hi-lo+1 wrap to a count Intn refuses. */
  lemma RandomIntAsWrittenPanics(lo: int, hi: int, pick: nat)
    requires MinInt64 <= lo <= MaxInt64 && MinInt64 <= hi <= MaxInt64
    requires hi - lo >= MaxInt64
    ensures RandomIntAsWritten(lo, hi, pick) == None
  {
    var n := WrapInt64(hi - lo + 1);
    assert n == hi - lo + 1 - TwoTo64 by {
      assert MinInt64 <= hi - lo + 1 - TwoTo64 <= MaxInt64;
      assert (hi - lo + 1 - n) % TwoTo64 == 0;
    }
  }

  /** RandomInt(0, math.MaxInt64): the whole non-negative int64 range is one such input. */
  lemma NonNegativeRangePanics()
    ensures RandomIntAsWritten(0, MaxInt64, 0) == None
  {
    RandomIntAsWrittenPanics(0, MaxInt64, 0);
  }

  // ---------------------------------------------------------------------
  // RandomString

  /** The letter at index k of the alphabet: a-z, then A-Z, then 0-9. */
  function LetterAt(k: nat): (c: char)
    requires k < 62
    ensures IsLetter(c)
  {
    if k < 26 then ('a' as int + k) as char
    else if k < 52 then ('A' as int + (k - 26)) as char
    else ('0' as int + (k - 52)) as char
  }

  /** letters: the 62 characters RandomString draws from, a-z, A-Z and 0-9. */
  const Letters: string := Ascii.Lower() + Ascii.Upper() + Ascii.Digits()

  /** The alphabet, position by position. */
  lemma LettersAt()
    ensures |Letters| == 62 && forall k :: 0 <= k < 62 ==> Letters[k] == LetterAt(k)
  {
    Ascii.LowerAt();
    Ascii.UpperAt();
    Ascii.DigitsAt();
  }

  /** An ASCII letter or digit. */
  predicate IsLetter(c: char)
  {
    'a' <= c <= 'z' || 'A' <= c <= 'Z' || '0' <= c <= '9'
  }

  /** The position of a letter or digit in the alphabet. */
  function LetterIndex(c: char): (k: nat)
    requires IsLetter(c)
    ensures k < 62 && Letters[k] == c
  {
    LettersAt();
    if 'a' <= c <= 'z' then c as int - 'a' as int
    else if 'A' <= c <= 'Z' then 26 + (c as int - 'A' as int)
    else 52 + (c as int - '0' as int)
  }

  /** The alphabet holds exactly the ASCII letters and digits. */
  lemma LettersAreLetters(c: char)
    ensures c in Letters <==> IsLetter(c)
  {
    LettersAt();
    if c in Letters {
      var k :| 0 <= k < 62 && Letters[k] == c;
      assert LetterAt(k) == c;
    }
    if IsLetter(c) {
      assert Letters[LetterIndex(c)] == c;
    }
  }

  /**
   * One draw for one character: the byte crypto/rand read, or, when that
   * read failed, the index mrand.Intn(len(alphabet)) returned.
   */
  datatype Draw = CryptoByte(b: nat) | MathIndex(k: nat)

  /** What the two random sources can return for an alphabet of n characters. */
  predicate ValidDraw(d: Draw, n: nat)
  {
    match d
    case CryptoByte(b) => b < 256
    case MathIndex(k) => k < n
  }

  /** Enough valid draws for every character asked for. */
  predicate DrawsFor(length: int, draws: seq<Draw>, n: nat)
  {
    length <= |draws| && forall i :: 0 <= i < length ==> ValidDraw(draws[i], n)
  }

  /** The character a draw selects: the byte modulo the alphabet's length, or the index itself. */
  function Pick(alphabet: string, d: Draw): (c: char)
    requires alphabet != [] && ValidDraw(d, |alphabet|)
    ensures c in alphabet
  {
    match d
    case CryptoByte(b) => alphabet[b % |alphabet|]
    case MathIndex(k) => alphabet[k]
  }

  /** One picked character per draw. */
  function Picks(alphabet: string, length: nat, draws: seq<Draw>): (s: string)
    requires alphabet != [] && DrawsFor(length, draws, |alphabet|)
    ensures |s| == length
    ensures forall i :: 0 <= i < length ==> s[i] == Pick(alphabet, draws[i])
  {
    seq(length, i requires 0 <= i < length => Pick(alphabet, draws[i]))
  }

  /** The string RandomString returns: empty for length <= 0, else one letter per draw. */
  function RandomText(length: int, draws: seq<Draw>): (s: string)
    requires length > 0 ==> DrawsFor(length, draws, |Letters|)
  {
    if length <= 0 then [] else Picks(Letters, length, draws)
  }

  /** RandomString: fill a buffer of length bytes, one draw each. */
  method RandomString(length: int, draws: seq<Draw>) returns (s: string)
    requires length > 0 ==> DrawsFor(length, draws, |Letters|)
    ensures s == RandomText(length, draws)
  {
    if length <= 0 {
      return "";
    }
    var b := new char[length];
    var i := 0;
    while i < length
      invariant 0 <= i <= length
      invariant forall j :: 0 <= j < i ==> b[j] == Pick(Letters, draws[j])
    {
      match draws[i] {
        case MathIndex(k) =>
          b[i] := Letters[k];
        case CryptoByte(rb) =>
          var idx := rb % |Letters|;
          b[i] := Letters[idx];
      }
      i := i + 1;
    }
    s := b[..];
  }

  /** The text has max(length, 0) characters, each an ASCII letter or digit. */
  lemma RandomTextShape(length: int, draws: seq<Draw>)
    requires length > 0 ==> DrawsFor(length, draws, |Letters|)
    ensures |RandomText(length, draws)| == if length <= 0 then 0 else length
    ensures forall i :: 0 <= i < |RandomText(length, draws)| ==> IsLetter(RandomText(length, draws)[i])
  {
    LettersAt();
  }

  /** Bytes that select each character of t. */
  function BytesFor(t: string): (draws: seq<Draw>)
    requires forall i :: 0 <= i < |t| ==> IsLetter(t[i])
    ensures |draws| == |t|
    ensures forall i :: 0 <= i < |t| ==> draws[i] == CryptoByte(LetterIndex(t[i]))
  {
    seq(|t|, i requires 0 <= i < |t| => CryptoByte(LetterIndex(t[i])))
  }

  /** Every non-empty string of ASCII letters and digits is what RandomString returns for some bytes. */
  lemma RandomTextReaches(t: string)
    requires t != [] && forall i :: 0 <= i < |t| ==> IsLetter(t[i])
    ensures DrawsFor(|t|, BytesFor(t), |Letters|)
    ensures RandomText(|t|, BytesFor(t)) == t
  {
    var draws := BytesFor(t);
    forall i | 0 <= i < |t|
      ensures ValidDraw(draws[i], |Letters|) && Pick(Letters, draws[i]) == t[i]
    {
      var k := LetterIndex(t[i]);
      assert draws[i] == CryptoByte(k);
      assert k % 62 == k;
    }
  }

  // ---------------------------------------------------------------------
  // UUIDv4 (section 4.4 of RFC 4122)

  /** A byte. */
  type byte = b: int | 0 <= b < 256

  /**
   * The version and variant bits set over the sixteen random bytes:
   * (u[6] & 0x0f) | 0x40 keeps the low nibble under a high nibble of 4, and
   * (u[8] & 0x3f) | 0x80 keeps the low six bits under the bits 10.
   */
  function Stamp(u: seq<byte>): (v: seq<byte>)
    requires |u| == 16
  {
    u[6 := u[6] % 16 + 0x40][8 := u[8] % 64 + 0x80]
  }

  /** The masks of the source, on bit-vectors, are the arithmetic of Stamp. */
  lemma StampMasks(b: bv8)
    ensures ((b & 0x0f) | 0x40) as int == b as int % 16 + 0x40
    ensures ((b & 0x3f) | 0x80) as int == b as int % 64 + 0x80
  {
  }

  /**
   * The version in the high nibble of byte 6 is 4 (section 4.1.3 of RFC
   * 4122), the two high bits of byte 8 are 10 (the variant of section 4.1.1),
   * and every other bit is the random input's.
   */
  lemma StampBits(u: seq<byte>)
    requires |u| == 16
    ensures var v := Stamp(u);
            && |v| == 16
            && v[6] / 16 == 4 && v[6] % 16 == u[6] % 16
            && v[8] / 64 == 2 && v[8] % 64 == u[8] % 64
            && forall i :: 0 <= i < 16 && i != 6 && i != 8 ==> v[i] == u[i]
  {
  }

  /** Stamping bytes that already carry the version and variant changes nothing. */
  lemma StampIdempotent(u: seq<byte>)
    requires |u| == 16
    ensures Stamp(Stamp(u)) == Stamp(u)
  {
    StampBits(u);
  }

  /** An ASCII lower-case hexadecimal digit. */
  predicate IsLowerHex(c: char)
  {
    '0' <= c <= '9' || 'a' <= c <= 'f'
  }

  /** Only such digits. */
  predicate AllHex(s: string)
  {
    forall i :: 0 <= i < |s| ==> IsLowerHex(s[i])
  }

  /** The digit encoding/hex writes for n < 16. */
  function HexDigit(n: int): (c: char)
    requires 0 <= n < 16
    ensures IsLowerHex(c)
  {
    if n < 10 then ('0' as int + n) as char else ('a' as int + n - 10) as char
  }

  /** The value of a lower-case hexadecimal digit. */
  function HexValue(c: char): (n: int)
    requires IsLowerHex(c)
    ensures 0 <= n < 16
  {
    if c <= '9' then c as int - '0' as int else c as int - 'a' as int + 10
  }

  /** hex.EncodeToString: two digits per byte, high nibble first. */
  function HexEncode(bs: seq<byte>): (s: string)
    ensures |s| == 2 * |bs| && AllHex(s)
    ensures forall i :: 0 <= i < |bs| ==> s[2 * i] == HexDigit(bs[i] / 16) && s[2 * i + 1] == HexDigit(bs[i] % 16)
  {
    if bs == [] then [] else [HexDigit(bs[0] / 16), HexDigit(bs[0] % 16)] + HexEncode(bs[1..])
  }

  /** Hexadecimal text back to bytes, two digits at a time. */
  function HexDecode(s: string): (bs: seq<byte>)
    requires |s| % 2 == 0 && AllHex(s)
    ensures |bs| == |s| / 2
  {
    if s == [] then [] else [16 * HexValue(s[0]) + HexValue(s[1])] + HexDecode(s[2..])
  }

  /** Decoding the hexadecimal text gives the bytes back. */
  lemma {:induction false} HexRoundTrip(bs: seq<byte>)
    ensures HexDecode(HexEncode(bs)) == bs
  {
    if bs != [] {
      HexRoundTrip(bs[1..]);
      var s := HexEncode(bs);
      assert s[2..] == HexEncode(bs[1..]);
      assert HexValue(s[0]) == bs[0] / 16 && HexValue(s[1]) == bs[0] % 16;
    }
  }

  /** The text of the bytes of a + b is the text of a then the text of b. */
  lemma {:induction false} HexEncodeAppend(a: seq<byte>, b: seq<byte>)
    ensures HexEncode(a + b) == HexEncode(a) + HexEncode(b)
  {
    if a != [] {
      HexEncodeAppend(a[1..], b);
      assert (a + b)[0] == a[0] && (a + b)[1..] == a[1..] + b;
      Seqs.AppendAssoc([HexDigit(a[0] / 16), HexDigit(a[0] % 16)], HexEncode(a[1..]), HexEncode(b));
    } else {
      assert a + b == b;
    }
  }

  /** The groups of 4, 2, 2, 2 and 6 bytes, each as hexadecimal text. */
  function Groups(v: seq<byte>): (gs: seq<string>)
    requires |v| == 16
    ensures |gs| == 5 && forall i :: 0 <= i < 5 ==> |gs[i]| == GroupSizes[i] && AllHex(gs[i])
  {
    [HexEncode(v[0..4]), HexEncode(v[4..6]), HexEncode(v[6..8]), HexEncode(v[8..10]), HexEncode(v[10..16])]
  }

  /** The digits per group: the 8-4-4-4-12 layout. */
  const GroupSizes: seq<nat> := [8, 4, 4, 4, 12]

  /** UUIDv4: the stamped groups joined by '-'. */
  function UUIDText(u: seq<byte>): (s: string)
    requires |u| == 16
  {
    Join(Groups(Stamp(u)), "-")
  }

  /** The strings one after the other. */
  function Concat(gs: seq<string>): string
  {
    if gs == [] then [] else gs[0] + Concat(gs[1..])
  }

  /**
   * Reading hexadecimal groups of the given sizes separated by single '-':
   * the digits of all groups together, or None when the text does not have
   * that layout.
   */
  function ParseGroups(s: string, sizes: seq<nat>): (r: Option<string>)
    ensures r.Some? ==> AllHex(r.value) && |r.value| + |sizes| - 1 == |s|
    decreases |sizes|
  {
    if sizes == [] || |s| < sizes[0] || !AllHex(s[..sizes[0]]) then None
    else if |sizes| == 1 then (if |s| == sizes[0] then Some(s) else None)
    else if |s| == sizes[0] || s[sizes[0]] != '-' then None
    else
      match ParseGroups(s[sizes[0] + 1..], sizes[1..])
      case None => None
      case Some(rest) => Some(s[..sizes[0]] + rest)
  }

  /** Reading a UUID text back: its digits decoded, or None when the layout is wrong. */
  function ParseUUID(s: string): (r: Option<seq<byte>>)
  {
    match ParseGroups(s, GroupSizes)
    case None => None
    case Some(d) => if |d| == 32 then Some(HexDecode(d)) else None
  }

  /** Groups of the given sizes, joined by '-', read back as their digits. */
  lemma {:induction false} ParseJoin(gs: seq<string>, sizes: seq<nat>)
    requires |gs| == |sizes| >= 1
    requires forall i :: 0 <= i < |gs| ==> |gs[i]| == sizes[i] && AllHex(gs[i])
    ensures ParseGroups(Join(gs, "-"), sizes) == Some(Concat(gs))
    decreases |gs|
  {
    var s := Join(gs, "-");
    if |gs| == 1 {
      assert gs[1..] == [];
      assert s == gs[0];
      assert s[..sizes[0]] == gs[0];
      assert Concat(gs) == gs[0] + [] == gs[0];
    } else {
      var rest := Join(gs[1..], "-");
      assert s == gs[0] + "-" + rest;
      assert s[..sizes[0]] == gs[0];
      assert s[sizes[0]] == '-';
      assert s[sizes[0] + 1..] == rest;
      ParseJoin(gs[1..], sizes[1..]);
    }
  }

  /** Five strings one after the other. */
  lemma ConcatFive(gs: seq<string>)
    requires |gs| == 5
    ensures Concat(gs) == gs[0] + (gs[1] + (gs[2] + (gs[3] + gs[4])))
  {
    var t1, t2, t3, t4 := gs[1..], gs[2..], gs[3..], gs[4..];
    assert t1[1..] == t2 && t2[1..] == t3 && t3[1..] == t4 && t4[1..] == [];
    assert Concat(t4) == gs[4] + [] == gs[4];
    assert Concat(t3) == gs[3] + Concat(t4);
    assert Concat(t2) == gs[2] + Concat(t3);
    assert Concat(t1) == gs[1] + Concat(t2);
    assert Concat(gs) == gs[0] + Concat(t1);
  }

  /** The digits of the groups are the hexadecimal text of all sixteen bytes. */
  lemma GroupDigits(v: seq<byte>)
    requires |v| == 16
    ensures Concat(Groups(v)) == HexEncode(v)
  {
    ConcatFive(Groups(v));
    HexEncodeAppend(v[8..10], v[10..16]);
    assert v[8..10] + v[10..16] == v[8..];
    HexEncodeAppend(v[6..8], v[8..]);
    assert v[6..8] + v[8..] == v[6..];
    HexEncodeAppend(v[4..6], v[6..]);
    assert v[4..6] + v[6..] == v[4..];
    HexEncodeAppend(v[0..4], v[4..]);
    assert v[0..4] + v[4..] == v;
  }

  /** Reading the text of UUIDv4 back gives the stamped bytes. */
  lemma UUIDRoundTrip(u: seq<byte>)
    requires |u| == 16
    ensures ParseUUID(UUIDText(u)) == Some(Stamp(u))
  {
    var v := Stamp(u);
    ParseJoin(Groups(v), GroupSizes);
    GroupDigits(v);
    HexRoundTrip(v);
  }

  /**
   * The text is 36 characters of five groups with the 8-4-4-4-12 layout; the
   * third group starts with the version digit '4' and the fourth with 8, 9,
   * a or b.
   */
  lemma UUIDShape(u: seq<byte>)
    requires |u| == 16
    ensures |UUIDText(u)| == 36
    ensures ParseGroups(UUIDText(u), GroupSizes).Some?
    ensures var gs := Groups(Stamp(u));
            gs[2][0] == '4' && gs[3][0] in "89ab"
  {
    var v := Stamp(u);
    StampBits(u);
    var gs := Groups(v);
    ParseJoin(gs, GroupSizes);
    GroupDigits(v);
    assert gs[2][0] == HexDigit(v[6] / 16);
    assert gs[3][0] == HexDigit(v[8] / 16);
    assert v[8] / 16 == 8 || v[8] / 16 == 9 || v[8] / 16 == 10 || v[8] / 16 == 11;
  }
}
