/** Bytes, big-endian integers, hexadecimal text and the byte-lexicographic order. */
module Bytes {
  import opened Results

  type Byte = b: int | 0 <= b < 256

  /** A fixed 32-byte value: a node key, a digest, a nonce or a padded tag slot. */
  type Bytes32 = s: seq<Byte> | |s| == 32 witness seq(32, _ => 0)

  type U64 = n: nat | n < 0x1_0000_0000_0000_0000

  type U32 = n: nat | n < 0x1_0000_0000

  function Zeros(n: nat): (z: seq<Byte>)
    ensures |z| == n
    ensures forall i :: 0 <= i < n ==> z[i] == 0
  {
    seq(n, _ => 0)
  }

  /** `text` followed by zeros up to `width` bytes. */
  function Padded(text: seq<Byte>, width: nat): (p: seq<Byte>)
    requires |text| <= width
    ensures |p| == width
  {
    text + Zeros(width - |text|)
  }

  // ---------------------------------------------------------------------
  // Big-endian integers
  // ---------------------------------------------------------------------

  function Pow256(n: nat): (p: nat)
    ensures p > 0
  {
    if n == 0 then 1 else 256 * Pow256(n - 1)
  }

  /** The low `width` base-256 digits of `v`, most significant first. */
  function BigEndian(v: nat, width: nat): (b: seq<Byte>)
    ensures |b| == width
  {
    if width == 0 then [] else BigEndian(v / 256, width - 1) + [v % 256]
  }

  function FromBigEndian(b: seq<Byte>): (v: nat)
    ensures v < Pow256(|b|)
  {
    if b == [] then 0 else FromBigEndian(b[..|b| - 1]) * 256 + b[|b| - 1]
  }

  lemma {:induction false} BigEndianRoundTrip(v: nat, width: nat)
    requires v < Pow256(width)
    ensures FromBigEndian(BigEndian(v, width)) == v
  {
    if width > 0 {
      BigEndianRoundTrip(v / 256, width - 1);
      var b := BigEndian(v, width);
      assert b[..|b| - 1] == BigEndian(v / 256, width - 1);
    }
  }

  lemma DigitSplits(high: nat, low: Byte)
    ensures (high * 256 + low) / 256 == high && (high * 256 + low) % 256 == low
  {
  }

  lemma {:induction false} FromBigEndianRoundTrip(b: seq<Byte>)
    ensures BigEndian(FromBigEndian(b), |b|) == b
  {
    if b != [] {
      var front, last := b[..|b| - 1], b[|b| - 1];
      FromBigEndianRoundTrip(front);
      DigitSplits(FromBigEndian(front), last);
      assert b == front + [last];
    }
  }

  lemma Pow256Values()
    ensures Pow256(4) == 0x1_0000_0000
    ensures Pow256(8) == 0x1_0000_0000_0000_0000
  {
    assert Pow256(2) == 0x1_0000;
    assert Pow256(4) == 0x1_0000_0000;
    assert Pow256(6) == 0x1_0000_0000_0000;
  }

  function U64Bytes(v: U64): (b: seq<Byte>)
    ensures |b| == 8
  {
    BigEndian(v, 8)
  }

  function U32Bytes(v: U32): (b: seq<Byte>)
    ensures |b| == 4
  {
    BigEndian(v, 4)
  }

  function ReadU64(b: seq<Byte>): (v: U64)
    requires |b| == 8
  {
    Pow256Values();
    FromBigEndian(b)
  }

  function ReadU32(b: seq<Byte>): (v: U32)
    requires |b| == 4
  {
    Pow256Values();
    FromBigEndian(b)
  }

  lemma U64RoundTrip(v: U64)
    ensures ReadU64(U64Bytes(v)) == v
  {
    Pow256Values();
    BigEndianRoundTrip(v, 8);
  }

  lemma U32RoundTrip(v: U32)
    ensures ReadU32(U32Bytes(v)) == v
  {
    Pow256Values();
    BigEndianRoundTrip(v, 4);
  }

  // ---------------------------------------------------------------------
  // Hexadecimal text
  // ---------------------------------------------------------------------

  function HexDigit(n: int): char
    requires 0 <= n < 16
  {
    "0123456789abcdef"[n]
  }

  function HexEncode(b: seq<Byte>): (s: string)
    ensures |s| == 2 * |b|
  {
    if b == [] then "" else [HexDigit(b[0] / 16), HexDigit(b[0] % 16)] + HexEncode(b[1..])
  }

  /** The value of one digit; decoding takes either letter case. */
  function HexValue(c: char): (v: Option<int>)
    ensures v.Some? ==> 0 <= v.value < 16
  {
    if '0' <= c <= '9' then Some(c as int - '0' as int)
    else if 'a' <= c <= 'f' then Some(c as int - 'a' as int + 10)
    else if 'A' <= c <= 'F' then Some(c as int - 'A' as int + 10)
    else None
  }

  function HexDecode(s: string): (b: Option<seq<Byte>>)
  {
    if s == "" then Some([])
    else if |s| == 1 then None
    else
      var hi, lo, rest := HexValue(s[0]), HexValue(s[1]), HexDecode(s[2..]);
      if hi.Some? && lo.Some? && rest.Some? then Some([hi.value * 16 + lo.value] + rest.value) else None
  }

  lemma HexDigitValue(n: int)
    requires 0 <= n < 16
    ensures HexValue(HexDigit(n)) == Some(n)
  {
  }

  lemma {:induction false} HexRoundTrip(b: seq<Byte>)
    ensures HexDecode(HexEncode(b)) == Some(b)
  {
    hide HexDigit, HexValue;
    if b != [] {
      HexRoundTrip(b[1..]);
      var s := HexEncode(b);
      assert s[..2] == [HexDigit(b[0] / 16), HexDigit(b[0] % 16)] && s[2..] == HexEncode(b[1..]);
      HexDigitValue(b[0] / 16);
      HexDigitValue(b[0] % 16);
      assert b == [b[0]] + b[1..];
    }
  }

  predicate IsLowerHex(c: char) {
    '0' <= c <= '9' || 'a' <= c <= 'f'
  }

  predicate IsHex(c: char) {
    IsLowerHex(c) || 'A' <= c <= 'F'
  }

  /** Encoding puts the high digit first and writes lower case. */
  lemma {:induction false} EncodingIsLowerCase(b: seq<Byte>)
    ensures IsLowerCase(HexEncode(b))
    ensures HexEncode([0x0F, 0xA9]) == "0fa9"
  {
    if b != [] {
      EncodingIsLowerCase(b[1..]);
    }
    assert HexEncode([0xA9]) == "a9" + HexEncode([]);
    assert [0x0F, 0xA9][1..] == [0xA9];
  }

  lemma DigitDecodes(c: char)
    ensures HexValue(c).Some? <==> IsHex(c)
  {
  }

  /** Whole pairs of digits decode, in either letter case, and nothing else does. */
  lemma {:induction false} DecodableIff(s: string)
    ensures HexDecode(s).Some? <==> |s| % 2 == 0 && forall c :: c in s ==> IsHex(c)
    ensures HexDecode(s).Some? ==> |s| == 2 * |HexDecode(s).value|
  {
    if |s| >= 2 {
      DecodableIff(s[2..]);
      DigitDecodes(s[0]);
      DigitDecodes(s[1]);
      hide HexValue, IsHex;
      assert s == [s[0], s[1]] + s[2..];
      assert forall c :: c in s <==> c == s[0] || c == s[1] || c in s[2..];
    } else if |s| == 1 {
      assert s[0] in s;
    }
  }

  predicate IsLowerCase(s: string) {
    forall c :: c in s ==> IsLowerHex(c)
  }

  lemma LowerCaseSplit(s: string)
    requires |s| >= 2
    ensures IsLowerCase(s) <==> IsLowerHex(s[0]) && IsLowerHex(s[1]) && IsLowerCase(s[2..])
  {
    hide IsLowerHex;
    assert s == [s[0], s[1]] + s[2..];
    assert forall c :: c in s <==> c == s[0] || c == s[1] || c in s[2..];
  }

  /** Decoding forgets the letter case and nothing else: only lower case is restored by encoding. */
  lemma {:induction false} HexRoundTripBack(s: string)
    requires HexDecode(s).Some?
    ensures HexEncode(HexDecode(s).value) == s <==> IsLowerCase(s)
  {
    if s != "" {
      hide HexValue, HexDigit, IsLowerHex, HexEncode, HexDecode, IsLowerCase;
      FirstPairBack(s);
      HexRoundTripBack(s[2..]);
      LowerCaseSplit(s);
      SplitAtTwo(HexEncode(HexDecode(s).value), s);
    }
  }

  lemma SplitAtTwo(t: string, s: string)
    requires |t| >= 2 && |s| >= 2
    ensures t == s <==> t[..2] == s[..2] && t[2..] == s[2..]
  {
    assert t == t[..2] + t[2..] && s == s[..2] + s[2..];
  }

  lemma FirstPairBack(s: string)
    requires s != "" && HexDecode(s).Some?
    ensures var t := HexEncode(HexDecode(s).value);
      && |s| >= 2 && |t| >= 2
      && HexDecode(s[2..]).Some? && t[2..] == HexEncode(HexDecode(s[2..]).value)
      && (t[..2] == s[..2] <==> IsLowerHex(s[0]) && IsLowerHex(s[1]))
  {
    hide HexValue, HexDigit, IsLowerHex, HexEncode, HexDecode;
    DecodeHead(s);
    var hi, lo, rest := HexValue(s[0]).value, HexValue(s[1]).value, HexDecode(s[2..]).value;
    EncodeCons(hi, lo, rest);
    DigitOfValue(s[0]);
    DigitOfValue(s[1]);
    var t := [HexDigit(hi), HexDigit(lo)] + HexEncode(rest);
    assert t[..2] == [HexDigit(hi), HexDigit(lo)] && t[2..] == HexEncode(rest);
    assert s[..2] == [s[0], s[1]];
  }

  lemma DecodeHead(s: string)
    requires s != "" && HexDecode(s).Some?
    ensures |s| >= 2 && HexValue(s[0]).Some? && HexValue(s[1]).Some? && HexDecode(s[2..]).Some?
    ensures HexDecode(s).value == [HexValue(s[0]).value * 16 + HexValue(s[1]).value] + HexDecode(s[2..]).value
  {
    hide HexValue;
  }

  lemma EncodeCons(hi: int, lo: int, rest: seq<Byte>)
    requires 0 <= hi < 16 && 0 <= lo < 16
    ensures HexEncode([hi * 16 + lo] + rest) == [HexDigit(hi), HexDigit(lo)] + HexEncode(rest)
  {
    hide HexDigit, HexEncode;
    NibblesSplit(hi, lo);
    EncodeHead(hi * 16 + lo, rest);
  }

  lemma EncodeHead(h: Byte, rest: seq<Byte>)
    ensures HexEncode([h] + rest) == [HexDigit(h / 16), HexDigit(h % 16)] + HexEncode(rest)
  {
    hide HexDigit;
    assert ([h] + rest)[1..] == rest && ([h] + rest)[0] == h;
  }

  lemma NibblesSplit(hi: int, lo: int)
    requires 0 <= hi < 16 && 0 <= lo < 16
    ensures (hi * 16 + lo) / 16 == hi && (hi * 16 + lo) % 16 == lo
  {
  }

  lemma DigitOfValue(c: char)
    requires HexValue(c).Some?
    ensures HexDigit(HexValue(c).value) == c <==> IsLowerHex(c)
    ensures IsLowerHex(HexDigit(HexValue(c).value))
  {
  }

  lemma HexInjective(a: seq<Byte>, b: seq<Byte>)
    requires HexEncode(a) == HexEncode(b)
    ensures a == b
  {
    HexRoundTrip(a);
    HexRoundTrip(b);
  }

  // ---------------------------------------------------------------------
  // Byte-lexicographic order
  // ---------------------------------------------------------------------

  predicate LexLeq(a: seq<Byte>, b: seq<Byte>)
  {
    a == [] || (b != [] && (a[0] < b[0] || (a[0] == b[0] && LexLeq(a[1..], b[1..]))))
  }

  lemma {:induction false} FromBigEndianHead(h: Byte, t: seq<Byte>)
    ensures FromBigEndian([h] + t) == h * Pow256(|t|) + FromBigEndian(t)
  {
    var b := [h] + t;
    if t == [] {
      assert b[..|b| - 1] == [];
    } else {
      var front := t[..|t| - 1];
      assert b[..|b| - 1] == [h] + front;
      FromBigEndianHead(h, front);
      ScaleByBase(h, Pow256(|front|), FromBigEndian(front));
    }
  }

  lemma ScaleByBase(h: nat, p: nat, v: nat)
    ensures (h * p + v) * 256 == h * (256 * p) + v * 256
  {
  }

  /** On texts of one length the lexicographic order is the numeric order. */
  lemma {:induction false} LexIsNumeric(a: seq<Byte>, b: seq<Byte>)
    requires |a| == |b|
    ensures LexLeq(a, b) <==> FromBigEndian(a) <= FromBigEndian(b)
  {
    if a != [] {
      LexIsNumeric(a[1..], b[1..]);
      assert a == [a[0]] + a[1..] && b == [b[0]] + b[1..];
      FromBigEndianHead(a[0], a[1..]);
      FromBigEndianHead(b[0], b[1..]);
      var p, u, v := Pow256(|a| - 1), FromBigEndian(a[1..]), FromBigEndian(b[1..]);
      if a[0] < b[0] {
        DigitDominates(a[0], b[0], p, u, v);
      } else if b[0] < a[0] {
        DigitDominates(b[0], a[0], p, v, u);
      }
    }
  }

  lemma DigitDominates(x: nat, y: nat, p: nat, u: nat, v: nat)
    requires x < y && u < p
    ensures x * p + u < y * p + v
  {
    assert (x + 1) * p <= y * p;
  }
}
