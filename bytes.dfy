/**
 * Byte-level primitives shared by the whole codec: Python slice semantics,
 * big- and little-endian integers, the BER definite length, hexadecimal text,
 * UTF-8 and Latin-1 encodings, NUL-terminated text and UUID text.
 *
 * The integer, BER and UUID helpers stand for functions of an external helper
 * library whose code is not part of this model; their definitions here are the
 * assumptions stated in README.md.
 */
module Bytes {
  import opened Wrappers

  type byte = x: int | 0 <= x < 256

  // ---------------------------------------------------------------------------
  // Python slices
  // ---------------------------------------------------------------------------

  /** One slice bound against a sequence of length n: a negative bound counts
      from the end, then the bound is clamped to [0, n]. */
  function Bound(i: int, n: nat): (r: nat)
    ensures r <= n
    ensures 0 <= i ==> r == if i <= n then i else n
    ensures i < 0 ==> r == if -i <= n then n + i else 0
  {
    if i < 0 then (if i + n < 0 then 0 else i + n)
    else if i > n then n else i
  }

  /** The end bound, where `None` stands for Python's omitted end (the length). */
  function EndBound(end: Option<int>, n: nat): (r: nat)
    ensures r <= n
  {
    match end
    case None => n
    case Some(e) => Bound(e, n)
  }

  /** s[start:end] under Python slice semantics. */
  function PySlice<T>(s: seq<T>, start: int, end: Option<int>): (r: seq<T>)
    ensures |r| == if Bound(start, |s|) <= EndBound(end, |s|) then EndBound(end, |s|) - Bound(start, |s|) else 0
    ensures forall k :: 0 <= k < |r| ==> r[k] == s[Bound(start, |s|) + k]
  {
    var lo, hi := Bound(start, |s|), EndBound(end, |s|);
    if lo < hi then s[lo..hi] else []
  }

  /** s[start:end] with both bounds given. */
  function Slice<T>(s: seq<T>, start: int, end: int): seq<T>
  {
    PySlice(s, start, Some(end))
  }

  /** Two adjacent slices whose normalised bounds are ordered make up the
      slice that spans both: the basis of every contiguous field layout. */
  lemma SliceConcat<T>(s: seq<T>, a: int, b: int, c: Option<int>)
    requires Bound(a, |s|) <= Bound(b, |s|) <= EndBound(c, |s|)
    ensures PySlice(s, a, Some(b)) + PySlice(s, b, c) == PySlice(s, a, c)
  {
    var lo, mid, hi := Bound(a, |s|), Bound(b, |s|), EndBound(c, |s|);
    assert PySlice(s, a, Some(b)) == s[lo..mid];
    assert PySlice(s, b, c) == s[mid..hi];
    assert PySlice(s, a, c) == s[lo..hi];
  }

  /** s[-1:] is the final element, or nothing for an empty sequence. */
  lemma LastSlice<T>(s: seq<T>)
    ensures PySlice(s, -1, None) == if |s| == 0 then [] else [s[|s| - 1]]
  {
  }

  /** A slice whose two bounds are the same index is always empty. */
  lemma EmptySlice<T>(s: seq<T>, i: int)
    ensures PySlice(s, i, Some(i)) == []
  {
  }

  /** Without negative bounds and within range a Python slice is Dafny's. */
  lemma SliceInRange<T>(s: seq<T>, i: int, j: int)
    requires 0 <= i <= j <= |s|
    ensures Slice(s, i, j) == s[i..j]
  {
  }

  // ---------------------------------------------------------------------------
  // Integers
  // ---------------------------------------------------------------------------

  function Pow256(w: nat): (r: nat)
    ensures r >= 1
  {
    if w == 0 then 1 else 256 * Pow256(w - 1)
  }

  /** Unsigned big-endian value of a byte string of any length (the empty
      string is 0). */
  function BigEndian(b: seq<byte>): nat
  {
    if b == [] then 0 else BigEndian(b[..|b| - 1]) * 256 + b[|b| - 1]
  }

  /** Unsigned little-endian value of a byte string of any length. */
  function LittleEndian(b: seq<byte>): nat
  {
    if b == [] then 0 else b[0] + 256 * LittleEndian(b[1..])
  }

  /** x as exactly w big-endian bytes. */
  function ToBigEndian(x: nat, w: nat): (r: seq<byte>)
    requires x < Pow256(w)
    ensures |r| == w
  {
    if w == 0 then [] else ToBigEndian(x / 256, w - 1) + [x % 256]
  }

  lemma {:induction false} BigEndianBound(b: seq<byte>)
    ensures BigEndian(b) < Pow256(|b|)
  {
    if b != [] {
      BigEndianBound(b[..|b| - 1]);
    }
  }

  lemma {:induction false} BigEndianRoundTrip(x: nat, w: nat)
    requires x < Pow256(w)
    ensures BigEndian(ToBigEndian(x, w)) == x
  {
    if w > 0 {
      var r := ToBigEndian(x, w);
      assert r[..|r| - 1] == ToBigEndian(x / 256, w - 1);
      BigEndianRoundTrip(x / 256, w - 1);
    }
  }

  /** The packers of the helper library (byte 1, short 2, word 4, long 8
      bytes): big-endian, and an integer outside the width is refused. */
  function Pack(x: int, w: nat): (r: Result<seq<byte>>)
    ensures r.Success? <==> 0 <= x < Pow256(w)
    ensures r.Success? ==> |r.value| == w && BigEndian(r.value) == x
  {
    if 0 <= x < Pow256(w) then
      BigEndianRoundTrip(x, w);
      Success(ToBigEndian(x, w))
    else Failure(OverflowError)
  }

  // ---------------------------------------------------------------------------
  // BER definite length (ITU-T X.690 section 8.1.3)
  // ---------------------------------------------------------------------------

  /** The big-endian bytes of n without leading zero bytes. */
  function MinimalBytes(n: nat): (r: seq<byte>)
    ensures BigEndian(r) == n
    ensures n > 0 ==> |r| > 0 && r[0] != 0
    ensures n == 0 ==> r == []
  {
    if n == 0 then []
    else
      var r := MinimalBytes(n / 256) + [n % 256];
      assert r[..|r| - 1] == MinimalBytes(n / 256);
      r
  }

  lemma {:induction false} MinimalBytesLength(n: nat, w: nat)
    requires n < Pow256(w)
    ensures |MinimalBytes(n)| <= w
  {
    if n > 0 {
      MinimalBytesLength(n / 256, w - 1);
    }
  }

  /** Lengths the definite long form can carry: at most 126 length octets,
      since the initial octet 0xFF is reserved. */
  predicate BerEncodable(n: nat)
  {
    |MinimalBytes(n)| <= 126
  }

  /** Definite-form length octets: the short form (one octet) below 128,
      otherwise 0x80 | k followed by the k minimal big-endian octets. */
  function BerEncode(n: nat): (r: seq<byte>)
    requires BerEncodable(n)
    ensures n < 128 <==> |r| == 1
    ensures n < 128 ==> r == [n]
    ensures n >= 128 ==> 2 <= |r| <= 127 && r[0] == 0x80 + (|r| - 1) && r[1] != 0
  {
    if n < 128 then [n]
    else
      var m := MinimalBytes(n);
      [0x80 + |m|] + m
  }

  /** Every length below 256^126 is encodable. */
  lemma BerEncodableBelow(n: nat)
    requires n < Pow256(126)
    ensures BerEncodable(n)
  {
    MinimalBytesLength(n, 126);
  }

  /** Reads a definite-form length at the front of b: the length and the
      number of octets it occupies, or None for an empty buffer, the
      indefinite form (0x80), the reserved octet 0xFF or a short buffer. */
  function BerDecode(b: seq<byte>): (r: Option<(nat, nat)>)
    ensures r.Some? ==> 1 <= r.value.1 <= |b|
  {
    if |b| == 0 then None
    else if b[0] < 0x80 then Some((b[0], 1))
    else if b[0] == 0x80 || b[0] == 0xFF then None
    else
      var k := b[0] - 0x80;
      if |b| < 1 + k then None else Some((BigEndian(b[1..1 + k]), 1 + k))
  }

  /** Decoding an encoded length gives it back, whatever follows it. */
  lemma BerRoundTrip(n: nat, rest: seq<byte>)
    requires BerEncodable(n)
    ensures BerDecode(BerEncode(n) + rest) == Some((n, |BerEncode(n)|))
  {
    var e := BerEncode(n);
    if n >= 128 {
      assert (e + rest)[1..|e|] == MinimalBytes(n);
    }
  }

  /** The boundary cases of the short and long forms. */
  lemma BerExamples()
    ensures BerEncode(0) == [0] && BerEncode(4) == [4] && BerEncode(127) == [127]
    ensures BerEncode(128) == [0x81, 0x80]
    ensures BerEncode(256) == [0x82, 0x01, 0x00]
  {
    assert MinimalBytes(1) == [1];
    assert MinimalBytes(256) == [1, 0];
  }

  // ---------------------------------------------------------------------------
  // Hexadecimal text (bytes.fromhex and its inverse)
  // ---------------------------------------------------------------------------

  function HexValue(c: char): Option<nat>
  {
    if '0' <= c <= '9' then Some(c as int - '0' as int)
    else if 'A' <= c <= 'F' then Some(c as int - 'A' as int + 10)
    else if 'a' <= c <= 'f' then Some(c as int - 'a' as int + 10)
    else None
  }

  predicate IsUpperHex(c: char)
  {
    '0' <= c <= '9' || 'A' <= c <= 'F'
  }

  function UpperHexDigit(v: nat): (c: char)
    requires v < 16
    ensures IsUpperHex(c) && HexValue(c) == Some(v)
  {
    if v < 10 then ('0' as int + v) as char else ('A' as int + v - 10) as char
  }

  function LowerHexDigit(v: nat): (c: char)
    requires v < 16
    ensures HexValue(c) == Some(v)
  {
    if v < 10 then ('0' as int + v) as char else ('a' as int + v - 10) as char
  }

  /** The white space bytes.fromhex skips: space, tab, line feed, vertical
      tab, form feed, carriage return. */
  predicate IsByteSpace(c: char)
  {
    c == ' ' || 9 <= c as int <= 13
  }

  /** Hex text written as contiguous pairs of digits, either case; None for
      an odd digit count or a character that is not a hex digit. */
  function HexPairs(s: string): (r: Option<seq<byte>>)
    ensures r.Some? ==> 2 * |r.value| == |s|
  {
    if |s| == 0 then Some([])
    else if |s| == 1 || HexValue(s[0]).None? || HexValue(s[1]).None? then None
    else
      match HexPairs(s[2..])
      case None => None
      case Some(rest) => Some([HexValue(s[0]).value * 16 + HexValue(s[1]).value] + rest)
  }

  /** s without the white space bytes.fromhex skips. */
  function DropByteSpace(s: string): (r: string)
    ensures forall i :: 0 <= i < |r| ==> !IsByteSpace(r[i])
  {
    if s == [] then [] else (if IsByteSpace(s[0]) then [] else [s[0]]) + DropByteSpace(s[1..])
  }

  /** bytes.fromhex: white space is skipped before each pair of hex digits
      (not between the two digits of a pair); None (ValueError) for a
      character that is not a hex digit or a pair left incomplete. */
  function FromHex(s: string): (r: Option<seq<byte>>)
  {
    if |s| == 0 then Some([])
    else if IsByteSpace(s[0]) then FromHex(s[1..])
    else if |s| == 1 || HexValue(s[0]).None? || HexValue(s[1]).None? then None
    else
      match FromHex(s[2..])
      case None => None
      case Some(rest) => Some([HexValue(s[0]).value * 16 + HexValue(s[1]).value] + rest)
  }

  /** Text without white space decodes pair by pair. */
  lemma {:induction false} FromHexNoSpace(s: string)
    requires forall i :: 0 <= i < |s| ==> !IsByteSpace(s[i])
    ensures FromHex(s) == HexPairs(s)
  {
    if |s| >= 2 {
      FromHexNoSpace(s[2..]);
    }
  }

  /** What a successful decoding returns: the pairs of the text's hex digits
      once the white space is gone, so there are half as many bytes as digits. */
  lemma {:induction false} FromHexDigits(s: string)
    ensures FromHex(s).Some? ==> FromHex(s) == HexPairs(DropByteSpace(s))
    ensures FromHex(s).Some? ==> 2 * |FromHex(s).value| == |DropByteSpace(s)|
  {
    if |s| > 0 && FromHex(s).Some? {
      if IsByteSpace(s[0]) {
        FromHexDigits(s[1..]);
        assert DropByteSpace(s) == DropByteSpace(s[1..]);
      } else {
        FromHexDigits(s[2..]);
        var d := DropByteSpace(s[2..]);
        assert DropByteSpace(s[1..]) == [s[1]] + d;
        assert DropByteSpace(s) == [s[0], s[1]] + d;
        assert ([s[0], s[1]] + d)[2..] == d;
      }
    }
  }

  /** White space in front of a text changes nothing. */
  lemma {:induction false} FromHexSkipsSpace(ws: string, s: string)
    requires forall i :: 0 <= i < |ws| ==> IsByteSpace(ws[i])
    ensures FromHex(ws + s) == FromHex(s)
  {
    if ws != [] {
      assert (ws + s)[1..] == ws[1..] + s;
      FromHexSkipsSpace(ws[1..], s);
    } else {
      assert ws + s == s;
    }
  }

  /** A pair of hex digits in front of a text adds its byte in front of the
      text's bytes, and fails when the text does. */
  lemma FromHexPair(c: char, d: char, s: string)
    requires HexValue(c).Some? && HexValue(d).Some?
    ensures FromHex([c, d] + s).Some? <==> FromHex(s).Some?
    ensures FromHex(s).Some? ==> FromHex([c, d] + s).value == [HexValue(c).value * 16 + HexValue(d).value] + FromHex(s).value
  {
    assert ([c, d] + s)[2..] == s;
  }

  /** White space between the two digits of a pair is an error. */
  lemma FromHexSplitPair(c: char, d: char, s: string)
    requires HexValue(c).Some? && IsByteSpace(d)
    ensures FromHex([c, d] + s).None?
  {
  }

  /** Spaced key text decodes as its pairs: '0A 01 00' is 0A 01 00. */
  lemma FromHexSpaced()
    ensures FromHex("0A 01 00") == Some([0x0A, 0x01, 0x00])
  {
    assert HexValue('0') == Some(0) && HexValue('1') == Some(1) && HexValue('A') == Some(10);
    var t0, t1, t2, t3, t4 := "00", " 00", "01 00", " 01 00", "0A 01 00";
    assert t0 == ['0', '0'] + "" && t1 == " " + t0 && t2 == ['0', '1'] + t1;
    assert t3 == " " + t2 && t4 == ['0', 'A'] + t3;
    FromHexPair('0', '0', "");
    assert FromHex("") == Some([]);
    assert FromHex(t0).value == [0 * 16 + 0] + [];
    FromHexSkipsSpace(" ", t0);
    FromHexPair('0', '1', t1);
    assert FromHex(t1).value == [0];
    assert FromHex(t2).value == [0 * 16 + 1] + [0];
    FromHexSkipsSpace(" ", t2);
    assert FromHex(t3).value == [1, 0];
    FromHexPair('0', 'A', t3);
    assert FromHex(t4).value == [0 * 16 + 10] + [1, 0];
    var expected: seq<byte> := [0x0A, 0x01, 0x00];
    assert FromHex(t4).value == expected;
    assert FromHex(t4) == Some(expected);
  }

  /** Upper-case hex text of a byte string (the form the tables are written in). */
  function ToHex(b: seq<byte>): (s: string)
    ensures |s| == 2 * |b|
    ensures forall i :: 0 <= i < |s| ==> IsUpperHex(s[i])
  {
    if b == [] then "" else [UpperHexDigit(b[0] / 16), UpperHexDigit(b[0] % 16)] + ToHex(b[1..])
  }

  /** Lower-case hex text of a byte string. */
  function ToLowerHex(b: seq<byte>): (s: string)
    ensures |s| == 2 * |b|
  {
    if b == [] then "" else [LowerHexDigit(b[0] / 16), LowerHexDigit(b[0] % 16)] + ToLowerHex(b[1..])
  }

  /** Upper-case hex of any bytes decodes back to them. */
  lemma {:induction false} HexRoundTrip(b: seq<byte>)
    ensures HexPairs(ToHex(b)) == Some(b)
    ensures FromHex(ToHex(b)) == Some(b)
  {
    if b != [] {
      var s := ToHex(b);
      assert s[2..] == ToHex(b[1..]);
      HexRoundTrip(b[1..]);
      assert HexPairs(s) == Some([b[0]] + b[1..]);
      assert HexValue(s[0]).value * 16 + HexValue(s[1]).value == b[0];
      assert [b[0]] + b[1..] == b;
    }
  }

  /** Lower-case hex of any bytes decodes back to them. */
  lemma {:induction false} LowerHexRoundTrip(b: seq<byte>)
    ensures HexPairs(ToLowerHex(b)) == Some(b)
  {
    if b != [] {
      var s := ToLowerHex(b);
      assert s[2..] == ToLowerHex(b[1..]);
      LowerHexRoundTrip(b[1..]);
      assert HexValue(s[0]).value * 16 + HexValue(s[1]).value == b[0];
      assert [b[0]] + b[1..] == b;
    }
  }

  /** Upper-case hex text decodes, and re-encoding gives the same text. */
  lemma UpperHexDecodes(s: string)
    requires |s| % 2 == 0
    requires forall i :: 0 <= i < |s| ==> IsUpperHex(s[i])
    ensures HexPairs(s).Some? && ToHex(HexPairs(s).value) == s
    ensures FromHex(s) == HexPairs(s)
  {
    UpperHexPairs(s);
    FromHexNoSpace(s);
  }

  lemma {:induction false} UpperHexPairs(s: string)
    requires |s| % 2 == 0
    requires forall i :: 0 <= i < |s| ==> IsUpperHex(s[i])
    ensures HexPairs(s).Some? && ToHex(HexPairs(s).value) == s
  {
    if |s| > 0 {
      UpperHexPairs(s[2..]);
      UpperDigitBack(s[0]);
      UpperDigitBack(s[1]);
      var x, y := HexValue(s[0]).value, HexValue(s[1]).value;
      var b := HexPairs(s).value;
      assert b == [x * 16 + y] + HexPairs(s[2..]).value;
      assert b[1..] == HexPairs(s[2..]).value;
      assert (x * 16 + y) / 16 == x && (x * 16 + y) % 16 == y;
      assert ToHex(b) == [UpperHexDigit(x), UpperHexDigit(y)] + ToHex(b[1..]);
      assert s == [s[0], s[1]] + s[2..];
    }
  }

  /** An upper-case hex digit is the digit of its own value. */
  lemma UpperDigitBack(c: char)
    requires IsUpperHex(c)
    ensures HexValue(c).Some? && HexValue(c).value < 16 && UpperHexDigit(HexValue(c).value) == c
  {
  }

  /** Distinct upper-case hex texts decode to distinct byte strings. */
  lemma UpperHexInjective(s: string, t: string)
    requires |s| % 2 == 0 && forall i :: 0 <= i < |s| ==> IsUpperHex(s[i])
    requires |t| % 2 == 0 && forall i :: 0 <= i < |t| ==> IsUpperHex(t[i])
    requires s != t
    ensures FromHex(s).Some? && FromHex(t).Some? && FromHex(s) != FromHex(t)
  {
    UpperHexDecodes(s);
    UpperHexDecodes(t);
  }

  /** Byte k of decoded hex pairs comes from digits 2k and 2k+1. */
  lemma {:induction false} HexPairsAt(s: string, k: nat)
    requires HexPairs(s).Some? && k < |HexPairs(s).value|
    ensures HexValue(s[2 * k]).Some? && HexValue(s[2 * k + 1]).Some?
    ensures HexPairs(s).value[k] == HexValue(s[2 * k]).value * 16 + HexValue(s[2 * k + 1]).value
  {
    if k > 0 {
      HexPairsAt(s[2..], k - 1);
    }
  }

  // ---------------------------------------------------------------------------
  // Text encodings
  // ---------------------------------------------------------------------------

  /** The UTF-8 encoding of one Unicode scalar value. */
  function Utf8Char(c: char): (r: seq<byte>)
    ensures 1 <= |r| <= 4
    ensures (c as int < 0x80) <==> r == [c as int]
  {
    var cp := c as int;
    if cp < 0x80 then [cp]
    else if cp < 0x800 then [0xC0 + cp / 0x40, 0x80 + cp % 0x40]
    else if cp < 0x10000 then [0xE0 + cp / 0x1000, 0x80 + (cp / 0x40) % 0x40, 0x80 + cp % 0x40]
    else [0xF0 + cp / 0x40000, 0x80 + (cp / 0x1000) % 0x40, 0x80 + (cp / 0x40) % 0x40, 0x80 + cp % 0x40]
  }

  /** str.encode('utf-8'). */
  function Utf8(s: string): (r: seq<byte>)
  {
    if s == [] then [] else Utf8Char(s[0]) + Utf8(s[1..])
  }

  /** Every character takes at least one byte. */
  lemma {:induction false} Utf8Length(s: string)
    ensures |Utf8(s)| >= |s|
  {
    if s != [] {
      Utf8Length(s[1..]);
    }
  }

  lemma {:induction false} Utf8Append(s: string, t: string)
    ensures Utf8(s + t) == Utf8(s) + Utf8(t)
  {
    if s != [] {
      assert (s + t)[1..] == s[1..] + t;
      Utf8Append(s[1..], t);
      calc {
        Utf8(s + t);
        Utf8Char(s[0]) + Utf8(s[1..] + t);
        Utf8Char(s[0]) + (Utf8(s[1..]) + Utf8(t));
        (Utf8Char(s[0]) + Utf8(s[1..])) + Utf8(t);
      }
    } else {
      assert s + t == t;
    }
  }

  /** Text made of code points below 0x80 encodes one byte per character. */
  lemma {:induction false} Utf8Ascii(s: string)
    requires forall i :: 0 <= i < |s| ==> s[i] as int < 0x80
    ensures Utf8(s) == seq(|s|, i requires 0 <= i < |s| => s[i] as int)
  {
    if s != [] {
      Utf8Ascii(s[1..]);
      var r := seq(|s|, i requires 0 <= i < |s| => s[i] as int);
      assert r == [s[0] as int] + r[1..];
    }
  }

  /** [ord(d) for d in s]: the code points of a text. */
  function Ords(s: string): (r: seq<int>)
    ensures |r| == |s| && forall i :: 0 <= i < |s| ==> r[i] == s[i] as int
  {
    seq(|s|, i requires 0 <= i < |s| => s[i] as int)
  }

  /** array('B', xs): every item must fit an unsigned byte, otherwise the
      array constructor raises OverflowError. */
  function ByteArray(xs: seq<int>): (r: Result<seq<byte>>)
    ensures r.Success? <==> AllBytes(xs)
    ensures r.Success? ==> r.value == xs
    ensures r.Failure? ==> r.error == OverflowError
  {
    if AllBytes(xs) then Success(seq(|xs|, i requires 0 <= i < |xs| => xs[i] as byte))
    else Failure(OverflowError)
  }

  predicate AllBytes(xs: seq<int>)
  {
    forall i :: 0 <= i < |xs| ==> 0 <= xs[i] < 256
  }

  /** Byte items around a list of code points do not change whether
      array('B') accepts it. */
  lemma ByteArrayParts(pre: seq<byte>, mid: seq<int>, post: seq<byte>)
    ensures ByteArray(pre + mid + post).Success? <==> ByteArray(mid).Success?
    ensures ByteArray(mid).Success? ==> ByteArray(pre + mid + post).value == pre + ByteArray(mid).value + post
  {
    var xs := pre + mid + post;
    if !ByteArray(mid).Success? {
      var i :| 0 <= i < |mid| && !(0 <= mid[i] < 256);
      assert xs[|pre| + i] == mid[i];
    }
  }

  /** Every character of the text is a single byte (code point below 256). */
  predicate IsLatin1(s: string)
  {
    forall i :: 0 <= i < |s| ==> s[i] as int < 256
  }

  /** No character of the text is NUL. */
  predicate NoNul(s: string)
  {
    forall i :: 0 <= i < |s| ==> s[i] != '\0'
  }

  /** Every character of the text is ASCII and not NUL. */
  predicate IsPlainAscii(s: string)
  {
    forall i :: 0 <= i < |s| ==> 0 < s[i] as int < 0x80
  }

  /** Python 2 byte strings read back as text, one character per byte. */
  function BytesToChars(b: seq<byte>): (s: string)
    ensures |s| == |b| && forall i :: 0 <= i < |b| ==> s[i] as int == b[i]
  {
    seq(|b|, i requires 0 <= i < |b| => b[i] as char)
  }

  /** s.ljust(n, c): s padded with c up to n characters, never shortened. */
  function LJust<T>(s: seq<T>, n: nat, c: T): (r: seq<T>)
    ensures |r| == if |s| >= n then |s| else n
    ensures r[..|s|] == s
    ensures forall i :: |s| <= i < |r| ==> r[i] == c
  {
    if |s| >= n then s else s + seq(n - |s|, _ => c)
  }

  /** text.ljust(n, '\x00').encode('utf-8')[0:n]: the text padded to n
      characters with NUL, encoded, then cut to n bytes. */
  function PaddedUtf8(text: string, n: nat): (r: seq<byte>)
    ensures |r| == n
  {
    var padded := LJust(text, n, '\0');
    Utf8Length(padded);
    PySlice(Utf8(padded), 0, Some(n))
  }

  /** The bytes of an ASCII text, one per character. */
  function AsciiBytes(text: string): (r: seq<byte>)
    requires IsPlainAscii(text)
    ensures |r| == |text| && 0 !in r
  {
    seq(|text|, i requires 0 <= i < |text| => text[i] as int)
  }

  /** An ASCII text of at most n characters is stored as its bytes followed
      by NUL bytes, so cutting at the first NUL gives the text back. */
  lemma PaddedUtf8Short(text: string, n: nat)
    requires IsPlainAscii(text) && |text| <= n
    ensures PaddedUtf8(text, n) == AsciiBytes(text) + seq(n - |text|, _ => 0)
    ensures CutAtNul(PaddedUtf8(text, n)) == AsciiBytes(text)
  {
    var padded := LJust(text, n, '\0');
    Utf8Ascii(padded);
    var r := PaddedUtf8(text, n);
    var e := AsciiBytes(text) + seq(n - |text|, _ => 0);
    assert forall i :: 0 <= i < n ==> r[i] == e[i];
    assert r == e;
    CutAtNulPadded(AsciiBytes(text), seq(n - |text|, _ => 0));
  }

  /** A longer ASCII text is cut to its first n characters. */
  lemma PaddedUtf8Long(text: string, n: nat)
    requires IsPlainAscii(text) && |text| >= n
    ensures PaddedUtf8(text, n) == AsciiBytes(text)[..n]
  {
    Utf8Ascii(text);
    var r := PaddedUtf8(text, n);
    assert forall i :: 0 <= i < n ==> r[i] == AsciiBytes(text)[i];
  }

  /** Padding with NUL adds only characters that fit a byte. */
  lemma PaddedFits(text: string, n: nat)
    ensures IsLatin1(text) <==> AllBytes(Ords(LJust(text, n, '\0')))
  {
    var padded := LJust(text, n, '\0');
    if !IsLatin1(text) {
      var i :| 0 <= i < |text| && text[i] as int >= 256;
      assert padded[i] == text[i];
      assert Ords(padded)[i] >= 256;
    }
  }

  /** text.ljust(n, '\x00') as code points in array('B'): never cut, so at
      least n bytes, and refused when a character does not fit a byte. */
  function PaddedLatin1(text: string, n: nat): (r: Result<seq<byte>>)
    ensures r.Success? <==> IsLatin1(text)
    ensures r.Success? ==> |r.value| == if |text| >= n then |text| else n
    ensures r.Success? ==> r.value[..|text|] == Ords(text)
    ensures r.Success? ==> forall i :: |text| <= i < |r.value| ==> r.value[i] == 0
  {
    var padded := LJust(text, n, '\0');
    PaddedFits(text, n);
    ByteArray(Ords(padded))
  }

  /** A one-byte text without NUL of at most n characters reads back from
      its padded field by cutting at the first NUL. */
  lemma PaddedLatin1Short(text: string, n: nat)
    requires IsLatin1(text) && NoNul(text) && |text| <= n
    ensures CutAtNul(PaddedLatin1(text, n).value) == Ords(text)
  {
    var r := PaddedLatin1(text, n).value;
    var x: seq<byte> := r[..|text|];
    assert r == x + r[|text|..];
    assert 0 !in x by {
      forall i | 0 <= i < |x| ensures x[i] != 0 {
        assert x[i] == text[i] as int;
      }
    }
    CutAtNulPadded(x, r[|text|..]);
  }

  /** b.split('\x00')[0]: the bytes before the first NUL. */
  function CutAtNul(b: seq<byte>): (r: seq<byte>)
    ensures 0 !in r
    ensures r <= b
    ensures |r| < |b| ==> b[|r|] == 0
  {
    if b == [] || b[0] == 0 then [] else [b[0]] + CutAtNul(b[1..])
  }

  /** Text followed by NUL padding reads back as the text. */
  lemma {:induction false} CutAtNulPadded(x: seq<byte>, pad: seq<byte>)
    requires 0 !in x
    requires pad == [] || pad[0] == 0
    ensures CutAtNul(x + pad) == x
  {
    if x != [] {
      assert (x + pad)[1..] == x[1..] + pad;
      CutAtNulPadded(x[1..], pad);
    }
  }

  // ---------------------------------------------------------------------------
  // White space
  // ---------------------------------------------------------------------------

  /** str.isspace() on ASCII, the characters str.strip() and int() remove:
      tab, line feed, vertical tab, form feed, carriage return, the four
      separators 0x1C-0x1F, and space. */
  predicate IsSpace(c: char)
  {
    c == ' ' || 9 <= c as int <= 13 || 28 <= c as int <= 31
  }

  /** s.lstrip(): the suffix of s after its leading white space. */
  function LStrip(s: string): (r: string)
    ensures |r| <= |s| && r == s[|s| - |r|..]
    ensures r == [] || !IsSpace(r[0])
    ensures forall i :: 0 <= i < |s| - |r| ==> IsSpace(s[i])
  {
    if s != [] && IsSpace(s[0]) then LStrip(s[1..]) else s
  }

  /** s.rstrip(): the prefix of s before its trailing white space. */
  function RStrip(s: string): (r: string)
    ensures |r| <= |s| && r == s[..|r|]
    ensures r == [] || !IsSpace(r[|r| - 1])
    ensures forall i :: |r| <= i < |s| ==> IsSpace(s[i])
  {
    if s != [] && IsSpace(s[|s| - 1]) then RStrip(s[..|s| - 1]) else s
  }

  /** s.strip(): s without white space at either end. */
  function Strip(s: string): (r: string)
    ensures |r| <= |s|
    ensures r == [] || (!IsSpace(r[0]) && !IsSpace(r[|r| - 1]))
    ensures forall c :: c in r ==> c in s
  {
    var l := LStrip(s);
    var r := RStrip(l);
    assert forall c :: c in r ==> c in l;
    r
  }

  /** White space around a text with no white space at its ends is
      stripped away, and nothing else is. */
  lemma StripPadded(ws1: string, t: string, ws2: string)
    requires forall i :: 0 <= i < |ws1| ==> IsSpace(ws1[i])
    requires forall i :: 0 <= i < |ws2| ==> IsSpace(ws2[i])
    requires t != [] && !IsSpace(t[0]) && !IsSpace(t[|t| - 1])
    ensures Strip(ws1 + t + ws2) == t
  {
    LStripSpace(ws1, t + ws2);
    assert ws1 + t + ws2 == ws1 + (t + ws2);
    RStripSpace(t, ws2);
  }

  /** Text with no white space at either end is left as it is. */
  lemma StripEnds(t: string)
    requires t != [] && !IsSpace(t[0]) && !IsSpace(t[|t| - 1])
    ensures Strip(t) == t
  {
    assert LStrip(t) == t;
  }

  lemma {:induction false} LStripSpace(ws: string, s: string)
    requires forall i :: 0 <= i < |ws| ==> IsSpace(ws[i])
    requires s != [] && !IsSpace(s[0])
    ensures LStrip(ws + s) == s
  {
    if ws != [] {
      assert (ws + s)[1..] == ws[1..] + s;
      LStripSpace(ws[1..], s);
    } else {
      assert ws + s == s;
    }
  }

  lemma {:induction false} RStripSpace(s: string, ws: string)
    requires forall i :: 0 <= i < |ws| ==> IsSpace(ws[i])
    requires s != [] && !IsSpace(s[|s| - 1])
    ensures RStrip(s + ws) == s
  {
    if ws != [] {
      var w := ws[..|ws| - 1];
      assert (s + ws)[..|s + ws| - 1] == s + w;
      RStripSpace(s, w);
    } else {
      assert s + ws == s;
    }
  }

  // ---------------------------------------------------------------------------
  // Decimal text
  // ---------------------------------------------------------------------------

  predicate IsDigitChar(c: char)
  {
    '0' <= c <= '9'
  }

  /** Every character is a decimal digit (read from the last one). */
  predicate AllDigits(s: string)
  {
    s == [] || (AllDigits(s[..|s| - 1]) && IsDigitChar(s[|s| - 1]))
  }

  /** str.isdigit() on ASCII text: not empty and digits only. */
  predicate IsDigits(s: string)
  {
    |s| > 0 && AllDigits(s)
  }

  lemma {:induction false} AllDigitsFirst(s: string)
    requires AllDigits(s) && |s| > 0
    ensures IsDigitChar(s[0])
  {
    if |s| > 1 {
      AllDigitsFirst(s[..|s| - 1]);
    }
  }

  lemma {:induction false} AllDigitsEach(s: string)
    requires AllDigits(s)
    ensures forall i :: 0 <= i < |s| ==> IsDigitChar(s[i])
  {
    if s != [] {
      AllDigitsEach(s[..|s| - 1]);
    }
  }

  /** The value of a digit character, 0 for any other character. */
  function DigitValue(c: char): (v: nat)
    ensures v < 10
  {
    if IsDigitChar(c) then c as int - '0' as int else 0
  }

  /** The value of a text of decimal digits. */
  function DecimalValue(s: string): nat
  {
    if s == [] then 0 else DecimalValue(s[..|s| - 1]) * 10 + DigitValue(s[|s| - 1])
  }

  /** str(n) for a non-negative integer. */
  function DecimalText(n: nat): (s: string)
    ensures IsDigits(s)
  {
    if n < 10 then
      var s := [('0' as int + n) as char];
      assert s[..|s| - 1] == [] && AllDigits([]);
      s
    else
      var s := DecimalText(n / 10) + [('0' as int + n % 10) as char];
      assert s[..|s| - 1] == DecimalText(n / 10);
      s
  }

  lemma {:induction false} DecimalRoundTrip(n: nat)
    ensures DecimalValue(DecimalText(n)) == n
  {
    if n >= 10 {
      var s := DecimalText(n);
      assert s[..|s| - 1] == DecimalText(n / 10);
      DecimalRoundTrip(n / 10);
    }
  }

  /** str(n) for any integer. */
  function IntText(n: int): string
  {
    if n < 0 then "-" + DecimalText(-n) else DecimalText(n)
  }

  // ---------------------------------------------------------------------------
  // UUIDs
  // ---------------------------------------------------------------------------

  function RemoveChar(s: string, c: char): (r: string)
    ensures c !in r
  {
    if s == [] then [] else (if s[0] == c then [] else [s[0]]) + RemoveChar(s[1..], c)
  }

  /** Canonical UUID text to its 16 bytes: the hyphens are dropped and the 32
      remaining characters must be hex digits, otherwise ValueError. */
  function UuidToBytes(s: string): (r: Result<seq<byte>>)
    ensures r.Success? ==> |r.value| == 16
  {
    match HexPairs(RemoveChar(s, '-'))
    case Some(b) => if |b| == 16 then Success(b) else Failure(ValueError)
    case None => Failure(ValueError)
  }

  /** 16 bytes as canonical lower-case 8-4-4-4-12 text; any other length as
      plain lower-case hex. */
  function UuidText(raw: seq<byte>): (s: string)
    ensures |raw| == 16 ==> |s| == 36 && s[8] == s[13] == s[18] == s[23] == '-'
  {
    if |raw| == 16 then
      ToLowerHex(raw[..4]) + "-" + ToLowerHex(raw[4..6]) + "-" + ToLowerHex(raw[6..8]) + "-"
        + ToLowerHex(raw[8..10]) + "-" + ToLowerHex(raw[10..])
    else ToLowerHex(raw)
  }

  /** Formatting a UUID and parsing the text back gives the same 16 bytes. */
  lemma UuidRoundTrip(raw: seq<byte>)
    requires |raw| == 16
    ensures UuidToBytes(UuidText(raw)) == Success(raw)
  {
    UuidTextDigits(raw);
    LowerHexRoundTrip(raw);
  }

  /** Without its hyphens, the UUID text is the plain hex of the 16 bytes. */
  lemma UuidTextDigits(raw: seq<byte>)
    requires |raw| == 16
    ensures RemoveChar(UuidText(raw), '-') == ToLowerHex(raw)
  {
    RemoveHyphens(raw);
    LowerHexConcat5(raw[..4], raw[4..6], raw[6..8], raw[8..10], raw[10..]);
    UuidGroups(raw);
  }

  /** The five groups of a UUID put back together. */
  lemma UuidGroups(raw: seq<byte>)
    requires |raw| == 16
    ensures raw[..4] + raw[4..6] + raw[6..8] + raw[8..10] + raw[10..] == raw
  {
    assert raw[..4] + raw[4..6] == raw[..6];
    assert raw[..6] + raw[6..8] == raw[..8];
    assert raw[..8] + raw[8..10] == raw[..10];
  }

  /** ToLowerHex over the five groups of a UUID. */
  lemma LowerHexConcat5(p1: seq<byte>, p2: seq<byte>, p3: seq<byte>, p4: seq<byte>, p5: seq<byte>)
    ensures ToLowerHex(p1 + p2 + p3 + p4 + p5)
      == ToLowerHex(p1) + ToLowerHex(p2) + ToLowerHex(p3) + ToLowerHex(p4) + ToLowerHex(p5)
  {
    LowerHexConcat(p1, p2);
    LowerHexConcat(p1 + p2, p3);
    LowerHexConcat(p1 + p2 + p3, p4);
    LowerHexConcat(p1 + p2 + p3 + p4, p5);
  }

  lemma {:induction false} LowerHexConcat(a: seq<byte>, b: seq<byte>)
    ensures ToLowerHex(a + b) == ToLowerHex(a) + ToLowerHex(b)
  {
    if a != [] {
      assert (a + b)[1..] == a[1..] + b;
      assert (a + b)[0] == a[0];
      LowerHexConcat(a[1..], b);
      var p := [LowerHexDigit(a[0] / 16), LowerHexDigit(a[0] % 16)];
      calc {
        ToLowerHex(a + b);
        p + ToLowerHex(a[1..] + b);
        p + (ToLowerHex(a[1..]) + ToLowerHex(b));
        (p + ToLowerHex(a[1..])) + ToLowerHex(b);
      }
    } else {
      assert a + b == b;
    }
  }

  lemma NoHyphenInHex(b: seq<byte>)
    ensures '-' !in ToLowerHex(b)
    ensures RemoveChar(ToLowerHex(b), '-') == ToLowerHex(b)
  {
    HexKeepsNoHyphen(b);
  }

  lemma {:induction false} HexKeepsNoHyphen(b: seq<byte>)
    ensures RemoveChar(ToLowerHex(b), '-') == ToLowerHex(b)
  {
    if b != [] {
      HexKeepsNoHyphen(b[1..]);
      var p := [LowerHexDigit(b[0] / 16), LowerHexDigit(b[0] % 16)];
      assert ToLowerHex(b) == p + ToLowerHex(b[1..]);
      RemoveCharConcat(p, ToLowerHex(b[1..]), '-');
      assert p[1..][1..] == [];
      assert RemoveChar(p, '-') == p;
    }
  }

  lemma {:induction false} RemoveCharConcat(s: string, t: string, c: char)
    ensures RemoveChar(s + t, c) == RemoveChar(s, c) + RemoveChar(t, c)
  {
    if s != [] {
      assert (s + t)[1..] == s[1..] + t;
      assert (s + t)[0] == s[0];
      RemoveCharConcat(s[1..], t, c);
      var h := if s[0] == c then [] else [s[0]];
      calc {
        RemoveChar(s + t, c);
        h + RemoveChar(s[1..] + t, c);
        h + (RemoveChar(s[1..], c) + RemoveChar(t, c));
        (h + RemoveChar(s[1..], c)) + RemoveChar(t, c);
      }
    } else {
      assert s + t == t;
    }
  }

  lemma RemoveHyphen(x: string, y: string)
    ensures RemoveChar(x + "-" + y, '-') == RemoveChar(x, '-') + RemoveChar(y, '-')
  {
    var dash: string := ['-'];
    assert RemoveChar(dash, '-') == [] by {
      assert dash[1..] == [];
    }
    RemoveCharConcat(x, dash, '-');
    RemoveCharConcat(x + dash, y, '-');
    assert RemoveChar(x + dash, '-') == RemoveChar(x, '-');
  }

  lemma RemoveHyphens(raw: seq<byte>)
    requires |raw| == 16
    ensures RemoveChar(UuidText(raw), '-') == ToLowerHex(raw[..4]) + ToLowerHex(raw[4..6])
      + ToLowerHex(raw[6..8]) + ToLowerHex(raw[8..10]) + ToLowerHex(raw[10..])
  {
    var a, b, c, d, e := ToLowerHex(raw[..4]), ToLowerHex(raw[4..6]), ToLowerHex(raw[6..8]),
      ToLowerHex(raw[8..10]), ToLowerHex(raw[10..]);
    NoHyphenInHex(raw[..4]);
    NoHyphenInHex(raw[4..6]);
    NoHyphenInHex(raw[6..8]);
    NoHyphenInHex(raw[8..10]);
    NoHyphenInHex(raw[10..]);
    var ab := a + "-" + b;
    var abc := ab + "-" + c;
    var abcd := abc + "-" + d;
    RemoveHyphen(a, b);
    RemoveHyphen(ab, c);
    RemoveHyphen(abc, d);
    RemoveHyphen(abcd, e);
    assert UuidText(raw) == abcd + "-" + e;
  }

  // ---------------------------------------------------------------------------
  // Splitting
  // ---------------------------------------------------------------------------

  /** s.split(sep) for a one-element separator: the pieces between
      separators, at least one. */
  function Split<T(==)>(b: seq<T>, sep: T): (r: seq<seq<T>>)
    ensures |r| >= 1
    ensures |r| == 1 <==> sep !in b
    ensures sep !in b ==> r == [b]
    decreases |b|
  {
    if b == [] then [[]]
    else if b[0] == sep then [[]] + Split(b[1..], sep)
    else
      var t := Split(b[1..], sep);
      assert [b[0]] + b[1..] == b;
      [[b[0]] + t[0]] + t[1..]
  }

  /** Splitting a piece without the separator, the separator and the rest. */
  lemma {:induction false} SplitAfter<T>(t: seq<T>, sep: T, rest: seq<T>)
    requires sep !in t
    ensures Split(t + [sep] + rest, sep) == [t] + Split(rest, sep)
    decreases |t|
  {
    if t == [] {
      assert t + [sep] + rest == [sep] + rest;
      assert ([sep] + rest)[1..] == rest;
    } else {
      assert (t + [sep] + rest)[1..] == t[1..] + [sep] + rest;
      SplitAfter(t[1..], sep, rest);
      assert [t[0]] + t[1..] == t;
    }
  }
}
