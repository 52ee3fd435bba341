/** Go strings are byte sequences holding UTF-8. A Dafny string is a sequence
    of Unicode scalar values, so the Go string it stands for is its UTF-8
    encoding: `[]byte(s)` is that encoding and `[]rune(s)` decodes it again,
    one rune at a time, as unicode/utf8.DecodeRune does. */
module Utf8 {
  import opened GoTypes

  /** utf8.RuneError, U+FFFD, which the decoder yields for invalid input. */
  const RuneError: rune := 0xFFFD

  /** The UTF-8 encoding of one character, as utf8.EncodeRune writes it. A
      Dafny char is never a surrogate and never above U+10FFFF, so the branch
      of EncodeRune that substitutes RuneError does not arise. */
  function EncodeRune(c: char): (b: seq<byte>)
    ensures 1 <= |b| <= 4
  {
    var n := c as int;
    if n < 0x80 then [n]
    else if n < 0x800 then [0xC0 + n / 0x40, 0x80 + n % 0x40]
    else if n < 0x1_0000 then [0xE0 + n / 0x1000, 0x80 + n / 0x40 % 0x40, 0x80 + n % 0x40]
    else [0xF0 + n / 0x4_0000, 0x80 + n / 0x1000 % 0x40, 0x80 + n / 0x40 % 0x40, 0x80 + n % 0x40]
  }

  /** `[]byte(s)`: the bytes of the Go string `s`. */
  function Encode(s: string): seq<byte>
  {
    if s == [] then [] else EncodeRune(s[0]) + Encode(s[1..])
  }

  /** The bounds the second byte of a multi-byte sequence must respect, by
      leading byte (utf8's acceptRanges): they exclude overlong forms,
      surrogates and code points above U+10FFFF. */
  function SecondByteRange(b0: byte): (int, int)
  {
    if b0 == 0xE0 then (0xA0, 0xBF)
    else if b0 == 0xED then (0x80, 0x9F)
    else if b0 == 0xF0 then (0x90, 0xBF)
    else if b0 == 0xF4 then (0x80, 0x8F)
    else (0x80, 0xBF)
  }

  predicate IsContinuation(b: byte)
  {
    0x80 <= b <= 0xBF
  }

  /** The six payload bits of a continuation byte. */
  function Payload(b: byte): int
  {
    b as int % 0x40
  }

  /** utf8.DecodeRune: the first rune of `p` and how many bytes it takes. An
      empty input gives (RuneError, 0); an invalid or truncated sequence gives
      (RuneError, 1), so that decoding always moves on. */
  function DecodeRune(p: seq<byte>): (r: (rune, nat))
    ensures |p| == 0 ==> r == (RuneError, 0)
    ensures |p| > 0 ==> 1 <= r.1 <= |p| && r.1 <= 4
  {
    if |p| == 0 then (RuneError, 0)
    else
      var b0 := p[0] as int;
      if b0 < 0x80 then (b0, 1)
      else if b0 < 0xC2 || 0xF4 < b0 then (RuneError, 1)
      else
        var size := if b0 < 0xE0 then 2 else if b0 < 0xF0 then 3 else 4;
        var (lo, hi) := SecondByteRange(p[0]);
        if |p| < size then (RuneError, 1)
        else if p[1] < lo || hi < p[1] then (RuneError, 1)
        else if size == 2 then ((b0 % 0x20) * 0x40 + Payload(p[1]), 2)
        else if !IsContinuation(p[2]) then (RuneError, 1)
        else if size == 3 then ((b0 % 0x10) * 0x1000 + Payload(p[1]) * 0x40 + Payload(p[2]), 3)
        else if !IsContinuation(p[3]) then (RuneError, 1)
        else ((b0 % 0x08) * 0x4_0000 + Payload(p[1]) * 0x1000 + Payload(p[2]) * 0x40 + Payload(p[3]), 4)
  }

  /** `[]rune` of the Go string whose bytes are `p`: decode rune after rune. */
  function DecodeAll(p: seq<byte>): seq<rune>
    decreases |p|
  {
    if p == [] then []
    else
      var (r, w) := DecodeRune(p);
      [r] + DecodeAll(p[w..])
  }

  /** The code points of the characters of `s`, in order. */
  function CodePoints(s: string): (r: seq<rune>)
    ensures |r| == |s|
    ensures forall i :: 0 <= i < |s| ==> r[i] == s[i] as int
  {
    seq(|s|, i requires 0 <= i < |s| => s[i] as int)
  }

  /** Decoding the encoding of a character, whatever bytes follow it, gives
      back that character and consumes exactly its encoding. */
  lemma DecodeEncodedRune(c: char, rest: seq<byte>)
    ensures DecodeRune(EncodeRune(c) + rest) == (c as int, |EncodeRune(c)|)
  {
    var n := c as int;
    if n < 0x80 {
    } else if n < 0x800 {
      DecodeTwoBytes(n, rest);
    } else if n < 0x1_0000 {
      DecodeThreeBytes(n, rest);
    } else {
      DecodeFourBytes(n, rest);
    }
  }

  lemma DecodeTwoBytes(n: int, rest: seq<byte>)
    requires 0x80 <= n < 0x800
    ensures DecodeRune([0xC0 + n / 0x40, 0x80 + n % 0x40] + rest) == (n, 2)
  {
    var p: seq<byte> := [0xC0 + n / 0x40, 0x80 + n % 0x40] + rest;
    var hi, lo := n / 0x40, n % 0x40;
    assert 2 <= hi < 0x20;
    assert p[0] as int % 0x20 == hi;
    assert Payload(p[1]) == lo;
  }

  lemma DecodeThreeBytes(n: int, rest: seq<byte>)
    requires 0x800 <= n < 0x1_0000 && !(0xD800 <= n < 0xE000)
    ensures DecodeRune([0xE0 + n / 0x1000, 0x80 + n / 0x40 % 0x40, 0x80 + n % 0x40] + rest) == (n, 3)
  {
    var p: seq<byte> := [0xE0 + n / 0x1000, 0x80 + n / 0x40 % 0x40, 0x80 + n % 0x40] + rest;
    var q := n / 0x40;
    var a, b, d := q / 0x40, q % 0x40, n % 0x40;
    assert n == 0x40 * q + d;
    assert q == 0x40 * a + b;
    assert n / 0x1000 == a;
    assert a < 0x10;
    assert a == 0 ==> b >= 0x20;
    assert a == 0xD ==> b < 0x20;
    assert p[0] as int % 0x10 == a;
    assert Payload(p[1]) == b && Payload(p[2]) == d;
  }

  lemma DecodeFourBytes(n: int, rest: seq<byte>)
    requires 0x1_0000 <= n < 0x11_0000
    ensures DecodeRune([0xF0 + n / 0x4_0000, 0x80 + n / 0x1000 % 0x40, 0x80 + n / 0x40 % 0x40, 0x80 + n % 0x40] + rest) == (n, 4)
  {
    var p: seq<byte> := [0xF0 + n / 0x4_0000, 0x80 + n / 0x1000 % 0x40, 0x80 + n / 0x40 % 0x40, 0x80 + n % 0x40] + rest;
    var q := n / 0x40;
    var r := q / 0x40;
    var a, b, e, d := r / 0x40, r % 0x40, q % 0x40, n % 0x40;
    assert n == 0x40 * q + d;
    assert q == 0x40 * r + e;
    assert r == 0x40 * a + b;
    assert n / 0x1000 == r;
    assert n / 0x4_0000 == a;
    assert 0 <= a <= 4;
    assert a == 0 ==> b >= 0x10;
    assert a == 4 ==> b < 0x10;
    assert p[0] as int % 0x08 == a;
    assert Payload(p[1]) == b && Payload(p[2]) == e && Payload(p[3]) == d;
  }

  /** `[]rune(s)` is the code points of `s`: decoding the bytes of a string
      gives back its characters, one rune each. */
  lemma {:induction false} DecodeEncode(s: string)
    ensures DecodeAll(Encode(s)) == CodePoints(s)
  {
    if s != [] {
      var head := EncodeRune(s[0]);
      DecodeEncodedRune(s[0], Encode(s[1..]));
      assert (head + Encode(s[1..]))[|head|..] == Encode(s[1..]);
      DecodeEncode(s[1..]);
      assert CodePoints(s) == [s[0] as int] + CodePoints(s[1..]);
    }
  }
}
