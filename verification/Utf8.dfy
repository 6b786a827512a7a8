/** UTF-8 as a decoder sees it: code points, and bytes that belong to none. */
module Utf8 {
  type Byte = b: int | 0 <= b < 256
  type Bytes = seq<Byte>

  const REPLACEMENT := 0xFFFD

  /** A code point and the bytes it took; an ill-formed byte is a replacement of size one. */
  datatype Rune = Rune(value: int, size: nat) {
    predicate Bad() { value == REPLACEMENT && size == 1 }
  }

  predicate Tail(s: Bytes, i: nat) { i < |s| && 0x80 <= s[i] <= 0xBF }

  /** What a byte adds, beyond the marks of its place. */
  function TailBits(b: Byte): int { b - 0x80 }

  /** The lowest and highest second byte after a given first one. */
  predicate Second(first: Byte, b: Byte) {
    (if first == 0xE0 then 0xA0 else if first == 0xF0 then 0x90 else 0x80) <= b
    && b <= (if first == 0xED then 0x9F else if first == 0xF4 then 0x8F else 0xBF)
  }

  function Decode(s: Bytes, i: nat): (r: Rune)
    requires i < |s|
    ensures 1 <= r.size <= |s| - i
  {
    var b := s[i];
    if b < 0x80 then Rune(b, 1)
    else if 0xC2 <= b <= 0xDF && Tail(s, i + 1) then Rune((b - 0xC0) * 64 + TailBits(s[i + 1]), 2)
    else if 0xE0 <= b <= 0xEF && Tail(s, i + 1) && Second(b, s[i + 1]) && Tail(s, i + 2) then
      Rune((b - 0xE0) * 4096 + TailBits(s[i + 1]) * 64 + TailBits(s[i + 2]), 3)
    else if 0xF0 <= b <= 0xF4 && Tail(s, i + 1) && Second(b, s[i + 1]) && Tail(s, i + 2) && Tail(s, i + 3) then
      Rune((b - 0xF0) * 262144 + TailBits(s[i + 1]) * 4096 + TailBits(s[i + 2]) * 64 + TailBits(s[i + 3]), 4)
    else Rune(REPLACEMENT, 1)
  }

  /** What a well-formed code point decodes to depends on its own bytes alone. */
  lemma DecodeLocal(s: Bytes, i: nat, t: Bytes, j: nat)
    requires i < |s| && !Decode(s, i).Bad()
    requires j + Decode(s, i).size <= |t| && t[j..j + Decode(s, i).size] == s[i..i + Decode(s, i).size]
    ensures Decode(t, j) == Decode(s, i)
  {
    var n := Decode(s, i).size;
    assert t[j..j + n][0] == s[i..i + n][0];
    if n > 1 {
      assert t[j..j + n][1] == s[i..i + n][1];
    }
    if n > 2 {
      assert t[j..j + n][2] == s[i..i + n][2];
    }
    if n > 3 {
      assert t[j..j + n][3] == s[i..i + n][3];
    }
  }

  /** No byte is below the given one. */
  predicate AtLeast(s: Bytes, low: int) { forall k :: 0 <= k < |s| ==> s[k] >= low }

  /** The bytes of a well-formed sequence that begins above ASCII are all above ASCII. */
  lemma MultiByte(s: Bytes, i: nat)
    requires i < |s| && s[i] >= 0x80 && !Decode(s, i).Bad()
    ensures Decode(s, i).size > 1 && AtLeast(s[i..i + Decode(s, i).size], 0x80)
  {
    var n := Decode(s, i).size;
    var u := s[i..i + n];
    assert u[0] == s[i];
    if n > 1 {
      assert u[1] == s[i + 1];
    }
    if n > 2 {
      assert u[2] == s[i + 2];
    }
    if n > 3 {
      assert u[3] == s[i + 3];
    }
  }

  // ---- the encoder of the standard, as a reference --------------------------------------------------

  /** A code point that has an encoding: no surrogate, nothing beyond the last plane. */
  predicate Scalar(r: int) { 0 <= r < 0xD800 || 0xE000 <= r < 0x110000 }

  function Encode(r: int): Bytes
    requires Scalar(r)
  {
    if r < 0x80 then [r]
    else if r < 0x800 then [0xC0 + r / 64, 0x80 + r % 64]
    else if r < 0x10000 then [0xE0 + r / 64 / 64, 0x80 + r / 64 % 64, 0x80 + r % 64]
    else [0xF0 + r / 64 / 64 / 64, 0x80 + r / 64 / 64 % 64, 0x80 + r / 64 % 64, 0x80 + r % 64]
  }

  lemma Divide(a: int, b: int)
    requires 0 <= a && 0 <= b < 64
    ensures (a * 64 + b) / 64 == a && (a * 64 + b) % 64 == b
  {}

  /** Decoding undoes encoding, whatever follows. */
  lemma DecodeEncode(r: int, rest: Bytes)
    requires Scalar(r)
    ensures Decode(Encode(r) + rest, 0) == Rune(r, |Encode(r)|)
  {
    var s := Encode(r) + rest;
    if r < 0x800 {
      assert r >= 0x80 ==> s[0] == 0xC0 + r / 64 && s[1] == 0x80 + r % 64;
    } else if r < 0x10000 {
      DecodeThree(r, s);
    } else {
      DecodeFour(r, s);
    }
  }

  lemma DecodeThree(r: int, s: Bytes)
    requires Scalar(r) && 0x800 <= r < 0x10000
    requires |s| >= 3 && s[0] == 0xE0 + r / 64 / 64 && s[1] == 0x80 + r / 64 % 64 && s[2] == 0x80 + r % 64
    ensures Decode(s, 0) == Rune(r, 3)
  {
    var a, b, c := r / 64 / 64, r / 64 % 64, r % 64;
    assert r == a * 4096 + b * 64 + c;
  }

  lemma DecodeFour(r: int, s: Bytes)
    requires Scalar(r) && 0x10000 <= r
    requires |s| >= 4 && s[0] == 0xF0 + r / 64 / 64 / 64 && s[1] == 0x80 + r / 64 / 64 % 64
    requires s[2] == 0x80 + r / 64 % 64 && s[3] == 0x80 + r % 64
    ensures Decode(s, 0) == Rune(r, 4)
  {
    var a, b, c, d := r / 64 / 64 / 64, r / 64 / 64 % 64, r / 64 % 64, r % 64;
    assert r == a * 262144 + b * 4096 + c * 64 + d;
  }

  /** And a decoded code point is one that encodes to the bytes it took. */
  lemma EncodeDecode(s: Bytes, i: nat)
    requires i < |s| && !Decode(s, i).Bad()
    ensures Scalar(Decode(s, i).value) && Encode(Decode(s, i).value) == s[i..i + Decode(s, i).size]
  {
    var n := Decode(s, i).size;
    if n == 2 {
      EncodeTwo(s[i], s[i + 1], Decode(s, i).value);
    } else if n == 3 {
      EncodeThree(s[i], s[i + 1], s[i + 2], Decode(s, i).value);
    } else if n == 4 {
      EncodeFour(s[i], s[i + 1], s[i + 2], s[i + 3], Decode(s, i).value);
    }
  }

  lemma EncodeTwo(a: Byte, b: Byte, r: int)
    requires 0xC2 <= a <= 0xDF && 0x80 <= b <= 0xBF && r == (a - 0xC0) * 64 + (b - 0x80)
    ensures Scalar(r) && Encode(r) == [a, b]
  {
    Divide(a - 0xC0, b - 0x80);
  }

  lemma EncodeThree(a: Byte, b: Byte, c: Byte, r: int)
    requires 0xE0 <= a <= 0xEF && Second(a, b) && 0x80 <= c <= 0xBF
    requires r == (a - 0xE0) * 4096 + (b - 0x80) * 64 + (c - 0x80)
    ensures Scalar(r) && Encode(r) == [a, b, c]
  {
    Divide((a - 0xE0) * 64 + (b - 0x80), c - 0x80);
    Divide(a - 0xE0, b - 0x80);
  }

  lemma EncodeFour(a: Byte, b: Byte, c: Byte, d: Byte, r: int)
    requires 0xF0 <= a <= 0xF4 && Second(a, b) && 0x80 <= c <= 0xBF && 0x80 <= d <= 0xBF
    requires r == (a - 0xF0) * 262144 + (b - 0x80) * 4096 + (c - 0x80) * 64 + (d - 0x80)
    ensures Scalar(r) && Encode(r) == [a, b, c, d]
  {
    Quotients(a - 0xF0, b - 0x80, c - 0x80, d - 0x80, r);
    assert 0x10000 <= r < 0x110000;
  }

  lemma Quotients(x: int, y: int, z: int, w: int, r: int)
    requires 0 <= x && 0 <= y < 64 && 0 <= z < 64 && 0 <= w < 64
    requires r == x * 262144 + y * 4096 + z * 64 + w
    ensures r / 64 / 64 / 64 == x && r / 64 / 64 % 64 == y && r / 64 % 64 == z && r % 64 == w
  {
    Divide(x * 4096 + y * 64 + z, w);
    Divide(x * 64 + y, z);
    Divide(x, y);
  }
}
