/** UTF-8 as RFC 3629 encodes it: the strict decoder accepts exactly the encodings of scalar values. */
module Utf8Text {
  import opened Bytes

  predicate IsScalar(c: int) {
    0 <= c <= 0x10FFFF && !(0xD800 <= c <= 0xDFFF)
  }

  /** Section 3 of RFC 3629, one row for each length. */
  function Encode(c: int): (b: bytes)
    requires IsScalar(c)
    ensures |b| > 0
  {
    if c <= 0x7F then [c]
    else if c <= 0x7FF then [0xC0 + c / 64, 0x80 + c % 64]
    else if c <= 0xFFFF then [0xE0 + c / 4096, 0x80 + c / 64 % 64, 0x80 + c % 64]
    else [0xF0 + c / 262144, 0x80 + c / 4096 % 64, 0x80 + c / 64 % 64, 0x80 + c % 64]
  }

  function EncodeAll(t: text): bytes
    requires forall i :: 0 <= i < |t| ==> IsScalar(t[i])
  {
    if t == [] then [] else Encode(t[0]) + EncodeAll(t[1..])
  }

  /** One scalar value in front of the rest is decoded as it. */
  lemma EncodedIsRead(c: int, rest: bytes)
    requires IsScalar(c)
    ensures Utf8(Encode(c) + rest) == Prepend(c, Utf8(rest))
  {
    var b := Encode(c) + rest;
    assert b[|Encode(c)|..] == rest;
    if c <= 0x7F {
    } else if c <= 0x7FF {
      assert c == c / 64 * 64 + c % 64;
    } else if c <= 0xFFFF {
      assert c / 64 / 64 == c / 4096 && c == c / 64 * 64 + c % 64 && c / 64 == c / 4096 * 64 + c / 64 % 64;
    } else {
      assert c / 64 / 64 == c / 4096 && c / 4096 / 64 == c / 262144;
      assert c == c / 64 * 64 + c % 64 && c / 64 == c / 4096 * 64 + c / 64 % 64;
      assert c / 4096 == c / 262144 * 64 + c / 4096 % 64;
    }
  }

  lemma {:induction false} EncodedAllAreRead(t: text)
    requires forall i :: 0 <= i < |t| ==> IsScalar(t[i])
    ensures Utf8(EncodeAll(t)) == Ok(t)
  {
    if t != [] {
      EncodedAllAreRead(t[1..]);
      EncodedIsRead(t[0], EncodeAll(t[1..]));
      assert [t[0]] + t[1..] == t;
    }
  }

  /** Bytes that begin with the encoding of `c`, and what they are read as. */
  ghost predicate BeginsWith(b: bytes, c: int, n: nat) {
    n <= |b| && IsScalar(c) && Encode(c) == b[..n] && Utf8(b) == Prepend(c, Utf8(b[n..]))
  }

  /** What decodes begins with the encoding of a scalar value. */
  lemma DecodedFirst(b: bytes) returns (c: int, n: nat)
    requires b != [] && Utf8(b).Ok?
    ensures n > 0 && BeginsWith(b, c, n)
  {
    if b[0] < 0x80 {
      c, n := b[0], 1;
    } else if b[0] < 0xE0 {
      c := FirstOfTwo(b);
      n := 2;
    } else if b[0] < 0xF0 {
      c := FirstOfThree(b);
      n := 3;
    } else {
      c := FirstOfFour(b);
      n := 4;
    }
  }

  lemma FirstOfTwo(b: bytes) returns (c: int)
    requires b != [] && Utf8(b).Ok? && 0x80 <= b[0] < 0xE0
    ensures BeginsWith(b, c, 2)
  {
    var x: int, y: int := b[0], b[1];
    c := (x - 0xC0) * 64 + (y - 0x80);
    TwoBytes(x - 0xC0, y - 0x80);
  }

  lemma FirstOfThree(b: bytes) returns (c: int)
    requires b != [] && Utf8(b).Ok? && 0xE0 <= b[0] < 0xF0
    ensures BeginsWith(b, c, 3)
  {
    var x: int, y: int, z: int := b[0], b[1], b[2];
    c := (x - 0xE0) * 4096 + (y - 0x80) * 64 + (z - 0x80);
    ThreeBytes(x - 0xE0, y - 0x80, z - 0x80);
  }

  lemma FirstOfFour(b: bytes) returns (c: int)
    requires b != [] && Utf8(b).Ok? && 0xF0 <= b[0]
    ensures BeginsWith(b, c, 4)
  {
    var x: int, y: int, z: int, w: int := b[0], b[1], b[2], b[3];
    c := (x - 0xF0) * 262144 + (y - 0x80) * 4096 + (z - 0x80) * 64 + (w - 0x80);
    FourBytes(x - 0xF0, y - 0x80, z - 0x80, w - 0x80);
  }

  lemma TwoBytes(a: int, b: int)
    requires 2 <= a < 32 && 0 <= b < 64
    ensures Encode(a * 64 + b) == [0xC0 + a, 0x80 + b]
  {
  }

  lemma ThreeBytes(a: int, b: int, c: int)
    requires 0 <= a < 16 && 0 <= b < 64 && 0 <= c < 64 && (a == 0 ==> b >= 32) && (a == 13 ==> b < 32)
    ensures IsScalar(a * 4096 + b * 64 + c)
    ensures Encode(a * 4096 + b * 64 + c) == [0xE0 + a, 0x80 + b, 0x80 + c]
  {
    var x := a * 4096 + b * 64 + c;
    assert x / 64 == a * 64 + b && x / 4096 == a;
  }

  lemma FourBytes(a: int, b: int, c: int, d: int)
    requires 0 <= a <= 4 && 0 <= b < 64 && 0 <= c < 64 && 0 <= d < 64 && (a == 0 ==> b >= 16) && (a == 4 ==> b < 16)
    ensures IsScalar(a * 262144 + b * 4096 + c * 64 + d)
    ensures Encode(a * 262144 + b * 4096 + c * 64 + d) == [0xF0 + a, 0x80 + b, 0x80 + c, 0x80 + d]
  {
    var x := a * 262144 + b * 4096 + c * 64 + d;
    assert x / 64 == a * 4096 + b * 64 + c && x / 4096 == a * 64 + b && x / 262144 == a;
  }

  lemma {:induction false} ReadIsEncoded(b: bytes)
    requires Utf8(b).Ok?
    ensures forall i :: 0 <= i < |Utf8(b).value| ==> IsScalar(Utf8(b).value[i])
    ensures EncodeAll(Utf8(b).value) == b
    decreases |b|
  {
    if b != [] {
      var c, n := DecodedFirst(b);
      var t, rest := Utf8(b).value, Utf8(b[n..]).value;
      assert t == [c] + rest && t[1..] == rest;
      ReadIsEncoded(b[n..]);
      assert b == b[..n] + b[n..];
    }
  }

  /** The decoder answers `t` exactly for the encoding of `t`: no overlong form, no surrogate, nothing else. */
  lemma Utf8IffEncoded(b: bytes, t: text)
    ensures Utf8(b) == Ok(t) <==> (forall i :: 0 <= i < |t| ==> IsScalar(t[i])) && EncodeAll(t) == b
  {
    if Utf8(b) == Ok(t) {
      ReadIsEncoded(b);
    }
    if (forall i :: 0 <= i < |t| ==> IsScalar(t[i])) && EncodeAll(t) == b {
      EncodedAllAreRead(t);
    }
  }
}
