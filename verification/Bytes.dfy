/** Bytes, text and the octal numbers of tar headers. */
module Bytes {

  type byte = b: int | 0 <= b < 256
  type bytes = seq<byte>

  /** A decoded string: its code points. */
  type text = seq<int>

  datatype Result<+T> = Ok(value: T) | Refused

  const NUL: byte := 0
  const SPACE: byte := 32
  const SLASH: byte := 47
  const NEWLINE: byte := 10
  const EQUALS: byte := 61
  const ZERO: byte := 48

  function Zeros(n: nat): (z: bytes)
    ensures |z| == n && forall i :: 0 <= i < n ==> z[i] == NUL
  {
    seq(n, _ => NUL)
  }

  predicate Ascii(s: bytes) {
    forall i :: 0 <= i < |s| ==> s[i] < 128
  }

  predicate NoNul(s: bytes) {
    forall i :: 0 <= i < |s| ==> s[i] != NUL
  }

  /** The bytes before the first NUL. */
  function CString(field: bytes): bytes {
    if field == [] || field[0] == NUL then [] else [field[0]] + CString(field[1..])
  }

  /** A NUL-padded field reads back as the string it holds. */
  lemma {:induction false} CStringPadded(s: bytes, rest: bytes)
    requires NoNul(s) && (rest == [] || rest[0] == NUL)
    ensures CString(s + rest) == s
  {
    if s == [] {
      assert s + rest == rest;
    } else {
      assert (s + rest)[0] == s[0] && (s + rest)[1..] == s[1..] + rest;
      CStringPadded(s[1..], rest);
    }
  }

  // ---- Octal ----

  predicate IsOctal(s: bytes) {
    forall i :: 0 <= i < |s| ==> ZERO <= s[i] < ZERO + 8
  }

  function StripLeft(s: bytes): bytes {
    if s != [] && s[0] == SPACE then StripLeft(s[1..]) else s
  }

  function StripRight(s: bytes): bytes {
    if s != [] && s[|s| - 1] == SPACE then StripRight(s[..|s| - 1]) else s
  }

  function OctalValue(s: bytes): nat
    requires IsOctal(s)
  {
    if s == [] then 0 else 8 * OctalValue(s[..|s| - 1]) + (s[|s| - 1] - ZERO)
  }

  /** A numeric header field: never base-256, one octal number before the NUL, spaces around it allowed. */
  function Octal(field: bytes): Result<nat> {
    if field != [] && field[0] >= 128 then Refused else
      var digits := StripRight(StripLeft(CString(field)));
      if digits == [] || !IsOctal(digits) then Refused else Ok(OctalValue(digits))
  }

  function Pow8(k: nat): nat {
    if k == 0 then 1 else 8 * Pow8(k - 1)
  }

  /** `n` in exactly `k` octal digits. */
  function OctalDigits(n: nat, k: nat): (s: bytes)
    ensures |s| == k && IsOctal(s)
  {
    if k == 0 then [] else OctalDigits(n / 8, k - 1) + [ZERO + n % 8]
  }

  lemma {:induction false} OctalRoundTrip(n: nat, k: nat)
    requires n < Pow8(k)
    ensures OctalValue(OctalDigits(n, k)) == n
  {
    if k > 0 {
      OctalRoundTrip(n / 8, k - 1);
      var s := OctalDigits(n, k);
      assert s[..k - 1] == OctalDigits(n / 8, k - 1) && s[k - 1] == ZERO + n % 8;
    }
  }

  /** A field of `k` digits and a NUL is read back as the number it was written from. */
  lemma OctalField(n: nat, k: nat, rest: bytes)
    requires 0 < k && n < Pow8(k) && rest != [] && rest[0] == NUL
    ensures Octal(OctalDigits(n, k) + rest) == Ok(n)
  {
    var digits := OctalDigits(n, k);
    CStringPadded(digits, rest);
    OctalRoundTrip(n, k);
    assert (digits + rest)[0] == digits[0];
  }

  // ---- UTF-8 ----

  predicate Continues(b: bytes, i: nat, lo: int, hi: int) {
    i < |b| && lo <= b[i] <= hi
  }

  function Bits(x: int, base: int, scale: int): int {
    (x - base) * scale
  }

  /** Strict UTF-8: no overlong form, no surrogate, nothing above U+10FFFF. */
  function Utf8(b: bytes): Result<text> {
    if b == [] then Ok([])
    else if b[0] < 0x80 then Prepend(b[0], Utf8(b[1..]))
    else if 0xC2 <= b[0] <= 0xDF && Continues(b, 1, 0x80, 0xBF) then
      Prepend(Bits(b[0], 0xC0, 64) + Bits(b[1], 0x80, 1), Utf8(b[2..]))
    else if 0xE0 <= b[0] <= 0xEF
         && Continues(b, 1, if b[0] == 0xE0 then 0xA0 else 0x80, if b[0] == 0xED then 0x9F else 0xBF)
         && Continues(b, 2, 0x80, 0xBF) then
      Prepend(Bits(b[0], 0xE0, 4096) + Bits(b[1], 0x80, 64) + Bits(b[2], 0x80, 1), Utf8(b[3..]))
    else if 0xF0 <= b[0] <= 0xF4
         && Continues(b, 1, if b[0] == 0xF0 then 0x90 else 0x80, if b[0] == 0xF4 then 0x8F else 0xBF)
         && Continues(b, 2, 0x80, 0xBF) && Continues(b, 3, 0x80, 0xBF) then
      Prepend(Bits(b[0], 0xF0, 262144) + Bits(b[1], 0x80, 4096) + Bits(b[2], 0x80, 64) + Bits(b[3], 0x80, 1),
              Utf8(b[4..]))
    else Refused
  }

  function Prepend(c: int, rest: Result<text>): Result<text> {
    match rest
    case Ok(t) => Ok([c] + t)
    case Refused => Refused
  }

  lemma {:induction false} Utf8OfAscii(b: bytes)
    requires Ascii(b)
    ensures Utf8(b) == Ok(b)
  {
    if b != [] {
      Utf8OfAscii(b[1..]);
      assert [b[0]] + b[1..] == b;
    }
  }
}
