/** One ustar header, written field by field, and what the reader makes of it. */
module TarHeader {
  import opened Bytes
  import opened Tar

  datatype Head = Head(name: bytes, prefix: bytes, kind: byte, mode: nat, size: nat, mtime: nat)

  ghost predicate Fits(h: Head) {
    && |h.name| <= 100 && NoNul(h.name)
    && |h.prefix| <= 155 && NoNul(h.prefix)
    && h.mode < Pow8(7) && h.size < Pow8(11) && h.mtime < Pow8(11)
  }

  function Padded(s: bytes, n: nat): (p: bytes)
    requires |s| <= n
    ensures |p| == n
  {
    s + Zeros(n - |s|)
  }

  /** A number in `k` octal digits and a NUL. */
  function Number(n: nat, k: nat): (p: bytes)
    ensures |p| == k + 1
  {
    OctalDigits(n, k) + [NUL]
  }

  /** The fields before the checksum: name, mode, uid, gid, size, mtime. */
  function Left(h: Head): (p: bytes)
    requires |h.name| <= 100
    ensures |p| == 148
  {
    Padded(h.name, 100)
    + (Number(h.mode, 7) + (Number(0, 7) + (Number(0, 7) + (Number(h.size, 11) + Number(h.mtime, 11)))))
  }

  /**
   * The fields after the checksum: type, link name, magic and version, owner names, device numbers, prefix,
   * padding. Readers ignore the device numbers of a regular file, and writers differ on them: `device` is any.
   */
  function Right(h: Head, device: bytes): (p: bytes)
    requires |h.prefix| <= 155 && |device| == 8
    ensures |p| == 356
  {
    [h.kind] + (Zeros(100) + (USTAR + (Zeros(32) + (Zeros(32)
    + (device + (device + (Padded(h.prefix, 155) + Zeros(12))))))))
  }

  function Header(h: Head, device: bytes): (p: bytes)
    requires |h.name| <= 100 && |h.prefix| <= 155 && |device| == 8
    ensures |p| == BLOCK
  {
    var sum := SumOf(Left(h)) + 8 * SPACE + SumOf(Right(h, device));
    Left(h) + (OctalDigits(sum, 6) + [NUL, SPACE] + Right(h, device))
  }

  /** A field and what follows it, read off at an offset. */
  lemma At(s: bytes, offset: nat, field: bytes, rest: bytes)
    requires offset <= |s| && s[offset..] == field + rest
    ensures offset + |field| <= |s|
    ensures s[offset..offset + |field|] == field
    ensures s[offset + |field|..] == rest
  {
    assert |s| == offset + |field| + |rest|;
    assert s[offset..][|field|..] == rest;
    assert forall i :: 0 <= i < |field| ==> s[offset..][i] == field[i];
  }

  lemma {:induction false} SumOfBound(s: bytes)
    ensures SumOf(s) <= 255 * |s|
  {
    if s != [] {
      SumOfBound(s[1..]);
    }
  }

  /** The fields of the left part, in place. */
  lemma LeftFields(h: Head, p: bytes)
    requires |h.name| <= 100 && |p| == BLOCK && p[..148] == Left(h)
    ensures p[0..100] == Padded(h.name, 100)
    ensures p[100..108] == Number(h.mode, 7)
    ensures p[108..116] == Number(0, 7)
    ensures p[116..124] == Number(0, 7)
    ensures p[124..136] == Number(h.size, 11)
    ensures p[136..148] == Number(h.mtime, 11)
  {
    var s := Left(h);
    var r5 := Number(h.mtime, 11);
    var r4 := Number(h.size, 11) + r5;
    var r3 := Number(0, 7) + r4;
    var r2 := Number(0, 7) + r3;
    var r1 := Number(h.mode, 7) + r2;
    At(s, 0, Padded(h.name, 100), r1);
    At(s, 100, Number(h.mode, 7), r2);
    At(s, 108, Number(0, 7), r3);
    At(s, 116, Number(0, 7), r4);
    At(s, 124, Number(h.size, 11), r5);
    SubSlice(p, 148, 0, 100);
    SubSlice(p, 148, 100, 108);
    SubSlice(p, 148, 108, 116);
    SubSlice(p, 148, 116, 124);
    SubSlice(p, 148, 124, 136);
    SubSlice(p, 148, 136, 148);
  }

  lemma SubSlice(p: bytes, n: nat, i: nat, j: nat)
    requires i <= j <= n <= |p|
    ensures p[..n][i..j] == p[i..j]
  {
  }

  /** The fields of the right part, in place. */
  lemma RightFields(h: Head, device: bytes, p: bytes)
    requires |h.prefix| <= 155 && |device| == 8
    requires |p| == BLOCK && p[156..] == Right(h, device)
    ensures p[156] == h.kind
    ensures p[157..257] == Zeros(100)
    ensures p[257..265] == USTAR
    ensures p[265..297] == Zeros(32)
    ensures p[297..329] == Zeros(32)
    ensures p[345..500] == Padded(h.prefix, 155)
  {
    var r8 := Padded(h.prefix, 155) + Zeros(12);
    var r6 := device + (device + r8);
    var r5 := Zeros(32) + r6;
    var r4 := Zeros(32) + r5;
    var r3 := USTAR + r4;
    var r2 := Zeros(100) + r3;
    At(p, 156, [h.kind], r2);
    assert p[156] == p[156..157][0];
    At(p, 157, Zeros(100), r3);
    At(p, 257, USTAR, r4);
    At(p, 265, Zeros(32), r5);
    At(p, 297, Zeros(32), r6);
    At(p, 329, device, device + r8);
    At(p, 337, device, r8);
    At(p, 345, Padded(h.prefix, 155), Zeros(12));
  }

  /** The three parts of a header. */
  lemma HeaderParts(h: Head, device: bytes)
    requires |h.name| <= 100 && |h.prefix| <= 155 && |device| == 8
    ensures var p := Header(h, device);
            var sum := SumOf(Left(h)) + 8 * SPACE + SumOf(Right(h, device));
            && p[..148] == Left(h)
            && p[148..156] == OctalDigits(sum, 6) + [NUL, SPACE]
            && p[156..] == Right(h, device)
  {
    var sum := SumOf(Left(h)) + 8 * SPACE + SumOf(Right(h, device));
    ThreeParts(Left(h), OctalDigits(sum, 6) + [NUL, SPACE], Right(h, device));
  }

  lemma ThreeParts(a: bytes, b: bytes, c: bytes)
    ensures var p := a + (b + c);
            p[..|a|] == a && p[|a|..|a| + |b|] == b && p[|a| + |b|..] == c
  {
    var p := a + (b + c);
    assert p[0..] == p;
    At(p, 0, a, b + c);
    At(p, |a|, b, c);
  }

  /** A padded name is read back. */
  lemma PaddedString(s: bytes, n: nat)
    requires NoNul(s) && |s| <= n
    ensures CString(Padded(s, n)) == s
  {
    CStringPadded(s, Zeros(n - |s|));
  }

  lemma PowersOf8()
    ensures Pow8(6) == 262144 && Pow8(7) == 2097152 && Pow8(11) == 8589934592
  {
    assert Pow8(2) == 64;
    assert Pow8(4) == 4096;
    assert Pow8(6) == 262144;
    assert Pow8(8) == 16777216;
    assert Pow8(10) == 1073741824;
  }

  lemma SumFits(left: bytes, right: bytes)
    requires |left| == 148 && |right| == 356
    ensures SumOf(left) + 8 * SPACE + SumOf(right) < Pow8(6)
  {
    SumOfBound(left);
    SumOfBound(right);
    PowersOf8();
  }

  lemma ChecksumReadsBack(h: Head, device: bytes)
    requires |h.name| <= 100 && |h.prefix| <= 155 && |device| == 8
    ensures Octal(Header(h, device)[148..156]) == Ok(Checksum(Header(h, device)))
  {
    var sum := SumOf(Left(h)) + 8 * SPACE + SumOf(Right(h, device));
    SumFits(Left(h), Right(h, device));
    HeaderParts(h, device);
    assert Checksum(Header(h, device)) == sum;
    OctalField(sum, 6, [NUL, SPACE]);
  }

  /** The reader recovers the type, the size and the name from a written header. */
  lemma DecodeHeader(h: Head, device: bytes)
    requires Fits(h) && |device| == 8
    ensures Decode(Header(h, device)) == Ok(Fields(h.kind, h.size, Joined(h.prefix, h.name)))
    ensures h.kind != NUL ==> !AllZero(Header(h, device))
  {
    HeaderParts(h, device);
    ChecksumReadsBack(h, device);
    LeftFields(h, Header(h, device));
    RightFields(h, device, Header(h, device));
    OctalField(h.size, 11, [NUL]);
    PaddedString(h.name, 100);
    PaddedString(h.prefix, 155);
  }

  /** The fields that `verify` demands of every member header. */
  predicate FixedFields(header: bytes, mtime: nat)
    requires |header| == BLOCK
  {
    && header[156] == REGULAR
    && Octal(header[100..108]) == Ok(0x1A4)
    && Octal(header[108..116]) == Ok(0)
    && Octal(header[116..124]) == Ok(0)
    && Octal(header[136..148]) == Ok(mtime)
    && CString(header[157..257]) == []
    && CString(header[265..297]) == []
    && CString(header[297..329]) == []
  }

  lemma FieldsAreFixed(h: Head, device: bytes)
    requires Fits(h) && |device| == 8 && h.kind == REGULAR && h.mode == 0x1A4
    ensures FixedFields(Header(h, device), h.mtime)
  {
    HeaderParts(h, device);
    LeftFields(h, Header(h, device));
    RightFields(h, device, Header(h, device));
    PowersOf8();
    OctalField(h.mode, 7, [NUL]);
    OctalField(0, 7, [NUL]);
    OctalField(h.mtime, 11, [NUL]);
  }
}
