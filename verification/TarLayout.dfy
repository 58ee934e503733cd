/** Which byte strings are archives, stated on the bytes alone: the reader accepts exactly these. */
module TarLayout {
  import opened Common
  import opened Bytes
  import opened Tar
  import TarHeader
  import Pax

  // ---- Fields ----

  /** Octal digits, the most significant first. */
  function Value8(digits: bytes, n: nat): nat
    requires forall i :: 0 <= i < |digits| ==> 48 <= digits[i] <= 55
  {
    if digits == [] then n else Value8(digits[1..], 8 * n + (digits[0] - 48))
  }

  /** Spaces to `i`, digits to `j`, spaces to `k`, and there the end of the field or a NUL. */
  predicate SaysAt(field: bytes, n: nat, i: nat, j: nat, k: nat) {
    && i < j <= k <= |field|
    && (forall p :: 0 <= p < i ==> field[p] == 32)
    && (forall p :: i <= p < j ==> 48 <= field[p] <= 55)
    && (forall p :: j <= p < k ==> field[p] == 32)
    && (k == |field| || field[k] == 0)
    && n == Value8(field[i..j], 0)
  }

  /** The field is the octal number `n`. */
  ghost predicate Says(field: bytes, n: nat) {
    exists i: nat, j: nat, k: nat :: SaysAt(field, n, i, j, k)
  }

  /** The field is the string `s`, up to its first NUL. */
  predicate Holds(field: bytes, s: bytes) {
    && |s| <= |field| && field[..|s|] == s && (|s| == |field| || field[|s|] == 0)
    && forall i :: 0 <= i < |s| ==> s[i] != 0
  }

  /** The sum of the header's bytes from `i` on, the checksum field at 148 to 155 read as spaces. */
  function HeaderSum(header: bytes, i: nat): nat
    requires i <= |header|
    decreases |header| - i
  {
    if i == |header| then 0 else (if 148 <= i < 156 then 32 else header[i]) + HeaderSum(header, i + 1)
  }

  /** A physical ustar header: checksum, magic and version, type, size, and the name joined from its two fields. */
  ghost predicate HeaderSays(header: bytes, kind: byte, size: nat, name: bytes) {
    && |header| == 512
    && Says(header[148..156], HeaderSum(header, 0))
    && header[257..265] == [117, 115, 116, 97, 114, 0, 48, 48]
    && header[156] == kind
    && Says(header[124..136], size)
    && exists prefix: bytes, own: bytes :: IsNameOf(header, prefix, own, name)
  }

  predicate IsNameOf(header: bytes, prefix: bytes, own: bytes, name: bytes)
    requires |header| == 512
  {
    && Holds(header[0..100], own) && Holds(header[345..500], prefix)
    && name == if prefix == [] then own else prefix + [47] + own
  }

  // ---- The octal fields ----

  lemma {:induction false} ValueOfMore(digits: bytes, n: nat, d: byte)
    requires forall i :: 0 <= i < |digits| ==> 48 <= digits[i] <= 55
    requires 48 <= d <= 55
    ensures Value8(digits + [d], n) == 8 * Value8(digits, n) + (d - 48)
  {
    if digits == [] {
      assert (digits + [d])[1..] == [];
    } else {
      assert (digits + [d])[1..] == digits[1..] + [d];
      ValueOfMore(digits[1..], 8 * n + (digits[0] - 48), d);
    }
  }

  lemma {:induction false} SameValue(digits: bytes)
    requires IsOctal(digits)
    ensures OctalValue(digits) == Value8(digits, 0)
  {
    if digits != [] {
      var n := |digits| - 1;
      SameValue(digits[..n]);
      ValueOfMore(digits[..n], 0, digits[n]);
      assert digits == digits[..n] + [digits[n]];
    }
  }

  predicate AllSpaces(s: bytes) {
    forall i :: 0 <= i < |s| ==> s[i] == SPACE
  }

  lemma {:induction false} StripLeftIs(s: bytes) returns (i: nat)
    ensures i <= |s| && StripLeft(s) == s[i..] && forall p :: 0 <= p < i ==> s[p] == SPACE
  {
    if s != [] && s[0] == SPACE {
      var k := StripLeftIs(s[1..]);
      i := k + 1;
      assert s[i..] == s[1..][k..];
      assert forall p :: 1 <= p < i ==> s[p] == s[1..][p - 1];
    } else {
      i := 0;
    }
  }

  lemma {:induction false} StripRightIs(s: bytes) returns (j: nat)
    ensures j <= |s| && StripRight(s) == s[..j] && forall p :: j <= p < |s| ==> s[p] == SPACE
  {
    if s != [] && s[|s| - 1] == SPACE {
      var n := |s| - 1;
      j := StripRightIs(s[..n]);
      assert s[..n][..j] == s[..j];
      assert forall p :: j <= p < n ==> s[p] == s[..n][p];
    } else {
      j := |s|;
    }
  }

  /** What is left between the spaces. */
  lemma StripsAre(s: bytes) returns (i: nat, j: nat)
    ensures i <= j <= |s| && StripRight(StripLeft(s)) == s[i..j]
    ensures (forall p :: 0 <= p < i ==> s[p] == SPACE) && forall p :: j <= p < |s| ==> s[p] == SPACE
  {
    i := StripLeftIs(s);
    var left := s[i..];
    var m := StripRightIs(left);
    j := i + m;
    assert left[..m] == s[i..j];
    assert forall p :: j <= p < |s| ==> s[p] == left[p - i];
  }

  lemma {:induction false} CStringIs(field: bytes)
    ensures Holds(field, CString(field))
  {
    if field != [] && field[0] != NUL {
      CStringIs(field[1..]);
      var s := CString(field[1..]);
      assert field[..|s| + 1] == [field[0]] + field[1..][..|s|];
    }
  }

  lemma HoldsOnce(field: bytes, s: bytes)
    ensures Holds(field, s) <==> CString(field) == s
  {
    CStringIs(field);
    if Holds(field, s) {
      assert field == s + field[|s|..];
      CStringPadded(s, field[|s|..]);
    }
  }

  lemma {:induction false} StripLeftOf(spaces: bytes, rest: bytes)
    requires AllSpaces(spaces) && rest != [] && rest[0] != SPACE
    ensures StripLeft(spaces + rest) == rest
  {
    if spaces == [] {
      assert spaces + rest == rest;
    } else {
      assert (spaces + rest)[1..] == spaces[1..] + rest;
      StripLeftOf(spaces[1..], rest);
    }
  }

  lemma {:induction false} StripRightOf(rest: bytes, spaces: bytes)
    requires AllSpaces(spaces) && rest != [] && rest[|rest| - 1] != SPACE
    ensures StripRight(rest + spaces) == rest
  {
    if spaces == [] {
      assert rest + spaces == rest;
    } else {
      var n := |spaces| - 1;
      var s := rest + spaces;
      assert s[..|s| - 1] == rest + spaces[..n] && s[|s| - 1] == spaces[n];
      StripRightOf(rest, spaces[..n]);
    }
  }

  lemma StripsOf(before: bytes, digits: bytes, after: bytes)
    requires AllSpaces(before) && AllSpaces(after)
    requires digits != [] && digits[0] != SPACE && digits[|digits| - 1] != SPACE
    ensures StripRight(StripLeft(before + (digits + after))) == digits
  {
    StripLeftOf(before, digits + after);
    StripRightOf(digits, after);
  }

  /** What the reader's octal function accepts says so in its bytes. */
  lemma OctalSays(field: bytes, n: nat)
    requires Octal(field) == Ok(n)
    ensures Says(field, n)
  {
    CStringIs(field);
    var c := CString(field);
    var i, j := StripsAre(c);
    SameValue(c[i..j]);
    StringSays(field, c, n, i, j);
  }

  lemma StringSays(field: bytes, c: bytes, n: nat, i: nat, j: nat)
    requires Holds(field, c) && i < j <= |c| && IsOctal(c[i..j]) && n == Value8(c[i..j], 0)
    requires (forall p :: 0 <= p < i ==> c[p] == SPACE) && forall p :: j <= p < |c| ==> c[p] == SPACE
    ensures SaysAt(field, n, i, j, |c|)
  {
    assert forall p :: 0 <= p < |c| ==> field[p] == c[p];
    assert field[i..j] == c[i..j];
    assert forall p :: i <= p < j ==> c[p] == c[i..j][p - i];
  }

  /** What says a number in its bytes is read as it. */
  lemma SaysOctal(field: bytes, n: nat, i: nat, j: nat, k: nat)
    requires SaysAt(field, n, i, j, k)
    ensures Octal(field) == Ok(n)
  {
    var c, digits := field[..k], field[i..j];
    HoldsOnce(field, c);
    assert c == field[..i] + (digits + field[j..k]);
    assert digits[0] == field[i] && digits[|digits| - 1] == field[j - 1];
    StripsOf(field[..i], digits, field[j..k]);
    SameValue(digits);
    assert field[0] < 128;
  }

  lemma OctalIff(field: bytes, n: nat)
    ensures Octal(field) == Ok(n) <==> Says(field, n)
  {
    if Octal(field) == Ok(n) {
      OctalSays(field, n);
    }
    if Says(field, n) {
      var i: nat, j: nat, k: nat :| SaysAt(field, n, i, j, k);
      SaysOctal(field, n, i, j, k);
    }
  }

  // ---- The checksum ----

  lemma {:induction false} SumFrom(header: bytes, i: nat)
    requires 156 <= i <= |header|
    ensures HeaderSum(header, i) == SumOf(header[i..])
    decreases |header| - i
  {
    if i < |header| {
      SumFrom(header, i + 1);
      assert header[i..][1..] == header[i + 1..];
    }
  }

  lemma {:induction false} SumBetween(header: bytes, i: nat)
    requires 148 <= i <= 156 <= |header|
    ensures HeaderSum(header, i) == 32 * (156 - i) + SumOf(header[156..])
    decreases 156 - i
  {
    if i == 156 {
      SumFrom(header, 156);
    } else {
      SumBetween(header, i + 1);
    }
  }

  lemma {:induction false} SumBefore(header: bytes, i: nat)
    requires i <= 148 && |header| >= 156
    ensures HeaderSum(header, i) == SumOf(header[i..148]) + 256 + SumOf(header[156..])
    decreases 148 - i
  {
    if i == 148 {
      SumBetween(header, 148);
    } else {
      SumBefore(header, i + 1);
      assert header[i..148][1..] == header[i + 1..148];
    }
  }

  lemma ChecksumIs(header: bytes)
    requires |header| == BLOCK
    ensures Checksum(header) == HeaderSum(header, 0)
  {
    SumBefore(header, 0);
    assert header[0..148] == header[..148];
  }

  // ---- One header ----

  lemma NameIs(header: bytes, name: bytes)
    requires |header| == BLOCK
    ensures name == Joined(CString(header[345..500]), CString(header[0..100]))
       <==> exists prefix: bytes, own: bytes :: IsNameOf(header, prefix, own, name)
  {
    var prefix, own := CString(header[345..500]), CString(header[0..100]);
    HoldsOnce(header[0..100], own);
    HoldsOnce(header[345..500], prefix);
    if name == Joined(prefix, own) {
      assert IsNameOf(header, prefix, own, name);
    }
    if p: bytes, o: bytes :| IsNameOf(header, p, o, name) {
      HoldsOnce(header[0..100], o);
      HoldsOnce(header[345..500], p);
    }
  }

  lemma DecodeIff(header: bytes, kind: byte, size: nat, name: bytes)
    requires |header| == BLOCK
    ensures Decode(header) == Ok(Fields(kind, size, name)) <==> HeaderSays(header, kind, size, name)
  {
    ChecksumIs(header);
    OctalIff(header[148..156], HeaderSum(header, 0));
    OctalIff(header[124..136], size);
    NameIs(header, name);
  }
  /** The fields that `verify` demands: type '0', mode 0644, no owner, the given time, no link and no owner names. */
  ghost predicate FixedOnBytes(header: bytes, mtime: nat)
    requires |header| == 512
  {
    && header[156] == 48
    && Says(header[100..108], 420) && Says(header[108..116], 0) && Says(header[116..124], 0)
    && Says(header[136..148], mtime)
    && header[157] == 0 && header[265] == 0 && header[297] == 0
  }

  lemma FixedIff(header: bytes, mtime: nat)
    requires |header| == BLOCK
    ensures TarHeader.FixedFields(header, mtime) <==> FixedOnBytes(header, mtime)
  {
    OctalIff(header[100..108], 420);
    OctalIff(header[108..116], 0);
    OctalIff(header[116..124], 0);
    OctalIff(header[136..148], mtime);
    EmptyIff(header[157..257]);
    EmptyIff(header[265..297]);
    EmptyIff(header[297..329]);
  }

  lemma EmptyIff(field: bytes)
    requires field != []
    ensures CString(field) == [] <==> field[0] == 0
  {
  }

  // ---- The whole archive ----

  const PATH_KEY: text := [112, 97, 116, 104]
  const SIZE_KEY: text := [115, 105, 122, 101]

  /** The name under which a member is found: a pending path that is not empty, or the header's own. */
  function NameUnder(pending: Option<Pax.Records>, own: text): text {
    match pending
    case None => own
    case Some(records) =>
      if PATH_KEY in records && records[PATH_KEY].Text? && records[PATH_KEY].text != [] then records[PATH_KEY].text
      else own
  }

  /** A pending size is the header's. */
  predicate SizeUnder(pending: Option<Pax.Records>, size: nat) {
    pending.Some? && SIZE_KEY in pending.value ==> pending.value[SIZE_KEY] == Pax.Number(size)
  }

  ghost predicate ZeroFrom(tar: bytes, at: nat) {
    forall i :: at <= i < |tar| ==> tar[i] == 0
  }

  /** A header that is not the end marker. */
  ghost predicate NotBlank(header: bytes) {
    exists i :: 0 <= i < |header| && header[i] != 0
  }

  /**
   * From `at` on the archive consists of the physical headers at `heads` and what they size, then of at least two
   * blocks of zeros to the end; it holds `entries`. A pending extended header applies to the next member.
   */
  ghost predicate Layout(tar: bytes, at: nat, pending: Option<Pax.Records>, heads: seq<nat>, entries: seq<Entry>,
                         read: Reader)
    decreases |heads|
  {
    if heads == [] then
      entries == [] && pending.None? && at + 1024 <= |tar| && ZeroFrom(tar, at)
    else
      && heads[0] == at && at + 512 <= |tar| && NotBlank(tar[at..at + 512])
      && exists kind: byte, size: nat, name: bytes ::
           && HeaderSays(tar[at..at + 512], kind, size, name)
           && Follows(tar, at, pending, heads, entries, read, kind, size, name)
  }

  /** Past the header at `at`, and the whole blocks of what it sizes. */
  function Past(at: nat, size: nat): nat {
    at + 512 + (size + 511) / 512 * 512
  }

  /** The body of an extended header: within its cap, and records that can be read. */
  ghost predicate IsExtended(tar: bytes, at: nat, size: nat, read: Reader, records: Pax.Records) {
    && size <= 1024 && at + 512 + size <= |tar|
    && read(tar[at + 512..at + 512 + size]) == Ok(records)
  }

  /** A member: a directory, which has no size, or a file with the bytes that follow its header. */
  ghost predicate IsMember(tar: bytes, at: nat, pending: Option<Pax.Records>, kind: byte, size: nat, name: bytes,
                           entry: Entry)
    requires at + 512 <= |tar|
  {
    && SizeUnder(pending, size) && entry.name == NameUnder(pending, name) && entry.header == tar[at..at + 512]
    && match kind
       case 53 => // '5'
         entry.kind == Dir && size == 0 && entry.data == []
       case _ => // '0' or NUL
         && (kind == 48 || kind == 0) && entry.kind == File
         && size <= 8388608 && at + 512 + size <= |tar| && entry.data == tar[at + 512..at + 512 + size]
  }

  /** What the header at `at` sizes, and the rest of the archive after it. */
  ghost predicate Follows(tar: bytes, at: nat, pending: Option<Pax.Records>, heads: seq<nat>, entries: seq<Entry>,
                          read: Reader, kind: byte, size: nat, name: bytes)
    requires heads != [] && at + 512 <= |tar|
    decreases |heads|, 0
  {
    if kind == 120 then // 'x'
      && pending.None?
      && exists records ::
           && IsExtended(tar, at, size, read, records)
           && Layout(tar, Past(at, size), Some(records), heads[1..], entries, read)
    else
      && entries != [] && IsMember(tar, at, pending, kind, size, name, entries[0])
      && Layout(tar, Past(at, size), None, heads[1..], entries[1..], read)
  }

  /** Room for these headers and this data, after what came before. */
  predicate WithinArchiveCaps(c: Cursor, heads: seq<nat>, entries: seq<Entry>) {
    c.headers + |heads| <= 4096 && c.total + TotalSize(entries) <= 50331648
  }

  lemma NamesAgree(pending: Option<Pax.Records>, own: text, size: nat)
    ensures EffectiveName(pending, own) == NameUnder(pending, own)
    ensures SizeAgrees(pending, size) <==> SizeUnder(pending, size)
  {
    assert Pax.PATH == PATH_KEY && Pax.SIZE == SIZE_KEY;
  }

  lemma BlankIff(header: bytes)
    ensures NotBlank(header) <==> !AllZero(header)
  {
  }

  /** The end: at least two blocks of zeros, and nothing pending. */
  lemma EndIff(tar: bytes, c: Cursor, read: Reader)
    ensures ReadHeader(tar, c, read) == Ok(End) <==>
            c.extended.None? && c.offset + 1024 <= |tar| && ZeroFrom(tar, c.offset)
  {
    if c.offset + 512 <= |tar| {
      var header := tar[c.offset..c.offset + 512];
      assert forall i :: 0 <= i < 512 ==> header[i] == tar[c.offset + i];
      assert forall i :: c.offset <= i < |tar| ==> tar[i] == tar[c.offset..][i - c.offset];
      if ZeroFrom(tar, c.offset) {
        assert AllZero(header) && AllZero(tar[c.offset..]);
      }
    }
  }

  lemma DecodedStep(tar: bytes, c: Cursor, read: Reader, header: bytes)
    requires ReadHeader(tar, c, read).Ok? && !ReadHeader(tar, c, read).value.End?
    requires c.offset + 512 <= |tar| ==> header == tar[c.offset..c.offset + 512]
    ensures c.offset + 512 <= |tar| && c.headers < 4096 && !AllZero(header) && Decode(header).Ok?
    ensures var f := Decode(header).value;
            && f.kind in {48, 0, 53, 120}
            && ReadHeader(tar, c, read)
            == if f.kind == EXTENDED then ReadExtended(tar, c, f, read) else ReadMember(tar, c, f, header)
  {
  }

  /** A header that was read, and its step. */
  lemma StepSays(tar: bytes, c: Cursor, read: Reader) returns (kind: byte, size: nat, name: bytes)
    requires ReadHeader(tar, c, read).Ok? && !ReadHeader(tar, c, read).value.End?
    ensures c.offset + 512 <= |tar| && c.headers < 4096 && NotBlank(tar[c.offset..c.offset + 512])
    ensures HeaderSays(tar[c.offset..c.offset + 512], kind, size, name)
    ensures var f, header := Fields(kind, size, name), tar[c.offset..c.offset + 512];
            ReadHeader(tar, c, read)
            == if kind == EXTENDED then ReadExtended(tar, c, f, read) else ReadMember(tar, c, f, header)
    ensures kind in {48, 0, 53, 120}
  {
    var header := if c.offset + 512 <= |tar| then tar[c.offset..c.offset + 512] else [];
    DecodedStep(tar, c, read, header);
    BlankIff(header);
    var f := Decode(header).value;
    kind, size, name := f.kind, f.size, f.name;
    DecodeIff(header, kind, size, name);
  }

  /** Where the reader is past an extended header. */
  function PastExtended(c: Cursor, size: nat, records: Pax.Records): Cursor {
    Cursor(Past(c.offset, size), c.headers + 1, c.total, Some(records))
  }

  /** An extended header makes the reader keep its records for the next. */
  lemma ExtendedSkips(tar: bytes, c: Cursor, read: Reader, f: Fields, records: Pax.Records)
    requires IsExtended(tar, c.offset, f.size, read, records) && c.extended.None?
    ensures ReadExtended(tar, c, f, read) == Ok(Skip(PastExtended(c, f.size, records)))
  {
  }

  lemma SkippedIsExtended(tar: bytes, c: Cursor, read: Reader, f: Fields) returns (records: Pax.Records)
    requires ReadExtended(tar, c, f, read).Ok?
    ensures c.extended.None? && IsExtended(tar, c.offset, f.size, read, records)
    ensures ReadExtended(tar, c, f, read) == Ok(Skip(PastExtended(c, f.size, records)))
  {
    var body := tar[c.offset + 512..c.offset + 512 + f.size];
    records := read(body).value;
  }

  /** Where the reader is past a member. */
  function PastMember(c: Cursor, size: nat, entry: Entry): Cursor {
    Cursor(Past(c.offset, size), c.headers + 1, c.total + |entry.data|, None)
  }

  /** A member makes the reader yield its entry. */
  lemma MemberYields(tar: bytes, c: Cursor, kind: byte, size: nat, name: bytes, entry: Entry)
    requires c.offset + 512 <= |tar| && kind in {48, 0, 53}
    requires IsMember(tar, c.offset, c.extended, kind, size, name, entry) && c.total + |entry.data| <= 50331648
    ensures ReadMember(tar, c, Fields(kind, size, name), tar[c.offset..c.offset + 512])
         == Ok(Found(entry, PastMember(c, size, entry)))
  {
    NamesAgree(c.extended, name, size);
  }

  /** What the reader yields is a member. */
  lemma YieldedIsMember(tar: bytes, c: Cursor, kind: byte, size: nat, name: bytes)
    requires c.offset + 512 <= |tar| && kind in {48, 0, 53} && c.total <= 50331648
    requires ReadMember(tar, c, Fields(kind, size, name), tar[c.offset..c.offset + 512]).Ok?
    ensures var step := ReadMember(tar, c, Fields(kind, size, name), tar[c.offset..c.offset + 512]).value;
            && step.Found? && IsMember(tar, c.offset, c.extended, kind, size, name, step.entry)
            && step.next == PastMember(c, size, step.entry) && c.total + |step.entry.data| <= 50331648
  {
    NamesAgree(c.extended, name, size);
  }

  lemma ParseSkips(tar: bytes, c: Cursor, read: Reader, next: Cursor)
    requires ReadHeader(tar, c, read) == Ok(Skip(next))
    ensures Parse(tar, c, read) == Parse(tar, next, read) && next.offset > c.offset && c.offset < |tar|
  {
  }

  lemma ParseFinds(tar: bytes, c: Cursor, read: Reader, entry: Entry, next: Cursor)
    requires ReadHeader(tar, c, read) == Ok(Found(entry, next))
    ensures Parse(tar, c, read) == Before(entry, Parse(tar, next, read)) && next.offset > c.offset && c.offset < |tar|
  {
  }

  /** An extended header in front of a layout. */
  lemma ExtendedInFront(tar: bytes, c: Cursor, read: Reader, size: nat, name: bytes, next: Cursor, rest: seq<nat>,
                        entries: seq<Entry>)
    requires c.offset + 512 <= |tar| && c.extended.None? && NotBlank(tar[c.offset..c.offset + 512])
    requires HeaderSays(tar[c.offset..c.offset + 512], 120, size, name) && next.extended.Some?
    requires IsExtended(tar, c.offset, size, read, next.extended.value) && next.offset == Past(c.offset, size)
    requires Layout(tar, next.offset, next.extended, rest, entries, read)
    ensures Layout(tar, c.offset, c.extended, [c.offset] + rest, entries, read)
  {
    assert ([c.offset] + rest)[1..] == rest;
    assert Follows(tar, c.offset, c.extended, [c.offset] + rest, entries, read, 120, size, name);
  }

  /** A member in front of a layout. */
  lemma MemberInFront(tar: bytes, c: Cursor, read: Reader, kind: byte, size: nat, name: bytes, entry: Entry,
                      rest: seq<nat>, tail: seq<Entry>)
    requires c.offset + 512 <= |tar| && NotBlank(tar[c.offset..c.offset + 512]) && kind != 120
    requires HeaderSays(tar[c.offset..c.offset + 512], kind, size, name)
    requires IsMember(tar, c.offset, c.extended, kind, size, name, entry)
    requires Layout(tar, Past(c.offset, size), None, rest, tail, read)
    ensures Layout(tar, c.offset, c.extended, [c.offset] + rest, [entry] + tail, read)
  {
    assert ([c.offset] + rest)[1..] == rest && ([entry] + tail)[1..] == tail;
    assert Follows(tar, c.offset, c.extended, [c.offset] + rest, [entry] + tail, read, kind, size, name);
  }

  lemma TotalOfMore(entry: Entry, tail: seq<Entry>)
    ensures TotalSize([entry] + tail) == |entry.data| + TotalSize(tail)
  {
    assert ([entry] + tail)[1..] == tail;
  }

  lemma {:induction false} ParsedHasLayout(tar: bytes, c: Cursor, read: Reader, entries: seq<Entry>)
    returns (heads: seq<nat>)
    requires Parse(tar, c, read) == Ok(entries) && c.headers <= 4096 && c.total <= 50331648
    ensures Layout(tar, c.offset, c.extended, heads, entries, read) && WithinArchiveCaps(c, heads, entries)
    decreases |tar| - c.offset
  {
    var step := ReadHeader(tar, c, read).value;
    if step.End? {
      EndIff(tar, c, read);
      heads := [];
    } else {
      var kind, size, name := StepSays(tar, c, read);
      if kind == 120 {
        var records := SkippedIsExtended(tar, c, read, Fields(kind, size, name));
        ParseSkips(tar, c, read, step.next);
        var rest := ParsedHasLayout(tar, step.next, read, entries);
        heads := [c.offset] + rest;
        ExtendedInFront(tar, c, read, size, name, step.next, rest, entries);
      } else {
        YieldedIsMember(tar, c, kind, size, name);
        ParseFinds(tar, c, read, step.entry, step.next);
        var tail := Parse(tar, step.next, read).value;
        var rest := ParsedHasLayout(tar, step.next, read, tail);
        heads := [c.offset] + rest;
        MemberInFront(tar, c, read, kind, size, name, step.entry, rest, tail);
        TotalOfMore(step.entry, tail);
      }
    }
  }

  /** The step that a laid-out header makes the reader take. */
  lemma StepTaken(tar: bytes, c: Cursor, read: Reader, kind: byte, size: nat, name: bytes)
    requires c.offset + 512 <= |tar| && c.headers < 4096 && NotBlank(tar[c.offset..c.offset + 512])
    requires HeaderSays(tar[c.offset..c.offset + 512], kind, size, name) && kind in {48, 0, 53, 120}
    ensures var f, header := Fields(kind, size, name), tar[c.offset..c.offset + 512];
            ReadHeader(tar, c, read)
            == if kind == EXTENDED then ReadExtended(tar, c, f, read) else ReadMember(tar, c, f, header)
  {
    var header := tar[c.offset..c.offset + 512];
    BlankIff(header);
    DecodeIff(header, kind, size, name);
  }

  /** The first header of a layout, and what follows it. */
  lemma FirstHead(tar: bytes, at: nat, pending: Option<Pax.Records>, heads: seq<nat>, entries: seq<Entry>, read: Reader)
    returns (kind: byte, size: nat, name: bytes)
    requires Layout(tar, at, pending, heads, entries, read) && heads != []
    ensures at + 512 <= |tar| && NotBlank(tar[at..at + 512]) && HeaderSays(tar[at..at + 512], kind, size, name)
    ensures Follows(tar, at, pending, heads, entries, read, kind, size, name) && kind in {48, 0, 53, 120}
  {
    kind, size, name :|
      && HeaderSays(tar[at..at + 512], kind, size, name)
      && Follows(tar, at, pending, heads, entries, read, kind, size, name);
  }

  lemma {:induction false} LayoutIsParsed(tar: bytes, c: Cursor, read: Reader, heads: seq<nat>, entries: seq<Entry>)
    requires Layout(tar, c.offset, c.extended, heads, entries, read) && WithinArchiveCaps(c, heads, entries)
    ensures Parse(tar, c, read) == Ok(entries)
    decreases |heads|
  {
    if heads == [] {
      EndIff(tar, c, read);
    } else {
      var kind, size, name := FirstHead(tar, c.offset, c.extended, heads, entries, read);
      StepTaken(tar, c, read, kind, size, name);
      if kind == 120 {
        var records :|
          && IsExtended(tar, c.offset, size, read, records)
          && Layout(tar, Past(c.offset, size), Some(records), heads[1..], entries, read);
        ExtendedSkips(tar, c, read, Fields(kind, size, name), records);
        var next := PastExtended(c, size, records);
        ParseSkips(tar, c, read, next);
        LayoutIsParsed(tar, next, read, heads[1..], entries);
      } else {
        MemberParsed(tar, c, read, heads, entries, kind, size, name);
      }
    }
  }

  lemma {:induction false} MemberParsed(tar: bytes, c: Cursor, read: Reader, heads: seq<nat>, entries: seq<Entry>,
                                        kind: byte, size: nat, name: bytes)
    requires heads != [] && c.offset + 512 <= |tar| && kind in {48, 0, 53}
    requires Follows(tar, c.offset, c.extended, heads, entries, read, kind, size, name)
    requires ReadHeader(tar, c, read)
          == ReadMember(tar, c, Fields(kind, size, name), tar[c.offset..c.offset + 512])
    requires WithinArchiveCaps(c, heads, entries)
    ensures Parse(tar, c, read) == Ok(entries)
    decreases |heads|, 0
  {
    var entry, tail := entries[0], entries[1..];
    TotalOfMore(entry, tail);
    assert entries == [entry] + tail;
    MemberYields(tar, c, kind, size, name, entry);
    var next := PastMember(c, size, entry);
    ParseFinds(tar, c, read, entry, next);
    LayoutIsParsed(tar, next, read, heads[1..], tail);
  }

  /**
   * The reader yields `entries` exactly when the bytes are laid out so: every physical header, extended ones included,
   * with its checksum, magic, type and size, each entry with the data its header sizes, and the caps kept.
   */
  lemma ParseIffLayout(tar: bytes, read: Reader, entries: seq<Entry>)
    ensures Parse(tar, START, read) == Ok(entries)
       <==> exists heads :: Layout(tar, 0, None, heads, entries, read) && WithinArchiveCaps(START, heads, entries)
  {
    if Parse(tar, START, read) == Ok(entries) {
      var heads := ParsedHasLayout(tar, START, read, entries);
    }
    if heads :| Layout(tar, 0, None, heads, entries, read) && WithinArchiveCaps(START, heads, entries) {
      LayoutIsParsed(tar, START, read, heads, entries);
    }
  }

  /** A header of the archive, on its bytes: its checksum, its magic, its type and its size. */
  ghost predicate IsSound(tar: bytes, head: nat) {
    && head + 512 <= |tar|
    && exists kind: byte, size: nat, name: bytes :: IsTaken(tar, head, kind, size, name)
  }

  /** A header of a type that the reader takes: '0', NUL, '5' or 'x'. */
  ghost predicate IsTaken(tar: bytes, head: nat, kind: byte, size: nat, name: bytes)
    requires head + 512 <= |tar|
  {
    HeaderSays(tar[head..head + 512], kind, size, name) && (kind == 48 || kind == 0 || kind == 53 || kind == 120)
  }

  /** The first header of a layout is sound, and what remains behind it is a layout. */
  lemma HeadThenRest(tar: bytes, at: nat, pending: Option<Pax.Records>, heads: seq<nat>, entries: seq<Entry>,
                     read: Reader)
    returns (next: nat, following: Option<Pax.Records>, rest: seq<Entry>)
    requires Layout(tar, at, pending, heads, entries, read) && heads != []
    ensures IsSound(tar, heads[0]) && Layout(tar, next, following, heads[1..], rest, read)
  {
    var kind, size, name := FirstHead(tar, at, pending, heads, entries, read);
    assert IsTaken(tar, at, kind, size, name);
    next, following, rest := Past(at, size), None, entries;
    if kind == 120 {
      var records :|
        && IsExtended(tar, at, size, read, records)
        && Layout(tar, Past(at, size), Some(records), heads[1..], entries, read);
      following := Some(records);
    } else {
      rest := entries[1..];
    }
  }

  lemma SoundInFront(tar: bytes, heads: seq<nat>)
    requires heads != [] && IsSound(tar, heads[0])
    requires forall i :: 0 <= i < |heads[1..]| ==> IsSound(tar, heads[1..][i])
    ensures forall i :: 0 <= i < |heads| ==> IsSound(tar, heads[i])
  {
    assert forall i :: 1 <= i < |heads| ==> heads[i] == heads[1..][i - 1];
  }

  /** Every physical header of a layout is sound, the extended ones included. */
  lemma {:induction false} EveryHeadIsSound(tar: bytes, at: nat, pending: Option<Pax.Records>, heads: seq<nat>,
                                            entries: seq<Entry>, read: Reader)
    requires Layout(tar, at, pending, heads, entries, read)
    ensures forall i :: 0 <= i < |heads| ==> IsSound(tar, heads[i])
    decreases |heads|
  {
    if heads != [] {
      var next, following, rest := HeadThenRest(tar, at, pending, heads, entries, read);
      EveryHeadIsSound(tar, next, following, heads[1..], rest, read);
      SoundInFront(tar, heads);
    }
  }
}
