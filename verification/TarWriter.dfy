/** The writer, and the round trip through the reader. */
module TarWriter {
  import opened Common
  import opened Bytes
  import opened Tar
  import opened TarHeader
  import Pax

  datatype Member = Member(name: bytes, data: bytes)

  const MODE := 0x1A4
  const RECORD := 20 * BLOCK
  // "././@PaxHeader"
  const PAX_HEADER: bytes := [46, 47, 46, 47, 64, 80, 97, 120, 72, 101, 97, 100, 101, 114]

  /** The first slash, from position `k`, that leaves a prefix of at most 155 bytes and a name of at most 100. */
  function Split(name: bytes, k: nat): (r: Option<nat>)
    ensures r.Some? ==> r.value < |name| && name[r.value] == SLASH && r.value <= 155 && |name| - r.value <= 101
    ensures r.Some? ==> k <= r.value
    decreases |name| - k
  {
    if k >= |name| then None
    else if name[k] == SLASH && k <= 155 && |name| - k <= 101 then Some(k)
    else Split(name, k + 1)
  }

  predicate FitsUstar(name: bytes) {
    |name| <= 100 || Split(name, 0).Some?
  }

  /** The header of a member: the name split when USTAR needs it, cut to its field when a PAX path carries it. */
  function MemberHead(m: Member, mtime: nat, pax: bool): (h: Head)
    requires pax || FitsUstar(m.name)
    ensures |h.name| <= 100 && |h.prefix| <= 155
  {
    if |m.name| <= 100 then Head(m.name, [], REGULAR, MODE, |m.data|, mtime)
    else if pax then Head(m.name[..100], [], REGULAR, MODE, |m.data|, mtime)
    else
      var k := Split(m.name, 0).value;
      Head(m.name[k + 1..], m.name[..k], REGULAR, MODE, |m.data|, mtime)
  }

  /** Bytes filled up to whole blocks. */
  function Blocks(data: bytes): bytes {
    Padded(data, RoundUp(|data|))
  }

  function PathHead(name: bytes): (h: Head)
    ensures |h.name| <= 100 && |h.prefix| <= 155
  {
    Head(PAX_HEADER, [], EXTENDED, 0, |Pax.Record(Pax.PATH, name)|, 0)
  }

  function MemberBytes(m: Member, mtime: nat, pax: bool, device: bytes, rest: bytes): bytes
    requires (pax || FitsUstar(m.name)) && |device| == 8
  {
    var member := Header(MemberHead(m, mtime, pax), device) + (Blocks(m.data) + rest);
    if pax && |m.name| > 100
    then Header(PathHead(m.name), device) + (Blocks(Pax.Record(Pax.PATH, m.name)) + member)
    else member
  }

  ghost predicate AllFitUstar(ms: seq<Member>) {
    forall i :: 0 <= i < |ms| ==> FitsUstar(ms[i].name)
  }

  /** The members one after another, before `rest`. */
  ghost function Body(ms: seq<Member>, mtime: nat, pax: bool, device: bytes, rest: bytes): bytes
    requires (pax || AllFitUstar(ms)) && |device| == 8
  {
    if ms == [] then rest else
      assert pax || (FitsUstar(ms[0].name) && AllFitUstar(ms[1..])) by {
        if !pax {
          assert forall i :: 0 <= i < |ms[1..]| ==> ms[1..][i] == ms[i + 1];
        }
      }
      MemberBytes(ms[0], mtime, pax, device, Body(ms[1..], mtime, pax, device, rest))
  }

  /** The end-of-archive marker and the fill to a whole record. */
  function Trailer(length: nat): (z: bytes)
    ensures |z| >= 2 * BLOCK && AllZero(z) && (length + |z|) % RECORD == 0
  {
    var used := length + 2 * BLOCK;
    Zeros(2 * BLOCK + (used + RECORD - 1) / RECORD * RECORD - used)
  }

  /** USTAR when every name fits, PAX otherwise. */
  ghost function WriteTar(ms: seq<Member>, mtime: nat, device: bytes): bytes
    requires |device| == 8
  {
    var pax := !AllFitUstar(ms);
    Body(ms, mtime, pax, device, Trailer(|Body(ms, mtime, pax, device, [])|))
  }

  // ---- The caps, on the writer's side ----

  function HeadersOf(m: Member, pax: bool): nat {
    if pax && |m.name| > 100 then 2 else 1
  }

  function HeaderCount(ms: seq<Member>, pax: bool): nat {
    if ms == [] then 0 else HeadersOf(ms[0], pax) + HeaderCount(ms[1..], pax)
  }

  function DataSize(ms: seq<Member>): nat {
    if ms == [] then 0 else |ms[0].data| + DataSize(ms[1..])
  }

  /** ASCII text. (A leading slash on a name of 101 bytes would be taken for an empty prefix.) */
  predicate Spelled(name: bytes) {
    0 < |name| && Ascii(name) && NoNul(name) && (|name| == 101 ==> name[0] != SLASH)
  }

  /** The longest name whose PAX record is within the reader's cap for one. */
  const LONGEST_NAME := 1013

  lemma PathSize(name: bytes)
    ensures |Pax.Record(Pax.PATH, name)| <= MAX_EXTENDED <==> |name| <= LONGEST_NAME
    ensures |name| <= Pow8(10) ==> |Pax.Record(Pax.PATH, name)| < Pow8(11)
  {
    var rest := |Pax.PATH| + |name| + 3;
    Pax.RecordSize(Pax.PATH, name);
    Pax.FourDigits(rest);
    Pax.RecordLengthCountsItself(rest);
    PowersOf8();
  }

  predicate Clean(name: bytes) {
    Spelled(name) && |name| <= LONGEST_NAME
  }

  ghost predicate CleanMembers(ms: seq<Member>) {
    forall i :: 0 <= i < |ms| ==> Clean(ms[i].name) && |ms[i].data| <= MAX_FILE
  }

  /** A member that can be written: the size field of a header has room for its record and for its data. */
  predicate Writable(m: Member) {
    Spelled(m.name) && |m.name| <= Pow8(10) && |m.data| < Pow8(11)
  }

  ghost predicate WritableMembers(ms: seq<Member>) {
    forall i :: 0 <= i < |ms| ==> Writable(ms[i])
  }

  predicate SmallMember(m: Member) {
    |m.name| <= LONGEST_NAME && |m.data| <= MAX_FILE
  }

  /** Within every cap of the reader: on the record of a path, on a file, on the headers and on the total. */
  ghost predicate WithinReaderCaps(ms: seq<Member>) {
    && (forall i :: 0 <= i < |ms| ==> SmallMember(ms[i]))
    && HeaderCount(ms, !AllFitUstar(ms)) <= MAX_HEADERS && DataSize(ms) <= MAX_TOTAL
  }

  function MemberEntry(m: Member, mtime: nat, pax: bool, device: bytes): Entry
    requires (pax || FitsUstar(m.name)) && |device| == 8
  {
    Entry(File, m.name, m.data, Header(MemberHead(m, mtime, pax), device))
  }

  /** What reading the written members yields. */
  ghost function Expected(ms: seq<Member>, mtime: nat, pax: bool, device: bytes): (es: seq<Entry>)
    requires (pax || AllFitUstar(ms)) && |device| == 8
    ensures |es| == |ms|
    ensures forall i :: 0 <= i < |ms| ==>
              es[i] == MemberEntry(ms[i], mtime, pax, device)
  {
    seq(|ms|, i requires 0 <= i < |ms| => MemberEntry(ms[i], mtime, pax, device))
  }

  // ---- One header at a time ----

  lemma BlocksAt(tar: bytes, offset: nat, header: bytes, data: bytes, rest: bytes)
    requires |header| == BLOCK && offset <= |tar| && tar[offset..] == header + (Blocks(data) + rest)
    ensures var start := offset + BLOCK;
            && start + RoundUp(|data|) <= |tar|
            && tar[offset..start] == header
            && tar[start..start + |data|] == data
            && tar[start + RoundUp(|data|)..] == rest
  {
    At(tar, offset, header, Blocks(data) + rest);
    At(tar, offset + BLOCK, Blocks(data), rest);
    var start := offset + BLOCK;
    var padding := Zeros(RoundUp(|data|) - |data|);
    assert tar[start..] == data + (padding + rest);
    At(tar, start, data, padding + rest);
  }

  /** A readable header followed by its data. */
  predicate Holds(tar: bytes, offset: nat, header: bytes, f: Fields, data: bytes) {
    && offset + BLOCK + RoundUp(|data|) <= |tar|
    && tar[offset..offset + BLOCK] == header
    && tar[offset + BLOCK..offset + BLOCK + |data|] == data
    && |header| == BLOCK && !AllZero(header) && Decode(header) == Ok(f) && f.size == |data|
  }

  lemma ReadsHeader(tar: bytes, c: Cursor, header: bytes, f: Fields, data: bytes, read: Reader)
    requires Holds(tar, c.offset, header, f, data) && c.headers < MAX_HEADERS
    ensures f.kind == REGULAR ==> ReadHeader(tar, c, read) == ReadMember(tar, c, f, header)
    ensures f.kind == EXTENDED ==> ReadHeader(tar, c, read) == ReadExtended(tar, c, f, read)
  {
  }

  lemma MemberRead(tar: bytes, c: Cursor, header: bytes, f: Fields, data: bytes)
    requires c.offset + BLOCK + |data| <= |tar| && tar[c.offset + BLOCK..c.offset + BLOCK + |data|] == data
    requires f.kind == REGULAR && f.size == |data|
    requires c.total + |data| <= MAX_TOTAL && |data| <= MAX_FILE && SizeAgrees(c.extended, |data|)
    ensures ReadMember(tar, c, f, header)
         == Ok(Found(Entry(File, EffectiveName(c.extended, f.name), data, header),
                     Cursor(c.offset + BLOCK + RoundUp(|data|), c.headers + 1, c.total + |data|, None)))
  {
  }

  lemma ExtendedRead(tar: bytes, c: Cursor, f: Fields, body: bytes, records: Pax.Records,
                     read: Reader)
    requires c.offset + BLOCK + |body| <= |tar| && tar[c.offset + BLOCK..c.offset + BLOCK + |body|] == body
    requires f.size == |body| && c.extended.None? && |body| <= MAX_EXTENDED
    requires read(body) == Ok(records)
    ensures ReadExtended(tar, c, f, read)
         == Ok(Skip(Cursor(c.offset + BLOCK + RoundUp(|body|), c.headers + 1, c.total, Some(records))))
  {
  }

  /** A held member is taken whole, and the reader moves past it. */
  lemma TakesMember(tar: bytes, c: Cursor, header: bytes, f: Fields, name: bytes, data: bytes, next: Cursor,
                    read: Reader)
    requires Holds(tar, c.offset, header, f, data) && f.kind == REGULAR && name == EffectiveName(c.extended, f.name)
    requires c.headers < MAX_HEADERS
    requires c.total + |data| <= MAX_TOTAL && |data| <= MAX_FILE && SizeAgrees(c.extended, |data|)
    requires next == Cursor(c.offset + BLOCK + RoundUp(|data|), c.headers + 1, c.total + |data|, None)
    ensures ReadHeader(tar, c, read) == Ok(Found(Entry(File, name, data, header), next))
  {
    ReadsHeader(tar, c, header, f, data, read);
    MemberRead(tar, c, header, f, data);
  }

  /** A written header and its blocks are readable where they stand. */
  lemma HoldsWritten(tar: bytes, offset: nat, h: Head, device: bytes, data: bytes, rest: bytes)
    requires Fits(h) && |device| == 8 && h.kind != NUL && h.size == |data|
    requires offset <= |tar| && tar[offset..] == Header(h, device) + (Blocks(data) + rest)
    ensures Holds(tar, offset, Header(h, device), Fields(h.kind, h.size, Joined(h.prefix, h.name)), data)
    ensures tar[offset + BLOCK + RoundUp(|data|)..] == rest
  {
    BlocksAt(tar, offset, Header(h, device), data, rest);
    DecodeHeader(h, device);
  }

  /** The reader knows the path record, alone in its header. */
  ghost predicate ReadsPath(read: Reader, name: bytes) {
    && |Pax.Record(Pax.PATH, name)| <= MAX_EXTENDED
    && read(Pax.Record(Pax.PATH, name)) == Ok(map[Pax.PATH := Pax.Text(name)])
  }

  lemma PathRecord(name: bytes, allowed: set<text>, ignored: set<text>)
    requires Clean(name) && Pax.PATH in allowed
    ensures |Pax.Record(Pax.PATH, name)| <= MAX_EXTENDED
    ensures Pax.ParseRecords(Pax.Record(Pax.PATH, name), 0, map[], allowed, ignored)
         == Ok(map[Pax.PATH := Pax.Text(name)])
  {
    var record := Pax.Record(Pax.PATH, name);
    PathSize(name);
    Pax.RecordSize(Pax.PATH, name);
    Pax.DecimalIsShort(|record|);
    Pax.RecordRoundTrip(Pax.PATH, name);
    PathAdded(name, |record|, allowed, ignored);
    Pax.OneRecord(record, Pax.Field(Pax.PATH, name, |record|), map[Pax.PATH := Pax.Text(name)], allowed, ignored);
  }

  lemma PathAdded(name: bytes, end: nat, allowed: set<text>, ignored: set<text>)
    requires Ascii(name) && Pax.PATH in allowed
    ensures Pax.AddRecord(Pax.Field(Pax.PATH, name, end), map[], allowed, ignored)
         == Ok(map[Pax.PATH := Pax.Text(name)])
  {
    Utf8OfAscii(name);
  }

  lemma PaxReadsPath(name: bytes, allowed: set<text>, ignored: set<text>)
    requires Clean(name) && Pax.PATH in allowed
    ensures ReadsPath(PaxReader(allowed, ignored), name)
  {
    PathRecord(name, allowed, ignored);
  }

  /** The name in a member's header is the member's, unless a PAX path carries it. */
  lemma HeadNames(m: Member, mtime: nat, pax: bool)
    requires Spelled(m.name) && |m.data| < Pow8(11) && mtime < Pow8(11) && (pax || FitsUstar(m.name))
    ensures Fits(MemberHead(m, mtime, pax))
    ensures !(pax && |m.name| > 100) ==>
              Joined(MemberHead(m, mtime, pax).prefix, MemberHead(m, mtime, pax).name) == m.name
  {
    PowersOf8();
    if |m.name| > 100 && !pax {
      var k := Split(m.name, 0).value;
      assert m.name[..k] + [SLASH] + m.name[k + 1..] == m.name;
    }
  }

  /** A member's own header is read as the member's, under its own name or the record's. */
  lemma MemberHolds(tar: bytes, offset: nat, m: Member, mtime: nat, pax: bool, device: bytes, rest: bytes)
    returns (f: Fields, header: bytes)
    requires Spelled(m.name) && |m.data| < Pow8(11) && mtime < Pow8(11) && |device| == 8
    requires (pax || FitsUstar(m.name)) && offset <= |tar|
    requires tar[offset..] == Header(MemberHead(m, mtime, pax), device) + (Blocks(m.data) + rest)
    ensures header == Header(MemberHead(m, mtime, pax), device)
    ensures Holds(tar, offset, header, f, m.data) && f.kind == REGULAR
    ensures tar[offset + BLOCK + RoundUp(|m.data|)..] == rest
    ensures !(pax && |m.name| > 100) ==> f.name == m.name
  {
    var h := MemberHead(m, mtime, pax);
    HeadNames(m, mtime, pax);
    HoldsWritten(tar, offset, h, device, m.data, rest);
    f, header := Fields(h.kind, h.size, Joined(h.prefix, h.name)), Header(h, device);
  }

  /** The path pending before a member's header. */
  function Pending(m: Member, pax: bool): Option<Pax.Records> {
    if pax && |m.name| > 100 then Some(map[Pax.PATH := Pax.Text(m.name)]) else None
  }

  lemma PendingName(m: Member, pax: bool, name: text)
    requires m.name != [] && (!(pax && |m.name| > 100) ==> name == m.name)
    ensures EffectiveName(Pending(m, pax), name) == m.name && SizeAgrees(Pending(m, pax), |m.data|)
  {
  }

  /** A held path header is read as its record. */
  lemma TakesPath(tar: bytes, c: Cursor, header: bytes, f: Fields, body: bytes, records: Pax.Records, next: Cursor,
                  read: Reader)
    requires Holds(tar, c.offset, header, f, body) && f.kind == EXTENDED && |body| <= MAX_EXTENDED
    requires c.headers < MAX_HEADERS && c.extended.None? && read(body) == Ok(records)
    requires next == Cursor(c.offset + BLOCK + RoundUp(|body|), c.headers + 1, c.total, Some(records))
    ensures ReadHeader(tar, c, read) == Ok(Skip(next))
  {
    ReadsHeader(tar, c, header, f, body, read);
    ExtendedRead(tar, c, f, body, records, read);
  }

  lemma PathHolds(tar: bytes, offset: nat, name: bytes, device: bytes, rest: bytes) returns (f: Fields, header: bytes)
    requires |name| <= Pow8(10) && |device| == 8 && offset <= |tar|
    requires tar[offset..] == Header(PathHead(name), device) + (Blocks(Pax.Record(Pax.PATH, name)) + rest)
    ensures Holds(tar, offset, header, f, Pax.Record(Pax.PATH, name)) && f.kind == EXTENDED
    ensures tar[offset + BLOCK + RoundUp(|Pax.Record(Pax.PATH, name)|)..] == rest
  {
    var h := PathHead(name);
    PathHeadFits(name);
    HoldsWritten(tar, offset, h, device, Pax.Record(Pax.PATH, name), rest);
    f, header := Fields(h.kind, h.size, Joined(h.prefix, h.name)), Header(h, device);
  }

  lemma PathHeader(tar: bytes, c: Cursor, name: bytes, device: bytes, rest: bytes, read: Reader) returns (next: Cursor)
    requires Clean(name) && ReadsPath(read, name) && |device| == 8 && c.extended.None? && c.headers < MAX_HEADERS
    requires c.offset <= |tar|
    requires tar[c.offset..] == Header(PathHead(name), device) + (Blocks(Pax.Record(Pax.PATH, name)) + rest)
    ensures next.extended == Some(map[Pax.PATH := Pax.Text(name)]) && next.offset <= |tar| && tar[next.offset..] == rest
    ensures next.headers == c.headers + 1 && next.total == c.total
    ensures ReadHeader(tar, c, read) == Ok(Skip(next))
  {
    PathFitsField(name);
    var f, header := PathHolds(tar, c.offset, name, device, rest);
    var body, records := Pax.Record(Pax.PATH, name), map[Pax.PATH := Pax.Text(name)];
    next := Cursor(c.offset + BLOCK + RoundUp(|body|), c.headers + 1, c.total, Some(records));
    TakesPath(tar, c, header, f, body, records, next, read);
  }

  lemma PathFitsField(name: bytes)
    requires Clean(name)
    ensures |name| <= Pow8(10)
  {
    PowersOf8();
    assert Pow8(11) == 8 * Pow8(10);
  }

  lemma PathHeadFits(name: bytes)
    requires |name| <= Pow8(10)
    ensures Fits(PathHead(name))
  {
    PowersOf8();
    PathSize(name);
  }

  /** The path record of a member, if it has one, is read before the member itself. */
  lemma PathReadsFirst(tar: bytes, c: Cursor, m: Member, mtime: nat, pax: bool, device: bytes,
                       rest: bytes, read: Reader)
    returns (at: Cursor)
    requires Clean(m.name) && |device| == 8 && (pax || FitsUstar(m.name)) && ReadsPath(read, m.name)
    requires c.extended.None? && c.offset <= |tar| && tar[c.offset..] == MemberBytes(m, mtime, pax, device, rest)
    requires c.headers + HeadersOf(m, pax) <= MAX_HEADERS
    ensures at.extended == Pending(m, pax) && at.offset <= |tar|
    ensures tar[at.offset..] == Header(MemberHead(m, mtime, pax), device) + (Blocks(m.data) + rest)
    ensures at.headers + 1 == c.headers + HeadersOf(m, pax) && at.total == c.total
    ensures Parse(tar, c, read) == Parse(tar, at, read)
  {
    at := c;
    if pax && |m.name| > 100 {
      var member := Header(MemberHead(m, mtime, pax), device) + (Blocks(m.data) + rest);
      at := PathHeader(tar, c, m.name, device, member, read);
    }
  }

  /** A member held under its own name or a pending path is taken under the member's name. */
  lemma TakesHeld(tar: bytes, at: Cursor, header: bytes, f: Fields, m: Member, pax: bool, next: Cursor, read: Reader)
    requires Holds(tar, at.offset, header, f, m.data) && f.kind == REGULAR && m.name != []
    requires at.extended == Pending(m, pax) && (!(pax && |m.name| > 100) ==> f.name == m.name)
    requires at.headers < MAX_HEADERS && at.total + |m.data| <= MAX_TOTAL && |m.data| <= MAX_FILE
    requires next == Cursor(at.offset + BLOCK + RoundUp(|m.data|), at.headers + 1, at.total + |m.data|, None)
    ensures ReadHeader(tar, at, read) == Ok(Found(Entry(File, m.name, m.data, header), next))
  {
    PendingName(m, pax, f.name);
    TakesMember(tar, at, header, f, m.name, m.data, next, read);
  }

  lemma FileFitsField(m: Member)
    requires |m.data| <= MAX_FILE
    ensures |m.data| < Pow8(11)
  {
    PowersOf8();
  }

  /** A member's own header and data, under the name pending for it or its own. */
  lemma MemberReadsNext(tar: bytes, at: Cursor, m: Member, mtime: nat, pax: bool, device: bytes,
                        rest: bytes, read: Reader)
    returns (next: Cursor)
    requires Clean(m.name) && |m.data| <= MAX_FILE && mtime < Pow8(11) && |device| == 8 && (pax || FitsUstar(m.name))
    requires at.extended == Pending(m, pax) && at.offset <= |tar|
    requires tar[at.offset..] == Header(MemberHead(m, mtime, pax), device) + (Blocks(m.data) + rest)
    requires at.headers < MAX_HEADERS && at.total + |m.data| <= MAX_TOTAL
    ensures next.extended.None? && next.offset <= |tar| && tar[next.offset..] == rest
    ensures next.headers == at.headers + 1 && next.total == at.total + |m.data|
    ensures ReadHeader(tar, at, read) == Ok(Found(MemberEntry(m, mtime, pax, device), next))
  {
    FileFitsField(m);
    var f, header := MemberHolds(tar, at.offset, m, mtime, pax, device, rest);
    next := Cursor(at.offset + BLOCK + RoundUp(|m.data|), at.headers + 1, at.total + |m.data|, None);
    TakesHeld(tar, at, header, f, m, pax, next, read);
  }

  /** One member, with its path record if it has one. */
  lemma MemberReadsBack(tar: bytes, c: Cursor, m: Member, mtime: nat, pax: bool, device: bytes, rest: bytes,
                        read: Reader) returns (next: Cursor)
    requires Clean(m.name) && |m.data| <= MAX_FILE && mtime < Pow8(11) && |device| == 8
    requires (pax || FitsUstar(m.name)) && ReadsPath(read, m.name)
    requires c.extended.None? && c.offset <= |tar| && tar[c.offset..] == MemberBytes(m, mtime, pax, device, rest)
    requires c.headers + HeadersOf(m, pax) <= MAX_HEADERS && c.total + |m.data| <= MAX_TOTAL
    ensures next.extended.None? && next.offset <= |tar| && tar[next.offset..] == rest
    ensures next.headers == c.headers + HeadersOf(m, pax) && next.total == c.total + |m.data|
    ensures Parse(tar, c, read) == Before(MemberEntry(m, mtime, pax, device), Parse(tar, next, read))
  {
    var at := PathReadsFirst(tar, c, m, mtime, pax, device, rest, read);
    next := MemberReadsNext(tar, at, m, mtime, pax, device, rest, read);
  }

  // ---- The whole archive ----

  lemma EndReadsBack(tar: bytes, c: Cursor, trailer: bytes, read: Reader)
    requires AllZero(trailer) && |trailer| >= 2 * BLOCK && c.extended.None?
    requires c.offset <= |tar| && tar[c.offset..] == trailer
    ensures Parse(tar, c, read) == Ok([])
  {
    assert tar[c.offset..c.offset + BLOCK] == trailer[..BLOCK];
  }

  lemma {:induction false} BodyReadsBack(tar: bytes, c: Cursor, ms: seq<Member>, mtime: nat, pax: bool, device: bytes,
                                         trailer: bytes, read: Reader)
    requires CleanMembers(ms) && mtime < Pow8(11) && |device| == 8
    requires (pax || AllFitUstar(ms)) && forall i :: 0 <= i < |ms| ==> ReadsPath(read, ms[i].name)
    requires AllZero(trailer) && |trailer| >= 2 * BLOCK
    requires c.extended.None? && c.offset <= |tar| && tar[c.offset..] == Body(ms, mtime, pax, device, trailer)
    requires c.headers + HeaderCount(ms, pax) <= MAX_HEADERS && c.total + DataSize(ms) <= MAX_TOTAL
    ensures Parse(tar, c, read) == Ok(Expected(ms, mtime, pax, device))
    decreases |ms|
  {
    if ms == [] {
      EndReadsBack(tar, c, trailer, read);
    } else {
      var rest := ms[1..];
      assert forall i :: 0 <= i < |rest| ==> rest[i] == ms[i + 1];
      var next := MemberReadsBack(tar, c, ms[0], mtime, pax, device, Body(rest, mtime, pax, device, trailer), read);
      BodyReadsBack(tar, next, rest, mtime, pax, device, trailer, read);
      ExpectedHead(ms, mtime, pax, device);
    }
  }

  lemma ExpectedHead(ms: seq<Member>, mtime: nat, pax: bool, device: bytes)
    requires ms != [] && (pax || (AllFitUstar(ms) && AllFitUstar(ms[1..]))) && |device| == 8
    ensures Expected(ms, mtime, pax, device)
         == [MemberEntry(ms[0], mtime, pax, device)] + Expected(ms[1..], mtime, pax, device)
  {
  }

  /** Reading the written archive gives back exactly the members' names and bytes, in order. */
  lemma WriteThenParse(ms: seq<Member>, mtime: nat, device: bytes, allowed: set<text>, ignored: set<text>)
    requires CleanMembers(ms) && mtime < Pow8(11) && |device| == 8 && Pax.PATH in allowed
    requires HeaderCount(ms, !AllFitUstar(ms)) <= MAX_HEADERS && DataSize(ms) <= MAX_TOTAL
    ensures Parse(WriteTar(ms, mtime, device), START, PaxReader(allowed, ignored))
         == Ok(Expected(ms, mtime, !AllFitUstar(ms), device))
  {
    var pax := !AllFitUstar(ms);
    var tar := WriteTar(ms, mtime, device);
    var read := PaxReader(allowed, ignored);
    assert tar[0..] == tar;
    forall i | 0 <= i < |ms| ensures ReadsPath(read, ms[i].name) {
      PaxReadsPath(ms[i].name, allowed, ignored);
    }
    BodyReadsBack(tar, START, ms, mtime, pax, device, Trailer(|Body(ms, mtime, pax, device, [])|), read);
  }

  // ---- Verification of the written archive ----

  predicate FixedEntry(e: Entry, mtime: nat) {
    e.kind == File && |e.header| == BLOCK && FixedFields(e.header, mtime)
  }

  ghost predicate Matches(found: seq<Entry>, ms: seq<Member>, mtime: nat) {
    && |found| == |ms|
    && (forall i :: 0 <= i < |ms| ==> found[i].name == ms[i].name && found[i].data == ms[i].data)
    && forall i :: 0 <= i < |found| ==> FixedEntry(found[i], mtime)
  }

  /** The archive reads as exactly these members, each under the fixed header fields. */
  ghost predicate Verified(tar: bytes, ms: seq<Member>, mtime: nat) {
    var r := Parse(tar, START, PaxReader({Pax.PATH}, {}));
    r.Ok? && Matches(r.value, ms, mtime)
  }

  /** `verify` accepts what `write_tar` wrote. */
  lemma VerifyAcceptsWritten(ms: seq<Member>, mtime: nat, device: bytes)
    requires CleanMembers(ms) && mtime < Pow8(11) && |device| == 8
    requires HeaderCount(ms, !AllFitUstar(ms)) <= MAX_HEADERS && DataSize(ms) <= MAX_TOTAL
    ensures Verified(WriteTar(ms, mtime, device), ms, mtime)
  {
    var pax := !AllFitUstar(ms);
    WriteThenParse(ms, mtime, device, {Pax.PATH}, {});
    forall i | 0 <= i < |ms|
      ensures FixedFields(Header(MemberHead(ms[i], mtime, pax), device), mtime)
    {
      HeadNames(ms[i], mtime, pax);
      FieldsAreFixed(MemberHead(ms[i], mtime, pax), device);
    }
  }

  // ---- What is over the caps is refused ----

  /** One header too many. */
  lemma HeaderOverCap(tar: bytes, c: Cursor, header: bytes, f: Fields, data: bytes, read: Reader)
    requires Holds(tar, c.offset, header, f, data) && c.headers >= MAX_HEADERS
    ensures Parse(tar, c, read) == Refused
  {
  }

  /** One member too much. */
  lemma MemberOverCap(tar: bytes, c: Cursor, header: bytes, f: Fields, data: bytes, read: Reader)
    requires Holds(tar, c.offset, header, f, data) && f.kind == REGULAR && c.headers < MAX_HEADERS
    requires c.total + |data| > MAX_TOTAL || |data| > MAX_FILE
    ensures Parse(tar, c, read) == Refused
  {
    ReadsHeader(tar, c, header, f, data, read);
  }

  /** The path header of a member, where there is room for no more, or with too long a record. */
  lemma PathOverCap(tar: bytes, c: Cursor, name: bytes, device: bytes, rest: bytes, read: Reader)
    requires |name| <= Pow8(10) && |device| == 8 && c.offset <= |tar|
    requires c.headers >= MAX_HEADERS || |name| > LONGEST_NAME
    requires tar[c.offset..] == Header(PathHead(name), device) + (Blocks(Pax.Record(Pax.PATH, name)) + rest)
    ensures Parse(tar, c, read) == Refused
  {
    var f, header := PathHolds(tar, c.offset, name, device, rest);
    PathSize(name);
    if c.headers < MAX_HEADERS {
      ReadsHeader(tar, c, header, f, Pax.Record(Pax.PATH, name), read);
    }
  }

  ghost predicate ReadsPaths(read: Reader) {
    forall name :: Clean(name) ==> ReadsPath(read, name)
  }

  lemma PaxReadsPaths()
    ensures ReadsPaths(PaxReader({Pax.PATH}, {}))
  {
    forall name | Clean(name)
      ensures ReadsPath(PaxReader({Pax.PATH}, {}), name)
    {
      PaxReadsPath(name, {Pax.PATH}, {});
    }
  }

  lemma BodyFirst(ms: seq<Member>, mtime: nat, pax: bool, device: bytes, rest: bytes)
    requires ms != [] && (pax || AllFitUstar(ms)) && |device| == 8
    ensures pax || (FitsUstar(ms[0].name) && AllFitUstar(ms[1..]))
    ensures Body(ms, mtime, pax, device, rest)
         == MemberBytes(ms[0], mtime, pax, device, Body(ms[1..], mtime, pax, device, rest))
  {
    assert forall i :: 0 <= i < |ms[1..]| ==> ms[1..][i] == ms[i + 1];
  }

  /** The next member keeps every cap. */
  predicate Admits(c: Cursor, m: Member, pax: bool) {
    && SmallMember(m)
    && c.headers + HeadersOf(m, pax) <= MAX_HEADERS && c.total + |m.data| <= MAX_TOTAL
  }

  /** A member's own header, where there is room for no more, or with too much data. */
  lemma OwnHeaderRefused(tar: bytes, at: Cursor, m: Member, mtime: nat, pax: bool, device: bytes, rest: bytes,
                         read: Reader)
    requires Writable(m) && mtime < Pow8(11) && |device| == 8 && (pax || FitsUstar(m.name)) && at.offset <= |tar|
    requires tar[at.offset..] == Header(MemberHead(m, mtime, pax), device) + (Blocks(m.data) + rest)
    requires at.headers >= MAX_HEADERS || at.total + |m.data| > MAX_TOTAL || |m.data| > MAX_FILE
    ensures Parse(tar, at, read) == Refused
  {
    var f, header := MemberHolds(tar, at.offset, m, mtime, pax, device, rest);
    if at.headers >= MAX_HEADERS {
      HeaderOverCap(tar, at, header, f, m.data, read);
    } else {
      MemberOverCap(tar, at, header, f, m.data, read);
    }
  }

  /** A member that would break a cap is refused, at its path header or at its own. */
  lemma MemberRefused(tar: bytes, c: Cursor, m: Member, mtime: nat, pax: bool, device: bytes, rest: bytes, read: Reader)
    requires Writable(m) && mtime < Pow8(11) && |device| == 8 && (pax || FitsUstar(m.name))
    requires ReadsPaths(read)
    requires c.extended.None? && c.offset <= |tar| && tar[c.offset..] == MemberBytes(m, mtime, pax, device, rest)
    requires c.headers <= MAX_HEADERS && !Admits(c, m, pax)
    ensures Parse(tar, c, read) == Refused
  {
    var member := Header(MemberHead(m, mtime, pax), device) + (Blocks(m.data) + rest);
    var at := c;
    if pax && |m.name| > 100 {
      if c.headers >= MAX_HEADERS || |m.name| > LONGEST_NAME {
        PathOverCap(tar, c, m.name, device, member, read);
        return;
      }
      at := PathHeader(tar, c, m.name, device, member, read);
    }
    OwnHeaderRefused(tar, at, m, mtime, pax, device, rest, read);
  }

  /** Where the rest is read to its end, the next member keeps every cap, and the rest after it is read too. */
  lemma MemberAdmitted(tar: bytes, c: Cursor, m: Member, mtime: nat, pax: bool, device: bytes, rest: bytes,
                       read: Reader) returns (next: Cursor)
    requires Writable(m) && mtime < Pow8(11) && |device| == 8 && (pax || FitsUstar(m.name))
    requires ReadsPaths(read)
    requires c.extended.None? && c.offset <= |tar| && tar[c.offset..] == MemberBytes(m, mtime, pax, device, rest)
    requires c.headers <= MAX_HEADERS && Parse(tar, c, read).Ok?
    ensures Admits(c, m, pax) && Parse(tar, next, read).Ok?
    ensures next.extended.None? && next.offset <= |tar| && tar[next.offset..] == rest
    ensures next.headers == c.headers + HeadersOf(m, pax) && next.total == c.total + |m.data|
  {
    if !Admits(c, m, pax) {
      MemberRefused(tar, c, m, mtime, pax, device, rest, read);
    }
    next := MemberReadsBack(tar, c, m, mtime, pax, device, rest, read);
  }

  /** What is read to its end is within the caps. */
  lemma {:induction false} BodyWithinCaps(tar: bytes, c: Cursor, ms: seq<Member>, mtime: nat, pax: bool, device: bytes,
                                          rest: bytes, read: Reader)
    requires WritableMembers(ms) && mtime < Pow8(11) && |device| == 8
    requires (pax || AllFitUstar(ms)) && ReadsPaths(read)
    requires c.extended.None? && c.offset <= |tar| && tar[c.offset..] == Body(ms, mtime, pax, device, rest)
    requires c.headers <= MAX_HEADERS && c.total <= MAX_TOTAL && Parse(tar, c, read).Ok?
    ensures forall i :: 0 <= i < |ms| ==> SmallMember(ms[i])
    ensures c.headers + HeaderCount(ms, pax) <= MAX_HEADERS && c.total + DataSize(ms) <= MAX_TOTAL
    decreases |ms|
  {
    if ms != [] {
      var tail := ms[1..];
      assert forall i :: 0 <= i < |tail| ==> tail[i] == ms[i + 1];
      BodyFirst(ms, mtime, pax, device, rest);
      var after := Body(tail, mtime, pax, device, rest);
      var next := MemberAdmitted(tar, c, ms[0], mtime, pax, device, after, read);
      BodyWithinCaps(tar, next, tail, mtime, pax, device, rest, read);
    }
  }

  lemma ParsedWithinCaps(ms: seq<Member>, mtime: nat, device: bytes)
    requires WritableMembers(ms) && mtime < Pow8(11) && |device| == 8
    requires Parse(WriteTar(ms, mtime, device), START, PaxReader({Pax.PATH}, {})).Ok?
    ensures WithinReaderCaps(ms)
  {
    var pax := !AllFitUstar(ms);
    var tar := WriteTar(ms, mtime, device);
    var read := PaxReader({Pax.PATH}, {});
    assert tar[0..] == tar;
    PaxReadsPaths();
    BodyWithinCaps(tar, START, ms, mtime, pax, device, Trailer(|Body(ms, mtime, pax, device, [])|), read);
  }

  /** `verify` accepts what `write_tar` wrote exactly when it is within the reader's caps. */
  lemma VerifiedIffWithinCaps(ms: seq<Member>, mtime: nat, device: bytes)
    requires WritableMembers(ms) && mtime < Pow8(11) && |device| == 8
    ensures Verified(WriteTar(ms, mtime, device), ms, mtime) <==> WithinReaderCaps(ms)
  {
    if WithinReaderCaps(ms) {
      VerifyAcceptsWritten(ms, mtime, device);
    } else if Verified(WriteTar(ms, mtime, device), ms, mtime) {
      ParsedWithinCaps(ms, mtime, device);
    }
  }

  method AllFixed(found: seq<Entry>, mtime: nat) returns (ok: bool)
    ensures ok <==> forall i :: 0 <= i < |found| ==> FixedEntry(found[i], mtime)
  {
    var i := 0;
    while i < |found|
      invariant 0 <= i <= |found|
      invariant forall j :: 0 <= j < i ==> FixedEntry(found[j], mtime)
    {
      if !FixedEntry(found[i], mtime) {
        return false;
      }
      i := i + 1;
    }
    return true;
  }

  /** The header fields of every member, then the names and the bytes. */
  method Compare(found: seq<Entry>, ms: seq<Member>, mtime: nat) returns (ok: bool)
    ensures ok <==> Matches(found, ms, mtime)
  {
    ok := AllFixed(found, mtime);
    if ok && |found| == |ms| {
      ok := SameContents(found, ms);
    } else {
      ok := false;
    }
  }

  method SameContents(found: seq<Entry>, ms: seq<Member>) returns (ok: bool)
    requires |found| == |ms|
    ensures ok <==> forall i :: 0 <= i < |ms| ==> found[i].name == ms[i].name && found[i].data == ms[i].data
  {
    var i := 0;
    while i < |ms|
      invariant 0 <= i <= |ms|
      invariant forall j :: 0 <= j < i ==> found[j].name == ms[j].name && found[j].data == ms[j].data
    {
      if found[i].name != ms[i].name || found[i].data != ms[i].data {
        return false;
      }
      i := i + 1;
    }
    return true;
  }

  method Verify(tar: bytes, ms: seq<Member>, mtime: nat) returns (ok: bool)
    ensures ok <==> Verified(tar, ms, mtime)
  {
    var r := ParseTar(tar, {Pax.PATH}, {});
    if r.Ok? {
      ok := Compare(r.value, ms, mtime);
    } else {
      ok := false;
    }
  }
}
