/** The strict ustar/PAX reader. */
module Tar {
  import opened Common
  import opened Bytes
  import Pax

  const BLOCK := 512
  const MAX_HEADERS := 4096
  const MAX_FILE := 8 * 1024 * 1024
  const MAX_TOTAL := 48 * 1024 * 1024
  const MAX_EXTENDED := 1024

  // "ustar", NUL, "00"
  const USTAR: bytes := [117, 115, 116, 97, 114, 0, 48, 48]

  const REGULAR: byte := 48
  const DIRECTORY: byte := 53
  const EXTENDED: byte := 120

  datatype Kind = File | Dir

  datatype Entry = Entry(kind: Kind, name: text, data: bytes, header: bytes)

  /** Where the reader is: the next header, the counts so far, and a pending extended header. */
  datatype Cursor = Cursor(offset: nat, headers: nat, total: nat, extended: Option<Pax.Records>)

  const START := Cursor(0, 0, 0, None)

  /** The part of a physical header that the reader uses. */
  datatype Fields = Fields(kind: byte, size: nat, name: text)

  /** How the body of an extended header is read. */
  type Reader = bytes -> Result<Pax.Records>

  datatype Step = End | Skip(next: Cursor) | Found(entry: Entry, next: Cursor)

  function SumOf(s: bytes): nat {
    if s == [] then 0 else s[0] + SumOf(s[1..])
  }

  /** The sum of the header's bytes with the checksum field read as eight spaces. */
  function Checksum(header: bytes): nat
    requires |header| == BLOCK
  {
    SumOf(header[..148]) + 8 * SPACE + SumOf(header[156..])
  }

  function Joined(prefix: bytes, name: bytes): bytes {
    if prefix == [] then name else prefix + [SLASH] + name
  }

  function Decode(header: bytes): Result<Fields>
    requires |header| == BLOCK
  {
    if Octal(header[148..156]) != Ok(Checksum(header)) || header[257..265] != USTAR then Refused else
      match Octal(header[124..136])
      case Refused => Refused
      case Ok(size) => Ok(Fields(header[156], size, Joined(CString(header[345..500]), CString(header[0..100]))))
  }

  function RoundUp(size: nat): (r: nat)
    ensures size <= r < size + BLOCK && r % BLOCK == 0
  {
    (size + BLOCK - 1) / BLOCK * BLOCK
  }

  predicate AllZero(s: bytes) {
    forall i :: 0 <= i < |s| ==> s[i] == NUL
  }

  function ReadExtended(tar: bytes, c: Cursor, f: Fields, read: Reader): Result<Step> {
    var start := c.offset + BLOCK;
    if c.extended.Some? || f.size > MAX_EXTENDED || start + f.size > |tar| then Refused else
      match read(tar[start..start + f.size])
      case Refused => Refused
      case Ok(records) => Ok(Skip(Cursor(start + RoundUp(f.size), c.headers + 1, c.total, Some(records))))
  }

  predicate SizeAgrees(extended: Option<Pax.Records>, size: nat) {
    extended.Some? && Pax.SIZE in extended.value ==> extended.value[Pax.SIZE] == Pax.Number(size)
  }

  /** The extended path, unless there is none or it is empty. */
  function EffectiveName(extended: Option<Pax.Records>, name: text): text {
    if extended.Some? && Pax.PATH in extended.value && extended.value[Pax.PATH].Text?
       && extended.value[Pax.PATH].text != []
    then extended.value[Pax.PATH].text
    else name
  }

  function ReadMember(tar: bytes, c: Cursor, f: Fields, header: bytes): Result<Step> {
    var start := c.offset + BLOCK;
    var next := start + RoundUp(f.size);
    var name := EffectiveName(c.extended, f.name);
    if !SizeAgrees(c.extended, f.size) then Refused
    else if f.kind == DIRECTORY then
      if f.size != 0 then Refused
      else Ok(Found(Entry(Dir, name, [], header), Cursor(next, c.headers + 1, c.total, None)))
    else if f.size > MAX_FILE || c.total + f.size > MAX_TOTAL || start + f.size > |tar| then Refused
    else Ok(Found(Entry(File, name, tar[start..start + f.size], header),
                  Cursor(next, c.headers + 1, c.total + f.size, None)))
  }

  /** One turn of the reader's loop. */
  function ReadHeader(tar: bytes, c: Cursor, read: Reader): (r: Result<Step>)
    ensures r.Ok? && !r.value.End? ==> c.offset + BLOCK <= |tar| && c.offset + BLOCK <= r.value.next.offset
  {
    if |tar| < c.offset + BLOCK then Refused else
      var header := tar[c.offset..c.offset + BLOCK];
      if AllZero(header) then
        if |tar| < c.offset + 2 * BLOCK || c.extended.Some? || !AllZero(tar[c.offset..]) then Refused else Ok(End)
      else if c.headers + 1 > MAX_HEADERS then Refused
      else
        match Decode(header)
        case Refused => Refused
        case Ok(f) =>
          if f.kind == EXTENDED then ReadExtended(tar, c, f, read)
          else if f.kind == REGULAR || f.kind == NUL || f.kind == DIRECTORY then ReadMember(tar, c, f, header)
          else Refused
  }

  function Before(e: Entry, rest: Result<seq<Entry>>): Result<seq<Entry>> {
    if rest.Ok? then Ok([e] + rest.value) else Refused
  }

  /** Everything the reader yields from a cursor on, or a refusal. */
  function Parse(tar: bytes, c: Cursor, read: Reader): Result<seq<Entry>>
    decreases |tar| - c.offset
  {
    match ReadHeader(tar, c, read)
    case Refused => Refused
    case Ok(End) => Ok([])
    case Ok(Skip(next)) => Parse(tar, next, read)
    case Ok(Found(e, next)) => Before(e, Parse(tar, next, read))
  }

  function After(entries: seq<Entry>, rest: Result<seq<Entry>>): Result<seq<Entry>> {
    if rest.Ok? then Ok(entries + rest.value) else Refused
  }

  /** What one turn of the loop leaves to be read. */
  lemma Turn(tar: bytes, c: Cursor, read: Reader, entries: seq<Entry>, step: Result<Step>)
    requires step == ReadHeader(tar, c, read)
    ensures var whole := After(entries, Parse(tar, c, read));
            match step
            case Refused => whole == Refused
            case Ok(End) => whole == Ok(entries)
            case Ok(Skip(next)) => whole == After(entries, Parse(tar, next, read))
            case Ok(Found(e, next)) => whole == After(entries + [e], Parse(tar, next, read))
  {
    assert entries + [] == entries;
    if step.Ok? && step.value.Found? {
      var rest := Parse(tar, step.value.next, read);
      if rest.Ok? {
        assert entries + ([step.value.entry] + rest.value) == entries + [step.value.entry] + rest.value;
      }
    }
  }

  function PaxReader(allowed: set<text>, ignored: set<text>): Reader {
    body => Pax.ParseRecords(body, 0, map[], allowed, ignored)
  }

  /** The loop of `parse_tar`: every turn moves the offset past at least one block. */
  method ParseTar(tar: bytes, allowed: set<text>, ignored: set<text>) returns (r: Result<seq<Entry>>)
    ensures r == Parse(tar, START, PaxReader(allowed, ignored))
  {
    var read := PaxReader(allowed, ignored);
    var entries: seq<Entry> := [];
    var c := START;
    ghost var whole := Parse(tar, START, read);
    assert whole.Ok? ==> [] + whole.value == whole.value;
    while true
      invariant After(entries, Parse(tar, c, read)) == whole
      decreases |tar| - c.offset
    {
      var step := ReadHeader(tar, c, read);
      Turn(tar, c, read, entries, step);
      match step
      case Refused =>
        return Refused;
      case Ok(End) =>
        return Ok(entries);
      case Ok(Skip(next)) =>
        c := next;
      case Ok(Found(e, next)) =>
        entries := entries + [e];
        c := next;
    }
  }

  // ---- The caps ----

  function TotalSize(entries: seq<Entry>): nat {
    if entries == [] then 0 else |entries[0].data| + TotalSize(entries[1..])
  }

  /** One turn keeps the caps. */
  lemma StepCaps(tar: bytes, c: Cursor, read: Reader)
    requires ReadHeader(tar, c, read).Ok? && c.headers <= MAX_HEADERS && c.total <= MAX_TOTAL
    ensures match ReadHeader(tar, c, read).value
            case End => true
            case Skip(next) => next.headers == c.headers + 1 <= MAX_HEADERS && next.total == c.total
            case Found(e, next) =>
              && next.headers == c.headers + 1 <= MAX_HEADERS && next.total == c.total + |e.data| <= MAX_TOTAL
              && |e.data| <= MAX_FILE && |e.header| == BLOCK
  {
  }

  /** What is accepted keeps the caps: member count, each size and the total. */
  lemma {:induction false} ParseCaps(tar: bytes, c: Cursor, read: Reader)
    requires Parse(tar, c, read).Ok?
    requires c.headers <= MAX_HEADERS && c.total <= MAX_TOTAL
    ensures var entries := Parse(tar, c, read).value;
            && c.headers + |entries| <= MAX_HEADERS
            && c.total + TotalSize(entries) <= MAX_TOTAL
            && forall e :: e in entries ==> |e.data| <= MAX_FILE && |e.header| == BLOCK
    decreases |tar| - c.offset
  {
    StepCaps(tar, c, read);
    match ReadHeader(tar, c, read).value
    case End =>
    case Skip(next) =>
      ParseCaps(tar, next, read);
    case Found(e, next) =>
      ParseCaps(tar, next, read);
      var rest := Parse(tar, next, read).value;
      assert ([e] + rest)[1..] == rest;
  }
}
