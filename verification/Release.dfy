/** The parser process from archive to framed output, and the tree the parent assembles from it. */
module Release {
  import opened Bytes
  import Tar
  import opened Classifier
  import opened Framing

  const CAP := Tar.MAX_TOTAL + Tar.MAX_HEADERS * (13 + MAX_PATH) + 1

  function InputKeys(): set<text> {
    {Str("path"), Str("size")}
  }

  function IgnoredKeys(): set<text> {
    {Str("comment"), Str("mtime"), Str("atime"), Str("ctime"), Str("uid"), Str("gid"), Str("uname"), Str("gname")}
  }

  predicate IsAsciiText(name: text) {
    forall i :: 0 <= i < |name| ==> 0 <= name[i] < 128
  }

  /** The chunk written for a member, if its role has one. */
  function ChunkFor(role: Role, name: text, data: bytes): (c: seq<Chunk>)
    requires IsAsciiText(name)
    ensures |c| <= 1
  {
    match role
    case Payload => [PayloadChunk(name, data)]
    case Root => [RootChunk(name)]
    case Neither => []
  }

  /** The members accepted, and what is written for them. */
  datatype Accepted = Accepted(items: seq<Item>, chunks: seq<Chunk>)

  /** The member `e` after `items`, when its name is permitted and the tree stays valid with it. */
  ghost function ItemOf(items: seq<Item>, e: Tar.Entry, roots: set<text>): (r: Result<Item>)
    ensures r.Ok? ==> IsAsciiText(r.value.name)
  {
    var name := Effective(e.kind, e.name);
    var role := RoleOf(e.kind, name, roots);
    if role.Ok? && IsAsciiText(name) && ValidTree(items + [Item(e.kind, name, role.value)])
    then Ok(Item(e.kind, name, role.value)) else Refused
  }

  /** The members from `items` on: each permitted, each keeping the tree valid, or a refusal. */
  ghost function Accept(items: seq<Item>, entries: seq<Tar.Entry>, roots: set<text>): Result<Accepted>
    decreases |entries|
  {
    if entries == [] then Ok(Accepted(items, [])) else
      var item := ItemOf(items, entries[0], roots);
      if item.Refused? then Refused else
        match Accept(items + [item.value], entries[1..], roots)
        case Refused => Refused
        case Ok(a) => Ok(Accepted(a.items, ChunkFor(item.value.role, item.value.name, entries[0].data) + a.chunks))
  }

  ghost function ChildOutput(tar: bytes, roots: set<text>): Result<Accepted> {
    var r := Tar.Parse(tar, Tar.START, Tar.PaxReader(InputKeys(), IgnoredKeys()));
    if r.Refused? then Refused else Accept([], r.value, roots)
  }

  // ---- The loop of the child ----

  function Written(chunks: seq<Chunk>): bytes {
    if chunks == [] then [] else Written(chunks[..|chunks| - 1]) + ChunkBytes(chunks[|chunks| - 1], [])
  }

  lemma ChunkThen(c: Chunk, rest: bytes)
    ensures ChunkBytes(c, rest) == ChunkBytes(c, []) + rest
  {
  }

  lemma WrittenLast(chunks: seq<Chunk>, c: Chunk)
    ensures Written(chunks + [c]) == Written(chunks) + ChunkBytes(c, [])
  {
    assert (chunks + [c])[..|chunks|] == chunks;
  }

  lemma {:induction false} WrittenIsStream(before: seq<Chunk>, after: seq<Chunk>)
    ensures Written(before) + Stream(after) == Stream(before + after)
    decreases |before|
  {
    if before == [] {
      assert before + after == after;
    } else {
      var n := |before| - 1;
      var first, c := before[..n], before[n];
      assert before == first + [c] && first + [c] + after == first + ([c] + after);
      WrittenIsStream(first, [c] + after);
      WrittenLast(first, c);
      StreamOfOne(c, after);
      Associates(Written(first), ChunkBytes(c, []), Stream(after));
    }
  }

  lemma StreamOfOne(c: Chunk, after: seq<Chunk>)
    ensures Stream([c] + after) == ChunkBytes(c, []) + Stream(after)
  {
    assert ([c] + after)[1..] == after;
    ChunkThen(c, Stream(after));
  }

  lemma Associates(a: bytes, b: bytes, c: bytes)
    ensures a + b + c == a + (b + c)
  {
  }

  /** What was written, followed by what is left to accept. */
  ghost function After(chunks: seq<Chunk>, rest: Result<Accepted>): Result<Accepted> {
    if rest.Ok? then Ok(Accepted(rest.value.items, chunks + rest.value.chunks)) else Refused
  }

  /** One accepted member, in front of the rest. */
  lemma AcceptOne(chunks: seq<Chunk>, items: seq<Item>, entries: seq<Tar.Entry>, roots: set<text>, item: Item)
    requires entries != [] && ItemOf(items, entries[0], roots) == Ok(item)
    ensures After(chunks, Accept(items, entries, roots))
         == After(chunks + ChunkFor(item.role, item.name, entries[0].data), Accept(items + [item], entries[1..], roots))
  {
    var rest := Accept(items + [item], entries[1..], roots);
    if rest.Ok? {
      var c := ChunkFor(item.role, item.name, entries[0].data);
      assert chunks + (c + rest.value.chunks) == chunks + c + rest.value.chunks;
    }
  }

  /** `child_main`: classifies each member and writes its chunk, then the end marker. */
  method ChildMain(tar: bytes, roots: set<text>) returns (r: Result<bytes>)
    ensures var a := ChildOutput(tar, roots);
            r == if a.Ok? then Ok(Stream(a.value.chunks)) else Refused
  {
    var parsed := Tar.ParseTar(tar, InputKeys(), IgnoredKeys());
    if parsed.Refused? {
      return Refused;
    }
    r := WriteMembers(parsed.value, roots);
  }

  lemma WrittenMore(chunks: seq<Chunk>, c: seq<Chunk>)
    requires |c| <= 1
    ensures Written(chunks + c) == if c == [] then Written(chunks) else Written(chunks) + ChunkBytes(c[0], [])
  {
    if c == [] {
      assert chunks + c == chunks;
    } else {
      assert (chunks + c)[..|chunks|] == chunks;
    }
  }

  /** A member that is refused refuses the rest with it. */
  lemma RefusedMember(chunks: seq<Chunk>, items: seq<Item>, entries: seq<Tar.Entry>, roots: set<text>)
    requires entries != [] && ItemOf(items, entries[0], roots).Refused?
    ensures After(chunks, Accept(items, entries, roots)) == Refused
  {
  }

  method ClassifyEntry(classifier: Members, e: Tar.Entry) returns (r: Result<Item>)
    requires classifier.Valid()
    modifies classifier
    ensures r == ItemOf(old(classifier.items), e, classifier.roots)
    ensures r.Ok? ==> classifier.Valid() && classifier.items == old(classifier.items) + [r.value]
  {
    var item := classifier.Classify(e.kind, e.name);
    return if item.Ok? && IsAsciiText(item.value.name) then item else Refused;
  }

  method WriteMembers(entries: seq<Tar.Entry>, roots: set<text>) returns (r: Result<bytes>)
    ensures var a := Accept([], entries, roots);
            r == if a.Ok? then Ok(Stream(a.value.chunks)) else Refused
  {
    var classifier := new Members(roots);
    var out: bytes := [];
    ghost var chunks: seq<Chunk> := [];
    ghost var whole := Accept([], entries, roots);
    assert entries[0..] == entries;
    assert whole.Ok? ==> [] + whole.value.chunks == whole.value.chunks;
    var i := 0;
    while i < |entries|
      invariant 0 <= i <= |entries|
      invariant fresh(classifier) && classifier.roots == roots && classifier.Valid()
      invariant out == Written(chunks)
      invariant After(chunks, Accept(classifier.items, entries[i..], roots)) == whole
    {
      assert entries[i..][0] == entries[i] && entries[i..][1..] == entries[i + 1..];
      ghost var items := classifier.items;
      var item := ClassifyEntry(classifier, entries[i]);
      if item.Refused? {
        RefusedMember(chunks, items, entries[i..], roots);
        return Refused;
      }
      AcceptOne(chunks, items, entries[i..], roots, item.value);
      var c := ChunkFor(item.value.role, item.value.name, entries[i].data);
      WrittenMore(chunks, c);
      if c != [] {
        out := out + ChunkBytes(c[0], []);
      }
      chunks := chunks + c;
      i := i + 1;
    }
    assert chunks + [] == chunks;
    WrittenIsStream(chunks, []);
    return Ok(out + [E]);
  }

  // ---- The output bound and the round trip ----

  lemma {:induction false} AsciiSize(name: text)
    requires IsAsciiText(name)
    ensures Utf8Size(name) == |name|
  {
    if name != [] {
      AsciiSize(name[1..]);
    }
  }

  predicate ShortChunk(c: Chunk) {
    |c.name| <= MAX_PATH && Ascii(c.name) && (c.PayloadChunk? ==> |c.data| <= Tar.MAX_FILE)
  }

  /** The chunks of an accepted archive: few, short-named, and no more data than the members hold. */
  lemma {:induction false} AcceptedChunks(items: seq<Item>, entries: seq<Tar.Entry>, roots: set<text>)
    requires Accept(items, entries, roots).Ok?
    requires forall i :: 0 <= i < |entries| ==> |entries[i].data| <= Tar.MAX_FILE
    ensures var chunks := Accept(items, entries, roots).value.chunks;
            && |chunks| <= |entries|
            && DataSize(chunks) <= Tar.TotalSize(entries)
            && forall i :: 0 <= i < |chunks| ==> ShortChunk(chunks[i])
    decreases |entries|
  {
    if entries != [] {
      var e := entries[0];
      var item := ItemOf(items, e, roots).value;
      AcceptedChunks(items + [item], entries[1..], roots);
      AsciiSize(item.name);
      var rest := Accept(items + [item], entries[1..], roots).value.chunks;
      var c := ChunkFor(item.role, item.name, e.data);
      if c != [] {
        assert (c + rest)[0] == c[0] && (c + rest)[1..] == rest;
      } else {
        assert c + rest == rest;
      }
    }
  }

  lemma PowersOf256()
    ensures Pow256(4) > MAX_PATH && Pow256(8) > Tar.MAX_FILE
  {
    assert Pow256(2) == 65536;
    assert Pow256(4) == 4294967296;
    assert Pow256(6) == 281474976710656;
  }

  /** For every accepted archive the output is within the parent's cap and unframes to what was written. */
  lemma ChildOutputIsReadBack(tar: bytes, roots: set<text>)
    requires ChildOutput(tar, roots).Ok?
    ensures var chunks := ChildOutput(tar, roots).value.chunks;
            |Stream(chunks)| <= CAP && Unframed(Stream(chunks)) == Ok(Split(chunks))
  {
    var read := Tar.PaxReader(InputKeys(), IgnoredKeys());
    var entries := Tar.Parse(tar, Tar.START, read).value;
    Tar.ParseCaps(tar, Tar.START, read);
    OutputOf(entries, roots);
  }

  lemma OutputOf(entries: seq<Tar.Entry>, roots: set<text>)
    requires |entries| <= Tar.MAX_HEADERS && Tar.TotalSize(entries) <= Tar.MAX_TOTAL
    requires forall e :: e in entries ==> |e.data| <= Tar.MAX_FILE
    requires Accept([], entries, roots).Ok?
    ensures var chunks := Accept([], entries, roots).value.chunks;
            |Stream(chunks)| <= CAP && Unframed(Stream(chunks)) == Ok(Split(chunks))
  {
    AcceptedChunks([], entries, roots);
    StreamWithinCap(Accept([], entries, roots).value.chunks);
  }

  lemma StreamWithinCap(chunks: seq<Chunk>)
    requires |chunks| <= Tar.MAX_HEADERS && DataSize(chunks) <= Tar.MAX_TOTAL
    requires forall i :: 0 <= i < |chunks| ==> ShortChunk(chunks[i])
    ensures |Stream(chunks)| <= CAP && Unframed(Stream(chunks)) == Ok(Split(chunks))
  {
    PowersOf256();
    FrameRoundTrip(chunks);
    StreamIsShort(chunks);
    OverheadBound(chunks, MAX_PATH);
  }

  // ---- The assembled tree ----

  lemma {:induction false} AcceptedTree(items: seq<Item>, entries: seq<Tar.Entry>, roots: set<text>)
    requires ValidTree(items) && Accept(items, entries, roots).Ok?
    requires forall item :: item in items && item.role == Payload ==> IsPayload(item)
    ensures var all := Accept(items, entries, roots).value.items;
            && ValidTree(all)
            && forall item :: item in all && item.role == Payload ==> IsPayload(item)
    decreases |entries|
  {
    if entries != [] {
      AcceptedTree(items + [ItemOf(items, entries[0], roots).value], entries[1..], roots);
    }
  }

  /** An accepted archive is a valid tree, and so is its payload with any admissible root files added. */
  lemma AssembledTree(entries: seq<Tar.Entry>, roots: set<text>, rootFiles: seq<text>)
    requires Accept([], entries, roots).Ok? && RootsDistinct(rootFiles)
    ensures var items := Accept([], entries, roots).value.items;
            ValidTree(items) && ValidTree(PayloadOf(items) + RootItems(rootFiles))
  {
    var items := Accept([], entries, roots).value.items;
    AcceptedTree([], entries, roots);
    PayloadStaysValid(items);
    AssembledIsValid(PayloadOf(items), rootFiles);
  }
}
