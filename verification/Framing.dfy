/** The length-prefixed stream from the parser process to its parent. */
module Framing {
  import opened Bytes
  import opened TarHeader

  datatype Chunk = PayloadChunk(name: bytes, data: bytes) | RootChunk(name: bytes)

  /** What the parent takes from the stream. */
  datatype Contents = Contents(payload: seq<(bytes, bytes)>, roots: seq<bytes>)

  const P: byte := 80
  const R: byte := 82
  const E: byte := 69

  function Pow256(k: nat): nat {
    if k == 0 then 1 else 256 * Pow256(k - 1)
  }

  /** `n` in `k` bytes, the highest first. */
  function BigEndian(n: nat, k: nat): (s: bytes)
    ensures |s| == k
  {
    if k == 0 then [] else BigEndian(n / 256, k - 1) + [n % 256]
  }

  function BigEndianValue(s: bytes): nat {
    if s == [] then 0 else 256 * BigEndianValue(s[..|s| - 1]) + s[|s| - 1]
  }

  lemma {:induction false} BigEndianRoundTrip(n: nat, k: nat)
    requires n < Pow256(k)
    ensures BigEndianValue(BigEndian(n, k)) == n
  {
    if k > 0 {
      BigEndianRoundTrip(n / 256, k - 1);
      var s := BigEndian(n, k);
      assert s[..k - 1] == BigEndian(n / 256, k - 1) && s[k - 1] == n % 256;
    }
  }

  /** One chunk and what follows it. */
  function ChunkBytes(c: Chunk, rest: bytes): bytes {
    match c
    case PayloadChunk(name, data) => [P] + (BigEndian(|name|, 4) + (BigEndian(|data|, 8) + (name + (data + rest))))
    case RootChunk(name) => [R] + (BigEndian(|name|, 4) + (name + rest))
  }

  function Stream(chunks: seq<Chunk>): bytes {
    if chunks == [] then [E] else ChunkBytes(chunks[0], Stream(chunks[1..]))
  }

  // ---- Reading ----

  datatype Piece = Last | Piece(chunk: Chunk, end: nat)

  /** The chunk at `i`, or the end marker on the last byte. */
  function ReadPiece(s: bytes, i: nat): (r: Result<Piece>)
    ensures r.Ok? && r.value.Piece? ==> i < r.value.end <= |s|
  {
    if i >= |s| then Refused
    else if s[i] == E && i + 1 == |s| then Ok(Last)
    else if s[i] == P && i + 13 <= |s| then
      var nameEnd := i + 13 + BigEndianValue(s[i + 1..i + 5]);
      var end := nameEnd + BigEndianValue(s[i + 5..i + 13]);
      if end > |s| || !Ascii(s[i + 13..nameEnd]) then Refused
      else Ok(Piece(PayloadChunk(s[i + 13..nameEnd], s[nameEnd..end]), end))
    else if s[i] == R && i + 5 <= |s| then
      var end := i + 5 + BigEndianValue(s[i + 1..i + 5]);
      if end > |s| || !Ascii(s[i + 5..end]) then Refused else Ok(Piece(RootChunk(s[i + 5..end]), end))
    else Refused
  }

  function Chunks(s: bytes, i: nat): Result<seq<Chunk>>
    decreases |s| - i
  {
    match ReadPiece(s, i)
    case Refused => Refused
    case Ok(Last) => Ok([])
    case Ok(Piece(c, end)) =>
      var rest := Chunks(s, end);
      if rest.Ok? then Ok([c] + rest.value) else Refused
  }

  function Split(chunks: seq<Chunk>): Contents {
    if chunks == [] then Contents([], []) else
      var rest := Split(chunks[1..]);
      match chunks[0]
      case PayloadChunk(name, data) => rest.(payload := [(name, data)] + rest.payload)
      case RootChunk(name) => rest.(roots := [name] + rest.roots)
  }

  function Unframed(s: bytes): Result<Contents> {
    var r := Chunks(s, 0);
    if r.Ok? then Ok(Split(r.value)) else Refused
  }

  /** What was read, followed by what is left to read. */
  function After(soFar: Contents, rest: Result<seq<Chunk>>): Result<Contents> {
    if rest.Refused? then Refused else
      Ok(Contents(soFar.payload + Split(rest.value).payload, soFar.roots + Split(rest.value).roots))
  }

  function Add(soFar: Contents, c: Chunk): Contents {
    match c
    case PayloadChunk(name, data) => soFar.(payload := soFar.payload + [(name, data)])
    case RootChunk(name) => soFar.(roots := soFar.roots + [name])
  }

  lemma AfterAdd(soFar: Contents, c: Chunk, rest: seq<Chunk>)
    ensures After(soFar, Ok([c] + rest)) == After(Add(soFar, c), Ok(rest))
  {
    assert ([c] + rest)[1..] == rest;
    var s := Split(rest);
    match c
    case PayloadChunk(name, data) =>
      assert soFar.payload + ([(name, data)] + s.payload) == soFar.payload + [(name, data)] + s.payload;
    case RootChunk(name) =>
      assert soFar.roots + ([name] + s.roots) == soFar.roots + [name] + s.roots;
  }

  /** What one turn of the loop leaves to be read. */
  lemma Turn(s: bytes, i: nat, soFar: Contents, piece: Result<Piece>)
    requires piece == ReadPiece(s, i)
    ensures var whole := After(soFar, Chunks(s, i));
            match piece
            case Refused => whole == Refused
            case Ok(Last) => whole == Ok(soFar)
            case Ok(Piece(c, end)) => whole == After(Add(soFar, c), Chunks(s, end))
  {
    assert soFar.payload + [] == soFar.payload && soFar.roots + [] == soFar.roots;
    if piece.Ok? && piece.value.Piece? && Chunks(s, piece.value.end).Ok? {
      AfterAdd(soFar, piece.value.chunk, Chunks(s, piece.value.end).value);
    }
  }

  /** The loop of `unframe`. */
  method Unframe(s: bytes) returns (r: Result<Contents>)
    ensures r == Unframed(s)
  {
    var soFar := Contents([], []);
    var i := 0;
    ghost var whole := Unframed(s);
    AfterNothing(Chunks(s, 0));
    while true
      invariant After(soFar, Chunks(s, i)) == whole
      decreases |s| - i
    {
      var piece := ReadPiece(s, i);
      Turn(s, i, soFar, piece);
      match piece
      case Refused =>
        return Refused;
      case Ok(Last) =>
        return Ok(soFar);
      case Ok(Piece(c, end)) =>
        soFar := Add(soFar, c);
        i := end;
    }
  }

  lemma AfterNothing(rest: Result<seq<Chunk>>)
    ensures After(Contents([], []), rest) == if rest.Ok? then Ok(Split(rest.value)) else Refused
  {
    if rest.Ok? {
      assert [] + Split(rest.value).payload == Split(rest.value).payload;
      assert [] + Split(rest.value).roots == Split(rest.value).roots;
    }
  }

  // ---- The round trip ----

  predicate Frameable(c: Chunk) {
    && Ascii(c.name) && |c.name| < Pow256(4)
    && (c.PayloadChunk? ==> |c.data| < Pow256(8))
  }

  lemma PayloadPiece(s: bytes, i: nat, name: bytes, data: bytes, rest: bytes)
    requires Frameable(PayloadChunk(name, data))
    requires i <= |s| && s[i..] == ChunkBytes(PayloadChunk(name, data), rest)
    ensures i + 13 + |name| + |data| <= |s| && s[i + 13 + |name| + |data|..] == rest
    ensures ReadPiece(s, i) == Ok(Piece(PayloadChunk(name, data), i + 13 + |name| + |data|))
  {
    var r3 := data + rest;
    var r2 := name + r3;
    var r1 := BigEndian(|data|, 8) + r2;
    At(s, i, [P], BigEndian(|name|, 4) + r1);
    assert s[i] == s[i..i + 1][0];
    At(s, i + 1, BigEndian(|name|, 4), r1);
    At(s, i + 5, BigEndian(|data|, 8), r2);
    At(s, i + 13, name, r3);
    At(s, i + 13 + |name|, data, rest);
    BigEndianRoundTrip(|name|, 4);
    BigEndianRoundTrip(|data|, 8);
  }

  lemma RootPiece(s: bytes, i: nat, name: bytes, rest: bytes)
    requires Frameable(RootChunk(name))
    requires i <= |s| && s[i..] == ChunkBytes(RootChunk(name), rest)
    ensures i + 5 + |name| <= |s| && s[i + 5 + |name|..] == rest
    ensures ReadPiece(s, i) == Ok(Piece(RootChunk(name), i + 5 + |name|))
  {
    At(s, i, [R], BigEndian(|name|, 4) + (name + rest));
    assert s[i] == s[i..i + 1][0];
    At(s, i + 1, BigEndian(|name|, 4), name + rest);
    At(s, i + 5, name, rest);
    BigEndianRoundTrip(|name|, 4);
  }

  lemma ReadsPiece(s: bytes, i: nat, c: Chunk, rest: bytes) returns (end: nat)
    requires Frameable(c) && i <= |s| && s[i..] == ChunkBytes(c, rest)
    ensures end <= |s| && s[end..] == rest && ReadPiece(s, i) == Ok(Piece(c, end))
  {
    match c
    case PayloadChunk(name, data) =>
      PayloadPiece(s, i, name, data, rest);
      end := i + 13 + |name| + |data|;
    case RootChunk(name) =>
      RootPiece(s, i, name, rest);
      end := i + 5 + |name|;
  }

  lemma ReadsLast(s: bytes, i: nat)
    requires i <= |s| && s[i..] == [E]
    ensures ReadPiece(s, i) == Ok(Last)
  {
    assert |s| == i + 1 && s[i] == s[i..][0];
  }

  lemma {:induction false} ChunksReadBack(s: bytes, i: nat, chunks: seq<Chunk>)
    requires forall k :: 0 <= k < |chunks| ==> Frameable(chunks[k])
    requires i <= |s| && s[i..] == Stream(chunks)
    ensures Chunks(s, i) == Ok(chunks)
    decreases |chunks|
  {
    if chunks == [] {
      ReadsLast(s, i);
    } else {
      var end := ReadsPiece(s, i, chunks[0], Stream(chunks[1..]));
      ChunksReadBack(s, end, chunks[1..]);
      assert [chunks[0]] + chunks[1..] == chunks;
    }
  }

  /** `unframe` returns exactly what was framed, in order. */
  lemma FrameRoundTrip(chunks: seq<Chunk>)
    requires forall k :: 0 <= k < |chunks| ==> Frameable(chunks[k])
    ensures Unframed(Stream(chunks)) == Ok(Split(chunks))
  {
    assert Stream(chunks)[0..] == Stream(chunks);
    ChunksReadBack(Stream(chunks), 0, chunks);
  }

  // ---- Nothing else is accepted ----

  lemma {:induction false} BigEndianOf(s: bytes)
    ensures BigEndianValue(s) < Pow256(|s|) && BigEndian(BigEndianValue(s), |s|) == s
  {
    if s != [] {
      var n := |s| - 1;
      BigEndianOf(s[..n]);
      assert s == s[..n] + [s[n]];
    }
  }

  lemma PayloadBytes(s: bytes, i: nat, end: nat, name: bytes, data: bytes)
    requires i + 13 <= |s| && s[i] == P && end <= |s| && end == i + 13 + |name| + |data|
    requires |name| == BigEndianValue(s[i + 1..i + 5]) && |data| == BigEndianValue(s[i + 5..i + 13])
    requires name == s[i + 13..i + 13 + |name|] && data == s[i + 13 + |name|..end] && Ascii(name)
    ensures s[i..] == ChunkBytes(PayloadChunk(name, data), s[end..]) && Frameable(PayloadChunk(name, data))
  {
    BigEndianOf(s[i + 1..i + 5]);
    BigEndianOf(s[i + 5..i + 13]);
    var m := i + 13 + |name|;
    assert s[m..] == data + s[end..];
    assert s[i + 13..] == name + s[m..];
    assert s[i + 5..] == s[i + 5..i + 13] + s[i + 13..];
    assert s[i + 1..] == s[i + 1..i + 5] + s[i + 5..];
    assert s[i..] == [P] + s[i + 1..];
  }

  lemma RootBytes(s: bytes, i: nat, end: nat, name: bytes)
    requires i + 5 <= |s| && s[i] == R && end <= |s| && end == i + 5 + |name|
    requires |name| == BigEndianValue(s[i + 1..i + 5]) && name == s[i + 5..end] && Ascii(name)
    ensures s[i..] == ChunkBytes(RootChunk(name), s[end..]) && Frameable(RootChunk(name))
  {
    BigEndianOf(s[i + 1..i + 5]);
    assert s[i + 5..] == name + s[end..];
    assert s[i + 1..] == s[i + 1..i + 5] + s[i + 5..];
    assert s[i..] == [R] + s[i + 1..];
  }

  /** What is read as a chunk is the chunk's own bytes. */
  lemma PieceBytes(s: bytes, i: nat)
    requires ReadPiece(s, i).Ok? && ReadPiece(s, i).value.Piece?
    ensures var p := ReadPiece(s, i).value;
            i < p.end <= |s| && s[i..] == ChunkBytes(p.chunk, s[p.end..]) && Frameable(p.chunk)
  {
    var p := ReadPiece(s, i).value;
    match p.chunk
    case PayloadChunk(name, data) => PayloadBytes(s, i, p.end, name, data);
    case RootChunk(name) => RootBytes(s, i, p.end, name);
  }

  lemma {:induction false} ChunksAreStream(s: bytes, i: nat)
    requires i <= |s| && Chunks(s, i).Ok?
    ensures s[i..] == Stream(Chunks(s, i).value)
    ensures forall k :: 0 <= k < |Chunks(s, i).value| ==> Frameable(Chunks(s, i).value[k])
    decreases |s| - i
  {
    var piece := ReadPiece(s, i).value;
    if piece.Last? {
      assert s[i..] == [E];
    } else {
      PieceBytes(s, i);
      ChunksAreStream(s, piece.end);
      var rest := Chunks(s, piece.end).value;
      assert ([piece.chunk] + rest)[1..] == rest;
    }
  }

  /** `unframe` accepts exactly the framings of chunks that can be framed, and answers with their contents. */
  lemma UnframedIffStream(s: bytes, contents: Contents)
    ensures Unframed(s) == Ok(contents)
       <==> exists chunks :: IsFraming(s, chunks) && contents == Split(chunks)
  {
    if Unframed(s) == Ok(contents) {
      ChunksAreStream(s, 0);
      assert s[0..] == s;
      assert IsFraming(s, Chunks(s, 0).value);
    }
    if chunks :| IsFraming(s, chunks) && contents == Split(chunks) {
      FrameRoundTrip(chunks);
    }
  }

  ghost predicate IsFraming(s: bytes, chunks: seq<Chunk>) {
    s == Stream(chunks) && forall k :: 0 <= k < |chunks| ==> Frameable(chunks[k])
  }

  // ---- One chunk on its bytes ----

  /** The number in the four bytes at `i`, the highest first. */
  function Word32(s: bytes, i: nat): nat
    requires i + 4 <= |s|
  {
    16_777_216 * (s[i] as int) + 65_536 * (s[i + 1] as int) + 256 * (s[i + 2] as int) + (s[i + 3] as int)
  }

  lemma WordAt(s: bytes, at: nat, field: bytes, i: nat)
    requires at + |field| <= |s| && s[at..at + |field|] == field && i + 4 <= |field|
    ensures Word32(s, at + i) == Word32(field, i)
  {
    assert forall k :: 0 <= k < |field| ==> field[k] == s[at + k];
  }

  /** Four more bytes behind a number. */
  lemma FourMore(s: bytes, i: nat)
    requires i + 4 <= |s|
    ensures BigEndianValue(s[..i + 4]) == 4_294_967_296 * BigEndianValue(s[..i]) + Word32(s, i)
  {
    forall k | i <= k < i + 4
      ensures BigEndianValue(s[..k + 1]) == 256 * BigEndianValue(s[..k]) + s[k]
    {
      assert s[..k + 1][..k] == s[..k];
    }
  }

  lemma WordIs(n: nat)
    requires n < 4_294_967_296
    ensures Word32(BigEndian(n, 4), 0) == n
  {
    BigEndianRoundTrip(n, 4);
    var s := BigEndian(n, 4);
    FourMore(s, 0);
    assert s[..4] == s && s[..0] == [];
  }

  lemma LongIs(n: nat)
    requires n < 18_446_744_073_709_551_616
    ensures var s := BigEndian(n, 8); 4_294_967_296 * Word32(s, 0) + Word32(s, 4) == n
  {
    BigEndianRoundTrip(n, 8);
    var s := BigEndian(n, 8);
    FourMore(s, 0);
    FourMore(s, 4);
    assert s[..8] == s && s[..0] == [];
  }

  /** The letter P, the name's length in four bytes and the data's in eight, the name and the data. */
  lemma PayloadOnBytes(name: bytes, data: bytes, rest: bytes)
    requires Frameable(PayloadChunk(name, data))
    ensures var t, end := ChunkBytes(PayloadChunk(name, data), rest), 13 + |name| + |data|;
            && |t| == end + |rest| && t[0] == 80
            && Word32(t, 1) == |name| && 4_294_967_296 * Word32(t, 5) + Word32(t, 9) == |data|
            && t[13..13 + |name|] == name && t[13 + |name|..end] == data && t[end..] == rest
  {
    var t := ChunkBytes(PayloadChunk(name, data), rest);
    var words, long := BigEndian(|name|, 4), BigEndian(|data|, 8);
    WordIs(|name|);
    LongIs(|data|);
    At(t, 1, words, long + (name + (data + rest)));
    At(t, 5, long, name + (data + rest));
    At(t, 13, name, data + rest);
    At(t, 13 + |name|, data, rest);
    WordAt(t, 1, words, 0);
    WordAt(t, 5, long, 0);
    WordAt(t, 5, long, 4);
  }

  /** The letter R, the name's length in four bytes, and the name. */
  lemma RootOnBytes(name: bytes, rest: bytes)
    requires Frameable(RootChunk(name))
    ensures var t, end := ChunkBytes(RootChunk(name), rest), 5 + |name|;
            |t| == end + |rest| && t[0] == 82 && Word32(t, 1) == |name| && t[5..end] == name && t[end..] == rest
  {
    var t, words := ChunkBytes(RootChunk(name), rest), BigEndian(|name|, 4);
    WordIs(|name|);
    At(t, 1, words, name + rest);
    At(t, 5, name, rest);
    WordAt(t, 1, words, 0);
  }

  // ---- The length ----

  function DataSize(chunks: seq<Chunk>): nat {
    if chunks == [] then 0 else (if chunks[0].PayloadChunk? then |chunks[0].data| else 0) + DataSize(chunks[1..])
  }

  lemma ChunkLength(c: Chunk, rest: bytes)
    ensures |ChunkBytes(c, rest)| <= (if c.PayloadChunk? then |c.data| else 0) + 13 + |c.name| + |rest|
  {
  }

  function Overhead(chunks: seq<Chunk>): nat {
    if chunks == [] then 0 else 13 + |chunks[0].name| + Overhead(chunks[1..])
  }

  lemma {:induction false} StreamIsShort(chunks: seq<Chunk>)
    ensures |Stream(chunks)| <= DataSize(chunks) + Overhead(chunks) + 1
  {
    if chunks != [] {
      StreamIsShort(chunks[1..]);
      ChunkLength(chunks[0], Stream(chunks[1..]));
    }
  }

  lemma {:induction false} OverheadBound(chunks: seq<Chunk>, longest: nat)
    requires forall i :: 0 <= i < |chunks| ==> |chunks[i].name| <= longest
    ensures Overhead(chunks) <= |chunks| * (13 + longest)
  {
    if chunks != [] {
      OverheadBound(chunks[1..], longest);
      var n := |chunks[1..]|;
      assert |chunks| * (13 + longest) == n * (13 + longest) + (13 + longest);
    }
  }
}
