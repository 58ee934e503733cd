/** `assemble` from end to end: the written archive passes its own verification exactly when it is within the caps. */
module Assemble {
  import opened Bytes
  import opened Paths
  import opened Classifier
  import opened Release
  import opened TarHeader
  import opened TarWriter
  import Framing
  import Tar

  // "package/"
  const PACKAGE: bytes := [112, 97, 99, 107, 97, 103, 101, 47]

  /** A root file as given on the command line: its name, and its bytes. */
  datatype RootFile = RootFile(name: bytes, data: bytes)

  /** An admissible name; name and data small enough for the size field of a header, which ends at eight gibibytes. */
  predicate GoodRoot(r: RootFile) {
    IsRootSpec(r.name) && 8 + |r.name| <= Pow8(10) && |r.data| < Pow8(11)
  }

  function RootMembers(roots: seq<RootFile>): (ms: seq<Member>)
    ensures |ms| == |roots| && forall i :: 0 <= i < |ms| ==> ms[i] == Member(PACKAGE + roots[i].name, roots[i].data)
  {
    seq(|roots|, i requires 0 <= i < |roots| => Member(PACKAGE + roots[i].name, roots[i].data))
  }

  function PayloadMembers(pairs: seq<(bytes, bytes)>): (ms: seq<Member>)
    ensures |ms| == |pairs| && forall i :: 0 <= i < |ms| ==> ms[i] == Member(pairs[i].0, pairs[i].1)
  {
    seq(|pairs|, i requires 0 <= i < |pairs| => Member(pairs[i].0, pairs[i].1))
  }

  // ---- The names are ones an archive can carry ----

  predicate NoZero(t: text) {
    forall i :: 0 <= i < |t| ==> t[i] != 0
  }

  lemma {:induction false} NoZeroParts(s: text)
    requires forall i :: 0 <= i < |Parts(s)| ==> NoZero(Parts(s)[i])
    ensures NoZero(s)
    decreases |s|
  {
    var k := Cut(s);
    assert NoZero(Parts(s)[0]);
    if k < |s| {
      var rest := s[k + 1..];
      CutInTwo(s);
      assert forall i :: 0 <= i < |Parts(rest)| ==> Parts(rest)[i] == Parts(s)[i + 1];
      NoZeroParts(rest);
      assert forall i :: k < i < |s| ==> s[i] == rest[i - k - 1];
      assert forall i :: 0 <= i < k ==> s[i] == s[..k][i];
    }
  }

  lemma PermittedHasNoZero(part: text)
    requires IsPermitted(part)
    ensures NoZero(part)
  {
  }

  /** The first component of a payload name. */
  lemma PackageHasNoZero(name: text)
    requires Str("package/dist/") <= name
    ensures |name| > 12 && name[0] == 112 && NoZero(Parts(name)[0])
  {
    PackageFirst(name);
    FirstPart(name);
  }

  lemma PackageFirst(name: text)
    requires Str("package/dist/") <= name
    ensures |name| > 12 && name[0] == 112 && name[7] == SLASH && forall i :: 0 <= i < 7 ==> name[i] != 0
  {
    var p := Str("package/dist/");
    assert forall i :: 0 <= i < 13 ==> name[i] == p[i];
  }

  lemma FirstPart(name: text)
    requires |name| > 12 && name[7] == SLASH && forall i :: 0 <= i < 7 ==> name[i] != 0
    ensures NoZero(Parts(name)[0])
  {
    var k := Cut(name);
    assert k <= 7;
    CutInTwo(name);
    assert Parts(name)[0] == name[..k];
  }

  lemma PayloadNameIsPlain(kind: Kind, name: text, roots: set<text>)
    requires RoleOf(kind, name, roots) == Ok(Payload)
    ensures |name| > 12 && name[0] == 112 && NoZero(name)
  {
    PackageHasNoZero(name);
    forall i | 0 <= i < |Parts(name)|
      ensures NoZero(Parts(name)[i])
    {
      if i > 0 {
        PermittedHasNoZero(Parts(name)[i]);
      }
    }
    NoZeroParts(name);
  }

  ghost predicate PlainNames(chunks: seq<Framing.Chunk>) {
    forall i :: 0 <= i < |chunks| && chunks[i].PayloadChunk? ==>
      |chunks[i].name| > 12 && chunks[i].name[0] == 112 && NoNul(chunks[i].name)
  }

  lemma {:induction false} AcceptedNames(items: seq<Item>, entries: seq<Tar.Entry>, roots: set<text>)
    requires Accept(items, entries, roots).Ok?
    ensures PlainNames(Accept(items, entries, roots).value.chunks)
    decreases |entries|
  {
    if entries != [] {
      var item := ItemOf(items, entries[0], roots).value;
      AcceptedNames(items + [item], entries[1..], roots);
      if item.role == Payload {
        PayloadNameIsPlain(item.kind, item.name, roots);
      }
    }
  }

  /** The payload pairs are the payload chunks. */
  lemma {:induction false} SplitPayload(chunks: seq<Framing.Chunk>, i: nat)
    requires i < |Framing.Split(chunks).payload|
    ensures var p := Framing.Split(chunks).payload[i];
            exists j :: 0 <= j < |chunks| && chunks[j] == Framing.PayloadChunk(p.0, p.1)
    decreases |chunks|
  {
    var rest := chunks[1..];
    if chunks[0].PayloadChunk? && i == 0 {
      assert chunks[0] == Framing.PayloadChunk(chunks[0].name, chunks[0].data);
    } else {
      var k := if chunks[0].PayloadChunk? then i - 1 else i;
      SplitPayload(rest, k);
      var p := Framing.Split(rest).payload[k];
      var j :| 0 <= j < |rest| && rest[j] == Framing.PayloadChunk(p.0, p.1);
      assert chunks[j + 1] == rest[j];
    }
  }

  lemma ShortNameIsClean(name: bytes)
    requires 0 < |name| <= MAX_PATH && Ascii(name) && NoNul(name) && name[0] != SLASH
    ensures Clean(name)
  {
  }

  lemma RootIsWritable(r: RootFile)
    requires GoodRoot(r)
    ensures Writable(Member(PACKAGE + r.name, r.data))
  {
    var name := PACKAGE + r.name;
    forall i | 0 <= i < |name|
      ensures 0 < name[i] < 128
    {
      if i >= 8 {
        assert name[i] == r.name[i - 8];
      }
    }
  }

  /** The payload of an accepted archive, and the root files, in whatever order. */
  ghost predicate Assembled(ms: seq<Member>, pairs: seq<(bytes, bytes)>, rootFiles: seq<RootFile>) {
    multiset(ms) == multiset(PayloadMembers(pairs) + RootMembers(rootFiles))
  }

  lemma AssembledMember(ms: seq<Member>, pairs: seq<(bytes, bytes)>, rootFiles: seq<RootFile>, i: nat)
    requires Assembled(ms, pairs, rootFiles) && i < |ms|
    ensures || (exists k :: 0 <= k < |pairs| && ms[i] == Member(pairs[k].0, pairs[k].1))
            || (exists k :: 0 <= k < |rootFiles| && ms[i] == Member(PACKAGE + rootFiles[k].name, rootFiles[k].data))
  {
    var payload, roots := PayloadMembers(pairs), RootMembers(rootFiles);
    var all := payload + roots;
    assert ms[i] in multiset(ms);
    assert ms[i] in all;
    var k :| 0 <= k < |all| && all[k] == ms[i];
    if k < |pairs| {
      assert all[k] == payload[k];
    } else {
      assert all[k] == roots[k - |pairs|];
    }
  }

  lemma AssembledIsWritable(entries: seq<Tar.Entry>, roots: set<text>, rootFiles: seq<RootFile>, ms: seq<Member>)
    requires Accept([], entries, roots).Ok? && forall i :: 0 <= i < |entries| ==> |entries[i].data| <= Tar.MAX_FILE
    requires forall i :: 0 <= i < |rootFiles| ==> GoodRoot(rootFiles[i])
    requires Assembled(ms, Framing.Split(Accept([], entries, roots).value.chunks).payload, rootFiles)
    ensures WritableMembers(ms)
  {
    var chunks := Accept([], entries, roots).value.chunks;
    var pairs := Framing.Split(chunks).payload;
    AcceptedChunks([], entries, roots);
    AcceptedNames([], entries, roots);
    PowersOf8();
    forall i | 0 <= i < |ms|
      ensures Writable(ms[i])
    {
      AssembledMember(ms, pairs, rootFiles, i);
      if k :| 0 <= k < |pairs| && ms[i] == Member(pairs[k].0, pairs[k].1) {
        SplitPayload(chunks, k);
        var j :| 0 <= j < |chunks| && chunks[j] == Framing.PayloadChunk(pairs[k].0, pairs[k].1);
        ShortNameIsClean(chunks[j].name);
      } else {
        var k :| 0 <= k < |rootFiles| && ms[i] == Member(PACKAGE + rootFiles[k].name, rootFiles[k].data);
        RootIsWritable(rootFiles[k]);
      }
    }
  }

  // ---- The theorem ----

  /**
   * For every accepted archive and admissible root files, in whatever order they are assembled: `verify` accepts the
   * written result exactly when each root file, and the headers and the total of roots and payload, are within caps.
   */
  lemma AssembleVerifiesIffWithinCaps(tar: bytes, roots: set<text>, rootFiles: seq<RootFile>, ms: seq<Member>,
                                      mtime: nat, device: bytes)
    requires ChildOutput(tar, roots).Ok? && mtime < Pow8(11) && |device| == 8
    requires forall i :: 0 <= i < |rootFiles| ==> GoodRoot(rootFiles[i])
    requires Assembled(ms, Framing.Split(ChildOutput(tar, roots).value.chunks).payload, rootFiles)
    ensures Verified(WriteTar(ms, mtime, device), ms, mtime) <==> WithinReaderCaps(ms)
  {
    var read := Tar.PaxReader(InputKeys(), IgnoredKeys());
    Tar.ParseCaps(tar, Tar.START, read);
    AssembledIsWritable(Tar.Parse(tar, Tar.START, read).value, roots, rootFiles, ms);
    VerifiedIffWithinCaps(ms, mtime, device);
  }

  lemma {:induction false} AtLeastOneHeaderEach(ms: seq<Member>, pax: bool)
    ensures HeaderCount(ms, pax) >= |ms|
  {
    if ms != [] {
      AtLeastOneHeaderEach(ms[1..], pax);
    }
  }

  /** An accepted archive that fills the header cap leaves no room for a root file: `verify` refuses the result. */
  lemma FullPayloadIsRefused(tar: bytes, roots: set<text>, rootFiles: seq<RootFile>, ms: seq<Member>,
                             mtime: nat, device: bytes)
    requires ChildOutput(tar, roots).Ok? && mtime < Pow8(11) && |device| == 8
    requires forall i :: 0 <= i < |rootFiles| ==> GoodRoot(rootFiles[i])
    requires Assembled(ms, Framing.Split(ChildOutput(tar, roots).value.chunks).payload, rootFiles)
    requires |Framing.Split(ChildOutput(tar, roots).value.chunks).payload| + |rootFiles| > Tar.MAX_HEADERS
    ensures !Verified(WriteTar(ms, mtime, device), ms, mtime)
  {
    var pairs := Framing.Split(ChildOutput(tar, roots).value.chunks).payload;
    assert |ms| == |multiset(ms)| == |PayloadMembers(pairs) + RootMembers(rootFiles)|;
    AtLeastOneHeaderEach(ms, !AllFitUstar(ms));
    AssembleVerifiesIffWithinCaps(tar, roots, rootFiles, ms, mtime, device);
  }
}
