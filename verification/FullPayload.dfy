/** An accepted archive that fills the header cap: `assemble` refuses its own result. */
module FullPayload {
  import opened Bytes
  import opened Paths
  import opened Classifier
  import opened Release
  import opened TarHeader
  import opened TarWriter
  import opened Assemble
  import Framing
  import Pax
  import Tar

  // ---- Names enough ----

  // "package"
  const HEAD: text := [112, 97, 99, 107, 97, 103, 101]
  // "dist"
  const MIDDLE: text := [100, 105, 115, 116]

  /** Three letters for each number below 4096. */
  function Leaf(i: nat): (t: text)
    requires i < Tar.MAX_HEADERS
    ensures |t| == 3 && forall k :: 0 <= k < 3 ==> 97 <= t[k] <= 112
  {
    [97 + i / 256, 97 + i / 16 % 16, 97 + i % 16]
  }

  function Name(i: nat): text
    requires i < Tar.MAX_HEADERS
  {
    HEAD + [SLASH] + (MIDDLE + [SLASH] + Leaf(i))
  }

  lemma LeafOnce(i: nat, j: nat)
    requires i < Tar.MAX_HEADERS && j < Tar.MAX_HEADERS && Leaf(i) == Leaf(j)
    ensures i == j
  {
    assert Leaf(i)[0] == Leaf(j)[0] && Leaf(i)[1] == Leaf(j)[1] && Leaf(i)[2] == Leaf(j)[2];
    assert i == 256 * (i / 256) + 16 * (i / 16 % 16) + i % 16;
    assert j == 256 * (j / 256) + 16 * (j / 16 % 16) + j % 16;
  }

  lemma NameOnce(i: nat, j: nat)
    requires i < Tar.MAX_HEADERS && j < Tar.MAX_HEADERS && Name(i) == Name(j)
    ensures i == j
  {
    assert Name(i)[13..] == Leaf(i) && Name(j)[13..] == Leaf(j);
    LeafOnce(i, j);
  }

  predicate Small(t: text) {
    forall k :: 0 <= k < |t| ==> t[k] == SLASH || 97 <= t[k] <= 122
  }

  lemma NameIsSmall(i: nat)
    requires i < Tar.MAX_HEADERS
    ensures |Name(i)| == 16 && Small(Name(i)) && Lower(Name(i)) == Name(i)
  {
    var n := Name(i);
    assert forall k :: 0 <= k < 7 ==> n[k] == HEAD[k];
    assert forall k :: 8 <= k < 12 ==> n[k] == MIDDLE[k - 8];
    assert forall k :: 13 <= k < 16 ==> n[k] == Leaf(i)[k - 13];
  }

  // ---- Their components ----

  lemma OnePart(s: text)
    requires SLASH !in s
    ensures Parts(s) == [s]
  {
    assert Cut(s) == |s|;
  }

  lemma FirstOfParts(head: text, rest: text)
    requires SLASH !in head
    ensures Parts(head + [SLASH] + rest) == [head] + Parts(rest)
  {
    var s := head + [SLASH] + rest;
    var k := Cut(s);
    assert s[|head|] == SLASH && forall j :: 0 <= j < |head| ==> s[j] == head[j];
    assert k == |head|;
    assert s[..k] == head && s[k + 1..] == rest;
  }

  lemma NameParts(i: nat)
    requires i < Tar.MAX_HEADERS
    ensures Parts(Name(i)) == [HEAD, MIDDLE, Leaf(i)]
  {
    FirstOfParts(HEAD, MIDDLE + [SLASH] + Leaf(i));
    FirstOfParts(MIDDLE, Leaf(i));
    OnePart(Leaf(i));
  }

  lemma ShortIsPermitted(part: text)
    requires 0 < |part| <= 4 && Small(part) && SLASH !in part
    ensures IsPermitted(part)
  {
    assert forall k :: 0 <= k < |part| ==> part[k] in part;
    assert |Lower(part)| == |part|;
  }

  lemma NameStarts(i: nat)
    requires i < Tar.MAX_HEADERS
    ensures Str("package/dist/") <= Name(i)
  {
    var p := Str("package/dist/");
    assert p == HEAD + [SLASH] + (MIDDLE + [SLASH]);
    assert Name(i) == p + Leaf(i);
  }

  lemma NameWithinCaps(i: nat)
    requires i < Tar.MAX_HEADERS
    ensures IsAsciiText(Name(i)) && Classifier.WithinCaps(Name(i))
  {
    NameIsSmall(i);
    AsciiSize(Name(i));
    var parts := Parts(Name(i));
    NameParts(i);
    forall k | 0 <= k < |parts|
      ensures Utf8Size(parts[k]) <= MAX_COMPONENT
    {
      AsciiSize(parts[k]);
    }
  }

  lemma NamePermitted(i: nat)
    requires i < Tar.MAX_HEADERS
    ensures forall k :: 1 <= k < |Parts(Name(i))| ==> IsPermitted(Parts(Name(i))[k])
  {
    NameParts(i);
    ShortIsPermitted(MIDDLE);
    ShortIsPermitted(Leaf(i));
  }

  lemma NameIsPayload(i: nat, roots: set<text>)
    requires i < Tar.MAX_HEADERS
    ensures IsAsciiText(Name(i)) && RoleOf(Tar.File, Name(i), roots) == Ok(Payload)
  {
    NameWithinCaps(i);
    NamePermitted(i);
    NameStarts(i);
  }

  // ---- All of them are accepted ----

  function ItemsUpTo(n: nat): (items: seq<Item>)
    requires n <= Tar.MAX_HEADERS
    ensures |items| == n && forall i :: 0 <= i < n ==> items[i] == Item(Tar.File, Name(i), Payload)
  {
    seq(n, i requires 0 <= i < n => Item(Tar.File, Name(i), Payload))
  }

  lemma AllAreATree(n: nat)
    requires n <= Tar.MAX_HEADERS
    ensures ValidTree(ItemsUpTo(n))
  {
    var items := ItemsUpTo(n);
    forall i | 0 <= i < n
      ensures Key(items[i]) == Name(i) && |Key(items[i])| == 16
    {
      NameIsSmall(i);
    }
    forall i, j | 0 <= i < j < n
      ensures Key(items[i]) != Key(items[j])
    {
      if Name(i) == Name(j) {
        NameOnce(i, j);
      }
    }
  }

  ghost predicate Named(entries: seq<Tar.Entry>) {
    |entries| <= Tar.MAX_HEADERS
    && forall i :: 0 <= i < |entries| ==> entries[i].kind == Tar.File && entries[i].name == Name(i)
  }

  lemma OneIsAccepted(entries: seq<Tar.Entry>, k: nat, roots: set<text>)
    requires Named(entries) && k < |entries|
    ensures ItemOf(ItemsUpTo(k), entries[k], roots) == Ok(Item(Tar.File, Name(k), Payload))
    ensures ItemsUpTo(k) + [Item(Tar.File, Name(k), Payload)] == ItemsUpTo(k + 1)
  {
    NameIsPayload(k, roots);
    AllAreATree(k + 1);
    assert ItemsUpTo(k) + [Item(Tar.File, Name(k), Payload)] == ItemsUpTo(k + 1);
  }

  lemma {:induction false} RestIsAccepted(entries: seq<Tar.Entry>, k: nat, roots: set<text>)
    requires Named(entries) && k <= |entries|
    ensures var a := Accept(ItemsUpTo(k), entries[k..], roots);
            a.Ok? && |Framing.Split(a.value.chunks).payload| == |entries| - k
    decreases |entries| - k
  {
    if k < |entries| {
      OneIsAccepted(entries, k, roots);
      assert entries[k..][0] == entries[k] && entries[k..][1..] == entries[k + 1..];
      RestIsAccepted(entries, k + 1, roots);
      var rest := Accept(ItemsUpTo(k + 1), entries[k + 1..], roots).value.chunks;
      var c := ChunkFor(Payload, Name(k), entries[k].data);
      assert (c + rest)[0] == c[0] && (c + rest)[1..] == rest;
    }
  }

  // ---- The archive ----

  function MembersUpTo(n: nat): (ms: seq<Member>)
    requires n <= Tar.MAX_HEADERS
    ensures |ms| == n && forall i :: 0 <= i < n ==> ms[i] == Member(Name(i), [])
  {
    seq(n, i requires 0 <= i < n => Member(Name(i), []))
  }

  lemma {:induction false} SmallMembers(ms: seq<Member>, pax: bool)
    requires forall i :: 0 <= i < |ms| ==> |ms[i].name| <= 100 && ms[i].data == []
    ensures HeaderCount(ms, pax) == |ms| && TarWriter.DataSize(ms) == 0
  {
    if ms != [] {
      SmallMembers(ms[1..], pax);
    }
  }

  lemma MembersAreClean(n: nat)
    requires n <= Tar.MAX_HEADERS
    ensures CleanMembers(MembersUpTo(n)) && forall i :: 0 <= i < n ==> |MembersUpTo(n)[i].name| <= 100
  {
    forall i | 0 <= i < n
      ensures Clean(Name(i))
    {
      NameIsSmall(i);
    }
    forall i | 0 <= i < n
      ensures |Name(i)| <= 100
    {
      NameIsSmall(i);
    }
  }

  lemma PathIsAnInputKey()
    ensures Pax.PATH in InputKeys()
  {
    assert Pax.PATH == Str("path");
  }

  /** Archives of any number of members up to the cap are accepted, every member as payload. */
  lemma ArchiveIsAccepted(n: nat, roots: set<text>, mtime: nat, device: bytes)
    requires n <= Tar.MAX_HEADERS && mtime < Pow8(11) && |device| == 8
    ensures var a := ChildOutput(WriteTar(MembersUpTo(n), mtime, device), roots);
            a.Ok? && |Framing.Split(a.value.chunks).payload| == n
  {
    var ms := MembersUpTo(n);
    MembersAreClean(n);
    SmallMembers(ms, !AllFitUstar(ms));
    PathIsAnInputKey();
    WriteThenParse(ms, mtime, device, InputKeys(), IgnoredKeys());
    var entries := Expected(ms, mtime, !AllFitUstar(ms), device);
    assert Named(entries);
    assert entries[0..] == entries && ItemsUpTo(0) == [];
    RestIsAccepted(entries, 0, roots);
  }

  // "package.json"
  const PACKAGE_JSON: text := [112, 97, 99, 107, 97, 103, 101, 46, 106, 115, 111, 110]

  lemma PackageJsonIsGood(data: bytes)
    requires |data| < Pow8(11)
    ensures GoodRoot(RootFile(PACKAGE_JSON, data))
  {
    PowersOf8();
    assert Pow8(11) == 8 * Pow8(10);
    assert PACKAGE_JSON == Str("package.json");
    assert |Lower(PACKAGE_JSON)| == 12;
  }

  /**
   * There are such archives: one of 4096 members is accepted, and assembled with its one required root file, whatever
   * that holds, it is refused by its own verification.
   */
  lemma FullArchiveIsRefused(roots: set<text>, packageJson: bytes, mtime: nat, device: bytes)
    returns (tar: bytes, ms: seq<Member>)
    requires mtime < Pow8(11) && |device| == 8 && |packageJson| < Pow8(11)
    ensures ChildOutput(tar, roots).Ok?
    ensures Assembled(ms, Framing.Split(ChildOutput(tar, roots).value.chunks).payload,
                      [RootFile(PACKAGE_JSON, packageJson)])
    ensures !Verified(WriteTar(ms, mtime, device), ms, mtime)
  {
    ArchiveIsAccepted(Tar.MAX_HEADERS, roots, mtime, device);
    PackageJsonIsGood(packageJson);
    tar := WriteTar(MembersUpTo(Tar.MAX_HEADERS), mtime, device);
    var rootFiles := [RootFile(PACKAGE_JSON, packageJson)];
    ms := PayloadMembers(Framing.Split(ChildOutput(tar, roots).value.chunks).payload) + RootMembers(rootFiles);
    FullPayloadIsRefused(tar, roots, rootFiles, ms, mtime, device);
  }
}
