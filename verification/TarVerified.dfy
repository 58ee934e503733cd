/** What `verify` accepts, stated on the bytes of the archive alone. */
module TarVerified {
  import opened Common
  import opened Bytes
  import opened Tar
  import opened TarLayout
  import Pax
  import TarWriter

  /** The entry is this member, under the fixed fields of its header. */
  ghost predicate IsFixed(e: Entry, m: TarWriter.Member, mtime: nat) {
    && e.kind == File && e.name == m.name && e.data == m.data
    && |e.header| == 512 && FixedOnBytes(e.header, mtime)
  }

  /** The archive is laid out as exactly these members, in order, with no extended key but the path. */
  ghost predicate IsArchiveOf(tar: bytes, heads: seq<nat>, entries: seq<Entry>, ms: seq<TarWriter.Member>, mtime: nat) {
    && Layout(tar, 0, None, heads, entries, PaxReader({PATH_KEY}, {})) && WithinArchiveCaps(START, heads, entries)
    && |entries| == |ms| && forall i :: 0 <= i < |ms| ==> IsFixed(entries[i], ms[i], mtime)
  }

  lemma MatchesIff(entries: seq<Entry>, ms: seq<TarWriter.Member>, mtime: nat)
    requires forall e :: e in entries ==> |e.header| == BLOCK
    ensures TarWriter.Matches(entries, ms, mtime)
       <==> |entries| == |ms| && forall i :: 0 <= i < |ms| ==> IsFixed(entries[i], ms[i], mtime)
  {
    forall i | 0 <= i < |entries|
      ensures TarWriter.FixedEntry(entries[i], mtime)
         <==> entries[i].kind == File && |entries[i].header| == 512 && FixedOnBytes(entries[i].header, mtime)
    {
      assert entries[i] in entries;
      FixedIff(entries[i].header, mtime);
    }
  }

  /** `verify` accepts exactly the archives whose bytes are laid out as these members under the fixed fields. */
  lemma VerifiedIffArchive(tar: bytes, ms: seq<TarWriter.Member>, mtime: nat)
    ensures TarWriter.Verified(tar, ms, mtime) <==> exists heads, entries :: IsArchiveOf(tar, heads, entries, ms, mtime)
  {
    assert Pax.PATH == PATH_KEY;
    var read := PaxReader({Pax.PATH}, {});
    var parsed := Parse(tar, START, read);
    if TarWriter.Verified(tar, ms, mtime) {
      ParseCaps(tar, START, read);
      MatchesIff(parsed.value, ms, mtime);
      var heads := ParsedHasLayout(tar, START, read, parsed.value);
      assert IsArchiveOf(tar, heads, parsed.value, ms, mtime);
    }
    if heads, entries :| IsArchiveOf(tar, heads, entries, ms, mtime) {
      LayoutIsParsed(tar, START, read, heads, entries);
      ParseCaps(tar, START, read);
      MatchesIff(entries, ms, mtime);
    }
  }
}
