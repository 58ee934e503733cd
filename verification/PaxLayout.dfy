/** Which byte strings are the bodies of extended headers, stated on the bytes alone. */
module PaxLayout {
  import opened Common
  import opened Bytes
  import opened Pax

  // ---- Numbers ----

  predicate AllDecimal(s: bytes) {
    forall i :: 0 <= i < |s| ==> 48 <= s[i] <= 57
  }

  /** Decimal digits, the most significant first. */
  function Value10(digits: bytes, n: nat): nat
    requires AllDecimal(digits)
  {
    if digits == [] then n else Value10(digits[1..], 10 * n + (digits[0] - 48))
  }

  lemma {:induction false} ValueOfMore(digits: bytes, n: nat, d: byte)
    requires AllDecimal(digits) && 48 <= d <= 57
    ensures Value10(digits + [d], n) == 10 * Value10(digits, n) + (d - 48)
  {
    if digits == [] {
      assert (digits + [d])[1..] == [];
    } else {
      assert (digits + [d])[1..] == digits[1..] + [d];
      ValueOfMore(digits[1..], 10 * n + (digits[0] - 48), d);
    }
  }

  lemma {:induction false} DecimalIff(s: bytes, i: nat, j: nat)
    requires i <= j <= |s|
    ensures DecimalIn(s, i, j) == if i < j && AllDecimal(s[i..j]) then Some(Value10(s[i..j], 0)) else None
    decreases j - i
  {
    if i < j {
      DecimalIff(s, i, j - 1);
      var front := s[i..j - 1];
      assert s[i..j] == front + [s[j - 1]];
      assert forall k :: 0 <= k < |front| ==> s[i..j][k] == front[k];
      assert s[i..j][j - 1 - i] == s[j - 1];
      if AllDecimal(s[i..j]) {
        ValueOfMore(front, 0, s[j - 1]);
      }
      if i + 1 == j {
        assert front == [];
      }
    }
  }

  // ---- One record ----

  /** A length in at most twenty digits, a space, the key, "=", the value and a newline: all of the length's bytes. */
  predicate RecordAt(body: bytes, at: nat, space: nat, key: bytes, value: bytes, end: nat) {
    && at < space <= at + 20 && space < end <= |body|
    && AllDecimal(body[at..space]) && body[at] != 48 && at + Value10(body[at..space], 0) == end
    && body[space] == 32 && body[end - 1] == 10 && space + 1 <= end - 1
    && body[space + 1..end - 1] == key + [61] + value
    && key != [] && forall i :: 0 <= i < |key| ==> key[i] != 61
  }

  /** The first space is the record's. */
  lemma SpaceFound(body: bytes, at: nat, space: nat, limit: nat)
    requires at < space < limit <= |body| && body[space] == SPACE && AllDecimal(body[at..space])
    ensures Find(body, SPACE, at, limit) == space
  {
    assert forall j :: at <= j < space ==> body[j] == body[at..space][j - at];
  }

  lemma EqualsFound(key: bytes, value: bytes)
    requires forall i :: 0 <= i < |key| ==> key[i] != 61
    ensures var record := key + [61] + value;
            && Find(record, EQUALS, 0, |record|) == |key|
            && record[..|key|] == key && record[|key| + 1..] == value
  {
    var record := key + [61] + value;
    assert record[|key|] == 61 && forall i :: 0 <= i < |key| ==> record[i] == key[i];
  }

  lemma EqualsSplits(record: bytes, eq: nat)
    requires eq == Find(record, EQUALS, 0, |record|) && eq < |record|
    ensures record == record[..eq] + [61] + record[eq + 1..]
    ensures forall i :: 0 <= i < eq ==> record[..eq][i] != 61
  {
  }

  lemma RecordIsRead(body: bytes, at: nat, space: nat, key: bytes, value: bytes, end: nat)
    requires at < |body| && RecordAt(body, at, space, key, value, end)
    ensures ReadRecord(body, at) == Ok(Field(key, value, end))
  {
    var limit := if at + 21 <= |body| then at + 21 else |body|;
    SpaceFound(body, at, space, limit);
    DecimalIff(body, at, space);
    EqualsFound(key, value);
  }

  /** The pieces of a record that was read. */
  lemma ReadPieces(body: bytes, at: nat) returns (space: nat, end: nat, eq: nat)
    requires at < |body| && ReadRecord(body, at).Ok?
    ensures at <= space <= at + 20 && space + 1 < end <= |body| && body[space] == 32 && body[end - 1] == 10
    ensures body[at] != 48 && DecimalIn(body, at, space) == Some(end - at)
    ensures var record := body[space + 1..end - 1];
            && eq == Find(record, EQUALS, 0, |record|) && 0 < eq < |record|
            && ReadRecord(body, at) == Ok(Field(record[..eq], record[eq + 1..], end))
  {
    var limit := if at + 21 <= |body| then at + 21 else |body|;
    space := Find(body, SPACE, at, limit);
    end := ReadRecord(body, at).value.end;
    var record := body[space + 1..end - 1];
    eq := Find(record, EQUALS, 0, |record|);
  }

  lemma ReadIsRecord(body: bytes, at: nat) returns (space: nat)
    requires at < |body| && ReadRecord(body, at).Ok?
    ensures var f := ReadRecord(body, at).value; RecordAt(body, at, space, f.key, f.value, f.end)
  {
    var end, eq;
    space, end, eq := ReadPieces(body, at);
    DecimalIff(body, at, space);
    EqualsSplits(body[space + 1..end - 1], eq);
  }

  // ---- All of them ----

  /** One record after another, to the end of the body. */
  ghost predicate Laid(body: bytes, at: nat, fields: seq<Field>)
    decreases |fields|
  {
    if fields == [] then at == |body| else
      && at < |body| && (exists space :: RecordAt(body, at, space, fields[0].key, fields[0].value, fields[0].end))
      && Laid(body, fields[0].end, fields[1..])
  }

  /** A record that is taken: ASCII key, UTF-8 value, no sparse file, a known key, and a number for the size. */
  predicate Taken(f: Field, allowed: set<text>, ignored: set<text>) {
    && (forall i :: 0 <= i < |f.key| ==> f.key[i] < 128) && Utf8(f.value).Ok?
    && !([71, 78, 85, 46, 115, 112, 97, 114, 115, 101, 46] <= f.key) // "GNU.sparse."
    && (f.key in allowed || f.key in ignored)
    && (f.key in allowed && f.key == [115, 105, 122, 101] ==> f.value != [] && AllDecimal(f.value)) // "size"
  }

  /** What is kept of a record that is taken: the text, for the size the number, for an ignored key nothing. */
  function KeptOf(f: Field, allowed: set<text>): Value {
    if f.key !in allowed then Unused
    else if f.key == [115, 105, 122, 101] then if AllDecimal(f.value) then Number(Value10(f.value, 0)) else Unused
    else if Utf8(f.value).Ok? then Text(Utf8(f.value).value) else Unused
  }

  ghost predicate AllTaken(fields: seq<Field>, allowed: set<text>, ignored: set<text>) {
    forall f :: f in fields ==> Taken(f, allowed, ignored)
  }

  ghost predicate NoKeyTwice(fields: seq<Field>, before: set<text>) {
    && (forall i :: 0 <= i < |fields| ==> fields[i].key !in before)
    && forall i, j :: 0 <= i < j < |fields| ==> fields[i].key != fields[j].key
  }

  /** The keys of the records are those before and the fields'. */
  ghost predicate KeysOf(fields: seq<Field>, before: Records, records: Records) {
    forall k :: k in records <==> k in before || exists i :: 0 <= i < |fields| && fields[i].key == k
  }

  /** The records hold what they held, and what is kept of each field. */
  ghost predicate ValuesOf(fields: seq<Field>, allowed: set<text>, before: Records, records: Records) {
    && (forall k :: k in before ==> k in records && records[k] == before[k])
    && forall f :: f in fields ==> f.key in records && records[f.key] == KeptOf(f, allowed)
  }

  /** The records kept of the fields, after those before. */
  ghost predicate KeptAll(fields: seq<Field>, allowed: set<text>, ignored: set<text>, before: Records,
                          records: Records) {
    && AllTaken(fields, allowed, ignored) && NoKeyTwice(fields, before.Keys)
    && KeysOf(fields, before, records) && ValuesOf(fields, allowed, before, records)
  }

  lemma AddIff(f: Field, records: Records, allowed: set<text>, ignored: set<text>)
    ensures AddRecord(f, records, allowed, ignored)
         == if Taken(f, allowed, ignored) && f.key !in records
            then Ok(records[f.key := KeptOf(f, allowed)]) else Refused
  {
    assert SPARSE == [71, 78, 85, 46, 115, 112, 97, 114, 115, 101, 46] && SIZE == [115, 105, 122, 101];
    assert f.value[0..|f.value|] == f.value;
    DecimalIff(f.value, 0, |f.value|);
  }
  lemma OnceInFront(f: Field, rest: seq<Field>, before: set<text>)
    ensures NoKeyTwice([f] + rest, before) <==> f.key !in before && NoKeyTwice(rest, before + {f.key})
  {
    var fields := [f] + rest;
    assert fields[0] == f && forall i :: 0 < i < |fields| ==> fields[i] == rest[i - 1];
    assert forall i :: 0 <= i < |rest| ==> rest[i] == fields[i + 1];
  }

  lemma KeysInFront(f: Field, rest: seq<Field>, before: Records, v: Value, records: Records)
    ensures KeysOf([f] + rest, before, records) <==> KeysOf(rest, before[f.key := v], records)
  {
    var fields, more := [f] + rest, before[f.key := v];
    assert fields[0] == f;
    forall k
      ensures (k in before || exists i :: 0 <= i < |fields| && fields[i].key == k)
         <==> (k in more || exists i :: 0 <= i < |rest| && rest[i].key == k)
    {
      if i :| 0 <= i < |rest| && rest[i].key == k {
        assert fields[i + 1].key == k;
      }
      if i :| 0 < i < |fields| && fields[i].key == k {
        assert rest[i - 1].key == k;
      }
    }
  }

  lemma ValuesInFront(f: Field, rest: seq<Field>, allowed: set<text>, before: Records, records: Records, v: Value)
    requires f.key !in before && v == KeptOf(f, allowed)
    ensures ValuesOf([f] + rest, allowed, before, records) <==> ValuesOf(rest, allowed, before[f.key := v], records)
  {
    var fields := [f] + rest;
    assert f in fields && forall g :: g in fields <==> g == f || g in rest;
    assert f.key in before[f.key := v];
  }

  /** The first field, and the others after it. */
  lemma KeptInFront(f: Field, rest: seq<Field>, allowed: set<text>, ignored: set<text>, before: Records,
                    records: Records)
    ensures KeptAll([f] + rest, allowed, ignored, before, records)
       <==> && Taken(f, allowed, ignored) && f.key !in before
            && KeptAll(rest, allowed, ignored, before[f.key := KeptOf(f, allowed)], records)
  {
    var v := KeptOf(f, allowed);
    assert f in [f] + rest && forall g :: g in [f] + rest <==> g == f || g in rest;
    OnceInFront(f, rest, before.Keys);
    assert before[f.key := v].Keys == before.Keys + {f.key};
    KeysInFront(f, rest, before, v, records);
    if f.key !in before {
      ValuesInFront(f, rest, allowed, before, records, v);
    }
  }

  lemma NothingKept(allowed: set<text>, ignored: set<text>, before: Records, records: Records)
    ensures KeptAll([], allowed, ignored, before, records) <==> records == before
  {
    if KeptAll([], allowed, ignored, before, records) {
      assert records.Keys == before.Keys;
    }
  }

  lemma {:induction false} ParsedIsLaid(body: bytes, at: nat, before: Records, allowed: set<text>, ignored: set<text>)
    returns (fields: seq<Field>)
    requires at <= |body| && ParseRecords(body, at, before, allowed, ignored).Ok?
    ensures Laid(body, at, fields)
    ensures KeptAll(fields, allowed, ignored, before, ParseRecords(body, at, before, allowed, ignored).value)
    decreases |body| - at
  {
    if at == |body| {
      fields := [];
      NothingKept(allowed, ignored, before, before);
    } else {
      var f := ReadRecord(body, at).value;
      var space := ReadIsRecord(body, at);
      AddIff(f, before, allowed, ignored);
      var more := before[f.key := KeptOf(f, allowed)];
      var rest := ParsedIsLaid(body, f.end, more, allowed, ignored);
      fields := [f] + rest;
      assert fields[1..] == rest;
      KeptInFront(f, rest, allowed, ignored, before, ParseRecords(body, f.end, more, allowed, ignored).value);
    }
  }

  lemma {:induction false} LaidIsParsed(body: bytes, at: nat, before: Records, allowed: set<text>, ignored: set<text>,
                                        fields: seq<Field>, records: Records)
    requires at <= |body| && Laid(body, at, fields) && KeptAll(fields, allowed, ignored, before, records)
    ensures ParseRecords(body, at, before, allowed, ignored) == Ok(records)
    decreases |fields|
  {
    if fields == [] {
      NothingKept(allowed, ignored, before, records);
    } else {
      var f := fields[0];
      var space :| RecordAt(body, at, space, f.key, f.value, f.end);
      RecordIsRead(body, at, space, f.key, f.value, f.end);
      assert fields == [f] + fields[1..];
      KeptInFront(f, fields[1..], allowed, ignored, before, records);
      AddIff(f, before, allowed, ignored);
      LaidIsParsed(body, f.end, before[f.key := KeptOf(f, allowed)], allowed, ignored, fields[1..], records);
    }
  }

  /**
   * The records are read as `records` exactly when the body is one well-formed record after another, each taken, no key
   * twice, and `records` is what is kept of them.
   */
  lemma ParseIffLaid(body: bytes, allowed: set<text>, ignored: set<text>, records: Records)
    ensures ParseRecords(body, 0, map[], allowed, ignored) == Ok(records)
       <==> exists fields :: Laid(body, 0, fields) && KeptAll(fields, allowed, ignored, map[], records)
  {
    if ParseRecords(body, 0, map[], allowed, ignored) == Ok(records) {
      var fields := ParsedIsLaid(body, 0, map[], allowed, ignored);
    }
    if fields :| Laid(body, 0, fields) && KeptAll(fields, allowed, ignored, map[], records) {
      LaidIsParsed(body, 0, map[], allowed, ignored, fields, records);
    }
  }
}
