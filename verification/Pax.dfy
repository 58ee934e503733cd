/** The records of a PAX extended header. */
module Pax {
  import opened Common
  import opened Bytes

  /** What a record's value is kept as. */
  datatype Value = Text(text: text) | Number(number: nat) | Unused

  type Records = map<text, Value>

  const PATH: bytes := [112, 97, 116, 104]
  const SIZE: bytes := [115, 105, 122, 101]
  const SPARSE: bytes := [71, 78, 85, 46, 115, 112, 97, 114, 115, 101, 46]

  predicate IsDigit(b: byte) {
    ZERO <= b <= ZERO + 9
  }

  /** The number that the decimal digits from `i` to `j` spell; nothing if there are none or any other byte. */
  function DecimalIn(s: bytes, i: nat, j: nat): Option<nat>
    requires i <= j <= |s|
  {
    if i == j || !IsDigit(s[j - 1]) then None
    else if i + 1 == j then Some(s[i] - ZERO)
    else
      match DecimalIn(s, i, j - 1)
      case None => None
      case Some(n) => Some(10 * n + (s[j - 1] - ZERO))
  }

  /** The first position of `b` in `s` from `i` and before `limit`, or `limit` when there is none. */
  function Find(s: bytes, b: byte, i: nat, limit: nat): (k: nat)
    requires i <= limit <= |s|
    ensures i <= k <= limit
    ensures forall j :: i <= j < k ==> s[j] != b
    ensures k < limit ==> s[k] == b
    decreases limit - i
  {
    if i == limit || s[i] == b then i else Find(s, b, i + 1, limit)
  }

  /** One record, whose own length prefix says where it ends. */
  datatype Field = Field(key: bytes, value: bytes, end: nat)

  function ReadRecord(body: bytes, i: nat): (r: Result<Field>)
    requires i < |body|
    ensures r.Ok? ==> i < r.value.end <= |body|
  {
    var limit := if i + 21 <= |body| then i + 21 else |body|;
    var space := Find(body, SPACE, i, limit);
    var length := DecimalIn(body, i, space);
    if space == limit || length.None? || body[i] == ZERO then Refused else
      var end := i + length.value;
      if end > |body| || end == i || body[end - 1] != NEWLINE || end - 1 <= space then Refused else
        var record := body[space + 1..end - 1];
        var eq := Find(record, EQUALS, 0, |record|);
        if eq == |record| || eq == 0 then Refused
        else Ok(Field(record[..eq], record[eq + 1..], end))
  }

  /** A record's place among the others: known keys are kept, ignored ones noted, anything else refuses. */
  function AddRecord(f: Field, records: Records, allowed: set<text>, ignored: set<text>): Result<Records> {
    if !Ascii(f.key) || Utf8(f.value).Refused? then Refused
    else if f.key in records || SPARSE <= f.key then Refused
    else if f.key in allowed then
      if f.key != SIZE then Ok(records[f.key := Text(Utf8(f.value).value)])
      else if DecimalIn(f.value, 0, |f.value|).Some?
      then Ok(records[f.key := Number(DecimalIn(f.value, 0, |f.value|).value)])
      else Refused
    else if f.key in ignored then Ok(records[f.key := Unused])
    else Refused
  }

  function ParseRecords(body: bytes, i: nat, records: Records, allowed: set<text>, ignored: set<text>): Result<Records>
    requires i <= |body|
    decreases |body| - i
  {
    if i == |body| then Ok(records) else
      match ReadRecord(body, i)
      case Refused => Refused
      case Ok(f) =>
        match AddRecord(f, records, allowed, ignored)
        case Refused => Refused
        case Ok(more) => ParseRecords(body, f.end, more, allowed, ignored)
  }

  /** The loop of `pax_records`: it advances by a whole record each time. */
  method PaxRecords(body: bytes, allowed: set<text>, ignored: set<text>) returns (r: Result<Records>)
    ensures r == ParseRecords(body, 0, map[], allowed, ignored)
  {
    var records := map[];
    var i := 0;
    while i < |body|
      invariant i <= |body|
      invariant ParseRecords(body, 0, map[], allowed, ignored) == ParseRecords(body, i, records, allowed, ignored)
    {
      var f := ReadRecord(body, i);
      if f.Refused? {
        return Refused;
      }
      var more := AddRecord(f.value, records, allowed, ignored);
      if more.Refused? {
        return Refused;
      }
      records := more.value;
      i := f.value.end;
    }
    return Ok(records);
  }

  // ---- Writing ----

  function Decimal(n: nat): (s: bytes)
    ensures |s| > 0 && SPACE !in s
  {
    if n < 10 then [ZERO + n] else Decimal(n / 10) + [ZERO + n % 10]
  }

  /** Only the digits matter, not what follows them. */
  lemma {:induction false} DecimalPrefix(s: bytes, t: bytes, j: nat)
    requires j <= |s| && j <= |t| && s[..j] == t[..j]
    ensures DecimalIn(s, 0, j) == DecimalIn(t, 0, j)
  {
    if j > 0 {
      assert s[..j][j - 1] == t[..j][j - 1];
      assert s[..j][..j - 1] == s[..j - 1] && t[..j][..j - 1] == t[..j - 1];
      DecimalPrefix(s, t, j - 1);
    }
  }

  lemma {:induction false} DecimalRoundTrip(n: nat)
    ensures DecimalIn(Decimal(n), 0, |Decimal(n)|) == Some(n)
    ensures n > 0 ==> Decimal(n)[0] != ZERO
  {
    if n >= 10 {
      DecimalRoundTrip(n / 10);
      var s := Decimal(n / 10);
      assert Decimal(n)[..|s|] == s[..|s|];
      DecimalPrefix(Decimal(n), s, |s|);
    }
  }

  lemma {:induction false} MoreNoShorter(m: nat, n: nat)
    requires m <= n
    ensures |Decimal(m)| <= |Decimal(n)|
  {
    if n >= 10 && m >= 10 {
      MoreNoShorter(m / 10, n / 10);
    }
  }

  /** A number below ten times as large takes at most one digit more. */
  lemma OneDigitMore(m: nat, n: nat)
    requires m <= 10 * n + 9
    ensures |Decimal(m)| <= |Decimal(n)| + 1
  {
    if m >= 10 {
      MoreNoShorter(m / 10, n);
    }
  }

  lemma {:induction false} NoMoreDigitsThan(n: nat)
    ensures |Decimal(n)| <= n + 1
  {
    if n >= 10 {
      NoMoreDigitsThan(n / 10);
    }
  }

  /** The least length of a record whose other bytes number `rest`: it counts its own digits. */
  function RecordLength(rest: nat): nat {
    var d := |Decimal(rest)|;
    if |Decimal(rest + d)| == d then rest + d else rest + d + 1
  }

  lemma RecordLengthCountsItself(rest: nat)
    ensures |Decimal(RecordLength(rest))| + rest == RecordLength(rest)
    ensures RecordLength(rest) <= 2 * rest + 2
  {
    var d := |Decimal(rest)|;
    NoMoreDigitsThan(rest);
    MoreNoShorter(rest, rest + d);
    MoreNoShorter(rest + d, rest + d + 1);
    OneDigitMore(rest + d, rest);
    OneDigitMore(rest + d + 1, rest);
  }

  /** One record: length, space, key, "=", value, newline. */
  function Record(key: bytes, value: bytes): bytes {
    Decimal(RecordLength(|key| + |value| + 3)) + [SPACE] + (key + [EQUALS] + value) + [NEWLINE]
  }

  /** From a thousand to below ten thousand bytes: four digits. */
  lemma FourDigits(rest: nat)
    ensures rest < 1000 ==> RecordLength(rest) <= rest + 4
    ensures 1000 <= rest < 9996 ==> RecordLength(rest) == rest + 4
    ensures rest >= 9996 ==> RecordLength(rest) > rest + 4
  {
    assert |Decimal(10)| == 2 && |Decimal(100)| == 3 && |Decimal(999)| == 3;
    assert |Decimal(1000)| == 4 && |Decimal(9999)| == 4 && |Decimal(10000)| == 5;
    var d := |Decimal(rest)|;
    if rest < 1000 {
      MoreNoShorter(rest, 999);
    } else if rest < 9996 {
      MoreNoShorter(1000, rest);
      MoreNoShorter(rest, 9999);
      MoreNoShorter(1000, rest + 4);
      MoreNoShorter(rest + 4, 9999);
    } else {
      MoreNoShorter(1000, rest);
      MoreNoShorter(10000, rest + 4);
    }
  }

  lemma RecordSize(key: bytes, value: bytes)
    ensures |Record(key, value)| == RecordLength(|key| + |value| + 3)
  {
    RecordLengthCountsItself(|key| + |value| + 3);
  }

  lemma DecimalIsShort(n: nat)
    requires n < 10000
    ensures |Decimal(n)| <= 4
  {
    if n >= 10 && n / 10 >= 10 && n / 10 / 10 >= 10 {
      assert |Decimal(n / 10 / 10)| == |Decimal(n / 10 / 10 / 10)| + 1;
    }
  }

  /** The first byte of its kind is the one found. */
  lemma FindFirst(s: bytes, b: byte, k: nat, limit: nat)
    requires k < limit <= |s| && s[k] == b && forall j :: 0 <= j < k ==> s[j] != b
    ensures Find(s, b, 0, limit) == k
  {
  }

  /** The parts of a record's text. */
  lemma RecordParts(digits: bytes, content: bytes)
    ensures var body := digits + [SPACE] + content + [NEWLINE];
            && |body| == |digits| + |content| + 2
            && body[0..|digits|] == digits
            && body[|digits|] == SPACE
            && body[|digits| + 1..|body| - 1] == content
            && body[|body| - 1] == NEWLINE
            && forall j :: 0 <= j < |digits| ==> body[j] == digits[j]
  {
  }

  /** A record whose prefix counts it is cut out exactly. */
  lemma CutRecord(digits: bytes, content: bytes, body: bytes, eq: nat)
    requires 0 < |digits| <= 20 && SPACE !in digits && digits[0] != ZERO
    requires DecimalIn(digits, 0, |digits|) == Some(|body|)
    requires body == digits + [SPACE] + content + [NEWLINE]
    requires 0 < eq < |content| && eq == Find(content, EQUALS, 0, |content|)
    ensures ReadRecord(body, 0) == Ok(Field(content[..eq], content[eq + 1..], |body|))
  {
    RecordParts(digits, content);
    assert body[..|digits|] == digits[..|digits|];
    DecimalPrefix(body, digits, |digits|);
    FindFirst(body, SPACE, |digits|, if 21 <= |body| then 21 else |body|);
  }

  lemma ContentParts(key: bytes, value: bytes)
    requires EQUALS !in key
    ensures var content := key + [EQUALS] + value;
            && |content| == |key| + |value| + 1
            && content[..|key|] == key
            && content[|key| + 1..] == value
            && Find(content, EQUALS, 0, |content|) == |key|
  {
    var content := key + [EQUALS] + value;
    assert forall j :: 0 <= j < |key| ==> content[j] == key[j] && key[j] in key;
    FindFirst(content, EQUALS, |key|, |content|);
  }

  /** A body of one record is read back as that record, while its length has at most twenty digits. */
  lemma RecordRoundTrip(key: bytes, value: bytes)
    requires key != [] && EQUALS !in key && |Decimal(RecordLength(|key| + |value| + 3))| <= 20
    ensures ReadRecord(Record(key, value), 0) == Ok(Field(key, value, |Record(key, value)|))
  {
    var n := RecordLength(|key| + |value| + 3);
    RecordLengthCountsItself(|key| + |value| + 3);
    DecimalRoundTrip(n);
    ContentParts(key, value);
    CutRecord(Decimal(n), key + [EQUALS] + value, Record(key, value), |key|);
  }

  /** A body that is one acceptable record. */
  lemma OneRecord(body: bytes, f: Field, records: Records, allowed: set<text>, ignored: set<text>)
    requires body != [] && ReadRecord(body, 0) == Ok(f) && f.end == |body|
    requires AddRecord(f, map[], allowed, ignored) == Ok(records)
    ensures ParseRecords(body, 0, map[], allowed, ignored) == Ok(records)
  {
    assert ParseRecords(body, |body|, records, allowed, ignored) == Ok(records);
  }
}
