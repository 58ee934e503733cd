/** A reader of JSON texts as RFC 8259 defines them, without insignificant white space, and the canonical text. */
module JsonReader {
  import opened JsonText
  import opened Json
  import opened CanonicalJson

  datatype Reading<+T> = Failed | Read(value: T, rest: text)

  // ---- Words: section 3 ----

  const NULL: text := [0x6E, 0x75, 0x6C, 0x6C]
  const TRUE: text := [0x74, 0x72, 0x75, 0x65]
  const FALSE: text := [0x66, 0x61, 0x6C, 0x73, 0x65]

  function ReadWord(word: text, p: Prim, t: text): (r: Reading<Prim>)
    ensures r.Read? ==> |r.rest| == |t| - |word|
  {
    if word <= t then Read(p, t[|word|..]) else Failed
  }

  // ---- Strings: section 7 ----

  function HexDigit(c: unit): int {
    if 0x30 <= c <= 0x39 then c - 0x30
    else if 0x41 <= c <= 0x46 then c - 0x41 + 10
    else if 0x61 <= c <= 0x66 then c - 0x61 + 10
    else -1
  }

  /** The character after a backslash; -1 where there is none such. */
  function Escaped(c: unit): int {
    match c
    case 0x22 => 0x22 // quotation mark
    case 0x5C => 0x5C // reverse solidus
    case 0x2F => 0x2F // solidus
    case 0x62 => 0x08 // b: backspace
    case 0x66 => 0x0C // f: form feed
    case 0x6E => 0x0A // n: line feed
    case 0x72 => 0x0D // r: carriage return
    case 0x74 => 0x09 // t: tab
    case _ => -1
  }

  /** One character, plain or escaped. */
  function ReadChar(t: text): (r: Reading<unit>)
    requires t != []
    ensures r.Read? ==> |r.rest| < |t|
  {
    if t[0] == 0x5C then
      if |t| >= 6 && t[1] == 0x75 then
        var a, b, c, d := HexDigit(t[2]), HexDigit(t[3]), HexDigit(t[4]), HexDigit(t[5]);
        if a < 0 || b < 0 || c < 0 || d < 0 then Failed else Read(((a * 16 + b) * 16 + c) * 16 + d, t[6..])
      else if |t| >= 2 && Escaped(t[1]) >= 0 then Read(Escaped(t[1]), t[2..])
      else Failed
    else if t[0] < 0x20 then Failed
    else Read(t[0], t[1..])
  }

  /** The characters up to the closing quotation mark. */
  function ReadChars(t: text): (r: Reading<text>)
    ensures r.Read? ==> |r.rest| < |t|
    decreases |t|
  {
    if t == [] then Failed
    else if t[0] == 0x22 then Read([], t[1..])
    else
      match ReadChar(t)
      case Failed => Failed
      case Read(c, rest) =>
        match ReadChars(rest)
        case Failed => Failed
        case Read(s, after) => Read([c] + s, after)
  }

  function ReadString(t: text): (r: Reading<text>)
    ensures r.Read? ==> |r.rest| < |t|
  {
    if t != [] && t[0] == 0x22 then ReadChars(t[1..]) else Failed
  }

  // ---- Numbers: section 6 ----

  function Digits(t: text): (n: nat)
    ensures n <= |t| && AllDigits(t[..n]) && (n < |t| ==> !IsDigit(t[n]))
  {
    if t != [] && IsDigit(t[0]) then
      var n := 1 + Digits(t[1..]);
      assert t[..n] == [t[0]] + t[1..][..n - 1];
      n
    else 0
  }

  /** Digits after a mark: none without it, at least one with it. */
  function ReadFraction(t: text): (r: Reading<text>)
    ensures r.Read? ==> |r.rest| <= |t|
  {
    if t == [] || t[0] != 0x2E then Read([], t) else
      var n := Digits(t[1..]);
      if n == 0 then Failed else Read(t[1..][..n], t[1..][n..])
  }

  function ReadPower(t: text): (r: Reading<int>)
    ensures r.Read? ==> |r.rest| <= |t|
  {
    if t == [] || (t[0] != 0x65 && t[0] != 0x45) then Read(0, t) else
      var signed := |t| > 1 && (t[1] == 0x2B || t[1] == 0x2D);
      var u := if signed then t[2..] else t[1..];
      var n := Digits(u);
      if n == 0 then Failed
      else Read(if signed && t[1] == 0x2D then -DecimalValue(u[..n]) else DecimalValue(u[..n]), u[n..])
  }

  /** The number 0.ds times ten to the power `point`, in shortest form. */
  function Shortest(negative: bool, ds: text, point: int): Prim {
    var digits := DropZeros(ds);
    if digits == [] then Number(negative, [], 0) else Number(negative, TrimZeros(digits), point - (|ds| - |digits|))
  }

  /** A number without its sign: its digits, and where the point is among them. */
  function ReadDecimal(u: text): (r: Reading<(text, int)>)
    ensures r.Read? ==> |r.rest| < |u|
  {
    var n := Digits(u);
    if n == 0 || (n > 1 && u[0] == 0x30) then Failed else
      match ReadFraction(u[n..])
      case Failed => Failed
      case Read(fraction, v) =>
        match ReadPower(v)
        case Failed => Failed
        case Read(power, rest) => Read((u[..n] + fraction, n + power), rest)
  }

  function ReadNumber(t: text): (r: Reading<Prim>)
    ensures r.Read? ==> |r.rest| < |t|
  {
    var negative := t != [] && t[0] == 0x2D;
    match ReadDecimal(if negative then t[1..] else t)
    case Failed => Failed
    case Read(d, rest) => Read(Shortest(negative, d.0, d.1), rest)
  }

  // ---- Values: sections 3, 4 and 5 ----

  function ReadPrim(t: text): (r: Reading<Prim>)
    requires t != []
    ensures r.Read? ==> |r.rest| < |t|
  {
    if t[0] == 0x22 then
      match ReadString(t)
      case Failed => Failed
      case Read(s, rest) => Read(Text(s), rest)
    else if t[0] == 0x2D || IsDigit(t[0]) then ReadNumber(t)
    else if t[0] == 0x6E then ReadWord(NULL, Null, t)
    else if t[0] == 0x74 then ReadWord(TRUE, Bool(true), t)
    else ReadWord(FALSE, Bool(false), t)
  }

  function ReadValue(t: text): (r: Reading<Json>)
    ensures r.Read? ==> |r.rest| < |t|
    decreases |t|, 0
  {
    if t == [] then Failed
    else if t[0] == 0x5B then
      match ReadArray(t[1..])
      case Failed => Failed
      case Read(items, rest) => Read(Arr(items), rest)
    else if t[0] == 0x7B then
      match ReadObject(t[1..])
      case Failed => Failed
      case Read(fields, rest) => Read(Obj(fields), rest)
    else
      match ReadPrim(t)
      case Failed => Failed
      case Read(p, rest) => Read(Leaf(p), rest)
  }

  function ReadArray(t: text): (r: Reading<List<Json>>)
    ensures r.Read? ==> |r.rest| < |t|
    decreases |t|, 2
  {
    if t != [] && t[0] == 0x5D then Read(Nil, t[1..]) else ReadItems(t)
  }

  /** At least one value, and the closing bracket. */
  function ReadItems(t: text): (r: Reading<List<Json>>)
    ensures r.Read? ==> |r.rest| < |t|
    decreases |t|, 1
  {
    match ReadValue(t)
    case Failed => Failed
    case Read(v, after) =>
      if after == [] then Failed
      else if after[0] == 0x5D then Read(Cons(v, Nil), after[1..])
      else if after[0] != 0x2C then Failed
      else
        match ReadItems(after[1..])
        case Failed => Failed
        case Read(vs, rest) => Read(Cons(v, vs), rest)
  }

  function ReadObject(t: text): (r: Reading<List<Field<Json>>>)
    ensures r.Read? ==> |r.rest| < |t|
    decreases |t|, 2
  {
    if t != [] && t[0] == 0x7D then Read(Nil, t[1..]) else ReadFields(t)
  }

  function ReadField(t: text): (r: Reading<Field<Json>>)
    ensures r.Read? ==> |r.rest| < |t|
    decreases |t|, 0
  {
    match ReadString(t)
    case Failed => Failed
    case Read(key, after) =>
      if after == [] || after[0] != 0x3A then Failed else
        match ReadValue(after[1..])
        case Failed => Failed
        case Read(v, rest) => Read(Field(key, v), rest)
  }

  function ReadFields(t: text): (r: Reading<List<Field<Json>>>)
    ensures r.Read? ==> |r.rest| < |t|
    decreases |t|, 1
  {
    match ReadField(t)
    case Failed => Failed
    case Read(f, after) =>
      if after == [] then Failed
      else if after[0] == 0x7D then Read(Cons(f, Nil), after[1..])
      else if after[0] != 0x2C then Failed
      else
        match ReadFields(after[1..])
        case Failed => Failed
        case Read(fs, rest) => Read(Cons(f, fs), rest)
  }

  // ---- Strings are read back ----

  lemma HexIsRead(d: int)
    requires 0 <= d < 16
    ensures HexDigit(Hex(d)) == d
  {
  }

  lemma CharIsRead(before: text, c: unit, after: text, r: text)
    ensures var p := Escape(before, c, after);
            p[0] != 0x22 && ReadChar(p + r) == Read(c, r)
  {
    var p := Escape(before, c, after);
    assert (p + r)[|p|..] == r;
    HexDigits(c);
    HexIsRead(c / 4096);
    HexIsRead(c / 256 % 16);
    HexIsRead(c / 16 % 16);
    HexIsRead(c % 16);
  }

  lemma {:induction false} CharsAreRead(s: text, i: nat, r: text)
    requires i <= |s|
    ensures ReadChars(QuoteFrom(s, i) + r) == Read(s[i..], r)
    decreases |s| - i
  {
    if i == |s| {
      assert ([QUOTE] + r)[1..] == r;
    } else {
      QuoteUnrolls(s, i, r);
      CharIsRead(s[..i], s[i], s[i + 1..], QuoteFrom(s, i + 1) + r);
      CharsAreRead(s, i + 1, r);
      assert s[i..] == [s[i]] + s[i + 1..];
    }
  }

  lemma StringIsRead(s: text, r: text)
    ensures Quote(s) + r != [] && (Quote(s) + r)[0] == 0x22 && ReadString(Quote(s) + r) == Read(s, r)
  {
    var t := Quote(s) + r;
    assert t[1..] == QuoteFrom(s, 0) + r;
    CharsAreRead(s, 0, r);
    assert s[0..] == s;
  }

  // ---- Numbers are read back ----

  /** What can follow a number's digits. */
  predicate NoDigit(r: text) {
    r == [] || !IsDigit(r[0])
  }

  lemma {:induction false} DigitsAreRead(ds: text, r: text)
    requires AllDigits(ds) && NoDigit(r)
    ensures Digits(ds + r) == |ds| && (ds + r)[..|ds|] == ds && (ds + r)[|ds|..] == r
  {
    if ds == [] {
      assert ds + r == r;
    } else {
      assert (ds + r)[1..] == ds[1..] + r;
      DigitsAreRead(ds[1..], r);
    }
  }

  lemma FractionIsRead(ds: text, r: text)
    requires AllDigits(ds) && ds != [] && NoDigit(r)
    ensures ReadFraction([POINT] + ds + r) == Read(ds, r)
  {
    var t := [POINT] + ds + r;
    assert t[1..] == ds + r;
    DigitsAreRead(ds, r);
  }

  lemma PowerAt(t: text, n: nat)
    requires |t| >= 2 && t[0] == LOWER_E && (t[1] == 0x2B || t[1] == 0x2D)
    requires n == Digits(t[2..]) && n > 0
    ensures ReadPower(t) == Read(if t[1] == 0x2D then -DecimalValue(t[2..][..n]) else DecimalValue(t[2..][..n]),
                                 t[2..][n..])
  {
  }

  lemma BehindTwo(a: unit, b: unit, ds: text, r: text)
    ensures var t := [a, b] + ds + r; |t| >= 2 && t[0] == a && t[1] == b && t[2..] == ds + r
  {
  }

  lemma SignedPowerIsRead(sign: unit, ds: text, r: text)
    requires sign == 0x2B || sign == 0x2D
    requires AllDigits(ds) && ds != [] && NoDigit(r)
    ensures ReadPower([LOWER_E, sign] + ds + r) == Read(if sign == 0x2D then -DecimalValue(ds) else DecimalValue(ds), r)
  {
    BehindTwo(LOWER_E, sign, ds, r);
    DigitsAreRead(ds, r);
    PowerAt([LOWER_E, sign] + ds + r, |ds|);
  }

  lemma PowerIsRead(e: int, r: text)
    requires NoDigit(r)
    ensures ReadPower(Exponent(e) + r) == Read(e, r)
  {
    var n := if e >= 0 then e else -e;
    DecimalRoundTrip(n);
    SignedPowerIsRead(if e >= 0 then PLUS else MINUS, Decimal(n), r);
  }

  /** Text that no part of a number can begin: the end of one. */
  predicate EndsNumber(r: text) {
    r == [] || (!IsDigit(r[0]) && r[0] != POINT && r[0] != LOWER_E && r[0] != 0x45)
  }

  lemma NoPower(r: text)
    requires EndsNumber(r)
    ensures ReadPower(r) == Read(0, r) && ReadFraction(r) == Read([], r)
  {
  }

  lemma PartsAreRead(u: text, n: nat, fraction: text, after: text, e: int, r: text)
    requires n == Digits(u) && n > 0 && (n > 1 ==> u[0] != ZERO)
    requires ReadFraction(u[n..]) == Read(fraction, after) && ReadPower(after) == Read(e, r)
    ensures ReadDecimal(u) == Read((u[..n] + fraction, n + e), r)
  {
  }

  /** Digits, then a fraction and a power as they are read. */
  lemma DecimalIsRead(whole: text, tail: text, fraction: text, after: text, e: int, r: text)
    requires AllDigits(whole) && whole != [] && (|whole| > 1 ==> whole[0] != ZERO) && NoDigit(tail)
    requires ReadFraction(tail) == Read(fraction, after) && ReadPower(after) == Read(e, r)
    ensures ReadDecimal(whole + tail) == Read((whole + fraction, |whole| + e), r)
  {
    DigitsAreRead(whole, tail);
    assert (whole + tail)[0] == whole[0];
    PartsAreRead(whole + tail, |whole|, fraction, after, e, r);
  }

  lemma ShortestOf(digits: text, point: int, lead: nat, trail: nat)
    requires digits != [] && IsShortest(digits, point)
    ensures Shortest(false, JsonText.Zeros(lead) + digits + JsonText.Zeros(trail), point + lead)
         == Number(false, digits, point)
  {
    var ds := digits + JsonText.Zeros(trail);
    assert JsonText.Zeros(lead) + digits + JsonText.Zeros(trail) == JsonText.Zeros(lead) + ds;
    assert ds[0] == digits[0];
    DropLeadingZeros(lead, ds);
    TrimTrailingZeros(digits, trail);
  }

  /** What is read of a magnitude stands for it. */
  predicate Stands(d: (text, int), digits: text, point: int) {
    Shortest(false, d.0, d.1) == Number(false, digits, point)
  }

  lemma IntegerIsRead(digits: text, point: int, r: text)
    requires digits != [] && IsShortest(digits, point) && |digits| <= point && EndsNumber(r)
    ensures var d := ReadDecimal(digits + JsonText.Zeros(point - |digits|) + r);
            d.Read? && d.rest == r && Stands(d.value, digits, point)
  {
    var whole := digits + JsonText.Zeros(point - |digits|);
    NoPower(r);
    assert whole[0] == digits[0];
    DecimalIsRead(whole, r, [], r, 0, r);
    ShortestOf(digits, point, 0, point - |digits|);
    assert whole + [] == JsonText.Zeros(0) + digits + JsonText.Zeros(point - |digits|);
  }

  lemma Assoc4(a: text, b: text, c: text, r: text)
    ensures a + b + c + r == a + (b + c + r)
  {
  }

  /** A number with a fraction. */
  lemma PointedIsRead(whole: text, fraction: text, after: text, e: int, r: text, digits: text, point: int, lead: nat)
    requires AllDigits(whole) && whole != [] && (|whole| > 1 ==> whole[0] != ZERO)
    requires AllDigits(fraction) && fraction != [] && NoDigit(after) && ReadPower(after) == Read(e, r)
    requires digits != [] && IsShortest(digits, point) && whole + fraction == JsonText.Zeros(lead) + digits
    requires |whole| + e == point + lead
    ensures var d := ReadDecimal(whole + ([POINT] + fraction + after));
            d.Read? && d.rest == r && Stands(d.value, digits, point)
  {
    FractionIsRead(fraction, after);
    DecimalIsRead(whole, [POINT] + fraction + after, fraction, after, e, r);
    ShortestOf(digits, point, lead, 0);
    assert whole + fraction == JsonText.Zeros(lead) + digits + JsonText.Zeros(0);
  }

  lemma SplitIsRead(digits: text, point: int, r: text)
    requires digits != [] && IsShortest(digits, point) && 0 < point < |digits| && EndsNumber(r)
    ensures var d := ReadDecimal(digits[..point] + [POINT] + digits[point..] + r);
            d.Read? && d.rest == r && Stands(d.value, digits, point)
  {
    var whole, fraction := digits[..point], digits[point..];
    NoPower(r);
    assert whole + fraction == JsonText.Zeros(0) + digits;
    PointedIsRead(whole, fraction, r, 0, r, digits, point, 0);
    Assoc4(whole, [POINT], fraction, r);
  }

  lemma SmallIsRead(digits: text, point: int, r: text)
    requires digits != [] && IsShortest(digits, point) && point <= 0 && EndsNumber(r)
    ensures var d := ReadDecimal([ZERO, POINT] + JsonText.Zeros(-point) + digits + r);
            d.Read? && d.rest == r && Stands(d.value, digits, point)
  {
    var fraction := JsonText.Zeros(-point) + digits;
    NoPower(r);
    assert [ZERO] + fraction == JsonText.Zeros(1 - point) + digits;
    PointedIsRead([ZERO], fraction, r, 0, r, digits, point, 1 - point);
    SmallText(JsonText.Zeros(-point), digits, r);
  }

  lemma SmallText(zeros: text, digits: text, r: text)
    ensures [ZERO, POINT] + zeros + digits + r == [ZERO] + ([POINT] + (zeros + digits) + r)
  {
  }

  lemma OneDigitIsRead(digits: text, point: int, r: text)
    requires |digits| == 1 && IsShortest(digits, point) && EndsNumber(r)
    ensures var d := ReadDecimal(digits + (Exponent(point - 1) + r));
            d.Read? && d.rest == r && Stands(d.value, digits, point)
  {
    var power := Exponent(point - 1) + r;
    PowerIsRead(point - 1, r);
    assert power[0] == LOWER_E;
    DecimalIsRead(digits, power, [], power, point - 1, r);
    ShortestOf(digits, point, 0, 0);
    assert digits + [] == JsonText.Zeros(0) + digits + JsonText.Zeros(0);
  }

  lemma ScientificIsRead(digits: text, point: int, r: text)
    requires digits != [] && IsShortest(digits, point) && EndsNumber(r)
    ensures var d := ReadDecimal(Mantissa(digits) + Exponent(point - 1) + r);
            d.Read? && d.rest == r && Stands(d.value, digits, point)
  {
    var power := Exponent(point - 1);
    Assoc(Mantissa(digits), power, r);
    if |digits| == 1 {
      OneDigitIsRead(digits, point, r);
    } else {
      ManyDigitsAreRead(digits[..1], digits[1..], digits, point, r);
      Assoc4(digits[..1], [POINT], digits[1..], power + r);
    }
  }

  lemma ManyDigitsAreRead(whole: text, fraction: text, digits: text, point: int, r: text)
    requires IsShortest(digits, point) && whole + fraction == digits && |whole| == 1 && fraction != [] && EndsNumber(r)
    requires AllDigits(whole) && AllDigits(fraction)
    ensures var d := ReadDecimal(whole + ([POINT] + fraction + (Exponent(point - 1) + r)));
            d.Read? && d.rest == r && Stands(d.value, digits, point)
  {
    var power := Exponent(point - 1) + r;
    PowerIsRead(point - 1, r);
    assert power[0] == LOWER_E;
    assert whole + fraction == JsonText.Zeros(0) + digits;
    PointedIsRead(whole, fraction, power, point - 1, r, digits, point, 0);
  }

  lemma MagnitudeIsRead(digits: text, point: int, r: text)
    requires digits != [] && IsShortest(digits, point) && EndsNumber(r)
    ensures var d := ReadDecimal(Magnitude(digits, point) + r);
            d.Read? && d.rest == r && Stands(d.value, digits, point)
  {
    if point > 21 || point <= -6 {
      ScientificIsRead(digits, point, r);
    } else if point <= 0 {
      SmallIsRead(digits, point, r);
    } else if point < |digits| {
      SplitIsRead(digits, point, r);
    } else {
      IntegerIsRead(digits, point, r);
    }
  }

  /** The sign is read apart from the magnitude. */
  lemma SignedIsRead(u: text, m: text, negative: bool, r: text, digits: text, point: int)
    requires negative == (u != [] && u[0] == 0x2D) && m == if negative then u[1..] else u
    requires ReadDecimal(m).Read? && ReadDecimal(m).rest == r && Stands(ReadDecimal(m).value, digits, point)
    requires digits != []
    ensures ReadNumber(u) == Read(Number(negative, digits, point), r)
  {
    var d := ReadDecimal(m).value;
    assert DropZeros(d.0) != [];
  }

  lemma SignInFront(negative: bool, m: text, r: text)
    requires m != [] && IsDigit(m[0])
    ensures var u := (if negative then [MINUS] else []) + m + r;
            && u != [] && negative == (u[0] == 0x2D)
            && m + r == if negative then u[1..] else u
  {
    assert (m + r)[0] == m[0];
    if negative {
      assert ([MINUS] + m + r)[1..] == m + r;
    } else {
      assert [] + m == m;
    }
  }

  lemma SignIsRead(negative: bool, m: text, r: text, digits: text, point: int)
    requires m != [] && IsDigit(m[0])
    requires var d := ReadDecimal(m + r); d.Read? && d.rest == r && Stands(d.value, digits, point) && digits != []
    ensures var t := (if negative then [MINUS] else []) + m;
            ReadNumber(t + r) == Read(Number(negative, digits, point), r)
  {
    SignInFront(negative, m, r);
    SignedIsRead((if negative then [MINUS] else []) + m + r, m + r, negative, r, digits, point);
  }

  lemma NumberIsRead(negative: bool, digits: text, point: int, r: text)
    requires IsShortest(digits, point) && (digits == [] ==> !negative) && Follows(r)
    ensures var t := NumberText(negative, digits, point);
            t != [] && (t[0] == 0x2D || IsDigit(t[0])) && ReadNumber(t + r) == Read(Number(negative, digits, point), r)
  {
    if digits == [] {
      NoPower(r);
      DecimalIsRead([ZERO], r, [], r, 0, r);
      assert [ZERO] + [] == [ZERO] && [ZERO][1..] == [] && DropZeros([ZERO]) == [];
    } else {
      MagnitudeStart(digits, point);
      MagnitudeIsRead(digits, point, r);
      SignIsRead(negative, Magnitude(digits, point), r, digits, point);
    }
  }

  // ---- Values are read back ----

  /** No array of the value has a hole. */
  predicate Whole(v: Json) {
    match v
    case Leaf(_) => true
    case Hole => false
    case Arr(items) => WholeItems(items)
    case Obj(fields) => WholeFields(fields)
  }

  predicate WholeItems(items: List<Json>) {
    match items
    case Nil => true
    case Cons(v, rest) => Whole(v) && WholeItems(rest)
  }

  predicate WholeFields(fields: List<Field<Json>>) {
    match fields
    case Nil => true
    case Cons(f, rest) => Whole(f.value) && WholeFields(rest)
  }

  lemma WordsAreTheirs()
    ensures Word("null") == NULL && Word("true") == TRUE && Word("false") == FALSE
  {
  }

  lemma PrimIsRead(p: Prim, r: text)
    requires PlainPrim(p) && Follows(r)
    ensures PrintPrim(p) + r != [] && ReadPrim(PrintPrim(p) + r) == Read(p, r)
  {
    var t := PrintPrim(p);
    WordsAreTheirs();
    assert (t + r)[|t|..] == r;
    match p
    case Number(n, d, q) => NumberIsRead(n, d, q, r);
    case Text(s) => StringIsRead(s, r);
    case _ => assert t <= t + r;
  }

  lemma PrimIsNoBracket(p: Prim, r: text)
    requires PlainPrim(p)
    ensures PrintPrim(p) + r != []
    ensures var c := (PrintPrim(p) + r)[0]; c != 0x5B && c != 0x7B
  {
    PrimStarts(p);
  }

  /** The first character of a value says what kind it is. */
  lemma ArrayAtFirst(t: text, items: List<Json>, r: text)
    requires t != [] && t[0] == 0x5B && ReadArray(t[1..]) == Read(items, r)
    ensures ReadValue(t) == Read(Arr(items), r)
  {
  }

  lemma ObjectAtFirst(t: text, fields: List<Field<Json>>, r: text)
    requires t != [] && t[0] == 0x7B && ReadObject(t[1..]) == Read(fields, r)
    ensures ReadValue(t) == Read(Obj(fields), r)
  {
  }

  lemma PrimAtFirst(t: text, p: Prim, r: text)
    requires t != [] && t[0] != 0x5B && t[0] != 0x7B && ReadPrim(t) == Read(p, r)
    ensures ReadValue(t) == Read(Leaf(p), r)
  {
  }

  lemma BehindOne(a: unit, s: text, r: text)
    ensures var t := [a] + s + r; t != [] && t[0] == a && t[1..] == s + r
  {
  }

  lemma ArrayText(items: List<Json>, r: text)
    ensures var t := Print(Arr(items)) + r; t != [] && t[0] == 0x5B && t[1..] == PrintItems(items) + r
  {
    BehindOne(OPEN_ARRAY, PrintItems(items), r);
  }

  lemma ObjectText(fields: List<Field<Json>>, r: text)
    ensures var t := Print(Obj(fields)) + r; t != [] && t[0] == 0x7B && t[1..] == PrintFields(fields) + r
  {
    BehindOne(OPEN_OBJECT, PrintFields(fields), r);
  }

  lemma {:induction false} ValueIsRead(v: Json, r: text)
    requires Plain(v) && Whole(v) && Follows(r)
    ensures ReadValue(Print(v) + r) == Read(v, r)
    decreases v, 1
  {
    var t := Print(v) + r;
    match v
    case Leaf(p) =>
      PrimIsNoBracket(p, r);
      PrimIsRead(p, r);
      PrimAtFirst(t, p, r);
    case Arr(items) =>
      ArrayText(items, r);
      ArrayIsRead(items, r);
      ArrayAtFirst(t, items, r);
    case Obj(fields) =>
      ObjectText(fields, r);
      ObjectIsRead(fields, r);
      ObjectAtFirst(t, fields, r);
  }

  lemma {:induction false} ArrayIsRead(items: List<Json>, r: text)
    requires PlainItems(items) && WholeItems(items)
    ensures ReadArray(PrintItems(items) + r) == Read(items, r)
    decreases items, 1
  {
    var t := PrintItems(items) + r;
    if items.Nil? {
      assert t[1..] == r;
    } else {
      StartsWith(items.head, MoreItems(items.tail) + r);
      Assoc(Print(items.head), MoreItems(items.tail), r);
      ItemsAreRead(items, r);
    }
  }

  lemma {:induction false} ItemsAreRead(items: List<Json>, r: text)
    requires items.Cons? && PlainItems(items) && WholeItems(items)
    ensures ReadItems(PrintItems(items) + r) == Read(items, r)
    decreases items, 0
  {
    var v, rest := items.head, items.tail;
    var more := MoreItems(rest) + r;
    Assoc(Print(v), MoreItems(rest), r);
    assert more[0] == if rest.Nil? then CLOSE_ARRAY else COMMA;
    ValueIsRead(v, more);
    if rest.Nil? {
      assert more[1..] == r;
    } else {
      assert more[1..] == PrintItems(rest) + r;
      ItemsAreRead(rest, r);
    }
  }

  lemma {:induction false} ObjectIsRead(fields: List<Field<Json>>, r: text)
    requires PlainFields(fields) && WholeFields(fields)
    ensures ReadObject(PrintFields(fields) + r) == Read(fields, r)
    decreases fields, 1
  {
    var t := PrintFields(fields) + r;
    if fields.Nil? {
      assert t[1..] == r;
    } else {
      assert t[0] == QUOTE;
      FieldsAreRead(fields, r);
    }
  }

  lemma FieldIsRead(key: text, v: Json, more: text, u: text)
    requires ReadValue(u) == Read(v, more)
    ensures ReadField(Quote(key) + ([COLON] + u)) == Read(Field(key, v), more)
  {
    var after := [COLON] + u;
    StringIsRead(key, after);
    assert after[1..] == u && after[0] == COLON;
  }

  lemma FieldText(key: text, v: text, more: text, r: text)
    ensures Quote(key) + ([COLON] + (v + more)) + r == Quote(key) + ([COLON] + (v + (more + r)))
  {
    Assoc(v, more, r);
    Assoc([COLON], v + more, r);
    Assoc(Quote(key), [COLON] + (v + more), r);
  }

  lemma MoreFieldsStart(rest: List<Field<Json>>, r: text)
    ensures var more := MoreFields(rest) + r;
            && more != [] && Follows(more)
            && if rest.Nil? then more == [CLOSE_OBJECT] + r else more[0] == COMMA && more[1..] == PrintFields(rest) + r
  {
    if rest.Cons? {
      BehindOne(COMMA, PrintFields(rest), r);
    }
  }

  /** One field, then the closing brace, or a comma and the other fields. */
  lemma FieldThenRest(t: text, f: Field<Json>, more: text, rest: List<Field<Json>>, r: text)
    requires ReadField(t) == Read(f, more) && more != []
    requires if rest.Nil? then more == [CLOSE_OBJECT] + r
             else more[0] == COMMA && ReadFields(more[1..]) == Read(rest, r)
    ensures ReadFields(t) == Read(Cons(f, rest), r)
  {
    if rest.Nil? {
      assert more[1..] == r;
    }
  }

  lemma {:induction false} FieldsAreRead(fields: List<Field<Json>>, r: text)
    requires fields.Cons? && PlainFields(fields) && WholeFields(fields)
    ensures ReadFields(PrintFields(fields) + r) == Read(fields, r)
    decreases fields, 0
  {
    var f, rest := fields.head, fields.tail;
    var more := MoreFields(rest) + r;
    MoreFieldsStart(rest, r);
    ValueIsRead(f.value, more);
    FieldIsRead(f.key, f.value, more, Print(f.value) + more);
    FieldText(f.key, Print(f.value), MoreFields(rest), r);
    if rest.Cons? {
      FieldsAreRead(rest, r);
    }
    FieldThenRest(PrintFields(fields) + r, f, more, rest, r);
  }
  // ---- The canonical text ----

  lemma {:induction false} InsertWhole(f: Field<Json>, fields: List<Field<Json>>)
    requires Whole(f.value) && WholeFields(fields)
    ensures WholeFields(Insert(f, fields))
  {
    if fields.Cons? && !Less(f.key, fields.head.key) {
      InsertWhole(f, fields.tail);
    }
  }

  lemma {:induction false} SortWhole(fields: List<Field<Json>>)
    requires WholeFields(fields)
    ensures WholeFields(Sort(fields))
  {
    if fields.Cons? {
      SortWhole(fields.tail);
      InsertWhole(fields.head, Sort(fields.tail));
    }
  }

  lemma {:induction false} NormalIsWhole(v: Json)
    requires Whole(v)
    ensures Whole(Normal(v))
  {
    match v
    case Leaf(_) =>
    case Arr(items) => NormalItemsWhole(items);
    case Obj(fields) =>
      NormalFieldsWhole(fields);
      SortWhole(NormalFields(fields));
  }

  lemma {:induction false} NormalItemsWhole(items: List<Json>)
    requires WholeItems(items)
    ensures WholeItems(NormalItems(items))
  {
    if items.Cons? {
      NormalIsWhole(items.head);
      NormalItemsWhole(items.tail);
    }
  }

  lemma {:induction false} NormalFieldsWhole(fields: List<Field<Json>>)
    requires WholeFields(fields)
    ensures WholeFields(NormalFields(fields))
  {
    if fields.Cons? {
      NormalIsWhole(fields.head.value);
      NormalFieldsWhole(fields.tail);
    }
  }

  /** `a` comes before `b` by code units: at the first difference, or by being its beginning. */
  ghost predicate Precedes(a: text, b: text) {
    exists p :: 0 <= p <= |a| && p <= |b| && a[..p] == b[..p] && DiffersAt(a, b, p)
  }

  predicate DiffersAt(a: text, b: text, p: nat)
    requires p <= |a| && p <= |b|
  {
    p < |b| && (p == |a| || a[p] < b[p])
  }

  lemma {:induction false} LessPrecedes(a: text, b: text)
    requires Less(a, b)
    ensures Precedes(a, b)
  {
    if a == [] || a[0] < b[0] {
      assert a[..0] == b[..0] && DiffersAt(a, b, 0);
    } else {
      LessPrecedes(a[1..], b[1..]);
      var p :| 0 <= p <= |a[1..]| && p <= |b[1..]| && a[1..][..p] == b[1..][..p] && DiffersAt(a[1..], b[1..], p);
      assert a[..p + 1] == [a[0]] + a[1..][..p] && b[..p + 1] == [b[0]] + b[1..][..p];
      assert DiffersAt(a, b, p + 1);
    }
  }

  /** In every object of the value each key comes before all that are printed after it. */
  ghost predicate Ascending(v: Json) {
    match v
    case Leaf(_) => true
    case Hole => true
    case Arr(items) => AscendingItems(items)
    case Obj(fields) => AscendingFields(fields)
  }

  ghost predicate AscendingItems(items: List<Json>) {
    match items
    case Nil => true
    case Cons(v, rest) => Ascending(v) && AscendingItems(rest)
  }

  ghost predicate AscendingFields(fields: List<Field<Json>>) {
    match fields
    case Nil => true
    case Cons(f, rest) =>
      && (forall k :: k in Keys(rest) ==> Precedes(f.key, k))
      && Ascending(f.value) && AscendingFields(rest)
  }

  ghost predicate AscendingValues(fields: List<Field<Json>>) {
    match fields
    case Nil => true
    case Cons(f, rest) => Ascending(f.value) && AscendingValues(rest)
  }

  lemma {:induction false} InsertAscending(f: Field<Json>, fields: List<Field<Json>>)
    requires Ascending(f.value) && AscendingValues(fields)
    ensures AscendingValues(Insert(f, fields))
  {
    if fields.Cons? && !Less(f.key, fields.head.key) {
      InsertAscending(f, fields.tail);
    }
  }

  lemma {:induction false} SortAscending(fields: List<Field<Json>>)
    requires AscendingValues(fields)
    ensures AscendingValues(Sort(fields))
  {
    if fields.Cons? {
      SortAscending(fields.tail);
      InsertAscending(fields.head, Sort(fields.tail));
    }
  }

  lemma {:induction false} SortedAscends(fields: List<Field<Json>>)
    requires Sorted(fields) && AscendingValues(fields)
    ensures AscendingFields(fields)
  {
    if fields.Cons? {
      forall k | k in Keys(fields.tail)
        ensures Precedes(fields.head.key, k)
      {
        SortedHeadIsLeast(fields, k);
        LessPrecedes(fields.head.key, k);
      }
      SortedAscends(fields.tail);
    }
  }

  lemma {:induction false} NormalAscends(v: Json)
    requires WellFormed(v)
    ensures Ascending(Normal(v))
  {
    match v
    case Leaf(_) =>
    case Arr(items) => NormalItemsAscend(items);
    case Obj(fields) =>
      NormalFieldsAscend(fields);
      SortAscending(NormalFields(fields));
      SortedFieldsGet(fields);
      SortedAscends(Sort(NormalFields(fields)));
  }

  lemma {:induction false} NormalItemsAscend(items: List<Json>)
    requires WellFormedItems(items)
    ensures AscendingItems(NormalItems(items))
  {
    if items.Cons? {
      if items.head != Hole {
        NormalAscends(items.head);
      }
      NormalItemsAscend(items.tail);
    }
  }

  lemma {:induction false} NormalFieldsAscend(fields: List<Field<Json>>)
    requires WellFormedFields(fields)
    ensures AscendingValues(NormalFields(fields))
  {
    if fields.Cons? {
      NormalAscends(fields.head.value);
      NormalFieldsAscend(fields.tail);
    }
  }

  /**
   * A reader of RFC 8259 reads the canonical text of every value without holes, to its end, as that value up to key
   * order and the sign of zero, and meets the keys of every object in ascending order of their code units.
   */
  lemma CanonicalIsRead(v: Json) returns (w: Json)
    requires WellFormed(v) && Whole(v)
    ensures ReadValue(Canonical(v)) == Read(w, []) && Same(v, w) && Ascending(w)
  {
    w := Normal(v);
    NormalIsPlain(v);
    NormalIsWhole(v);
    NormalAscends(v);
    assert Print(w) + [] == Canonical(v);
    ValueIsRead(w, []);
    SameAsNormal(v);
  }

  /** A value is the same as its normal form. */
  lemma {:induction false} SameAsNormal(v: Json)
    requires v == Hole || WellFormed(v)
    ensures Same(v, Normal(v))
    decreases v, 1
  {
    match v
    case Leaf(_) =>
    case Hole =>
    case Arr(items) =>
      DenseNormal(items);
      SameItemsAsNormal(Dense(items));
    case Obj(fields) =>
      SortedFieldsGet(fields);
      FieldsAsNormal(fields, fields, Sort(NormalFields(fields)));
  }

  lemma {:induction false} SameItemsAsNormal(items: List<Json>)
    requires WellFormedItems(items)
    ensures SameItems(items, NormalItems(items))
    decreases items, 0
  {
    if items.Cons? {
      SameAsNormal(items.head);
      SameItemsAsNormal(items.tail);
    }
  }

  /** The fields of `all`, one by one, against their sorted normal forms. */
  lemma {:induction false} FieldsAsNormal(fields: List<Field<Json>>, all: List<Field<Json>>, s: List<Field<Json>>)
    requires WellFormedFields(fields) && Distinct(fields) && Keys(fields) <= Keys(all) && Keys(s) == Keys(all)
    requires forall k :: k in Keys(all) ==> Get(s, k) == Normal(Get(all, k))
    requires forall k :: k in Keys(fields) ==> Get(fields, k) == Get(all, k)
    ensures SameFields(fields, s)
    decreases fields, 0
  {
    if fields.Cons? {
      var f, rest := fields.head, fields.tail;
      assert Get(fields, f.key) == f.value && f.key in Keys(fields);
      SameAsNormal(f.value);
      forall k | k in Keys(rest)
        ensures Get(rest, k) == Get(all, k)
      {
        assert Get(fields, k) == Get(rest, k);
      }
      FieldsAsNormal(rest, all, s);
    }
  }

  // ---- How strings and numbers are written ----

  /** A surrogate that is not half of a pair. */
  predicate Lone(before: text, c: unit, after: text) {
    || (0xD800 <= c < 0xDC00 && (after == [] || !(0xDC00 <= after[0] < 0xE000)))
    || (0xDC00 <= c < 0xE000 && (before == [] || !(0xD800 <= before[|before| - 1] < 0xDC00)))
  }

  predicate LowerHex(c: unit) {
    0x30 <= c <= 0x39 || 0x61 <= c <= 0x66
  }

  /** JSON.stringify escapes what it must: seven characters by letter, other controls and lone surrogates by number. */
  lemma EscapeShape(before: text, c: unit, after: text)
    ensures var p := Escape(before, c, after);
            if c in {0x08, 0x09, 0x0A, 0x0C, 0x0D, 0x22, 0x5C} then |p| == 2 && p[0] == 0x5C
            else if c < 0x20 || Lone(before, c, after)
            then |p| == 6 && p[0] == 0x5C && p[1] == 0x75 && forall i :: 2 <= i < 6 ==> LowerHex(p[i])
            else p == [c]
  {
  }

  lemma ScientificShape(digits: text, e: int)
    requires digits != []
    ensures var t := Mantissa(digits) + Exponent(e);
            && LOWER_E in t && t[0] == digits[0] && |t| > 2
            && (|digits| == 1 ==> t[1] == LOWER_E) && (|digits| > 1 ==> t[1] == POINT)
            && exists k :: 0 < k < |t| - 1 && t[k] == LOWER_E && t[k + 1] == if e >= 0 then PLUS else MINUS
  {
    var m, t := Mantissa(digits), Mantissa(digits) + Exponent(e);
    assert t[|m|] == Exponent(e)[0] && t[|m| + 1] == Exponent(e)[1];
  }

  lemma PlainShape(digits: text, point: int)
    requires digits != [] && IsShortest(digits, point) && -6 < point <= 21
    ensures var t := Magnitude(digits, point);
            && LOWER_E !in t && (POINT in t <==> point < |digits|)
            && (point > 0 ==> t[..|digits|] == digits || t[..point] == digits[..point])
  {
    var t := Magnitude(digits, point);
    if point <= 0 {
      assert t[1] == POINT;
    } else if point < |digits| {
      assert t[point] == POINT;
    }
  }

  /**
   * Number::toString of ECMAScript, by what can be seen of the text. Below 1e21 and from 1e-6 on there is no exponent,
   * and a point exactly where there is a fraction; outside there is an exponent with its sign, after one digit and,
   * if there are more, a point.
   */
  lemma NumberShape(digits: text, point: int)
    requires digits != [] && IsShortest(digits, point)
    ensures var t := Magnitude(digits, point);
            && (LOWER_E in t <==> point > 21 || point <= -6)
            && (LOWER_E !in t ==> (POINT in t <==> point < |digits|))
            && (LOWER_E !in t && point > 0 ==> t[..|digits|] == digits || t[..point] == digits[..point])
            && (LOWER_E in t ==>
                  && t[0] == digits[0] && (|digits| == 1 ==> t[1] == LOWER_E) && (|digits| > 1 ==> t[1] == POINT)
                  && exists k :: 0 < k < |t| - 1 && t[k] == LOWER_E && t[k + 1] == if point > 0 then PLUS else MINUS)
  {
    if point > 21 || point <= -6 {
      ScientificShape(digits, point - 1);
    } else {
      PlainShape(digits, point);
    }
  }
}
