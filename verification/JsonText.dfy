/** The text of JSON strings and numbers, as JSON.stringify prints them, and why it can be read back in one way only. */
module JsonText {

  /** A UTF-16 code unit. */
  type unit = c: int | 0 <= c < 65536
  type text = seq<unit>

  const QUOTE: unit := 34
  const BACKSLASH: unit := 92
  const COMMA: unit := 44
  const COLON: unit := 58
  const MINUS: unit := 45
  const PLUS: unit := 43
  const POINT: unit := 46
  const ZERO: unit := 48
  const LOWER_E: unit := 101
  const LOWER_U: unit := 117

  /** Text that can follow a value: none, or a separator or closing bracket. */
  predicate Follows(r: text) {
    r == [] || r[0] in {COMMA, 93, 125}
  }

  /** The same first part leaves the same rest. */
  lemma SameFirst(a: text, r: text, b: text, s: text)
    requires a + r == b + s && |a| == |b|
    ensures a == b && r == s
  {
    assert (a + r)[..|a|] == a && (b + s)[..|b|] == b;
    assert (a + r)[|a|..] == r && (b + s)[|b|..] == s;
  }

  // ---- Strings ----

  predicate IsHigh(c: unit) {
    0xD800 <= c < 0xDC00
  }

  predicate IsLow(c: unit) {
    0xDC00 <= c < 0xE000
  }

  function Hex(d: int): unit
    requires 0 <= d < 16
  {
    if d < 10 then 48 + d else 87 + d
  }

  /** The letter of a two-character escape, or 0. */
  function Short(c: unit): unit {
    if c == 8 then 98 else if c == 9 then 116 else if c == 10 then 110 else if c == 12 then 102
    else if c == 13 then 114 else if c == QUOTE then QUOTE else if c == BACKSLASH then BACKSLASH else 0
  }

  /**
   * One code unit, between its neighbours: a short escape, a \u escape for other control characters and for
   * a surrogate outside a pair, or itself.
   */
  function Escape(before: text, c: unit, after: text): (p: text)
    ensures |p| > 0 && p[0] != QUOTE
  {
    if Short(c) != 0 then [BACKSLASH, Short(c)]
    else if c < 32 || (IsHigh(c) && !(after != [] && IsLow(after[0])))
         || (IsLow(c) && !(before != [] && IsHigh(before[|before| - 1]))) then
      [BACKSLASH, LOWER_U, Hex(c / 4096), Hex(c / 256 % 16), Hex(c / 16 % 16), Hex(c % 16)]
    else [c]
  }

  /** The units of `s` from position `i`, escaped, and the closing quote. */
  function QuoteFrom(s: text, i: nat): (p: text)
    requires i <= |s|
    ensures |p| > 0
    decreases |s| - i
  {
    if i == |s| then [QUOTE] else Escape(s[..i], s[i], s[i + 1..]) + QuoteFrom(s, i + 1)
  }

  function Quote(s: text): text {
    [QUOTE] + QuoteFrom(s, 0)
  }

  function HexValue(c: unit): int {
    if c < 58 then c - 48 else c - 87
  }

  function Long(letter: unit): int {
    if letter == 98 then 8 else if letter == 116 then 9 else if letter == 110 then 10
    else if letter == 102 then 12 else if letter == 114 then 13 else letter
  }

  /** The unit that an escaped text begins with, and where it ends. */
  function Unescape(t: text): (int, nat) {
    if t == [] then (0, 0)
    else if t[0] != BACKSLASH then (t[0], 1)
    else if |t| >= 6 && t[1] == LOWER_U then
      (HexValue(t[2]) * 4096 + HexValue(t[3]) * 256 + HexValue(t[4]) * 16 + HexValue(t[5]), 6)
    else if |t| >= 2 then (Long(t[1]), 2)
    else (0, 1)
  }

  lemma HexDigits(c: unit)
    ensures c / 4096 * 4096 + c / 256 % 16 * 256 + c / 16 % 16 * 16 + c % 16 == c
  {
    var a := c / 16;
    var b := a / 16;
    assert c / 256 == b && c / 4096 == b / 16;
    assert c == 16 * a + c % 16 && a == 16 * b + a % 16 && b == 16 * (b / 16) + b % 16;
  }

  lemma UnescapeEscape(before: text, c: unit, after: text, rest: text)
    ensures Unescape(Escape(before, c, after) + rest) == (c, |Escape(before, c, after)|)
  {
    HexDigits(c);
  }

  /** Two escaped strings with the same text are the same, and so is what follows them. */
  lemma {:induction false} QuoteFromUnique(a: text, i: nat, r: text, b: text, j: nat, s: text)
    requires i <= |a| && j <= |b| && QuoteFrom(a, i) + r == QuoteFrom(b, j) + s
    ensures a[i..] == b[j..] && r == s
    decreases |a| - i
  {
    if i == |a| || j == |b| {
      QuoteEnds(a, i, r, b, j, s);
    } else {
      QuoteUnrolls(a, i, r);
      QuoteUnrolls(b, j, s);
      SameUnits(a[..i], a[i], a[i + 1..], QuoteFrom(a, i + 1) + r, b[..j], b[j], b[j + 1..], QuoteFrom(b, j + 1) + s);
      QuoteFromUnique(a, i + 1, r, b, j + 1, s);
      assert a[i..] == [a[i]] + a[i + 1..] && b[j..] == [b[j]] + b[j + 1..];
    }
  }

  lemma QuoteUnrolls(a: text, i: nat, r: text)
    requires i < |a|
    ensures QuoteFrom(a, i) + r == Escape(a[..i], a[i], a[i + 1..]) + (QuoteFrom(a, i + 1) + r)
  {
    var x, y := Escape(a[..i], a[i], a[i + 1..]), QuoteFrom(a, i + 1);
    assert x + y + r == x + (y + r);
  }

  /** Two texts that begin with an escaped unit, when they agree, begin with the same one. */
  lemma SameUnits(p: text, c: unit, n: text, u: text, q: text, d: unit, m: text, v: text)
    requires Escape(p, c, n) + u == Escape(q, d, m) + v
    ensures c == d && u == v
  {
    UnescapeEscape(p, c, n, u);
    UnescapeEscape(q, d, m, v);
    SameFirst(Escape(p, c, n), u, Escape(q, d, m), v);
  }

  /** The closing quote is never taken for a unit. */
  lemma QuoteEnds(a: text, i: nat, r: text, b: text, j: nat, s: text)
    requires i <= |a| && j <= |b| && QuoteFrom(a, i) + r == QuoteFrom(b, j) + s
    requires i == |a| || j == |b|
    ensures i == |a| && j == |b| && r == s
  {
    var t := QuoteFrom(a, i) + r;
    assert t[0] == QuoteFrom(a, i)[0] == QuoteFrom(b, j)[0];
    SameFirst(QuoteFrom(a, i), r, QuoteFrom(b, j), s);
  }

  lemma QuoteUnique(a: text, r: text, b: text, s: text)
    requires Quote(a) + r == Quote(b) + s
    ensures a == b && r == s
  {
    var x, y := QuoteFrom(a, 0) + r, QuoteFrom(b, 0) + s;
    assert Quote(a) + r == [QUOTE] + x && Quote(b) + s == [QUOTE] + y;
    SameFirst([QUOTE], x, [QUOTE], y);
    QuoteFromUnique(a, 0, r, b, 0, s);
    assert a[0..] == a && b[0..] == b;
  }

  // ---- Numbers ----

  predicate IsDigit(c: unit) {
    48 <= c <= 57
  }

  predicate AllDigits(t: text) {
    forall i :: 0 <= i < |t| ==> IsDigit(t[i])
  }

  /**
   * The shortest decimal form of a finite number: 0.d1d2...dk times ten to the power `point`. Zero has no
   * digits; otherwise neither the first digit nor the last is 0.
   */
  predicate IsShortest(digits: text, point: int) {
    && AllDigits(digits)
    && (digits == [] ==> point == 0)
    && (digits != [] ==> digits[0] != ZERO && digits[|digits| - 1] != ZERO)
  }

  function Zeros(n: nat): (z: text)
    ensures |z| == n && forall i :: 0 <= i < n ==> z[i] == ZERO
  {
    seq(n, _ => ZERO)
  }

  function Decimal(n: nat): (t: text)
    ensures |t| > 0 && AllDigits(t)
  {
    if n < 10 then [ZERO + n] else Decimal(n / 10) + [ZERO + n % 10]
  }

  function DecimalValue(t: text): int {
    if t == [] then 0 else 10 * DecimalValue(t[..|t| - 1]) + (t[|t| - 1] - ZERO)
  }

  lemma {:induction false} DecimalRoundTrip(n: nat)
    ensures DecimalValue(Decimal(n)) == n
  {
    var t := Decimal(n);
    if n >= 10 {
      DecimalRoundTrip(n / 10);
      assert t[..|t| - 1] == Decimal(n / 10);
    } else {
      assert t[..0] == [];
    }
  }

  /** The digits with a point after the first, unless there is only one. */
  function Mantissa(digits: text): text
    requires digits != []
  {
    if |digits| == 1 then digits else digits[..1] + [POINT] + digits[1..]
  }

  function Exponent(e: int): text {
    if e >= 0 then [LOWER_E, PLUS] + Decimal(e) else [LOWER_E, MINUS] + Decimal(-e)
  }

  /** Number::toString of ECMAScript, for a positive number. */
  function Magnitude(digits: text, point: int): text
    requires digits != []
  {
    var k := |digits|;
    if k <= point <= 21 then digits + Zeros(point - k)
    else if 0 < point <= 21 then digits[..point] + [POINT] + digits[point..]
    else if -6 < point <= 0 then [ZERO, POINT] + Zeros(-point) + digits
    else Mantissa(digits) + Exponent(point - 1)
  }

  function NumberText(negative: bool, digits: text, point: int): text {
    if digits == [] then [ZERO] else (if negative then [MINUS] else []) + Magnitude(digits, point)
  }

  // ---- Reading a number back ----

  function Find(t: text, c: unit): (k: nat)
    ensures k <= |t|
  {
    if t == [] || t[0] == c then 0 else 1 + Find(t[1..], c)
  }

  lemma {:induction false} FindIn(a: text, c: unit, rest: text)
    requires c !in a && (rest == [] || rest[0] == c)
    ensures Find(a + rest, c) == |a|
  {
    if a == [] {
      assert a + rest == rest;
    } else {
      assert (a + rest)[1..] == a[1..] + rest;
      FindIn(a[1..], c, rest);
    }
  }

  function DropZeros(t: text): text {
    if t != [] && t[0] == ZERO then DropZeros(t[1..]) else t
  }

  function TrimZeros(t: text): text {
    if t != [] && t[|t| - 1] == ZERO then TrimZeros(t[..|t| - 1]) else t
  }

  lemma {:induction false} DropLeadingZeros(n: nat, digits: text)
    requires digits != [] && digits[0] != ZERO
    ensures DropZeros(Zeros(n) + digits) == digits
  {
    var t := Zeros(n) + digits;
    if n == 0 {
      assert t == digits;
    } else {
      assert t[0] == ZERO && t[1..] == Zeros(n - 1) + digits;
      DropLeadingZeros(n - 1, digits);
    }
  }

  lemma {:induction false} TrimTrailingZeros(digits: text, n: nat)
    requires digits != [] && digits[|digits| - 1] != ZERO
    ensures TrimZeros(digits + Zeros(n)) == digits
  {
    var t := digits + Zeros(n);
    if n == 0 {
      assert t == digits;
    } else {
      assert t[|t| - 1] == ZERO && t[..|t| - 1] == digits + Zeros(n - 1);
      TrimTrailingZeros(digits, n - 1);
    }
  }

  function SignedValue(t: text): int {
    if t == [] then 0 else if t[0] == MINUS then -DecimalValue(t[1..]) else DecimalValue(t[1..])
  }

  /** The digits and the point of a number without an exponent. */
  function ReadMantissa(t: text, exponent: int): (text, int) {
    var d := Find(t, POINT);
    var all := t[..d] + (if d < |t| then t[d + 1..] else []);
    var digits := DropZeros(all);
    (TrimZeros(digits), d - (|all| - |digits|) + exponent)
  }

  function ReadMagnitude(t: text): (text, int) {
    var e := Find(t, LOWER_E);
    ReadMantissa(t[..e], if e < |t| then SignedValue(t[e + 1..]) else 0)
  }

  lemma ReadWhole(digits: text, zeros: nat)
    requires digits != [] && IsShortest(digits, 1)
    ensures ReadMantissa(digits + Zeros(zeros), 0) == (digits, |digits| + zeros)
  {
    var t := digits + Zeros(zeros);
    FindIn(t, POINT, []);
    assert t + [] == t && t[..|t|] == t;
    TrimTrailingZeros(digits, zeros);
  }

  lemma ReadPointed(whole: text, fraction: text, digits: text, zeros: nat, exponent: int)
    requires digits != [] && IsShortest(digits, 1) && POINT !in whole
    requires whole + fraction == Zeros(zeros) + digits
    ensures ReadMantissa(whole + [POINT] + fraction, exponent) == (digits, |whole| - zeros + exponent)
  {
    var t := whole + [POINT] + fraction;
    assert t == whole + ([POINT] + fraction);
    FindIn(whole, POINT, [POINT] + fraction);
    assert t[..|whole|] == whole && t[|whole| + 1..] == fraction;
    DropLeadingZeros(zeros, digits);
    TrimTrailingZeros(digits, 0);
    assert digits + Zeros(0) == digits;
  }

  /** No exponent: the whole text is the mantissa. */
  lemma ReadPlain(t: text)
    requires LOWER_E !in t
    ensures ReadMagnitude(t) == ReadMantissa(t, 0)
  {
    FindIn(t, LOWER_E, []);
    assert t + [] == t && t[..|t|] == t;
  }

  lemma ReadExponent(mantissa: text, e: int)
    requires LOWER_E !in mantissa
    ensures ReadMagnitude(mantissa + Exponent(e)) == ReadMantissa(mantissa, e)
  {
    var t := mantissa + Exponent(e);
    FindIn(mantissa, LOWER_E, Exponent(e));
    assert t[..|mantissa|] == mantissa && t[|mantissa| + 1..] == Exponent(e)[1..];
    var magnitude := Decimal(if e >= 0 then e else -e);
    assert Exponent(e)[1..][1..] == magnitude;
    DecimalRoundTrip(if e >= 0 then e else -e);
  }

  lemma ReadMantissaOf(digits: text, e: int)
    requires digits != [] && IsShortest(digits, 1)
    ensures ReadMantissa(Mantissa(digits), e) == (digits, 1 + e)
  {
    if |digits| == 1 {
      ReadWhole(digits, 0);
      assert digits + Zeros(0) == digits;
    } else {
      assert digits[..1] + digits[1..] == Zeros(0) + digits;
      ReadPointed(digits[..1], digits[1..], digits, 0, e);
    }
  }

  lemma ReadInteger(digits: text, zeros: nat)
    requires digits != [] && IsShortest(digits, 1)
    ensures ReadMagnitude(digits + Zeros(zeros)) == (digits, |digits| + zeros)
  {
    ReadPlain(digits + Zeros(zeros));
    ReadWhole(digits, zeros);
  }

  lemma ReadSplit(digits: text, point: nat)
    requires digits != [] && IsShortest(digits, 1) && point <= |digits|
    ensures ReadMagnitude(digits[..point] + [POINT] + digits[point..]) == (digits, point)
  {
    ReadPlain(digits[..point] + [POINT] + digits[point..]);
    assert digits[..point] + digits[point..] == Zeros(0) + digits;
    ReadPointed(digits[..point], digits[point..], digits, 0, 0);
  }

  lemma ReadSmall(digits: text, zeros: nat)
    requires digits != [] && IsShortest(digits, 1)
    ensures ReadMagnitude([ZERO, POINT] + Zeros(zeros) + digits) == (digits, 0 - zeros)
  {
    var fraction := Zeros(zeros) + digits;
    var t := [ZERO] + [POINT] + fraction;
    assert t == [ZERO, POINT] + Zeros(zeros) + digits;
    ReadPlain(t);
    assert [ZERO] + fraction == Zeros(1 + zeros) + digits;
    ReadPointed([ZERO], fraction, digits, 1 + zeros, 0);
  }

  lemma ReadScientific(digits: text, e: int)
    requires digits != [] && IsShortest(digits, 1)
    ensures ReadMagnitude(Mantissa(digits) + Exponent(e)) == (digits, 1 + e)
  {
    ReadExponent(Mantissa(digits), e);
    ReadMantissaOf(digits, e);
  }

  lemma IntegerReadsBack(digits: text, point: int)
    requires digits != [] && IsShortest(digits, point) && |digits| <= point <= 21
    ensures ReadMagnitude(Magnitude(digits, point)) == (digits, point)
  {
    ReadInteger(digits, point - |digits|);
  }

  lemma SplitReadsBack(digits: text, point: int)
    requires digits != [] && IsShortest(digits, point) && 0 < point < |digits| && point <= 21
    ensures ReadMagnitude(Magnitude(digits, point)) == (digits, point)
  {
    ReadSplit(digits, point);
  }

  lemma SmallReadsBack(digits: text, point: int)
    requires digits != [] && IsShortest(digits, point) && -6 < point <= 0
    ensures ReadMagnitude(Magnitude(digits, point)) == (digits, point)
  {
    ReadSmall(digits, -point);
  }

  lemma ScientificReadsBack(digits: text, point: int)
    requires digits != [] && IsShortest(digits, point) && (point > 21 || point <= -6)
    ensures ReadMagnitude(Magnitude(digits, point)) == (digits, point)
  {
    ReadScientific(digits, point - 1);
  }

  /** A printed number reads back as its digits and point. */
  lemma MagnitudeReadsBack(digits: text, point: int)
    requires digits != [] && IsShortest(digits, point)
    ensures ReadMagnitude(Magnitude(digits, point)) == (digits, point)
  {
    if point > 21 || point <= -6 {
      ScientificReadsBack(digits, point);
    } else if point <= 0 {
      SmallReadsBack(digits, point);
    } else if point < |digits| {
      SplitReadsBack(digits, point);
    } else {
      IntegerReadsBack(digits, point);
    }
  }

  predicate IsNumberUnit(c: unit) {
    IsDigit(c) || c in {MINUS, PLUS, POINT, LOWER_E}
  }

  predicate AllNumberUnits(t: text) {
    forall i :: 0 <= i < |t| ==> IsNumberUnit(t[i])
  }

  lemma UnitsJoin(a: text, b: text)
    requires AllNumberUnits(a) && AllNumberUnits(b)
    ensures AllNumberUnits(a + b)
  {
  }

  lemma DigitUnits(t: text)
    requires AllDigits(t)
    ensures AllNumberUnits(t)
  {
  }

  lemma ExponentUnits(digits: text, e: int)
    requires digits != [] && AllDigits(digits)
    ensures AllNumberUnits(Mantissa(digits) + Exponent(e))
  {
    DigitUnits(Decimal(if e >= 0 then e else -e));
    assert AllNumberUnits(Exponent(e));
    UnitsJoin(Mantissa(digits), Exponent(e));
  }

  lemma MagnitudeUnits(digits: text, point: int)
    requires digits != [] && AllDigits(digits)
    ensures AllNumberUnits(Magnitude(digits, point))
  {
    ExponentUnits(digits, point - 1);
  }

  lemma NumberUnits(negative: bool, digits: text, point: int)
    requires AllDigits(digits)
    ensures AllNumberUnits(NumberText(negative, digits, point))
  {
    if digits != [] {
      MagnitudeUnits(digits, point);
      UnitsJoin(if negative then [MINUS] else [], Magnitude(digits, point));
    }
  }

  /** A number's text ends where its units end. */
  lemma NumberEnds(a: text, r: text, b: text, s: text)
    requires a + r == b + s && Follows(r) && Follows(s)
    requires AllNumberUnits(a) && AllNumberUnits(b)
    ensures a == b && r == s
  {
    var t := a + r;
    assert r != [] ==> t[|a|] == r[0];
    assert s != [] ==> t[|b|] == s[0];
    assert forall i :: 0 <= i < |a| ==> t[i] == a[i];
    assert forall i :: 0 <= i < |b| ==> t[i] == b[i];
    SameFirst(a, r, b, s);
  }

  /** A nonzero number's text does not begin with the text of zero alone, nor with a sign unless it is negative. */
  lemma MagnitudeStart(digits: text, point: int)
    requires digits != [] && IsShortest(digits, point)
    ensures var t := Magnitude(digits, point);
            |t| > 0 && IsDigit(t[0]) && (t[0] == ZERO ==> |t| > 1)
  {
  }

  lemma SameNumber(n: bool, d: text, p: int, m: bool, e: text, q: int)
    requires IsShortest(d, p) && IsShortest(e, q)
    requires NumberText(n, d, p) == NumberText(m, e, q)
    ensures d == e && p == q && (d != [] ==> n == m)
  {
    if d != [] {
      MagnitudeStart(d, p);
      MagnitudeReadsBack(d, p);
      StripSign(n, d, p);
    }
    if e != [] {
      MagnitudeStart(e, q);
      MagnitudeReadsBack(e, q);
      StripSign(m, e, q);
    }
  }

  lemma StripSign(n: bool, d: text, p: int)
    requires d != [] && IsShortest(d, p)
    ensures var t := NumberText(n, d, p);
            && |t| > 0 && (t[0] == MINUS <==> n)
            && (if n then t[1..] else t) == Magnitude(d, p)
  {
    MagnitudeStart(d, p);
    assert [] + Magnitude(d, p) == Magnitude(d, p);
  }

  lemma NumberUnique(n: bool, d: text, p: int, r: text, m: bool, e: text, q: int, s: text)
    requires IsShortest(d, p) && IsShortest(e, q) && Follows(r) && Follows(s)
    requires NumberText(n, d, p) + r == NumberText(m, e, q) + s
    ensures d == e && p == q && (d != [] ==> n == m) && r == s
  {
    NumberUnits(n, d, p);
    NumberUnits(m, e, q);
    NumberEnds(NumberText(n, d, p), r, NumberText(m, e, q), s);
    SameNumber(n, d, p, m, e, q);
  }
}
