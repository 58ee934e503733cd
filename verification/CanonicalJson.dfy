/** The canonical text determines the value, up to key order and the sign of zero. */
module CanonicalJson {
  import opened JsonText
  import opened Json

  /** Numbers in shortest form, no minus zero, and no array of one hole. */
  ghost predicate PlainPrim(p: Prim) {
    WellFormedPrim(p) && NormalPrim(p) == p
  }

  ghost predicate Plain(v: Json) {
    match v
    case Leaf(p) => PlainPrim(p)
    case Hole => false
    case Arr(items) => PlainItems(items) && Dense(items) == items
    case Obj(fields) => PlainFields(fields)
  }

  ghost predicate PlainItems(items: List<Json>) {
    match items
    case Nil => true
    case Cons(v, rest) => (v == Hole || Plain(v)) && PlainItems(rest)
  }

  ghost predicate PlainFields(fields: List<Field<Json>>) {
    match fields
    case Nil => true
    case Cons(f, rest) => Plain(f.value) && PlainFields(rest)
  }

  lemma {:induction false} InsertPlain(f: Field<Json>, fields: List<Field<Json>>)
    requires Plain(f.value) && PlainFields(fields)
    ensures PlainFields(Insert(f, fields))
  {
    if fields.Cons? && !Less(f.key, fields.head.key) {
      InsertPlain(f, fields.tail);
    }
  }

  lemma {:induction false} SortPlain(fields: List<Field<Json>>)
    requires PlainFields(fields)
    ensures PlainFields(Sort(fields))
  {
    if fields.Cons? {
      SortPlain(fields.tail);
      InsertPlain(fields.head, Sort(fields.tail));
    }
  }

  lemma {:induction false} NormalIsPlain(v: Json)
    requires WellFormed(v)
    ensures Plain(Normal(v))
  {
    match v
    case Leaf(_) =>
    case Arr(items) => NormalItemsPlain(items);
    case Obj(fields) =>
      NormalFieldsPlain(fields);
      SortPlain(NormalFields(fields));
  }

  lemma {:induction false} NormalItemsPlain(items: List<Json>)
    requires WellFormedItems(items)
    ensures PlainItems(NormalItems(items))
  {
    if items.Cons? {
      if items.head != Hole {
        NormalIsPlain(items.head);
      }
      NormalItemsPlain(items.tail);
    }
  }

  lemma {:induction false} NormalFieldsPlain(fields: List<Field<Json>>)
    requires WellFormedFields(fields)
    ensures PlainFields(NormalFields(fields))
  {
    if fields.Cons? {
      NormalIsPlain(fields.head.value);
      NormalFieldsPlain(fields.tail);
    }
  }

  // ---- The first unit tells what a value is ----

  predicate PrimStart(p: Prim, c: unit) {
    match p
    case Null => c == 110
    case Bool(b) => c == if b then 116 else 102
    case Number(_, _, _) => IsDigit(c) || c == MINUS
    case Text(_) => c == QUOTE
  }

  predicate Start(v: Json, c: unit) {
    match v
    case Leaf(p) => PrimStart(p, c)
    case Hole => c == COMMA || c == CLOSE_ARRAY
    case Arr(_) => c == OPEN_ARRAY
    case Obj(_) => c == OPEN_OBJECT
  }

  lemma PrimStarts(p: Prim)
    requires WellFormedPrim(p)
    ensures |PrintPrim(p)| > 0 && PrimStart(p, PrintPrim(p)[0])
  {
    if p.Number? && p.digits != [] {
      StripSign(p.negative, p.digits, p.point);
      MagnitudeStart(p.digits, p.point);
    }
  }

  lemma Starts(v: Json)
    requires Plain(v)
    ensures |Print(v)| > 0 && Start(v, Print(v)[0])
  {
    if v.Leaf? {
      PrimStarts(v.p);
    }
  }

  /** Text that begins with a value's own. */
  lemma StartsWith(v: Json, r: text)
    requires Plain(v)
    ensures |Print(v) + r| > 0 && Start(v, (Print(v) + r)[0])
  {
    Starts(v);
  }

  // ---- Unique reading ----

  lemma Assoc(a: text, b: text, c: text)
    ensures a + b + c == a + (b + c)
  {
  }

  /** One unit, then the same rest. */
  lemma SameUnit(c: unit, a: text, b: text)
    requires [c] + a == [c] + b
    ensures a == b
  {
    SameFirst([c], a, [c], b);
  }

  lemma PrimUnique(a: Prim, r: text, b: Prim, s: text)
    requires PlainPrim(a) && PlainPrim(b) && Follows(r) && Follows(s)
    requires PrintPrim(a) + r == PrintPrim(b) + s
    ensures a == b && r == s
  {
    PrimStarts(a);
    PrimStarts(b);
    assert (PrintPrim(a) + r)[0] == PrintPrim(a)[0] && (PrintPrim(b) + s)[0] == PrintPrim(b)[0];
    match (a, b)
    case (Number(m, d, p), Number(n, e, q)) => NumberUnique(m, d, p, r, n, e, q, s);
    case (Text(x), Text(y)) => QuoteUnique(x, r, y, s);
    case _ => SameFirst(PrintPrim(a), r, PrintPrim(b), s);
  }

  /** Two values whose texts agree are the same, and so is what follows them. */
  lemma {:induction false} PrintUnique(v: Json, r: text, w: Json, s: text)
    requires Plain(v) && Plain(w) && Follows(r) && Follows(s)
    requires Print(v) + r == Print(w) + s
    ensures v == w && r == s
    decreases v, 1
  {
    StartsWith(v, r);
    StartsWith(w, s);
    match (v, w)
    case (Leaf(a), Leaf(b)) => PrimUnique(a, r, b, s);
    case (Arr(a), Arr(b)) =>
      Assoc([OPEN_ARRAY], PrintItems(a), r);
      Assoc([OPEN_ARRAY], PrintItems(b), s);
      SameUnit(OPEN_ARRAY, PrintItems(a) + r, PrintItems(b) + s);
      ItemsUnique(a, r, b, s);
    case (Obj(a), Obj(b)) =>
      Assoc([OPEN_OBJECT], PrintFields(a), r);
      Assoc([OPEN_OBJECT], PrintFields(b), s);
      SameUnit(OPEN_OBJECT, PrintFields(a) + r, PrintFields(b) + s);
      FieldsUnique(a, r, b, s);
    case _ =>
  }

  /** Text that can follow an item of an array. */
  predicate FollowsItem(r: text) {
    r != [] && (r[0] == COMMA || r[0] == CLOSE_ARRAY)
  }

  /** An item, or the hole in its place, before a comma or the closing bracket. */
  lemma {:induction false} ItemUnique(v: Json, r: text, w: Json, s: text)
    requires (v == Hole || Plain(v)) && (w == Hole || Plain(w)) && FollowsItem(r) && FollowsItem(s)
    requires Print(v) + r == Print(w) + s
    ensures v == w && r == s
    decreases v, 2
  {
    ItemStart(v, r);
    ItemStart(w, s);
    if v != Hole && w != Hole {
      PrintUnique(v, r, w, s);
    }
  }

  lemma ItemStart(v: Json, r: text)
    requires (v == Hole || Plain(v)) && FollowsItem(r)
    ensures |Print(v) + r| > 0 && Start(v, (Print(v) + r)[0]) && (v == Hole ==> Print(v) + r == r)
  {
    if v == Hole {
      assert [] + r == r;
    } else {
      Starts(v);
    }
  }

  lemma {:induction false} ItemsUnique(a: List<Json>, r: text, b: List<Json>, s: text)
    requires PlainItems(a) && PlainItems(b) && Dense(a) == a && Dense(b) == b
    requires PrintItems(a) + r == PrintItems(b) + s
    ensures a == b && r == s
    decreases a, 1
  {
    ItemsStart(a, r);
    ItemsStart(b, s);
    if a.Nil? && b.Nil? {
      SameUnit(CLOSE_ARRAY, r, s);
    } else if a.Cons? && b.Cons? {
      ValueThenItems(a, r, b, s);
    }
  }

  /** A closing bracket where the array is empty, a comma or a value where it is not. */
  lemma ItemsStart(a: List<Json>, r: text)
    requires PlainItems(a) && Dense(a) == a
    ensures |PrintItems(a) + r| > 0
    ensures a.Nil? ==> (PrintItems(a) + r)[0] == CLOSE_ARRAY
    ensures a.Cons? ==> (PrintItems(a) + r)[0] != CLOSE_ARRAY
  {
    if a.Cons? {
      if a.head == Hole {
        assert [] + MoreItems(a.tail) == MoreItems(a.tail);
      } else {
        Starts(a.head);
      }
    }
  }

  lemma {:induction false} ValueThenItems(a: List<Json>, r: text, b: List<Json>, s: text)
    requires a.Cons? && b.Cons? && PlainItems(a) && PlainItems(b)
    requires Print(a.head) + MoreItems(a.tail) + r == Print(b.head) + MoreItems(b.tail) + s
    ensures a == b && r == s
    decreases a, 0
  {
    Assoc(Print(a.head), MoreItems(a.tail), r);
    Assoc(Print(b.head), MoreItems(b.tail), s);
    ItemUnique(a.head, MoreItems(a.tail) + r, b.head, MoreItems(b.tail) + s);
    MoreItemsUnique(a.tail, r, b.tail, s);
  }

  lemma {:induction false} MoreItemsUnique(a: List<Json>, r: text, b: List<Json>, s: text)
    requires PlainItems(a) && PlainItems(b)
    requires MoreItems(a) + r == MoreItems(b) + s
    ensures a == b && r == s
    decreases a, 1
  {
    assert (MoreItems(a) + r)[0] == (if a.Nil? then CLOSE_ARRAY else COMMA);
    assert (MoreItems(b) + s)[0] == (if b.Nil? then CLOSE_ARRAY else COMMA);
    if a.Nil? {
      SameUnit(CLOSE_ARRAY, r, s);
    } else {
      var x, y := Print(a.head) + MoreItems(a.tail), Print(b.head) + MoreItems(b.tail);
      Assoc([COMMA], x, r);
      Assoc([COMMA], y, s);
      SameUnit(COMMA, x + r, y + s);
      ValueThenItems(a, r, b, s);
    }
  }

  function FirstField(fields: List<Field<Json>>): text
    requires fields.Cons?
  {
    Quote(fields.head.key) + ([COLON] + (Print(fields.head.value) + MoreFields(fields.tail)))
  }

  lemma {:induction false} FieldsUnique(a: List<Field<Json>>, r: text, b: List<Field<Json>>, s: text)
    requires PlainFields(a) && PlainFields(b)
    requires PrintFields(a) + r == PrintFields(b) + s
    ensures a == b && r == s
    decreases a, 1
  {
    assert (PrintFields(a) + r)[0] == (if a.Nil? then CLOSE_OBJECT else QUOTE);
    assert (PrintFields(b) + s)[0] == (if b.Nil? then CLOSE_OBJECT else QUOTE);
    if a.Nil? {
      SameUnit(CLOSE_OBJECT, r, s);
    } else {
      FieldThenFields(a, r, b, s);
    }
  }

  lemma {:induction false} FieldThenFields(a: List<Field<Json>>, r: text, b: List<Field<Json>>, s: text)
    requires a.Cons? && b.Cons? && PlainFields(a) && PlainFields(b)
    requires FirstField(a) + r == FirstField(b) + s
    ensures a == b && r == s
    decreases a, 0
  {
    var u, v := Print(a.head.value) + MoreFields(a.tail), Print(b.head.value) + MoreFields(b.tail);
    Assoc(Quote(a.head.key), [COLON] + u, r);
    Assoc(Quote(b.head.key), [COLON] + v, s);
    QuoteUnique(a.head.key, [COLON] + u + r, b.head.key, [COLON] + v + s);
    Assoc([COLON], u, r);
    Assoc([COLON], v, s);
    SameUnit(COLON, u + r, v + s);
    Assoc(Print(a.head.value), MoreFields(a.tail), r);
    Assoc(Print(b.head.value), MoreFields(b.tail), s);
    PrintUnique(a.head.value, MoreFields(a.tail) + r, b.head.value, MoreFields(b.tail) + s);
    MoreFieldsUnique(a.tail, r, b.tail, s);
  }

  lemma {:induction false} MoreFieldsUnique(a: List<Field<Json>>, r: text, b: List<Field<Json>>, s: text)
    requires PlainFields(a) && PlainFields(b)
    requires MoreFields(a) + r == MoreFields(b) + s
    ensures a == b && r == s
    decreases a, 1
  {
    assert (MoreFields(a) + r)[0] == (if a.Nil? then CLOSE_OBJECT else COMMA);
    assert (MoreFields(b) + s)[0] == (if b.Nil? then CLOSE_OBJECT else COMMA);
    if a.Nil? {
      SameUnit(CLOSE_OBJECT, r, s);
    } else {
      Assoc([COMMA], FirstField(a), r);
      Assoc([COMMA], FirstField(b), s);
      SameUnit(COMMA, FirstField(a) + r, FirstField(b) + s);
      FieldThenFields(a, r, b, s);
    }
  }

  // ---- The theorem ----

  /**
   * Two values have the same canonical text exactly when they are equal up to key order and the sign of zero, an array
   * of one hole counting as empty.
   */
  lemma CanonicalIffSame(v: Json, w: Json)
    requires WellFormed(v) && WellFormed(w)
    ensures Canonical(v) == Canonical(w) <==> Same(v, w)
  {
    SameIffNormal(v, w);
    if Canonical(v) == Canonical(w) {
      NormalIsPlain(v);
      NormalIsPlain(w);
      assert Print(Normal(v)) + [] == Canonical(v) && Print(Normal(w)) + [] == Canonical(w);
      PrintUnique(Normal(v), [], Normal(w), []);
    }
  }

  /** The array of one hole is printed like the empty array; no other holes are lost. */
  lemma OneHoleLooksEmpty()
    ensures Canonical(Arr(Cons(Hole, Nil))) == Canonical(Arr(Nil)) && Arr(Cons(Hole, Nil)) != Arr(Nil)
    ensures Canonical(Arr(Cons(Hole, Cons(Hole, Nil)))) != Canonical(Arr(Nil))
  {
    CanonicalIffSame(Arr(Cons(Hole, Cons(Hole, Nil))), Arr(Nil));
  }
}
