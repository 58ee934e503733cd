/** JSON values, their order-insensitive equality, and their canonical text. */
module Json {
  import opened JsonText

  datatype List<T> = Nil | Cons(head: T, tail: List<T>)

  datatype Field<T> = Field(key: text, value: T)

  datatype Prim =
    | Null
    | Bool(b: bool)
    | Number(negative: bool, digits: text, point: int)
    | Text(t: text)

  /** A value; a hole is the place of an array item that is not there. */
  datatype Json =
    | Leaf(p: Prim)
    | Hole
    | Arr(items: List<Json>)
    | Obj(fields: List<Field<Json>>)

  // ---- Keys ----

  /** The order of Array.prototype.sort on strings: by code unit. */
  predicate Less(a: text, b: text) {
    b != [] && (a == [] || a[0] < b[0] || (a[0] == b[0] && Less(a[1..], b[1..])))
  }

  lemma {:induction false} LessTotal(a: text, b: text)
    ensures a == b || Less(a, b) || Less(b, a)
    ensures !(Less(a, b) && Less(b, a)) && (a == b ==> !Less(a, b))
  {
    if a != [] && b != [] {
      LessTotal(a[1..], b[1..]);
      assert a == [a[0]] + a[1..] && b == [b[0]] + b[1..];
    }
  }

  lemma {:induction false} LessTransitive(a: text, b: text, c: text)
    requires Less(a, b) && Less(b, c)
    ensures Less(a, c)
  {
    if a != [] && a[0] == b[0] == c[0] {
      LessTransitive(a[1..], b[1..], c[1..]);
    }
  }

  function Keys<T>(fs: List<Field<T>>): set<text> {
    match fs
    case Nil => {}
    case Cons(f, rest) => {f.key} + Keys(rest)
  }

  function Get<T>(fs: List<Field<T>>, k: text): T
    requires k in Keys(fs)
  {
    if fs.head.key == k then fs.head.value else Get(fs.tail, k)
  }

  /** No key appears twice. */
  predicate Distinct<T>(fs: List<Field<T>>) {
    match fs
    case Nil => true
    case Cons(f, rest) => f.key !in Keys(rest) && Distinct(rest)
  }

  /** Keys in increasing order. */
  predicate Sorted<T>(fs: List<Field<T>>) {
    match fs
    case Nil => true
    case Cons(f, rest) => (rest.Cons? ==> Less(f.key, rest.head.key)) && Sorted(rest)
  }

  function Insert<T>(f: Field<T>, fs: List<Field<T>>): List<Field<T>> {
    match fs
    case Nil => Cons(f, Nil)
    case Cons(g, rest) => if Less(f.key, g.key) then Cons(f, fs) else Cons(g, Insert(f, rest))
  }

  function Sort<T>(fs: List<Field<T>>): List<Field<T>> {
    match fs
    case Nil => Nil
    case Cons(f, rest) => Insert(f, Sort(rest))
  }

  lemma {:induction false} InsertSorts<T>(f: Field<T>, fs: List<Field<T>>)
    requires Sorted(fs) && f.key !in Keys(fs)
    ensures Sorted(Insert(f, fs)) && Keys(Insert(f, fs)) == Keys(fs) + {f.key}
    ensures forall k :: k in Keys(fs) ==> Get(Insert(f, fs), k) == Get(fs, k)
    ensures Get(Insert(f, fs), f.key) == f.value
  {
    match fs
    case Nil =>
    case Cons(g, rest) =>
      LessTotal(f.key, g.key);
      if !Less(f.key, g.key) {
        InsertSorts(f, rest);
      }
  }

  /** Sorting keeps every key with its value. */
  lemma {:induction false} SortSorts<T>(fs: List<Field<T>>)
    requires Distinct(fs)
    ensures Sorted(Sort(fs)) && Keys(Sort(fs)) == Keys(fs)
    ensures forall k :: k in Keys(fs) ==> Get(Sort(fs), k) == Get(fs, k)
  {
    match fs
    case Nil =>
    case Cons(f, rest) =>
      SortSorts(rest);
      InsertSorts(f, Sort(rest));
  }

  lemma {:induction false} SortedHeadIsLeast<T>(fs: List<Field<T>>, k: text)
    requires fs.Cons? && Sorted(fs) && k in Keys(fs.tail)
    ensures Less(fs.head.key, k)
  {
    var rest := fs.tail;
    if rest.head.key != k {
      SortedHeadIsLeast(rest, k);
      LessTransitive(fs.head.key, rest.head.key, k);
    }
  }

  lemma SortedHeadOnce<T>(fs: List<Field<T>>)
    requires fs.Cons? && Sorted(fs)
    ensures fs.head.key !in Keys(fs.tail)
  {
    if fs.head.key in Keys(fs.tail) {
      SortedHeadIsLeast(fs, fs.head.key);
      LessTotal(fs.head.key, fs.head.key);
    }
  }

  /** A sorted list is determined by its keys and their values. */
  lemma {:induction false} SortedUnique<T>(a: List<Field<T>>, b: List<Field<T>>)
    requires Sorted(a) && Sorted(b) && Keys(a) == Keys(b)
    requires forall k :: k in Keys(a) ==> Get(a, k) == Get(b, k)
    ensures a == b
  {
    assert a.Cons? ==> a.head.key in Keys(a);
    assert b.Cons? ==> b.head.key in Keys(b);
    if a.Cons? && b.Cons? {
      SameHead(a, b);
      SortedHeadOnce(a);
      SortedHeadOnce(b);
      assert Get(a, a.head.key) == Get(b, a.head.key);
      assert Keys(a.tail) == Keys(a) - {a.head.key} && Keys(b.tail) == Keys(b) - {a.head.key};
      forall k | k in Keys(a.tail)
        ensures Get(a.tail, k) == Get(b.tail, k)
      {
        assert Get(a, k) == Get(b, k);
      }
      SortedUnique(a.tail, b.tail);
    }
  }

  lemma SameHead<T>(a: List<Field<T>>, b: List<Field<T>>)
    requires a.Cons? && b.Cons? && Sorted(a) && Sorted(b) && Keys(a) == Keys(b)
    ensures a.head.key == b.head.key
  {
    if a.head.key != b.head.key {
      assert a.head.key in Keys(b) && b.head.key in Keys(a);
      SortedHeadIsLeast(a, b.head.key);
      SortedHeadIsLeast(b, a.head.key);
      LessTotal(a.head.key, b.head.key);
    }
  }

  // ---- Values ----

  ghost predicate WellFormedPrim(p: Prim) {
    p.Number? ==> IsShortest(p.digits, p.point)
  }

  ghost predicate WellFormed(v: Json) {
    match v
    case Leaf(p) => WellFormedPrim(p)
    case Hole => false
    case Arr(items) => WellFormedItems(items)
    case Obj(fields) => Distinct(fields) && WellFormedFields(fields)
  }

  ghost predicate WellFormedItems(items: List<Json>) {
    match items
    case Nil => true
    case Cons(v, rest) => (v == Hole || WellFormed(v)) && WellFormedItems(rest)
  }

  ghost predicate WellFormedFields(fields: List<Field<Json>>) {
    match fields
    case Nil => true
    case Cons(f, rest) => WellFormed(f.value) && WellFormedFields(rest)
  }

  /** Equal primitives; minus zero equals zero. */
  predicate SamePrim(a: Prim, b: Prim) {
    if a.Number? && b.Number? then
      a.digits == b.digits && a.point == b.point && (a.digits == [] || a.negative == b.negative)
    else a == b
  }

  /** An array of one hole counts as empty. */
  function Dense(items: List<Json>): List<Json> {
    if items == Cons(Hole, Nil) then Nil else items
  }

  /** Equal values, whatever the order of object keys, an array of one hole counting as empty. */
  ghost predicate Same(v: Json, w: Json) {
    match (v, w)
    case (Leaf(a), Leaf(b)) => SamePrim(a, b)
    case (Hole, Hole) => true
    case (Arr(a), Arr(b)) => SameItems(Dense(a), Dense(b))
    case (Obj(a), Obj(b)) => Keys(a) == Keys(b) && SameFields(a, b)
    case _ => false
  }

  ghost predicate SameItems(a: List<Json>, b: List<Json>) {
    match (a, b)
    case (Nil, Nil) => true
    case (Cons(v, s), Cons(w, t)) => Same(v, w) && SameItems(s, t)
    case _ => false
  }

  /** Every field of `a` has an equal one under its key in `b`. */
  ghost predicate SameFields(a: List<Field<Json>>, b: List<Field<Json>>) {
    match a
    case Nil => true
    case Cons(f, rest) => f.key in Keys(b) && Same(f.value, Get(b, f.key)) && SameFields(rest, b)
  }

  // ---- The sorted form ----

  function NormalPrim(p: Prim): Prim {
    if p.Number? && p.digits == [] then p.(negative := false) else p
  }

  /** Every object's fields in key order, minus zero as zero, an array of one hole as empty. */
  function Normal(v: Json): Json {
    match v
    case Leaf(p) => Leaf(NormalPrim(p))
    case Hole => Hole
    case Arr(items) => Arr(Dense(NormalItems(items)))
    case Obj(fields) => Obj(Sort(NormalFields(fields)))
  }

  function NormalItems(items: List<Json>): List<Json> {
    match items
    case Nil => Nil
    case Cons(v, rest) => Cons(Normal(v), NormalItems(rest))
  }

  function NormalFields(fields: List<Field<Json>>): List<Field<Json>> {
    match fields
    case Nil => Nil
    case Cons(f, rest) => Cons(Field(f.key, Normal(f.value)), NormalFields(rest))
  }

  lemma {:induction false} NormalFieldsGet(fields: List<Field<Json>>)
    ensures Keys(NormalFields(fields)) == Keys(fields)
    ensures Distinct(fields) ==> Distinct(NormalFields(fields))
    ensures forall k :: k in Keys(fields) ==> Get(NormalFields(fields), k) == Normal(Get(fields, k))
  {
    match fields
    case Nil =>
    case Cons(_, rest) => NormalFieldsGet(rest);
  }

  lemma {:induction false} WellFormedGet(fields: List<Field<Json>>, k: text)
    requires WellFormedFields(fields) && k in Keys(fields)
    ensures WellFormed(Get(fields, k))
  {
    if fields.head.key != k {
      WellFormedGet(fields.tail, k);
    }
  }

  /** What the sorted fields hold under a key. */
  lemma SortedFieldsGet(fields: List<Field<Json>>)
    requires Distinct(fields)
    ensures var s := Sort(NormalFields(fields));
            && Sorted(s) && Keys(s) == Keys(fields)
            && forall k :: k in Keys(fields) ==> Get(s, k) == Normal(Get(fields, k))
  {
    NormalFieldsGet(fields);
    SortSorts(NormalFields(fields));
  }

  /** Values are the same exactly when their sorted forms are equal. */
  lemma {:induction false} SameIffNormal(v: Json, w: Json)
    requires (v == Hole || WellFormed(v)) && (w == Hole || WellFormed(w))
    ensures Same(v, w) <==> Normal(v) == Normal(w)
    decreases v
  {
    match (v, w)
    case (Arr(a), Arr(b)) =>
      DenseNormal(a);
      DenseNormal(b);
      SameItemsIffNormal(Dense(a), Dense(b));
    case (Obj(a), Obj(b)) => SameFieldsIffNormal(a, b);
    case _ =>
  }

  lemma DenseNormal(items: List<Json>)
    ensures Dense(NormalItems(items)) == NormalItems(Dense(items))
  {
    if items.Cons? {
      assert Normal(items.head) == Hole <==> items.head == Hole;
    }
  }

  lemma {:induction false} SameItemsIffNormal(a: List<Json>, b: List<Json>)
    requires WellFormedItems(a) && WellFormedItems(b)
    ensures SameItems(a, b) <==> NormalItems(a) == NormalItems(b)
    decreases a, 0
  {
    if a.Cons? && b.Cons? {
      SameIffNormal(a.head, b.head);
      SameItemsIffNormal(a.tail, b.tail);
    }
  }

  lemma {:induction false} SameFieldsIffNormal(a: List<Field<Json>>, b: List<Field<Json>>)
    requires Distinct(a) && WellFormedFields(a) && Distinct(b) && WellFormedFields(b)
    ensures (Keys(a) == Keys(b) && SameFields(a, b)) <==> Sort(NormalFields(a)) == Sort(NormalFields(b))
    decreases a, 1
  {
    SortedFieldsGet(a);
    SortedFieldsGet(b);
    if Keys(a) == Keys(b) {
      SameFieldsPointwise(a, b);
      if Sort(NormalFields(a)) == Sort(NormalFields(b)) {
        forall k | k in Keys(a)
          ensures Normal(Get(a, k)) == Normal(Get(b, k))
        {
          assert Get(Sort(NormalFields(a)), k) == Normal(Get(a, k));
        }
      } else if SameFields(a, b) {
        SortedUnique(Sort(NormalFields(a)), Sort(NormalFields(b)));
      }
    }
  }

  /** The fields agree exactly when, key by key, the sorted forms do. */
  lemma {:induction false} SameFieldsPointwise(a: List<Field<Json>>, b: List<Field<Json>>)
    requires Distinct(a) && WellFormedFields(a) && WellFormedFields(b) && Keys(a) <= Keys(b)
    ensures SameFields(a, b) <==> forall k :: k in Keys(a) ==> Normal(Get(a, k)) == Normal(Get(b, k))
    decreases a, 0
  {
    if a.Cons? {
      var k := a.head.key;
      WellFormedGet(b, k);
      SameIffNormal(a.head.value, Get(b, k));
      SameFieldsPointwise(a.tail, b);
      assert Get(a, k) == a.head.value;
      assert forall j :: j in Keys(a.tail) ==> Get(a, j) == Get(a.tail, j);
      assert Keys(a) == {k} + Keys(a.tail);
    }
  }

  // ---- Printing ----

  function Word(s: string): (t: text)
    requires forall i :: 0 <= i < |s| ==> s[i] as int < 65536
    ensures |t| == |s| && forall i :: 0 <= i < |s| ==> t[i] == s[i] as int
  {
    seq(|s|, i requires 0 <= i < |s| => s[i] as int)
  }

  const OPEN_ARRAY: unit := 91
  const CLOSE_ARRAY: unit := 93
  const OPEN_OBJECT: unit := 123
  const CLOSE_OBJECT: unit := 125

  function PrintPrim(p: Prim): text {
    match p
    case Null => Word("null")
    case Bool(b) => if b then Word("true") else Word("false")
    case Number(negative, digits, point) => NumberText(negative, digits, point)
    case Text(t) => Quote(t)
  }

  /** The value as it stands, fields in their own order. */
  function Print(v: Json): text {
    match v
    case Leaf(p) => PrintPrim(p)
    case Hole => []
    case Arr(items) => [OPEN_ARRAY] + PrintItems(items)
    case Obj(fields) => [OPEN_OBJECT] + PrintFields(fields)
  }

  function PrintItems(items: List<Json>): text {
    match items
    case Nil => [CLOSE_ARRAY]
    case Cons(v, rest) => Print(v) + MoreItems(rest)
  }

  function MoreItems(items: List<Json>): text {
    match items
    case Nil => [CLOSE_ARRAY]
    case Cons(v, rest) => [COMMA] + (Print(v) + MoreItems(rest))
  }

  function PrintFields(fields: List<Field<Json>>): text {
    match fields
    case Nil => [CLOSE_OBJECT]
    case Cons(f, rest) => Quote(f.key) + ([COLON] + (Print(f.value) + MoreFields(rest)))
  }

  function MoreFields(fields: List<Field<Json>>): text {
    match fields
    case Nil => [CLOSE_OBJECT]
    case Cons(f, rest) => [COMMA] + (Quote(f.key) + ([COLON] + (Print(f.value) + MoreFields(rest))))
  }

  function Canonical(v: Json): text {
    Print(Normal(v))
  }
}
