/** What an approval does not bind: the state of objects that the printer does not read. */
module CanonicalHidden {
  import opened JsonText
  import opened Json
  import opened CanonicalJson
  import opened CanonicalGraph

  /** A value with everything in it: each object with what is hidden from the printer. */
  datatype Whole =
    | WLeaf(p: Prim)
    | WHole
    | WArr(items: List<Whole>, hidden: text)
    | WObj(fields: List<Field<Whole>>, hidden: text)

  // ---- The visible part ----

  function Visible(x: Whole): Json {
    match x
    case WLeaf(p) => Leaf(p)
    case WHole => Hole
    case WArr(items, _) => Arr(VisibleItems(items))
    case WObj(fields, _) => Obj(VisibleFields(fields))
  }

  function VisibleItems(xs: List<Whole>): List<Json> {
    match xs
    case Nil => Nil
    case Cons(x, rest) => Cons(Visible(x), VisibleItems(rest))
  }

  function VisibleFields(fs: List<Field<Whole>>): List<Field<Json>> {
    match fs
    case Nil => Nil
    case Cons(f, rest) => Cons(Field(f.key, Visible(f.value)), VisibleFields(rest))
  }

  /** Nothing is hidden anywhere in the value. */
  predicate Bare(x: Whole) {
    match x
    case WLeaf(_) => true
    case WHole => true
    case WArr(items, hidden) => hidden == [] && BareItems(items)
    case WObj(fields, hidden) => hidden == [] && BareFields(fields)
  }

  predicate BareItems(xs: List<Whole>) {
    match xs
    case Nil => true
    case Cons(x, rest) => Bare(x) && BareItems(rest)
  }

  predicate BareFields(fs: List<Field<Whole>>) {
    match fs
    case Nil => true
    case Cons(f, rest) => Bare(f.value) && BareFields(rest)
  }

  // ---- The same value, hidden parts included ----

  function WholeDense(items: List<Whole>): List<Whole> {
    if items == Cons(WHole, Nil) then Nil else items
  }

  /** `Same`, and the same hidden part in every object. */
  ghost predicate SameWhole(x: Whole, y: Whole) {
    match (x, y)
    case (WLeaf(a), WLeaf(b)) => SamePrim(a, b)
    case (WHole, WHole) => true
    case (WArr(a, h), WArr(b, k)) => h == k && SameWholeItems(WholeDense(a), WholeDense(b))
    case (WObj(a, h), WObj(b, k)) => h == k && Keys(a) == Keys(b) && SameWholeFields(a, b)
    case _ => false
  }

  ghost predicate SameWholeItems(a: List<Whole>, b: List<Whole>) {
    match (a, b)
    case (Nil, Nil) => true
    case (Cons(x, s), Cons(y, t)) => SameWhole(x, y) && SameWholeItems(s, t)
    case _ => false
  }

  ghost predicate SameWholeFields(a: List<Field<Whole>>, b: List<Field<Whole>>) {
    match a
    case Nil => true
    case Cons(f, rest) => f.key in Keys(b) && SameWhole(f.value, Get(b, f.key)) && SameWholeFields(rest, b)
  }

  lemma {:induction false} VisibleGet(fs: List<Field<Whole>>)
    ensures Keys(VisibleFields(fs)) == Keys(fs)
    ensures forall k :: k in Keys(fs) ==> Get(VisibleFields(fs), k) == Visible(Get(fs, k))
  {
    match fs
    case Nil =>
    case Cons(_, rest) => VisibleGet(rest);
  }

  lemma {:induction false} BareGet(fs: List<Field<Whole>>, k: text)
    requires BareFields(fs) && k in Keys(fs)
    ensures Bare(Get(fs, k))
  {
    if fs.head.key != k {
      BareGet(fs.tail, k);
    }
  }

  lemma VisibleDense(items: List<Whole>)
    ensures VisibleItems(WholeDense(items)) == Dense(VisibleItems(items))
    ensures BareItems(items) ==> BareItems(WholeDense(items))
  {
    if items.Cons? {
      assert Visible(items.head) == Hole <==> items.head == WHole;
    }
  }

  /** Between values that hide nothing, looking the same is being the same. */
  lemma {:induction false} BareSame(x: Whole, y: Whole)
    requires Bare(x) && Bare(y)
    ensures SameWhole(x, y) <==> Same(Visible(x), Visible(y))
    decreases x
  {
    match (x, y)
    case (WArr(a, _), WArr(b, _)) =>
      VisibleDense(a);
      VisibleDense(b);
      BareSameItems(WholeDense(a), WholeDense(b));
    case (WObj(a, _), WObj(b, _)) =>
      VisibleGet(a);
      VisibleGet(b);
      BareSameFields(a, b);
    case _ =>
  }

  lemma {:induction false} BareSameItems(a: List<Whole>, b: List<Whole>)
    requires BareItems(a) && BareItems(b)
    ensures SameWholeItems(a, b) <==> SameItems(VisibleItems(a), VisibleItems(b))
    decreases a
  {
    if a.Cons? && b.Cons? {
      BareSame(a.head, b.head);
      BareSameItems(a.tail, b.tail);
    }
  }

  lemma {:induction false} BareSameFields(a: List<Field<Whole>>, b: List<Field<Whole>>)
    requires BareFields(a) && BareFields(b)
    ensures SameWholeFields(a, b) <==> SameFields(VisibleFields(a), VisibleFields(b))
    decreases a
  {
    VisibleGet(b);
    if a.Cons? {
      if a.head.key in Keys(b) {
        BareGet(b, a.head.key);
        BareSame(a.head.value, Get(b, a.head.key));
      }
      BareSameFields(a.tail, b);
    }
  }

  /** A value that is the same as a bare one hides nothing. */
  lemma {:induction false} SameAsBare(x: Whole, y: Whole)
    requires SameWhole(x, y) && Bare(y)
    ensures Bare(x)
    decreases x
  {
    match (x, y)
    case (WArr(a, _), WArr(b, _)) =>
      VisibleDense(b);
      ItemsAsBare(WholeDense(a), WholeDense(b));
    case (WObj(a, _), WObj(b, _)) => FieldsAsBare(a, b);
    case _ =>
  }

  lemma {:induction false} ItemsAsBare(a: List<Whole>, b: List<Whole>)
    requires SameWholeItems(a, b) && BareItems(b)
    ensures BareItems(a)
    decreases a
  {
    if a.Cons? {
      SameAsBare(a.head, b.head);
      ItemsAsBare(a.tail, b.tail);
    }
  }

  lemma {:induction false} FieldsAsBare(a: List<Field<Whole>>, b: List<Field<Whole>>)
    requires SameWholeFields(a, b) && BareFields(b)
    ensures BareFields(a)
    decreases a
  {
    if a.Cons? {
      BareGet(b, a.head.key);
      SameAsBare(a.head.value, Get(b, a.head.key));
      FieldsAsBare(a.tail, b);
    }
  }

  // ---- The whole of an action in a heap ----

  /** What the value at `v` is, with everything in it, where the printer reads `j` there. */
  ghost function WholeOf(heap: Heap, v: Val, j: Json): (x: Whole)
    requires Unfolds(heap, v, j)
    ensures Visible(x) == j
    decreases j, 0
  {
    match j
    case Leaf(p) => WLeaf(p)
    case Arr(items) => WArr(WholeItems(heap, heap[v.r].items, items), heap[v.r].hidden)
    case Obj(fields) => WObj(WholeFields(heap, heap[v.r].fields, fields), heap[v.r].hidden)
  }

  ghost function WholeItems(heap: Heap, vs: List<Val>, js: List<Json>): (xs: List<Whole>)
    requires UnfoldsItems(heap, vs, js)
    ensures VisibleItems(xs) == js
    decreases js
  {
    match js
    case Nil => Nil
    case Cons(j, rest) =>
      assert UnfoldsItem(heap, vs.head, j);
      Cons(if vs.head == Absent then WHole else WholeOf(heap, vs.head, j), WholeItems(heap, vs.tail, rest))
  }

  ghost function WholeFields(heap: Heap, vs: List<Field<Val>>, js: List<Field<Json>>): (xs: List<Field<Whole>>)
    requires UnfoldsFields(heap, vs, js)
    ensures VisibleFields(xs) == js
    decreases js
  {
    match js
    case Nil => Nil
    case Cons(g, rest) =>
      Cons(Field(g.key, WholeOf(heap, vs.head.value, g.value)), WholeFields(heap, vs.tail, rest))
  }

  /** The heaps differ only in what is hidden. */
  ghost predicate LooksLike(heap: Heap, heap': Heap) {
    heap.Keys == heap'.Keys && forall r :: r in heap ==> heap'[r] == heap[r].(hidden := heap'[r].hidden)
  }

  /** What the printer reads does not depend on what is hidden. */
  lemma {:induction false} UnfoldsAlike(heap: Heap, heap': Heap, v: Val, j: Json)
    requires LooksLike(heap, heap') && Unfolds(heap, v, j)
    ensures Unfolds(heap', v, j)
    decreases j
  {
    match j
    case Arr(items) => UnfoldsItemsAlike(heap, heap', heap[v.r].items, items);
    case Obj(fields) => UnfoldsFieldsAlike(heap, heap', heap[v.r].fields, fields);
    case _ =>
  }

  lemma {:induction false} UnfoldsItemsAlike(heap: Heap, heap': Heap, vs: List<Val>, js: List<Json>)
    requires LooksLike(heap, heap') && UnfoldsItems(heap, vs, js)
    ensures UnfoldsItems(heap', vs, js)
    decreases js
  {
    if js.Cons? {
      if vs.head != Absent {
        UnfoldsAlike(heap, heap', vs.head, js.head);
      }
      UnfoldsItemsAlike(heap, heap', vs.tail, js.tail);
    }
  }

  lemma {:induction false} UnfoldsFieldsAlike(heap: Heap, heap': Heap, vs: List<Field<Val>>, js: List<Field<Json>>)
    requires LooksLike(heap, heap') && UnfoldsFields(heap, vs, js)
    ensures UnfoldsFields(heap', vs, js)
    decreases js
  {
    if js.Cons? {
      UnfoldsAlike(heap, heap', vs.head.value, js.head.value);
      UnfoldsFieldsAlike(heap, heap', vs.tail, js.tail);
    }
  }

  function BareHeap(heap: Heap): Heap {
    map r | r in heap :: heap[r].(hidden := [])
  }

  /** In the bare heap every value is bare. */
  lemma {:induction false} WholeOfBare(heap: Heap, v: Val, j: Json)
    requires Unfolds(BareHeap(heap), v, j)
    ensures Bare(WholeOf(BareHeap(heap), v, j))
    decreases j
  {
    match j
    case Arr(items) => ItemsOfBare(heap, heap[v.r].items, items);
    case Obj(fields) => FieldsOfBare(heap, heap[v.r].fields, fields);
    case _ =>
  }

  lemma {:induction false} ItemsOfBare(heap: Heap, vs: List<Val>, js: List<Json>)
    requires UnfoldsItems(BareHeap(heap), vs, js)
    ensures BareItems(WholeItems(BareHeap(heap), vs, js))
    decreases js
  {
    if js.Cons? {
      if vs.head != Absent {
        WholeOfBare(heap, vs.head, js.head);
      }
      ItemsOfBare(heap, vs.tail, js.tail);
    }
  }

  lemma {:induction false} FieldsOfBare(heap: Heap, vs: List<Field<Val>>, js: List<Field<Json>>)
    requires UnfoldsFields(BareHeap(heap), vs, js)
    ensures BareFields(WholeFields(BareHeap(heap), vs, js))
    decreases js
  {
    if js.Cons? {
      WholeOfBare(heap, vs.head.value, js.head.value);
      FieldsOfBare(heap, vs.tail, js.tail);
    }
  }

  // ---- What an approval binds ----

  /** Another action for which the approval of `j` passes. */
  ghost predicate Passes(hash: text -> text, j: Json, heap: Heap, w: Val) {
    GoodHeap(heap) && GoodVal(w) && ApprovalMatches(hash, hash(Canonical(j)), heap, w)
  }

  /** Heaps that look alike print alike, so the approval passes in both. */
  lemma PassesAlike(hash: text -> text, heap: Heap, v: Val, j: Json, heap': Heap)
    requires GoodHeap(heap) && GoodVal(v) && Unfolds(heap, v, j) && LooksLike(heap, heap')
    ensures Unfolds(heap', v, j) && Passes(hash, j, heap', v)
  {
    UnfoldsAlike(heap, heap', v, j);
    PrintsIffTree(heap', v);
  }

  /** Between actions that hide nothing, the approval of one passes for the other exactly when they are the same. */
  lemma ApprovalBindsBare(hash: text -> text, heap: Heap, v: Val, j: Json, heap': Heap, w: Val, k: Json)
    requires CollisionFree(hash) && GoodHeap(heap) && GoodHeap(heap') && GoodVal(v) && GoodVal(w)
    requires Unfolds(heap, v, j) && Unfolds(heap', w, k)
    requires Bare(WholeOf(heap, v, j)) && Bare(WholeOf(heap', w, k))
    ensures Passes(hash, j, heap', w) <==> SameWhole(WholeOf(heap, v, j), WholeOf(heap', w, k))
  {
    ApprovalMatchesIffSame(hash, heap, v, j, heap', w);
    BareSame(WholeOf(heap, v, j), WholeOf(heap', w, k));
    forall i | Unfolds(heap', w, i)
      ensures i == k
    {
      UnfoldsOnce(heap', w, i, k);
    }
  }

  /** Every action that hides nothing and that the approval passes for is the approved one. */
  ghost predicate BindsWhole(hash: text -> text, heap: Heap, v: Val, j: Json)
    requires Unfolds(heap, v, j)
  {
    forall heap': Heap, w: Val, k: Json ::
      Unfolds(heap', w, k) && Bare(WholeOf(heap', w, k)) && Passes(hash, j, heap', w) ==>
        SameWhole(WholeOf(heap, v, j), WholeOf(heap', w, k))
  }

  /**
   * The exact condition: the approval of an action passes, among actions that hide nothing, for that action alone,
   * exactly when no object of the approved action hides anything.
   */
  lemma ApprovalBindsWholeIffBare(hash: text -> text, heap: Heap, v: Val, j: Json)
    requires CollisionFree(hash) && GoodHeap(heap) && GoodVal(v) && Unfolds(heap, v, j)
    ensures BindsWhole(hash, heap, v, j) <==> Bare(WholeOf(heap, v, j))
  {
    if Bare(WholeOf(heap, v, j)) {
      forall heap': Heap, w: Val, k: Json
        | Unfolds(heap', w, k) && Bare(WholeOf(heap', w, k)) && Passes(hash, j, heap', w)
        ensures SameWhole(WholeOf(heap, v, j), WholeOf(heap', w, k))
      {
        ApprovalBindsBare(hash, heap, v, j, heap', w, k);
      }
    }
    if BindsWhole(hash, heap, v, j) {
      var bare := BareHeap(heap);
      PassesAlike(hash, heap, v, j, bare);
      WholeOfBare(heap, v, j);
      SameAsBare(WholeOf(heap, v, j), WholeOf(bare, v, j));
    }
  }

  /** Whatever the approved object is, the approval passes with any other hidden part in it, which is another value. */
  lemma HiddenPartIsNotBound(hash: text -> text, heap: Heap, r: nat, j: Json, hidden: text)
    requires GoodHeap(heap) && Unfolds(heap, Ref(r), j) && hidden != heap[r].hidden
    ensures var changed := heap[r := heap[r].(hidden := hidden)];
            && Unfolds(changed, Ref(r), j) && Passes(hash, j, changed, Ref(r))
            && !SameWhole(WholeOf(heap, Ref(r), j), WholeOf(changed, Ref(r), j))
  {
    PassesAlike(hash, heap, Ref(r), j, heap[r := heap[r].(hidden := hidden)]);
  }

  // "at"
  const AT: text := [97, 116]

  /** An action with a date in it. */
  function Dated(time: text): Heap {
    map[0 := ObjNode(Cons(Field(AT, Ref(1)), Nil), []), 1 := ObjNode(Nil, time)]
  }

  /** The date of an approved action can be changed: no hole anywhere, another value, and the approval passes. */
  lemma ChangedDatePasses(hash: text -> text, before: text, after: text)
    requires before != after
    ensures var j := Obj(Cons(Field(AT, Obj(Nil)), Nil));
            && Unfolds(Dated(before), Ref(0), j) && Unfolds(Dated(after), Ref(0), j)
            && Passes(hash, j, Dated(after), Ref(0))
            && !SameWhole(WholeOf(Dated(before), Ref(0), j), WholeOf(Dated(after), Ref(0), j))
  {
    var inner := Cons(Field(AT, Obj(Nil)), Nil);
    var j := Obj(inner);
    var x, y := Dated(before), Dated(after);
    assert forall heap: Heap :: UnfoldsFields(heap, Nil, Nil);
    assert Unfolds(x, Ref(1), Obj(Nil)) && UnfoldsFields(x, x[0].fields, inner);
    PassesAlike(hash, x, Ref(0), j, y);
    var a, b := WholeOf(x, Ref(0), j), WholeOf(y, Ref(0), j);
    assert a.fields.head.value == WObj(Nil, before) && Get(b.fields, AT) == WObj(Nil, after);
    assert !SameWholeFields(a.fields, b.fields);
  }
}
