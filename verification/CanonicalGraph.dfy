/** `canonicalJson` on an object graph: the `seen` set refuses exactly the graphs with no finite tree. */
module CanonicalGraph {
  import opened Common
  import opened JsonText
  import opened Json
  import CanonicalJson
  import JsonReader

  /** A value: a primitive, a reference, or something JSON has no form for; or no value, at a hole of an array. */
  datatype Val = Plain(p: Prim) | Ref(r: nat) | NotJson | Absent

  /**
   * An object: what the printer reads of it, and the state it does not read, such as the time of a Date, the entries
   * of a Map, keys that are symbols or not enumerable, and the named properties of an array.
   */
  datatype Node = ArrNode(items: List<Val>, hidden: text) | ObjNode(fields: List<Field<Val>>, hidden: text)

  type Heap = map<nat, Node>

  function Length<T>(l: List<T>): nat {
    match l
    case Nil => 0
    case Cons(_, rest) => 1 + Length(rest)
  }

  function Join(parts: seq<text>): text {
    if parts == [] then [] else if |parts| == 1 then parts[0] else parts[0] + [COMMA] + Join(parts[1..])
  }

  /** The text of a value, or nothing where the source throws. */
  function PrintVal(heap: Heap, v: Val, seen: set<nat>): Option<text>
    decreases Remaining(heap.Keys, seen), 0, 0
  {
    match v
    case Plain(p) => Some(PrintPrim(NormalPrim(p)))
    case NotJson => None
    case Absent => None
    case Ref(r) =>
      if r !in heap || r in seen then None else
        RemainingShrinks(heap.Keys, seen, r);
        match heap[r]
        case ArrNode(items, _) =>
          var parts := ItemTexts(heap, items, seen + {r});
          if parts.Some? then Some([OPEN_ARRAY] + Join(parts.value) + [CLOSE_ARRAY]) else None
        case ObjNode(fields, _) =>
          var parts := FieldTexts(heap, Sort(fields), seen + {r});
          if parts.Some? then Some([OPEN_OBJECT] + Join(parts.value) + [CLOSE_OBJECT]) else None
  }

  /** A hole is skipped by `map` and printed as nothing by `join`. */
  function ItemText(heap: Heap, v: Val, seen: set<nat>): Option<text>
    decreases Remaining(heap.Keys, seen), 0, 1
  {
    if v == Absent then Some([]) else PrintVal(heap, v, seen)
  }

  function ItemTexts(heap: Heap, items: List<Val>, seen: set<nat>): Option<seq<text>>
    decreases Remaining(heap.Keys, seen), 1 + Length(items)
  {
    match items
    case Nil => Some([])
    case Cons(v, rest) =>
      var t, ts := ItemText(heap, v, seen), ItemTexts(heap, rest, seen);
      if t.Some? && ts.Some? then Some([t.value] + ts.value) else None
  }

  function FieldTexts(heap: Heap, fields: List<Field<Val>>, seen: set<nat>): Option<seq<text>>
    decreases Remaining(heap.Keys, seen), 1 + Length(fields)
  {
    match fields
    case Nil => Some([])
    case Cons(f, rest) =>
      var t, ts := PrintVal(heap, f.value, seen), FieldTexts(heap, rest, seen);
      if t.Some? && ts.Some? then Some([Quote(f.key) + [COLON] + t.value] + ts.value) else None
  }

  // ---- The source's own steps ----

  class Canonicalizer {
    const heap: Heap
    var seen: set<nat>

    constructor (heap: Heap)
      ensures this.heap == heap && seen == {}
    {
      this.heap := heap;
      seen := {};
    }

    /** Marks the object while it is being printed, and unmarks it on every way out. */
    method Canonical(v: Val) returns (r: Option<text>)
      modifies this
      ensures seen == old(seen)
      ensures r == PrintVal(heap, v, seen)
      decreases Remaining(heap.Keys, seen), 0
    {
      match v
      case Plain(p) => return Some(PrintPrim(NormalPrim(p)));
      case NotJson => return None;
      case Absent => return None;
      case Ref(o) =>
        if o !in heap || o in seen {
          return None;
        }
        RemainingShrinks(heap.Keys, seen, o);
        seen := seen + {o};
        match heap[o] {
          case ArrNode(items, _) =>
            var parts := Items(items);
            r := if parts.Some? then Some([OPEN_ARRAY] + Join(parts.value) + [CLOSE_ARRAY]) else None;
          case ObjNode(fields, _) =>
            var parts := Fields(Sort(fields));
            r := if parts.Some? then Some([OPEN_OBJECT] + Join(parts.value) + [CLOSE_OBJECT]) else None;
        }
        seen := seen - {o};
        assert seen == old(seen);
    }

    method Items(items: List<Val>) returns (r: Option<seq<text>>)
      modifies this
      ensures seen == old(seen)
      ensures r == ItemTexts(heap, items, seen)
      decreases Remaining(heap.Keys, seen), 1
    {
      var rest := items;
      var parts: seq<text> := [];
      ghost var whole := ItemTexts(heap, items, seen);
      assert whole.Some? ==> [] + whole.value == whole.value;
      while rest.Cons?
        invariant seen == old(seen)
        invariant Following(parts, ItemTexts(heap, rest, seen)) == whole
        decreases rest
      {
        var t: Option<text> := Some([]);
        if rest.head != Absent {
          t := Canonical(rest.head);
        }
        if t.None? {
          return None;
        }
        FollowingOne(parts, t.value, ItemTexts(heap, rest.tail, seen));
        parts := parts + [t.value];
        rest := rest.tail;
      }
      assert parts + [] == parts;
      return Some(parts);
    }

    method Fields(fields: List<Field<Val>>) returns (r: Option<seq<text>>)
      modifies this
      ensures seen == old(seen)
      ensures r == FieldTexts(heap, fields, seen)
      decreases Remaining(heap.Keys, seen), 1
    {
      var rest := fields;
      var parts: seq<text> := [];
      ghost var whole := FieldTexts(heap, fields, seen);
      assert whole.Some? ==> [] + whole.value == whole.value;
      while rest.Cons?
        invariant seen == old(seen)
        invariant Following(parts, FieldTexts(heap, rest, seen)) == whole
        decreases rest
      {
        var t := Canonical(rest.head.value);
        if t.None? {
          return None;
        }
        var part := Quote(rest.head.key) + [COLON] + t.value;
        FollowingOne(parts, part, FieldTexts(heap, rest.tail, seen));
        parts := parts + [part];
        rest := rest.tail;
      }
      assert parts + [] == parts;
      return Some(parts);
    }
  }

  // ---- The tree a value stands for ----

  ghost predicate Unfolds(heap: Heap, v: Val, j: Json)
    decreases j, 0
  {
    match (v, j)
    case (Plain(p), Leaf(q)) => p == q
    case (Ref(r), Arr(items)) => r in heap && heap[r].ArrNode? && UnfoldsItems(heap, heap[r].items, items)
    case (Ref(r), Obj(fields)) => r in heap && heap[r].ObjNode? && UnfoldsFields(heap, heap[r].fields, fields)
    case _ => false
  }

  ghost predicate UnfoldsItems(heap: Heap, vs: List<Val>, js: List<Json>)
    decreases js
  {
    match (vs, js)
    case (Nil, Nil) => true
    case (Cons(v, x), Cons(j, y)) => UnfoldsItem(heap, v, j) && UnfoldsItems(heap, x, y)
    case _ => false
  }

  ghost predicate UnfoldsItem(heap: Heap, v: Val, j: Json)
    decreases j, 1
  {
    if v == Absent then j == Hole else Unfolds(heap, v, j)
  }

  ghost predicate UnfoldsFields(heap: Heap, vs: List<Field<Val>>, js: List<Field<Json>>)
    decreases js
  {
    match (vs, js)
    case (Nil, Nil) => true
    case (Cons(f, x), Cons(g, y)) => f.key == g.key && Unfolds(heap, f.value, g.value) && UnfoldsFields(heap, x, y)
    case _ => false
  }

  /** A value stands for one tree at most. */
  lemma {:induction false} UnfoldsOnce(heap: Heap, v: Val, j: Json, k: Json)
    requires Unfolds(heap, v, j) && Unfolds(heap, v, k)
    ensures j == k
    decreases j
  {
    match j
    case Leaf(_) =>
    case Arr(items) => UnfoldsItemsOnce(heap, heap[v.r].items, items, k.items);
    case Obj(fields) => UnfoldsFieldsOnce(heap, heap[v.r].fields, fields, k.fields);
  }

  lemma {:induction false} UnfoldsItemsOnce(heap: Heap, vs: List<Val>, js: List<Json>, ks: List<Json>)
    requires UnfoldsItems(heap, vs, js) && UnfoldsItems(heap, vs, ks)
    ensures js == ks
    decreases js
  {
    if js.Cons? {
      if vs.head != Absent {
        UnfoldsOnce(heap, vs.head, js.head, ks.head);
      }
      UnfoldsItemsOnce(heap, vs.tail, js.tail, ks.tail);
    }
  }

  lemma {:induction false} UnfoldsFieldsOnce(
    heap: Heap, vs: List<Field<Val>>, js: List<Field<Json>>, ks: List<Field<Json>>)
    requires UnfoldsFields(heap, vs, js) && UnfoldsFields(heap, vs, ks)
    ensures js == ks
    decreases js
  {
    if js.Cons? {
      UnfoldsOnce(heap, vs.head.value, js.head.value, ks.head.value);
      UnfoldsFieldsOnce(heap, vs.tail, js.tail, ks.tail);
    }
  }

  // ---- Whether it prints does not depend on the order of fields ----

  lemma {:induction false} InsertPrints(heap: Heap, f: Field<Val>, fields: List<Field<Val>>, seen: set<nat>)
    ensures FieldTexts(heap, Insert(f, fields), seen).Some?
       <==> PrintVal(heap, f.value, seen).Some? && FieldTexts(heap, fields, seen).Some?
    decreases fields
  {
    if fields.Cons? && !Less(f.key, fields.head.key) {
      InsertPrints(heap, f, fields.tail, seen);
    }
  }

  lemma {:induction false} SortPrints(heap: Heap, fields: List<Field<Val>>, seen: set<nat>)
    ensures FieldTexts(heap, Sort(fields), seen).Some? <==> FieldTexts(heap, fields, seen).Some?
    decreases fields
  {
    if fields.Cons? {
      SortPrints(heap, fields.tail, seen);
      InsertPrints(heap, fields.head, Sort(fields.tail), seen);
    }
  }

  // ---- What prints has a tree ----

  lemma {:induction false} PrintsHasTree(heap: Heap, v: Val, seen: set<nat>) returns (j: Json)
    requires PrintVal(heap, v, seen).Some?
    ensures Unfolds(heap, v, j)
    decreases Remaining(heap.Keys, seen), 0
  {
    match v
    case Plain(p) => j := Leaf(p);
    case Ref(r) =>
      RemainingShrinks(heap.Keys, seen, r);
      match heap[r]
      case ArrNode(items, _) =>
        var js := ItemsHaveTrees(heap, items, seen + {r});
        j := Arr(js);
      case ObjNode(fields, _) =>
        SortPrints(heap, fields, seen + {r});
        var js := FieldsHaveTrees(heap, fields, seen + {r});
        j := Obj(js);
  }

  lemma {:induction false} ItemsHaveTrees(heap: Heap, items: List<Val>, seen: set<nat>) returns (js: List<Json>)
    requires ItemTexts(heap, items, seen).Some?
    ensures UnfoldsItems(heap, items, js)
    decreases Remaining(heap.Keys, seen), 1 + Length(items)
  {
    if items.Nil? {
      js := Nil;
    } else {
      var j := Hole;
      if items.head != Absent {
        j := PrintsHasTree(heap, items.head, seen);
      }
      var rest := ItemsHaveTrees(heap, items.tail, seen);
      js := Cons(j, rest);
    }
  }

  lemma {:induction false} FieldsHaveTrees(heap: Heap, fields: List<Field<Val>>, seen: set<nat>)
    returns (js: List<Field<Json>>)
    requires FieldTexts(heap, fields, seen).Some?
    ensures UnfoldsFields(heap, fields, js)
    decreases Remaining(heap.Keys, seen), 1 + Length(fields)
  {
    if fields.Nil? {
      js := Nil;
    } else {
      var j := PrintsHasTree(heap, fields.head.value, seen);
      var rest := FieldsHaveTrees(heap, fields.tail, seen);
      js := Cons(Field(fields.head.key, j), rest);
    }
  }

  // ---- What has a tree prints ----

  function Size(j: Json): nat {
    match j
    case Leaf(_) => 1
    case Hole => 1
    case Arr(items) => 1 + ItemsSize(items)
    case Obj(fields) => 1 + FieldsSize(fields)
  }

  function ItemsSize(items: List<Json>): nat {
    match items
    case Nil => 0
    case Cons(v, rest) => Size(v) + ItemsSize(rest)
  }

  function FieldsSize(fields: List<Field<Json>>): nat {
    match fields
    case Nil => 0
    case Cons(f, rest) => Size(f.value) + FieldsSize(rest)
  }

  /** The objects being printed, each with its tree, all larger than `size`: they are the ancestors. */
  ghost predicate Ancestors(heap: Heap, trees: map<nat, Json>, size: nat) {
    forall r :: r in trees ==> Unfolds(heap, Ref(r), trees[r]) && size < Size(trees[r])
  }

  lemma {:induction false} TreePrints(heap: Heap, v: Val, j: Json, trees: map<nat, Json>)
    requires Unfolds(heap, v, j) && Ancestors(heap, trees, Size(j))
    ensures PrintVal(heap, v, trees.Keys).Some?
    decreases j
  {
    if v.Ref? {
      if v.r in trees {
        UnfoldsOnce(heap, v, j, trees[v.r]);
      }
      var more := trees[v.r := j];
      assert more.Keys == trees.Keys + {v.r};
      match j
      case Arr(items) => ItemTreesPrint(heap, heap[v.r].items, items, more);
      case Obj(fields) =>
        FieldTreesPrint(heap, heap[v.r].fields, fields, more);
        SortPrints(heap, heap[v.r].fields, more.Keys);
    }
  }

  lemma {:induction false} ItemTreesPrint(heap: Heap, vs: List<Val>, js: List<Json>, trees: map<nat, Json>)
    requires UnfoldsItems(heap, vs, js) && Ancestors(heap, trees, ItemsSize(js))
    ensures ItemTexts(heap, vs, trees.Keys).Some?
    decreases js
  {
    if js.Cons? {
      if vs.head != Absent {
        TreePrints(heap, vs.head, js.head, trees);
      }
      ItemTreesPrint(heap, vs.tail, js.tail, trees);
    }
  }

  lemma {:induction false} FieldTreesPrint(
    heap: Heap, vs: List<Field<Val>>, js: List<Field<Json>>, trees: map<nat, Json>)
    requires UnfoldsFields(heap, vs, js) && Ancestors(heap, trees, FieldsSize(js))
    ensures FieldTexts(heap, vs, trees.Keys).Some?
    decreases js
  {
    if js.Cons? {
      TreePrints(heap, vs.head.value, js.head.value, trees);
      FieldTreesPrint(heap, vs.tail, js.tail, trees);
    }
  }

  // ---- What is printed is the tree's canonical text ----

  lemma {:induction false} InsertParallel(
    heap: Heap, f: Field<Val>, vs: List<Field<Val>>, g: Field<Json>, js: List<Field<Json>>)
    requires f.key == g.key && Unfolds(heap, f.value, g.value) && UnfoldsFields(heap, vs, js)
    ensures UnfoldsFields(heap, Insert(f, vs), Insert(g, js))
    decreases vs
  {
    if vs.Cons? && !Less(f.key, vs.head.key) {
      InsertParallel(heap, f, vs.tail, g, js.tail);
    }
  }

  lemma {:induction false} SortParallel(heap: Heap, vs: List<Field<Val>>, js: List<Field<Json>>)
    requires UnfoldsFields(heap, vs, js)
    ensures UnfoldsFields(heap, Sort(vs), Sort(js))
    decreases vs
  {
    if vs.Cons? {
      SortParallel(heap, vs.tail, js.tail);
      InsertParallel(heap, vs.head, Sort(vs.tail), js.head, Sort(js.tail));
    }
  }

  lemma {:induction false} InsertNormal(f: Field<Json>, fields: List<Field<Json>>)
    ensures NormalFields(Insert(f, fields)) == Insert(Field(f.key, Normal(f.value)), NormalFields(fields))
  {
    if fields.Cons? && !Less(f.key, fields.head.key) {
      InsertNormal(f, fields.tail);
    }
  }

  lemma {:induction false} SortNormal(fields: List<Field<Json>>)
    ensures NormalFields(Sort(fields)) == Sort(NormalFields(fields))
  {
    if fields.Cons? {
      SortNormal(fields.tail);
      InsertNormal(fields.head, Sort(fields.tail));
    }
  }

  function TreeTexts(items: List<Json>): seq<text> {
    match items
    case Nil => []
    case Cons(v, rest) => [Print(v)] + TreeTexts(rest)
  }

  function TreeFieldTexts(fields: List<Field<Json>>): seq<text> {
    match fields
    case Nil => []
    case Cons(f, rest) => [Quote(f.key) + [COLON] + Print(f.value)] + TreeFieldTexts(rest)
  }

  lemma {:induction false} JoinItems(items: List<Json>)
    ensures PrintItems(items) == Join(TreeTexts(items)) + [CLOSE_ARRAY]
    ensures items.Cons? ==> MoreItems(items) == [COMMA] + (Join(TreeTexts(items)) + [CLOSE_ARRAY])
    decreases items
  {
    if items.Cons? {
      JoinItems(items.tail);
      assert TreeTexts(items) == [Print(items.head)] + TreeTexts(items.tail);
      JoinOne(Print(items.head), TreeTexts(items.tail), MoreItems(items.tail), CLOSE_ARRAY);
    }
  }

  /** One hole is joined like nothing at all. */
  lemma JoinDense(items: List<Json>)
    ensures Join(TreeTexts(items)) == Join(TreeTexts(Dense(items)))
  {
    if items == Cons(Hole, Nil) {
      assert TreeTexts(items) == [[]];
    }
  }

  lemma {:induction false} JoinFields(fields: List<Field<Json>>)
    ensures PrintFields(fields) == Join(TreeFieldTexts(fields)) + [CLOSE_OBJECT]
    ensures fields.Cons? ==> MoreFields(fields) == [COMMA] + (Join(TreeFieldTexts(fields)) + [CLOSE_OBJECT])
    decreases fields
  {
    if fields.Cons? {
      JoinFields(fields.tail);
      var q, p, more := Quote(fields.head.key), Print(fields.head.value), MoreFields(fields.tail);
      var one := q + [COLON] + p;
      assert TreeFieldTexts(fields) == [one] + TreeFieldTexts(fields.tail);
      FieldAssoc(q, p, more);
      JoinOne(one, TreeFieldTexts(fields.tail), more, CLOSE_OBJECT);
    }
  }

  lemma FieldAssoc(q: text, p: text, more: text)
    ensures q + ([COLON] + (p + more)) == q + [COLON] + p + more
  {
  }

  /** A first part, then the closing bracket or a comma and the others. */
  lemma JoinOne(one: text, rest: seq<text>, more: text, close: unit)
    requires more == if rest == [] then [close] else [COMMA] + (Join(rest) + [close])
    ensures one + more == Join([one] + rest) + [close]
  {
    if rest == [] {
      assert [one] + rest == [one];
    } else {
      assert ([one] + rest)[1..] == rest;
      assert one + ([COMMA] + (Join(rest) + [close])) == one + [COMMA] + Join(rest) + [close];
    }
  }

  lemma {:induction false} PrintsItsTree(heap: Heap, v: Val, j: Json, seen: set<nat>)
    requires Unfolds(heap, v, j) && PrintVal(heap, v, seen).Some?
    ensures PrintVal(heap, v, seen).value == Canonical(j)
    decreases Remaining(heap.Keys, seen), 0
  {
    if v.Ref? {
      RemainingShrinks(heap.Keys, seen, v.r);
      match j
      case Arr(items) =>
        PrintsItsItems(heap, heap[v.r].items, items, seen + {v.r});
        JoinDense(NormalItems(items));
        JoinItems(Dense(NormalItems(items)));
      case Obj(fields) =>
        SortParallel(heap, heap[v.r].fields, fields);
        PrintsItsFields(heap, Sort(heap[v.r].fields), Sort(fields), seen + {v.r});
        SortNormal(fields);
        JoinFields(NormalFields(Sort(fields)));
    }
  }

  lemma {:induction false} PrintsItsItems(heap: Heap, vs: List<Val>, js: List<Json>, seen: set<nat>)
    requires UnfoldsItems(heap, vs, js) && ItemTexts(heap, vs, seen).Some?
    ensures ItemTexts(heap, vs, seen).value == TreeTexts(NormalItems(js))
    decreases Remaining(heap.Keys, seen), 1 + Length(vs)
  {
    if vs.Cons? {
      if vs.head != Absent {
        PrintsItsTree(heap, vs.head, js.head, seen);
      }
      PrintsItsItems(heap, vs.tail, js.tail, seen);
    }
  }

  lemma {:induction false} PrintsItsFields(heap: Heap, vs: List<Field<Val>>, js: List<Field<Json>>, seen: set<nat>)
    requires UnfoldsFields(heap, vs, js) && FieldTexts(heap, vs, seen).Some?
    ensures FieldTexts(heap, vs, seen).value == TreeFieldTexts(NormalFields(js))
    decreases Remaining(heap.Keys, seen), 1 + Length(vs)
  {
    if vs.Cons? {
      PrintsItsTree(heap, vs.head.value, js.head.value, seen);
      PrintsItsFields(heap, vs.tail, js.tail, seen);
    }
  }

  // ---- The theorems ----

  /** The value stands for a finite tree: nothing in it is not JSON, and no object is inside itself. */
  ghost predicate HasTree(heap: Heap, v: Val) {
    exists j :: Unfolds(heap, v, j)
  }

  /** It prints exactly the values that stand for a finite tree, and prints that tree's canonical text. */
  lemma PrintsIffTree(heap: Heap, v: Val)
    ensures PrintVal(heap, v, {}).Some? <==> HasTree(heap, v)
    ensures forall j :: Unfolds(heap, v, j) ==> PrintVal(heap, v, {}) == Some(Canonical(j))
  {
    if PrintVal(heap, v, {}).Some? {
      var j := PrintsHasTree(heap, v, {});
      assert HasTree(heap, v);
    }
    forall j | Unfolds(heap, v, j)
      ensures PrintVal(heap, v, {}) == Some(Canonical(j))
    {
      var none: map<nat, Json> := map[];
      assert none.Keys == {};
      TreePrints(heap, v, j, none);
      PrintsItsTree(heap, v, j, {});
    }
    if HasTree(heap, v) {
      var j :| Unfolds(heap, v, j);
      assert PrintVal(heap, v, {}) == Some(Canonical(j));
    }
  }

  ghost predicate GoodVal(v: Val) {
    v.Plain? ==> WellFormedPrim(v.p)
  }

  ghost predicate GoodItems(vs: List<Val>) {
    match vs
    case Nil => true
    case Cons(v, rest) => GoodVal(v) && GoodItems(rest)
  }

  ghost predicate GoodFields(vs: List<Field<Val>>) {
    match vs
    case Nil => true
    case Cons(f, rest) => GoodVal(f.value) && GoodFields(rest)
  }

  /** What the language guarantees of a heap: numbers are numbers, and an object's keys are distinct. */
  ghost predicate GoodHeap(heap: Heap) {
    forall r :: r in heap ==>
      match heap[r]
      case ArrNode(items, _) => GoodItems(items)
      case ObjNode(fields, _) => GoodFields(fields) && Distinct(fields)
  }

  lemma {:induction false} TreeIsWellFormed(heap: Heap, v: Val, j: Json)
    requires GoodHeap(heap) && GoodVal(v) && Unfolds(heap, v, j)
    ensures WellFormed(j)
    decreases j
  {
    match j
    case Leaf(_) =>
    case Arr(items) => ItemsAreWellFormed(heap, heap[v.r].items, items);
    case Obj(fields) => FieldsAreWellFormed(heap, heap[v.r].fields, fields);
  }

  lemma {:induction false} ItemsAreWellFormed(heap: Heap, vs: List<Val>, js: List<Json>)
    requires GoodHeap(heap) && GoodItems(vs) && UnfoldsItems(heap, vs, js)
    ensures WellFormedItems(js)
    decreases js
  {
    if js.Cons? {
      if vs.head != Absent {
        TreeIsWellFormed(heap, vs.head, js.head);
      }
      ItemsAreWellFormed(heap, vs.tail, js.tail);
    }
  }

  lemma {:induction false} FieldsAreWellFormed(heap: Heap, vs: List<Field<Val>>, js: List<Field<Json>>)
    requires GoodHeap(heap) && GoodFields(vs) && UnfoldsFields(heap, vs, js)
    ensures WellFormedFields(js) && Keys(js) == Keys(vs) && (Distinct(vs) ==> Distinct(js))
    decreases js
  {
    if js.Cons? {
      TreeIsWellFormed(heap, vs.head.value, js.head.value);
      FieldsAreWellFormed(heap, vs.tail, js.tail);
    }
  }

  /**
   * What is printed of a graph without holes is read, by a reader of RFC 8259, as the tree the graph stands for, keys
   * in ascending order of their code units.
   */
  lemma PrintedIsRead(heap: Heap, v: Val, j: Json) returns (w: Json)
    requires GoodHeap(heap) && GoodVal(v) && Unfolds(heap, v, j) && JsonReader.Whole(j)
    ensures PrintVal(heap, v, {}).Some?
    ensures JsonReader.ReadValue(PrintVal(heap, v, {}).value) == JsonReader.Read(w, [])
    ensures Same(j, w) && JsonReader.Ascending(w)
  {
    PrintsIffTree(heap, v);
    TreeIsWellFormed(heap, v, j);
    w := JsonReader.CanonicalIsRead(j);
  }

  /** No two canonical texts share a hash. */
  ghost predicate CollisionFree(hash: text -> text) {
    forall a, b :: hash(a) == hash(b) ==> a == b
  }

  /** `assertApprovalMatches`: the action re-derives to the approved identity. */
  ghost predicate ApprovalMatches(hash: text -> text, identity: text, heap: Heap, v: Val) {
    var t := PrintVal(heap, v, {});
    t.Some? && hash(t.value) == identity
  }

  /** The value stands for a tree that is the same as `j`. */
  ghost predicate StandsForSame(heap: Heap, v: Val, j: Json) {
    exists k :: Unfolds(heap, v, k) && Same(j, k)
  }

  /**
   * An approval bound to one action passes for another exactly when what the printer reads of both is the same value,
   * whatever heap each lives in and whatever else its objects hold.
   */
  lemma ApprovalMatchesIffSame(hash: text -> text, heap: Heap, v: Val, j: Json, heap': Heap, w: Val)
    requires CollisionFree(hash) && GoodHeap(heap) && GoodHeap(heap') && GoodVal(v) && GoodVal(w)
    requires Unfolds(heap, v, j)
    ensures PrintVal(heap, v, {}) == Some(Canonical(j))
    ensures ApprovalMatches(hash, hash(Canonical(j)), heap', w)
       <==> StandsForSame(heap', w, j)
  {
    PrintsIffTree(heap, v);
    PrintsIffTree(heap', w);
    TreeIsWellFormed(heap, v, j);
    forall k | Unfolds(heap', w, k)
      ensures ApprovalMatches(hash, hash(Canonical(j)), heap', w) <==> Same(j, k)
    {
      TreeIsWellFormed(heap', w, k);
      CanonicalJson.CanonicalIffSame(j, k);
    }
    if HasTree(heap', w) {
      var k :| Unfolds(heap', w, k);
      assert Same(j, k) ==> StandsForSame(heap', w, j);
    }
  }

  /** An approval bound to the empty array passes for an array of one hole, which is another value. */
  lemma ApprovalOfEmptyPassesForOneHole(hash: text -> text)
    requires CollisionFree(hash)
    ensures var empty: Heap := map[0 := ArrNode(Nil, [])];
            var hole: Heap := map[0 := ArrNode(Cons(Absent, Nil), [])];
            && Unfolds(empty, Ref(0), Arr(Nil)) && Unfolds(hole, Ref(0), Arr(Cons(Hole, Nil)))
            && ApprovalMatches(hash, hash(Canonical(Arr(Nil))), hole, Ref(0))
  {
    var empty: Heap := map[0 := ArrNode(Nil, [])];
    var hole: Heap := map[0 := ArrNode(Cons(Absent, Nil), [])];
    var tree := Arr(Cons(Hole, Nil));
    assert UnfoldsItems(hole, Nil, Nil) && UnfoldsItem(hole, Absent, Hole);
    assert Unfolds(hole, Ref(0), tree) && Same(Arr(Nil), tree);
    assert StandsForSame(hole, Ref(0), Arr(Nil));
    ApprovalMatchesIffSame(hash, empty, Ref(0), Arr(Nil), hole, Ref(0));
  }
}
