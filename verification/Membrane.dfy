/** The recording membrane around a request, and the mirror built from what was read. */
module Membrane {
  import opened Common

  type Ref = nat

  datatype Value = Prim(p: int) | Undefined | Object(r: Ref)

  /** What can be asked of an object (a name) or of an array (its length, an index, a name). */
  datatype Key = Name(s: string) | Index(i: nat) | Length

  /** An object, or an array with its elements and whatever named properties it has besides. */
  datatype Node =
    | Obj(fields: map<string, Value>)
    | Arr(length: nat, elems: map<nat, Value>, names: map<string, Value>)

  type Heap = map<Ref, Node>

  const TO_JSON := Name("toJSON")

  /** References lead to nodes, and an array's elements lie below its length. */
  ghost predicate Closed(heap: Heap) {
    forall r :: r in heap ==> ClosedNode(heap, heap[r])
  }

  ghost predicate ClosedNode(heap: Heap, node: Node) {
    match node
    case Obj(fields) => forall s :: s in fields && fields[s].Object? ==> fields[s].r in heap
    case Arr(length, elems, names) =>
      && (forall i :: i in elems ==> i < length)
      && (forall i :: i in elems && elems[i].Object? ==> elems[i].r in heap)
      && forall s :: s in names && names[s].Object? ==> names[s].r in heap
  }

  /** The keys that a node of this kind is asked for. */
  predicate Fits(node: Node, key: Key) {
    node.Obj? ==> key.Name?
  }

  predicate HasKey(node: Node, key: Key) {
    match (node, key)
    case (Obj(fields), Name(s)) => s in fields
    case (Arr(_, elems, _), Index(i)) => i in elems
    case (Arr(_, _, names), Name(s)) => s in names
    case (Arr(_, _, _), Length) => true
    case _ => false
  }

  function ReadAt(node: Node, key: Key): Value {
    match (node, key)
    case (Obj(fields), Name(s)) => if s in fields then fields[s] else Undefined
    case (Arr(_, elems, _), Index(i)) => if i in elems then elems[i] else Undefined
    case (Arr(_, _, names), Name(s)) => if s in names then names[s] else Undefined
    case (Arr(length, _, _), Length) => Prim(length)
    case _ => Undefined
  }

  // ---- Recordings ----

  /** First reads in order, keys only seen by `in`, and whether the object was touched at all. */
  datatype Recording = Recording(isArray: bool, gets: seq<(Key, Value)>, present: seq<Key>, touched: bool)

  type Recordings = map<Ref, Recording>

  function Lookup<T>(entries: seq<(Key, T)>, key: Key): Option<T> {
    if entries == [] then None
    else if entries[0].0 == key then Some(entries[0].1)
    else Lookup(entries[1..], key)
  }

  /** A new object gets an empty recording; a known one keeps its own. */
  function Wrap(heap: Heap, recs: Recordings, v: Value): Recordings {
    if v.Object? && v.r in heap && v.r !in recs
    then recs[v.r := Recording(heap[v.r].Arr?, [], [], false)]
    else recs
  }

  /** The first read of a key is kept. */
  function Recorded(rec: Recording, key: Key, v: Value): Recording {
    if Lookup(rec.gets, key).Some? then rec else rec.(gets := rec.gets + [(key, v)])
  }

  function Touched(recs: Recordings, r: Ref): Recordings
    requires r in recs
  {
    recs[r := recs[r].(touched := true)]
  }

  /** The recordings after the `get` trap. A `toJSON` that is no function is answered and not recorded. */
  function AfterGet(heap: Heap, recs: Recordings, r: Ref, key: Key): (after: Recordings)
    requires r in heap && r in recs
    ensures r in after
  {
    var v := ReadAt(heap[r], key);
    var touched := Touched(recs, r);
    if key == TO_JSON then touched else
      var wrapped := Wrap(heap, touched, v);
      if v != Undefined || HasKey(heap[r], key) then wrapped[r := Recorded(wrapped[r], key, v)] else wrapped
  }

  /** The recordings after the `has` trap. */
  function AfterHas(heap: Heap, recs: Recordings, r: Ref, key: Key): (after: Recordings)
    requires r in heap && r in recs
    ensures r in after
  {
    var touched := Touched(recs, r);
    var rec := touched[r];
    if HasKey(heap[r], key) && Lookup(rec.gets, key).None? && key !in rec.present
    then touched[r := rec.(present := rec.present + [key])]
    else touched
  }

  // ---- The mirror ----

  datatype Tree =
    | TPrim(p: int)
    | TUndefined
    | TObj(fields: seq<(Key, Tree)>)
    | TArr(length: nat, elems: seq<(Key, Tree)>)

  /** The recorded length, or just past the last recorded index. */
  function MirrorLength(gets: seq<(Key, Value)>): nat {
    var length: Option<Value> := Lookup(gets, Length);
    if length.None? then PastLast(gets)
    else if length.value.Prim? && length.value.p >= 0 then length.value.p
    else 0
  }

  function PastLast(gets: seq<(Key, Value)>): nat {
    if gets == [] then 0 else
      var rest := PastLast(gets[1..]);
      if gets[0].0.Index? && gets[0].0.i >= rest then gets[0].0.i + 1 else rest
  }

  /** The reads that become properties: all of an object's, an array's indices below its length. */
  predicate Kept(rec: Recording, key: Key) {
    rec.isArray ==> key.Index? && key.i < MirrorLength(rec.gets)
  }

  /** The copy of a recorded value, or nothing at a cycle. */
  function Materialize(recs: Recordings, v: Value, stack: set<Ref>): Option<Tree>
    decreases Remaining(recs.Keys, stack), 0
  {
    match v
    case Prim(p) => Some(TPrim(p))
    case Undefined => Some(TUndefined)
    case Object(r) =>
      if r !in recs then None
      else if !recs[r].touched then Some(if recs[r].isArray then TArr(0, []) else TObj([]))
      else if r in stack then None
      else
        RemainingShrinks(recs.Keys, stack, r);
        match Properties(recs, recs[r], recs[r].gets, stack + {r})
        case None => None
        case Some(props) =>
          Some(if recs[r].isArray then TArr(MirrorLength(recs[r].gets), props) else TObj(props + Seen(recs[r].present)))
  }

  function Properties(recs: Recordings, rec: Recording, gets: seq<(Key, Value)>, stack: set<Ref>)
    : Option<seq<(Key, Tree)>>
    decreases Remaining(recs.Keys, stack), 1 + |gets|
  {
    if gets == [] then Some([])
    else if !Kept(rec, gets[0].0) then Properties(recs, rec, gets[1..], stack)
    else
      var t, rest := Materialize(recs, gets[0].1, stack), Properties(recs, rec, gets[1..], stack);
      if t.Some? && rest.Some? then Some([(gets[0].0, t.value)] + rest.value) else None
  }

  /** A key only seen by `in` is there, undefined. (One that was also read comes first from its read.) */
  function Seen(present: seq<Key>): (s: seq<(Key, Tree)>)
    ensures |s| == |present| && forall i :: 0 <= i < |s| ==> s[i] == (present[i], TUndefined)
  {
    seq(|present|, i requires 0 <= i < |present| => (present[i], TUndefined))
  }

  // ---- The membrane's own steps ----

  class Proxies {
    const heap: Heap
    var recs: Recordings

    constructor (heap: Heap, root: Ref)
      requires root in heap
      ensures this.heap == heap && recs == Wrap(heap, map[], Object(root))
    {
      this.heap := heap;
      recs := map[root := Recording(heap[root].Arr?, [], [], false)];
    }

    method Get(r: Ref, key: Key) returns (v: Value)
      requires r in heap && r in recs
      modifies this
      ensures v == ReadAt(heap[r], key)
      ensures recs == AfterGet(heap, old(recs), r, key)
    {
      recs := recs[r := recs[r].(touched := true)];
      v := ReadAt(heap[r], key);
      if key == TO_JSON {
        return;
      }
      recs := Wrap(heap, recs, v);
      if v != Undefined || HasKey(heap[r], key) {
        var rec := recs[r];
        if Lookup(rec.gets, key).None? {
          rec := rec.(gets := rec.gets + [(key, v)]);
        }
        recs := recs[r := rec];
      }
    }

    method Has(r: Ref, key: Key) returns (found: bool)
      requires r in heap && r in recs
      modifies this
      ensures found == HasKey(heap[r], key)
      ensures recs == AfterHas(heap, old(recs), r, key)
    {
      recs := recs[r := recs[r].(touched := true)];
      found := HasKey(heap[r], key);
      var rec := recs[r];
      if found && Lookup(rec.gets, key).None? && key !in rec.present {
        recs := recs[r := rec.(present := rec.present + [key])];
      }
    }

    method MaterializeNode(v: Value, stack: set<Ref>) returns (t: Option<Tree>)
      ensures t == Materialize(recs, v, stack)
      decreases Remaining(recs.Keys, stack), 0
    {
      match v
      case Prim(p) => return Some(TPrim(p));
      case Undefined => return Some(TUndefined);
      case Object(r) =>
        if r !in recs {
          return None;
        }
        var rec := recs[r];
        if !rec.touched {
          return Some(if rec.isArray then TArr(0, []) else TObj([]));
        }
        if r in stack {
          return None;
        }
        RemainingShrinks(recs.Keys, stack, r);
        var props := MaterializeReads(rec, stack + {r});
        if props.None? {
          return None;
        }
        return Some(if rec.isArray then TArr(MirrorLength(rec.gets), props.value)
                    else TObj(props.value + Seen(rec.present)));
    }

    method MaterializeReads(rec: Recording, stack: set<Ref>) returns (props: Option<seq<(Key, Tree)>>)
      ensures props == Properties(recs, rec, rec.gets, stack)
      decreases Remaining(recs.Keys, stack), 1
    {
      var out: seq<(Key, Tree)> := [];
      ghost var whole := Properties(recs, rec, rec.gets, stack);
      assert rec.gets[0..] == rec.gets;
      assert whole.Some? ==> [] + whole.value == whole.value;
      var i := 0;
      while i < |rec.gets|
        invariant 0 <= i <= |rec.gets|
        invariant Following(out, Properties(recs, rec, rec.gets[i..], stack)) == whole
      {
        var rest := rec.gets[i..];
        assert rest[0] == rec.gets[i] && rest[1..] == rec.gets[i + 1..];
        if Kept(rec, rec.gets[i].0) {
          var t := MaterializeNode(rec.gets[i].1, stack);
          if t.None? {
            return None;
          }
          FollowingOne(out, (rec.gets[i].0, t.value), Properties(recs, rec, rec.gets[i + 1..], stack));
          out := out + [(rec.gets[i].0, t.value)];
        }
        i := i + 1;
      }
      assert out + [] == out;
      return Some(out);
    }
  }
}
