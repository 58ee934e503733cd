/** Adaptive readers: a run over the mirror is the run over the original. */
module MembraneRuns {
  import opened Common
  import opened Membrane

  /** A question about an object already handed out: a read, or `in`. */
  datatype Question = Ask(h: nat, key: Key) | In(h: nat, key: Key)

  datatype Answer = APrim(p: int) | AUndefined | AObject(isArray: bool) | ABool(b: bool)

  type Log = seq<(Question, Answer)>

  /** Its next question depends on everything asked and answered so far; it may stop. */
  type Adaptive = Log -> Option<Question>

  // ---- The run over the original ----

  /** An object in the reader's hands, behind a proxy or not. */
  datatype Handle = Handle(r: Ref, wrapped: bool)

  datatype Dry = Dry(handles: seq<Handle>, recs: Recordings)

  function AnswerOf(heap: Heap, v: Value): Answer {
    match v
    case Prim(p) => APrim(p)
    case Undefined => AUndefined
    case Object(r) => AObject(r in heap && heap[r].Arr?)
  }

  /** One question to the original, through the traps. A `toJSON` value goes out as it is. */
  function DryStep(heap: Heap, s: Dry, q: Question): Option<(Dry, Answer)> {
    if q.h >= |s.handles| || s.handles[q.h].r !in heap then None else
      var Handle(r, wrapped) := s.handles[q.h];
      if !Fits(heap[r], q.key) || (wrapped && r !in s.recs) then None else
        match q
        case Ask(_, key) =>
          var v := ReadAt(heap[r], key);
          Some((Dry(if v.Object? then s.handles + [Handle(v.r, wrapped && key != TO_JSON)] else s.handles,
                    if wrapped then AfterGet(heap, s.recs, r, key) else s.recs),
                AnswerOf(heap, v)))
        case In(_, key) =>
          var recs := if wrapped then AfterHas(heap, s.recs, r, key) else s.recs;
          Some((Dry(s.handles, recs), ABool(HasKey(heap[r], key))))
  }

  /** The reader begins with the request, behind its proxy. */
  function Begin(heap: Heap, root: Ref): Dry {
    Dry([Handle(root, true)], Wrap(heap, map[], Object(root)))
  }

  /** At most `n` questions. */
  function DryRun(heap: Heap, reader: Adaptive, s: Dry, log: Log, n: nat): (Dry, Log)
    decreases n
  {
    if n == 0 then (s, log) else
      var q := reader(log);
      if q.None? then (s, log) else
        var step := DryStep(heap, s, q.value);
        if step.None? then (s, log) else DryRun(heap, reader, step.value.0, log + [(q.value, step.value.1)], n - 1)
  }

  // ---- The run over the mirror ----

  function TreeAnswer(t: Tree): Answer {
    match t
    case TPrim(p) => APrim(p)
    case TUndefined => AUndefined
    case TObj(_) => AObject(false)
    case TArr(_, _) => AObject(true)
  }

  function TreeRead(t: Tree, key: Key): Tree {
    match t
    case TObj(fields) =>
      var found: Option<Tree> := Lookup(fields, key);
      if found.Some? then found.value else TUndefined
    case TArr(length, elems) =>
      if key == Length then TPrim(length) else
        var found: Option<Tree> := Lookup(elems, key);
        if found.Some? then found.value else TUndefined
    case _ => TUndefined
  }

  predicate TreeFits(t: Tree, key: Key) {
    (t.TObj? && key.Name?) || t.TArr?
  }

  predicate TreeHas(t: Tree, key: Key) {
    match t
    case TObj(fields) => (var found: Option<Tree> := Lookup(fields, key); found.Some?)
    case TArr(_, elems) => key == Length || (var found: Option<Tree> := Lookup(elems, key); found.Some?)
    case _ => false
  }

  function MirrorStep(trees: seq<Tree>, q: Question): Option<(seq<Tree>, Answer)> {
    if q.h >= |trees| || !TreeFits(trees[q.h], q.key) then None else
      match q
      case Ask(_, key) =>
        var t := TreeRead(trees[q.h], key);
        Some((if TreeAnswer(t).AObject? then trees + [t] else trees, TreeAnswer(t)))
      case In(_, key) => Some((trees, ABool(TreeHas(trees[q.h], key))))
  }

  function MirrorRun(reader: Adaptive, trees: seq<Tree>, log: Log, n: nat): Log
    decreases n
  {
    if n == 0 then log else
      var q := reader(log);
      if q.None? then log else
        var step := MirrorStep(trees, q.value);
        if step.None? then log else MirrorRun(reader, step.value.0, log + [(q.value, step.value.1)], n - 1)
  }

  // ---- Recordings that tell the truth ----

  ghost predicate Sound(heap: Heap, recs: Recordings) {
    forall r :: r in recs ==> r in heap && SoundRec(heap[r], recs[r])
  }

  ghost predicate SoundRec(node: Node, rec: Recording) {
    && rec.isArray == node.Arr?
    && (forall i :: 0 <= i < |rec.gets| ==> SoundRead(node, rec.gets[i].0, rec.gets[i].1))
    && (forall i :: 0 <= i < |rec.present| ==> HasKey(node, rec.present[i]) && Fits(node, rec.present[i]))
  }

  ghost predicate SoundRead(node: Node, key: Key, v: Value) {
    HasKey(node, key) && Fits(node, key) && v == ReadAt(node, key) && key != TO_JSON
  }

  lemma {:induction false} LookupIsEntry<T>(entries: seq<(Key, T)>, key: Key) returns (i: nat)
    requires Lookup(entries, key).Some?
    ensures i < |entries| && entries[i] == (key, Lookup(entries, key).value)
  {
    if entries[0].0 == key {
      i := 0;
    } else {
      var j := LookupIsEntry(entries[1..], key);
      i := j + 1;
    }
  }

  lemma {:induction false} LookupAppend<T>(a: seq<(Key, T)>, b: seq<(Key, T)>, key: Key)
    ensures Lookup(a + b, key) == if Lookup(a, key).Some? then Lookup(a, key) else Lookup(b, key)
  {
    if a == [] {
      assert a + b == b;
    } else {
      assert (a + b)[0] == a[0] && (a + b)[1..] == a[1..] + b;
      LookupAppend(a[1..], b, key);
    }
  }

  lemma SoundLookup(node: Node, rec: Recording, key: Key)
    requires SoundRec(node, rec) && Lookup(rec.gets, key).Some?
    ensures SoundRead(node, key, Lookup(rec.gets, key).value)
  {
    var i := LookupIsEntry(rec.gets, key);
    assert SoundRead(node, rec.gets[i].0, rec.gets[i].1);
  }

  // ---- Recordings only grow ----

  ghost predicate Within(a: Recording, b: Recording) {
    && a.isArray == b.isArray && (a.touched ==> b.touched)
    && (forall k :: Lookup(a.gets, k).Some? ==> Lookup(b.gets, k).Some?)
    && (forall k :: k in a.present ==> k in b.present)
  }

  ghost predicate Grows(a: Recordings, b: Recordings) {
    forall r :: r in a ==> r in b && Within(a[r], b[r])
  }

  lemma GrowsTransitive(a: Recordings, b: Recordings, c: Recordings)
    requires Grows(a, b) && Grows(b, c)
    ensures Grows(a, c)
  {
    forall r | r in a
      ensures r in c && Within(a[r], c[r])
    {
      assert r in b && Within(a[r], b[r]);
    }
  }

  lemma RecordedLookup(rec: Recording, key: Key, v: Value, k: Key)
    ensures Lookup(rec.gets, k).Some? ==> Lookup(Recorded(rec, key, v).gets, k).Some?
    ensures Lookup(Recorded(rec, key, v).gets, key).Some?
  {
    LookupAppend(rec.gets, [(key, v)], k);
    LookupAppend(rec.gets, [(key, v)], key);
  }

  lemma TouchGrows(heap: Heap, recs: Recordings, r: Ref)
    requires Sound(heap, recs) && r in recs
    ensures Grows(recs, Touched(recs, r)) && Sound(heap, Touched(recs, r))
  {
    assert SoundRec(heap[r], recs[r]);
  }

  lemma WrapGrows(heap: Heap, recs: Recordings, v: Value)
    requires Sound(heap, recs)
    ensures Grows(recs, Wrap(heap, recs, v)) && Sound(heap, Wrap(heap, recs, v))
    ensures v.Object? && v.r in heap ==> v.r in Wrap(heap, recs, v)
  {
  }

  lemma RecordGrows(heap: Heap, recs: Recordings, r: Ref, key: Key, v: Value)
    requires Sound(heap, recs) && r in recs && SoundRead(heap[r], key, v)
    ensures var after := recs[r := Recorded(recs[r], key, v)];
            Grows(recs, after) && Sound(heap, after) && Lookup(after[r].gets, key).Some?
  {
    forall k
      ensures Lookup(recs[r].gets, k).Some? ==> Lookup(Recorded(recs[r], key, v).gets, k).Some?
    {
      RecordedLookup(recs[r], key, v, k);
    }
    RecordedLookup(recs[r], key, v, key);
    assert SoundRec(heap[r], recs[r]);
    assert SoundRec(heap[r], Recorded(recs[r], key, v));
  }

  /** What the `get` trap leaves behind: the truth, and more of it. */
  lemma GetGrows(heap: Heap, recs: Recordings, r: Ref, key: Key)
    requires Closed(heap) && Sound(heap, recs) && r in recs && Fits(heap[r], key)
    ensures var after := AfterGet(heap, recs, r, key);
            && Grows(recs, after) && Sound(heap, after) && r in after && after[r].touched
            && (key != TO_JSON && HasKey(heap[r], key) ==> Lookup(after[r].gets, key).Some?)
            && (key != TO_JSON && ReadAt(heap[r], key).Object? ==> ReadAt(heap[r], key).r in after)
  {
    var v := ReadAt(heap[r], key);
    assert ClosedNode(heap, heap[r]);
    TouchGrows(heap, recs, r);
    if key != TO_JSON {
      var touched := Touched(recs, r);
      var wrapped := Wrap(heap, touched, v);
      WrapGrows(heap, touched, v);
      GrowsTransitive(recs, touched, wrapped);
      if v != Undefined || HasKey(heap[r], key) {
        RecordGrows(heap, wrapped, r, key, v);
        GrowsTransitive(recs, wrapped, AfterGet(heap, recs, r, key));
      }
    }
  }

  /** What the `has` trap leaves behind. */
  lemma HasGrows(heap: Heap, recs: Recordings, r: Ref, key: Key)
    requires Sound(heap, recs) && r in recs && Fits(heap[r], key)
    ensures var after := AfterHas(heap, recs, r, key);
            && Grows(recs, after) && Sound(heap, after) && r in after && after[r].touched
            && (HasKey(heap[r], key) ==> Lookup(after[r].gets, key).Some? || key in after[r].present)
  {
    assert SoundRec(heap[r], recs[r]);
  }

  /** Handles lead to nodes, and those behind a proxy have a recording. */
  ghost predicate Good(heap: Heap, s: Dry) {
    && Sound(heap, s.recs)
    && forall i :: 0 <= i < |s.handles| ==>
         s.handles[i].r in heap && (s.handles[i].wrapped ==> s.handles[i].r in s.recs)
  }

  lemma StepGood(heap: Heap, s: Dry, q: Question)
    requires Closed(heap) && Good(heap, s) && DryStep(heap, s, q).Some?
    ensures var after := DryStep(heap, s, q).value.0;
            Good(heap, after) && Grows(s.recs, after.recs)
  {
    var Handle(r, wrapped) := s.handles[q.h];
    assert ClosedNode(heap, heap[r]);
    if wrapped {
      if q.Ask? {
        GetGrows(heap, s.recs, r, q.key);
      } else {
        HasGrows(heap, s.recs, r, q.key);
      }
    }
  }

  /** What is in the reader's hands stays there. */
  lemma {:induction false} HandlesGrow(heap: Heap, reader: Adaptive, s: Dry, log: Log, n: nat)
    ensures s.handles <= DryRun(heap, reader, s, log, n).0.handles
    decreases n
  {
    if n > 0 && reader(log).Some? && DryStep(heap, s, reader(log).value).Some? {
      var q := reader(log).value;
      var step := DryStep(heap, s, q).value;
      assert s.handles <= step.0.handles;
      HandlesGrow(heap, reader, step.0, log + [(q, step.1)], n - 1);
    }
  }

  lemma {:induction false} RunGrows(heap: Heap, reader: Adaptive, s: Dry, log: Log, n: nat)
    requires Closed(heap) && Good(heap, s)
    ensures var after := DryRun(heap, reader, s, log, n).0;
            Good(heap, after) && Grows(s.recs, after.recs)
    decreases n
  {
    if n > 0 && reader(log).Some? && DryStep(heap, s, reader(log).value).Some? {
      var q := reader(log).value;
      var step := DryStep(heap, s, q).value;
      StepGood(heap, s, q);
      RunGrows(heap, reader, step.0, log + [(q, step.1)], n - 1);
      GrowsTransitive(s.recs, step.0.recs, DryRun(heap, reader, s, log, n).0.recs);
    }
  }
}
