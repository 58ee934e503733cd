/** Which requests have a faithful mirror, whoever reads them. */
module MembraneRequest {
  import opened Common
  import opened Membrane
  import opened MembraneRuns
  import opened MembraneMirror

  /** The object at the end of a path of keys that the mirror carries. */
  function Walk(heap: Heap, r: Ref, path: seq<Key>): Option<Ref>
    decreases |path|
  {
    if r !in heap then None
    else if path == [] then Some(r)
    else if !Carried(heap[r], path[0]) || !Fits(heap[r], path[0]) || !ReadAt(heap[r], path[0]).Object? then None
    else Walk(heap, ReadAt(heap[r], path[0]).r, path[1..])
  }

  /** A value under a key that the mirror does not carry: a `toJSON`, or a named property of an array. */
  ghost predicate Loud(node: Node) {
    exists key :: Fits(node, key) && !Carried(node, key) && ReadAt(node, key) != Undefined
  }

  /** An array with nothing in it, under an index or a name. */
  ghost predicate BareArray(node: Node) {
    node.Arr? && forall key :: HasKey(node, key) ==> key == Length
  }

  /** Nothing that can be reached is loud. */
  ghost predicate Quiet(heap: Heap, root: Ref) {
    forall r :: OnPath(heap, root, r) ==> !Loud(heap[r])
  }

  /** Every array that can be reached is bare. */
  ghost predicate BareArrays(heap: Heap, root: Ref) {
    forall r :: OnPath(heap, root, r) && heap[r].Arr? ==> BareArray(heap[r])
  }

  ghost predicate OnPath(heap: Heap, root: Ref, r: Ref) {
    r in heap && exists path :: Walk(heap, root, path) == Some(r)
  }

  /** The mirror exists and the run over it is the run over the request. */
  ghost predicate Alike(heap: Heap, root: Ref, reader: Adaptive, n: nat) {
    var (final, log) := DryRun(heap, reader, Begin(heap, root), [], n);
    var mirror := Materialize(final.recs, Object(root), {});
    mirror.Some? && MirrorRun(reader, [mirror.value], [], n) == log
  }

  /** The run asks of an array by `in`. */
  ghost predicate AsksArrays(heap: Heap, root: Ref, reader: Adaptive, n: nat) {
    var (final, log) := DryRun(heap, reader, Begin(heap, root), [], n);
    exists i :: 0 <= i < |log| && log[i].0.In? && OfArray(heap, final, log[i].0)
  }

  predicate OfArray(heap: Heap, s: Dry, q: Question) {
    q.h < |s.handles| && s.handles[q.h].r in heap && heap[s.handles[q.h].r].Arr?
  }

  // ---- Where nothing is loud, no read is lost ----

  lemma {:induction false} WalkOn(heap: Heap, root: Ref, path: seq<Key>, key: Key)
    requires var r := Walk(heap, root, path);
             && r.Some? && r.value in heap && Carried(heap[r.value], key) && Fits(heap[r.value], key)
             && ReadAt(heap[r.value], key).Object? && ReadAt(heap[r.value], key).r in heap
    ensures Walk(heap, root, path + [key]) == Some(ReadAt(heap[Walk(heap, root, path).value], key).r)
    decreases |path|
  {
    if path == [] {
      assert (path + [key])[1..] == [];
    } else {
      assert (path + [key])[0] == path[0] && (path + [key])[1..] == path[1..] + [key];
      WalkOn(heap, ReadAt(heap[root], path[0]).r, path[1..], key);
    }
  }

  /** A set of objects that no carried read leaves, with nothing loud among them. */
  ghost predicate QuietSet(heap: Heap, reach: set<Ref>) {
    forall r :: r in reach ==> r in heap && !Loud(heap[r]) && ChildrenIn(heap[r], reach)
  }

  ghost predicate ChildrenIn(node: Node, reach: set<Ref>) {
    forall key :: Fits(node, key) && Carried(node, key) && ReadAt(node, key).Object? ==> ReadAt(node, key).r in reach
  }

  ghost predicate BareSet(heap: Heap, reach: set<Ref>) {
    forall r :: r in reach && r in heap && heap[r].Arr? ==> BareArray(heap[r])
  }

  ghost predicate AllWithin(reach: set<Ref>, s: Dry) {
    forall i :: 0 <= i < |s.handles| ==> s.handles[i].wrapped && s.handles[i].r in reach
  }

  /** A question whose answer the mirror keeps: any read, and any at all where arrays are bare. */
  predicate KeptQuestion(bare: bool, q: Question) {
    q.Ask? || bare
  }

  lemma QuietStep(heap: Heap, reach: set<Ref>, bare: bool, s: Dry, q: Question, recs: Recordings)
    requires QuietSet(heap, reach) && (bare ==> BareSet(heap, reach)) && AllWithin(reach, s)
    requires DryStep(heap, s, q).Some?
    ensures AllWithin(reach, DryStep(heap, s, q).value.0)
    ensures KeptQuestion(bare, q) ==> !LostAt(heap, recs, s.handles[q.h].r, q, DryStep(heap, s, q).value.1)
  {
    var r := s.handles[q.h].r;
    assert r in reach && !Loud(heap[r]);
    if q.Ask? && ReadAt(heap[r], q.key).Object? {
      assert Carried(heap[r], q.key);
    }
  }

  /** No answer to a question of that kind is lost. */
  ghost predicate KeptAnswers(heap: Heap, bare: bool, final: Dry, log: Log) {
    forall i :: 0 <= i < |log| && KeptQuestion(bare, log[i].0) ==> !Lost(heap, final, log[i].0, log[i].1)
  }

  lemma KeptMore(heap: Heap, bare: bool, final: Dry, log: Log, q: Question, a: Answer)
    requires KeptAnswers(heap, bare, final, log) && (KeptQuestion(bare, q) ==> !Lost(heap, final, q, a))
    ensures KeptAnswers(heap, bare, final, log + [(q, a)])
  {
    var more := log + [(q, a)];
    assert forall i :: 0 <= i < |more| ==> more[i] == if i < |log| then log[i] else (q, a);
  }

  lemma QuietTurn(heap: Heap, reach: set<Ref>, bare: bool, reader: Adaptive, s: Dry, log: Log, n: nat, final: Dry,
                  q: Question) returns (s': Dry, a: Answer)
    requires Closed(heap) && QuietSet(heap, reach) && (bare ==> BareSet(heap, reach))
    requires Good(heap, s) && AllWithin(reach, s)
    requires final == DryRun(heap, reader, s, log, n).0 && n > 0 && reader(log) == Some(q) && DryStep(heap, s, q).Some?
    ensures Good(heap, s') && AllWithin(reach, s')
    ensures DryRun(heap, reader, s, log, n) == DryRun(heap, reader, s', log + [(q, a)], n - 1)
    ensures KeptQuestion(bare, q) ==> !Lost(heap, final, q, a)
  {
    QuietStep(heap, reach, bare, s, q, final.recs);
    SameHandle(heap, reader, s, log, n, q.h);
    s', a := DryTurn(heap, reader, s, log, n, q);
  }

  lemma {:induction false} QuietRun(heap: Heap, reach: set<Ref>, bare: bool, reader: Adaptive, s: Dry, log: Log, n: nat,
                                    final: Dry, whole: Log)
    requires Closed(heap) && QuietSet(heap, reach) && (bare ==> BareSet(heap, reach))
    requires Good(heap, s) && AllWithin(reach, s)
    requires DryRun(heap, reader, s, log, n) == (final, whole) && KeptAnswers(heap, bare, final, log)
    ensures KeptAnswers(heap, bare, final, whole)
    decreases n
  {
    if n > 0 && reader(log).Some? {
      var q := reader(log).value;
      if DryStep(heap, s, q).Some? {
        var s', a := QuietTurn(heap, reach, bare, reader, s, log, n, final, q);
        KeptMore(heap, bare, final, log, q, a);
        QuietRun(heap, reach, bare, reader, s', log + [(q, a)], n - 1, final, whole);
      }
    }
  }

  /** What can be reached from the root is such a set. */
  lemma ReachIsQuiet(heap: Heap, root: Ref) returns (reach: set<Ref>)
    requires Closed(heap) && root in heap && Quiet(heap, root)
    ensures root in reach && QuietSet(heap, reach) && (BareArrays(heap, root) ==> BareSet(heap, reach))
  {
    reach := set r | r in heap && OnPath(heap, root, r);
    assert Walk(heap, root, []) == Some(root) && OnPath(heap, root, root);
    forall r, key | r in reach && Fits(heap[r], key) && Carried(heap[r], key) && ReadAt(heap[r], key).Object?
      ensures ReadAt(heap[r], key).r in reach
    {
      var path :| Walk(heap, root, path) == Some(r);
      assert ClosedNode(heap, heap[r]);
      WalkOn(heap, root, path, key);
      assert OnPath(heap, root, ReadAt(heap[r], key).r);
    }
  }

  // ---- The reader that walks along a path and asks one last question ----

  function PathReader(path: seq<Key>, last: Question): Adaptive {
    (log: Log) =>
      if |log| < |path| then Some(Ask(|log|, path[|log|]))
      else if |log| == |path| then Some(last)
      else None
  }

  /** Nothing of `e` was read so far. */
  ghost predicate Unread(s: Dry, e: Ref) {
    forall key :: !WasRead(s.recs, e, key)
  }

  /** The end of a path lies below its beginning. */
  lemma {:induction false} WalkDescends(heap: Heap, rank: map<Ref, nat>, r: Ref, path: seq<Key>)
    requires Acyclic(heap, rank) && Walk(heap, r, path).Some?
    ensures r in heap && Walk(heap, r, path).value in heap
    ensures rank[Walk(heap, r, path).value] <= rank[r] && (path != [] ==> rank[Walk(heap, r, path).value] < rank[r])
    decreases |path|
  {
    if path != [] {
      assert Below(heap, rank, r, ReadAt(heap[r], path[0]));
      WalkDescends(heap, rank, ReadAt(heap[r], path[0]).r, path[1..]);
    }
  }

  /** What the answer to the last question is. */
  function AnswerAt(heap: Heap, e: Ref, q: Question): Answer
    requires e in heap
  {
    if q.Ask? then AnswerOf(heap, ReadAt(heap[e], q.key)) else ABool(HasKey(heap[e], q.key))
  }

  /** The run ended with the question `last` to `e`, after reads only; before an `in`, nothing of `e` was read. */
  ghost predicate Arrived(heap: Heap, final: Dry, log: Log, path: seq<Key>, last: Question, e: Ref) {
    && e in heap && |log| == |path| + 1 && log[|path|] == (last, AnswerAt(heap, e, last))
    && (forall i :: 0 <= i < |path| ==> log[i].0.Ask?)
    && |path| < |final.handles| && final.handles[|path|] == Handle(e, true)
    && (last.In? ==> Unread(final, e))
  }

  ghost predicate Walking(heap: Heap, path: seq<Key>, last: Question, k: nat, r: Ref, s: Dry, log: Log, e: Ref) {
    && Closed(heap) && Good(heap, s) && k <= |path| && |log| == k && (forall i :: 0 <= i < k ==> log[i].0.Ask?)
    && |s.handles| == k + 1 && s.handles[k] == Handle(r, true) && Unread(s, e)
    && Walk(heap, r, path[k..]) == Some(e) && e in heap && last.h == |path| && Fits(heap[e], last.key)
  }

  lemma LastQuestion(heap: Heap, path: seq<Key>, last: Question, s: Dry, log: Log, e: Ref)
    requires Walking(heap, path, last, |path|, e, s, log, e)
    ensures var (final, log') := DryRun(heap, PathReader(path, last), s, log, 1);
            Arrived(heap, final, log', path, last, e)
  {
    var s', a := StepTaken(heap, s, last);
    DryUnrolls(heap, PathReader(path, last), s, log, 1, last, Some((s', a)));
    assert DryRun(heap, PathReader(path, last), s, log, 1) == (s', log + [(last, a)]);
    if last.In? {
      forall key
        ensures !WasRead(s'.recs, e, key)
      {
        assert !WasRead(s.recs, e, key);
        StepReads(heap, s, last, s', a, e, key);
      }
    }
  }

  /** One more key of the path. */
  lemma WalkStep(heap: Heap, rank: map<Ref, nat>, path: seq<Key>, last: Question, k: nat, r: Ref, s: Dry, log: Log,
                 e: Ref) returns (s': Dry, a: Answer)
    requires Walking(heap, path, last, k, r, s, log, e) && Acyclic(heap, rank) && k < |path|
    ensures DryStep(heap, s, Ask(k, path[k])) == Some((s', a)) && ReadAt(heap[r], path[k]).Object?
    ensures Walking(heap, path, last, k + 1, ReadAt(heap[r], path[k]).r, s', log + [(Ask(k, path[k]), a)], e)
  {
    var q := Ask(k, path[k]);
    assert path[k..][0] == path[k] && path[k..][1..] == path[k + 1..];
    WalkDescends(heap, rank, r, path[k..]);
    s', a := StepTaken(heap, s, q);
    forall key
      ensures !WasRead(s'.recs, e, key)
    {
      assert !WasRead(s.recs, e, key);
      StepReads(heap, s, q, s', a, e, key);
    }
  }

  lemma {:induction false} WalkArrives(heap: Heap, rank: map<Ref, nat>, path: seq<Key>, last: Question, k: nat, r: Ref,
                                       s: Dry, log: Log, e: Ref)
    requires Walking(heap, path, last, k, r, s, log, e) && Acyclic(heap, rank)
    ensures var (final, log') := DryRun(heap, PathReader(path, last), s, log, |path| + 1 - k);
            Arrived(heap, final, log', path, last, e)
    decreases |path| - k
  {
    if k == |path| {
      assert path[k..] == [];
      LastQuestion(heap, path, last, s, log, e);
    } else {
      var q := Ask(k, path[k]);
      var s', a := WalkStep(heap, rank, path, last, k, r, s, log, e);
      DryUnrolls(heap, PathReader(path, last), s, log, |path| + 1 - k, q, Some((s', a)));
      WalkArrives(heap, rank, path, last, k + 1, ReadAt(heap[r], path[k]).r, s', log + [(q, a)], e);
    }
  }

  // ---- The theorems ----

  lemma BeginGood(heap: Heap, root: Ref)
    requires root in heap
    ensures Good(heap, Begin(heap, root)) && forall e :: Unread(Begin(heap, root), e)
  {
  }

  /** Where nothing is loud, a run that asks of no array by `in`, or any run where arrays are bare, finds both alike. */
  lemma QuietIsAlike(heap: Heap, rank: map<Ref, nat>, root: Ref, reader: Adaptive, n: nat)
    requires Closed(heap) && root in heap && Acyclic(heap, rank) && Quiet(heap, root)
    requires BareArrays(heap, root) || !AsksArrays(heap, root, reader, n)
    ensures Alike(heap, root, reader, n)
  {
    var start := Begin(heap, root);
    var (final, log) := DryRun(heap, reader, start, [], n);
    BeginGood(heap, root);
    var reach := ReachIsQuiet(heap, root);
    QuietRun(heap, reach, BareArrays(heap, root), reader, start, [], n, final, log);
    forall i | 0 <= i < |log|
      ensures !Lost(heap, final, log[i].0, log[i].1)
    {
      if !KeptQuestion(BareArrays(heap, root), log[i].0) {
        assert !OfArray(heap, final, log[i].0);
      }
    }
    TreeMirror(heap, rank, root, reader, n);
  }

  /** A last question whose answer the mirror cannot give. */
  ghost predicate Telling(heap: Heap, e: Ref, last: Question) {
    && e in heap && Fits(heap[e], last.key)
    && if last.Ask? then ReadAt(heap[e], last.key) != Undefined && !Carried(heap[e], last.key)
       else heap[e].Arr? && HasKey(heap[e], last.key) && last.key != Length
  }

  lemma ArrivedLoses(heap: Heap, final: Dry, log: Log, path: seq<Key>, last: Question, e: Ref)
    requires Arrived(heap, final, log, path, last, e) && Telling(heap, e, last) && last.h == |path|
    ensures SomeLost(heap, final, log) && (last.Ask? ==> forall i :: 0 <= i < |log| ==> log[i].0.Ask?)
  {
    if last.In? {
      assert !WasRead(final.recs, e, last.key);
    }
    assert Lost(heap, final, log[|path|].0, log[|path|].1);
  }

  /** A lost answer at the end of a path tells the mirror from the request. */
  lemma PathTells(heap: Heap, rank: map<Ref, nat>, root: Ref, path: seq<Key>, e: Ref, last: Question)
    requires Closed(heap) && root in heap && Acyclic(heap, rank) && Walk(heap, root, path) == Some(e) && e in heap
    requires last.h == |path| && Telling(heap, e, last)
    ensures !Alike(heap, root, PathReader(path, last), |path| + 1)
    ensures last.Ask? ==> !AsksArrays(heap, root, PathReader(path, last), |path| + 1)
  {
    var start := Begin(heap, root);
    BeginGood(heap, root);
    assert path[0..] == path;
    WalkArrives(heap, rank, path, last, 0, root, start, [], e);
    var (final, log) := DryRun(heap, PathReader(path, last), start, [], |path| + 1);
    ArrivedLoses(heap, final, log, path, last, e);
    TreeMirror(heap, rank, root, PathReader(path, last), |path| + 1);
  }

  /**
   * For every acyclic request: all readers that ask of no array by `in`, asking any number of questions, find the
   * mirror alike exactly when nothing loud can be reached.
   */
  lemma MirrorFaithfulIffQuiet(heap: Heap, rank: map<Ref, nat>, root: Ref)
    requires Closed(heap) && root in heap && Acyclic(heap, rank)
    ensures Quiet(heap, root)
       <==> forall reader: Adaptive, n: nat :: AsksArrays(heap, root, reader, n) || Alike(heap, root, reader, n)
  {
    if Quiet(heap, root) {
      forall reader: Adaptive, n: nat | !AsksArrays(heap, root, reader, n)
        ensures Alike(heap, root, reader, n)
      {
        QuietIsAlike(heap, rank, root, reader, n);
      }
    } else {
      var e :| OnPath(heap, root, e) && Loud(heap[e]);
      var path :| Walk(heap, root, path) == Some(e);
      var key :| Fits(heap[e], key) && !Carried(heap[e], key) && ReadAt(heap[e], key) != Undefined;
      PathTells(heap, rank, root, path, e, Ask(|path|, key));
      var reader, n := PathReader(path, Ask(|path|, key)), |path| + 1;
      assert !(AsksArrays(heap, root, reader, n) || Alike(heap, root, reader, n));
    }
  }

  /** All readers whatsoever do exactly when, besides, every array that can be reached is bare. */
  lemma MirrorFaithfulIffBare(heap: Heap, rank: map<Ref, nat>, root: Ref)
    requires Closed(heap) && root in heap && Acyclic(heap, rank)
    ensures Quiet(heap, root) && BareArrays(heap, root)
       <==> forall reader: Adaptive, n: nat :: Alike(heap, root, reader, n)
  {
    if Quiet(heap, root) && BareArrays(heap, root) {
      forall reader: Adaptive, n: nat
        ensures Alike(heap, root, reader, n)
      {
        QuietIsAlike(heap, rank, root, reader, n);
      }
    } else if Quiet(heap, root) {
      var e :| OnPath(heap, root, e) && heap[e].Arr? && !BareArray(heap[e]);
      var path :| Walk(heap, root, path) == Some(e);
      var key :| HasKey(heap[e], key) && key != Length;
      PathTells(heap, rank, root, path, e, In(|path|, key));
    } else {
      MirrorFaithfulIffQuiet(heap, rank, root);
    }
  }
}
