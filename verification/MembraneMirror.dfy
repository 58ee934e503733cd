/** The mirror answers as the original did. */
module MembraneMirror {
  import opened Common
  import opened Membrane
  import opened MembraneRuns

  // ---- What a mirror node holds ----

  /** A property is there exactly when its key was read and kept, and it is the copy of what was read. */
  lemma {:induction false} PropertiesLookup(
    recs: Recordings, rec: Recording, gets: seq<(Key, Value)>, stack: set<Ref>, key: Key)
    requires Properties(recs, rec, gets, stack).Some?
    ensures var found: Option<Tree> := Lookup(Properties(recs, rec, gets, stack).value, key);
            if Lookup(gets, key).Some? && Kept(rec, key)
            then found.Some? && Materialize(recs, Lookup(gets, key).value, stack) == found
            else found.None?
    decreases |gets|
  {
    if gets != [] {
      PropertiesLookup(recs, rec, gets[1..], stack, key);
      var rest := Properties(recs, rec, gets[1..], stack).value;
      if Kept(rec, gets[0].0) {
        var t := Materialize(recs, gets[0].1, stack).value;
        assert ([(gets[0].0, t)] + rest)[1..] == rest;
      }
    }
  }

  lemma {:induction false} PastLastIsPast(gets: seq<(Key, Value)>, i: nat)
    requires Lookup(gets, Index(i)).Some?
    ensures i < PastLast(gets)
  {
    if gets[0].0 != Index(i) {
      PastLastIsPast(gets[1..], i);
    }
  }

  /** Every recorded index lies below the mirror's length. */
  lemma RecordedIndexKept(heap: Heap, node: Node, rec: Recording, key: Key)
    requires ClosedNode(heap, node) && SoundRec(node, rec) && Lookup(rec.gets, key).Some?
    requires node.Arr? ==> key.Index?
    ensures Kept(rec, key)
  {
    SoundLookup(node, rec, key);
    if node.Arr? {
      if Lookup(rec.gets, Length).Some? {
        SoundLookup(node, rec, Length);
      } else {
        PastLastIsPast(rec.gets, key.i);
      }
    }
  }

  /** A touched object's mirror: its properties, under one more object on the stack. */
  lemma MirrorOf(recs: Recordings, r: Ref, stack: set<Ref>)
    requires r in recs && recs[r].touched && Materialize(recs, Object(r), stack).Some?
    ensures r !in stack && Properties(recs, recs[r], recs[r].gets, stack + {r}).Some?
    ensures var props := Properties(recs, recs[r], recs[r].gets, stack + {r}).value;
            Materialize(recs, Object(r), stack).value
            == if recs[r].isArray then TArr(MirrorLength(recs[r].gets), props) else TObj(props + Seen(recs[r].present))
  {
  }

  lemma {:induction false} SeenLookup(present: seq<Key>, key: Key)
    ensures Lookup(Seen(present), key) == if key in present then Some(TUndefined) else None
  {
    if present != [] {
      assert Seen(present)[1..] == Seen(present[1..]);
      SeenLookup(present[1..], key);
      assert key in present <==> key == present[0] || key in present[1..];
    }
  }

  /** The mirror's answer to a key that the recording settled. */
  ghost predicate Answers(recs: Recordings, v: Value, stack: set<Ref>, t: Tree) {
    Materialize(recs, v, stack) == Some(t)
  }

  /** The final recording settles the key: it was read if it is there. */
  ghost predicate Settled(node: Node, rec: Recording, key: Key) {
    rec.touched && (HasKey(node, key) ==> Lookup(rec.gets, key).Some?)
  }

  /** A key whose value the mirror holds once it was read: never `toJSON`, and no name of an array. */
  predicate Carried(node: Node, key: Key) {
    key != TO_JSON && (node.Arr? ==> !key.Name?)
  }

  lemma ArrayRead(heap: Heap, recs: Recordings, r: Ref, stack: set<Ref>, key: Key)
    requires Closed(heap) && Sound(heap, recs) && r in recs && heap[r].Arr? && !key.Name?
    requires Settled(heap[r], recs[r], key) && Materialize(recs, Object(r), stack).Some?
    ensures Answers(recs, ReadAt(heap[r], key), stack + {r}, TreeRead(Materialize(recs, Object(r), stack).value, key))
  {
    var rec := recs[r];
    assert ClosedNode(heap, heap[r]) && SoundRec(heap[r], rec);
    MirrorOf(recs, r, stack);
    if Lookup(rec.gets, key).Some? {
      SoundLookup(heap[r], rec, key);
    }
    if key != Length {
      PropertiesLookup(recs, rec, rec.gets, stack + {r}, key);
      if HasKey(heap[r], key) {
        RecordedIndexKept(heap, heap[r], rec, key);
      }
    }
  }

  lemma ObjectLookup(heap: Heap, recs: Recordings, r: Ref, stack: set<Ref>, key: Key)
    requires Sound(heap, recs) && r in recs && heap[r].Obj? && recs[r].touched
    requires Materialize(recs, Object(r), stack).Some?
    ensures var t := Materialize(recs, Object(r), stack).value;
            && t.TObj?
            && (var got: Option<Value> := Lookup(recs[r].gets, key);
                var found: Option<Tree> := Lookup(t.fields, key);
                if got.Some? then found.Some? && Materialize(recs, got.value, stack + {r}) == found
                else found == if key in recs[r].present then Some(TUndefined) else None)
  {
    var rec := recs[r];
    assert SoundRec(heap[r], rec);
    MirrorOf(recs, r, stack);
    PropertiesLookup(recs, rec, rec.gets, stack + {r}, key);
    SeenLookup(rec.present, key);
    LookupAppend(Properties(recs, rec, rec.gets, stack + {r}).value, Seen(rec.present), key);
  }

  lemma ObjectRead(heap: Heap, recs: Recordings, r: Ref, stack: set<Ref>, key: Key)
    requires Sound(heap, recs) && r in recs && heap[r].Obj? && Fits(heap[r], key)
    requires Settled(heap[r], recs[r], key) && Materialize(recs, Object(r), stack).Some?
    ensures Answers(recs, ReadAt(heap[r], key), stack + {r}, TreeRead(Materialize(recs, Object(r), stack).value, key))
  {
    assert SoundRec(heap[r], recs[r]);
    ObjectLookup(heap, recs, r, stack, key);
    if Lookup(recs[r].gets, key).Some? {
      SoundLookup(heap[r], recs[r], key);
    }
  }

  /** What a settled read finds in the mirror is the copy of what it found. */
  lemma NodeRead(heap: Heap, recs: Recordings, r: Ref, stack: set<Ref>, key: Key)
    requires Closed(heap) && Sound(heap, recs) && r in recs && Fits(heap[r], key) && Carried(heap[r], key)
    requires Settled(heap[r], recs[r], key) && Materialize(recs, Object(r), stack).Some?
    ensures Answers(recs, ReadAt(heap[r], key), stack + {r}, TreeRead(Materialize(recs, Object(r), stack).value, key))
  {
    if heap[r].Arr? {
      ArrayRead(heap, recs, r, stack, key);
    } else {
      ObjectRead(heap, recs, r, stack, key);
    }
  }

  /** A copied value answers as the value does. */
  lemma SameAnswer(heap: Heap, recs: Recordings, v: Value, stack: set<Ref>, t: Tree)
    requires Sound(heap, recs) && Answers(recs, v, stack, t)
    ensures TreeAnswer(t) == AnswerOf(heap, v)
  {
    if v.Object? {
      assert SoundRec(heap[v.r], recs[v.r]);
    }
  }

  // ---- One question ----

  /** The mirror's objects are the copies of the original's, from the final recordings. */
  ghost predicate Copies(recs: Recordings, s: Dry, trees: seq<Tree>, stacks: seq<set<Ref>>) {
    && |s.handles| == |trees| == |stacks|
    && forall i :: 0 <= i < |s.handles| ==>
         s.handles[i].wrapped && s.handles[i].r in recs && Answers(recs, Object(s.handles[i].r), stacks[i], trees[i])
  }

  /** The key of `r` was read, and its read is in the recording. */
  predicate WasRead(recs: Recordings, r: Ref, key: Key) {
    r in recs && (var got: Option<Value> := Lookup(recs[r].gets, key); got.Some?)
  }

  /**
   * An answer that the mirror made from `recs` cannot give: the value of a key it does not carry, or that an array has
   * a name, or an index which was asked for by `in` and never read.
   */
  predicate LostAt(heap: Heap, recs: Recordings, r: Ref, q: Question, a: Answer) {
    && r in heap
    && match q
       case Ask(_, key) => a != AUndefined && !Carried(heap[r], key)
       case In(_, key) =>
         a == ABool(true) && heap[r].Arr? && key != Length && !(key.Index? && WasRead(recs, r, key))
  }

  /** The same, at the end of a run. */
  predicate Lost(heap: Heap, final: Dry, q: Question, a: Answer) {
    q.h < |final.handles| && LostAt(heap, final.recs, final.handles[q.h].r, q, a)
  }

  lemma KindsAgree(heap: Heap, recs: Recordings, s: Dry, q: Question, trees: seq<Tree>, stacks: seq<set<Ref>>)
    requires Sound(heap, recs) && Copies(recs, s, trees, stacks) && q.h < |trees|
    ensures TreeFits(trees[q.h], q.key) <==> Fits(heap[s.handles[q.h].r], q.key)
  {
    var r := s.handles[q.h].r;
    assert SoundRec(heap[r], recs[r]);
  }

  lemma ReadAgrees(heap: Heap, recs: Recordings, s: Dry, q: Question, trees: seq<Tree>, stacks: seq<set<Ref>>)
    returns (stacks': seq<set<Ref>>)
    requires Closed(heap) && Good(heap, s) && Sound(heap, recs) && Copies(recs, s, trees, stacks)
    requires q.Ask? && DryStep(heap, s, q).Some? && Grows(DryStep(heap, s, q).value.0.recs, recs)
    requires !LostAt(heap, recs, s.handles[q.h].r, q, DryStep(heap, s, q).value.1)
    ensures MirrorStep(trees, q).Some?
    ensures MirrorStep(trees, q).value.1 == DryStep(heap, s, q).value.1
    ensures Copies(recs, DryStep(heap, s, q).value.0, MirrorStep(trees, q).value.0, stacks')
  {
    var r := s.handles[q.h].r;
    var v := ReadAt(heap[r], q.key);
    KindsAgree(heap, recs, s, q, trees, stacks);
    GetGrows(heap, s.recs, r, q.key);
    var after := AfterGet(heap, s.recs, r, q.key);
    assert Within(after[r], recs[r]);
    KeyRead(heap, recs, r, stacks[q.h], q);
    stacks' := if v.Object? then stacks + [stacks[q.h] + {r}] else stacks;
  }

  /** What both say to a read: the mirror answers with a copy, unless the answer is lost. */
  lemma KeyRead(heap: Heap, recs: Recordings, r: Ref, stack: set<Ref>, q: Question)
    requires Closed(heap) && Sound(heap, recs) && r in recs && q.Ask? && Fits(heap[r], q.key)
    requires Materialize(recs, Object(r), stack).Some?
    requires q.key != TO_JSON ==> Settled(heap[r], recs[r], q.key)
    requires !LostAt(heap, recs, r, q, AnswerOf(heap, ReadAt(heap[r], q.key)))
    ensures var t, v := TreeRead(Materialize(recs, Object(r), stack).value, q.key), ReadAt(heap[r], q.key);
            TreeAnswer(t) == AnswerOf(heap, v) && (v.Object? ==> v.r in recs && Answers(recs, v, stack + {r}, t))
  {
    if Carried(heap[r], q.key) {
      NodeRead(heap, recs, r, stack, q.key);
      var t := TreeRead(Materialize(recs, Object(r), stack).value, q.key);
      SameAnswer(heap, recs, ReadAt(heap[r], q.key), stack + {r}, t);
    } else {
      LostRead(heap, recs, r, stack, q.key);
    }
  }

  /** A key the mirror does not carry has no value in it. */
  lemma LostRead(heap: Heap, recs: Recordings, r: Ref, stack: set<Ref>, key: Key)
    requires Closed(heap) && Sound(heap, recs) && r in recs && Materialize(recs, Object(r), stack).Some?
    requires Fits(heap[r], key) && !Carried(heap[r], key)
    ensures TreeRead(Materialize(recs, Object(r), stack).value, key) == TUndefined
  {
    assert SoundRec(heap[r], recs[r]);
    if recs[r].touched {
      if heap[r].Arr? {
        ArrayHas(heap, recs, r, stack, key);
      } else {
        ObjectLookup(heap, recs, r, stack, key);
        if Lookup(recs[r].gets, key).Some? {
          SoundLookup(heap[r], recs[r], key);
        }
      }
    }
  }

  /** A touched array's mirror has its length, and the indices that were read. */
  lemma ArrayHas(heap: Heap, recs: Recordings, r: Ref, stack: set<Ref>, key: Key)
    requires Closed(heap) && Sound(heap, recs) && r in recs && heap[r].Arr? && recs[r].touched
    requires Materialize(recs, Object(r), stack).Some?
    ensures var t := Materialize(recs, Object(r), stack).value;
            t.TArr? && (TreeHas(t, key) <==> key == Length || (key.Index? && WasRead(recs, r, key)))
  {
    var rec := recs[r];
    assert SoundRec(heap[r], rec);
    MirrorOf(recs, r, stack);
    PropertiesLookup(recs, rec, rec.gets, stack + {r}, key);
    if key.Index? && Lookup(rec.gets, key).Some? {
      assert ClosedNode(heap, heap[r]);
      RecordedIndexKept(heap, heap[r], rec, key);
    }
  }

  /** What both say of an array's key: the mirror has it unless the answer is lost. */
  lemma ArrayIn(heap: Heap, recs: Recordings, r: Ref, stack: set<Ref>, key: Key, h: nat)
    requires Closed(heap) && Sound(heap, recs) && r in recs && heap[r].Arr? && recs[r].touched
    requires Materialize(recs, Object(r), stack).Some?
    ensures TreeHas(Materialize(recs, Object(r), stack).value, key) == HasKey(heap[r], key)
       <==> !LostAt(heap, recs, r, In(h, key), ABool(HasKey(heap[r], key)))
  {
    ArrayHas(heap, recs, r, stack, key);
    assert SoundRec(heap[r], recs[r]);
    if Lookup(recs[r].gets, key).Some? {
      SoundLookup(heap[r], recs[r], key);
    }
  }

  lemma InAgrees(heap: Heap, recs: Recordings, s: Dry, q: Question, trees: seq<Tree>, stacks: seq<set<Ref>>)
    requires Closed(heap) && Good(heap, s) && Sound(heap, recs) && Copies(recs, s, trees, stacks)
    requires q.In? && DryStep(heap, s, q).Some? && Grows(DryStep(heap, s, q).value.0.recs, recs)
    ensures MirrorStep(trees, q).Some?
    ensures MirrorStep(trees, q).value.1 == DryStep(heap, s, q).value.1
       <==> !LostAt(heap, recs, s.handles[q.h].r, q, DryStep(heap, s, q).value.1)
    ensures Copies(recs, DryStep(heap, s, q).value.0, MirrorStep(trees, q).value.0, stacks)
  {
    var r := s.handles[q.h].r;
    KindsAgree(heap, recs, s, q, trees, stacks);
    HasGrows(heap, s.recs, r, q.key);
    assert Within(AfterHas(heap, s.recs, r, q.key)[r], recs[r]);
    NodeIn(heap, recs, r, stacks[q.h], q);
  }

  /** What both say of a key of a node: the mirror agrees unless the answer is lost. */
  lemma NodeIn(heap: Heap, recs: Recordings, r: Ref, stack: set<Ref>, q: Question)
    requires Closed(heap) && Sound(heap, recs) && r in recs && recs[r].touched && q.In?
    requires Materialize(recs, Object(r), stack).Some?
    requires HasKey(heap[r], q.key) ==> Lookup(recs[r].gets, q.key).Some? || q.key in recs[r].present
    ensures TreeHas(Materialize(recs, Object(r), stack).value, q.key) == HasKey(heap[r], q.key)
       <==> !LostAt(heap, recs, r, q, ABool(HasKey(heap[r], q.key)))
  {
    if heap[r].Arr? {
      ArrayIn(heap, recs, r, stack, q.key, q.h);
    } else {
      PropertyIffKey(heap, recs, r, stack, q.key);
    }
  }

  /** A key that was settled by `in`, or by a read, is a property of the mirror exactly when the request has it. */
  lemma PropertyIffKey(heap: Heap, recs: Recordings, r: Ref, stack: set<Ref>, key: Key)
    requires Sound(heap, recs) && r in recs && heap[r].Obj? && recs[r].touched
    requires Materialize(recs, Object(r), stack).Some?
    requires HasKey(heap[r], key) ==> Lookup(recs[r].gets, key).Some? || key in recs[r].present
    ensures var t := Materialize(recs, Object(r), stack).value;
            t.TObj? && (TreeHas(t, key) <==> HasKey(heap[r], key))
  {
    var rec := recs[r];
    assert SoundRec(heap[r], rec);
    ObjectLookup(heap, recs, r, stack, key);
    if Lookup(rec.gets, key).Some? {
      SoundLookup(heap[r], rec, key);
    } else if key in rec.present {
      var i :| 0 <= i < |rec.present| && rec.present[i] == key;
      assert HasKey(heap[r], rec.present[i]);
    }
  }

  // ---- The whole run ----

  /** Some answer of the run is lost. */
  ghost predicate SomeLost(heap: Heap, final: Dry, log: Log) {
    exists i :: 0 <= i < |log| && Lost(heap, final, log[i].0, log[i].1)
  }

  lemma {:induction false} LogGrows(heap: Heap, reader: Adaptive, s: Dry, log: Log, n: nat)
    ensures log <= DryRun(heap, reader, s, log, n).1
    decreases n
  {
    if n > 0 && reader(log).Some? && DryStep(heap, s, reader(log).value).Some? {
      var q := reader(log).value;
      var step := DryStep(heap, s, q).value;
      LogGrows(heap, reader, step.0, log + [(q, step.1)], n - 1);
    }
  }

  lemma {:induction false} MirrorLogGrows(reader: Adaptive, trees: seq<Tree>, log: Log, n: nat)
    ensures log <= MirrorRun(reader, trees, log, n)
    decreases n
  {
    if n > 0 && reader(log).Some? && MirrorStep(trees, reader(log).value).Some? {
      var q := reader(log).value;
      var step := MirrorStep(trees, q).value;
      MirrorLogGrows(reader, step.0, log + [(q, step.1)], n - 1);
    }
  }

  lemma StopsAlike(heap: Heap, recs: Recordings, s: Dry, q: Question, trees: seq<Tree>, stacks: seq<set<Ref>>)
    requires Good(heap, s) && Sound(heap, recs) && Copies(recs, s, trees, stacks) && DryStep(heap, s, q).None?
    ensures MirrorStep(trees, q).None?
  {
    if q.h < |trees| {
      KindsAgree(heap, recs, s, q, trees, stacks);
    }
  }

  /** The mirror's turn, when the original's answer is not lost. */
  lemma StepAgrees(heap: Heap, recs: Recordings, s: Dry, q: Question, trees: seq<Tree>, stacks: seq<set<Ref>>,
                   s': Dry, a: Answer)
    returns (trees': seq<Tree>, stacks': seq<set<Ref>>)
    requires Closed(heap) && Good(heap, s) && Sound(heap, recs) && Copies(recs, s, trees, stacks)
    requires DryStep(heap, s, q) == Some((s', a)) && Grows(s'.recs, recs) && !LostAt(heap, recs, s.handles[q.h].r, q, a)
    ensures MirrorStep(trees, q) == Some((trees', a)) && Copies(recs, s', trees', stacks')
  {
    if q.Ask? {
      stacks' := ReadAgrees(heap, recs, s, q, trees, stacks);
    } else {
      InAgrees(heap, recs, s, q, trees, stacks);
      stacks' := stacks;
    }
    trees' := MirrorStep(trees, q).value.0;
  }

  /** The original's turn. */
  lemma DryTurn(heap: Heap, reader: Adaptive, s: Dry, log: Log, n: nat, q: Question) returns (s': Dry, a: Answer)
    requires Closed(heap) && Good(heap, s) && n > 0 && reader(log) == Some(q) && DryStep(heap, s, q).Some?
    ensures DryStep(heap, s, q) == Some((s', a)) && Good(heap, s')
    ensures DryRun(heap, reader, s, log, n) == DryRun(heap, reader, s', log + [(q, a)], n - 1)
    ensures Grows(s'.recs, DryRun(heap, reader, s, log, n).0.recs)
  {
    s', a := StepTaken(heap, s, q);
    DryUnrolls(heap, reader, s, log, n, q, Some((s', a)));
    RunGrows(heap, reader, s', log + [(q, a)], n - 1);
  }

  lemma StepTaken(heap: Heap, s: Dry, q: Question) returns (s': Dry, a: Answer)
    requires Closed(heap) && Good(heap, s) && DryStep(heap, s, q).Some?
    ensures DryStep(heap, s, q) == Some((s', a)) && Good(heap, s')
  {
    StepGood(heap, s, q);
    s', a := DryStep(heap, s, q).value.0, DryStep(heap, s, q).value.1;
  }

  /** The mirror's turn where the answer is lost: it gives another. */
  lemma StepLoses(heap: Heap, recs: Recordings, s: Dry, q: Question, trees: seq<Tree>, stacks: seq<set<Ref>>,
                  s': Dry, a: Answer)
    requires Closed(heap) && Good(heap, s) && Sound(heap, recs) && Copies(recs, s, trees, stacks)
    requires DryStep(heap, s, q) == Some((s', a)) && Grows(s'.recs, recs) && LostAt(heap, recs, s.handles[q.h].r, q, a)
    ensures MirrorStep(trees, q).Some? && MirrorStep(trees, q).value.1 != a
  {
    if q.Ask? {
      KindsAgree(heap, recs, s, q, trees, stacks);
      LostRead(heap, recs, s.handles[q.h].r, stacks[q.h], q.key);
    } else {
      InAgrees(heap, recs, s, q, trees, stacks);
    }
  }

  /** One turn of the original's run. */
  lemma DryUnrolls(heap: Heap, reader: Adaptive, s: Dry, log: Log, n: nat, q: Question, step: Option<(Dry, Answer)>)
    requires n > 0 && reader(log) == Some(q) && step == DryStep(heap, s, q)
    ensures DryRun(heap, reader, s, log, n)
         == if step.None? then (s, log) else DryRun(heap, reader, step.value.0, log + [(q, step.value.1)], n - 1)
    ensures step.Some? ==> log + [(q, step.value.1)] <= DryRun(heap, reader, s, log, n).1
  {
    if step.Some? {
      LogGrows(heap, reader, step.value.0, log + [(q, step.value.1)], n - 1);
    }
  }

  /** One turn of the mirror's run. */
  lemma MirrorUnrolls(reader: Adaptive, trees: seq<Tree>, log: Log, n: nat, q: Question,
                      step: Option<(seq<Tree>, Answer)>)
    requires n > 0 && reader(log) == Some(q) && step == MirrorStep(trees, q)
    ensures MirrorRun(reader, trees, log, n)
         == if step.None? then log else MirrorRun(reader, step.value.0, log + [(q, step.value.1)], n - 1)
    ensures step.Some? ==> log + [(q, step.value.1)] <= MirrorRun(reader, trees, log, n)
  {
    if step.Some? {
      MirrorLogGrows(reader, step.value.0, log + [(q, step.value.1)], n - 1);
    }
  }

  /** Logs with different answers at one place are different. */
  lemma LogsPart(heap: Heap, final: Dry, log: Log, q: Question, a: Answer, b: Answer, x: Log, y: Log)
    requires log + [(q, a)] <= x && log + [(q, b)] <= y && a != b && Lost(heap, final, q, a)
    ensures x != y && SomeLost(heap, final, x)
  {
    assert x[|log|] == (log + [(q, a)])[|log|] == (q, a);
    assert y[|log|] == (log + [(q, b)])[|log|] == (q, b);
  }

  /** A question neither can be asked ends both runs. */
  lemma TurnStops(heap: Heap, reader: Adaptive, s: Dry, log: Log, n: nat, recs: Recordings, trees: seq<Tree>,
                  stacks: seq<set<Ref>>, q: Question)
    requires Good(heap, s) && Sound(heap, recs) && Copies(recs, s, trees, stacks)
    requires n > 0 && reader(log) == Some(q) && DryStep(heap, s, q).None?
    ensures MirrorRun(reader, trees, log, n) == log && DryRun(heap, reader, s, log, n).1 == log
  {
    StopsAlike(heap, recs, s, q, trees, stacks);
  }

  /** What the rest of a run is made of: its last state, and the copies of what is in the reader's hands. */
  ghost predicate Running(heap: Heap, reader: Adaptive, s: Dry, log: Log, n: nat, final: Dry, trees: seq<Tree>,
                          stacks: seq<set<Ref>>) {
    && Closed(heap) && Good(heap, s) && final == DryRun(heap, reader, s, log, n).0 && Sound(heap, final.recs)
    && Copies(final.recs, s, trees, stacks)
  }

  /** What is asked of is the same object at the end. */
  lemma SameHandle(heap: Heap, reader: Adaptive, s: Dry, log: Log, n: nat, h: nat)
    requires h < |s.handles|
    ensures var final := DryRun(heap, reader, s, log, n).0;
            h < |final.handles| && final.handles[h] == s.handles[h]
  {
    HandlesGrow(heap, reader, s, log, n);
  }

  /** The runs part where an answer is lost. */
  lemma TurnLoses(heap: Heap, reader: Adaptive, s: Dry, log: Log, n: nat, final: Dry, trees: seq<Tree>,
                  stacks: seq<set<Ref>>, q: Question, s': Dry, a: Answer)
    requires Running(heap, reader, s, log, n, final, trees, stacks) && n > 0 && reader(log) == Some(q)
    requires DryStep(heap, s, q) == Some((s', a)) && Grows(s'.recs, final.recs) && Lost(heap, final, q, a)
    requires final.handles[q.h] == s.handles[q.h]
    ensures MirrorRun(reader, trees, log, n) != DryRun(heap, reader, s, log, n).1
    ensures SomeLost(heap, final, DryRun(heap, reader, s, log, n).1)
  {
    DryUnrolls(heap, reader, s, log, n, q, Some((s', a)));
    StepLoses(heap, final.recs, s, q, trees, stacks, s', a);
    var step := MirrorStep(trees, q);
    MirrorUnrolls(reader, trees, log, n, q, step);
    var dry, mirror := DryRun(heap, reader, s, log, n).1, MirrorRun(reader, trees, log, n);
    LogsPart(heap, final, log, q, a, step.value.1, dry, mirror);
  }

  lemma StillKept(heap: Heap, final: Dry, log: Log, q: Question, a: Answer)
    requires !SomeLost(heap, final, log) && !Lost(heap, final, q, a)
    ensures !SomeLost(heap, final, log + [(q, a)])
  {
  }

  /** Any other question gets the same answer from both, and both go on. */
  lemma TurnGoesOn(heap: Heap, reader: Adaptive, s: Dry, log: Log, n: nat, final: Dry, trees: seq<Tree>,
                   stacks: seq<set<Ref>>, q: Question, s': Dry, a: Answer)
    returns (trees': seq<Tree>, stacks': seq<set<Ref>>)
    requires Running(heap, reader, s, log, n, final, trees, stacks) && n > 0 && reader(log) == Some(q)
    requires DryStep(heap, s, q) == Some((s', a)) && Good(heap, s') && Grows(s'.recs, final.recs)
    requires DryRun(heap, reader, s, log, n) == DryRun(heap, reader, s', log + [(q, a)], n - 1)
    requires !LostAt(heap, final.recs, s.handles[q.h].r, q, a)
    ensures Running(heap, reader, s', log + [(q, a)], n - 1, final, trees', stacks')
    ensures MirrorRun(reader, trees, log, n) == MirrorRun(reader, trees', log + [(q, a)], n - 1)
  {
    trees', stacks' := StepAgrees(heap, final.recs, s, q, trees, stacks, s', a);
    MirrorUnrolls(reader, trees, log, n, q, Some((trees', a)));
  }

  /** One question put to both: the runs stop alike, part at a lost answer, or go on with copies. */
  lemma Turn(heap: Heap, reader: Adaptive, s: Dry, log: Log, n: nat, final: Dry, trees: seq<Tree>,
             stacks: seq<set<Ref>>, q: Question)
    returns (goesOn: bool, s': Dry, a: Answer, trees': seq<Tree>, stacks': seq<set<Ref>>)
    requires Running(heap, reader, s, log, n, final, trees, stacks) && n > 0 && reader(log) == Some(q)
    requires !SomeLost(heap, final, log)
    ensures !goesOn ==> (MirrorRun(reader, trees, log, n) == DryRun(heap, reader, s, log, n).1
                         <==> !SomeLost(heap, final, DryRun(heap, reader, s, log, n).1))
    ensures goesOn ==>
              && Running(heap, reader, s', log + [(q, a)], n - 1, final, trees', stacks') && !Lost(heap, final, q, a)
              && DryRun(heap, reader, s, log, n) == DryRun(heap, reader, s', log + [(q, a)], n - 1)
              && MirrorRun(reader, trees, log, n) == MirrorRun(reader, trees', log + [(q, a)], n - 1)
  {
    goesOn, s', a, trees', stacks' := false, s, AUndefined, trees, stacks;
    if DryStep(heap, s, q).None? {
      TurnStops(heap, reader, s, log, n, final.recs, trees, stacks, q);
      return;
    }
    s', a := DryTurn(heap, reader, s, log, n, q);
    SameHandle(heap, reader, s, log, n, q.h);
    goesOn := !Lost(heap, final, q, a);
    if goesOn {
      trees', stacks' := TurnGoesOn(heap, reader, s, log, n, final, trees, stacks, q, s', a);
    } else {
      TurnLoses(heap, reader, s, log, n, final, trees, stacks, q, s', a);
    }
  }

  /** A run that asks no more is over for both. */
  lemma NoQuestion(heap: Heap, reader: Adaptive, s: Dry, log: Log, n: nat, trees: seq<Tree>)
    requires n == 0 || reader(log).None?
    ensures DryRun(heap, reader, s, log, n).1 == log == MirrorRun(reader, trees, log, n)
  {
  }

  /** From copies of what is in the reader's hands, the two runs agree exactly when no answer is lost. */
  lemma {:induction false} RunsAgree(heap: Heap, reader: Adaptive, s: Dry, log: Log, n: nat, final: Dry,
                                     trees: seq<Tree>, stacks: seq<set<Ref>>, dry: Log, mirror: Log)
    requires Running(heap, reader, s, log, n, final, trees, stacks) && !SomeLost(heap, final, log)
    requires dry == DryRun(heap, reader, s, log, n).1 && mirror == MirrorRun(reader, trees, log, n)
    ensures mirror == dry <==> !SomeLost(heap, final, dry)
    decreases n
  {
    if n == 0 || reader(log).None? {
      NoQuestion(heap, reader, s, log, n, trees);
    } else {
      var q := reader(log).value;
      var goesOn, s', a, trees', stacks' := Turn(heap, reader, s, log, n, final, trees, stacks, q);
      if goesOn {
        StillKept(heap, final, log, q, a);
        RunsAgree(heap, reader, s', log + [(q, a)], n - 1, final, trees', stacks', dry, mirror);
      }
    }
  }

  /**
   * The mirror built after a dry run of any adaptive reader asks and answers as the dry run did, exactly when
   * no answer of the dry run is lost.
   */
  lemma MirrorAnswersAlike(heap: Heap, root: Ref, reader: Adaptive, n: nat)
    requires Closed(heap) && root in heap
    ensures var start := Begin(heap, root);
            var (final, log) := DryRun(heap, reader, start, [], n);
            var mirror := Materialize(final.recs, Object(root), {});
            mirror.Some? ==> (MirrorRun(reader, [mirror.value], [], n) == log <==> !SomeLost(heap, final, log))
  {
    var start := Begin(heap, root);
    RunGrows(heap, reader, start, [], n);
    var (final, log) := DryRun(heap, reader, start, [], n);
    assert root in start.recs && root in final.recs;
    var mirror := Materialize(final.recs, Object(root), {});
    if mirror.Some? {
      RunsAgree(heap, reader, start, [], n, final, [mirror.value], [{}], log, MirrorRun(reader, [mirror.value], [], n));
    }
  }

  // ---- A tree always has its mirror ----

  /** Children come after their parents: no object is inside itself. */
  ghost predicate Acyclic(heap: Heap, rank: map<Ref, nat>) {
    forall r :: r in heap ==> r in rank && forall k :: Below(heap, rank, r, ReadAt(heap[r], k))
  }

  ghost predicate Below(heap: Heap, rank: map<Ref, nat>, r: Ref, v: Value)
    requires r in rank
  {
    v.Object? ==> v.r in rank && rank[v.r] < rank[r]
  }

  /** The objects on the stack are above the one being copied. */
  ghost predicate AllAbove(rank: map<Ref, nat>, stack: set<Ref>, v: Value) {
    v.Object? ==> v.r in rank && forall r :: r in stack ==> r in rank && rank[v.r] < rank[r]
  }

  /** Every object that was read has a recording of its own. */
  ghost predicate Wrapped(recs: Recordings) {
    forall r :: r in recs ==> WrappedRec(recs, recs[r])
  }

  ghost predicate WrappedRec(recs: Recordings, rec: Recording) {
    forall i :: 0 <= i < |rec.gets| && rec.gets[i].1.Object? ==> rec.gets[i].1.r in recs
  }

  lemma GetWrapped(heap: Heap, recs: Recordings, r: Ref, key: Key)
    requires Closed(heap) && r in heap && r in recs && Wrapped(recs)
    ensures Wrapped(AfterGet(heap, recs, r, key))
  {
    var v := ReadAt(heap[r], key);
    var after := AfterGet(heap, recs, r, key);
    assert ClosedNode(heap, heap[r]) && WrappedRec(recs, recs[r]);
    forall q | q in after
      ensures WrappedRec(after, after[q])
    {
      assert q in recs ==> WrappedRec(recs, recs[q]);
    }
  }

  lemma HasWrapped(heap: Heap, recs: Recordings, r: Ref, key: Key)
    requires r in heap && r in recs && Wrapped(recs)
    ensures Wrapped(AfterHas(heap, recs, r, key))
  {
    var after := AfterHas(heap, recs, r, key);
    forall q | q in after
      ensures WrappedRec(after, after[q])
    {
      assert WrappedRec(recs, recs[q]);
    }
  }

  lemma {:induction false} RunWrapped(heap: Heap, reader: Adaptive, s: Dry, log: Log, n: nat)
    requires Closed(heap) && Wrapped(s.recs)
    ensures Wrapped(DryRun(heap, reader, s, log, n).0.recs)
    decreases n
  {
    if n > 0 && reader(log).Some? && DryStep(heap, s, reader(log).value).Some? {
      var q := reader(log).value;
      var Handle(r, wrapped) := s.handles[q.h];
      if wrapped {
        if q.Ask? {
          GetWrapped(heap, s.recs, r, q.key);
        } else {
          HasWrapped(heap, s.recs, r, q.key);
        }
      }
      var step := DryStep(heap, s, q).value;
      RunWrapped(heap, reader, step.0, log + [(q, step.1)], n - 1);
    }
  }

  lemma {:induction false} AcyclicMaterializes(
    heap: Heap, rank: map<Ref, nat>, recs: Recordings, v: Value, stack: set<Ref>)
    requires Acyclic(heap, rank) && Sound(heap, recs) && Wrapped(recs) && AllAbove(rank, stack, v)
    requires v.Object? ==> v.r in recs
    ensures Materialize(recs, v, stack).Some?
    decreases Remaining(recs.Keys, stack), 0
  {
    if v.Object? && recs[v.r].touched {
      RemainingShrinks(recs.Keys, stack, v.r);
      assert SoundRec(heap[v.r], recs[v.r]);
      AcyclicProperties(heap, rank, recs, v.r, 0, stack + {v.r});
      assert recs[v.r].gets[0..] == recs[v.r].gets;
    }
  }

  lemma {:induction false} AcyclicProperties(
    heap: Heap, rank: map<Ref, nat>, recs: Recordings, r: Ref, i: nat, stack: set<Ref>)
    requires Acyclic(heap, rank) && Sound(heap, recs) && Wrapped(recs) && r in recs && i <= |recs[r].gets|
    requires forall q :: q in stack ==> q in rank && r in rank && rank[r] <= rank[q]
    ensures Properties(recs, recs[r], recs[r].gets[i..], stack).Some?
    decreases Remaining(recs.Keys, stack), 1 + |recs[r].gets| - i
  {
    if i < |recs[r].gets| {
      var rest := recs[r].gets[i..];
      assert rest[0] == recs[r].gets[i] && rest[1..] == recs[r].gets[i + 1..];
      AcyclicProperties(heap, rank, recs, r, i + 1, stack);
      var key := recs[r].gets[i].0;
      assert SoundRec(heap[r], recs[r]) && SoundRead(heap[r], key, recs[r].gets[i].1);
      assert Below(heap, rank, r, ReadAt(heap[r], key));
      AcyclicMaterializes(heap, rank, recs, recs[r].gets[i].1, stack);
    }
  }

  /**
   * For every acyclic request, every adaptive reader and every number of questions: the mirror exists, and it asks
   * and answers as the original did, exactly when no answer of the original is lost.
   */
  lemma TreeMirror(heap: Heap, rank: map<Ref, nat>, root: Ref, reader: Adaptive, n: nat)
    requires Closed(heap) && root in heap && Acyclic(heap, rank)
    ensures var start := Begin(heap, root);
            var (final, log) := DryRun(heap, reader, start, [], n);
            var mirror := Materialize(final.recs, Object(root), {});
            mirror.Some? && (MirrorRun(reader, [mirror.value], [], n) == log <==> !SomeLost(heap, final, log))
  {
    var start := Begin(heap, root);
    var final := DryRun(heap, reader, start, [], n).0;
    RunGrows(heap, reader, start, [], n);
    RunWrapped(heap, reader, start, [], n);
    assert root in start.recs && root in final.recs;
    AcyclicMaterializes(heap, rank, final.recs, Object(root), {});
    MirrorAnswersAlike(heap, root, reader, n);
  }

  // ---- Which keys were read ----

  predicate IsRead(handles: seq<Handle>, q: Question, r: Ref, key: Key) {
    q == Ask(q.h, key) && q.h < |handles| && handles[q.h] == Handle(r, true)
  }

  /** Some question of the log read this key of this object, through its proxy. */
  ghost predicate Asked(handles: seq<Handle>, log: Log, r: Ref, key: Key) {
    exists j :: 0 <= j < |log| && IsRead(handles, log[j].0, r, key)
  }

  ghost predicate InHand(s: Dry, log: Log) {
    forall j :: 0 <= j < |log| ==> log[j].0.h < |s.handles|
  }

  /** The recording holds exactly the keys asked for and found. */
  ghost predicate Logged(heap: Heap, s: Dry, log: Log) {
    && InHand(s, log)
    && (forall r, k :: WasRead(s.recs, r, k) ==> Asked(s.handles, log, r, k))
    && forall r, k :: Asked(s.handles, log, r, k) && r in heap && k != TO_JSON && HasKey(heap[r], k) ==>
         WasRead(s.recs, r, k)
  }

  lemma GetReads(heap: Heap, recs: Recordings, r: Ref, key: Key, r': Ref, k: Key)
    requires r in heap && r in recs
    ensures WasRead(AfterGet(heap, recs, r, key), r', k) ==> WasRead(recs, r', k) || (r' == r && k == key)
  {
    LookupAppend(recs[r].gets, [(key, ReadAt(heap[r], key))], k);
  }

  lemma StillRead(recs: Recordings, after: Recordings, r: Ref, k: Key)
    requires Grows(recs, after) && WasRead(recs, r, k)
    ensures WasRead(after, r, k)
  {
    assert Within(recs[r], after[r]);
  }

  lemma AskedMore(s: Dry, log: Log, q: Question, s': Dry, a: Answer, r: Ref, k: Key)
    requires InHand(s, log) && s.handles <= s'.handles && q.h < |s.handles|
    ensures Asked(s'.handles, log + [(q, a)], r, k) <==> Asked(s.handles, log, r, k) || IsRead(s.handles, q, r, k)
  {
    var more := log + [(q, a)];
    assert more[|log|] == (q, a) && forall j :: 0 <= j < |log| ==> more[j] == log[j];
    if Asked(s.handles, log, r, k) {
      var j :| 0 <= j < |log| && IsRead(s.handles, log[j].0, r, k);
      assert IsRead(s'.handles, more[j].0, r, k);
    }
    if IsRead(s.handles, q, r, k) {
      assert IsRead(s'.handles, more[|log|].0, r, k);
    }
    if Asked(s'.handles, more, r, k) {
      var j :| 0 <= j < |more| && IsRead(s'.handles, more[j].0, r, k);
      assert j < |log| ==> IsRead(s.handles, log[j].0, r, k);
    }
  }

  /** One question reads the key it asks for, and no other. */
  lemma StepReads(heap: Heap, s: Dry, q: Question, s': Dry, a: Answer, r: Ref, k: Key)
    requires Closed(heap) && Good(heap, s) && DryStep(heap, s, q) == Some((s', a))
    ensures WasRead(s'.recs, r, k) ==> WasRead(s.recs, r, k) || IsRead(s.handles, q, r, k)
    ensures WasRead(s.recs, r, k) ==> WasRead(s'.recs, r, k)
    ensures IsRead(s.handles, q, r, k) && k != TO_JSON && HasKey(heap[r], k) ==> WasRead(s'.recs, r, k)
  {
    StepGood(heap, s, q);
    if WasRead(s.recs, r, k) {
      StillRead(s.recs, s'.recs, r, k);
    }
    var Handle(o, wrapped) := s.handles[q.h];
    if wrapped && q.Ask? {
      GetReads(heap, s.recs, o, q.key, r, k);
      GetGrows(heap, s.recs, o, q.key);
    }
  }

  lemma StepLogged(heap: Heap, s: Dry, log: Log, q: Question, s': Dry, a: Answer)
    requires Closed(heap) && Good(heap, s) && DryStep(heap, s, q) == Some((s', a)) && Logged(heap, s, log)
    ensures Logged(heap, s', log + [(q, a)])
  {
    forall r, k
      ensures WasRead(s'.recs, r, k) ==> Asked(s'.handles, log + [(q, a)], r, k)
      ensures Asked(s'.handles, log + [(q, a)], r, k) && r in heap && k != TO_JSON && HasKey(heap[r], k) ==>
                WasRead(s'.recs, r, k)
    {
      AskedMore(s, log, q, s', a, r, k);
      StepReads(heap, s, q, s', a, r, k);
    }
  }

  lemma {:induction false} RunLogged(heap: Heap, reader: Adaptive, s: Dry, log: Log, n: nat)
    requires Closed(heap) && Good(heap, s) && Logged(heap, s, log)
    ensures Logged(heap, DryRun(heap, reader, s, log, n).0, DryRun(heap, reader, s, log, n).1)
    decreases n
  {
    if n > 0 && reader(log).Some? && DryStep(heap, s, reader(log).value).Some? {
      var q := reader(log).value;
      var s', a := DryTurn(heap, reader, s, log, n, q);
      StepLogged(heap, s, log, q, s', a);
      RunLogged(heap, reader, s', log + [(q, a)], n - 1);
    }
  }

  /** At the end of every run: the recording holds a key that is there exactly when some question read it. */
  lemma ReadIffAsked(heap: Heap, root: Ref, reader: Adaptive, n: nat, r: Ref, key: Key)
    requires Closed(heap) && root in heap && r in heap && key != TO_JSON && HasKey(heap[r], key)
    ensures var (final, log) := DryRun(heap, reader, Begin(heap, root), [], n);
            WasRead(final.recs, r, key) <==> Asked(final.handles, log, r, key)
  {
    RunLogged(heap, reader, Begin(heap, root), [], n);
  }

  /** A request that holds a `toJSON` number: the mirror loses it. */
  lemma ToJsonIsLost()
    ensures var heap: Heap := map[0 := Obj(map["toJSON" := Prim(5)])];
            var reader: Adaptive := (log: Log) => if log == [] then Some(Ask(0, TO_JSON)) else None;
            var start := Begin(heap, 0);
            var (final, log) := DryRun(heap, reader, start, [], 1);
            var mirror := Materialize(final.recs, Object(0), {});
            log == [(Ask(0, TO_JSON), APrim(5))] && mirror.Some? && MirrorRun(reader, [mirror.value], [], 1) != log
  {
    var heap: Heap := map[0 := Obj(map["toJSON" := Prim(5)])];
    var reader: Adaptive := (log: Log) => if log == [] then Some(Ask(0, TO_JSON)) else None;
    var start := Begin(heap, 0);
    var rank: map<Ref, nat> := map[0 := 0];
    assert Acyclic(heap, rank);
    TreeMirror(heap, rank, 0, reader, 1);
    var log := DryRun(heap, reader, start, [], 1).1;
    assert DryStep(heap, start, Ask(0, TO_JSON)).value.1 == APrim(5);
    assert [] + [(Ask(0, TO_JSON), APrim(5))] == [(Ask(0, TO_JSON), APrim(5))];
    assert log == [(Ask(0, TO_JSON), APrim(5))];
    assert Lost(heap, DryRun(heap, reader, start, [], 1).0, log[0].0, log[0].1);
  }
  /** A request that is an array, asked by `in` for an index that is not read: the mirror denies it. */
  lemma IndexIsLost()
    ensures var heap: Heap := map[0 := Arr(1, map[0 := Prim(7)], map[])];
            var reader: Adaptive := (log: Log) => if log == [] then Some(In(0, Index(0))) else None;
            var (final, log) := DryRun(heap, reader, Begin(heap, 0), [], 1);
            var mirror := Materialize(final.recs, Object(0), {});
            log == [(In(0, Index(0)), ABool(true))] && mirror.Some? && MirrorRun(reader, [mirror.value], [], 1) != log
  {
    var heap: Heap := map[0 := Arr(1, map[0 := Prim(7)], map[])];
    var reader: Adaptive := (log: Log) => if log == [] then Some(In(0, Index(0))) else None;
    var start, q := Begin(heap, 0), In(0, Index(0));
    var rank: map<Ref, nat> := map[0 := 0];
    assert Acyclic(heap, rank);
    TreeMirror(heap, rank, 0, reader, 1);
    var (final, log) := DryRun(heap, reader, start, [], 1);
    assert DryStep(heap, start, q).value.1 == ABool(true);
    assert [] + [(q, ABool(true))] == [(q, ABool(true))];
    assert log == [(q, ABool(true))];
    assert final == DryStep(heap, start, q).value.0 && final.recs[0].gets == [];
    assert Lost(heap, final, log[0].0, log[0].1);
  }
}
