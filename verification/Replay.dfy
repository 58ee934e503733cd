/** The replay log: iterators that arrive after `result()` claimed the stream. */
module Replay {
  import opened Common

  /** Where an iterator is: between turns, waiting for a tick, or over, with the drain's failure if it had one. */
  datatype Place<E> = Ready | Waiting(tick: nat) | Over(failure: Option<E>)

  datatype Iterator<T, E> = Iterator(i: nat, seen: seq<T>, place: Place<E>)

  /** The log the drain fills, the tick waiters wait for, and the iterators it serves. */
  datatype State<T, E> = State(
    replayed: seq<T>,
    ended: bool,
    failure: Option<E>,
    tick: nat,
    iterators: seq<Iterator<T, E>>)

  datatype Step<T, E> =
    | Push(event: T)              // the drain takes an event
    | End(outcome: Option<E>)     // the drain is over
    | Join                        // an iterator arrives
    | Turn(k: nat)                // an iterator runs to its next yield, wait or end

  /** An iterator that waits for the current tick is blocked until the next announcement. */
  predicate Blocked<T, E>(s: State<T, E>, k: nat)
    requires k < |s.iterators|
  {
    var p := s.iterators[k].place;
    p.Over? || (p.Waiting? && p.tick == s.tick)
  }

  predicate Enabled<T, E>(s: State<T, E>, step: Step<T, E>) {
    match step
    case Push(_) => !s.ended
    case End(_) => !s.ended
    case Join => true
    case Turn(k) => k < |s.iterators| && !Blocked(s, k)
  }

  /** Deliver the next event, or end with the drain, or wait for the tick. */
  function Served<T, E>(s: State<T, E>, it: Iterator<T, E>): Iterator<T, E> {
    if it.i < |s.replayed| then Iterator(it.i + 1, it.seen + [s.replayed[it.i]], Ready)
    else if s.ended then it.(place := Over(s.failure))
    else it.(place := Waiting(s.tick))
  }

  function Apply<T, E>(s: State<T, E>, step: Step<T, E>): State<T, E>
    requires Enabled(s, step)
  {
    match step
    case Push(event) => s.(replayed := s.replayed + [event], tick := s.tick + 1)
    case End(outcome) => s.(ended := true, failure := outcome, tick := s.tick + 1)
    case Join => s.(iterators := s.iterators + [Iterator(0, [], Ready)])
    case Turn(k) => s.(iterators := s.iterators[k := Served(s, s.iterators[k])])
  }

  /** The drain and the replaying iterators, over one log. */
  class Log<T, E> {
    var replayed: seq<T>
    var ended: bool
    var failure: Option<E>
    var tick: nat
    var iterators: seq<Iterator<T, E>>

    ghost function View(): State<T, E>
      reads this
    {
      State(replayed, ended, failure, tick, iterators)
    }

    constructor ()
      ensures View() == Initial()
    {
      replayed, ended, failure, tick, iterators := [], false, None, 0, [];
    }

    /** Swaps the tick and wakes whoever waited for it. */
    method Announce()
      modifies this`tick
      ensures tick == old(tick) + 1
    {
      tick := tick + 1;
    }

    method Take(event: T)
      requires !ended
      modifies this
      ensures View() == Apply(old(View()), Push(event))
    {
      replayed := replayed + [event];
      Announce();
    }

    method Finish(outcome: Option<E>)
      requires !ended
      modifies this
      ensures View() == Apply(old(View()), End(outcome))
    {
      failure := outcome;
      ended := true;
      Announce();
    }

    method NewIterator() returns (k: nat)
      modifies this
      ensures View() == Apply(old(View()), Join) && k == old(|iterators|)
    {
      k := |iterators|;
      iterators := iterators + [Iterator(0, [], Ready)];
    }

    method Advance(k: nat)
      requires k < |iterators| && !Blocked(View(), k)
      modifies this
      ensures View() == Apply(old(View()), Turn(k))
    {
      var it := iterators[k];
      if it.i < |replayed| {
        it := Iterator(it.i + 1, it.seen + [replayed[it.i]], Ready);
      } else if ended {
        it := it.(place := Over(failure));
      } else {
        it := it.(place := Waiting(tick));
      }
      iterators := iterators[k := it];
    }
  }

  // ---- Every interleaving ----

  function Initial<T, E>(): State<T, E> {
    State([], false, None, 0, [])
  }

  ghost predicate IsRun<T, E>(s: State<T, E>, steps: seq<Step<T, E>>, t: State<T, E>)
    decreases |steps|
  {
    if steps == [] then s == t else Enabled(s, steps[0]) && IsRun(Apply(s, steps[0]), steps[1..], t)
  }

  ghost predicate GoodIterator<T, E>(s: State<T, E>, it: Iterator<T, E>) {
    && it.i <= |s.replayed| && it.seen == s.replayed[..it.i]
    && (it.place.Over? ==> s.ended && it.i == |s.replayed| && it.place.failure == s.failure)
    && (it.place.Waiting? ==> it.place.tick <= s.tick)
    && (it.place.Waiting? && it.place.tick == s.tick ==> it.i == |s.replayed| && !s.ended)
  }

  ghost predicate Good<T, E>(s: State<T, E>) {
    forall k :: 0 <= k < |s.iterators| ==> GoodIterator(s, s.iterators[k])
  }

  lemma StepKeepsGood<T, E>(s: State<T, E>, step: Step<T, E>)
    requires Good(s) && Enabled(s, step)
    ensures Good(Apply(s, step))
  {
    var t := Apply(s, step);
    forall k | 0 <= k < |t.iterators|
      ensures GoodIterator(t, t.iterators[k])
    {
      if k < |s.iterators| {
        assert GoodIterator(s, s.iterators[k]);
        if step.Turn? && step.k == k && s.iterators[k].i < |s.replayed| {
          var i := s.iterators[k].i;
          assert s.replayed[..i] + [s.replayed[i]] == s.replayed[..i + 1];
        } else if step.Push? {
          assert t.replayed[..s.iterators[k].i] == s.replayed[..s.iterators[k].i];
        }
      }
    }
  }

  lemma {:induction false} RunKeepsGood<T, E>(s: State<T, E>, steps: seq<Step<T, E>>, t: State<T, E>)
    requires Good(s) && IsRun(s, steps, t)
    ensures Good(t)
    decreases |steps|
  {
    if steps != [] {
      StepKeepsGood(s, steps[0]);
      RunKeepsGood(Apply(s, steps[0]), steps[1..], t);
    }
  }

  /** The events the drain took, in order. */
  function Taken<T, E>(steps: seq<Step<T, E>>): seq<T> {
    if steps == [] then [] else (if steps[0].Push? then [steps[0].event] else []) + Taken(steps[1..])
  }

  /** The log is the events the drain took. */
  lemma {:induction false} LogIsTheDrain<T, E>(s: State<T, E>, steps: seq<Step<T, E>>, t: State<T, E>)
    requires IsRun(s, steps, t)
    ensures t.replayed == s.replayed + Taken(steps)
    decreases |steps|
  {
    if steps == [] {
      assert s.replayed + [] == s.replayed;
    } else {
      var u, rest := Apply(s, steps[0]), Taken(steps[1..]);
      LogIsTheDrain(u, steps[1..], t);
      if steps[0].Push? {
        assert u.replayed + rest == s.replayed + ([steps[0].event] + rest);
      } else {
        assert [] + rest == rest;
      }
    }
  }

  lemma FirstOrLater<T, E>(steps: seq<Step<T, E>>)
    requires steps != []
    ensures forall step :: step in steps <==> step == steps[0] || step in steps[1..]
  {
  }

  /** The failure is the one the drain ended with. */
  lemma {:induction false} EndIsTheDrains<T, E>(s: State<T, E>, steps: seq<Step<T, E>>, t: State<T, E>)
    requires IsRun(s, steps, t)
    ensures s.ended ==> t.ended && t.failure == s.failure
    ensures !s.ended ==> if t.ended then End(t.failure) in steps else forall step :: step in steps ==> !step.End?
    decreases |steps|
  {
    if steps != [] {
      EndIsTheDrains(Apply(s, steps[0]), steps[1..], t);
      FirstOrLater(steps);
    }
  }

  /**
   * In every interleaving: an iterator has seen the drained events in order, from the first; one that is over has
   * seen them all and ends as the drain did; one that is blocked has missed nothing.
   */
  lemma EveryIteratorSeesTheDrain<T, E>(steps: seq<Step<T, E>>, t: State<T, E>, k: nat)
    requires IsRun(Initial(), steps, t) && k < |t.iterators|
    ensures var it := t.iterators[k];
            && it.seen <= Taken(steps)
            && (it.place.Over? ==> it.seen == Taken(steps) && End(it.place.failure) in steps)
            && (it.place.Waiting? && Blocked(t, k) ==>
                  it.seen == Taken(steps) && forall step :: step in steps ==> !step.End?)
  {
    var start: State<T, E> := Initial();
    RunKeepsGood(start, steps, t);
    LogIsTheDrain(start, steps, t);
    EndIsTheDrains(start, steps, t);
    assert [] + Taken(steps) == Taken(steps);
    var it := t.iterators[k];
    assert GoodIterator(t, it);
    assert t.replayed[..|t.replayed|] == t.replayed;
  }

  function Turns<T, E>(k: nat, n: nat): seq<Step<T, E>> {
    seq(n, _ => Turn(k))
  }

  /** Once the drain is over, its own turns alone bring every iterator to the end. */
  lemma {:induction false} EveryIteratorEnds<T, E>(s: State<T, E>, k: nat) returns (n: nat, t: State<T, E>)
    requires Good(s) && s.ended && k < |s.iterators|
    ensures IsRun(s, Turns(k, n), t) && k < |t.iterators| && t.iterators[k].place.Over?
    ensures t.iterators[k].seen == t.replayed == s.replayed && t.iterators[k].place.failure == s.failure
    decreases !s.iterators[k].place.Over?, |s.replayed| - s.iterators[k].i
  {
    assert GoodIterator(s, s.iterators[k]);
    if s.iterators[k].place.Over? {
      n, t := 0, s;
      assert s.replayed[..|s.replayed|] == s.replayed;
    } else {
      StepKeepsGood(s, Turn(k));
      var m, u := EveryIteratorEnds(Apply(s, Turn(k)), k);
      n, t := m + 1, u;
      var turns: seq<Step<T, E>> := Turns(k, n);
      assert turns[0] == Turn(k) && turns[1..] == Turns(k, m);
    }
  }
}
