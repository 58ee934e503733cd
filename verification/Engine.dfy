/** The engine that keeps the governor's pending transfers on the ledger, every call cut at its awaits. */
module Engine {
  import opened Common
  import opened Sums
  import opened TwoPhase

  type Key = nat
  type CallId = nat

  /** The engine's note of a pending transfer: where it is and how much it reserved. */
  datatype Entry = Entry(tbId: TbId, held: nat)

  /** The actual cost of a settle, or none: then the whole hold is posted. */
  datatype Cost = Actual(cost: nat) | WholeHold

  /** What the client hears: an answer, or an error that leaves it open whether the request was served. */
  datatype Reply = Created | Rejected(expired: bool) | Lost | Unreached

  ghost predicate Truthful(l: Ledger, r: Request, reply: Reply) {
    match reply
    case Created => Accepts(l, r)
    case Rejected(expired) =>
      !Accepts(l, r) && (expired <==> r.id in l.transfers && l.transfers[r.id].status.Expired?)
    case Lost => true
    case Unreached => true
  }

  ghost function After(l: Ledger, r: Request, reply: Reply): Ledger {
    if reply.Unreached? then l else Serve(l, r)
  }

  function PostedAmount(actual: Cost, held: nat): nat {
    if actual.WholeHold? then held else Min(actual.cost, held)
  }

  function Shortfall(actual: Cost, held: nat): nat {
    if actual.WholeHold? then 0 else actual.cost - Min(actual.cost, held)
  }

  /** A void that succeeded, or found the hold already expired by the ledger. */
  predicate Voids(reply: Reply) {
    reply.Created? || (reply.Rejected? && reply.expired)
  }

  /** A call that awaits the ledger, with the locals it kept. */
  datatype Call =
    | Posting(k: Key, entry: Entry, actual: Cost)
    | Voiding(k: Key, entry: Entry)
    | Sweeping(snapshot: seq<(Key, Entry)>, done: nat, unreached: set<Key>)

  /** What a caller was told has happened. */
  datatype Outcome = DidPost(tbId: TbId, posted: nat, shortfall: nat, actual: Cost) | DidVoid(tbId: TbId)

  /** The engine's map, the ledger, the calls at work; and as history, every key ever used and every outcome told. */
  datatype State = State(
    pendingMap: map<Key, Entry>,
    ledger: Ledger,
    calls: map<CallId, Call>,
    used: set<Key>,
    outcomes: seq<Outcome>)

  datatype Step =
    | Spend(k: Key, wallet: Wallet, amount: nat, tbId: TbId, reply: Reply)
    | PostBegins(c: CallId, k: Key, actual: Cost)
    | PostReturns(c: CallId, reply: Reply)
    | VoidBegins(c: CallId, k: Key)
    | VoidReturns(c: CallId, reply: Reply)
    | SweepBegins(c: CallId, snapshot: seq<(Key, Entry)>)
    | SweepReturns(c: CallId, reply: Reply)
    | Expires(tbId: TbId)

  function SpendRequest(tbId: TbId, wallet: Wallet, amount: nat): Request {
    CreatePending(tbId, wallet, amount)
  }

  function PostRequest(call: Call): Request
    requires call.Posting?
  {
    Post(call.entry.tbId, PostedAmount(call.actual, call.entry.held))
  }

  /** The snapshot lists every entry once. */
  ghost predicate Lists(pendingMap: map<Key, Entry>, snapshot: seq<(Key, Entry)>) {
    && (forall i :: 0 <= i < |snapshot| ==> snapshot[i].0 in pendingMap && pendingMap[snapshot[i].0] == snapshot[i].1)
    && (forall k :: k in pendingMap ==> exists i :: 0 <= i < |snapshot| && snapshot[i].0 == k)
    && (forall i, j :: 0 <= i < j < |snapshot| ==> snapshot[i].0 != snapshot[j].0)
  }

  ghost predicate Enabled(s: State, step: Step) {
    match step
    case Spend(k, wallet, amount, tbId, reply) =>
      k !in s.used && tbId !in s.ledger.transfers && Truthful(s.ledger, SpendRequest(tbId, wallet, amount), reply)
    case PostBegins(c, k, _) => c !in s.calls && k in s.pendingMap
    case PostReturns(c, reply) =>
      c in s.calls && s.calls[c].Posting? && Truthful(s.ledger, PostRequest(s.calls[c]), reply)
    case VoidBegins(c, k) => c !in s.calls && k in s.pendingMap
    case VoidReturns(c, reply) =>
      c in s.calls && s.calls[c].Voiding? && Truthful(s.ledger, Void(s.calls[c].entry.tbId), reply)
    case SweepBegins(c, snapshot) => c !in s.calls && Lists(s.pendingMap, snapshot)
    case SweepReturns(c, reply) => c in s.calls && s.calls[c].Sweeping? && s.calls[c].done < |s.calls[c].snapshot|
    case Expires(tbId) => true
  }

  /** A hold is noted only when the ledger says it was created. */
  ghost function Spent(s: State, k: Key, wallet: Wallet, amount: nat, tbId: TbId, reply: Reply): State {
    s.(ledger := After(s.ledger, SpendRequest(tbId, wallet, amount), reply),
       pendingMap := if reply.Created? then s.pendingMap[k := Entry(tbId, amount)] else s.pendingMap,
       used := s.used + {k})
  }

  /** A post that failed keeps its entry. */
  ghost function PostDone(s: State, c: CallId, reply: Reply): State
    requires c in s.calls && s.calls[c].Posting?
  {
    var call := s.calls[c];
    var entry := call.entry;
    s.(ledger := After(s.ledger, PostRequest(call), reply),
       calls := s.calls - {c},
       pendingMap := if reply.Created? then s.pendingMap - {call.k} else s.pendingMap,
       outcomes := if reply.Created?
                   then s.outcomes + [DidPost(entry.tbId, PostedAmount(call.actual, entry.held),
                                              Shortfall(call.actual, entry.held), call.actual)]
                   else s.outcomes)
  }

  ghost function VoidDone(s: State, c: CallId, reply: Reply): State
    requires c in s.calls && s.calls[c].Voiding?
  {
    var call := s.calls[c];
    s.(ledger := After(s.ledger, Void(call.entry.tbId), reply),
       calls := s.calls - {c},
       pendingMap := if Voids(reply) then s.pendingMap - {call.k} else s.pendingMap,
       outcomes := if reply.Created? then s.outcomes + [DidVoid(call.entry.tbId)] else s.outcomes)
  }

  /** The sweep goes through its snapshot, forgetting each entry whatever the answer. */
  ghost function Swept(s: State, c: CallId, reply: Reply): State
    requires c in s.calls && s.calls[c].Sweeping? && s.calls[c].done < |s.calls[c].snapshot|
  {
    var call := s.calls[c];
    var k, entry := call.snapshot[call.done].0, call.snapshot[call.done].1;
    s.(ledger := After(s.ledger, Void(entry.tbId), reply),
       pendingMap := s.pendingMap - {k},
       calls := s.calls[c := call.(done := call.done + 1,
                                   unreached := if reply.Unreached? then call.unreached + {k} else call.unreached)])
  }

  ghost function Apply(s: State, step: Step): State
    requires Enabled(s, step)
  {
    match step
    case Spend(k, wallet, amount, tbId, reply) => Spent(s, k, wallet, amount, tbId, reply)
    case PostBegins(c, k, actual) => s.(calls := s.calls[c := Posting(k, s.pendingMap[k], actual)])
    case PostReturns(c, reply) => PostDone(s, c, reply)
    case VoidBegins(c, k) => s.(calls := s.calls[c := Voiding(k, s.pendingMap[k])])
    case VoidReturns(c, reply) => VoidDone(s, c, reply)
    case SweepBegins(c, snapshot) => s.(calls := s.calls[c := Sweeping(snapshot, 0, {})])
    case SweepReturns(c, reply) => Swept(s, c, reply)
    case Expires(tbId) => s.(ledger := Serve(s.ledger, Timeout(tbId)))
  }

  ghost function Initial(credits: map<Wallet, nat>): State {
    State(map[], Ledger(credits, map[]), map[], {}, [])
  }

  ghost predicate IsRun(s: State, steps: seq<Step>, t: State)
    decreases |steps|
  {
    if steps == [] then s == t else Enabled(s, steps[0]) && IsRun(Apply(s, steps[0]), steps[1..], t)
  }

  // ---- What every step keeps ----

  /** The entry names a transfer of the size it remembers. */
  ghost predicate Noted(l: Ledger, e: Entry) {
    e.tbId in l.transfers && l.transfers[e.tbId].held == e.held
  }

  /** A key's entry, wherever it is kept: on the ledger, and the one the map still has, if it has one. */
  ghost predicate GoodEntry(s: State, k: Key, e: Entry) {
    k in s.used && Noted(s.ledger, e) && (k in s.pendingMap ==> s.pendingMap[k] == e)
  }

  ghost predicate GoodCall(s: State, call: Call) {
    match call
    case Posting(k, entry, _) => GoodEntry(s, k, entry)
    case Voiding(k, entry) => GoodEntry(s, k, entry)
    case Sweeping(snapshot, done, unreached) =>
      && done <= |snapshot|
      && (forall i :: 0 <= i < |snapshot| ==> GoodEntry(s, snapshot[i].0, snapshot[i].1))
      && (forall i :: 0 <= i < done ==> Gone(s, snapshot[i].0, snapshot[i].1, unreached))
  }

  /** Forgotten by the map, and ended on the ledger unless the request never arrived. */
  ghost predicate Gone(s: State, k: Key, e: Entry, unreached: set<Key>) {
    k !in s.pendingMap && (k in unreached || Ended(s.ledger, e.tbId))
  }

  /** An outcome told is what the ledger did: posted within the hold, the rest of the cost the shortfall, or voided. */
  ghost predicate GoodOutcome(l: Ledger, o: Outcome) {
    && o.tbId in l.transfers
    && match o
       case DidPost(tbId, posted, shortfall, actual) =>
         && l.transfers[tbId].status == Posted(posted) && posted <= l.transfers[tbId].held
         && (actual.Actual? ==>
               posted + shortfall == actual.cost && (shortfall > 0 ==> posted == l.transfers[tbId].held))
         && (actual.WholeHold? ==> posted == l.transfers[tbId].held && shortfall == 0)
       case DidVoid(tbId) => l.transfers[tbId].status == Voided
  }

  ghost predicate GoodMap(s: State) {
    forall k :: k in s.pendingMap ==> GoodEntry(s, k, s.pendingMap[k])
  }

  ghost predicate GoodCalls(s: State) {
    forall c :: c in s.calls ==> GoodCall(s, s.calls[c])
  }

  ghost predicate GoodOutcomes(s: State) {
    && (forall i :: 0 <= i < |s.outcomes| ==> GoodOutcome(s.ledger, s.outcomes[i]))
    && (forall i, j :: 0 <= i < j < |s.outcomes| ==> s.outcomes[i].tbId != s.outcomes[j].tbId)
  }

  ghost predicate Good(s: State) {
    Solvent(s.ledger) && GoodMap(s) && GoodCalls(s) && GoodOutcomes(s)
  }

  /** The ledger moved on by one request at most, keys were only added, and no entry was changed. */
  ghost predicate Onward(s: State, t: State) {
    && (forall id :: id in s.ledger.transfers ==>
          && id in t.ledger.transfers && t.ledger.transfers[id].held == s.ledger.transfers[id].held
          && (!s.ledger.transfers[id].status.Pending? ==> t.ledger.transfers[id] == s.ledger.transfers[id]))
    && s.used <= t.used
    && (forall k :: k in t.pendingMap && k in s.used ==> k in s.pendingMap && t.pendingMap[k] == s.pendingMap[k])
  }

  lemma LedgerOnward(l: Ledger, r: Request, reply: Reply)
    ensures forall id :: id in l.transfers ==>
              && id in After(l, r, reply).transfers && After(l, r, reply).transfers[id].held == l.transfers[id].held
              && (!l.transfers[id].status.Pending? ==> After(l, r, reply).transfers[id] == l.transfers[id])
  {
    forall id | id in l.transfers
      ensures id in After(l, r, reply).transfers && After(l, r, reply).transfers[id].held == l.transfers[id].held
      ensures !l.transfers[id].status.Pending? ==> After(l, r, reply).transfers[id] == l.transfers[id]
    {
      ServeKeeps(l, r, id);
    }
  }

  /** The request a step puts to the ledger, if any. */
  ghost function RequestOf(s: State, step: Step): Option<(Request, Reply)>
    requires Enabled(s, step)
  {
    match step
    case Spend(k, wallet, amount, tbId, reply) => Some((SpendRequest(tbId, wallet, amount), reply))
    case PostReturns(c, reply) => Some((PostRequest(s.calls[c]), reply))
    case VoidReturns(c, reply) => Some((Void(s.calls[c].entry.tbId), reply))
    case SweepReturns(c, reply) => Some((Void(s.calls[c].snapshot[s.calls[c].done].1.tbId), reply))
    case Expires(tbId) => Some((Timeout(tbId), Lost))
    case _ => None
  }

  lemma StepLedger(s: State, step: Step)
    requires Enabled(s, step)
    ensures var r := RequestOf(s, step);
            Apply(s, step).ledger == if r.None? then s.ledger else After(s.ledger, r.value.0, r.value.1)
  {
  }

  lemma StepOnward(s: State, step: Step)
    requires Enabled(s, step) && GoodMap(s)
    ensures Onward(s, Apply(s, step))
  {
    StepLedger(s, step);
    var r := RequestOf(s, step);
    if r.Some? {
      LedgerOnward(s.ledger, r.value.0, r.value.1);
    }
  }

  lemma StepSolvent(s: State, step: Step)
    requires Enabled(s, step) && Solvent(s.ledger)
    ensures Solvent(Apply(s, step).ledger)
  {
    StepLedger(s, step);
    var r := RequestOf(s, step);
    if r.Some? {
      ServeSolvent(s.ledger, r.value.0);
    }
  }

  lemma OnwardEntry(s: State, t: State, k: Key, e: Entry)
    requires Onward(s, t) && GoodEntry(s, k, e)
    ensures GoodEntry(t, k, e)
  {
  }

  lemma OnwardCall(s: State, t: State, call: Call)
    requires Onward(s, t) && GoodCall(s, call)
    ensures GoodCall(t, call)
  {
    match call
    case Posting(k, entry, _) => OnwardEntry(s, t, k, entry);
    case Voiding(k, entry) => OnwardEntry(s, t, k, entry);
    case Sweeping(snapshot, done, unreached) =>
      forall i | 0 <= i < |snapshot|
        ensures GoodEntry(t, snapshot[i].0, snapshot[i].1)
      {
        OnwardEntry(s, t, snapshot[i].0, snapshot[i].1);
      }
      forall i | 0 <= i < done
        ensures Gone(t, snapshot[i].0, snapshot[i].1, unreached)
      {
        assert GoodEntry(s, snapshot[i].0, snapshot[i].1) && Gone(s, snapshot[i].0, snapshot[i].1, unreached);
      }
  }

  lemma StepMap(s: State, step: Step)
    requires Enabled(s, step) && GoodMap(s)
    ensures GoodMap(Apply(s, step))
  {
    var t := Apply(s, step);
    StepOnward(s, step);
    forall k | k in t.pendingMap
      ensures GoodEntry(t, k, t.pendingMap[k])
    {
      if k in s.pendingMap {
        assert GoodEntry(s, k, s.pendingMap[k]);
      }
    }
  }

  /** After a void was asked for, the transfer has ended, whatever the answer that arrived. */
  lemma VoidEnds(l: Ledger, id: TbId, reply: Reply)
    requires id in l.transfers && !reply.Unreached?
    ensures Ended(After(l, Void(id), reply), id)
  {
  }

  lemma SweptCall(s: State, c: CallId, reply: Reply)
    requires Enabled(s, SweepReturns(c, reply)) && GoodMap(s) && GoodCall(s, s.calls[c])
    ensures var t := Swept(s, c, reply); GoodCall(t, t.calls[c])
  {
    var t := Swept(s, c, reply);
    var call := s.calls[c];
    StepOnward(s, SweepReturns(c, reply));
    OnwardCall(s, t, call);
    var k, entry := call.snapshot[call.done].0, call.snapshot[call.done].1;
    assert GoodEntry(s, k, entry);
    if !reply.Unreached? {
      VoidEnds(s.ledger, entry.tbId, reply);
    }
    assert Gone(t, k, entry, t.calls[c].unreached);
    assert forall i :: 0 <= i < call.done ==> Gone(t, call.snapshot[i].0, call.snapshot[i].1, call.unreached);
  }

  lemma BegunSweep(s: State, snapshot: seq<(Key, Entry)>)
    requires GoodMap(s) && Lists(s.pendingMap, snapshot)
    ensures GoodCall(s, Sweeping(snapshot, 0, {}))
  {
    forall i | 0 <= i < |snapshot|
      ensures GoodEntry(s, snapshot[i].0, snapshot[i].1)
    {
      assert GoodEntry(s, snapshot[i].0, s.pendingMap[snapshot[i].0]);
    }
  }

  lemma StepCall(s: State, step: Step, c: CallId)
    requires Enabled(s, step) && GoodMap(s) && GoodCalls(s) && c in Apply(s, step).calls
    ensures GoodCall(Apply(s, step), Apply(s, step).calls[c])
  {
    var t := Apply(s, step);
    StepOnward(s, step);
    match step
    case SweepReturns(d, reply) =>
      if c == d {
        SweptCall(s, d, reply);
      } else {
        OnwardCall(s, t, s.calls[c]);
      }
    case SweepBegins(d, snapshot) =>
      if c == d {
        BegunSweep(s, snapshot);
        OnwardCall(s, t, Sweeping(snapshot, 0, {}));
      } else {
        OnwardCall(s, t, s.calls[c]);
      }
    case _ =>
      if c in s.calls {
        OnwardCall(s, t, s.calls[c]);
      }
  }

  lemma OutcomeKept(l: Ledger, m: Ledger, o: Outcome)
    requires GoodOutcome(l, o)
    requires o.tbId in m.transfers && m.transfers[o.tbId] == l.transfers[o.tbId]
    ensures GoodOutcome(m, o)
  {
  }

  /** A new outcome: the ledger has just moved that transfer, which it had not before. */
  lemma NewOutcome(s: State, step: Step)
    requires Enabled(s, step) && GoodCalls(s) && |Apply(s, step).outcomes| > |s.outcomes|
    ensures var t := Apply(s, step);
            && t.outcomes == s.outcomes + [t.outcomes[|s.outcomes|]]
            && GoodOutcome(t.ledger, t.outcomes[|s.outcomes|])
            && (var id := t.outcomes[|s.outcomes|].tbId;
                id in s.ledger.transfers && s.ledger.transfers[id].status.Pending?)
  {
    assert step.PostReturns? || step.VoidReturns?;
    assert GoodCall(s, s.calls[step.c]);
  }

  lemma StepOutcomes(s: State, step: Step)
    requires Enabled(s, step) && GoodMap(s) && GoodCalls(s) && GoodOutcomes(s)
    ensures GoodOutcomes(Apply(s, step))
  {
    var t := Apply(s, step);
    StepOnward(s, step);
    forall i | 0 <= i < |s.outcomes|
      ensures GoodOutcome(t.ledger, s.outcomes[i]) && Ended(s.ledger, s.outcomes[i].tbId)
    {
      assert GoodOutcome(s.ledger, s.outcomes[i]);
      OutcomeKept(s.ledger, t.ledger, s.outcomes[i]);
    }
    if |t.outcomes| > |s.outcomes| {
      NewOutcome(s, step);
    }
  }

  lemma StepKeepsGood(s: State, step: Step)
    requires Good(s) && Enabled(s, step)
    ensures Good(Apply(s, step))
  {
    StepSolvent(s, step);
    StepMap(s, step);
    StepOutcomes(s, step);
    forall c | c in Apply(s, step).calls
      ensures GoodCall(Apply(s, step), Apply(s, step).calls[c])
    {
      StepCall(s, step, c);
    }
  }

  lemma {:induction false} RunKeepsGood(s: State, steps: seq<Step>, t: State)
    requires Good(s) && IsRun(s, steps, t)
    ensures Good(t)
    decreases |steps|
  {
    if steps != [] {
      StepKeepsGood(s, steps[0]);
      RunKeepsGood(Apply(s, steps[0]), steps[1..], t);
    }
  }

  lemma InitialGood(credits: map<Wallet, nat>)
    ensures Good(Initial(credits))
  {
    var l := Ledger(credits, map[]);
    forall w | w in credits
      ensures Debits(l, w) <= credits[w]
    {
      assert Weights(l, w) == map[];
    }
  }

  // ---- The theorems ----

  /**
   * In every run of the engine, whatever its calls do in each other's awaits: no wallet is overdrawn, what a caller was
   * told is what the ledger did, each post is within its hold with the rest of the cost as its shortfall, and no
   * transfer was moved twice.
   */
  lemma EngineRun(credits: map<Wallet, nat>, steps: seq<Step>, t: State)
    requires IsRun(Initial(credits), steps, t)
    ensures forall w :: w in t.ledger.credits ==> Debits(t.ledger, w) <= t.ledger.credits[w]
    ensures forall i :: 0 <= i < |t.outcomes| ==> GoodOutcome(t.ledger, t.outcomes[i])
    ensures forall i, j :: 0 <= i < j < |t.outcomes| ==> t.outcomes[i].tbId != t.outcomes[j].tbId
  {
    InitialGood(credits);
    RunKeepsGood(Initial(credits), steps, t);
  }

  /** A sweep that has gone through its snapshot: none of it is left in the map, and all that arrived has ended. */
  lemma SweepClearsItsSnapshot(credits: map<Wallet, nat>, steps: seq<Step>, t: State, c: CallId)
    requires IsRun(Initial(credits), steps, t)
    requires c in t.calls && t.calls[c].Sweeping? && t.calls[c].done == |t.calls[c].snapshot|
    ensures var call := t.calls[c];
            forall i :: 0 <= i < |call.snapshot| ==>
              && call.snapshot[i].0 !in t.pendingMap
              && (call.snapshot[i].0 in call.unreached || Ended(t.ledger, call.snapshot[i].1.tbId))
  {
    InitialGood(credits);
    RunKeepsGood(Initial(credits), steps, t);
    assert GoodCall(t, t.calls[c]);
    var call := t.calls[c];
    assert forall i :: 0 <= i < call.done ==> Gone(t, call.snapshot[i].0, call.snapshot[i].1, call.unreached);
  }

  /**
   * An entry noted while a sweep awaits its last answer outlives the sweep: from every state of a run with such a
   * sweep, a reservation can land first, and then the sweep is over with that entry still in the map.
   */
  lemma LateEntryOutlivesTheSweep(credits: map<Wallet, nat>, steps: seq<Step>, s: State,
                                  c: CallId, late: Step, reply: Reply)
    requires IsRun(Initial(credits), steps, s)
    requires c in s.calls && s.calls[c].Sweeping? && s.calls[c].done + 1 == |s.calls[c].snapshot|
    requires late.Spend? && late.reply == Created && Enabled(s, late)
    ensures var during := Apply(s, late);
            && Enabled(during, SweepReturns(c, reply))
            && var over := Apply(during, SweepReturns(c, reply));
               over.calls[c].done == |over.calls[c].snapshot| && late.k in over.pendingMap
  {
    InitialGood(credits);
    RunKeepsGood(Initial(credits), steps, s);
    assert GoodCall(s, s.calls[c]);
    var call := s.calls[c];
    assert GoodEntry(s, call.snapshot[call.done].0, call.snapshot[call.done].1);
  }

  // ---- The engine's own steps ----

  /** What a post that returns leaves behind, and what its caller is told. */
  lemma PostTold(s: State, c: CallId, reply: Reply, t: State)
    requires Good(s) && Enabled(s, PostReturns(c, reply)) && t == Apply(s, PostReturns(c, reply))
    ensures Good(t) && t.pendingMap == (if reply.Created? then s.pendingMap - {s.calls[c].k} else s.pendingMap)
    ensures var call := s.calls[c];
            reply.Created? ==>
              DidPost(call.entry.tbId, PostedAmount(call.actual, call.entry.held),
                      Shortfall(call.actual, call.entry.held), call.actual) in t.outcomes
  {
    StepKeepsGood(s, PostReturns(c, reply));
    assert reply.Created? ==> t.outcomes[|s.outcomes|] in t.outcomes;
  }

  /** A void that returns: done, or found done, it has left nothing taken. */
  lemma VoidTold(s: State, c: CallId, reply: Reply, t: State)
    requires Good(s) && Enabled(s, VoidReturns(c, reply)) && t == Apply(s, VoidReturns(c, reply))
    ensures Good(t) && t.pendingMap == (if Voids(reply) then s.pendingMap - {s.calls[c].k} else s.pendingMap)
    ensures var id := s.calls[c].entry.tbId;
            Voids(reply) ==> id in t.ledger.transfers && Weight(t.ledger.transfers[id]) == 0
  {
    StepKeepsGood(s, VoidReturns(c, reply));
  }

  /** The closures over `pendingMap`, cut at their awaits. */
  class TbEngine {
    var pendingMap: map<Key, Entry>
    ghost var view: State

    ghost predicate Valid()
      reads this
    {
      view.pendingMap == pendingMap && Good(view)
    }

    constructor (credits: map<Wallet, nat>)
      ensures Valid() && view == Initial(credits)
    {
      pendingMap := map[];
      view := Initial(credits);
      new;
      InitialGood(credits);
    }

    /** A step of the ledger or of another call that leaves the map alone. */
    ghost method Elsewhere(step: Step)
      requires Valid() && Enabled(view, step) && Apply(view, step).pendingMap == pendingMap
      modifies this`view
      ensures Valid() && view == Apply(old(view), step)
    {
      StepKeepsGood(view, step);
      view := Apply(view, step);
    }

    method SpendPending(k: Key, wallet: Wallet, amount: nat, tbId: TbId, reply: Reply) returns (reserved: bool)
      requires Valid() && Enabled(view, Spend(k, wallet, amount, tbId, reply))
      modifies this
      ensures Valid() && view == Apply(old(view), Spend(k, wallet, amount, tbId, reply))
      ensures reserved <==> reply.Created?
      ensures pendingMap == if reserved then old(pendingMap)[k := Entry(tbId, amount)] else old(pendingMap)
      ensures reserved ==>
                tbId in view.ledger.transfers && view.ledger.transfers[tbId] == Transfer(wallet, amount, Pending)
    {
      StepKeepsGood(view, Spend(k, wallet, amount, tbId, reply));
      view := Apply(view, Spend(k, wallet, amount, tbId, reply));
      reserved := reply.Created?;
      if reserved {
        pendingMap := pendingMap[k := Entry(tbId, amount)];
      }
    }

    /** `postPendingSpend` up to its await: no entry, no post. */
    method PostLookup(ghost c: CallId, k: Key, ghost actual: Cost) returns (entry: Option<Entry>)
      requires Valid() && c !in view.calls
      modifies this`view
      ensures Valid() && (entry.Some? <==> k in pendingMap) && (entry.Some? ==> entry.value == pendingMap[k])
      ensures view == if entry.Some? then Apply(old(view), PostBegins(c, k, actual)) else old(view)
    {
      if k !in pendingMap {
        return None;
      }
      StepKeepsGood(view, PostBegins(c, k, actual));
      view := Apply(view, PostBegins(c, k, actual));
      return Some(pendingMap[k]);
    }

    /** `postPendingSpend` after its await: at most the reserve, the rest the shortfall; failing keeps its entry. */
    method PostReturned(ghost c: CallId, k: Key, entry: Entry, actual: Cost, reply: Reply)
      returns (r: Option<(nat, nat)>)
      requires Valid() && Enabled(view, PostReturns(c, reply)) && view.calls[c] == Posting(k, entry, actual)
      modifies this
      ensures Valid() && view == Apply(old(view), PostReturns(c, reply))
      ensures r.Some? <==> reply.Created?
      ensures r.Some? ==> DidPost(entry.tbId, r.value.0, r.value.1, actual) in view.outcomes
      ensures pendingMap == if r.Some? then old(pendingMap) - {k} else old(pendingMap)
    {
      ghost var next := Apply(view, PostReturns(c, reply));
      PostTold(view, c, reply, next);
      view := next;
      r := None;
      if reply.Created? {
        pendingMap := pendingMap - {k};
        r := Some((PostedAmount(actual, entry.held), Shortfall(actual, entry.held)));
      }
    }

    method VoidLookup(ghost c: CallId, k: Key) returns (entry: Option<Entry>)
      requires Valid() && c !in view.calls
      modifies this`view
      ensures Valid() && (entry.Some? <==> k in pendingMap) && (entry.Some? ==> entry.value == pendingMap[k])
      ensures view == if entry.Some? then Apply(old(view), VoidBegins(c, k)) else old(view)
    {
      if k !in pendingMap {
        return None;
      }
      StepKeepsGood(view, VoidBegins(c, k));
      view := Apply(view, VoidBegins(c, k));
      return Some(pendingMap[k]);
    }

    /** A hold the ledger already expired counts as voided: its funds are back. Any other failure keeps the entry. */
    method VoidReturned(ghost c: CallId, k: Key, entry: Entry, reply: Reply) returns (voided: bool)
      requires Valid() && Enabled(view, VoidReturns(c, reply)) && view.calls[c] == Voiding(k, entry)
      modifies this
      ensures Valid() && view == Apply(old(view), VoidReturns(c, reply))
      ensures voided <==> reply == Created || reply == Rejected(true)
      ensures voided ==> entry.tbId in view.ledger.transfers && Weight(view.ledger.transfers[entry.tbId]) == 0
      ensures pendingMap == if voided then old(pendingMap) - {k} else old(pendingMap)
    {
      ghost var next := Apply(view, VoidReturns(c, reply));
      VoidTold(view, c, reply, next);
      view := next;
      voided := reply.Created? || (reply.Rejected? && reply.expired);
      if voided {
        pendingMap := pendingMap - {k};
      }
    }

    /** `voidAllPending` up to its first await: the entries as they are now. */
    method SweepSnapshot(ghost c: CallId) returns (snapshot: seq<(Key, Entry)>)
      requires Valid() && c !in view.calls
      modifies this`view
      ensures Valid() && Lists(pendingMap, snapshot) && view == Apply(old(view), SweepBegins(c, snapshot))
    {
      snapshot := Snapshot();
      StepKeepsGood(view, SweepBegins(c, snapshot));
      view := Apply(view, SweepBegins(c, snapshot));
    }

    method Snapshot() returns (snapshot: seq<(Key, Entry)>)
      ensures Lists(pendingMap, snapshot)
    {
      var left := pendingMap.Keys;
      snapshot := [];
      while left != {}
        invariant left <= pendingMap.Keys
        invariant forall i :: 0 <= i < |snapshot| ==>
                    snapshot[i].0 in pendingMap && pendingMap[snapshot[i].0] == snapshot[i].1 && snapshot[i].0 !in left
        invariant forall k :: k in pendingMap && k !in left ==> exists i :: 0 <= i < |snapshot| && snapshot[i].0 == k
        invariant forall i, j :: 0 <= i < j < |snapshot| ==> snapshot[i].0 != snapshot[j].0
        decreases |left|
      {
        var k :| k in left;
        ghost var before := snapshot;
        snapshot := snapshot + [(k, pendingMap[k])];
        assert snapshot[|before|].0 == k && forall i :: 0 <= i < |before| ==> snapshot[i] == before[i];
        left := left - {k};
      }
    }

    /** One answer of the sweep: the entry is forgotten, whatever it was. */
    method SweepReturned(ghost c: CallId, k: Key, reply: Reply)
      requires Valid() && Enabled(view, SweepReturns(c, reply))
      requires view.calls[c].snapshot[view.calls[c].done].0 == k
      modifies this
      ensures Valid() && view == Apply(old(view), SweepReturns(c, reply)) && pendingMap == old(pendingMap) - {k}
    {
      StepKeepsGood(view, SweepReturns(c, reply));
      view := Apply(view, SweepReturns(c, reply));
      pendingMap := pendingMap - {k};
    }
  }
}
