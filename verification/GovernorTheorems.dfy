/** What holds in every reachable state and along every run of the governor. */
module GovernorTheorems {
  import opened Common
  import opened Sums
  import opened GovernorModel
  import opened GovernorInvariant
  import opened GovernorSteps
  import opened GovernorAudit
  import opened GovernorBooks

  ghost predicate Invariant(s: State) {
    Scalars(s) && Books(s) && (forall x: Id :: Good(s, x)) && (forall x: Id :: GoodLock(s, x))
  }

  lemma InitInvariant(budget: nat, restored: nat, hasEngine: bool)
    ensures Invariant(Init(budget, restored, hasEngine))
  {
    var s := Init(budget, restored, hasEngine);
    assert Overruns(s) == map[];
  }

  /** A terminal's hold is never the name of another parked call, nor of a call that starts now. */
  lemma HoldsAreNotCalls(s: State, c: Id, x: Id)
    requires Invariant(s) && (c in s.tasks || c !in s.used) && x in s.tasks && Ends(s.tasks[x])
    ensures GoodOwner(s, s.tasks[x].hold) && s.tasks[x].hold != c
  {
    assert Good(s, x) && Good(s, c) && Good(s, s.tasks[x].hold);
  }

  lemma AuthorizeStepGood(s: State, c: Id, step: AuthorizeStep, s': State, x: Id)
    requires Invariant(s) && NextAuthorize(s, c, step, s')
    ensures Good(s', x)
  {
    assert Good(s, c) && Good(s, x);
    if x in s.tasks && Ends(s.tasks[x]) {
      HoldsAreNotCalls(s, c, x);
    }
    AuthorizeGood(s, c, step, s', x);
  }

  lemma SettleStepGood(s: State, c: Id, step: SettleStep, s': State, x: Id)
    requires Invariant(s) && NextSettle(s, c, step, s')
    ensures Good(s', x)
  {
    var h := if step.Claim? then step.hold else s.tasks[c].hold;
    assert Good(s, c) && Good(s, h) && Good(s, x);
    if x in s.tasks && Ends(s.tasks[x]) {
      HoldsAreNotCalls(s, c, x);
    }
    SettleGood(s, c, step, s', h, x);
  }

  lemma EndStepGood(s: State, c: Id, step: EndStep, s': State, x: Id)
    requires Invariant(s) && NextEnd(s, c, step, s')
    ensures Good(s', x)
  {
    var h := if step.Leave? then step.hold else s.tasks[c].hold;
    assert Good(s, c) && Good(s, h) && Good(s, x);
    if x in s.tasks && Ends(s.tasks[x]) {
      HoldsAreNotCalls(s, c, x);
    }
    EndGood(s, c, step, s', h, x);
  }

  lemma GoodStep(s: State, a: Action, s': State, x: Id)
    requires Invariant(s) && Next(s, a, s')
    ensures Good(s', x)
  {
    assert Good(s, x);
    match a
    case Refused(c) => RefusedGood(s, c, s', x);
    case HoldExpires(h) => LedgerMovesGood(s, h, Expired, s', x);
    case LandsLate(h, outcome) => LedgerMovesGood(s, h, outcome, s', x);
    case Destroy(step) => DestroyGood(s, step, s', x);
    case Authorize(c, step) => AuthorizeStepGood(s, c, step, s', x);
    case Settle(c, step) => SettleStepGood(s, c, step, s', x);
    case End(c, step) => EndStepGood(s, c, step, s', x);
  }

  lemma LockStep(s: State, a: Action, s': State, x: Id)
    requires Invariant(s) && Next(s, a, s')
    ensures GoodLock(s', x)
  {
    assert GoodLock(s, x);
    match a
    case Refused(c) =>
    case HoldExpires(h) =>
    case LandsLate(h, _) =>
    case Destroy(step) => DestroyLocks(s, step, s', x);
    case Authorize(c, step) =>
      assert GoodLock(s, c);
      AuthorizeLocks(s, c, step, s', x);
    case Settle(c, step) => SettleLocks(s, c, step, s', x);
    case End(c, step) => EndLocks(s, c, step, s', x);
  }

  lemma GlobalDestroy(s: State, step: DestroyStep, s': State)
    requires Invariant(s) && NextDestroy(s, step, s')
    ensures Scalars(s') && Books(s')
  {
    assert GoodLock(s, Name(0));
    DestroyLocks(s, step, s', Name(0));
    SameBooksKept(s, s');
    DestroyKeepsScalars(s, step, s');
  }

  lemma GlobalAuthorize(s: State, c: Id, step: AuthorizeStep, s': State)
    requires Invariant(s) && NextAuthorize(s, c, step, s')
    ensures Scalars(s') && Books(s')
  {
    assert Good(s, c) && GoodLock(s, c);
    AuthorizeBooks(s, c, step, s');
    AuthorizeKeepsTeardown(s, c, step, s');
  }

  lemma GlobalSettle(s: State, c: Id, step: SettleStep, s': State)
    requires Invariant(s) && NextSettle(s, c, step, s')
    ensures Scalars(s') && Books(s')
  {
    assert Good(s, c);
    if !step.Claim? { assert Good(s, s.tasks[c].hold); }
    SettleBooks(s, c, step, s');
    SettleKeepsTeardown(s, c, step, s');
  }

  lemma GlobalEnd(s: State, c: Id, step: EndStep, s': State)
    requires Invariant(s) && NextEnd(s, c, step, s')
    ensures Scalars(s') && Books(s')
  {
    assert Good(s, c);
    if !step.Leave? { assert Good(s, s.tasks[c].hold); }
    EndBooks(s, c, step, s');
    EndKeepsTeardown(s, c, step, s');
  }

  lemma GlobalStep(s: State, a: Action, s': State)
    requires Invariant(s) && Next(s, a, s')
    ensures Scalars(s') && Books(s')
  {
    match a
    case Refused(c) => SameBooksKept(s, s');
    case HoldExpires(h) => SameBooksKept(s, s');
    case LandsLate(h, _) => SameBooksKept(s, s');
    case Destroy(step) => GlobalDestroy(s, step, s');
    case Authorize(c, step) => GlobalAuthorize(s, c, step, s');
    case Settle(c, step) => GlobalSettle(s, c, step, s');
    case End(c, step) => GlobalEnd(s, c, step, s');
  }

  /** Every step of every call keeps the invariant. */
  lemma StepInvariant(s: State, a: Action, s': State)
    requires Invariant(s) && Next(s, a, s')
    ensures Invariant(s')
  {
    GlobalStep(s, a, s');
    forall x: Id ensures Good(s', x) { GoodStep(s, a, s', x); }
    forall x: Id ensures GoodLock(s', x) { LockStep(s, a, s', x); }
  }

  lemma {:induction false} RunInvariant(states: seq<State>, run: seq<Action>, i: nat)
    requires IsRun(states, run) && i <= |run| && Invariant(states[0])
    ensures Invariant(states[i])
  {
    if i > 0 {
      RunInvariant(states, run, i - 1);
      assert StepAt(states, run, i - 1);
      StepInvariant(states[i - 1], run[i - 1], states[i]);
    }
  }

  lemma ReachableInvariant(s: State)
    requires Reachable(s)
    ensures Invariant(s)
  {
    var states: seq<State>, run: seq<Action> :|
      && IsRun(states, run)
      && states[0] == Init(states[0].budget, states[0].restored, states[0].hasEngine)
      && states[|run|] == s;
    InitInvariant(states[0].budget, states[0].restored, states[0].hasEngine);
    RunInvariant(states, run, |run|);
  }

  // ---- One terminal per hold ----

  /** Each hold is in the hands of at most one terminal, and a hold in somebody's hands can be claimed by nobody. */
  lemma OneTerminalPerHold(s: State, c: Id, d: Id)
    requires Reachable(s)
    requires c in s.tasks && Ends(s.tasks[c]) && d in s.tasks && Ends(s.tasks[d])
    ensures s.tasks[c].hold == s.tasks[d].hold ==> c == d
    ensures !MaySettle(s, s.tasks[c].hold) && !MayEnd(s, s.tasks[c].hold)
  {
    ReachableInvariant(s);
    assert Good(s, c) && Good(s, d) && Good(s, s.tasks[c].hold);
  }

  lemma SettleMovesLedger(s: State, c: Id, step: SettleStep, s': State, h: Id)
    requires NextSettle(s, c, step, s') && h in s.ledger
    ensures h in s'.ledger
    ensures s'.ledger[h] != s.ledger[h] ==>
              step.PostReturns? && s.tasks[c].Posting? && s.tasks[c].hold == h && s.ledger[h].Pending?
  {
  }

  lemma EndMovesLedger(s: State, c: Id, step: EndStep, s': State, h: Id)
    requires NextEnd(s, c, step, s') && h in s.ledger
    ensures h in s'.ledger
    ensures s'.ledger[h] != s.ledger[h] ==>
              step.VoidReturns? && s.tasks[c].Voiding? && s.tasks[c].hold == h && s.ledger[h].Pending?
  {
  }

  lemma DestroyMovesLedger(s: State, step: DestroyStep, s': State, h: Id)
    requires NextDestroy(s, step, s') && h in s.ledger
    ensures h in s'.ledger
    ensures s'.ledger[h] != s.ledger[h] ==>
              && s.ledger[h].Pending?
              && (step == SweepVoid(h) || (step == EndLeftover(h, true) && h in s.teardown.leftovers))
  {
  }

  /**
   A pending transfer leaves pending once, and after its POST began only that POST, heard by its own settle or landing
   late, the ledger's timeout or destroy's final sweep can end it: never abort, release or destroy's own loop.
   */
  lemma WhoEndsATransfer(s: State, a: Action, s': State, h: Id)
    requires Reachable(s) && Next(s, a, s') && h in s.ledger
    ensures h in s'.ledger
    ensures s'.ledger[h] != s.ledger[h] ==> s.ledger[h].Pending?
    ensures s'.ledger[h] != s.ledger[h] && h in s.begun ==>
              || (a.Settle? && a.settle.PostReturns? && h in s.owner && s.owner[h] == a.call)
              || a == Destroy(SweepVoid(h))
              || a == HoldExpires(h)
              || (a.LandsLate? && a.late == h && a.outcome.Posted?)
  {
    ReachableInvariant(s);
    assert Good(s, h);
    match a
    case Refused(_) =>
    case HoldExpires(_) =>
    case LandsLate(_, _) =>
    case Authorize(c, step) =>
      assert Good(s, c);
      AuthorizeSteadyLedger(s, c, step, s', h);
    case Settle(c, step) =>
      assert Good(s, c);
      SettleMovesLedger(s, c, step, s', h);
    case End(c, step) =>
      assert Good(s, c);
      EndMovesLedger(s, c, step, s', h);
    case Destroy(step) => DestroyMovesLedger(s, step, s', h);
  }

  lemma AuthorizeSteadyLedger(s: State, c: Id, step: AuthorizeStep, s': State, h: Id)
    requires NextAuthorize(s, c, step, s') && h in s.ledger && GoodTask(s, c)
    ensures h in s'.ledger && s'.ledger[h] == s.ledger[h]
  {
  }

  /** A settle that throws before its POST leaves the hold to abort or release, and to no second settle. */
  lemma FailedSettleHandsTheHoldBack(s: State, c: Id, s': State)
    requires Reachable(s) && Next(s, Settle(c, Throw), s')
    ensures var h := s.tasks[c].hold;
            MayEnd(s', h) && !MaySettle(s', h) && h !in s'.begun && s'.ledger == s.ledger
  {
    ReachableInvariant(s);
    assert Good(s, c) && Good(s, s.tasks[c].hold);
  }

  // ---- One record per hold ----

  /** In every reachable state a hold has at most one terminal record. */
  lemma AtMostOneRecord(s: State, h: Id)
    requires Reachable(s)
    ensures Count(s.records, h) <= 1
    ensures Count(s.records, h) == 1 ==> h in s.registered
  {
    ReachableInvariant(s);
    assert Good(s, h);
  }

  /** When teardown is over, every hold has its one record, or its settle is still running and will write it. */
  lemma TeardownRecordsEveryHold(s: State, h: Id)
    requires Reachable(s) && s.teardown.Finished? && h in s.registered
    ensures Count(s.records, h) == 1 ||
            (Count(s.records, h) == 0 && h in s.owner && s.owner[h] in s.tasks
             && var t := s.tasks[s.owner[h]]; t.Posting? || t.Accounting? || t.Recording?)
  {
    ReachableInvariant(s);
    assert Good(s, h);
    if h in s.owner {
      assert Good(s, s.owner[h]);
    }
  }

  /** After destroy began nothing is registered any more, for the rest of the run. */
  lemma {:induction false} NothingRegisteredAfterDestroy(states: seq<State>, run: seq<Action>, i: nat, j: nat)
    requires IsRun(states, run) && i <= j <= |run| && states[i].destroyed
    ensures states[j].destroyed && states[j].registered == states[i].registered
    decreases j - i
  {
    if i < j {
      assert StepAt(states, run, i);
      DestroyedStep(states[i], run[i], states[i + 1]);
      NothingRegisteredAfterDestroy(states, run, i + 1, j);
    }
  }

  lemma DestroyedStep(s: State, a: Action, s': State)
    requires Next(s, a, s') && s.destroyed
    ensures s'.destroyed && s'.registered == s.registered
  {
    match a
    case Refused(_) =>
    case HoldExpires(_) =>
    case LandsLate(_, _) =>
    case Authorize(c, step) => AuthorizeRegisters(s, c, step, s');
    case Settle(c, step) => SettleKeepsTeardown(s, c, step, s'); SettleRegisters(s, c, step, s');
    case End(c, step) => EndKeepsTeardown(s, c, step, s'); EndRegisters(s, c, step, s');
    case Destroy(step) => DestroyRegisters(s, step, s');
  }

  lemma AuthorizeRegisters(s: State, c: Id, step: AuthorizeStep, s': State)
    requires NextAuthorize(s, c, step, s') && s.destroyed
    ensures s'.destroyed && s'.registered == s.registered
  {
  }

  lemma SettleRegisters(s: State, c: Id, step: SettleStep, s': State)
    requires NextSettle(s, c, step, s')
    ensures s'.registered == s.registered
  {
  }

  lemma EndRegisters(s: State, c: Id, step: EndStep, s': State)
    requires NextEnd(s, c, step, s')
    ensures s'.registered == s.registered
  {
  }

  lemma DestroyRegisters(s: State, step: DestroyStep, s': State)
    requires NextDestroy(s, step, s')
    ensures s'.registered == s.registered && (s.destroyed ==> s'.destroyed)
  {
  }

  /** A record agrees with the ledger: released and failed holds were never charged, settled calls were. */
  lemma RecordsAgreeWithLedger(s: State, i: nat)
    requires Reachable(s) && i < |s.records|
    ensures var r := s.records[i];
            && r.hold in s.registered
            && (!r.LlmCall? ==> !(r.hold in s.ledger && s.ledger[r.hold].Posted?))
            && (r.LlmCall? && r.settled && s.hasEngine ==>
                  && r.hold in s.ledger && s.ledger[r.hold].Posted?
                  && var charge, hold := s.ledger[r.hold].amount, s.registered[r.hold].estimate;
                     charge <= r.cost && charge <= hold && (charge == r.cost || charge == hold))
  {
    ReachableInvariant(s);
    var h := s.records[i].hold;
    assert Good(s, h);
    assert Agrees(s, h, s.records[i]);
    CountPositive(s.records, i);
  }

  // ---- The session counters ----

  /**
   `inFlightHoldTotal` is the sum of the estimates reserved and not given back; the spend plus the
   reservations stay within the budget (or the restored spend) plus what settled calls overran.
   */
  lemma SessionCounters(s: State)
    requires Reachable(s)
    ensures s.inFlightHoldTotal == Sum(s.outstanding)
    ensures forall h: Id :: h in s.outstanding <==> Unreturned(s, h)
    ensures s.budgetSpent == s.restored + Sum(s.spentOn)
    ensures s.budgetSpent + s.inFlightHoldTotal <= Max(s.budget, s.restored) + Sum(Overruns(s))
  {
    ReachableInvariant(s);
    forall h: Id ensures h in s.outstanding <==> Unreturned(s, h) {
      assert Good(s, h);
    }
  }

  /** One hold's part of the counters: an envelope's hold moves neither, a session's charge is always spent. */
  lemma SessionShare(s: State, h: Id)
    requires Reachable(s) && h in s.registered
    ensures h in s.outstanding ==> s.outstanding[h] == s.registered[h].estimate
    ensures !s.registered[h].session ==> h !in s.outstanding && h !in s.spentOn
    ensures s.registered[h].session && h in s.ledger && s.ledger[h].Posted? && h !in s.outstanding ==>
              h in s.spentOn && s.ledger[h].amount <= s.spentOn[h]
    ensures !(h in s.outstanding && h in s.spentOn)
  {
    ReachableInvariant(s);
    assert Good(s, h);
    if h in s.owner {
      assert Good(s, s.owner[h]);
    }
    if h in s.tasks {
      assert false;
    }
  }
}
