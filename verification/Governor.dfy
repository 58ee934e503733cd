/**
 The governor object: the closures of `createGovernor` over the variables they share, one method per stretch
 of code between two awaits. A method's parameters are the locals its continuation kept.
 */
module GovernorObject {
  import opened Common
  import opened GovernorModel

  lemma EndStepReachable(s: State, c: Id, h: Id, ending: Ending, next: State)
    requires Reachable(s) && c !in s.used && MayEnd(s, h) && next == ClaimEnd(s, c, h, ending)
    ensures NextEnd(s, c, Leave(h, ending), next) && Reachable(next)
  {
    ReachableEnd(s, c, Leave(h, ending), next);
  }

  class Governor {
    const budget: nat
    const hasEngine: bool
    var destroyed: bool
    var sweeping: bool
    var lock: BudgetLock
    var inFlightHoldTotal: int
    var budgetSpent: int
    var activeAuths: map<Id, Capture>
    var unpostedHolds: map<Id, Capture>
    var settling: set<Id>
    var inFlight: map<Id, Capture>
    ghost var view: State

    /** The variables are the view's, and the view is one a run of the system can be in. */
    ghost predicate Valid()
      reads this
    {
      Shown(view) && Reachable(view)
    }

    /** The variables as a state of the system has them. */
    ghost predicate Shown(view: State)
      reads this
    {
      && view.budget == budget && view.hasEngine == hasEngine
      && view.destroyed == destroyed && view.sweeping == sweeping && view.lock == lock
      && view.inFlightHoldTotal == inFlightHoldTotal && view.budgetSpent == budgetSpent
      && view.activeAuths == activeAuths && view.unpostedHolds == unpostedHolds
      && view.settling == settling && view.inFlight == inFlight
    }

    constructor (budget: nat, restored: nat, hasEngine: bool)
      ensures Valid() && view == Init(budget, restored, hasEngine)
    {
      this.budget, this.hasEngine := budget, hasEngine;
      destroyed, sweeping, lock := false, false, Free;
      inFlightHoldTotal, budgetSpent := 0, restored;
      activeAuths, unpostedHolds, settling, inFlight := map[], map[], {}, map[];
      view := Init(budget, restored, hasEngine);
      new;
      InitReachable(budget, restored, hasEngine);
    }

    /** A step of the system that touches none of the variables: an answer of the ledger, a record, a timeout. */
    ghost method Elsewhere(a: Action, next: State)
      requires Valid() && Next(view, a, next) && Shown(next)
      modifies this`view
      ensures Valid() && view == next
    {
      ReachableNext(view, a, next);
      view := next;
    }

    // ---- authorize ----

    method AuthorizeEnter(c: Id, estimate: nat, attributed: bool) returns (entered: bool)
      requires Valid() && c !in view.used
      modifies this
      ensures Valid()
      ensures entered <==> !old(destroyed)
      ensures entered ==> NextAuthorize(old(view), c, Enter(estimate, attributed), view)
      ensures !entered ==> view == old(view)
    {
      if destroyed {
        return false;
      }
      ReachableAuthorize(view, c, Enter(estimate, attributed), Enqueue(view, c, estimate, attributed));
      view := Enqueue(view, c, estimate, attributed);
      return true;
    }

    method AuthorizeLock(c: Id)
      requires Valid() && c in view.tasks && view.tasks[c].Queued? && lock.Free?
      modifies this
      ensures Valid() && NextAuthorize(old(view), c, Lock, view)
    {
      lock := Held(c);
      ReachableAuthorize(view, c, Lock, TakeLock(view, c));
      view := TakeLock(view, c);
    }

    /** The gate, on the wallet the hold will debit. */
    method AuthorizeGate(estimate: nat, attributed: bool, envelopeRemaining: int) returns (passed: bool)
      requires Valid()
      ensures attributed && hasEngine ==> (passed <==> estimate <= envelopeRemaining)
      ensures !(attributed && hasEngine) ==> (passed <==> estimate <= budget - budgetSpent - inFlightHoldTotal)
      ensures passed <==> RemainingAfter(view, estimate, attributed, envelopeRemaining) >= 0
    {
      var sessionRemaining := budget - budgetSpent - inFlightHoldTotal;
      var gateRemaining := if attributed && hasEngine then envelopeRemaining else sessionRemaining;
      passed := gateRemaining - estimate >= 0;
    }

    /** A denial, by the gate or by the ledger: the lock is let go and no counter moved. */
    method AuthorizeDeny(c: Id)
      requires Valid() && c in view.tasks && HoldsLock(view.tasks[c])
      modifies this
      ensures Valid() && NextAuthorize(old(view), c, Refuse, view)
    {
      lock := Free;
      ReachableAuthorize(view, c, Refuse, Deny(view, c));
      view := Deny(view, c);
    }

    /** The hold is on the ledger (or there is none): account for it, let the lock go, register it or not. */
    method AuthorizeFinish(c: Id, estimate: nat, attributed: bool) returns (granted: bool)
      requires Valid() && MayGrant(view, c)
      requires view.tasks[c].estimate == estimate && view.tasks[c].attributed == attributed
      modifies this
      ensures Valid()
      ensures granted <==> !old(destroyed)
      ensures inFlightHoldTotal == old(inFlightHoldTotal) + if attributed && hasEngine then 0 else estimate
      ensures activeAuths == if granted then old(activeAuths)[c := Capture(!(attributed && hasEngine), estimate)]
                             else old(activeAuths)
      ensures lock.Free? && budgetSpent == old(budgetSpent)
      ensures NextAuthorize(old(view), c, if granted then Register else CutOff, view)
    {
      var envelopeDebited := attributed && hasEngine;
      granted := !destroyed;
      if granted {
        Admit(c, estimate, !envelopeDebited);
      } else {
        TurnAway(c, estimate, !envelopeDebited);
      }
    }

    method Admit(c: Id, estimate: nat, session: bool)
      requires Valid() && MayGrant(view, c) && !destroyed
      requires CaptureOf(view, view.tasks[c]) == Capture(session, estimate)
      modifies this
      ensures Valid() && NextAuthorize(old(view), c, Register, view)
      ensures inFlightHoldTotal == old(inFlightHoldTotal) + (if session then estimate else 0)
      ensures activeAuths == old(activeAuths)[c := Capture(session, estimate)]
      ensures lock.Free? && budgetSpent == old(budgetSpent)
    {
      if session {
        inFlightHoldTotal := inFlightHoldTotal + estimate;
      }
      lock := Free;
      activeAuths := activeAuths[c := Capture(session, estimate)];
      ReachableAuthorize(view, c, Register, Grant(view, c));
      view := Grant(view, c);
    }

    method TurnAway(c: Id, estimate: nat, session: bool)
      requires Valid() && MayGrant(view, c) && destroyed && CaptureOf(view, view.tasks[c]) == Capture(session, estimate)
      modifies this
      ensures Valid() && NextAuthorize(old(view), c, CutOff, view)
      ensures inFlightHoldTotal == old(inFlightHoldTotal) + (if session then estimate else 0)
      ensures activeAuths == old(activeAuths) && lock.Free? && budgetSpent == old(budgetSpent)
    {
      if session {
        inFlightHoldTotal := inFlightHoldTotal + estimate;
      }
      lock := Free;
      ReachableAuthorize(view, c, CutOff, GrantLate(view, c));
      view := GrantLate(view, c);
    }

    method AuthorizeUndo(c: Id, estimate: nat)
      requires Valid() && lock.Free? && c in view.tasks && view.tasks[c] == GivingBack(estimate)
      modifies this
      ensures Valid() && NextAuthorize(old(view), c, Undo, view)
      ensures inFlightHoldTotal == old(inFlightHoldTotal) - estimate
    {
      inFlightHoldTotal := inFlightHoldTotal - estimate;
      ReachableAuthorize(view, c, Undo, UndoLate(view, c));
      view := UndoLate(view, c);
    }

    // ---- settle ----

    /** From the entry to the end of the claim. */
    method SettleClaim(c: Id, h: Id) returns (claimed: bool)
      requires Valid() && c !in view.used
      modifies this
      ensures Valid()
      ensures claimed <==> !old(sweeping) && h in old(activeAuths)
      ensures claimed ==> activeAuths == old(activeAuths) - {h} && settling == old(settling) + {h}
      ensures claimed ==> unpostedHolds == old(unpostedHolds)[h := old(activeAuths)[h]]
      ensures claimed ==> NextSettle(old(view), c, Claim(h), view)
      ensures !claimed ==> view == old(view)
    {
      if sweeping {
        return false;
      }
      if h !in activeAuths {
        return false;
      }
      var capture := activeAuths[h];
      activeAuths := activeAuths - {h};
      unpostedHolds := unpostedHolds[h := capture];
      settling := settling + {h};
      ReachableSettle(view, c, Claim(h), ClaimSettle(view, c, h));
      view := ClaimSettle(view, c, h);
      return true;
    }

    /** The `finally`: after a throw before the POST, or at the end. */
    method SettleLeave(c: Id, h: Id)
      requires Valid() && c in view.tasks && (view.tasks[c].Claimed? || view.tasks[c].Returning?)
      requires view.tasks[c].hold == h
      modifies this
      ensures Valid()
      ensures NextSettle(old(view), c, if old(view).tasks[c].Claimed? then Throw else Return, view)
      ensures settling == old(settling) - {h} && unpostedHolds == old(unpostedHolds)
    {
      settling := settling - {h};
      ReachableSettle(view, c, if view.tasks[c].Claimed? then Throw else Return, LeaveSettle(view, c));
      view := LeaveSettle(view, c);
    }

    method SettlePost(c: Id, h: Id, cost: nat)
      requires Valid() && c in view.tasks && view.tasks[c].Claimed? && view.tasks[c].hold == h
      modifies this
      ensures Valid() && NextSettle(old(view), c, Post(cost), view)
      ensures unpostedHolds == old(unpostedHolds) - {h} && settling == old(settling)
    {
      unpostedHolds := unpostedHolds - {h};
      ReachableSettle(view, c, Post(cost), BeginPost(view, c, cost));
      view := BeginPost(view, c, cost);
    }

    /** The session accounting, under the budget lock. */
    method SettleAccount(c: Id, capture: Capture, cost: nat)
      requires Valid() && c in view.tasks && view.tasks[c].Accounting?
      requires view.tasks[c].capture == capture && view.tasks[c].cost == cost && (capture.session ==> lock.Free?)
      modifies this
      ensures Valid() && NextSettle(old(view), c, Account, view)
      ensures inFlightHoldTotal == old(inFlightHoldTotal) - (if capture.session then capture.estimate else 0)
      ensures budgetSpent == old(budgetSpent) + (if capture.session then cost else 0)
    {
      if capture.session {
        inFlightHoldTotal := inFlightHoldTotal - capture.estimate;
        budgetSpent := budgetSpent + cost;
      }
      ReachableSettle(view, c, Account, AccountSettle(view, c));
      view := AccountSettle(view, c);
    }

    // ---- abort, release ----

    /** The claim the two share: a hold a settle owns is left alone, one a settle handed back is taken. */
    method EndClaim(c: Id, h: Id, ending: Ending) returns (claimed: bool)
      requires Valid() && c !in view.used
      modifies this
      ensures Valid()
      ensures claimed <==>
                !old(sweeping) && h !in old(settling) && (h in old(activeAuths) || h in old(unpostedHolds))
      ensures claimed ==> h !in activeAuths && (h in old(activeAuths) || h !in unpostedHolds)
      ensures claimed && h in old(activeAuths) ==> inFlight == old(inFlight)[h := old(activeAuths)[h]]
      ensures claimed && h !in old(activeAuths) ==> inFlight == old(inFlight)[h := old(unpostedHolds)[h]]
      ensures view == if claimed then ClaimEnd(old(view), c, h, ending) else old(view)
    {
      if sweeping || h in settling || (h !in activeAuths && h !in unpostedHolds) {
        return false;
      }
      if h in activeAuths {
        ClaimActive(c, h, ending);
      } else {
        ClaimHandedBack(c, h, ending);
      }
      return true;
    }

    method ClaimActive(c: Id, h: Id, ending: Ending)
      requires Valid() && c !in view.used && MayEnd(view, h) && h in activeAuths
      modifies this
      ensures Valid() && view == ClaimEnd(old(view), c, h, ending)
      ensures activeAuths == old(activeAuths) - {h} && inFlight == old(inFlight)[h := old(activeAuths)[h]]
    {
      inFlight := inFlight[h := activeAuths[h]];
      activeAuths := activeAuths - {h};
      EndStepReachable(view, c, h, ending, ClaimEnd(view, c, h, ending));
      view := ClaimEnd(view, c, h, ending);
    }

    method ClaimHandedBack(c: Id, h: Id, ending: Ending)
      requires Valid() && c !in view.used && MayEnd(view, h) && h !in activeAuths
      modifies this
      ensures Valid() && view == ClaimEnd(old(view), c, h, ending)
      ensures unpostedHolds == old(unpostedHolds) - {h} && inFlight == old(inFlight)[h := old(unpostedHolds)[h]]
      ensures activeAuths == old(activeAuths)
    {
      inFlight := inFlight[h := unpostedHolds[h]];
      unpostedHolds := unpostedHolds - {h};
      EndStepReachable(view, c, h, ending, ClaimEnd(view, c, h, ending));
      view := ClaimEnd(view, c, h, ending);
    }

    method EndAccount(c: Id, capture: Capture)
      requires Valid() && c in view.tasks && view.tasks[c].Leaving? && view.tasks[c].capture == capture
      requires capture.session ==> lock.Free?
      modifies this
      ensures Valid() && NextEnd(old(view), c, HandBack, view)
      ensures inFlightHoldTotal == old(inFlightHoldTotal) - (if capture.session then capture.estimate else 0)
      ensures budgetSpent == old(budgetSpent)
    {
      if capture.session {
        inFlightHoldTotal := inFlightHoldTotal - capture.estimate;
      }
      ReachableEnd(view, c, HandBack, AccountEnd(view, c));
      view := AccountEnd(view, c);
    }

    /** After the void: whether this call still has to write the record. */
    method EndVoided(c: Id, h: Id, ghost landed: bool) returns (records: bool)
      requires Valid() && c in view.tasks && view.tasks[c].Voiding? && view.tasks[c].hold == h
      requires landed ==> IsPending(view, h)
      modifies this
      ensures Valid() && NextEnd(old(view), c, VoidReturns(landed), view)
      ensures records <==> h in old(inFlight)
      ensures inFlight == old(inFlight) - {h}
      ensures !records ==> view.records == old(view).records
      ensures records ==>
                view.records == old(view).records
                  + [if old(view).tasks[c].ending == Abort then LlmCallFailed(h) else HoldReleased(h)]
    {
      records := h in inFlight;
      inFlight := inFlight - {h};
      ReachableEnd(view, c, VoidReturns(landed), VoidEnd(view, c, landed));
      view := VoidEnd(view, c, landed);
    }

    // ---- destroy ----

    method DestroyBegin()
      requires Valid() && view.teardown.Idle?
      modifies this
      ensures Valid() && NextDestroy(old(view), Begin, view)
    {
      destroyed := true;
      ReachableNext(view, Destroy(Begin), view.(destroyed := true, teardown := Draining));
      view := view.(destroyed := true, teardown := Draining);
    }

    /** The synchronous step at the deadline: what was in flight, and what was still held. */
    method DestroyTake(ghost deadlinePassed: bool) returns (stillInFlight: map<Id, Capture>, leftovers: set<Id>)
      requires Valid() && MayTake(view, deadlinePassed)
      modifies this
      ensures Valid() && NextDestroy(old(view), Take(deadlinePassed), view)
      ensures view.teardown == Sweeping(stillInFlight.Keys, leftovers)
      ensures activeAuths == map[] && unpostedHolds == map[] && inFlight == map[] && sweeping
      ensures stillInFlight == old(inFlight) && leftovers == old(activeAuths).Keys + old(unpostedHolds).Keys
    {
      stillInFlight := inFlight;
      inFlight := map[];
      sweeping := true;
      leftovers := activeAuths.Keys + unpostedHolds.Keys;
      activeAuths := map[];
      unpostedHolds := map[];
      ReachableNext(view, Destroy(Take(deadlinePassed)), TakeHolds(view));
      view := TakeHolds(view);
    }
  }
}
