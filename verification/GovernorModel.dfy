/**
 The headless governor as a transition system. Every step is one stretch of code between two awaits
 of `authorize`, `settle`, `abort`, `release` or `destroy`; any two steps of different calls may
 interleave. A ledger request takes effect in the step that hears its answer: the steps that follow it
 may be delayed at will, so no observable order of effects is lost.
 */
module GovernorModel {
  import opened Common
  import opened Sums

  /** The name of a call. A hold's transfer id is the name of the authorize call that minted it. */
  datatype Id = Name(serial: nat)

  /** What the governor keeps of an authorize: whose accounting moved, and the hold's size. */
  datatype Capture = Capture(session: bool, estimate: nat)

  datatype Ending = Abort | Release

  /** A call that is parked on an await, with the locals its continuation will use. */
  datatype Task =
    | Queued(estimate: nat, attributed: bool)        // authorize: waiting for the budget lock
    | Gating(estimate: nat, attributed: bool)        // authorize: has the lock, reads the envelope
    | Reserving(estimate: nat, attributed: bool)     // authorize: has the lock, awaits the PENDING hold
    | GivingBack(estimate: nat)                      // authorize cut off by destroy: waits to undo its accounting
    | Claimed(hold: Id, capture: Capture)            // settle: claimed, reading caller input, no await yet
    | Posting(hold: Id, capture: Capture, cost: nat) // settle: awaits its POST
    | Accounting(hold: Id, capture: Capture, cost: nat, confirmed: bool)
    | Recording(hold: Id, capture: Capture, cost: nat, confirmed: bool)
    | Returning(hold: Id)                            // settle: recorded, not yet returned
    | Leaving(hold: Id, capture: Capture, ending: Ending)  // abort, release: waits to give back its accounting
    | Voiding(hold: Id, capture: Capture, ending: Ending)  // abort, release: awaits its void

  predicate Settles(t: Task) {
    t.Claimed? || t.Posting? || t.Accounting? || t.Recording? || t.Returning?
  }

  predicate Ends(t: Task) {
    Settles(t) || t.Leaving? || t.Voiding?
  }

  predicate HoldsLock(t: Task) {
    t.Gating? || t.Reserving?
  }

  datatype BudgetLock = Free | Held(call: Id)

  datatype AuditRecord =
    | LlmCall(hold: Id, cost: nat, settled: bool)
    | LlmCallFailed(hold: Id)
    | HoldReleased(hold: Id)

  datatype Teardown =
    | Idle
    | Draining
    | Sweeping(parked: set<Id>, leftovers: set<Id>)  // holds destroy took and has not recorded yet
    | Finished

  datatype State = State(
    budget: nat,
    restored: nat,
    hasEngine: bool,
    destroyed: bool,
    sweeping: bool,
    lock: BudgetLock,
    inFlightHoldTotal: int,
    budgetSpent: int,
    activeAuths: map<Id, Capture>,
    unpostedHolds: map<Id, Capture>,
    settling: set<Id>,
    inFlight: map<Id, Capture>,
    tasks: map<Id, Task>,
    teardown: Teardown,
    ledger: map<Id, Status>,
    records: seq<AuditRecord>,
    // History, read by no step.
    used: set<Id>,                   // every call ever made
    registered: map<Id, Capture>,    // every hold ever handed to a caller
    owner: map<Id, Id>,              // the terminal working on a hold
    taken: set<Id>,                  // holds destroy took as leftovers
    begun: map<Id, nat>,             // holds whose POST began, with the metered cost
    outstanding: map<Id, nat>,       // session estimates added and not given back
    spentOn: map<Id, nat>)           // session costs added to the spend

  function Init(budget: nat, restored: nat, hasEngine: bool): State {
    State(budget, restored, hasEngine, false, false, Free, 0, restored, map[], map[], {}, map[], map[], Idle,
          map[], [], {}, map[], map[], {}, map[], map[], map[])
  }

  datatype AuthorizeStep =
    | Enter(estimate: nat, attributed: bool)
    | Lock
    | Reserve(envelopeRemaining: int)
    | Refuse
    | Register
    | CutOff
    | Undo

  datatype SettleStep =
    | Claim(hold: Id)
    | Throw
    | Post(cost: nat)
    | PostReturns(landed: bool, answered: bool)
    | Account
    | Record
    | Return

  datatype EndStep =
    | Leave(hold: Id, ending: Ending)
    | HandBack
    | VoidReturns(landed: bool)

  datatype DestroyStep =
    | Begin
    | Take(deadlinePassed: bool)
    | RecordParked(hold: Id)
    | EndLeftover(hold: Id, landed: bool)
    | SweepVoid(hold: Id)
    | Finish

  datatype Action =
    | Refused(call: Id)                            // any call turned away at its entry
    | Authorize(call: Id, authorize: AuthorizeStep)
    | Settle(call: Id, settle: SettleStep)
    | End(call: Id, end: EndStep)                  // abort and release
    | Destroy(destroy: DestroyStep)
    | HoldExpires(expired: Id)
    | LandsLate(late: Id, outcome: Status)         // a POST or a void that was reported as failed

  // ---- Guards ----

  /** Whether the hold debits a cost-center envelope rather than the session wallet. */
  predicate EnvelopeDebited(s: State, attributed: bool) {
    attributed && s.hasEngine
  }

  /** The number the overshoot rule compares with zero. */
  function RemainingAfter(s: State, estimate: nat, attributed: bool, envelopeRemaining: int): int {
    var remaining := if EnvelopeDebited(s, attributed) then envelopeRemaining
                     else s.budget - s.budgetSpent - s.inFlightHoldTotal;
    remaining - estimate
  }

  /** Past the gate and the reserve: without an engine the gate is the last thing that can refuse. */
  predicate MayGrant(s: State, c: Id) {
    && c in s.tasks
    && if s.hasEngine then s.tasks[c].Reserving?
       else s.tasks[c].Gating? && RemainingAfter(s, s.tasks[c].estimate, s.tasks[c].attributed, 0) >= 0
  }

  predicate IsPending(s: State, h: Id) {
    h in s.ledger && s.ledger[h].Pending?
  }

  predicate MaySettle(s: State, h: Id) {
    !s.sweeping && h in s.activeAuths
  }

  /** Without an engine a settle posts nothing and is settled; an engine that answers has posted. */
  predicate MayReturnPost(s: State, c: Id, landed: bool, answered: bool) {
    && c in s.tasks && s.tasks[c].Posting?
    && (landed ==> IsPending(s, s.tasks[c].hold))
    && (if s.hasEngine then answered ==> landed else answered)
  }

  /** What a request reported as failed can still do: post a hold whose POST began, void one that was given up. */
  predicate MayLandLate(s: State, h: Id, outcome: Status) {
    && IsPending(s, h)
    && match outcome
       case Posted(amount) =>
         h in s.begun && h in s.registered && amount == Min(s.begun[h], s.registered[h].estimate)
       case Voided => h !in s.begun && h !in s.activeAuths && h !in s.unpostedHolds
       case _ => false
  }

  predicate MayTake(s: State, deadlinePassed: bool) {
    && s.teardown.Draining?
    && (deadlinePassed || (s.settling == {} && s.inFlight == map[]))
    // A settle runs from its claim to its POST without an await, and a teardown entered from inside
    // that stretch waits on its timer: it never takes holds in the middle of one.
    && forall c :: c in s.tasks ==> !s.tasks[c].Claimed?
  }

  /** destroy has recorded every hold it took. */
  predicate Recorded(s: State) {
    s.teardown.Sweeping? && s.teardown.parked == {} && s.teardown.leftovers == {}
  }

  /** abort and release claim a hold no settle owns: one still active, or one a failed settle handed back. */
  predicate MayEnd(s: State, h: Id) {
    !s.sweeping && h !in s.settling && (h in s.activeAuths || h in s.unpostedHolds)
  }

  // ---- Steps ----

  /** The two session counters: only a session-accounted hold moves them. */
  function Plus(total: int, session: bool, amount: nat): int {
    if session then total + amount else total
  }

  function Minus(total: int, session: bool, amount: nat): int {
    if session then total - amount else total
  }

  function With(m: map<Id, nat>, session: bool, h: Id, amount: nat): map<Id, nat> {
    if session then m[h := amount] else m
  }

  function Enqueue(s: State, c: Id, estimate: nat, attributed: bool): State {
    s.(used := s.used + {c}, tasks := s.tasks[c := Queued(estimate, attributed)])
  }

  function TakeLock(s: State, c: Id): State
    requires c in s.tasks && s.tasks[c].Queued?
  {
    s.(lock := Held(c), tasks := s.tasks[c := Gating(s.tasks[c].estimate, s.tasks[c].attributed)])
  }

  function AskReserve(s: State, c: Id): State
    requires c in s.tasks && s.tasks[c].Gating?
  {
    s.(tasks := s.tasks[c := Reserving(s.tasks[c].estimate, s.tasks[c].attributed)])
  }

  /** Refused by the gate, or by the ledger: the lock goes and nothing else moved. */
  function Deny(s: State, c: Id): State {
    s.(lock := Free, tasks := s.tasks - {c})
  }

  /** What authorize captures: an envelope's hold is not accounted to the session. */
  function CaptureOf(s: State, t: Task): Capture
    requires HoldsLock(t)
  {
    Capture(!EnvelopeDebited(s, t.attributed), t.estimate)
  }

  function Reserved(s: State, c: Id): map<Id, Status> {
    if s.hasEngine then s.ledger[c := Pending] else s.ledger
  }

  function Grant(s: State, c: Id): State
    requires c in s.tasks && HoldsLock(s.tasks[c])
  {
    var capture := CaptureOf(s, s.tasks[c]);
    s.(lock := Free,
       ledger := Reserved(s, c),
       inFlightHoldTotal := Plus(s.inFlightHoldTotal, capture.session, capture.estimate),
       outstanding := With(s.outstanding, capture.session, c, capture.estimate),
       tasks := s.tasks - {c},
       activeAuths := s.activeAuths[c := capture],
       registered := s.registered[c := capture])
  }

  /** destroy began while this authorize awaited: the hold is never registered, its accounting is undone. */
  function GrantLate(s: State, c: Id): State
    requires c in s.tasks && HoldsLock(s.tasks[c])
  {
    var capture := CaptureOf(s, s.tasks[c]);
    s.(lock := Free,
       ledger := Reserved(s, c),
       inFlightHoldTotal := Plus(s.inFlightHoldTotal, capture.session, capture.estimate),
       outstanding := With(s.outstanding, capture.session, c, capture.estimate),
       tasks := if capture.session then s.tasks[c := GivingBack(capture.estimate)] else s.tasks - {c})
  }

  function UndoLate(s: State, c: Id): State
    requires c in s.tasks && s.tasks[c].GivingBack?
  {
    s.(inFlightHoldTotal := s.inFlightHoldTotal - s.tasks[c].estimate,
       outstanding := s.outstanding - {c},
       tasks := s.tasks - {c})
  }

  function ClaimSettle(s: State, c: Id, h: Id): State
    requires h in s.activeAuths
  {
    s.(used := s.used + {c},
       activeAuths := s.activeAuths - {h},
       unpostedHolds := s.unpostedHolds[h := s.activeAuths[h]],
       settling := s.settling + {h},
       owner := s.owner[h := c],
       tasks := s.tasks[c := Claimed(h, s.activeAuths[h])])
  }

  /** A settle is over, by a throw before its POST or by returning: it owns its hold no longer. */
  function LeaveSettle(s: State, c: Id): State
    requires c in s.tasks && Settles(s.tasks[c])
  {
    var h := s.tasks[c].hold;
    s.(settling := s.settling - {h}, owner := s.owner - {h}, tasks := s.tasks - {c})
  }

  function BeginPost(s: State, c: Id, cost: nat): State
    requires c in s.tasks && s.tasks[c].Claimed?
  {
    var t := s.tasks[c];
    s.(unpostedHolds := s.unpostedHolds - {t.hold},
       begun := s.begun[t.hold := cost],
       tasks := s.tasks[c := Posting(t.hold, t.capture, cost)])
  }

  function ReturnPost(s: State, c: Id, landed: bool, answered: bool): State
    requires c in s.tasks && s.tasks[c].Posting?
  {
    var t := s.tasks[c];
    s.(ledger := if landed then s.ledger[t.hold := Posted(Min(t.cost, t.capture.estimate))] else s.ledger,
       tasks := s.tasks[c := Accounting(t.hold, t.capture, t.cost, answered)])
  }

  function AccountSettle(s: State, c: Id): State
    requires c in s.tasks && s.tasks[c].Accounting?
  {
    var t := s.tasks[c];
    s.(inFlightHoldTotal := Minus(s.inFlightHoldTotal, t.capture.session, t.capture.estimate),
       outstanding := s.outstanding - {t.hold},
       budgetSpent := Plus(s.budgetSpent, t.capture.session, t.cost),
       spentOn := With(s.spentOn, t.capture.session, t.hold, t.cost),
       tasks := s.tasks[c := Recording(t.hold, t.capture, t.cost, t.confirmed)])
  }

  function RecordSettle(s: State, c: Id): State
    requires c in s.tasks && s.tasks[c].Recording?
  {
    var t := s.tasks[c];
    s.(records := s.records + [LlmCall(t.hold, t.cost, t.confirmed)], tasks := s.tasks[c := Returning(t.hold)])
  }

  function ClaimEnd(s: State, c: Id, h: Id, ending: Ending): State
    requires h in s.activeAuths || h in s.unpostedHolds
  {
    var capture := if h in s.activeAuths then s.activeAuths[h] else s.unpostedHolds[h];
    s.(used := s.used + {c},
       activeAuths := if h in s.activeAuths then s.activeAuths - {h} else s.activeAuths,
       unpostedHolds := if h in s.activeAuths then s.unpostedHolds else s.unpostedHolds - {h},
       inFlight := s.inFlight[h := capture],
       owner := s.owner[h := c],
       tasks := s.tasks[c := Leaving(h, capture, ending)])
  }

  function AccountEnd(s: State, c: Id): State
    requires c in s.tasks && s.tasks[c].Leaving?
  {
    var t := s.tasks[c];
    s.(inFlightHoldTotal := Minus(s.inFlightHoldTotal, t.capture.session, t.capture.estimate),
       outstanding := s.outstanding - {t.hold},
       tasks := s.tasks[c := Voiding(t.hold, t.capture, t.ending)])
  }

  function RecordOf(h: Id, ending: Ending): AuditRecord {
    match ending
    case Abort => LlmCallFailed(h)
    case Release => HoldReleased(h)
  }

  /** The void is answered; the record is this call's unless destroy took the hold over meanwhile. */
  function VoidEnd(s: State, c: Id, landed: bool): State
    requires c in s.tasks && s.tasks[c].Voiding?
  {
    var t := s.tasks[c];
    s.(ledger := if landed then s.ledger[t.hold := Voided] else s.ledger,
       inFlight := s.inFlight - {t.hold},
       records := if t.hold in s.inFlight then s.records + [RecordOf(t.hold, t.ending)] else s.records,
       owner := s.owner - {t.hold},
       tasks := s.tasks - {c})
  }

  /** destroy's deadline: every hold that is still the governor's is taken in one step. */
  function TakeHolds(s: State): State {
    var leftovers := s.activeAuths.Keys + s.unpostedHolds.Keys;
    s.(inFlight := map[], sweeping := true, activeAuths := map[], unpostedHolds := map[],
       taken := leftovers, teardown := Sweeping(s.inFlight.Keys, leftovers))
  }

  function RecordTakenOver(s: State, h: Id): State
    requires s.teardown.Sweeping?
  {
    s.(records := s.records + [HoldReleased(h)],
       teardown := Sweeping(s.teardown.parked - {h}, s.teardown.leftovers))
  }

  function EndTaken(s: State, h: Id, landed: bool): State
    requires s.teardown.Sweeping?
  {
    s.(ledger := if landed then s.ledger[h := Voided] else s.ledger,
       records := s.records + [HoldReleased(h)],
       teardown := Sweeping(s.teardown.parked, s.teardown.leftovers - {h}))
  }

  predicate NextAuthorize(s: State, c: Id, a: AuthorizeStep, s': State) {
    match a
    case Enter(estimate, attributed) =>
      c !in s.used && !s.destroyed && s' == Enqueue(s, c, estimate, attributed)
    case Lock => c in s.tasks && s.tasks[c].Queued? && s.lock.Free? && s' == TakeLock(s, c)
    case Reserve(remaining) =>
      && c in s.tasks && s.tasks[c].Gating? && s.hasEngine
      && RemainingAfter(s, s.tasks[c].estimate, s.tasks[c].attributed, remaining) >= 0
      && s' == AskReserve(s, c)
    case Refuse => c in s.tasks && HoldsLock(s.tasks[c]) && s' == Deny(s, c)
    case Register => MayGrant(s, c) && !s.destroyed && s' == Grant(s, c)
    case CutOff => MayGrant(s, c) && s.destroyed && s' == GrantLate(s, c)
    case Undo => c in s.tasks && s.tasks[c].GivingBack? && s.lock.Free? && s' == UndoLate(s, c)
  }

  predicate NextSettle(s: State, c: Id, a: SettleStep, s': State) {
    match a
    case Claim(h) => c !in s.used && MaySettle(s, h) && s' == ClaimSettle(s, c, h)
    case Throw => c in s.tasks && s.tasks[c].Claimed? && s' == LeaveSettle(s, c)
    case Post(cost) => c in s.tasks && s.tasks[c].Claimed? && s' == BeginPost(s, c, cost)
    case PostReturns(landed, answered) =>
      MayReturnPost(s, c, landed, answered) && s' == ReturnPost(s, c, landed, answered)
    case Account =>
      && c in s.tasks && s.tasks[c].Accounting? && (s.tasks[c].capture.session ==> s.lock.Free?)
      && s' == AccountSettle(s, c)
    case Record => c in s.tasks && s.tasks[c].Recording? && s' == RecordSettle(s, c)
    case Return => c in s.tasks && s.tasks[c].Returning? && s' == LeaveSettle(s, c)
  }

  predicate NextEnd(s: State, c: Id, a: EndStep, s': State) {
    match a
    case Leave(h, ending) => c !in s.used && MayEnd(s, h) && s' == ClaimEnd(s, c, h, ending)
    case HandBack =>
      && c in s.tasks && s.tasks[c].Leaving? && (s.tasks[c].capture.session ==> s.lock.Free?)
      && s' == AccountEnd(s, c)
    case VoidReturns(landed) =>
      && c in s.tasks && s.tasks[c].Voiding? && (landed ==> IsPending(s, s.tasks[c].hold))
      && s' == VoidEnd(s, c, landed)
  }

  predicate NextDestroy(s: State, a: DestroyStep, s': State) {
    match a
    case Begin => s.teardown.Idle? && s' == s.(destroyed := true, teardown := Draining)
    case Take(deadlinePassed) => MayTake(s, deadlinePassed) && s' == TakeHolds(s)
    case RecordParked(h) => s.teardown.Sweeping? && h in s.teardown.parked && s' == RecordTakenOver(s, h)
    case EndLeftover(h, landed) =>
      && s.teardown.Sweeping? && s.teardown.parked == {} && h in s.teardown.leftovers
      && (landed ==> IsPending(s, h))
      && s' == EndTaken(s, h, landed)
    case SweepVoid(h) => Recorded(s) && IsPending(s, h) && s' == s.(ledger := s.ledger[h := Voided])
    case Finish => Recorded(s) && s' == s.(teardown := Finished)
  }

  /** One step of the system: the guard, and the state it leaves. */
  predicate Next(s: State, a: Action, s': State) {
    match a
    case Refused(c) => c !in s.used && s' == s.(used := s.used + {c})
    case Authorize(c, step) => NextAuthorize(s, c, step, s')
    case Settle(c, step) => NextSettle(s, c, step, s')
    case End(c, step) => NextEnd(s, c, step, s')
    case Destroy(step) => NextDestroy(s, step, s')
    case HoldExpires(h) => IsPending(s, h) && s' == s.(ledger := s.ledger[h := Expired])
    case LandsLate(h, outcome) => MayLandLate(s, h, outcome) && s' == s.(ledger := s.ledger[h := outcome])
  }

  // ---- Runs ----

  /** A run: each state follows from the one before it by the action between them. */
  ghost predicate IsRun(states: seq<State>, run: seq<Action>) {
    |states| == |run| + 1 && forall i :: 0 <= i < |run| ==> StepAt(states, run, i)
  }

  ghost predicate StepAt(states: seq<State>, run: seq<Action>, i: nat)
    requires i < |run| && |states| == |run| + 1
  {
    Next(states[i], run[i], states[i + 1])
  }

  /** Every state some run of a new governor reaches. */
  ghost predicate Reachable(s: State) {
    exists states: seq<State>, run: seq<Action> ::
      && IsRun(states, run)
      && states[0] == Init(states[0].budget, states[0].restored, states[0].hasEngine)
      && states[|run|] == s
  }

  lemma InitReachable(budget: nat, restored: nat, hasEngine: bool)
    ensures Reachable(Init(budget, restored, hasEngine))
  {
    var s := Init(budget, restored, hasEngine);
    var run: seq<Action> := [];
    assert IsRun([s], run) && [s][|run|] == s;
  }

  /** A step from a reachable state leads to one. */
  lemma ReachableNext(s: State, a: Action, s': State)
    requires Reachable(s) && Next(s, a, s')
    ensures Reachable(s')
  {
    var states: seq<State>, run: seq<Action> :|
      && IsRun(states, run)
      && states[0] == Init(states[0].budget, states[0].restored, states[0].hasEngine)
      && states[|run|] == s;
    var states', run' := states + [s'], run + [a];
    forall i | 0 <= i < |run'|
      ensures StepAt(states', run', i)
    {
      if i < |run| {
        assert StepAt(states, run, i);
        assert states'[i] == states[i] && run'[i] == run[i] && states'[i + 1] == states[i + 1];
      }
    }
    assert IsRun(states', run') && states'[0] == states[0] && states'[|run'|] == s';
  }

  lemma ReachableAuthorize(s: State, c: Id, step: AuthorizeStep, s': State)
    requires Reachable(s) && NextAuthorize(s, c, step, s')
    ensures Reachable(s')
  {
    ReachableNext(s, Authorize(c, step), s');
  }

  lemma ReachableSettle(s: State, c: Id, step: SettleStep, s': State)
    requires Reachable(s) && NextSettle(s, c, step, s')
    ensures Reachable(s')
  {
    ReachableNext(s, Settle(c, step), s');
  }

  lemma ReachableEnd(s: State, c: Id, step: EndStep, s': State)
    requires Reachable(s) && NextEnd(s, c, step, s')
    ensures Reachable(s')
  {
    ReachableNext(s, End(c, step), s');
  }
}
