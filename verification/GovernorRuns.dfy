/** Where everything in a run came from: each hold from a gate that let it through, each record from its own call. */
module GovernorRuns {
  import opened Common
  import opened GovernorModel

  // ---- What happened ----

  /** The action is among the first `i` of the run. */
  ghost predicate Happened(run: seq<Action>, i: nat, a: Action)
    requires i <= |run|
  {
    exists k :: 0 <= k < i && run[k] == a
  }

  /** The estimate fits the wallet it will debit: the envelope as it was read, or the session's own counters. */
  predicate Affordable(s: State, estimate: nat, attributed: bool, envelopeRemaining: int) {
    if attributed && s.hasEngine then estimate <= envelopeRemaining
    else estimate <= s.budget - s.budgetSpent - s.inFlightHoldTotal
  }

  /** Step `k` is the gate of call `c`: it asks for the reserve, or without an engine grants at once. */
  ghost predicate IsGate(states: seq<State>, run: seq<Action>, k: nat, c: Id, estimate: nat, attributed: bool)
    requires |states| == |run| + 1 && k < |run|
  {
    && run[k].Authorize? && run[k].call == c
    && match run[k].authorize
       case Reserve(remaining) => Affordable(states[k], estimate, attributed, remaining)
       case Register => !states[k].hasEngine && Affordable(states[k], estimate, attributed, 0)
       case CutOff => !states[k].hasEngine && Affordable(states[k], estimate, attributed, 0)
       case _ => false
  }

  ghost predicate Gated(states: seq<State>, run: seq<Action>, i: nat, c: Id, estimate: nat, attributed: bool)
    requires |states| == |run| + 1 && i <= |run|
  {
    exists k :: 0 <= k < i && IsGate(states, run, k, c, estimate, attributed)
  }

  ghost predicate Entered(run: seq<Action>, i: nat, c: Id, estimate: nat, attributed: bool)
    requires i <= |run|
  {
    Happened(run, i, Authorize(c, Enter(estimate, attributed)))
  }

  /** What must have happened for the call to be parked where it is, with the locals it has. */
  ghost predicate TaskOrigin(states: seq<State>, run: seq<Action>, i: nat, c: Id, t: Task)
    requires |states| == |run| + 1 && i <= |run|
  {
    match t
    case Queued(e, attributed) => Entered(run, i, c, e, attributed)
    case Gating(e, attributed) => Entered(run, i, c, e, attributed)
    case Reserving(e, attributed) => Entered(run, i, c, e, attributed) && Gated(states, run, i, c, e, attributed)
    case GivingBack(_) => true
    case Claimed(h, _) => Happened(run, i, Settle(c, Claim(h)))
    case Posting(h, _, cost) => Posted(run, i, c, h, cost)
    case Accounting(h, _, cost, confirmed) => Posted(run, i, c, h, cost) && Answered(run, i, c, confirmed)
    case Recording(h, _, cost, confirmed) => Posted(run, i, c, h, cost) && Answered(run, i, c, confirmed)
    case Returning(_) => true
    case Leaving(h, _, ending) => Happened(run, i, End(c, Leave(h, ending)))
    case Voiding(h, _, ending) => Happened(run, i, End(c, Leave(h, ending)))
  }

  ghost predicate Posted(run: seq<Action>, i: nat, c: Id, h: Id, cost: nat)
    requires i <= |run|
  {
    Happened(run, i, Settle(c, Claim(h))) && Happened(run, i, Settle(c, Post(cost)))
  }

  /** The ledger's answer to the POST of call `c`. */
  ghost predicate Answered(run: seq<Action>, i: nat, c: Id, confirmed: bool)
    requires i <= |run|
  {
    exists landed :: Happened(run, i, Settle(c, PostReturns(landed, confirmed)))
  }

  /** A hold was entered with its estimate, let through by the gate, and is the session's unless an envelope pays. */
  ghost predicate HoldOrigin(states: seq<State>, run: seq<Action>, i: nat, h: Id, capture: Capture)
    requires |states| == |run| + 1 && i <= |run|
  {
    exists attributed ::
      && Entered(run, i, h, capture.estimate, attributed) && Gated(states, run, i, h, capture.estimate, attributed)
      && capture.session == !(attributed && states[i].hasEngine)
  }

  /** A record names the call that wrote it: a settle its cost, an abort a failure, a release or destroy a release. */
  ghost predicate RecordOrigin(run: seq<Action>, i: nat, r: AuditRecord)
    requires i <= |run|
  {
    match r
    case LlmCall(h, cost, settled) => exists c :: Posted(run, i, c, h, cost) && Answered(run, i, c, settled)
    case LlmCallFailed(h) => exists c :: Happened(run, i, End(c, Leave(h, Abort)))
    case HoldReleased(h) =>
      || (exists c :: Happened(run, i, End(c, Leave(h, Release))))
      || Happened(run, i, Destroy(RecordParked(h)))
      || (exists landed :: Happened(run, i, Destroy(EndLeftover(h, landed))))
  }

  // ---- What one step moves ----

  /** How an action parks its own call. */
  ghost predicate Moves(s: State, a: Action, c: Id, t: Task) {
    match a
    case Authorize(call, step) => call == c && AuthorizeMoves(s, step, c, t)
    case Settle(call, step) => call == c && SettleMoves(s, step, c, t)
    case End(call, step) => call == c && EndMoves(s, step, c, t)
    case _ => false
  }

  ghost predicate AuthorizeMoves(s: State, step: AuthorizeStep, c: Id, t: Task) {
    match step
    case Enter(e, attributed) => t == Queued(e, attributed)
    case Lock => c in s.tasks && s.tasks[c].Queued? && t == Gating(s.tasks[c].estimate, s.tasks[c].attributed)
    case Reserve(remaining) =>
      && c in s.tasks && s.tasks[c].Gating? && t == Reserving(s.tasks[c].estimate, s.tasks[c].attributed)
      && Affordable(s, s.tasks[c].estimate, s.tasks[c].attributed, remaining)
    case CutOff => t.GivingBack?
    case _ => false
  }

  ghost predicate SettleMoves(s: State, step: SettleStep, c: Id, t: Task) {
    match step
    case Claim(h) => t.Claimed? && t.hold == h
    case Post(cost) => c in s.tasks && s.tasks[c].Claimed? && t.Posting? && t.hold == s.tasks[c].hold && t.cost == cost
    case PostReturns(_, answered) =>
      && c in s.tasks && s.tasks[c].Posting? && t.Accounting?
      && t.hold == s.tasks[c].hold && t.cost == s.tasks[c].cost && t.confirmed == answered
    case Account =>
      && c in s.tasks && s.tasks[c].Accounting? && t.Recording?
      && t.hold == s.tasks[c].hold && t.cost == s.tasks[c].cost && t.confirmed == s.tasks[c].confirmed
    case Record => t.Returning?
    case _ => false
  }

  ghost predicate EndMoves(s: State, step: EndStep, c: Id, t: Task) {
    match step
    case Leave(h, ending) => t.Leaving? && t.hold == h && t.ending == ending
    case HandBack =>
      && c in s.tasks && s.tasks[c].Leaving? && t.Voiding?
      && t.hold == s.tasks[c].hold && t.ending == s.tasks[c].ending
    case _ => false
  }

  lemma DestroyOnlyRecords(s: State, step: DestroyStep, s': State)
    requires NextDestroy(s, step, s')
    ensures s'.tasks == s.tasks && s'.registered == s.registered && s'.hasEngine == s.hasEngine
  {
  }

  /** A step parks its own call, and leaves every other where it was. */
  lemma TaskStep(s: State, a: Action, s': State, x: Id)
    requires Next(s, a, s') && x in s'.tasks
    ensures (x in s.tasks && s'.tasks[x] == s.tasks[x]) || Moves(s, a, x, s'.tasks[x])
  {
    match a
    case Authorize(c, step) => AuthorizeTaskStep(s, c, step, s', x);
    case Settle(c, step) => SettleTaskStep(s, c, step, s', x);
    case End(c, step) => EndTaskStep(s, c, step, s', x);
    case Destroy(step) => DestroyOnlyRecords(s, step, s');
    case Refused(_) =>
    case HoldExpires(_) =>
    case LandsLate(_, _) =>
  }

  lemma AuthorizeTaskStep(s: State, c: Id, step: AuthorizeStep, s': State, x: Id)
    requires NextAuthorize(s, c, step, s') && x in s'.tasks
    ensures (x in s.tasks && s'.tasks[x] == s.tasks[x]) || (x == c && AuthorizeMoves(s, step, c, s'.tasks[x]))
  {
  }

  lemma SettleTaskStep(s: State, c: Id, step: SettleStep, s': State, x: Id)
    requires NextSettle(s, c, step, s') && x in s'.tasks
    ensures (x in s.tasks && s'.tasks[x] == s.tasks[x]) || (x == c && SettleMoves(s, step, c, s'.tasks[x]))
  {
  }

  lemma EndTaskStep(s: State, c: Id, step: EndStep, s': State, x: Id)
    requires NextEnd(s, c, step, s') && x in s'.tasks
    ensures (x in s.tasks && s'.tasks[x] == s.tasks[x]) || (x == c && EndMoves(s, step, c, s'.tasks[x]))
  {
  }

  /** How a step registers a hold: a call past the gate, under its own estimate and the wallet that paid. */
  lemma HoldStep(s: State, a: Action, s': State, h: Id)
    requires Next(s, a, s') && h in s'.registered
    ensures s'.hasEngine == s.hasEngine
    ensures (h in s.registered && s'.registered[h] == s.registered[h]) || Registers(s, a, h, s'.registered[h])
  {
    match a
    case Authorize(c, step) => AuthorizeHoldStep(s, c, step, s', h);
    case Settle(c, step) => SettleHoldStep(s, c, step, s', h);
    case End(c, step) => EndHoldStep(s, c, step, s', h);
    case Destroy(step) => DestroyOnlyRecords(s, step, s');
    case Refused(_) =>
    case HoldExpires(_) =>
    case LandsLate(_, _) =>
  }

  ghost predicate Registers(s: State, a: Action, h: Id, capture: Capture) {
    && a == Authorize(h, Register) && h in s.tasks && HoldsLock(s.tasks[h])
    && capture.estimate == s.tasks[h].estimate && capture.session == !(s.tasks[h].attributed && s.hasEngine)
    && (s.hasEngine ==> s.tasks[h].Reserving?)
    && (!s.hasEngine ==> Affordable(s, s.tasks[h].estimate, s.tasks[h].attributed, 0))
  }

  lemma AuthorizeHoldStep(s: State, c: Id, step: AuthorizeStep, s': State, h: Id)
    requires NextAuthorize(s, c, step, s') && h in s'.registered
    ensures s'.hasEngine == s.hasEngine
    ensures || (h in s.registered && s'.registered[h] == s.registered[h])
            || Registers(s, Authorize(c, step), h, s'.registered[h])
  {
  }

  lemma SettleHoldStep(s: State, c: Id, step: SettleStep, s': State, h: Id)
    requires NextSettle(s, c, step, s')
    ensures s'.hasEngine == s.hasEngine && s'.registered == s.registered
  {
  }

  lemma EndHoldStep(s: State, c: Id, step: EndStep, s': State, h: Id)
    requires NextEnd(s, c, step, s')
    ensures s'.hasEngine == s.hasEngine && s'.registered == s.registered
  {
  }

  /** How a step writes a record. */
  ghost predicate Writes(s: State, a: Action, r: AuditRecord) {
    match a
    case Settle(c, Record) =>
      && c in s.tasks && s.tasks[c].Recording?
      && r == LlmCall(s.tasks[c].hold, s.tasks[c].cost, s.tasks[c].confirmed)
    case End(c, VoidReturns(_)) =>
      && c in s.tasks && s.tasks[c].Voiding?
      && r == if s.tasks[c].ending == Abort then LlmCallFailed(s.tasks[c].hold) else HoldReleased(s.tasks[c].hold)
    case Destroy(RecordParked(h)) => r == HoldReleased(h)
    case Destroy(EndLeftover(h, _)) => r == HoldReleased(h)
    case _ => false
  }

  lemma RecordStep(s: State, a: Action, s': State, j: nat)
    requires Next(s, a, s') && j < |s'.records|
    ensures (j < |s.records| && s'.records[j] == s.records[j]) || Writes(s, a, s'.records[j])
  {
    match a
    case Authorize(c, step) => AuthorizeRecordStep(s, c, step, s');
    case Settle(c, step) => SettleRecordStep(s, c, step, s', j);
    case End(c, step) => EndRecordStep(s, c, step, s', j);
    case Destroy(step) => DestroyRecordStep(s, step, s', j);
    case Refused(_) =>
    case HoldExpires(_) =>
    case LandsLate(_, _) =>
  }

  lemma AuthorizeRecordStep(s: State, c: Id, step: AuthorizeStep, s': State)
    requires NextAuthorize(s, c, step, s')
    ensures s'.records == s.records
  {
  }

  lemma SettleRecordStep(s: State, c: Id, step: SettleStep, s': State, j: nat)
    requires NextSettle(s, c, step, s') && j < |s'.records|
    ensures (j < |s.records| && s'.records[j] == s.records[j]) || Writes(s, Settle(c, step), s'.records[j])
  {
  }

  lemma DestroyRecordStep(s: State, step: DestroyStep, s': State, j: nat)
    requires NextDestroy(s, step, s') && j < |s'.records|
    ensures (j < |s.records| && s'.records[j] == s.records[j]) || Writes(s, Destroy(step), s'.records[j])
  {
  }

  lemma EndRecordStep(s: State, c: Id, step: EndStep, s': State, j: nat)
    requires NextEnd(s, c, step, s') && j < |s'.records|
    ensures (j < |s.records| && s'.records[j] == s.records[j]) || Writes(s, End(c, step), s'.records[j])
  {
  }

  // ---- The whole run ----

  ghost predicate NewRun(states: seq<State>, run: seq<Action>) {
    IsRun(states, run) && states[0] == Init(states[0].budget, states[0].restored, states[0].hasEngine)
  }

  lemma JustHappened(run: seq<Action>, i: nat)
    requires i < |run|
    ensures Happened(run, i + 1, run[i])
  {
  }

  lemma StillHappened(run: seq<Action>, i: nat, a: Action)
    requires i < |run| && Happened(run, i, a)
    ensures Happened(run, i + 1, a)
  {
  }

  lemma StillGated(states: seq<State>, run: seq<Action>, i: nat, c: Id, e: nat, attributed: bool)
    requires |states| == |run| + 1 && i < |run| && Gated(states, run, i, c, e, attributed)
    ensures Gated(states, run, i + 1, c, e, attributed)
  {
    var k :| 0 <= k < i && IsGate(states, run, k, c, e, attributed);
  }

  lemma StillAnswered(run: seq<Action>, i: nat, c: Id, confirmed: bool)
    requires i < |run| && Answered(run, i, c, confirmed)
    ensures Answered(run, i + 1, c, confirmed)
  {
    var landed :| Happened(run, i, Settle(c, PostReturns(landed, confirmed)));
    StillHappened(run, i, Settle(c, PostReturns(landed, confirmed)));
  }

  lemma StillPosted(run: seq<Action>, i: nat, c: Id, h: Id, cost: nat)
    requires i < |run| && Posted(run, i, c, h, cost)
    ensures Posted(run, i + 1, c, h, cost)
  {
    StillHappened(run, i, Settle(c, Claim(h)));
    StillHappened(run, i, Settle(c, Post(cost)));
  }

  /** The past of a parked call stays. */
  lemma OriginStays(states: seq<State>, run: seq<Action>, i: nat, c: Id, t: Task)
    requires |states| == |run| + 1 && i < |run| && TaskOrigin(states, run, i, c, t)
    ensures TaskOrigin(states, run, i + 1, c, t)
  {
    match t
    case Queued(e, attributed) => StillHappened(run, i, Authorize(c, Enter(e, attributed)));
    case Gating(e, attributed) => StillHappened(run, i, Authorize(c, Enter(e, attributed)));
    case Reserving(e, attributed) =>
      StillHappened(run, i, Authorize(c, Enter(e, attributed)));
      StillGated(states, run, i, c, e, attributed);
    case Claimed(h, _) => StillHappened(run, i, Settle(c, Claim(h)));
    case Posting(h, _, cost) => StillPosted(run, i, c, h, cost);
    case Accounting(h, _, cost, confirmed) =>
      StillPosted(run, i, c, h, cost);
      StillAnswered(run, i, c, confirmed);
    case Recording(h, _, cost, confirmed) =>
      StillPosted(run, i, c, h, cost);
      StillAnswered(run, i, c, confirmed);
    case Leaving(h, _, ending) => StillHappened(run, i, End(c, Leave(h, ending)));
    case Voiding(h, _, ending) => StillHappened(run, i, End(c, Leave(h, ending)));
    case _ =>
  }

  /** An action that parks its call adds itself to that call's past. */
  lemma OriginMoves(states: seq<State>, run: seq<Action>, i: nat, c: Id, t: Task)
    requires IsRun(states, run) && i < |run| && Moves(states[i], run[i], c, t)
    requires c in states[i].tasks ==> TaskOrigin(states, run, i, c, states[i].tasks[c])
    ensures TaskOrigin(states, run, i + 1, c, t)
  {
    JustHappened(run, i);
    if c in states[i].tasks {
      OriginStays(states, run, i, c, states[i].tasks[c]);
    }
    match run[i]
    case Authorize(_, Reserve(remaining)) => assert IsGate(states, run, i, c, t.estimate, t.attributed);
    case Settle(_, PostReturns(landed, answered)) =>
      assert Happened(run, i + 1, Settle(c, PostReturns(landed, answered)));
    case _ =>
  }

  lemma {:induction false} EveryTaskHasItsPast(states: seq<State>, run: seq<Action>, i: nat, c: Id)
    requires NewRun(states, run) && i <= |run| && c in states[i].tasks
    ensures TaskOrigin(states, run, i, c, states[i].tasks[c])
    decreases i
  {
    if i > 0 {
      var s := states[i - 1];
      assert StepAt(states, run, i - 1);
      TaskStep(s, run[i - 1], states[i], c);
      if c in s.tasks {
        EveryTaskHasItsPast(states, run, i - 1, c);
      }
      if c in s.tasks && states[i].tasks[c] == s.tasks[c] {
        OriginStays(states, run, i - 1, c, s.tasks[c]);
      } else {
        OriginMoves(states, run, i - 1, c, states[i].tasks[c]);
      }
    }
  }

  /**
   * Along every run: a hold was entered with its estimate, and its gate found that estimate within the envelope as it
   * was read where an envelope pays, within what is left of the session's budget where none does.
   */
  lemma {:induction false} EveryHoldPassedItsGate(states: seq<State>, run: seq<Action>, i: nat, h: Id)
    requires NewRun(states, run) && i <= |run| && h in states[i].registered
    ensures HoldOrigin(states, run, i, h, states[i].registered[h])
    decreases i
  {
    if i > 0 {
      var s := states[i - 1];
      assert StepAt(states, run, i - 1);
      HoldStep(s, run[i - 1], states[i], h);
      if h in s.registered && states[i].registered[h] == s.registered[h] {
        EveryHoldPassedItsGate(states, run, i - 1, h);
        HoldStays(states, run, i - 1, h, s.registered[h]);
      } else {
        HoldRegistered(states, run, i - 1, h);
      }
    }
  }

  lemma HoldStays(states: seq<State>, run: seq<Action>, i: nat, h: Id, capture: Capture)
    requires |states| == |run| + 1 && i < |run| && states[i + 1].hasEngine == states[i].hasEngine
    requires HoldOrigin(states, run, i, h, capture)
    ensures HoldOrigin(states, run, i + 1, h, capture)
  {
    var attributed :|
      && Entered(run, i, h, capture.estimate, attributed) && Gated(states, run, i, h, capture.estimate, attributed)
      && capture.session == !(attributed && states[i].hasEngine);
    StillHappened(run, i, Authorize(h, Enter(capture.estimate, attributed)));
    StillGated(states, run, i, h, capture.estimate, attributed);
    assert Entered(run, i + 1, h, capture.estimate, attributed);
  }

  lemma HoldRegistered(states: seq<State>, run: seq<Action>, i: nat, h: Id)
    requires NewRun(states, run) && i < |run| && h in states[i + 1].registered
    requires states[i + 1].hasEngine == states[i].hasEngine
    requires Registers(states[i], run[i], h, states[i + 1].registered[h])
    ensures HoldOrigin(states, run, i + 1, h, states[i + 1].registered[h])
  {
    var t := states[i].tasks[h];
    EveryTaskHasItsPast(states, run, i, h);
    OriginStays(states, run, i, h, t);
    if !states[i].hasEngine {
      assert IsGate(states, run, i, h, t.estimate, t.attributed);
    }
    assert Entered(run, i + 1, h, t.estimate, t.attributed) && Gated(states, run, i + 1, h, t.estimate, t.attributed);
  }

  /** Along every run, each record names a call that was made and says what that call did. */
  lemma {:induction false} EveryRecordHasItsCall(states: seq<State>, run: seq<Action>, i: nat, j: nat)
    requires NewRun(states, run) && i <= |run| && j < |states[i].records|
    ensures RecordOrigin(run, i, states[i].records[j])
    decreases i
  {
    if i > 0 {
      var s := states[i - 1];
      assert StepAt(states, run, i - 1);
      RecordStep(s, run[i - 1], states[i], j);
      if j < |s.records| && states[i].records[j] == s.records[j] {
        EveryRecordHasItsCall(states, run, i - 1, j);
        RecordStays(run, i - 1, s.records[j]);
      } else {
        RecordWritten(states, run, i - 1, states[i].records[j]);
      }
    }
  }

  lemma RecordStays(run: seq<Action>, i: nat, r: AuditRecord)
    requires i < |run| && RecordOrigin(run, i, r)
    ensures RecordOrigin(run, i + 1, r)
  {
    match r
    case LlmCall(h, cost, settled) =>
      var c :| Posted(run, i, c, h, cost) && Answered(run, i, c, settled);
      StillPosted(run, i, c, h, cost);
      StillAnswered(run, i, c, settled);
    case LlmCallFailed(h) =>
      var c :| Happened(run, i, End(c, Leave(h, Abort)));
      StillHappened(run, i, End(c, Leave(h, Abort)));
    case HoldReleased(h) => ReleaseStays(run, i, h);
  }

  lemma ReleaseStays(run: seq<Action>, i: nat, h: Id)
    requires i < |run| && RecordOrigin(run, i, HoldReleased(h))
    ensures RecordOrigin(run, i + 1, HoldReleased(h))
  {
    if c :| Happened(run, i, End(c, Leave(h, Release))) {
      StillHappened(run, i, End(c, Leave(h, Release)));
    } else if landed :| Happened(run, i, Destroy(EndLeftover(h, landed))) {
      StillHappened(run, i, Destroy(EndLeftover(h, landed)));
    } else {
      StillHappened(run, i, Destroy(RecordParked(h)));
    }
  }

  lemma RecordWritten(states: seq<State>, run: seq<Action>, i: nat, r: AuditRecord)
    requires NewRun(states, run) && i < |run| && Writes(states[i], run[i], r)
    ensures RecordOrigin(run, i + 1, r)
  {
    JustHappened(run, i);
    match run[i]
    case Settle(c, Record) =>
      EveryTaskHasItsPast(states, run, i, c);
      OriginStays(states, run, i, c, states[i].tasks[c]);
    case End(c, VoidReturns(_)) =>
      EveryTaskHasItsPast(states, run, i, c);
      OriginStays(states, run, i, c, states[i].tasks[c]);
    case Destroy(EndLeftover(h, landed)) => assert Happened(run, i + 1, Destroy(EndLeftover(h, landed)));
    case _ =>
  }
}
