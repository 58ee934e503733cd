/** Every step keeps everything known of every name. */
module GovernorSteps {
  import opened Common
  import opened Sums
  import opened GovernorModel
  import opened GovernorInvariant

  // ---- Names a step does not touch ----

  /** The step did not move `x`: same collections, same owner at the same point of its work. */
  ghost predicate UntouchedPlace(s: State, s': State, x: Id) {
    UntouchedTask(s, s', x) && UntouchedHold(s, s', x) && UntouchedOwner(s, s', x)
  }

  ghost predicate UntouchedOwner(s: State, s': State, x: Id) {
    && (x in s'.owner <==> x in s.owner)
    && (x in s.owner && x in s'.owner ==> s'.owner[x] == s.owner[x])
    && (x in s.owner && s.owner[x] in s.tasks ==>
          s.owner[x] in s'.tasks && s'.tasks[s.owner[x]] == s.tasks[s.owner[x]])
  }

  ghost predicate UntouchedTask(s: State, s': State, x: Id) {
    && (x in s.used ==> x in s'.used)
    && (x in s'.tasks <==> x in s.tasks)
    && (x in s.tasks && x in s'.tasks ==> s'.tasks[x] == s.tasks[x])
    && (x in s'.registered <==> x in s.registered)
    && (x in s.registered && x in s'.registered ==> s'.registered[x] == s.registered[x])
  }

  ghost predicate UntouchedHold(s: State, s': State, x: Id) {
    && (x in s'.activeAuths <==> x in s.activeAuths)
    && (x in s.activeAuths && x in s'.activeAuths ==> s'.activeAuths[x] == s.activeAuths[x])
    && (x in s'.unpostedHolds <==> x in s.unpostedHolds)
    && (x in s.unpostedHolds && x in s'.unpostedHolds ==> s'.unpostedHolds[x] == s.unpostedHolds[x])
    && (x in s'.settling <==> x in s.settling)
    && (x in s'.inFlight <==> x in s.inFlight)
  }

  ghost predicate UntouchedMoney(s: State, s': State, x: Id) {
    && (x in s'.ledger <==> x in s.ledger)
    && (x in s.ledger && x in s'.ledger ==> s'.ledger[x] == s.ledger[x])
    && (x in s'.begun <==> x in s.begun)
    && (x in s.begun && x in s'.begun ==> s'.begun[x] == s.begun[x])
    && (x in s'.outstanding <==> x in s.outstanding)
    && (x in s.outstanding && x in s'.outstanding ==> s'.outstanding[x] == s.outstanding[x])
    && (x in s'.spentOn <==> x in s.spentOn)
    && (x in s.spentOn && x in s'.spentOn ==> s'.spentOn[x] == s.spentOn[x])
  }

  ghost predicate Untouched(s: State, s': State, x: Id) {
    UntouchedPlace(s, s', x) && UntouchedMoney(s, s', x)
  }

  ghost predicate SameTeardown(s: State, s': State) {
    && s'.teardown == s.teardown && s'.destroyed == s.destroyed && s'.sweeping == s.sweeping
    && s'.taken == s.taken && s'.hasEngine == s.hasEngine
  }

  lemma UntouchedKeeps(s: State, s': State, x: Id)
    requires Untouched(s, s', x) && SameTeardown(s, s') && Sound(s, x)
    requires x in s.tasks && Ends(s.tasks[x]) ==> Untouched(s, s', s.tasks[x].hold)
    ensures Sound(s', x)
    ensures Closed(s', x) <==> Closed(s, x)
  {
  }

  lemma AuthorizeKeepsTeardown(s: State, c: Id, a: AuthorizeStep, s': State)
    requires NextAuthorize(s, c, a, s')
    ensures SameTeardown(s, s')
  {
  }

  lemma EnterTouches(s: State, c: Id, estimate: nat, attributed: bool, s': State, x: Id)
    requires NextAuthorize(s, c, Enter(estimate, attributed), s') && GoodTask(s, c) && GoodOwner(s, x) && x != c
    ensures Untouched(s, s', x)
  {
  }

  lemma LockTouches(s: State, c: Id, s': State, x: Id)
    requires NextAuthorize(s, c, Lock, s') && GoodTask(s, c) && GoodOwner(s, x) && x != c
    ensures Untouched(s, s', x)
  {
  }

  lemma ReserveTouches(s: State, c: Id, remaining: int, s': State, x: Id)
    requires NextAuthorize(s, c, Reserve(remaining), s') && GoodTask(s, c) && GoodOwner(s, x) && x != c
    ensures Untouched(s, s', x)
  {
  }

  lemma RefuseTouches(s: State, c: Id, s': State, x: Id)
    requires NextAuthorize(s, c, Refuse, s') && GoodTask(s, c) && GoodOwner(s, x) && x != c
    ensures Untouched(s, s', x)
  {
  }

  lemma RegisterTouches(s: State, c: Id, s': State, x: Id)
    requires NextAuthorize(s, c, Register, s') && GoodTask(s, c) && GoodOwner(s, x) && x != c
    ensures Untouched(s, s', x)
  {
  }

  lemma CutOffTouches(s: State, c: Id, s': State, x: Id)
    requires NextAuthorize(s, c, CutOff, s') && GoodTask(s, c) && GoodOwner(s, x) && x != c
    ensures Untouched(s, s', x)
  {
  }

  lemma UndoTouches(s: State, c: Id, s': State, x: Id)
    requires NextAuthorize(s, c, Undo, s') && GoodTask(s, c) && GoodOwner(s, x) && x != c
    ensures Untouched(s, s', x)
  {
  }

  lemma AuthorizeTouches(s: State, c: Id, a: AuthorizeStep, s': State, x: Id)
    requires NextAuthorize(s, c, a, s') && GoodTask(s, c) && GoodOwner(s, x) && x != c
    ensures Untouched(s, s', x)
  {
    match a
    case Enter(estimate, attributed) => EnterTouches(s, c, estimate, attributed, s', x);
    case Lock => LockTouches(s, c, s', x);
    case Reserve(remaining) => ReserveTouches(s, c, remaining, s', x);
    case Refuse => RefuseTouches(s, c, s', x);
    case Register => RegisterTouches(s, c, s', x);
    case CutOff => CutOffTouches(s, c, s', x);
    case Undo => UndoTouches(s, c, s', x);
  }

  lemma SettleKeepsTeardown(s: State, c: Id, a: SettleStep, s': State)
    requires NextSettle(s, c, a, s')
    ensures SameTeardown(s, s')
  {
  }

  lemma SettleTouchesMoney(s: State, c: Id, a: SettleStep, s': State, x: Id)
    requires NextSettle(s, c, a, s') && x != c
    requires if a.Claim? then x != a.hold else x != s.tasks[c].hold
    ensures UntouchedMoney(s, s', x)
  {
  }

  lemma SettleTouches(s: State, c: Id, a: SettleStep, s': State, x: Id)
    requires NextSettle(s, c, a, s') && GoodTask(s, c) && GoodOwner(s, x) && x != c
    requires if a.Claim? then x != a.hold else x != s.tasks[c].hold
    ensures UntouchedPlace(s, s', x)
  {
  }

  lemma EndKeepsTeardown(s: State, c: Id, a: EndStep, s': State)
    requires NextEnd(s, c, a, s')
    ensures SameTeardown(s, s')
  {
  }

  lemma EndTouchesMoney(s: State, c: Id, a: EndStep, s': State, x: Id)
    requires NextEnd(s, c, a, s') && x != c
    requires if a.Leave? then x != a.hold else x != s.tasks[c].hold
    ensures UntouchedMoney(s, s', x)
  {
  }

  lemma EndTouches(s: State, c: Id, a: EndStep, s': State, x: Id)
    requires NextEnd(s, c, a, s') && GoodTask(s, c) && GoodOwner(s, x) && x != c
    requires if a.Leave? then x != a.hold else x != s.tasks[c].hold
    ensures UntouchedPlace(s, s', x)
  {
  }

  // ---- The call itself, as it is authorized ----

  lemma EnterKeeps(s: State, c: Id, estimate: nat, attributed: bool, s': State)
    requires NextAuthorize(s, c, Enter(estimate, attributed), s') && Scalars(s) && Sound(s, c)
    ensures Sound(s', c) && !Closed(s, c) && !Closed(s', c)
  {
  }

  lemma LockKeeps(s: State, c: Id, s': State)
    requires NextAuthorize(s, c, Lock, s') && Scalars(s) && Sound(s, c)
    ensures Sound(s', c) && !Closed(s, c) && !Closed(s', c)
  {
  }

  lemma ReserveKeeps(s: State, c: Id, remaining: int, s': State)
    requires NextAuthorize(s, c, Reserve(remaining), s') && Scalars(s) && Sound(s, c)
    ensures Sound(s', c) && !Closed(s, c) && !Closed(s', c)
  {
  }

  lemma RefuseKeeps(s: State, c: Id, s': State)
    requires NextAuthorize(s, c, Refuse, s') && Scalars(s) && Sound(s, c)
    ensures Sound(s', c) && !Closed(s, c) && !Closed(s', c)
  {
  }

  lemma RegisterKeeps(s: State, c: Id, s': State)
    requires NextAuthorize(s, c, Register, s') && Scalars(s) && Sound(s, c)
    ensures Sound(s', c) && !Closed(s, c) && !Closed(s', c)
  {
  }

  lemma CutOffKeeps(s: State, c: Id, s': State)
    requires NextAuthorize(s, c, CutOff, s') && Scalars(s) && Sound(s, c)
    ensures Sound(s', c) && !Closed(s, c) && !Closed(s', c)
  {
  }

  lemma UndoKeeps(s: State, c: Id, s': State)
    requires NextAuthorize(s, c, Undo, s') && Scalars(s) && Sound(s, c)
    ensures Sound(s', c) && !Closed(s, c) && !Closed(s', c)
  {
  }

  lemma AuthorizeKeeps(s: State, c: Id, a: AuthorizeStep, s': State)
    requires NextAuthorize(s, c, a, s') && Scalars(s) && Sound(s, c)
    ensures Sound(s', c) && !Closed(s, c) && !Closed(s', c)
  {
    match a
    case Enter(estimate, attributed) => EnterKeeps(s, c, estimate, attributed, s');
    case Lock => LockKeeps(s, c, s');
    case Reserve(remaining) => ReserveKeeps(s, c, remaining, s');
    case Refuse => RefuseKeeps(s, c, s');
    case Register => RegisterKeeps(s, c, s');
    case CutOff => CutOffKeeps(s, c, s');
    case Undo => UndoKeeps(s, c, s');
  }

  // ---- A settle's own hold, step by step: it is closed by the `llm_call` ----

  lemma ClaimKeeps(s: State, c: Id, s': State, h: Id)
    requires NextSettle(s, c, Claim(h), s') && Scalars(s) && Sound(s, c) && Sound(s, h)
    ensures Sound(s', h) && !Closed(s, h) && !Closed(s', h)
  {
  }

  lemma ThrowKeeps(s: State, c: Id, s': State, h: Id)
    requires NextSettle(s, c, Throw, s') && Scalars(s) && Sound(s, c) && Sound(s, h) && h == s.tasks[c].hold
    ensures Sound(s', h) && !Closed(s, h) && !Closed(s', h)
  {
  }

  lemma PostKeeps(s: State, c: Id, cost: nat, s': State, h: Id)
    requires NextSettle(s, c, Post(cost), s') && Scalars(s) && Sound(s, c) && Sound(s, h) && h == s.tasks[c].hold
    ensures Sound(s', h) && !Closed(s, h) && !Closed(s', h)
  {
  }

  lemma PostReturnsKeeps(s: State, c: Id, landed: bool, answered: bool, s': State, h: Id)
    requires NextSettle(s, c, PostReturns(landed, answered), s') && Scalars(s) && Sound(s, c) && Sound(s, h)
    requires h == s.tasks[c].hold
    ensures Sound(s', h) && !Closed(s, h) && !Closed(s', h)
  {
  }

  lemma AccountKeeps(s: State, c: Id, s': State, h: Id)
    requires NextSettle(s, c, Account, s') && Scalars(s) && Sound(s, c) && Sound(s, h) && h == s.tasks[c].hold
    ensures Sound(s', h) && !Closed(s, h) && !Closed(s', h)
  {
  }

  lemma RecordKeeps(s: State, c: Id, s': State, h: Id)
    requires NextSettle(s, c, Record, s') && Scalars(s) && Sound(s, c) && Sound(s, h) && h == s.tasks[c].hold
    ensures Sound(s', h) && !Closed(s, h) && Closed(s', h)
  {
  }

  lemma ReturnKeeps(s: State, c: Id, s': State, h: Id)
    requires NextSettle(s, c, Return, s') && Scalars(s) && Sound(s, c) && Sound(s, h) && h == s.tasks[c].hold
    ensures Sound(s', h) && Closed(s, h) && Closed(s', h)
  {
  }

  // ---- The hold of an abort or release ----

  lemma LeaveKeeps(s: State, c: Id, ending: Ending, s': State, h: Id)
    requires NextEnd(s, c, Leave(h, ending), s') && Scalars(s) && Sound(s, c) && Sound(s, h)
    ensures Sound(s', h) && !Closed(s, h) && !Closed(s', h)
  {
  }

  lemma HandBackKeeps(s: State, c: Id, s': State, h: Id)
    requires NextEnd(s, c, HandBack, s') && Scalars(s) && Sound(s, c) && Sound(s, h) && h == s.tasks[c].hold
    ensures Sound(s', h) && (h in s.inFlight ==> !Closed(s, h)) && (Closed(s', h) <==> Closed(s, h))
  {
  }

  lemma VoidReturnsKeeps(s: State, c: Id, landed: bool, s': State, h: Id)
    requires NextEnd(s, c, VoidReturns(landed), s') && Scalars(s) && Sound(s, c) && Sound(s, h) && h == s.tasks[c].hold
    ensures Sound(s', h) && (h in s.inFlight ==> !Closed(s, h)) && (Closed(s', h) <==> Closed(s, h) || h in s.inFlight)
  {
  }

  /** `c` names no hold and no reservation. */
  ghost predicate Blank(s: State, c: Id) {
    && c !in s.registered && c !in s.activeAuths && c !in s.unpostedHolds && c !in s.settling && c !in s.inFlight
    && c !in s.owner && c !in s.taken && c !in s.begun && c !in s.spentOn && c !in s.outstanding && c !in s.ledger
    && (s.teardown.Sweeping? ==> c !in s.teardown.parked && c !in s.teardown.leftovers)
    && !(c in s.tasks && s.tasks[c].GivingBack?)
  }

  lemma BlankIsSound(s: State, c: Id)
    requires Blank(s, c) && GoodTask(s, c)
    ensures Sound(s, c) && !Closed(s, c)
  {
  }

  lemma CallIsBlank(s: State, c: Id)
    requires Sound(s, c) && (c in s.tasks ==> Ends(s.tasks[c])) && (c !in s.tasks ==> c !in s.used)
    ensures Blank(s, c)
  {
  }

  /** A terminal's own name is never a hold's. */
  lemma SettleKeepsCall(s: State, c: Id, a: SettleStep, s': State, h: Id)
    requires NextSettle(s, c, a, s') && Blank(s, c) && GoodTask(s, c)
    requires if a.Claim? then h == a.hold else h == s.tasks[c].hold
    requires h in s.registered && (a.Claim? ==> GoodPlace(s, h))
    ensures Blank(s', c) && GoodTask(s', c) && c != h
  {
  }

  lemma EndKeepsCall(s: State, c: Id, a: EndStep, s': State, h: Id)
    requires NextEnd(s, c, a, s') && Blank(s, c) && GoodTask(s, c)
    requires if a.Leave? then h == a.hold else h == s.tasks[c].hold
    requires h in s.registered && (a.Leave? ==> GoodPlace(s, h))
    ensures Blank(s', c) && GoodTask(s', c) && c != h
  {
  }

  // ---- destroy ----

  ghost predicate GoodMoney(s: State, h: Id) {
    GoodBegun(s, h) && GoodPosted(s, h) && GoodShare(s, h) && GoodEstimate(s, h) && GoodSpent(s, h)
  }

  lemma BeginKeeps(s: State, s': State, x: Id)
    requires NextDestroy(s, Begin, s') && Scalars(s) && Sound(s, x)
    ensures Sound(s', x) && (Closed(s', x) <==> Closed(s, x))
  {
  }

  lemma TakeKeepsHold(s: State, deadlinePassed: bool, s': State, x: Id)
    requires NextDestroy(s, Take(deadlinePassed), s') && Scalars(s) && Sound(s, x)
    ensures GoodTask(s', x) && GoodHold(s', x)
  {
  }

  lemma TakeKeepsMoney(s: State, deadlinePassed: bool, s': State, x: Id)
    requires NextDestroy(s, Take(deadlinePassed), s') && Scalars(s) && Sound(s, x)
    ensures GoodMoney(s', x)
  {
  }

  lemma TakeCloses(s: State, deadlinePassed: bool, s': State, x: Id)
    requires NextDestroy(s, Take(deadlinePassed), s') && Scalars(s) && Sound(s, x)
    ensures Closed(s', x) <==> Closed(s, x)
  {
  }

  lemma RecordParkedKeeps(s: State, h: Id, s': State, x: Id)
    requires NextDestroy(s, RecordParked(h), s') && Scalars(s) && Sound(s, x)
    ensures Sound(s', x) && (Closed(s', x) <==> Closed(s, x) || x == h) && (x == h ==> !Closed(s, x))
  {
  }

  lemma EndLeftoverKeepsHold(s: State, h: Id, landed: bool, s': State, x: Id)
    requires NextDestroy(s, EndLeftover(h, landed), s') && Scalars(s) && Sound(s, x)
    ensures GoodTask(s', x) && GoodHold(s', x)
  {
  }

  lemma EndLeftoverKeepsMoney(s: State, h: Id, landed: bool, s': State, x: Id)
    requires NextDestroy(s, EndLeftover(h, landed), s') && Scalars(s) && Sound(s, x)
    ensures GoodMoney(s', x)
  {
  }

  lemma EndLeftoverCloses(s: State, h: Id, landed: bool, s': State, x: Id)
    requires NextDestroy(s, EndLeftover(h, landed), s') && Scalars(s) && Sound(s, x)
    ensures (Closed(s', x) <==> Closed(s, x) || x == h) && (x == h ==> !Closed(s, x))
  {
  }

  lemma SweepVoidKeeps(s: State, h: Id, s': State, x: Id)
    requires NextDestroy(s, SweepVoid(h), s') && Scalars(s) && Sound(s, x)
    ensures Sound(s', x) && (Closed(s', x) <==> Closed(s, x))
  {
  }

  lemma FinishKeeps(s: State, s': State, x: Id)
    requires NextDestroy(s, Finish, s') && Scalars(s) && Sound(s, x)
    ensures Sound(s', x) && (Closed(s', x) <==> Closed(s, x))
  {
  }

  lemma DestroyKeepsScalars(s: State, a: DestroyStep, s': State)
    requires NextDestroy(s, a, s') && Scalars(s)
    ensures Scalars(s')
  {
  }
}
