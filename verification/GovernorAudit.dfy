/** Every step keeps the records right: one per hold that is done, none before, each true of the ledger. */
module GovernorAudit {
  import opened Common
  import opened Sums
  import opened GovernorModel
  import opened GovernorInvariant
  import opened GovernorSteps

  /** Nothing a record of `x` says can change: not the POST, not the posted money. */
  ghost predicate Steady(s: State, s': State, x: Id) {
    && s'.hasEngine == s.hasEngine
    && (x in s'.begun <==> x in s.begun)
    && (x in s.begun && x in s'.begun ==> s'.begun[x] == s.begun[x])
    && (x in s.ledger && s.ledger[x].Posted? ==> x in s'.ledger && s'.ledger[x] == s.ledger[x])
  }

  lemma KeepsAudit(s: State, s': State, x: Id)
    requires s'.records == s.records && GoodCount(s, x) && GoodRecords(s, x)
    requires Closed(s', x) <==> Closed(s, x)
    requires Closed(s, x) ==> Steady(s, s', x)
    ensures GoodCount(s', x) && GoodRecords(s', x)
  {
    forall i | 0 <= i < |s.records| ensures Agrees(s', x, s.records[i]) {
      assert Agrees(s, x, s.records[i]);
      if s.records[i].hold == x {
        CountPositive(s.records, i);
      }
    }
  }

  lemma ExtendsAudit(s: State, s': State, x: Id, r: AuditRecord)
    requires s'.records == s.records + [r] && GoodCount(s, x) && GoodRecords(s, x)
    requires Closed(s', x) <==> Closed(s, x) || r.hold == x
    requires r.hold == x ==> !Closed(s, x) && Agrees(s', x, r)
    requires Closed(s, x) ==> Steady(s, s', x)
    ensures GoodCount(s', x) && GoodRecords(s', x)
  {
    CountAppend(s.records, r, x);
    forall i | 0 <= i < |s.records| ensures Agrees(s', x, s.records[i]) {
      assert Agrees(s, x, s.records[i]);
      if s.records[i].hold == x {
        CountPositive(s.records, i);
      }
    }
    forall i | 0 <= i < |s'.records| ensures Agrees(s', x, s'.records[i]) {
      assert s'.records[i] == if i < |s.records| then s.records[i] else r;
    }
  }

  lemma AuthorizeGood(s: State, c: Id, a: AuthorizeStep, s': State, x: Id)
    requires NextAuthorize(s, c, a, s') && Scalars(s) && Sound(s, c) && Good(s, x)
    requires x in s.tasks && Ends(s.tasks[x]) ==> GoodOwner(s, s.tasks[x].hold) && s.tasks[x].hold != c
    ensures Good(s', x)
  {
    AuthorizeKeepsTeardown(s, c, a, s');
    AuthorizeSteady(s, c, a, s', x);
    if x == c {
      AuthorizeKeeps(s, c, a, s');
    } else {
      AuthorizeTouches(s, c, a, s', x);
      if x in s.tasks && Ends(s.tasks[x]) {
        AuthorizeTouches(s, c, a, s', s.tasks[x].hold);
      }
      UntouchedKeeps(s, s', x);
    }
    KeepsAudit(s, s', x);
  }

  lemma AuthorizeSteady(s: State, c: Id, a: AuthorizeStep, s': State, x: Id)
    requires NextAuthorize(s, c, a, s') && GoodTask(s, c)
    ensures s'.records == s.records && Steady(s, s', x)
  {
  }

  lemma SettleSteady(s: State, c: Id, a: SettleStep, s': State, x: Id)
    requires NextSettle(s, c, a, s') && (a.Post? ==> x != s.tasks[c].hold)
    ensures Steady(s, s', x)
  {
  }

  lemma SettleWrites(s: State, c: Id, a: SettleStep, s': State)
    requires NextSettle(s, c, a, s')
    ensures if a.Record?
            then s'.records == s.records + [LlmCall(s.tasks[c].hold, s.tasks[c].cost, s.tasks[c].confirmed)]
                 && s'.begun == s.begun && s'.ledger == s.ledger && s'.hasEngine == s.hasEngine
            else s'.records == s.records
  {
  }

  /** The audit of a settle's step, once the places are known. */
  lemma SettleAudits(s: State, c: Id, a: SettleStep, s': State, h: Id, x: Id)
    requires NextSettle(s, c, a, s') && Sound(s, h) && Sound(s, c) && GoodCount(s, x) && GoodRecords(s, x)
    requires if a.Claim? then h == a.hold else h == s.tasks[c].hold
    requires Closed(s', x) <==> Closed(s, x) || (a.Record? && x == h)
    requires x == h ==> (Closed(s, h) ==> !a.Post? && !a.Record?)
    ensures GoodCount(s', x) && GoodRecords(s', x)
  {
    SettleWrites(s, c, a, s');
    if Closed(s, x) {
      SettleSteady(s, c, a, s', x);
    }
    if a.Record? {
      ExtendsAudit(s, s', x, LlmCall(h, s.tasks[c].cost, s.tasks[c].confirmed));
    } else {
      KeepsAudit(s, s', x);
    }
  }

  lemma SettleOthers(s: State, c: Id, a: SettleStep, s': State, x: Id)
    requires NextSettle(s, c, a, s') && GoodTask(s, c) && Sound(s, x) && x != c
    requires if a.Claim? then x != a.hold else x != s.tasks[c].hold
    requires x in s.tasks && Ends(s.tasks[x]) ==> GoodOwner(s, s.tasks[x].hold) && s.tasks[x].hold != c
    requires a.Claim? ==> a.hold !in s.owner
    ensures Sound(s', x) && (Closed(s', x) <==> Closed(s, x))
  {
    SettleKeepsTeardown(s, c, a, s');
    SettleTouches(s, c, a, s', x);
    SettleTouchesMoney(s, c, a, s', x);
    if x in s.tasks && Ends(s.tasks[x]) {
      SettleTouches(s, c, a, s', s.tasks[x].hold);
      SettleTouchesMoney(s, c, a, s', s.tasks[x].hold);
    }
    UntouchedKeeps(s, s', x);
  }

  lemma SettleSelf(s: State, c: Id, a: SettleStep, s': State, h: Id)
    requires NextSettle(s, c, a, s') && Sound(s, c) && Sound(s, h)
    requires if a.Claim? then h == a.hold else h == s.tasks[c].hold
    ensures Sound(s', c) && !Closed(s, c) && !Closed(s', c) && c != h
  {
    CallIsBlank(s, c);
    SettleKeepsCall(s, c, a, s', h);
    BlankIsSound(s, c);
    BlankIsSound(s', c);
  }

  lemma SettleHold(s: State, c: Id, a: SettleStep, s': State, h: Id)
    requires NextSettle(s, c, a, s') && Scalars(s) && Sound(s, c) && Sound(s, h)
    requires if a.Claim? then h == a.hold else h == s.tasks[c].hold
    ensures Sound(s', h)
    ensures Closed(s, h) <==> a.Return?
    ensures Closed(s', h) <==> a.Record? || a.Return?
  {
    match a
    case Claim(_) => ClaimKeeps(s, c, s', h);
    case Throw => ThrowKeeps(s, c, s', h);
    case Post(cost) => PostKeeps(s, c, cost, s', h);
    case PostReturns(landed, answered) => PostReturnsKeeps(s, c, landed, answered, s', h);
    case Account => AccountKeeps(s, c, s', h);
    case Record => RecordKeeps(s, c, s', h);
    case Return => ReturnKeeps(s, c, s', h);
  }

  lemma SettleSound(s: State, c: Id, a: SettleStep, s': State, h: Id, x: Id)
    requires NextSettle(s, c, a, s') && Scalars(s) && Sound(s, c) && Sound(s, h) && Sound(s, x)
    requires if a.Claim? then h == a.hold && h !in s.owner else h == s.tasks[c].hold
    requires x in s.tasks && Ends(s.tasks[x]) ==> GoodOwner(s, s.tasks[x].hold) && s.tasks[x].hold != c
    ensures Sound(s', x)
    ensures x != h ==> (Closed(s', x) <==> Closed(s, x))
  {
    if x == h {
      SettleHold(s, c, a, s', h);
    } else if x == c {
      SettleSelf(s, c, a, s', h);
    } else {
      SettleOthers(s, c, a, s', x);
    }
  }

  lemma SettleGood(s: State, c: Id, a: SettleStep, s': State, h: Id, x: Id)
    requires NextSettle(s, c, a, s') && Scalars(s) && Sound(s, c) && Sound(s, h) && Good(s, x)
    requires if a.Claim? then h == a.hold && h !in s.owner else h == s.tasks[c].hold
    requires x in s.tasks && Ends(s.tasks[x]) ==> GoodOwner(s, s.tasks[x].hold) && s.tasks[x].hold != c
    ensures Good(s', x)
  {
    SettleHold(s, c, a, s', h);
    SettleSound(s, c, a, s', h, x);
    SettleAudits(s, c, a, s', h, x);
  }

  lemma EndSteady(s: State, c: Id, a: EndStep, s': State, x: Id)
    requires NextEnd(s, c, a, s')
    ensures Steady(s, s', x)
  {
  }

  lemma EndWrites(s: State, c: Id, a: EndStep, s': State)
    requires NextEnd(s, c, a, s')
    ensures if a.VoidReturns? && s.tasks[c].hold in s.inFlight
            then s'.records == s.records + [RecordOf(s.tasks[c].hold, s.tasks[c].ending)] && s'.begun == s.begun
            else s'.records == s.records
  {
  }

  lemma EndOthers(s: State, c: Id, a: EndStep, s': State, x: Id)
    requires NextEnd(s, c, a, s') && GoodTask(s, c) && Sound(s, x) && x != c
    requires if a.Leave? then x != a.hold else x != s.tasks[c].hold
    requires x in s.tasks && Ends(s.tasks[x]) ==> GoodOwner(s, s.tasks[x].hold) && s.tasks[x].hold != c
    requires a.Leave? ==> a.hold !in s.owner
    ensures Sound(s', x) && (Closed(s', x) <==> Closed(s, x))
  {
    EndKeepsTeardown(s, c, a, s');
    EndTouches(s, c, a, s', x);
    EndTouchesMoney(s, c, a, s', x);
    if x in s.tasks && Ends(s.tasks[x]) {
      EndTouches(s, c, a, s', s.tasks[x].hold);
      EndTouchesMoney(s, c, a, s', s.tasks[x].hold);
    }
    UntouchedKeeps(s, s', x);
  }

  lemma EndSelf(s: State, c: Id, a: EndStep, s': State, h: Id)
    requires NextEnd(s, c, a, s') && Sound(s, c) && Sound(s, h)
    requires if a.Leave? then h == a.hold else h == s.tasks[c].hold
    ensures Sound(s', c) && !Closed(s, c) && !Closed(s', c) && c != h
  {
    CallIsBlank(s, c);
    EndKeepsCall(s, c, a, s', h);
    BlankIsSound(s, c);
    BlankIsSound(s', c);
  }

  lemma EndAudits(s: State, c: Id, a: EndStep, s': State, h: Id, x: Id)
    requires NextEnd(s, c, a, s') && Sound(s, h) && Sound(s, c) && GoodCount(s, x) && GoodRecords(s, x)
    requires if a.Leave? then h == a.hold else h == s.tasks[c].hold
    requires Closed(s', x) <==> Closed(s, x) || (a.VoidReturns? && h in s.inFlight && x == h)
    requires x == h && a.VoidReturns? && h in s.inFlight ==> !Closed(s, h)
    ensures GoodCount(s', x) && GoodRecords(s', x)
  {
    EndWrites(s, c, a, s');
    EndSteady(s, c, a, s', x);
    if a.VoidReturns? && h in s.inFlight {
      ExtendsAudit(s, s', x, RecordOf(h, s.tasks[c].ending));
    } else {
      KeepsAudit(s, s', x);
    }
  }

  lemma EndHold(s: State, c: Id, a: EndStep, s': State, h: Id)
    requires NextEnd(s, c, a, s') && Scalars(s) && Sound(s, c) && Sound(s, h)
    requires if a.Leave? then h == a.hold else h == s.tasks[c].hold
    ensures Sound(s', h)
    ensures a.Leave? || h in s.inFlight ==> !Closed(s, h)
    ensures Closed(s', h) <==> Closed(s, h) || (a.VoidReturns? && h in s.inFlight)
  {
    match a
    case Leave(_, ending) => LeaveKeeps(s, c, ending, s', h);
    case HandBack => HandBackKeeps(s, c, s', h);
    case VoidReturns(landed) => VoidReturnsKeeps(s, c, landed, s', h);
  }

  lemma EndSound(s: State, c: Id, a: EndStep, s': State, h: Id, x: Id)
    requires NextEnd(s, c, a, s') && Scalars(s) && Sound(s, c) && Sound(s, h) && Sound(s, x)
    requires if a.Leave? then h == a.hold && h !in s.owner else h == s.tasks[c].hold
    requires x in s.tasks && Ends(s.tasks[x]) ==> GoodOwner(s, s.tasks[x].hold) && s.tasks[x].hold != c
    ensures Sound(s', x)
    ensures x != h ==> (Closed(s', x) <==> Closed(s, x))
  {
    if x == h {
      EndHold(s, c, a, s', h);
    } else if x == c {
      EndSelf(s, c, a, s', h);
    } else {
      EndOthers(s, c, a, s', x);
    }
  }

  lemma EndGood(s: State, c: Id, a: EndStep, s': State, h: Id, x: Id)
    requires NextEnd(s, c, a, s') && Scalars(s) && Sound(s, c) && Sound(s, h) && Good(s, x)
    requires if a.Leave? then h == a.hold && h !in s.owner else h == s.tasks[c].hold
    requires x in s.tasks && Ends(s.tasks[x]) ==> GoodOwner(s, s.tasks[x].hold) && s.tasks[x].hold != c
    ensures Good(s', x)
  {
    EndHold(s, c, a, s', h);
    EndSound(s, c, a, s', h, x);
    EndAudits(s, c, a, s', h, x);
  }

  lemma DestroyWrites(s: State, a: DestroyStep, s': State, x: Id)
    requires NextDestroy(s, a, s')
    ensures Steady(s, s', x)
    ensures if a.RecordParked? || a.EndLeftover?
            then s'.records == s.records + [HoldReleased(a.hold)]
            else s'.records == s.records
  {
  }

  lemma DestroyHold(s: State, a: DestroyStep, s': State, x: Id)
    requires NextDestroy(s, a, s') && Scalars(s) && Sound(s, x)
    ensures Sound(s', x)
    ensures Closed(s', x) <==> Closed(s, x) || ((a.RecordParked? || a.EndLeftover?) && x == a.hold)
    ensures (a.RecordParked? || a.EndLeftover?) && x == a.hold ==> !Closed(s, x)
  {
    match a
    case Begin => BeginKeeps(s, s', x);
    case Take(deadlinePassed) =>
      TakeKeepsHold(s, deadlinePassed, s', x);
      TakeKeepsMoney(s, deadlinePassed, s', x);
      TakeCloses(s, deadlinePassed, s', x);
    case RecordParked(h) => RecordParkedKeeps(s, h, s', x);
    case EndLeftover(h, landed) =>
      EndLeftoverKeepsHold(s, h, landed, s', x);
      EndLeftoverKeepsMoney(s, h, landed, s', x);
      EndLeftoverCloses(s, h, landed, s', x);
    case SweepVoid(h) => SweepVoidKeeps(s, h, s', x);
    case Finish => FinishKeeps(s, s', x);
  }

  lemma DestroyGood(s: State, a: DestroyStep, s': State, x: Id)
    requires NextDestroy(s, a, s') && Scalars(s) && Good(s, x)
    ensures Good(s', x)
  {
    DestroyHold(s, a, s', x);
    DestroyWrites(s, a, s', x);
    if a.RecordParked? || a.EndLeftover? {
      ExtendsAudit(s, s', x, HoldReleased(a.hold));
    } else {
      KeepsAudit(s, s', x);
    }
  }

  lemma RefusedTouches(s: State, c: Id, s': State, x: Id)
    requires s' == s.(used := s.used + {c})
    ensures Untouched(s, s', x) && SameTeardown(s, s') && s'.records == s.records
  {
  }

  lemma RefusedGood(s: State, c: Id, s': State, x: Id)
    requires s' == s.(used := s.used + {c}) && Good(s, x)
    ensures Good(s', x)
  {
    RefusedTouches(s, c, s', x);
    if x in s.tasks && Ends(s.tasks[x]) {
      RefusedTouches(s, c, s', s.tasks[x].hold);
    }
    UntouchedKeeps(s, s', x);
    KeepsAudit(s, s', x);
  }

  /** The ledger moves by itself: a timeout, or a request that lands late. */
  ghost predicate LedgerMoves(s: State, h: Id, outcome: Status, s': State) {
    && IsPending(s, h) && s' == s.(ledger := s.ledger[h := outcome])
    && (outcome == Expired || MayLandLate(s, h, outcome))
  }

  lemma LedgerMovesPosted(s: State, h: Id, outcome: Status, s': State, x: Id)
    requires LedgerMoves(s, h, outcome, s') && Sound(s, x)
    ensures GoodPosted(s', x) && GoodTask(s', x) && GoodOwner(s', x)
  {
  }

  lemma LedgerMovesSteady(s: State, h: Id, outcome: Status, s': State, x: Id)
    requires LedgerMoves(s, h, outcome, s') && Sound(s, x)
    ensures Steady(s, s', x)
  {
  }

  lemma LedgerMovesSound(s: State, h: Id, outcome: Status, s': State, x: Id)
    requires LedgerMoves(s, h, outcome, s') && Sound(s, x)
    ensures Sound(s', x)
  {
    LedgerMovesPosted(s, h, outcome, s', x);
  }

  lemma LedgerMovesGood(s: State, h: Id, outcome: Status, s': State, x: Id)
    requires LedgerMoves(s, h, outcome, s') && Good(s, x)
    ensures Good(s', x)
  {
    LedgerMovesSound(s, h, outcome, s', x);
    LedgerMovesSteady(s, h, outcome, s', x);
    KeepsAudit(s, s', x);
  }
}
