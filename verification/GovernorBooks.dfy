/** The session counters: what they sum, and how far they can go. */
module GovernorBooks {
  import opened Common
  import opened Sums
  import opened GovernorModel
  import opened GovernorInvariant

  /** Only the lock's holder is past the lock, and a session hold being reserved still fits the budget. */
  ghost predicate GoodLock(s: State, c: Id) {
    c in s.tasks && HoldsLock(s.tasks[c]) ==>
      && s.lock == Held(c)
      && (s.tasks[c].Reserving? ==> s.hasEngine)
      && (s.tasks[c].Reserving? && !EnvelopeDebited(s, s.tasks[c].attributed) ==>
            s.budget - s.budgetSpent - s.inFlightHoldTotal - s.tasks[c].estimate >= 0)
  }

  /** By how much each settled session hold cost more than it had reserved. */
  ghost function Overruns(s: State): map<Id, nat> {
    map h | h in s.spentOn && h in s.registered :: Max(0, s.spentOn[h] - s.registered[h].estimate)
  }

  ghost predicate Books(s: State) {
    && s.inFlightHoldTotal == Sum(s.outstanding)
    && s.budgetSpent == s.restored + Sum(s.spentOn)
    && s.budgetSpent + s.inFlightHoldTotal <= Max(s.budget, s.restored) + Sum(Overruns(s))
  }

  lemma AuthorizeLocks(s: State, c: Id, a: AuthorizeStep, s': State, x: Id)
    requires NextAuthorize(s, c, a, s') && GoodLock(s, c) && GoodLock(s, x)
    ensures GoodLock(s', x)
  {
  }

  lemma SettleLocks(s: State, c: Id, a: SettleStep, s': State, x: Id)
    requires NextSettle(s, c, a, s') && GoodLock(s, x)
    ensures GoodLock(s', x)
  {
  }

  lemma EndLocks(s: State, c: Id, a: EndStep, s': State, x: Id)
    requires NextEnd(s, c, a, s') && GoodLock(s, x)
    ensures GoodLock(s', x)
  {
  }

  lemma DestroyLocks(s: State, a: DestroyStep, s': State, x: Id)
    requires NextDestroy(s, a, s') && GoodLock(s, x)
    ensures GoodLock(s', x) && SameBooks(s, s')
  {
  }

  /** Nothing the books depend on moved. */
  ghost predicate SameBooks(s: State, s': State) {
    && s'.budget == s.budget && s'.restored == s.restored && s'.hasEngine == s.hasEngine
    && s'.inFlightHoldTotal == s.inFlightHoldTotal && s'.budgetSpent == s.budgetSpent
    && s'.outstanding == s.outstanding && s'.spentOn == s.spentOn && s'.registered == s.registered
  }

  lemma SameBooksKept(s: State, s': State)
    requires SameBooks(s, s') && Books(s)
    ensures Books(s')
  {
    assert Overruns(s') == Overruns(s);
  }

  /** A hold added under the lock: the gate left room for it. */
  lemma AddHold(s: State, c: Id, capture: Capture, s': State)
    requires Books(s) && c !in s.outstanding && c !in s.spentOn
    requires capture.session ==> s.budget - s.budgetSpent - s.inFlightHoldTotal - capture.estimate >= 0
    requires s'.budget == s.budget && s'.restored == s.restored
    requires s'.budgetSpent == s.budgetSpent && s'.spentOn == s.spentOn
    requires s'.inFlightHoldTotal == Plus(s.inFlightHoldTotal, capture.session, capture.estimate)
    requires s'.outstanding == With(s.outstanding, capture.session, c, capture.estimate)
    requires s'.registered == s.registered || s'.registered == s.registered[c := capture]
    ensures Books(s')
  {
    if capture.session {
      SumInsert(s.outstanding, c, capture.estimate);
    }
    assert Overruns(s') == Overruns(s);
  }

  lemma GrantBooks(s: State, c: Id, s': State)
    requires Books(s) && MayGrant(s, c) && GoodLock(s, c) && GoodTask(s, c) && GoodSpent(s, c)
    requires s' == Grant(s, c) || s' == GrantLate(s, c)
    ensures Books(s')
  {
    AddHold(s, c, CaptureOf(s, s.tasks[c]), s');
  }

  lemma DropHold(s: State, h: Id, s': State)
    requires Books(s) && h in s.outstanding
    requires s'.inFlightHoldTotal == s.inFlightHoldTotal - s.outstanding[h] && s'.outstanding == s.outstanding - {h}
    requires s'.budget == s.budget && s'.restored == s.restored
    requires s'.budgetSpent == s.budgetSpent && s'.spentOn == s.spentOn && s'.registered == s.registered
    ensures Books(s')
  {
    SumRemove(s.outstanding, h);
    assert Overruns(s') == Overruns(s);
  }

  lemma AuthorizeBooks(s: State, c: Id, a: AuthorizeStep, s': State)
    requires NextAuthorize(s, c, a, s') && Books(s) && GoodLock(s, c) && Sound(s, c)
    ensures Books(s')
  {
    match a
    case Register => GrantBooks(s, c, s');
    case CutOff => GrantBooks(s, c, s');
    case Undo => DropHold(s, c, s');
    case Enter(_, _) => SameBooksKept(s, s');
    case Lock => SameBooksKept(s, s');
    case Reserve(_) => SameBooksKept(s, s');
    case Refuse => SameBooksKept(s, s');
  }

  /** A settled session hold: its estimate goes back and its metered cost is spent. */
  lemma SpendHold(s: State, h: Id, cost: nat, s': State)
    requires Books(s) && h in s.outstanding && h !in s.spentOn && h in s.registered
    requires s.outstanding[h] == s.registered[h].estimate
    requires s'.budget == s.budget && s'.restored == s.restored && s'.registered == s.registered
    requires s'.inFlightHoldTotal == s.inFlightHoldTotal - s.outstanding[h] && s'.outstanding == s.outstanding - {h}
    requires s'.budgetSpent == s.budgetSpent + cost && s'.spentOn == s.spentOn[h := cost]
    ensures Books(s')
  {
    SumRemove(s.outstanding, h);
    SumInsert(s.spentOn, h, cost);
    OverrunAdded(s, h, cost, s');
  }

  lemma OverrunAdded(s: State, h: Id, cost: nat, s': State)
    requires h !in s.spentOn && h in s.registered && Books(s)
    requires s'.registered == s.registered && s'.spentOn == s.spentOn[h := cost]
    ensures Sum(Overruns(s')) == Sum(Overruns(s)) + Max(0, cost - s.registered[h].estimate)
  {
    var over := Max(0, cost - s.registered[h].estimate);
    assert Overruns(s') == Overruns(s)[h := over];
    SumInsert(Overruns(s), h, over);
  }

  lemma AccountBooks(s: State, c: Id, s': State)
    requires c in s.tasks && s.tasks[c].Accounting? && s' == AccountSettle(s, c) && Books(s)
    requires GoodTask(s, c) && Sound(s, s.tasks[c].hold)
    ensures Books(s')
  {
    if s.tasks[c].capture.session {
      SpendHold(s, s.tasks[c].hold, s.tasks[c].cost, s');
    } else {
      assert s'.outstanding == s.outstanding;
      SameBooksKept(s, s');
    }
  }

  lemma SettleBooks(s: State, c: Id, a: SettleStep, s': State)
    requires NextSettle(s, c, a, s') && Books(s) && Sound(s, c)
    requires a.Account? ==> Sound(s, s.tasks[c].hold)
    ensures Books(s')
  {
    if a.Account? {
      AccountBooks(s, c, s');
    } else {
      SameBooksKept(s, s');
    }
  }

  lemma EndBooks(s: State, c: Id, a: EndStep, s': State)
    requires NextEnd(s, c, a, s') && Books(s) && Sound(s, c)
    requires a.HandBack? ==> Sound(s, s.tasks[c].hold)
    ensures Books(s')
  {
    if a.HandBack? {
      if s.tasks[c].capture.session {
        DropHold(s, s.tasks[c].hold, s');
      } else {
        assert s'.outstanding == s.outstanding;
        SameBooksKept(s, s');
      }
    } else {
      SameBooksKept(s, s');
    }
  }
}
