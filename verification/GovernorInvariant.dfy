/** What every step of the governor keeps, stated hold by hold and call by call. */
module GovernorInvariant {
  import opened Common
  import opened Sums
  import opened GovernorModel

  ghost predicate Scalars(s: State) {
    && (s.destroyed <==> !s.teardown.Idle?)
    && (s.sweeping <==> s.teardown.Sweeping? || s.teardown.Finished?)
  }

  /** A parked call: its name is taken, and a terminal's hold is owned by that terminal alone. */
  ghost predicate GoodTask(s: State, c: Id) {
    c in s.tasks ==>
      var t := s.tasks[c];
      && c in s.used && c !in s.registered
      && (t.Reserving? ==> s.hasEngine)
      && (!t.GivingBack? ==> c !in s.ledger && c !in s.outstanding)
      && (Ends(t) ==>
            && t.hold in s.owner && s.owner[t.hold] == c
            && t.hold in s.registered
            && (!t.Returning? ==> s.registered[t.hold] == t.capture))
  }

  /** The terminal that owns hold `h`, if any, is a call on this very hold. */
  ghost predicate GoodOwner(s: State, h: Id) {
    && (h in s.registered ==> h in s.used)
    && (h in s.ledger ==> h in s.used)
    && (h in s.owner ==>
          && h in s.registered
          && s.owner[h] in s.tasks && Ends(s.tasks[s.owner[h]]) && s.tasks[s.owner[h]].hold == h)
  }

  /** A hold is active, or handed back, or owned by a terminal, never two of these. */
  ghost predicate GoodPlace(s: State, h: Id) {
    && (h in s.activeAuths ==>
          h in s.registered && s.registered[h] == s.activeAuths[h] && h !in s.unpostedHolds && h !in s.owner)
    && (h in s.unpostedHolds ==> h in s.registered && s.registered[h] == s.unpostedHolds[h])
    && (h in s.owner && s.owner[h] in s.tasks ==> (h in s.unpostedHolds <==> s.tasks[s.owner[h]].Claimed?))
  }

  /** A settle owns hold `h`. */
  ghost predicate SettleOwns(s: State, h: Id) {
    h in s.owner && s.owner[h] in s.tasks && Settles(s.tasks[s.owner[h]])
  }

  /** The marks: `settling` is exactly the holds settles own, `inFlight` only holds abort or release own. */
  ghost predicate GoodMarks(s: State, h: Id) {
    && (h in s.settling <==> SettleOwns(s, h))
    && (h in s.inFlight ==> h in s.owner && !SettleOwns(s, h))
  }

  /** What destroy took is nobody else's. */
  ghost predicate GoodTaken(s: State, h: Id) {
    && (h in s.taken ==> h in s.registered && h !in s.owner && s.sweeping)
    && (s.sweeping ==> h !in s.activeAuths && h !in s.unpostedHolds && h !in s.inFlight)
    && (s.teardown.Sweeping? ==>
          && (h in s.teardown.leftovers ==> h in s.taken)
          && (h in s.teardown.parked ==> h in s.registered && h !in s.taken && !SettleOwns(s, h)))
  }

  ghost predicate GoodHold(s: State, h: Id) {
    GoodOwner(s, h) && GoodPlace(s, h) && GoodMarks(s, h) && GoodTaken(s, h)
  }

  // ---- One terminal record per hold ----

  /** How many records are about hold `h`. */
  ghost function Count(records: seq<AuditRecord>, h: Id): nat {
    if records == [] then 0
    else Count(records[..|records| - 1], h) + (if records[|records| - 1].hold == h then 1 else 0)
  }

  lemma CountAppend(records: seq<AuditRecord>, r: AuditRecord, h: Id)
    ensures Count(records + [r], h) == Count(records, h) + (if r.hold == h then 1 else 0)
  {
    assert (records + [r])[..|records|] == records;
  }

  lemma {:induction false} CountPositive(records: seq<AuditRecord>, i: nat)
    requires i < |records|
    ensures Count(records, records[i].hold) >= 1
  {
    if i < |records| - 1 {
      CountPositive(records[..|records| - 1], i);
    }
  }

  /** Somebody still has to write this hold's record. */
  ghost predicate Open(s: State, h: Id) {
    if SettleOwns(s, h) then !s.tasks[s.owner[h]].Returning?
    else
      || h in s.activeAuths || h in s.unpostedHolds || h in s.inFlight
      || (s.teardown.Sweeping? && (h in s.teardown.parked || h in s.teardown.leftovers))
  }

  ghost predicate Closed(s: State, h: Id) {
    h in s.registered && !Open(s, h)
  }

  ghost predicate GoodCount(s: State, h: Id) {
    Count(s.records, h) == if Closed(s, h) then 1 else 0
  }

  // ---- What the ledger was told ----

  /** The hold's own settle has begun its POST. */
  ghost predicate Posts(t: Task) {
    t.Posting? || t.Accounting? || t.Recording? || t.Returning?
  }

  /** A hold whose POST began belongs to the settle that began it, or to nobody: no one can void it. */
  ghost predicate GoodBegun(s: State, h: Id) {
    && (h in s.begun ==>
          && h in s.registered && h !in s.activeAuths && h !in s.unpostedHolds && h !in s.taken && h !in s.inFlight
          && (s.teardown.Sweeping? ==> h !in s.teardown.parked)
          && (h in s.owner && s.owner[h] in s.tasks ==> Posts(s.tasks[s.owner[h]])))
    && (h in s.owner && s.owner[h] in s.tasks && Posts(s.tasks[s.owner[h]]) ==> h in s.begun)
  }

  /** Only a POST that began moves the hold's money to posted: the metered cost, up to the hold. */
  ghost predicate GoodPosted(s: State, h: Id) {
    && (s.hasEngine && h in s.registered ==> h in s.ledger)
    && (h in s.ledger && s.ledger[h].Posted? ==>
          h in s.begun && h in s.registered && s.ledger[h].amount == Min(s.begun[h], s.registered[h].estimate))
    && (h in s.owner && s.owner[h] in s.tasks && h in s.begun ==> ChargeOf(s, h, s.tasks[s.owner[h]]))
  }

  /** What a posting settle knows: the cost it metered, and whether the ledger confirmed the post. */
  ghost predicate ChargeOf(s: State, h: Id, t: Task)
    requires h in s.begun
  {
    && (!t.Returning? && Posts(t) ==> s.begun[h] == t.cost)
    && ((t.Accounting? || t.Recording?) && t.confirmed && s.hasEngine ==> h in s.ledger && s.ledger[h].Posted?)
  }

  /** A record about `h` agrees with the ledger: only `llm_call` names a hold whose POST began. */
  ghost predicate Agrees(s: State, h: Id, r: AuditRecord) {
    r.hold == h ==>
      if r.LlmCall?
      then h in s.begun && r.cost == s.begun[h]
           && (r.settled && s.hasEngine ==> h in s.ledger && s.ledger[h].Posted?)
      else h !in s.begun
  }

  ghost predicate GoodRecords(s: State, h: Id) {
    forall i :: 0 <= i < |s.records| ==> Agrees(s, h, s.records[i])
  }

  // ---- The session's share ----

  /** Session money reserved for hold `h` (or for an authorize destroy cut off) and not yet given back. */
  ghost predicate Unreturned(s: State, h: Id) {
    || (h in s.tasks && s.tasks[h].GivingBack?)
    || (h in s.registered && s.registered[h].session && Retained(s, h))
  }

  ghost predicate Retained(s: State, h: Id) {
    if h in s.owner then Reserves(s, h) else h in s.activeAuths || h in s.unpostedHolds || h in s.taken
  }

  /** The terminal that owns `h` has not yet given its estimate back. */
  ghost predicate Reserves(s: State, h: Id) {
    && h in s.owner && s.owner[h] in s.tasks
    && var t := s.tasks[s.owner[h]]; t.Claimed? || t.Posting? || t.Accounting? || t.Leaving?
  }

  ghost predicate GoodShare(s: State, h: Id) {
    h in s.outstanding <==> Unreturned(s, h)
  }

  ghost predicate GoodEstimate(s: State, h: Id) {
    && (h in s.outstanding ==> h in s.used)
    && (h in s.outstanding && h in s.registered ==> s.outstanding[h] == s.registered[h].estimate)
    && (h in s.outstanding && h !in s.registered ==>
          h in s.tasks && s.tasks[h].GivingBack? && s.outstanding[h] == s.tasks[h].estimate)
  }

  /** A session hold's cost is spent once, when its settle accounts for the POST it began. */
  ghost predicate GoodSpent(s: State, h: Id) {
    && (h in s.spentOn ==>
          h in s.registered && s.registered[h].session && h in s.begun && s.spentOn[h] == s.begun[h] && !Reserves(s, h))
    && (h in s.begun && h in s.registered && s.registered[h].session && !Reserves(s, h) ==> h in s.spentOn)
  }

  // ---- Everything known of one name, as a call and as a hold ----

  /** Everything but the records. */
  ghost predicate Sound(s: State, x: Id) {
    && GoodTask(s, x) && GoodHold(s, x)
    && GoodBegun(s, x) && GoodPosted(s, x) && GoodShare(s, x) && GoodEstimate(s, x) && GoodSpent(s, x)
  }

  ghost predicate Good(s: State, x: Id) {
    Sound(s, x) && GoodCount(s, x) && GoodRecords(s, x)
  }
}
