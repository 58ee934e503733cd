/** The two-phase ledger: accounts, pending transfers, and what no sequence of requests can do to them. */
module TwoPhase {
  import opened Common
  import opened Sums

  type Wallet = nat
  type TbId = nat

  datatype Transfer = Transfer(wallet: Wallet, held: nat, status: Status)

  /** Accounts whose debits must not exceed their credits, and every transfer ever created. */
  datatype Ledger = Ledger(credits: map<Wallet, nat>, transfers: map<TbId, Transfer>)

  /** What a transfer takes out of its wallet now. */
  function Weight(t: Transfer): nat {
    match t.status
    case Pending => t.held
    case Posted(amount) => amount
    case Voided => 0
    case Expired => 0
  }

  ghost function Weights(l: Ledger, w: Wallet): map<TbId, nat> {
    map id | id in l.transfers && l.transfers[id].wallet == w :: Weight(l.transfers[id])
  }

  ghost function Debits(l: Ledger, w: Wallet): nat {
    Sum(Weights(l, w))
  }

  /** One request as the ledger sees it. A request it rejects changes nothing. */
  datatype Request =
    | CreatePending(id: TbId, wallet: Wallet, amount: nat)
    | Post(id: TbId, amount: nat)
    | Void(id: TbId)
    | Timeout(id: TbId)

  ghost predicate Accepts(l: Ledger, r: Request) {
    match r
    case CreatePending(id, w, amount) =>
      id !in l.transfers && w in l.credits && Debits(l, w) + amount <= l.credits[w]
    case Post(id, amount) =>
      id in l.transfers && l.transfers[id].status.Pending? && amount <= l.transfers[id].held
    case Void(id) => id in l.transfers && l.transfers[id].status.Pending?
    case Timeout(id) => id in l.transfers && l.transfers[id].status.Pending?
  }

  ghost function Serve(l: Ledger, r: Request): Ledger {
    if !Accepts(l, r) then l else
      l.(transfers :=
           match r
           case CreatePending(id, w, amount) => l.transfers[id := Transfer(w, amount, Pending)]
           case Post(id, amount) => l.transfers[id := l.transfers[id].(status := Posted(amount))]
           case Void(id) => l.transfers[id := l.transfers[id].(status := Voided)]
           case Timeout(id) => l.transfers[id := l.transfers[id].(status := Expired)])
  }

  ghost function ServeAll(l: Ledger, rs: seq<Request>): Ledger
    decreases |rs|
  {
    if rs == [] then l else ServeAll(Serve(l, rs[0]), rs[1..])
  }

  // ---- No wallet is overdrawn, no transfer moves twice ----

  ghost predicate Solvent(l: Ledger) {
    Placed(l) && forall w :: w in l.credits ==> Debits(l, w) <= l.credits[w]
  }

  /** Every transfer debits an account there is, and was posted for no more than it held. */
  ghost predicate Placed(l: Ledger) {
    forall id :: id in l.transfers ==> l.transfers[id].wallet in l.credits && GoodTransfer(l.transfers[id])
  }

  ghost predicate GoodTransfer(t: Transfer) {
    t.status.Posted? ==> t.status.amount <= t.held
  }

  /** Replacing one transfer changes its wallet's debits by the difference, and no other wallet's. */
  lemma DebitsUpdate(l: Ledger, id: TbId, t: Transfer, w: Wallet)
    requires id in l.transfers && l.transfers[id].wallet == t.wallet
    ensures var l' := l.(transfers := l.transfers[id := t]);
            Debits(l', w) == if w == t.wallet then Debits(l, w) - Weight(l.transfers[id]) + Weight(t) else Debits(l, w)
  {
    var l' := l.(transfers := l.transfers[id := t]);
    if w == t.wallet {
      SumRemove(Weights(l, w), id);
      SumRemove(Weights(l', w), id);
      assert Weights(l', w) - {id} == Weights(l, w) - {id};
    } else {
      assert Weights(l', w) == Weights(l, w);
    }
  }

  lemma DebitsInsert(l: Ledger, id: TbId, t: Transfer, w: Wallet)
    requires id !in l.transfers
    ensures var l' := l.(transfers := l.transfers[id := t]);
            Debits(l', w) == Debits(l, w) + if w == t.wallet then Weight(t) else 0
  {
    var l' := l.(transfers := l.transfers[id := t]);
    if w == t.wallet {
      assert Weights(l', w) == Weights(l, w)[id := Weight(t)];
      SumInsert(Weights(l, w), id, Weight(t));
    } else {
      assert Weights(l', w) == Weights(l, w);
    }
  }

  lemma ServeSolventAt(l: Ledger, r: Request, w: Wallet)
    requires Solvent(l) && Accepts(l, r) && w in l.credits
    ensures Debits(Serve(l, r), w) <= l.credits[w]
  {
    if r.CreatePending? {
      DebitsInsert(l, r.id, Serve(l, r).transfers[r.id], w);
    } else {
      DebitsUpdate(l, r.id, Serve(l, r).transfers[r.id], w);
    }
  }

  lemma ServePlaced(l: Ledger, r: Request)
    requires Placed(l)
    ensures Placed(Serve(l, r)) && Serve(l, r).credits == l.credits
  {
  }

  lemma ServeSolvent(l: Ledger, r: Request)
    requires Solvent(l)
    ensures Solvent(Serve(l, r))
  {
    ServePlaced(l, r);
    if Accepts(l, r) {
      forall w | w in l.credits ensures Debits(Serve(l, r), w) <= l.credits[w] {
        ServeSolventAt(l, r, w);
      }
    }
  }

  /** Whatever is asked of the ledger, in whatever order, no wallet's pending plus posted debits exceed its credits. */
  lemma {:induction false} NeverOverdrawn(l: Ledger, rs: seq<Request>)
    requires Solvent(l)
    ensures Solvent(ServeAll(l, rs))
    decreases |rs|
  {
    if rs != [] {
      ServeSolvent(l, rs[0]);
      NeverOverdrawn(Serve(l, rs[0]), rs[1..]);
    }
  }

  /** A transfer that was posted, voided or expired keeps that outcome, and a pending one keeps its wallet and size. */
  lemma {:induction false} MovesOnce(l: Ledger, rs: seq<Request>, id: TbId)
    requires id in l.transfers
    ensures id in ServeAll(l, rs).transfers
    ensures !l.transfers[id].status.Pending? ==> ServeAll(l, rs).transfers[id] == l.transfers[id]
    ensures var t := ServeAll(l, rs).transfers[id];
            t.wallet == l.transfers[id].wallet && t.held == l.transfers[id].held
    decreases |rs|
  {
    if rs != [] {
      MovesOnce(Serve(l, rs[0]), rs[1..], id);
    }
  }

  /** One request leaves every transfer in place, with its wallet and size, and an ended one with its outcome. */
  lemma ServeKeeps(l: Ledger, r: Request, id: TbId)
    requires id in l.transfers
    ensures id in Serve(l, r).transfers
    ensures var t := Serve(l, r).transfers[id];
            && t.wallet == l.transfers[id].wallet && t.held == l.transfers[id].held
            && (!l.transfers[id].status.Pending? ==> t == l.transfers[id])
  {
  }

  ghost predicate Ended(l: Ledger, id: TbId) {
    id in l.transfers && !l.transfers[id].status.Pending?
  }
}
