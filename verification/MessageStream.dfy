/** The emitter gate of a governed MessageStream: settle or void, once, whatever order its events come in. */
module MessageStream {

  datatype Gate = Pending | Settled | Voided

  /** What `.receipt` resolves with: the settled receipt, or the estimate built before anything settled. */
  datatype Receipt = Final | Estimate

  datatype Promise = Open | Resolved(r: Receipt) | Rejected

  /** How far the terminal that claimed the gate has come. */
  datatype Winner =
    | Nobody
    | SettleBegun     // claimed; the hold's accounting waits for the budget lock
    | SettleAccounted // the hold is back and the cost is spent; the ledger POST is next
    | VoidBegun       // claimed; the hold waits for the budget lock
    | VoidAccounted   // the hold is back; the ledger VOID is next
    | Over

  /** A terminal that lost the gate: its continuation is still to run. */
  datatype Late = LateSettle(r: Receipt) | LateVoid

  datatype Event =
    | StreamEvent(trips: bool) // the anomaly detector may cut the stream off
    | FinalMessage
    | Error
    | Abort
    | End

  datatype Step =
    | On(e: Event)
    | Account
    | Finish(ok: bool)
    | Continue(i: nat)

  datatype State = State(
    gate: Gate,
    anomaly: bool,
    holdActive: bool,
    holdReleases: nat,    // decrements of the in-flight total
    streamReleased: bool,
    streamReleases: nat,  // decrements of the stream count
    posts: nat,
    voids: nat,
    receipt: Promise,
    settledReceipt: bool,
    winner: Winner,
    late: seq<Late>)

  const INITIAL := State(Pending, false, true, 0, false, 0, 0, 0, Open, false, Nobody, [])

  /** A promise keeps its first outcome. */
  function Decide(p: Promise, outcome: Promise): Promise {
    if p == Open then outcome else p
  }

  /** The stream count comes back with the first continuation only. */
  function ReleaseStream(s: State): State {
    if s.streamReleased then s else s.(streamReleased := true, streamReleases := s.streamReleases + 1)
  }

  /** `finalizeStreamSettle` called: it claims the gate, or answers with what there is. */
  function BeginSettle(s: State): State {
    if s.gate == Pending then s.(gate := Settled, winner := SettleBegun)
    else s.(late := s.late + [LateSettle(if s.settledReceipt then Final else Estimate)])
  }

  /** `voidVia`: it claims the gate, and rejects `.receipt` only if the gate is voided. */
  function BeginVoid(s: State): State {
    if s.gate == Pending then s.(gate := Voided, winner := VoidBegun, receipt := Decide(s.receipt, Rejected))
    else if s.gate == Voided then s.(late := s.late + [LateVoid], receipt := Decide(s.receipt, Rejected))
    else s.(late := s.late + [LateVoid])
  }

  function Handle(s: State, e: Event): State {
    match e
    case StreamEvent(trips) => s.(anomaly := s.anomaly || trips)
    case FinalMessage => BeginSettle(s)
    case Error => BeginVoid(s)
    case Abort => if s.anomaly then BeginVoid(s) else if s.gate == Pending then BeginSettle(s) else s
    case End => if s.gate == Pending then BeginSettle(s) else s
  }

  predicate Enabled(s: State, step: Step) {
    match step
    case On(_) => true
    case Account => s.winner == SettleBegun || s.winner == VoidBegun
    case Finish(_) => s.winner == SettleAccounted || s.winner == VoidAccounted
    case Continue(i) => i < |s.late|
  }

  /** The hold goes back under the budget lock, unless it already has. */
  function Accounted(s: State): State
    requires Enabled(s, Account)
  {
    s.(holdActive := false,
       holdReleases := if s.holdActive then s.holdReleases + 1 else s.holdReleases,
       winner := if s.winner == SettleBegun then SettleAccounted else VoidAccounted)
  }

  /** The ledger action and what follows it: the receipt, and the stream count. A failed settle rejects. */
  function Finished(s: State, ok: bool): State
    requires Enabled(s, Finish(ok))
  {
    if s.winner == SettleAccounted then
      ReleaseStream(s.(posts := s.posts + 1, winner := Over, settledReceipt := s.settledReceipt || ok,
                       receipt := Decide(s.receipt, if ok then Resolved(Final) else Rejected)))
    else ReleaseStream(s.(voids := s.voids + 1, winner := Over))
  }

  function Continued(s: State, i: nat): State
    requires i < |s.late|
  {
    var rest := s.late[..i] + s.late[i + 1..];
    match s.late[i]
    case LateSettle(r) => ReleaseStream(s.(late := rest, receipt := Decide(s.receipt, Resolved(r))))
    case LateVoid => ReleaseStream(s.(late := rest))
  }

  function Apply(s: State, step: Step): State
    requires Enabled(s, step)
  {
    match step
    case On(e) => Handle(s, e)
    case Account => Accounted(s)
    case Finish(ok) => Finished(s, ok)
    case Continue(i) => Continued(s, i)
  }

  ghost predicate IsRun(s: State, steps: seq<Step>, t: State)
    decreases |steps|
  {
    if steps == [] then s == t else Enabled(s, steps[0]) && IsRun(Apply(s, steps[0]), steps[1..], t)
  }

  // ---- What every step keeps ----

  /** Which parts of the outcome go with how far the winner has come. */
  predicate Matches(s: State) {
    match s.winner
    case Nobody => s.gate == Pending && s.holdActive && s.posts == s.voids == 0
    case SettleBegun => s.gate == Settled && s.holdActive && s.posts == s.voids == 0
    case SettleAccounted => s.gate == Settled && !s.holdActive && s.posts == s.voids == 0
    case VoidBegun => s.gate == Voided && s.holdActive && s.posts == s.voids == 0
    case VoidAccounted => s.gate == Voided && !s.holdActive && s.posts == s.voids == 0
    case Over =>
      && !s.holdActive
      && ((s.gate == Settled && s.posts == 1 && s.voids == 0) || (s.gate == Voided && s.posts == 0 && s.voids == 1))
  }

  predicate Good(s: State) {
    && Matches(s)
    && s.holdReleases == (if s.holdActive then 0 else 1)
    && s.streamReleases == (if s.streamReleased then 1 else 0)
    && (s.winner == Over ==> s.streamReleased)
    && (s.gate == Pending ==> s.late == [] && !s.streamReleased && s.receipt == Open)
    && (s.gate == Voided ==> s.receipt == Rejected)
    && (s.gate == Settled && s.receipt == Rejected ==> s.winner == Over && !s.settledReceipt)
    && (s.settledReceipt ==> s.winner == Over && s.gate == Settled)
    && (s.winner == Over ==> s.receipt != Open)
  }

  lemma StepKeepsGood(s: State, step: Step)
    requires Good(s) && Enabled(s, step)
    ensures Good(Apply(s, step))
    ensures s.gate != Pending ==> Apply(s, step).gate == s.gate
    ensures s.receipt != Open ==> Apply(s, step).receipt == s.receipt
  {
  }

  predicate IsTerminal(step: Step) {
    step.On? && !step.e.StreamEvent?
  }

  lemma {:induction false} RunKeepsGood(s: State, steps: seq<Step>, t: State)
    requires Good(s) && IsRun(s, steps, t)
    ensures Good(t) && (s.gate != Pending ==> t.gate == s.gate) && (s.receipt != Open ==> t.receipt == s.receipt)
    ensures (exists i :: 0 <= i < |steps| && IsTerminal(steps[i])) ==> t.gate != Pending
    decreases |steps|
  {
    if steps != [] {
      var u := Apply(s, steps[0]);
      StepKeepsGood(s, steps[0]);
      RunKeepsGood(u, steps[1..], t);
      assert forall i :: 0 < i < |steps| ==> steps[i] == steps[1..][i - 1];
    }
  }

  /**
   * For every order and repetition of events, and every interleaving with the continuations: once a terminal event
   * has arrived the gate is settled or voided for good, and when its winner is over exactly one ledger action was
   * taken, the hold and the stream count came back once each, and `.receipt` is decided; a winning void has
   * rejected it.
   */
  lemma SettleXorVoid(steps: seq<Step>, t: State)
    requires IsRun(INITIAL, steps, t)
    ensures (exists i :: 0 <= i < |steps| && IsTerminal(steps[i])) ==> t.gate != Pending
    ensures t.posts + t.voids <= 1 && t.holdReleases <= 1 && t.streamReleases <= 1
    ensures t.gate == Settled ==> t.voids == 0
    ensures t.gate == Voided ==> t.posts == 0 && t.receipt == Rejected
    ensures t.winner == Over ==>
              t.posts + t.voids == 1 && t.holdReleases == 1 && t.streamReleases == 1 && t.receipt != Open
  {
    RunKeepsGood(INITIAL, steps, t);
  }

  /** After a winning settle, only that settle's own failure rejects `.receipt`: no later abort or error does. */
  lemma LateEventsDoNotReject(steps: seq<Step>, t: State)
    requires IsRun(INITIAL, steps, t) && t.gate == Settled && t.receipt == Rejected
    ensures Finish(false) in steps
  {
    RunKeepsGood(INITIAL, steps, t);
    OnlyFinishRejects(INITIAL, steps, t);
  }

  lemma {:induction false} OnlyFinishRejects(s: State, steps: seq<Step>, t: State)
    requires Good(s) && IsRun(s, steps, t) && t.gate == Settled && t.receipt == Rejected && s.receipt != Rejected
    ensures Finish(false) in steps
    decreases |steps|
  {
    if steps != [] {
      var u := Apply(s, steps[0]);
      StepKeepsGood(s, steps[0]);
      RunKeepsGood(u, steps[1..], t);
      if u.receipt == Rejected {
        assert steps[0] == Finish(false);
      } else {
        OnlyFinishRejects(u, steps[1..], t);
      }
    }
  }

  // ---- When the receipt is the settled one ----

  /** A `finalMessage` arrived while a settle, whichever event began it, had claimed the gate and had not finished. */
  ghost predicate FinalMessageDuringSettle(s: State, steps: seq<Step>)
    decreases |steps|
  {
    steps != [] && Enabled(s, steps[0])
    && (|| (steps[0] == On(FinalMessage) && s.gate == Settled && s.winner != Over)
        || FinalMessageDuringSettle(Apply(s, steps[0]), steps[1..]))
  }

  ghost predicate NoEstimate(s: State) {
    && s.receipt != Resolved(Estimate)
    && (s.receipt == Open ==> forall i :: 0 <= i < |s.late| ==> s.late[i] != LateSettle(Estimate))
  }

  lemma StepKeepsNoEstimate(s: State, step: Step)
    requires Good(s) && Enabled(s, step) && NoEstimate(s)
    requires !(step == On(FinalMessage) && s.gate == Settled && s.winner != Over)
    ensures NoEstimate(Apply(s, step))
  {
    if step.Continue? {
      var rest := s.late[..step.i] + s.late[step.i + 1..];
      assert forall j :: 0 <= j < |rest| ==> rest[j] == s.late[if j < step.i then j else j + 1];
    }
  }

  /** Without a `finalMessage` during an unfinished settle, `.receipt` never resolves with the estimate. */
  lemma {:induction false} ReceiptIsFinal(s: State, steps: seq<Step>, t: State)
    requires Good(s) && NoEstimate(s) && IsRun(s, steps, t)
    requires !FinalMessageDuringSettle(s, steps)
    ensures t.receipt != Resolved(Estimate)
    decreases |steps|
  {
    if steps != [] {
      StepKeepsGood(s, steps[0]);
      StepKeepsNoEstimate(s, steps[0]);
      ReceiptIsFinal(Apply(s, steps[0]), steps[1..], t);
    }
  }

  lemma ReceiptNeverEstimate(steps: seq<Step>, t: State)
    requires IsRun(INITIAL, steps, t) && !FinalMessageDuringSettle(INITIAL, steps)
    ensures t.receipt != Resolved(Estimate)
  {
    ReceiptIsFinal(INITIAL, steps, t);
  }

  /**
   * With one, it can, from every such state: if the duplicate's continuation runs first, `.receipt` resolves with
   * the estimate and the stream count comes back while the settle is still at work.
   */
  lemma FinalMessageDuringSettleCanWin(steps: seq<Step>, s: State) returns (t: State)
    requires IsRun(INITIAL, steps, s) && s.gate == Settled && s.winner != Over && s.receipt == Open
    ensures IsRun(s, [On(FinalMessage), Continue(|s.late|)], t)
    ensures t.receipt == Resolved(Estimate) && t.streamReleased && t.posts == 0 && t.winner == s.winner
  {
    RunKeepsGood(INITIAL, steps, s);
    var a := Apply(s, On(FinalMessage));
    t := Apply(a, Continue(|s.late|));
    var more := [On(FinalMessage), Continue(|s.late|)];
    assert more[1..] == [Continue(|s.late|)] && more[1..][1..] == [];
    assert IsRun(t, [], t);
    assert IsRun(a, more[1..], t);
  }

  /** One `finalMessage` is enough: after an abort, after an end without one, or after an earlier one of its own. */
  lemma OneFinalMessageIsEnough(first: Event) returns (t: State)
    requires first == Abort || first == End || first == FinalMessage
    ensures IsRun(INITIAL, [On(first), On(FinalMessage), Continue(0)], t)
    ensures t.receipt == Resolved(Estimate) && t.streamReleased && t.posts == 0
  {
    var begun := Apply(INITIAL, On(first));
    var steps := [On(first)];
    assert steps[1..] == [] && IsRun(begun, [], begun);
    t := FinalMessageDuringSettleCanWin(steps, begun);
    var all := [On(first), On(FinalMessage), Continue(0)];
    assert all[1..] == [On(FinalMessage), Continue(|begun.late|)];
  }

  // ---- Which event does what, by the steps alone ----

  /** The anomaly detector has cut the stream off before step `i`. */
  ghost predicate Tripped(steps: seq<Step>, i: nat)
    requires i <= |steps|
  {
    exists j :: 0 <= j < i && steps[j] == On(StreamEvent(true))
  }

  /** The first terminal event of the run is its `i`-th step. */
  ghost predicate FirstTerminal(steps: seq<Step>, i: nat) {
    i < |steps| && IsTerminal(steps[i]) && forall j :: 0 <= j < i ==> !IsTerminal(steps[j])
  }

  lemma {:induction false} FirstTerminalFrom(s: State, steps: seq<Step>, t: State, i: nat)
    requires Good(s) && s.gate == Pending && IsRun(s, steps, t) && FirstTerminal(steps, i)
    ensures t.gate == if steps[i] == On(Error) || (steps[i] == On(Abort) && (s.anomaly || Tripped(steps, i)))
                      then Voided else Settled
    decreases i
  {
    var u, rest := Apply(s, steps[0]), steps[1..];
    StepKeepsGood(s, steps[0]);
    if i == 0 {
      RunKeepsGood(u, rest, t);
    } else {
      assert forall j :: 0 <= j < |rest| ==> rest[j] == steps[j + 1];
      FirstTerminalFrom(u, rest, t, i - 1);
      TrippedOn(steps, i);
    }
  }

  lemma TrippedOn(steps: seq<Step>, i: nat)
    requires 0 < i <= |steps|
    ensures Tripped(steps, i) <==> steps[0] == On(StreamEvent(true)) || Tripped(steps[1..], i - 1)
  {
    var rest := steps[1..];
    assert forall j :: 0 <= j < |rest| ==> rest[j] == steps[j + 1];
    if Tripped(steps, i) && steps[0] != On(StreamEvent(true)) {
      var j :| 0 <= j < i && steps[j] == On(StreamEvent(true));
      assert rest[j - 1] == On(StreamEvent(true));
    }
  }

  /**
   * In every run the first terminal event decides: an `error`, or an `abort` after the anomaly detector cut the stream
   * off, voids the hold and rejects `.receipt`; a `finalMessage`, an `end`, or an `abort` of the caller's own settles.
   */
  lemma FirstTerminalDecides(steps: seq<Step>, t: State, i: nat)
    requires IsRun(INITIAL, steps, t) && FirstTerminal(steps, i)
    ensures steps[i] == On(Error) || (steps[i] == On(Abort) && Tripped(steps, i)) ==>
              t.gate == Voided && t.receipt == Rejected && t.posts == 0
    ensures || steps[i] == On(FinalMessage) || steps[i] == On(End)
            || (steps[i] == On(Abort) && !Tripped(steps, i)) ==>
              t.gate == Settled && t.voids == 0
  {
    FirstTerminalFrom(INITIAL, steps, t, i);
    RunKeepsGood(INITIAL, steps, t);
  }

  /** Before the winner is over nothing has touched `.receipt`, and no late settle waits to. */
  ghost predicate Untouched(s: State) {
    s.winner != Over && s.gate != Voided ==>
      s.receipt == Open && forall i :: 0 <= i < |s.late| ==> s.late[i] == LateVoid
  }

  lemma StepKeepsUntouched(s: State, step: Step)
    requires Good(s) && Enabled(s, step) && Untouched(s)
    requires !(step == On(FinalMessage) && s.gate == Settled && s.winner != Over)
    ensures Untouched(Apply(s, step))
  {
  }

  lemma {:induction false} OverStays(s: State, steps: seq<Step>, t: State)
    requires Good(s) && s.winner == Over && IsRun(s, steps, t)
    ensures t.winner == Over && t.receipt == s.receipt && forall ok :: Finish(ok) !in steps
    decreases |steps|
  {
    if steps != [] {
      StepKeepsGood(s, steps[0]);
      OverStays(Apply(s, steps[0]), steps[1..], t);
    }
  }

  lemma {:induction false} FinishFrom(s: State, steps: seq<Step>, t: State)
    requires Good(s) && Untouched(s) && s.winner != Over && IsRun(s, steps, t) && t.gate == Settled
    requires !FinalMessageDuringSettle(s, steps)
    ensures forall ok :: Finish(ok) in steps ==> t.receipt == if ok then Resolved(Final) else Rejected
    ensures (forall ok :: Finish(ok) !in steps) ==> t.receipt == Open
    decreases |steps|
  {
    RunKeepsGood(s, steps, t);
    if steps != [] {
      var u := Apply(s, steps[0]);
      StepKeepsGood(s, steps[0]);
      StepKeepsUntouched(s, steps[0]);
      RunKeepsGood(u, steps[1..], t);
      if u.winner == Over {
        OverStays(u, steps[1..], t);
      } else {
        FinishFrom(u, steps[1..], t);
      }
      assert forall ok :: Finish(ok) in steps <==> steps[0] == Finish(ok) || Finish(ok) in steps[1..];
    }
  }

  /**
   * Where the stream settles, and no `finalMessage` comes while it does, `.receipt` is what the settle's own end says:
   * open before it, the settled receipt after a success, rejected after a failure.
   */
  lemma FinishDecidesTheReceipt(steps: seq<Step>, t: State)
    requires IsRun(INITIAL, steps, t) && t.gate == Settled && !FinalMessageDuringSettle(INITIAL, steps)
    ensures forall ok :: Finish(ok) in steps ==> t.receipt == if ok then Resolved(Final) else Rejected
    ensures (forall ok :: Finish(ok) !in steps) ==> t.receipt == Open
  {
    FinishFrom(INITIAL, steps, t);
  }

  // ---- The listeners ----

  /** The closures of one call, as one object. */
  class Governed {
    var gate: Gate
    var anomaly: bool
    var holdActive: bool
    var holdReleases: nat
    var streamReleased: bool
    var streamReleases: nat
    var posts: nat
    var voids: nat
    var receipt: Promise
    var settledReceipt: bool
    var winner: Winner
    var late: seq<Late>

    ghost function View(): State
      reads this
    {
      State(gate, anomaly, holdActive, holdReleases, streamReleased, streamReleases, posts, voids, receipt,
            settledReceipt, winner, late)
    }

    constructor ()
      ensures View() == INITIAL && Good(View())
    {
      gate, anomaly, holdActive, holdReleases := Pending, false, true, 0;
      streamReleased, streamReleases, posts, voids := false, 0, 0, 0;
      receipt, settledReceipt, winner, late := Open, false, Nobody, [];
    }

    /** `finalizeOnce`: the first terminal signal wins. */
    method FinalizeOnce(outcome: Gate) returns (won: bool)
      requires outcome != Pending
      modifies this`gate
      ensures won == (old(gate) == Pending) && gate == if won then outcome else old(gate)
    {
      won := gate == Pending;
      if won {
        gate := outcome;
      }
    }

    method FinalizeSettle()
      modifies this`gate, this`winner, this`late
      ensures View() == BeginSettle(old(View()))
    {
      var won := FinalizeOnce(Settled);
      if won {
        winner := SettleBegun;
      } else {
        late := late + [LateSettle(if settledReceipt then Final else Estimate)];
      }
    }

    method VoidVia()
      modifies this`gate, this`winner, this`late, this`receipt
      ensures View() == BeginVoid(old(View()))
    {
      var won := FinalizeOnce(Voided);
      if won {
        winner := VoidBegun;
      } else {
        late := late + [LateVoid];
      }
      if gate == Voided && receipt == Open {
        receipt := Rejected;
      }
    }

    method Listen(e: Event)
      modifies this
      ensures View() == Apply(old(View()), On(e))
    {
      match e
      case StreamEvent(trips) =>
        anomaly := anomaly || trips;
      case FinalMessage =>
        FinalizeSettle();
      case Error =>
        VoidVia();
      case Abort =>
        if anomaly {
          VoidVia();
        } else if gate == Pending {
          FinalizeSettle();
        }
      case End =>
        if gate == Pending {
          FinalizeSettle();
        }
    }

    /** `releaseStreamCount`. */
    method ReleaseStreamCount()
      modifies this`streamReleased, this`streamReleases
      ensures View() == ReleaseStream(old(View()))
    {
      if !streamReleased {
        streamReleased := true;
        streamReleases := streamReleases + 1;
      }
    }

    /** `releaseInFlightHold`, and the settle's own accounting. */
    method ReleaseHold()
      requires winner == SettleBegun || winner == VoidBegun
      modifies this`holdActive, this`holdReleases, this`winner
      ensures View() == Apply(old(View()), Account)
    {
      if holdActive {
        holdActive := false;
        holdReleases := holdReleases + 1;
      }
      winner := if winner == SettleBegun then SettleAccounted else VoidAccounted;
    }

    method FinishWinner(ok: bool)
      requires winner == SettleAccounted || winner == VoidAccounted
      modifies this
      ensures View() == Apply(old(View()), Finish(ok))
    {
      if winner == SettleAccounted {
        posts := posts + 1;
        settledReceipt := settledReceipt || ok;
        receipt := Decide(receipt, if ok then Resolved(Final) else Rejected);
      } else {
        voids := voids + 1;
      }
      winner := Over;
      ReleaseStreamCount();
    }

    /** A terminal that lost the gate comes to its continuation. */
    method ContinueLate(i: nat)
      requires i < |late|
      modifies this
      ensures View() == Apply(old(View()), Continue(i))
    {
      var done := late[i];
      late := late[..i] + late[i + 1..];
      if done.LateSettle? {
        receipt := Decide(receipt, Resolved(done.r));
      }
      ReleaseStreamCount();
    }
  }
}
