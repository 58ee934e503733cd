/** The OpenClaw wrapper: one terminal ledger action per authorization, and `result()` decided in time. */
module GovernedStream {

  /** What a provider event means to the wrapper; `Aborted` is an error event raised by the caller's own signal. */
  datatype Kind = Ordinary | Done | Error | Aborted

  /** The answer to one pull on the provider's stream. */
  datatype Pull = Event(kind: Kind) | Throws | Ends

  /** What the consumer does with a suspended generator. */
  datatype Resume = Next | Return | Throw

  datatype Action = SettleOk | SettleFailed | Abort

  /** The promise behind `result()`. */
  datatype Final = Pending | Resolved | Rejected

  /** What the rest of the world does in one run. */
  datatype World = World(
    authorized: bool,     // the hold was granted
    starts: bool,         // the host's stream function returned a stream
    pulls: seq<Pull>,     // the provider's answers
    resumes: seq<Resume>, // the consumer's calls, the first one included
    settles: bool,        // the ledger accepts a settle
    closes: bool)         // closing the provider's iterator does not throw

  datatype Outcome = Outcome(
    ledger: seq<Action>,
    shown: seq<(Kind, Final)>, // each event yielded, with the state of `result()` at that moment
    final: Final,
    finished: bool,
    threw: bool)

  predicate Terminal(k: Kind) {
    k != Ordinary
  }

  /** A settle, or an abort where the ledger refused it. */
  function SettleActions(settles: bool): seq<Action> {
    if settles then [SettleOk] else [SettleFailed, Abort]
  }

  /** Only a provider failure voids; a finished stream and the caller's own cancellation are paid for. */
  function TerminalActions(kind: Kind, settles: bool): seq<Action> {
    if kind == Error then [Abort] else SettleActions(settles)
  }

  /** Exactly one terminal ledger action took effect: one settle, or one abort and no settle. */
  predicate OneAction(ledger: seq<Action>) {
    ledger == [SettleOk] || ledger == [Abort] || ledger == [SettleFailed, Abort]
  }

  /** Every done or error event was yielded with `result()` decided, and nothing was yielded after one. */
  ghost predicate DecidedShown(shown: seq<(Kind, Final)>) {
    forall i :: 0 <= i < |shown| && Terminal(shown[i].0) ==> shown[i].1 != Pending && i == |shown| - 1
  }

  /** The last event the consumer was shown. */
  predicate LastShown(shown: seq<(Kind, Final)>, kind: Kind) {
    shown != [] && shown[|shown| - 1].0 == kind
  }

  ghost predicate SawTerminal(shown: seq<(Kind, Final)>) {
    shown != [] && Terminal(shown[|shown| - 1].0)
  }

  /** What was yielded is what the provider sent, in order. */
  ghost predicate Forwards(shown: seq<(Kind, Final)>, pulls: seq<Pull>) {
    |shown| <= |pulls| && forall i :: 0 <= i < |shown| ==> pulls[i] == Event(shown[i].0)
  }

  // ---- Where a run stands, by the world and what was shown ----

  /** The consumer's first `n` calls were `next`. */
  predicate AllNext(resumes: seq<Resume>, n: nat) {
    n <= |resumes| && forall i :: 0 <= i < n ==> resumes[i] == Next
  }

  /** The consumer's first call was `next`: the generator began. */
  predicate Started(world: World) {
    world.resumes != [] && world.resumes[0] == Next
  }

  /** The provider is being pulled for the event after those shown. */
  ghost predicate Pulling(world: World, shown: seq<(Kind, Final)>) {
    && Started(world) && world.authorized && world.starts
    && AllNext(world.resumes, |shown| + 1) && !SawTerminal(shown)
  }

  /** The run waits: for the consumer's next call, or for a provider that does not answer. */
  ghost predicate Waits(world: World, shown: seq<(Kind, Final)>) {
    || (|world.resumes| == |shown| && AllNext(world.resumes, |shown|))
    || (Pulling(world, shown) && |shown| == |world.pulls|)
  }

  /** The stream closed without a terminal event. */
  ghost predicate Closed(world: World, shown: seq<(Kind, Final)>) {
    Pulling(world, shown) && |shown| < |world.pulls| && world.pulls[|shown|] == Ends
  }

  /** Why the run is over, and whether it threw. */
  ghost predicate LeftAs(world: World, shown: seq<(Kind, Final)>, threw: bool) {
    var k := |shown|;
    if !Started(world) then world.resumes != [] && k == 0 && threw == (world.resumes[0] == Throw)
    else if !world.authorized || !world.starts then k == 0 && threw
    else if !AllNext(world.resumes, k) || k == |world.resumes| then false
    // The consumer left at the last event shown.
    else if world.resumes[k] != Next then threw == (world.resumes[k] == Throw || !world.closes)
    // The terminal event was shown, and the body went on: a refused settle is rethrown, otherwise it returns.
    else if SawTerminal(shown) then
      threw == ((shown[k - 1].0 != Error && !world.settles) || !world.closes)
    else
      && k < |world.pulls|
      && ((world.pulls[k] == Throws && threw) || (world.pulls[k] == Ends && threw == !world.settles))
  }

  /** The fate of `result()`: the terminal event's, and a rejection for a run that ended without one. */
  ghost function FinalOf(world: World, shown: seq<(Kind, Final)>, finished: bool): Final {
    if SawTerminal(shown) then FateOf(world, shown[|shown| - 1].0)
    else if finished && Started(world) then Rejected
    else Pending
  }

  function FateOf(world: World, kind: Kind): Final {
    if kind == Error || world.settles then Resolved else Rejected
  }

  /** How the body goes on: it stays suspended, or leaves by a return or by a throw. */
  datatype Way = Suspended | Returned | Thrown

  class Run {
    const world: World
    var terminated: bool
    var final: Final
    var ledger: seq<Action>
    var shown: seq<(Kind, Final)>
    var resumed: nat

    ghost predicate Valid()
      reads this
    {
      && (!terminated ==> (ledger == [] || ledger == [SettleFailed]) && final == Pending && !SawTerminal(shown))
      && (terminated ==> OneAction(ledger) && final != Pending)
      && (SawTerminal(shown) ==>
            && ledger == TerminalActions(shown[|shown| - 1].0, world.settles)
            && final == FateOf(world, shown[|shown| - 1].0))
      && DecidedShown(shown) && Forwards(shown, world.pulls)
    }

    constructor (world: World)
      ensures this.world == world && Valid() && !terminated && ledger == [] && shown == [] && resumed == 0
    {
      this.world := world;
      terminated, final, ledger, shown, resumed := false, Pending, [], [], 0;
    }

    method Settle() returns (ok: bool)
      modifies this`ledger
      ensures ok == world.settles && ledger == old(ledger) + [if ok then SettleOk else SettleFailed]
    {
      ok := world.settles;
      ledger := ledger + [if ok then SettleOk else SettleFailed];
    }

    method AbortHold()
      modifies this`ledger
      ensures ledger == old(ledger) + [Abort]
    {
      ledger := ledger + [Abort];
    }

    /** `finalizeTerminal`: the ledger action for a terminal event, and the fate of `result()`. Never throws. */
    method FinalizeTerminal(kind: Kind) returns (failed: bool)
      requires ledger == [] && Terminal(kind)
      modifies this`ledger, this`final
      ensures ledger == TerminalActions(kind, world.settles)
      ensures kind == Error ==> ledger == [Abort]
      ensures kind != Error ==> ledger == if world.settles then [SettleOk] else [SettleFailed, Abort]
      ensures failed <==> kind != Error && !world.settles
      ensures final == FateOf(world, kind)
    {
      if kind == Error {
        AbortHold();
        final := Resolved;
        return false;
      }
      var ok := Settle();
      if ok {
        final := Resolved;
        return false;
      }
      AbortHold();
      final := Rejected;
      return true;
    }

    /** A `yield`: the consumer sees the event, and resumes the body or leaves it suspended. */
    method Yield(kind: Kind) returns (waits: bool, resume: Resume)
      requires Valid() && !SawTerminal(shown)
      requires |shown| < |world.pulls| && world.pulls[|shown|] == Event(kind)
      requires Terminal(kind) ==>
                 terminated && ledger == TerminalActions(kind, world.settles) && final == FateOf(world, kind)
      requires !Terminal(kind) ==> !terminated && ledger == []
      modifies this`shown, this`resumed
      ensures Valid() && shown == old(shown) + [(kind, final)]
      ensures waits <==> old(resumed) >= |world.resumes|
      ensures !waits ==> resume == world.resumes[old(resumed)] && resumed == old(resumed) + 1
    {
      shown := shown + [(kind, final)];
      waits, resume := resumed >= |world.resumes|, Next;
      if !waits {
        resume := world.resumes[resumed];
        resumed := resumed + 1;
      }
    }

    /** Leaving the loop early closes the provider's iterator; only a return lets its failure out. */
    function Leave(resume: Resume): Way {
      if resume == Return && world.closes then Returned else Thrown
    }

    /** The `try` block after authorization. */
    method Body() returns (way: Way)
      requires Valid() && !terminated && ledger == [] && shown == []
      requires Started(world) && world.authorized && resumed == 1
      modifies this
      ensures Valid()
      ensures if way == Suspended then Waits(world, shown) else LeftAs(world, shown, way == Thrown)
      ensures way == Thrown && !terminated ==> ledger == if Closed(world, shown) then [SettleFailed] else []
      ensures way == Returned && !terminated ==> ledger == []
      ensures way == Suspended && !terminated ==> ledger == []
      ensures terminated && !SawTerminal(shown) ==>
                way == Returned && ledger == SettleActions(world.settles) && final == Rejected
      ensures SawTerminal(shown) ==> terminated
    {
      if !world.starts {
        return Thrown;
      }
      var i := 0;
      while i < |world.pulls|
        invariant Valid() && !terminated && ledger == [] && 0 <= i <= |world.pulls| && |shown| == i
        invariant resumed == i + 1 && Pulling(world, shown)
      {
        match world.pulls[i]
        case Throws =>
          return Thrown;
        case Ends =>
          // The stream closed without a terminal event: settle at the estimate, and end `result()`.
          var ok := Settle();
          if !ok {
            return Thrown;
          }
          terminated := true;
          final := Rejected;
          return Returned;
        case Event(kind) =>
          if Terminal(kind) {
            var failed := FinalizeTerminal(kind);
            terminated := true;
            var waits, resume := Yield(kind);
            if waits {
              return Suspended;
            }
            // Resumed: a failed settle is rethrown, otherwise the body returns; either way it leaves the loop.
            return if resume == Next then (if failed then Thrown else Leave(Return)) else Leave(resume);
          }
          var waits, resume := Yield(kind);
          if waits {
            return Suspended;
          }
          if resume != Next {
            return Leave(resume);
          }
          i := i + 1;
      }
      return Suspended;
    }

    /** The `catch` and `finally` blocks. */
    method Unwind(way: Way)
      requires Valid() && way != Suspended && (way == Returned && !terminated ==> ledger == [])
      modifies this`ledger, this`terminated, this`final
      ensures OneAction(ledger) && final != Pending
      ensures old(terminated) ==> ledger == old(ledger) && final == old(final)
      ensures !old(terminated) ==> final == Rejected
      ensures !old(terminated) && way == Returned ==> ledger == SettleActions(world.settles)
      ensures !old(terminated) && way == Thrown ==> ledger == old(ledger) + [Abort]
    {
      if way == Thrown && !terminated {
        AbortHold();
        terminated := true;
        final := Rejected;
      }
      if !terminated {
        var ok := Settle();
        if !ok {
          AbortHold();
        }
      }
      if final == Pending {
        final := Rejected;
      }
    }
  }

  /** One run of the generator, from the consumer's first call. */
  method Drive(world: World) returns (out: Outcome)
    // It goes on until it waits, and a finished one was left as the world says.
    ensures out.finished <==> !Waits(world, out.shown)
    ensures out.finished ==> LeftAs(world, out.shown, out.threw)
    // Authorized and finished: exactly one terminal action, and `result()` decided.
    ensures out.finished && Started(world) && world.authorized ==> OneAction(out.ledger) && out.final != Pending
    // Still suspended: nothing yet, or the action of the terminal event just yielded.
    ensures !out.finished ==> out.ledger == [] || (SawTerminal(out.shown) && OneAction(out.ledger))
    // The terminal event decides the action, whatever the consumer does after it: only a provider error is free.
    ensures LastShown(out.shown, Error) ==> out.ledger == [Abort] && out.final == Resolved
    ensures LastShown(out.shown, Done) || LastShown(out.shown, Aborted) ==>
              if world.settles then out.ledger == [SettleOk] && out.final == Resolved
              else out.ledger == [SettleFailed, Abort] && out.final == Rejected
    // Without one, walking away is paid for, and only a failure voids.
    ensures out.finished && Started(world) && world.authorized && !SawTerminal(out.shown) ==>
              if !out.threw then out.ledger == if world.settles then [SettleOk] else [SettleFailed, Abort]
              else out.ledger == if Closed(world, out.shown) then [SettleFailed, Abort] else [Abort]
    ensures DecidedShown(out.shown) && Forwards(out.shown, world.pulls)
    // No authorization, no action.
    ensures !(Started(world) && world.authorized) ==> out.ledger == [] && out.shown == []
    // `result()` of a finished run is left pending exactly when the stream was closed before its first `next`.
    ensures out.final == FinalOf(world, out.shown, out.finished)
    ensures out.finished ==> (out.final == Pending <==> !Started(world))
    ensures out.finished && Started(world) && !SawTerminal(out.shown) ==> out.final == Rejected
  {
    if world.resumes == [] {
      return Outcome([], [], Pending, false, false);
    }
    if world.resumes[0] != Next {
      return Outcome([], [], Pending, true, world.resumes[0] == Throw);
    }
    if !world.authorized {
      return Outcome([], [], Rejected, true, true);
    }
    var run := new Run(world);
    run.resumed := 1;
    var way := run.Body();
    if way == Suspended {
      return Outcome(run.ledger, run.shown, run.final, false, false);
    }
    run.Unwind(way);
    return Outcome(run.ledger, run.shown, run.final, true, way == Thrown);
  }
}
