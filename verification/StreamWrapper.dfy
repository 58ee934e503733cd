/** The async-generator wrapper around a provider stream: one callback, the source forwarded, usage accumulated. */
module StreamWrapper {
  import opened Common

  /** OpenAI and Google report running totals; Anthropic reports its counters on separate chunks. */
  datatype Provider = OpenAI | Google | Anthropic

  /** The usage a chunk carries. */
  datatype Reading = Reading(
    input: nat, output: nat, cacheRead: nat, cacheWrite: nat,
    reported: bool,                            // both headline counters usable (running totals)
    inputReported: bool, outputReported: bool) // either one usable (separate chunks)

  datatype Chunk = Chunk(id: nat, usageOnly: bool, reading: Option<Reading>)

  datatype Usage = Usage(
    input: nat, output: nat, cacheRead: nat, cacheWrite: nat,
    reported: bool, inputSeen: bool, outputSeen: bool)

  const NO_USAGE := Usage(0, 0, 0, 0, false, false, false)

  function Larger(a: nat, b: nat): nat {
    if a > b then a else b
  }

  /** The counters after one chunk. */
  function Absorb(kind: Provider, u: Usage, c: Chunk): Usage {
    if c.reading.None? then u else
      var r := c.reading.value;
      if kind == Anthropic then
        var inputSeen := u.inputSeen || r.inputReported;
        var outputSeen := u.outputSeen || r.outputReported;
        Usage(if r.input > 0 then r.input else u.input, if r.output > 0 then r.output else u.output,
              Larger(r.cacheRead, u.cacheRead), Larger(r.cacheWrite, u.cacheWrite),
              u.reported || (inputSeen && outputSeen), inputSeen, outputSeen)
      else
        Usage(r.input, r.output, r.cacheRead, r.cacheWrite, u.reported || r.reported, u.inputSeen, u.outputSeen)
  }

  function AbsorbAll(kind: Provider, chunks: seq<Chunk>): Usage {
    if chunks == [] then NO_USAGE else Absorb(kind, AbsorbAll(kind, chunks[..|chunks| - 1]), chunks[|chunks| - 1])
  }

  // ---- The generator ----

  /** One pull on the source; the per-chunk hook may throw on what it brought. */
  datatype Pull = Item(chunk: Chunk, hookThrows: bool) | Throws | Ends

  datatype Call = Next | Return | Throw

  /** What the callbacks are told. */
  datatype Completion = Completion(usage: Usage, delivered: nat)

  datatype Callback = OnComplete(c: Completion) | OnError(c: Completion)

  datatype World = World(
    kind: Provider,
    withhold: bool,       // the usage-only chunk was requested by the wrapper, not by the caller
    pulls: seq<Pull>,
    aborted: bool,        // the caller's own signal, read when an error arrives
    closes: bool)         // closing the source does not throw

  predicate Withheld(w: World, c: Chunk) {
    w.withhold && w.kind == OpenAI && c.usageOnly
  }

  /** The chunks of the first `n` pulls that the consumer is shown: all but the withheld ones. */
  function Shown(w: World, n: nat): seq<Chunk>
    requires n <= |w.pulls|
  {
    if n == 0 then [] else
      Shown(w, n - 1)
      + if w.pulls[n - 1].Item? && !Withheld(w, w.pulls[n - 1].chunk) then [w.pulls[n - 1].chunk] else []
  }

  /** The counters after the first `n` pulls. */
  function Counted(w: World, n: nat): Usage
    requires n <= |w.pulls|
  {
    if n == 0 then NO_USAGE
    else if w.pulls[n - 1].Item? then Absorb(w.kind, Counted(w, n - 1), w.pulls[n - 1].chunk)
    else Counted(w, n - 1)
  }

  /** Where the generator is: not begun, suspended at a yield, waiting for the source, or done. */
  datatype Phase = Start | AtYield | Awaiting | Done

  /** How the generator came to its end. */
  datatype Exit =
    | Open                 // it has not
    | Closed(thrown: bool) // closed before its first `next`
    | Finished             // the source ended
    | Broken               // the consumer returned
    | Failed(hook: bool)   // the source, the consumer, the close or the wrapper's own hook threw

  /** Only a failure voids, and not one that the caller's own signal explains. */
  predicate Voids(w: World, exit: Exit) {
    exit == Closed(true) || (exit.Failed? && (exit.hook || !w.aborted))
  }

  /** Why the generator ended, after `taken` pulls and `delivered` answered yields, under the calls made. */
  ghost predicate ExitFits(w: World, calls: seq<Call>, exit: Exit, taken: nat, shown: seq<Chunk>, delivered: nat) {
    match exit
    case Open => true
    case Closed(thrown) => calls != [] && calls[0] == (if thrown then Throw else Return) && taken == delivered == 0
    case Finished =>
      taken < |w.pulls| && w.pulls[taken] == Ends && delivered == |shown| && AllNext(calls, delivered + 1)
    case Broken => EndedBy(calls, Return, delivered) && w.closes && |shown| == delivered + 1
    case Failed(true) =>
      && 0 < taken <= |w.pulls| && w.pulls[taken - 1].Item? && w.pulls[taken - 1].hookThrows
      && delivered == |shown| && AllNext(calls, delivered + 1)
    case Failed(false) =>
      || (taken < |w.pulls| && w.pulls[taken] == Throws && delivered == |shown| && AllNext(calls, delivered + 1))
      || (&& |shown| == delivered + 1
          && (EndedBy(calls, Throw, delivered) || (EndedBy(calls, Return, delivered) && !w.closes)))
  }

  /** The call after the `delivered + 1` that were `next`. */
  ghost predicate EndedBy(calls: seq<Call>, c: Call, delivered: nat) {
    delivered + 1 < |calls| && calls[delivered + 1] == c && AllNext(calls, delivered + 1)
  }

  ghost predicate AllNext(calls: seq<Call>, n: nat) {
    n <= |calls| && forall i :: 0 <= i < n ==> calls[i] == Next
  }

  /** What was pulled, shown and counted, and what the one callback was told of it. */
  ghost predicate Account(w: World, calls: seq<Call>, exit: Exit, taken: nat, shown: seq<Chunk>, c: Completion) {
    && taken <= |w.pulls| && ExitFits(w, calls, exit, taken, shown, c.delivered)
    && c.usage == Counted(w, taken) && c.delivered <= |shown| <= c.delivered + 1
    && shown == Shown(w, if exit == Failed(true) then taken - 1 else taken)
  }

  /** The generator, its own `next`, `return` and `throw`, and the patched ones that the consumer calls. */
  class Wrapped {
    const w: World
    var phase: Phase
    var started: bool   // the patch's flag
    var errored: bool   // set by the catch block, read by the finally block
    var hookThrew: bool
    var taken: nat
    var usage: Usage
    var shown: seq<Chunk>
    var delivered: nat
    var callbacks: seq<Callback>
    ghost var exit: Exit
    ghost var calls: seq<Call>

    /** What holds between calls, in every phase. */
    ghost predicate Valid()
      reads this
    {
      && started == (phase != Start) && Counting()
      && (phase == Done <==> |callbacks| == 1) && |callbacks| <= 1
      && (phase != Done ==> exit == Open && !errored && !hookThrew)
      && match phase
         case Start => taken == delivered == 0 && shown == [] && calls == []
         case AtYield => |shown| == delivered + 1 && |calls| == delivered + 1 && AllNext(calls, delivered + 1)
         case Awaiting => taken == |w.pulls| && delivered == |shown| && AllNext(calls, delivered + 1)
         case Done =>
           && exit != Open && callbacks[0].OnError? == Voids(w, exit)
           && Account(w, calls, exit, taken, shown, callbacks[0].c)
    }

    /** The counters and what was shown agree with the pulls; the body was not left by the hook. */
    ghost predicate Counting()
      reads this
    {
      && taken <= |w.pulls| && (forall i :: 0 <= i < taken ==> w.pulls[i].Item?)
      && usage == Counted(w, taken)
      && (exit != Failed(true) ==>
            shown == Shown(w, taken) && forall i :: 0 <= i < taken ==> !w.pulls[i].hookThrows)
    }

    constructor (w: World)
      ensures Valid() && this.w == w && phase == Start && calls == []
    {
      this.w := w;
      phase, started, errored, hookThrew := Start, false, false, false;
      taken, usage, shown, delivered, callbacks := 0, NO_USAGE, [], 0, [];
      exit, calls := Open, [];
    }

    /** The catch and finally blocks. Only an error that the caller's signal does not explain reaches `onError`. */
    method Unwind(threw: bool)
      requires !errored && callbacks == [] && phase != Done
      modifies this`errored, this`callbacks, this`phase
      ensures phase == Done && |callbacks| == 1 && callbacks[0].c == Completion(usage, delivered)
      ensures callbacks[0].OnError? <==> threw && (hookThrew || !w.aborted)
    {
      if threw {
        if hookThrew || !w.aborted {
          errored := true;
          callbacks := callbacks + [OnError(Completion(usage, delivered))];
        }
      }
      if !errored {
        callbacks := callbacks + [OnComplete(Completion(usage, delivered))];
      }
      phase := Done;
    }

    /** Inside the body, after every yield so far was answered. */
    ghost predicate Running()
      reads this
    {
      && phase != Done && started && !errored && !hookThrew && callbacks == [] && exit == Open && Counting()
      && delivered == |shown| && |calls| == delivered + 1 && AllNext(calls, delivered + 1)
    }

    /** One turn of the loop. It goes on only past a withheld chunk. */
    method Turn() returns (goesOn: bool)
      requires Running() && taken < |w.pulls|
      modifies this
      ensures calls == old(calls)
      ensures goesOn ==> Running() && taken == old(taken) + 1
      ensures !goesOn ==> Valid() && phase != Start
    {
      match w.pulls[taken]
      case Throws =>
        exit := Failed(false);
        Unwind(true);
        return false;
      case Ends =>
        exit := Finished;
        Unwind(false);
        return false;
      case Item(chunk, hookThrows) =>
        if hookThrows {
          StopByHook(chunk);
          return false;
        }
        taken := taken + 1;
        usage := Absorb(w.kind, usage, chunk);
        if Withheld(w, chunk) {
          return true;
        }
        shown := shown + [chunk];
        phase := AtYield;
        return false;
    }

    /** A chunk is counted before the hook sees it, and is not shown when the hook throws. */
    method StopByHook(chunk: Chunk)
      requires Running() && taken < |w.pulls| && w.pulls[taken] == Item(chunk, true)
      modifies this
      ensures calls == old(calls) && Valid() && phase == Done
    {
      taken := taken + 1;
      usage := Absorb(w.kind, usage, chunk);
      hookThrew := true;
      exit := Failed(true);
      Unwind(true);
    }

    /** The body, from its beginning or from a yield, to its next yield, its end, or a source that does not answer. */
    method RunBody()
      requires Running()
      modifies this
      ensures Valid() && calls == old(calls) && phase != Start
    {
      while taken < |w.pulls|
        invariant Running() && calls == old(calls)
        decreases |w.pulls| - taken
      {
        var goesOn := Turn();
        if !goesOn {
          return;
        }
      }
      phase := Awaiting;
    }

    /** The patched `next`. */
    method CallNext()
      requires Valid()
      modifies this
      ensures Valid() && calls == old(calls) + [Next] && phase != Start
      ensures old(phase) == Done || old(phase) == Awaiting ==> Unmoved(old(phase), old(callbacks), old(shown))
    {
      AccountGrows(w, calls, Next, exit, taken, shown, callbacks);
      calls := calls + [Next];
      started := true;
      if phase == Start {
        RunBody();
      } else if phase == AtYield {
        delivered := delivered + 1;
        RunBody();
      }
    }

    /** The patched `return`. Before the first `next` it ends the hold itself: the generator's body never runs. */
    method CallReturn()
      requires Valid()
      modifies this
      ensures Valid() && calls == old(calls) + [Return] && phase != Start && phase != AtYield
      ensures old(phase) == Done || old(phase) == Awaiting ==> Unmoved(old(phase), old(callbacks), old(shown))
    {
      AccountGrows(w, calls, Return, exit, taken, shown, callbacks);
      calls := calls + [Return];
      if started {
        if phase == AtYield {
          exit := if w.closes then Broken else Failed(false);
          Unwind(!w.closes);
        }
        return;
      }
      started := true;
      phase := Done;
      callbacks := callbacks + [OnComplete(Completion(NO_USAGE, 0))];
      exit := Closed(false);
    }

    /** The patched `throw`. */
    method CallThrow()
      requires Valid()
      modifies this
      ensures Valid() && calls == old(calls) + [Throw] && phase != Start && phase != AtYield
      ensures old(phase) == Done || old(phase) == Awaiting ==> Unmoved(old(phase), old(callbacks), old(shown))
    {
      AccountGrows(w, calls, Throw, exit, taken, shown, callbacks);
      calls := calls + [Throw];
      if started {
        if phase == AtYield {
          exit := Failed(false);
          Unwind(true);
        }
        return;
      }
      started := true;
      phase := Done;
      callbacks := callbacks + [OnError(Completion(NO_USAGE, 0))];
      exit := Closed(true);
    }

    /** One call of the consumer, in any phase. */
    method Take(c: Call)
      requires Valid()
      modifies this
      ensures Valid() && calls == old(calls) + [c] && (c != Next ==> phase == Done || phase == Awaiting)
      ensures old(phase) == Done || old(phase) == Awaiting ==> Unmoved(old(phase), old(callbacks), old(shown))
    {
      match c
      case Next => CallNext();
      case Return => CallReturn();
      case Throw => CallThrow();
    }

    /** A call that found nothing to do. */
    ghost predicate Unmoved(p: Phase, cs: seq<Callback>, ch: seq<Chunk>)
      reads this
    {
      phase == p && callbacks == cs && shown == ch
    }
  }

  /** Later calls do not change why the generator ended. */
  lemma AccountGrows(w: World, calls: seq<Call>, c: Call, exit: Exit, taken: nat, shown: seq<Chunk>, cs: seq<Callback>)
    ensures forall n :: AllNext(calls, n) ==> AllNext(calls + [c], n)
    ensures forall k :: 0 <= k < |cs| && exit != Open && Account(w, calls, exit, taken, shown, cs[k].c) ==>
              Account(w, calls + [c], exit, taken, shown, cs[k].c)
  {
    assert forall i :: 0 <= i < |calls| ==> (calls + [c])[i] == calls[i];
  }

  // ---- Every schedule ----

  datatype Outcome = Outcome(callbacks: seq<Callback>, shown: seq<Chunk>, done: bool)

  /** What was shown is, in order, a prefix of the source without its withheld chunks. */
  ghost predicate PrefixShown(w: World, shown: seq<Chunk>) {
    exists n :: 0 <= n <= |w.pulls| && shown == Shown(w, n)
  }

  /** One end of the generator explains the callback, the chunks shown and the usage. */
  ghost predicate Explained(w: World, calls: seq<Call>, shown: seq<Chunk>, callback: Callback) {
    exists exit, n: nat ::
      && exit != Open && callback.OnError? == Voids(w, exit)
      && Account(w, calls, exit, n, shown, callback.c)
  }

  /** The source answers nothing more, after chunks that the hook let pass. */
  predicate Exhausted(w: World) {
    forall i :: 0 <= i < |w.pulls| ==> w.pulls[i].Item? && !w.pulls[i].hookThrows
  }

  /** The generator is open: every call was `next` and was given a chunk, or one of them waits for the source. */
  ghost predicate StillOpen(w: World, calls: seq<Call>, shown: seq<Chunk>) {
    || (AllNext(calls, |calls|) && |shown| == |calls|)
    || (Exhausted(w) && shown == Shown(w, |w.pulls|) && AllNext(calls, |shown| + 1))
  }

  /** Whatever ended the generator, it is not open. */
  lemma EndedIsNotOpen(w: World, calls: seq<Call>, exit: Exit, taken: nat, shown: seq<Chunk>, c: Completion)
    requires exit != Open && Account(w, calls, exit, taken, shown, c)
    ensures !StillOpen(w, calls, shown)
  {
  }

  /**
   * Every sequence of `next`, `return` and `throw` on the wrapped stream, a close before the first `next` and calls
   * after the end included: never two callbacks, and exactly one once the generator is done, which it is exactly
   * when it is not open.
   */
  method Drive(w: World, calls: seq<Call>) returns (out: Outcome)
    ensures |out.callbacks| <= 1 && (out.done <==> |out.callbacks| == 1)
    ensures out.done ==> Explained(w, calls, out.shown, out.callbacks[0])
    ensures PrefixShown(w, out.shown)
    ensures out.done <==> !StillOpen(w, calls, out.shown)
  {
    var stream := new Wrapped(w);
    var i := 0;
    while i < |calls|
      invariant 0 <= i <= |calls| && fresh(stream) && stream.w == w
      invariant stream.Valid() && stream.calls == calls[..i]
    {
      stream.Take(calls[i]);
      assert calls[..i + 1] == calls[..i] + [calls[i]];
      i := i + 1;
    }
    assert calls[..|calls|] == calls;
    out := Outcome(stream.callbacks, stream.shown, stream.phase == Done);
    if stream.phase == Done {
      EndedIsNotOpen(w, calls, stream.exit, stream.taken, stream.shown, stream.callbacks[0].c);
    }
  }

  // ---- What the consumer sees ----

  /** A pull whose chunk reaches the consumer: all but the usage-only one that OpenAI sends at the wrapper's request. */
  predicate Reaches(w: World, pull: Pull) {
    pull.Item? && (pull.chunk.usageOnly ==> !w.withhold || w.kind != OpenAI)
  }

  function Reaching(w: World, n: nat): nat
    requires n <= |w.pulls|
  {
    if n == 0 then 0 else Reaching(w, n - 1) + if Reaches(w, w.pulls[n - 1]) then 1 else 0
  }

  /** Every chunk that reaches the consumer is shown behind those before it, and no other is. */
  lemma {:induction false} ShownInOrder(w: World, n: nat)
    requires n <= |w.pulls|
    ensures |Shown(w, n)| == Reaching(w, n)
    ensures forall i :: 0 <= i < n && Reaches(w, w.pulls[i]) ==>
              Reaching(w, i) < |Shown(w, n)| && Shown(w, n)[Reaching(w, i)] == w.pulls[i].chunk
  {
    if n > 0 {
      ShownInOrder(w, n - 1);
    }
  }

  /** Closed before its first `next`, the stream shows nothing and tells the callback of no usage. */
  lemma ClosedEarly(w: World, calls: seq<Call>, shown: seq<Chunk>, callback: Callback)
    requires Explained(w, calls, shown, callback)
    ensures calls != []
    ensures calls[0] != Next ==> shown == [] && callback.c == Completion(NO_USAGE, 0)
    ensures calls[0] == Return ==> callback.OnComplete?
    ensures calls[0] == Throw ==> callback.OnError?
  {
    var exit, n: nat :| && exit != Open && callback.OnError? == Voids(w, exit)
                        && Account(w, calls, exit, n, shown, callback.c);
    assert !exit.Closed? ==> AllNext(calls, callback.c.delivered + 1);
  }

  ghost predicate HookThrew(w: World) {
    exists i :: 0 <= i < |w.pulls| && w.pulls[i].Item? && w.pulls[i].hookThrows
  }

  ghost predicate SourceThrew(w: World) {
    exists i :: 0 <= i < |w.pulls| && w.pulls[i] == Throws
  }

  /**
   * Once begun, the error callback means a failing hook, or, without the caller's own signal, a source that threw, a
   * consumer that threw, or a close that failed. The other callback, without that signal, means that the source
   * ended or that the consumer returned and the close went well.
   */
  lemma WhyCalledBack(w: World, calls: seq<Call>, shown: seq<Chunk>, callback: Callback)
    requires Explained(w, calls, shown, callback) && calls != [] && calls[0] == Next
    ensures callback.OnError? ==>
              HookThrew(w) || (!w.aborted && (SourceThrew(w) || Throw in calls || (Return in calls && !w.closes)))
    ensures callback.OnComplete? && !w.aborted ==> Ends in w.pulls || (Return in calls && w.closes)
  {
    var exit, n: nat :| && exit != Open && callback.OnError? == Voids(w, exit)
                        && Account(w, calls, exit, n, shown, callback.c);
    var d := callback.c.delivered;
    assert forall c :: EndedBy(calls, c, d) ==> calls[d + 1] in calls;
    assert n < |w.pulls| ==> w.pulls[n] in w.pulls;
  }

  // ---- What the counters mean ----

  /** The chunks of the first `n` pulls, shown or not. */
  function Pulled(w: World, n: nat): seq<Chunk>
    requires n <= |w.pulls|
  {
    if n == 0 then [] else Pulled(w, n - 1) + if w.pulls[n - 1].Item? then [w.pulls[n - 1].chunk] else []
  }

  /** What the callbacks are told counts every chunk pulled, the withheld ones included. */
  lemma {:induction false} CountedIsAbsorbed(w: World, n: nat)
    requires n <= |w.pulls|
    ensures Counted(w, n) == AbsorbAll(w.kind, Pulled(w, n))
  {
    if n > 0 {
      CountedIsAbsorbed(w, n - 1);
      var before := Pulled(w, n - 1);
      if w.pulls[n - 1].Item? {
        assert (before + [w.pulls[n - 1].chunk])[..|before|] == before;
      } else {
        assert before + [] == before;
      }
    }
  }

  /** The last chunk that carried usage. */
  function LastReading(chunks: seq<Chunk>): Option<Reading> {
    if chunks == [] then None
    else if chunks[|chunks| - 1].reading.Some? then chunks[|chunks| - 1].reading
    else LastReading(chunks[..|chunks| - 1])
  }

  /** Running totals: the counters are those of the last chunk that carried any, never a sum. */
  lemma {:induction false} TotalsAreTheLast(kind: Provider, chunks: seq<Chunk>)
    requires kind != Anthropic
    ensures var u, last := AbsorbAll(kind, chunks), LastReading(chunks);
            if last.None? then u == NO_USAGE
            else (u.input, u.output, u.cacheRead, u.cacheWrite)
                 == (last.value.input, last.value.output, last.value.cacheRead, last.value.cacheWrite)
    ensures AbsorbAll(kind, chunks).reported
       <==> exists i :: 0 <= i < |chunks| && chunks[i].reading.Some? && chunks[i].reading.value.reported
  {
    if chunks != [] {
      var n := |chunks| - 1;
      TotalsAreTheLast(kind, chunks[..n]);
      assert forall i :: 0 <= i < n ==> chunks[..n][i] == chunks[i];
    }
  }

  /** A later chunk never takes a report, or any of Anthropic's cache tokens, back. */
  lemma {:induction false} CountersAreKept(kind: Provider, chunks: seq<Chunk>, n: nat)
    requires n <= |chunks|
    ensures AbsorbAll(kind, chunks[..n]).reported ==> AbsorbAll(kind, chunks).reported
    ensures kind == Anthropic ==>
              && AbsorbAll(kind, chunks[..n]).cacheRead <= AbsorbAll(kind, chunks).cacheRead
              && AbsorbAll(kind, chunks[..n]).cacheWrite <= AbsorbAll(kind, chunks).cacheWrite
    decreases |chunks|
  {
    if n == |chunks| {
      assert chunks[..n] == chunks;
    } else {
      var m := |chunks| - 1;
      CountersAreKept(kind, chunks[..m], n);
      assert chunks[..m][..n] == chunks[..n];
    }
  }

  // ---- Anthropic's counters ----

  function InputOf(c: Chunk): nat {
    if c.reading.Some? then c.reading.value.input else 0
  }

  function OutputOf(c: Chunk): nat {
    if c.reading.Some? then c.reading.value.output else 0
  }

  function CacheReadOf(c: Chunk): nat {
    if c.reading.Some? then c.reading.value.cacheRead else 0
  }

  function CacheWriteOf(c: Chunk): nat {
    if c.reading.Some? then c.reading.value.cacheWrite else 0
  }

  /** The last of the values that is not zero, or zero. */
  ghost predicate IsLastPositive(values: seq<nat>, n: nat) {
    if n == 0 then forall i :: 0 <= i < |values| ==> values[i] == 0
    else exists i :: 0 <= i < |values| && values[i] == n && forall j :: i < j < |values| ==> values[j] == 0
  }

  /** The largest of the values, or zero. */
  ghost predicate IsLargest(values: seq<nat>, n: nat) {
    (forall i :: 0 <= i < |values| ==> values[i] <= n) && (n == 0 || n in values)
  }

  lemma LastPositiveMore(values: seq<nat>, n: nat, v: nat)
    requires IsLastPositive(values, n)
    ensures IsLastPositive(values + [v], if v > 0 then v else n)
  {
    var more := values + [v];
    assert more[|values|] == v && forall i :: 0 <= i < |values| ==> more[i] == values[i];
    if v == 0 && n > 0 {
      var i :| 0 <= i < |values| && values[i] == n && forall j :: i < j < |values| ==> values[j] == 0;
      assert more[i] == n;
    }
  }

  lemma LargestMore(values: seq<nat>, n: nat, v: nat)
    requires IsLargest(values, n)
    ensures IsLargest(values + [v], if v > n then v else n)
  {
    var more := values + [v];
    assert more[|values|] == v && forall i :: 0 <= i < |values| ==> more[i] == values[i];
    assert n in values ==> n in more;
  }

  function Column(chunks: seq<Chunk>, f: Chunk -> nat): (values: seq<nat>)
    ensures |values| == |chunks| && forall i :: 0 <= i < |chunks| ==> values[i] == f(chunks[i])
  {
    seq(|chunks|, i requires 0 <= i < |chunks| => f(chunks[i]))
  }

  lemma ColumnMore(chunks: seq<Chunk>, f: Chunk -> nat)
    requires chunks != []
    ensures var n := |chunks| - 1; Column(chunks, f) == Column(chunks[..n], f) + [f(chunks[n])]
  {
  }

  /** For Anthropic the headline counters are the last that were not zero, and the cache counters the largest. */
  lemma {:induction false} HeadlinesAreTheLast(chunks: seq<Chunk>)
    ensures var u := AbsorbAll(Anthropic, chunks);
            && IsLastPositive(Column(chunks, InputOf), u.input) && IsLastPositive(Column(chunks, OutputOf), u.output)
            && IsLargest(Column(chunks, CacheReadOf), u.cacheRead)
            && IsLargest(Column(chunks, CacheWriteOf), u.cacheWrite)
  {
    if chunks != [] {
      var n := |chunks| - 1;
      var u := AbsorbAll(Anthropic, chunks[..n]);
      HeadlinesAreTheLast(chunks[..n]);
      ColumnMore(chunks, InputOf);
      ColumnMore(chunks, OutputOf);
      ColumnMore(chunks, CacheReadOf);
      ColumnMore(chunks, CacheWriteOf);
      LastPositiveMore(Column(chunks[..n], InputOf), u.input, InputOf(chunks[n]));
      LastPositiveMore(Column(chunks[..n], OutputOf), u.output, OutputOf(chunks[n]));
      LargestMore(Column(chunks[..n], CacheReadOf), u.cacheRead, CacheReadOf(chunks[n]));
      LargestMore(Column(chunks[..n], CacheWriteOf), u.cacheWrite, CacheWriteOf(chunks[n]));
    }
  }

  predicate ReportsInput(c: Chunk) {
    c.reading.Some? && c.reading.value.inputReported
  }

  predicate ReportsOutput(c: Chunk) {
    c.reading.Some? && c.reading.value.outputReported
  }

  lemma SomeMore(chunks: seq<Chunk>, p: Chunk -> bool)
    requires chunks != []
    ensures var n := |chunks| - 1;
            (exists c :: c in chunks && p(c)) <==> (exists c :: c in chunks[..n] && p(c)) || p(chunks[n])
  {
    var n := |chunks| - 1;
    assert chunks[n] in chunks && forall c :: c in chunks[..n] ==> c in chunks;
    assert forall c :: c in chunks ==> c in chunks[..n] || c == chunks[n];
  }

  /** For Anthropic usage is reported exactly when some chunk reported the input and some chunk the output. */
  lemma {:induction false} ReportedByBoth(chunks: seq<Chunk>)
    ensures var u := AbsorbAll(Anthropic, chunks);
            && (u.inputSeen <==> exists c :: c in chunks && ReportsInput(c))
            && (u.outputSeen <==> exists c :: c in chunks && ReportsOutput(c))
            && (u.reported <==> u.inputSeen && u.outputSeen)
  {
    if chunks != [] {
      var n := |chunks| - 1;
      ReportedByBoth(chunks[..n]);
      SomeMore(chunks, ReportsInput);
      SomeMore(chunks, ReportsOutput);
    }
  }
}
