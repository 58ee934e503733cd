/** The bound on records of settlements without a hold: a sliding window, and no record twice. */
module UnheldRecords {

  const MEMORY := 10_000
  const BURST := 1_000
  const WINDOW := 60_000.0

  type Key = string

  /** How an append ended: clean, durable but reported as failed, or not durable. */
  datatype Append = Clean | Degraded | Failed

  datatype Reply = Shares | Known(degraded: bool) | Limited(wait: real) | Begins

  /**
   * The times in the current window, the appends at work, and the records remembered, oldest first; and as history,
   * the time and the key of every append begun and the key of every record made, in order.
   */
  datatype State = State(
    window: seq<real>,
    inFlight: set<Key>,
    remembered: seq<(Key, bool)>,
    clock: real,
    begun: seq<(real, Key)>,
    made: seq<Key>)

  const INITIAL := State([], {}, [], 0.0, [], [])

  /** The window without what is a whole window old. */
  function Purge(window: seq<real>, now: real): seq<real> {
    if window != [] && now - window[0] >= WINDOW then Purge(window[1..], now) else window
  }

  function Find(remembered: seq<(Key, bool)>, key: Key): (i: nat)
    ensures i <= |remembered|
    ensures i < |remembered| ==> remembered[i].0 == key
    ensures i == |remembered| ==> forall j :: 0 <= j < |remembered| ==> remembered[j].0 != key
  {
    if remembered == [] || remembered[0].0 == key then 0 else
      var i := Find(remembered[1..], key);
      assert forall j :: 0 < j < |remembered| ==> remembered[j] == remembered[1..][j - 1];
      i + 1
  }

  /** What a report is answered. */
  function ReplyTo(s: State, key: Key, now: real): Reply {
    var i := Find(s.remembered, key);
    var window := Purge(s.window, now);
    if key in s.inFlight then Shares
    else if i < |s.remembered| then Known(s.remembered[i].1)
    else if |window| >= BURST then Limited(WINDOW - (now - window[0]))
    else Begins
  }

  function Report(s: State, key: Key, now: real): State {
    match ReplyTo(s, key, now)
    case Shares => s
    case Known(_) => s
    case Limited(_) => s.(window := Purge(s.window, now), clock := now)
    case Begins =>
      s.(window := Purge(s.window, now) + [now], clock := now,
         inFlight := s.inFlight + {key}, begun := s.begun + [(now, key)])
  }

  /** An append ends: a durable one is remembered, and the oldest memory goes when there are too many. */
  function Complete(s: State, key: Key, result: Append): State {
    var done := s.(inFlight := s.inFlight - {key});
    if result == Failed then done else
      var all := s.remembered + [(key, result == Degraded)];
      done.(remembered := if |all| > MEMORY then all[1..] else all, made := s.made + [key])
  }

  datatype Step = Reports(key: Key, now: real) | Completes(key: Key, result: Append)

  /** The clock never goes back, and only an append at work completes. */
  predicate Enabled(s: State, step: Step) {
    match step
    case Reports(_, now) => now >= s.clock
    case Completes(key, _) => key in s.inFlight
  }

  function Apply(s: State, step: Step): State {
    match step
    case Reports(key, now) => Report(s, key, now)
    case Completes(key, result) => Complete(s, key, result)
  }

  ghost predicate IsRun(s: State, steps: seq<Step>, t: State)
    decreases |steps|
  {
    if steps == [] then s == t else Enabled(s, steps[0]) && IsRun(Apply(s, steps[0]), steps[1..], t)
  }

  // ---- The governor's own fields ----

  class Recorder {
    var window: seq<real>
    var inFlight: set<Key>
    var remembered: seq<(Key, bool)>
    ghost var clock: real
    ghost var begun: seq<(real, Key)>
    ghost var made: seq<Key>

    ghost function View(): State
      reads this
    {
      State(window, inFlight, remembered, clock, begun, made)
    }

    constructor ()
      ensures View() == INITIAL
    {
      window, inFlight, remembered := [], {}, [];
      clock, begun, made := 0.0, [], [];
    }

    /** `recordUnheldSettlement` up to its append. */
    method Begin(key: Key, now: real) returns (reply: Reply)
      modifies this
      ensures reply == ReplyTo(old(View()), key, now)
      ensures View() == Report(old(View()), key, now)
    {
      if key in inFlight {
        return Shares;
      }
      var i := Find(remembered, key);
      if i < |remembered| {
        return Known(remembered[i].1);
      }
      ghost var purged := Purge(window, now);
      while |window| > 0 && now - window[0] >= WINDOW
        invariant Purge(window, now) == purged
        invariant unchanged(`inFlight) && unchanged(`remembered)
        invariant unchanged(`begun) && unchanged(`made)
        decreases |window|
      {
        window := window[1..];
      }
      clock := now;
      if |window| >= BURST {
        return Limited(WINDOW - (now - window[0]));
      }
      window := window + [now];
      inFlight := inFlight + {key};
      begun := begun + [(now, key)];
      return Begins;
    }

    method End(key: Key, result: Append)
      requires key in inFlight
      modifies this
      ensures View() == Complete(old(View()), key, result)
    {
      inFlight := inFlight - {key};
      if result != Failed {
        remembered := remembered + [(key, result == Degraded)];
        made := made + [key];
        if |remembered| > MEMORY {
          remembered := remembered[1..];
        }
      }
    }
  }

  // ---- The sliding window ----

  /** The window is the end of the history, in order, and what left it was a whole window old. */
  ghost predicate WindowGood(s: State) {
    var n := |s.begun| - |s.window|;
    && n >= 0
    && (forall i :: 0 <= i < |s.window| ==> s.window[i] == s.begun[n + i].0)
    && (forall i, j :: 0 <= i <= j < |s.begun| ==> s.begun[i].0 <= s.begun[j].0)
    && (forall i :: 0 <= i < |s.begun| ==> s.begun[i].0 <= s.clock)
    && (forall i :: 0 <= i < n ==> s.clock - s.begun[i].0 >= WINDOW)
  }

  /** An append and the one `BURST` appends later are a whole window apart. */
  ghost predicate Spaced(s: State) {
    forall i :: 0 <= i && i + BURST < |s.begun| ==> s.begun[i + BURST].0 - s.begun[i].0 >= WINDOW
  }

  lemma {:induction false} PurgeIsSuffix(window: seq<real>, now: real) returns (k: nat)
    ensures k <= |window| && Purge(window, now) == window[k..]
    ensures forall i :: 0 <= i < k ==> now - window[i] >= WINDOW
  {
    if window != [] && now - window[0] >= WINDOW {
      var j := PurgeIsSuffix(window[1..], now);
      k := j + 1;
      assert forall i :: 0 < i < k ==> window[i] == window[1..][i - 1];
    } else {
      k := 0;
    }
  }

  /** After the purge, whatever is not in the window is a whole window old. */
  lemma PurgedAreOld(s: State, now: real) returns (k: nat)
    requires WindowGood(s) && now >= s.clock
    ensures k <= |s.window| && Purge(s.window, now) == s.window[k..]
    ensures forall i :: 0 <= i < |s.begun| - |s.window| + k ==> now - s.begun[i].0 >= WINDOW
  {
    k := PurgeIsSuffix(s.window, now);
    var n := |s.begun| - |s.window|;
    forall i | 0 <= i < n + k
      ensures now - s.begun[i].0 >= WINDOW
    {
      if i >= n {
        var j := i - n;
        assert s.window[j] == s.begun[n + j].0;
      }
    }
  }

  lemma PurgeKeepsWindow(s: State, now: real)
    requires WindowGood(s) && now >= s.clock
    ensures WindowGood(s.(window := Purge(s.window, now), clock := now))
  {
    var k := PurgedAreOld(s, now);
  }

  lemma PushKeepsWindow(s: State, key: Key, now: real)
    requires WindowGood(s) && s.clock == now
    ensures WindowGood(s.(window := s.window + [now], begun := s.begun + [(now, key)]))
  {
  }

  lemma PushKeepsSpaced(s: State, key: Key, now: real)
    requires WindowGood(s) && Spaced(s) && s.clock == now && |s.window| < BURST
    ensures Spaced(s.(begun := s.begun + [(now, key)]))
  {
    var t := s.(begun := s.begun + [(now, key)]);
    forall i | 0 <= i && i + BURST < |t.begun|
      ensures t.begun[i + BURST].0 - t.begun[i].0 >= WINDOW
    {
      if i + BURST == |s.begun| {
        assert i < |s.begun| - |s.window|;
      }
    }
  }

  lemma ReportKeepsWindow(s: State, key: Key, now: real)
    requires WindowGood(s) && Spaced(s) && now >= s.clock
    ensures WindowGood(Report(s, key, now)) && Spaced(Report(s, key, now))
  {
    var purged := s.(window := Purge(s.window, now), clock := now);
    PurgeKeepsWindow(s, now);
    if ReplyTo(s, key, now).Begins? {
      PushKeepsWindow(purged, key, now);
      PushKeepsSpaced(purged, key, now);
    }
  }

  // ---- No record twice ----

  /** The memory is the end of the records made, at most `MEMORY` of them. */
  ghost predicate MemoryGood(s: State) {
    var n := |s.made| - |s.remembered|;
    && n >= 0 && |s.remembered| <= MEMORY
    && (n > 0 ==> |s.remembered| == MEMORY)
    && forall i :: 0 <= i < |s.remembered| ==> s.remembered[i].0 == s.made[n + i]
  }

  ghost predicate Good(s: State) {
    WindowGood(s) && Spaced(s) && MemoryGood(s)
  }

  lemma StepKeepsGood(s: State, step: Step)
    requires Good(s) && Enabled(s, step)
    ensures Good(Apply(s, step))
  {
    match step
    case Reports(key, now) => ReportKeepsGood(s, key, now);
    case Completes(key, result) => CompleteKeepsGood(s, key, result);
  }

  lemma ReportKeepsGood(s: State, key: Key, now: real)
    requires Good(s) && now >= s.clock
    ensures Good(Report(s, key, now))
  {
    ReportKeepsWindow(s, key, now);
    assert Report(s, key, now).remembered == s.remembered && Report(s, key, now).made == s.made;
  }

  lemma CompleteKeepsGood(s: State, key: Key, result: Append)
    requires Good(s)
    ensures Good(Complete(s, key, result))
  {
    CompleteKeepsMemory(s, key, result);
    var t := Complete(s, key, result);
    assert t.window == s.window && t.begun == s.begun && t.clock == s.clock;
  }

  lemma CompleteKeepsMemory(s: State, key: Key, result: Append)
    requires MemoryGood(s)
    ensures MemoryGood(Complete(s, key, result))
  {
    if result != Failed {
      var all, made := s.remembered + [(key, result == Degraded)], s.made + [key];
      var n := |s.made| - |s.remembered|;
      forall i | 0 <= i < |all|
        ensures all[i].0 == made[n + i]
      {
        assert i < |s.remembered| ==> s.remembered[i].0 == s.made[n + i];
      }
      assert forall i :: 0 <= i < |all| - 1 ==> all[1..][i] == all[i + 1];
    }
  }

  lemma {:induction false} RunKeepsGood(s: State, steps: seq<Step>, t: State)
    requires Good(s) && IsRun(s, steps, t)
    ensures Good(t)
    decreases |steps|
  {
    if steps != [] {
      StepKeepsGood(s, steps[0]);
      RunKeepsGood(Apply(s, steps[0]), steps[1..], t);
    }
  }

  /** The appends begun in a half-open interval of one window. */
  ghost function Within(s: State, from: real): set<nat> {
    set i: nat | i < |s.begun| && from <= s.begun[i].0 < from + WINDOW
  }

  lemma {:induction false} RangeSize(lo: nat, n: nat, members: set<nat>)
    requires forall i :: i in members ==> lo <= i < lo + n
    ensures |members| <= n
    decreases n
  {
    if n == 0 {
      assert members == {};
    } else {
      var last := lo + n - 1;
      RangeSize(lo, n - 1, members - {last});
      assert members <= (members - {last}) + {last};
      assert |members| <= |members - {last}| + 1;
    }
  }

  lemma {:induction false} Least(members: set<nat>) returns (m: nat)
    requires members != {}
    ensures m in members && forall i :: i in members ==> m <= i
    decreases |members|
  {
    var x :| x in members;
    var rest := members - {x};
    if rest == {} {
      m := x;
      assert members == {x};
    } else {
      var y := Least(rest);
      m := if x <= y then x else y;
      assert forall i :: i in members ==> i == x || i in rest;
    }
  }

  /** In every run, no half-open interval of one window sees more than `BURST` new appends. */
  lemma AtMostBurstPerWindow(steps: seq<Step>, t: State, from: real)
    requires IsRun(INITIAL, steps, t)
    ensures |Within(t, from)| <= BURST
  {
    RunKeepsGood(INITIAL, steps, t);
    var inside := Within(t, from);
    if inside != {} {
      var m := Least(inside);
      assert forall i :: i in inside && m + BURST < |t.begun| && i >= m + BURST ==>
                           t.begun[m + BURST].0 <= t.begun[i].0;
      RangeSize(m, BURST, inside);
    }
  }

  /**
   * In every run, a report begins an append only when no append of the same key is at work and every record of that
   * key is followed by at least `MEMORY` newer ones.
   */
  lemma NoRecordTwice(steps: seq<Step>, t: State, key: Key, now: real)
    requires IsRun(INITIAL, steps, t) && ReplyTo(t, key, now).Begins?
    ensures key !in t.inFlight
    ensures forall i :: 0 <= i < |t.made| && t.made[i] == key ==> |t.made| - i > MEMORY
  {
    RunKeepsGood(INITIAL, steps, t);
    var n := |t.made| - |t.remembered|;
    assert Find(t.remembered, key) == |t.remembered|;
    assert forall i :: n <= i < |t.made| ==> t.remembered[i - n].0 == t.made[i];
  }

  // ---- The simple form: a recorder that forgets nothing ----

  /** Everything that happened: the appends begun, those at work, and the durable records, oldest first. */
  datatype Past = Past(begun: seq<(real, Key)>, atWork: set<Key>, durable: seq<(Key, bool)>)

  /** Among the last 10,000 durable records there is one of this key, with this mark. */
  predicate Recent(p: Past, key: Key, degraded: bool) {
    exists i :: 0 <= i < |p.durable| && i >= |p.durable| - 10_000 && p.durable[i] == (key, degraded)
  }

  /** The 1,000th last append began less than 60 seconds ago. */
  predicate Crowded(p: Past, now: real) {
    |p.begun| >= 1_000 && now - p.begun[|p.begun| - 1_000].0 < 60_000.0
  }

  /** The reply by the whole past. */
  predicate Answers(p: Past, key: Key, now: real, reply: Reply) {
    if key in p.atWork then reply == Shares
    else if Recent(p, key, true) || Recent(p, key, false) then reply.Known? && Recent(p, key, reply.degraded)
    else if Crowded(p, now) then reply == Limited(60_000.0 - (now - p.begun[|p.begun| - 1_000].0))
    else reply == Begins
  }

  function Since(steps: seq<Step>): Past {
    if steps == [] then Past([], {}, []) else
      var p := Since(steps[..|steps| - 1]);
      match steps[|steps| - 1]
      case Reports(key, now) =>
        if Answers(p, key, now, Begins) then p.(begun := p.begun + [(now, key)], atWork := p.atWork + {key}) else p
      case Completes(key, result) =>
        p.(atWork := p.atWork - {key},
           durable := p.durable + if result == Failed then [] else [(key, result == Degraded)])
  }

  /** The window never holds more than `BURST` times, and the memory is the end of the durable records. */
  ghost predicate Couples(s: State, p: Past) {
    && Good(s) && |s.window| <= BURST
    && s.begun == p.begun && s.inFlight == p.atWork
    && |s.remembered| <= |p.durable| && s.remembered == p.durable[|p.durable| - |s.remembered|..]
    && (|s.remembered| == |p.durable| || |s.remembered| == MEMORY)
  }

  /** What the purge leaves is younger than a window. */
  lemma {:induction false} PurgedIsYoung(window: seq<real>, now: real)
    ensures Purge(window, now) != [] ==> now - Purge(window, now)[0] < WINDOW
  {
    if window != [] && now - window[0] >= WINDOW {
      PurgedIsYoung(window[1..], now);
    }
  }

  /** The purged window is full exactly if the 1,000th last append is young, and begins with it. */
  lemma FullIffCrowded(s: State, p: Past, now: real)
    requires Couples(s, p) && now >= s.clock
    ensures |Purge(s.window, now)| >= BURST <==> Crowded(p, now)
    ensures Crowded(p, now) ==> Purge(s.window, now)[0] == p.begun[|p.begun| - 1_000].0
    ensures |Purge(s.window, now)| <= BURST
  {
    var k := PurgedAreOld(s, now);
    PurgedIsYoung(s.window, now);
    var window, n := Purge(s.window, now), |s.begun| - |s.window|;
    if window != [] {
      assert window[0] == s.window[k] == s.begun[n + k].0;
    }
  }

  /** The memory knows the key exactly if it is among the last durable records. */
  lemma KnownIffRecent(s: State, p: Past, key: Key)
    requires Couples(s, p)
    ensures var i := Find(s.remembered, key);
            if i < |s.remembered| then Recent(p, key, s.remembered[i].1)
            else !Recent(p, key, true) && !Recent(p, key, false)
  {
    var i, n := Find(s.remembered, key), |p.durable| - |s.remembered|;
    assert forall j :: 0 <= j < |s.remembered| ==> s.remembered[j] == p.durable[n + j];
    assert forall j :: n <= j < |p.durable| ==> p.durable[j] == s.remembered[j - n];
  }

  /** The memory's answer for a key, and the window's for a time, are those of the past. */
  ghost predicate SameAnswers(s: State, p: Past, key: Key, now: real) {
    var i, window := Find(s.remembered, key), Purge(s.window, now);
    && s.inFlight == p.atWork
    && (if i < |s.remembered| then Recent(p, key, s.remembered[i].1)
        else !Recent(p, key, true) && !Recent(p, key, false))
    && (|window| >= BURST <==> Crowded(p, now))
    && (Crowded(p, now) ==> window[0] == p.begun[|p.begun| - 1_000].0)
  }

  lemma SameAnswersAgree(s: State, p: Past, key: Key, now: real)
    requires SameAnswers(s, p, key, now)
    ensures Answers(p, key, now, ReplyTo(s, key, now))
    ensures Answers(p, key, now, Begins) <==> ReplyTo(s, key, now) == Begins
  {
  }

  lemma RepliesAgree(s: State, p: Past, key: Key, now: real)
    requires Couples(s, p) && now >= s.clock
    ensures Answers(p, key, now, ReplyTo(s, key, now))
    ensures Answers(p, key, now, Begins) <==> ReplyTo(s, key, now) == Begins
  {
    KnownIffRecent(s, p, key);
    FullIffCrowded(s, p, now);
    SameAnswersAgree(s, p, key, now);
  }

  lemma ReportKeepsCouples(s: State, p: Past, key: Key, now: real)
    requires Couples(s, p) && now >= s.clock
    ensures Couples(Report(s, key, now),
                    if Answers(p, key, now, Begins)
                    then p.(begun := p.begun + [(now, key)], atWork := p.atWork + {key}) else p)
  {
    RepliesAgree(s, p, key, now);
    FullIffCrowded(s, p, now);
    ReportKeepsGood(s, key, now);
  }

  lemma EndGrows<T>(all: seq<T>, end: seq<T>, x: T)
    requires |end| <= |all| && end == all[|all| - |end|..]
    ensures end + [x] == (all + [x])[|all| - |end|..]
    ensures (end + [x])[1..] == (all + [x])[|all| - |end| + 1..]
  {
  }

  lemma CompleteKeepsCouples(s: State, p: Past, key: Key, result: Append)
    requires Couples(s, p)
    ensures Couples(Complete(s, key, result),
                    p.(atWork := p.atWork - {key},
                       durable := p.durable + if result == Failed then [] else [(key, result == Degraded)]))
  {
    CompleteKeepsGood(s, key, result);
    if result == Failed {
      assert p.durable + [] == p.durable;
    } else {
      EndGrows(p.durable, s.remembered, (key, result == Degraded));
    }
  }

  lemma RunSplits(s: State, steps: seq<Step>, t: State) returns (u: State)
    requires steps != [] && IsRun(s, steps, t)
    ensures var n := |steps| - 1; IsRun(s, steps[..n], u) && Enabled(u, steps[n]) && t == Apply(u, steps[n])
    decreases |steps|
  {
    if |steps| == 1 {
      u := s;
    } else {
      var rest := steps[1..];
      u := RunSplits(Apply(s, steps[0]), rest, t);
      assert rest[..|rest| - 1] == steps[..|steps| - 1][1..];
    }
  }

  lemma {:induction false} RunCouples(steps: seq<Step>, t: State)
    requires IsRun(INITIAL, steps, t)
    ensures Couples(t, Since(steps))
    decreases |steps|
  {
    if steps != [] {
      var n := |steps| - 1;
      var s := RunSplits(INITIAL, steps, t);
      RunCouples(steps[..n], s);
      match steps[n]
      case Reports(key, now) => ReportKeepsCouples(s, Since(steps[..n]), key, now);
      case Completes(key, result) => CompleteKeepsCouples(s, Since(steps[..n]), key, result);
    }
  }

  /** After every run the purged window and the bounded memory reply as the whole past would have. */
  lemma RepliesByTheWholePast(steps: seq<Step>, t: State, key: Key, now: real)
    requires IsRun(INITIAL, steps, t) && now >= t.clock
    ensures Answers(Since(steps), key, now, ReplyTo(t, key, now))
  {
    RunCouples(steps, t);
    RepliesAgree(t, Since(steps), key, now);
  }

  lemma NothingBegunLater(steps: seq<Step>, t: State)
    requires IsRun(INITIAL, steps, t)
    ensures forall i :: 0 <= i < |Since(steps).begun| ==> Since(steps).begun[i].0 <= t.clock
  {
    RunCouples(steps, t);
  }

  lemma LimitedUntil(p: Past, key: Key, now: real, later: real, reply: Reply, reply': Reply)
    requires Answers(p, key, now, reply) && Answers(p, key, later, reply') && reply.Limited? && now <= later
    requires forall i :: 0 <= i < |p.begun| ==> p.begun[i].0 <= now
    ensures 0.0 < reply.wait <= 60_000.0
    ensures reply' == if later < now + reply.wait then Limited(reply.wait - (later - now)) else Begins
  {
  }

  /** The wait a limited report is told is exact: any earlier it is limited still, and then it begins. */
  lemma TheWaitIsExact(steps: seq<Step>, t: State, key: Key, now: real, later: real)
    requires IsRun(INITIAL, steps, t) && t.clock <= now <= later && ReplyTo(t, key, now).Limited?
    ensures 0.0 < ReplyTo(t, key, now).wait <= 60_000.0
    ensures ReplyTo(t, key, later)
         == if later < now + ReplyTo(t, key, now).wait then Limited(ReplyTo(t, key, now).wait - (later - now))
            else Begins
  {
    RepliesByTheWholePast(steps, t, key, now);
    RepliesByTheWholePast(steps, t, key, later);
    NothingBegunLater(steps, t);
    LimitedUntil(Since(steps), key, now, later, ReplyTo(t, key, now), ReplyTo(t, key, later));
  }
}
