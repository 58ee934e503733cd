/** The governed function-calling loop of Google's SDK. */
module Afc {
  import opened Common

  datatype Result<+T> = Ok(value: T) | Throws

  /** An item of a request's contents. */
  datatype Item =
    | Obj(id: nat, hasParts: bool, hasFunction: bool) // an object: does it hold a parts array, a function part?
    | Str(s: string)
    | Nothing                                         // null or undefined
    | Other                                           // any other primitive
    | TextPart(s: string)                             // the part made of a string
    | UserTurn(parts: seq<Item>)                      // the turn made of loose parts

  datatype Contents = Missing | One(item: Item) | Many(items: seq<Item>)

  predicate IsContent(v: Item) {
    (v.Obj? && v.hasParts) || v.UserTurn?
  }

  predicate HasFunctionPart(v: Item) {
    v.Obj? && v.hasFunction
  }

  function ToPart(v: Item): Result<Item> {
    match v
    case Nothing => Throws
    case Other => Throws
    case Str(s) => Ok(TextPart(s))
    case _ => Ok(v)
  }

  function ToParts(items: seq<Item>): Result<seq<Item>> {
    if items == [] then Ok([]) else
      var p, rest := ToPart(items[0]), ToParts(items[1..]);
      if p.Ok? && rest.Ok? then Ok([p.value] + rest.value) else Throws
  }

  predicate AllContents(items: seq<Item>) {
    forall i :: 0 <= i < |items| ==> IsContent(items[i])
  }

  /** Loose parts: no content among them, and no function part outside one. */
  predicate AllLoose(items: seq<Item>) {
    forall i :: 0 <= i < |items| ==> !IsContent(items[i]) && !HasFunctionPart(items[i])
  }

  /** One loose item, or a run of them, becomes a user turn. */
  function OneTurn(items: seq<Item>): Result<seq<Item>> {
    var parts := ToParts(items);
    if parts.Ok? then Ok([UserTurn(parts.value)]) else Throws
  }

  /** The contents as a list of turns, as the SDK normalises them. */
  function Normalise(contents: Contents): Result<seq<Item>> {
    match contents
    case Missing => Throws
    case One(item) =>
      if item == Nothing || HasFunctionPart(item) then Throws
      else if IsContent(item) then Ok([item]) else OneTurn([item])
    case Many(items) =>
      if items == [] then Throws
      else if AllContents(items) then Ok(items)
      else if AllLoose(items) then OneTurn(items)
      else Throws
  }

  /** `toContents`: one pass over the items, contents and loose parts never mixed. */
  method ToContents(contents: Contents) returns (r: Result<seq<Item>>)
    ensures r == Normalise(contents)
  {
    match contents
    case Missing =>
      return Throws;
    case One(item) =>
      if item == Nothing || HasFunctionPart(item) {
        return Throws;
      }
      return if IsContent(item) then Ok([item]) else OneTurn([item]);
    case Many(items) =>
      if items == [] {
        return Throws;
      }
      var isContentArray := IsContent(items[0]);
      var result: seq<Item>, accumulated: seq<Item> := [], [];
      var i := 0;
      while i < |items|
        invariant 0 <= i <= |items|
        invariant if isContentArray then AllContents(items[..i]) && result == items[..i] && accumulated == []
                  else AllLoose(items[..i]) && accumulated == items[..i] && result == []
      {
        assert items[..i + 1] == items[..i] + [items[i]];
        if IsContent(items[i]) != isContentArray {
          return Throws;
        }
        if isContentArray {
          result := result + [items[i]];
        } else if HasFunctionPart(items[i]) {
          return Throws;
        } else {
          accumulated := accumulated + [items[i]];
        }
        i := i + 1;
      }
      assert items[..|items|] == items;
      return if isContentArray then Ok(result) else OneTurn(accumulated);
  }

  lemma NormaliseGivesContents(contents: Contents)
    requires Normalise(contents).Ok?
    ensures Normalise(contents).value != [] && AllContents(Normalise(contents).value)
  {
  }

  /** Normalising again changes nothing. */
  lemma {:induction false} NormaliseIsIdempotent(contents: Contents)
    requires Normalise(contents).Ok?
    ensures Normalise(Many(Normalise(contents).value)) == Normalise(contents)
  {
    NormaliseGivesContents(contents);
  }

  /** The part that a loose item becomes. */
  predicate BecomesPart(item: Item, part: Item) {
    || (item.Str? && part == TextPart(item.s))
    || ((item.Obj? || item.TextPart? || item.UserTurn?) && part == item)
  }

  /** Whole turns stay as they are; loose items, in their order, become the parts of one user turn. */
  ghost predicate IsTurns(items: seq<Item>, r: seq<Item>) {
    && items != []
    && (|| (r == items && forall i :: 0 <= i < |items| ==> items[i].UserTurn? || (items[i].Obj? && items[i].hasParts))
        || (&& |r| == 1 && r[0].UserTurn? && |r[0].parts| == |items|
            && forall i :: 0 <= i < |items| ==>
                 && BecomesPart(items[i], r[0].parts[i]) && !items[i].UserTurn?
                 && (items[i].Obj? ==> !items[i].hasParts && !items[i].hasFunction)))
  }

  lemma {:induction false} PartsInOrder(items: seq<Item>)
    ensures ToParts(items).Ok? <==> forall i :: 0 <= i < |items| ==> items[i] != Nothing && items[i] != Other
    ensures ToParts(items).Ok? ==>
              && |ToParts(items).value| == |items|
              && forall i :: 0 <= i < |items| ==> BecomesPart(items[i], ToParts(items).value[i])
  {
    if items != [] {
      var rest := items[1..];
      PartsInOrder(rest);
      assert forall i :: 1 <= i < |items| ==> items[i] == rest[i - 1];
      assert forall i :: 0 <= i < |rest| ==> rest[i] == items[i + 1];
    }
  }

  /** The one user turn made of loose items. */
  lemma OneTurnIff(items: seq<Item>, r: seq<Item>)
    ensures OneTurn(items) == Ok(r) <==>
              && |r| == 1 && r[0].UserTurn? && |r[0].parts| == |items|
              && forall i :: 0 <= i < |items| ==> BecomesPart(items[i], r[0].parts[i])
  {
    PartsInOrder(items);
    if |r| == 1 && r[0].UserTurn? && |r[0].parts| == |items| &&
       forall i :: 0 <= i < |items| ==> BecomesPart(items[i], r[0].parts[i])
    {
      assert ToParts(items).Ok? && ToParts(items).value == r[0].parts;
      assert r == [UserTurn(r[0].parts)];
    }
  }

  /** What the contents are normalised to, and when they are refused. */
  lemma NormaliseIff(contents: Contents, r: seq<Item>)
    ensures Normalise(contents) == Ok(r) <==>
              match contents
              case Missing => false
              case One(item) => !(item.Obj? && item.hasFunction) && IsTurns([item], r)
              case Many(items) => IsTurns(items, r)
  {
    match contents
    case Missing =>
    case One(item) =>
      assert [item][0] == item;
      OneTurnIff([item], r);
    case Many(items) =>
      OneTurnIff(items, r);
  }

  // ---- The loop ----

  /** What one round brings: the model's answer, whether it calls functions, and what the tools give back. */
  datatype Round =
    | Fails
    | Answers(receipt: Option<nat>, calls: bool, model: Item, tools: Option<seq<Item>>)

  /** `maximumRemoteCalls`: any number of the language, infinity and NaN included. */
  datatype Limit = Finite(value: real) | Unlimited | NotANumber

  /** The loop's guard. */
  predicate Below(n: nat, max: Limit) {
    match max
    case Finite(value) => n as real < value
    case Unlimited => true
    case NotANumber => false
  }

  /** How the loop ended, or that it waits for the answer to one more round. */
  datatype End = Returned | Threw | Waiting

  datatype Outcome = Outcome(
    end: End,
    sent: seq<Contents>,       // what each answered round was sent
    history: seq<Item>,        // what the response carries, when history is kept
    receipts: seq<nat>)

  /** The turns of the first `n` rounds: the model's, then the tools'. */
  function Turns(rounds: seq<Round>, n: nat): (ts: seq<Item>)
    requires n <= |rounds|
    ensures |ts| == 2 * n
  {
    if n == 0 then [] else
      Turns(rounds, n - 1) + [ModelTurn(rounds[n - 1]), ToolTurn(rounds[n - 1])]
  }

  function ModelTurn(r: Round): Item {
    if r.Answers? then r.model else Nothing
  }

  function ToolTurn(r: Round): Item {
    UserTurn(if r.Answers? && r.tools.Some? then r.tools.value else [])
  }

  function Receipts(rounds: seq<Round>, n: nat): seq<nat>
    requires n <= |rounds|
  {
    if n == 0 then [] else
      Receipts(rounds, n - 1)
      + if rounds[n - 1].Answers? && rounds[n - 1].receipt.Some? then [rounds[n - 1].receipt.value] else []
  }

  predicate HasReceipt(r: Round) {
    r.Answers? && r.receipt.Some?
  }

  /** How many of the first `n` rounds brought a receipt. */
  function Billed(rounds: seq<Round>, n: nat): nat
    requires n <= |rounds|
  {
    if n == 0 then 0 else Billed(rounds, n - 1) + if HasReceipt(rounds[n - 1]) then 1 else 0
  }

  /** Every receipt stands behind those of the rounds before it, and there is no other. */
  lemma {:induction false} ReceiptsInOrder(rounds: seq<Round>, n: nat)
    requires n <= |rounds|
    ensures |Receipts(rounds, n)| == Billed(rounds, n)
    ensures forall i :: 0 <= i < n && HasReceipt(rounds[i]) ==>
              && Billed(rounds, i) < |Receipts(rounds, n)|
              && Receipts(rounds, n)[Billed(rounds, i)] == rounds[i].receipt.value
  {
    if n > 0 {
      ReceiptsInOrder(rounds, n - 1);
    }
  }

  function Ceiling(x: real): int {
    -((-x).Floor)
  }

  /** Every model turn that calls functions is a content. */
  predicate WellFormedRounds(rounds: seq<Round>) {
    forall i :: 0 <= i < |rounds| && rounds[i].Answers? && rounds[i].calls ==> IsContent(rounds[i].model)
  }

  /** The first `n` rounds all called functions, and their tools answered. */
  ghost predicate AllCalled(rounds: seq<Round>, n: nat)
    requires n <= |rounds|
  {
    forall i :: 0 <= i < n ==> rounds[i].Answers? && rounds[i].calls && rounds[i].tools.Some?
  }

  /** What the `k`-th round is sent: the contents as given, then the normalised start and all turns so far. */
  function SentTo(contents: Contents, start: seq<Item>, rounds: seq<Round>, k: nat): Contents
    requires k <= |rounds|
  {
    if k == 0 then contents else Many(start + Turns(rounds, k))
  }

  lemma ContentsAndPair(before: seq<Item>, model: Item, tool: Item)
    ensures AllContents(before + [model, tool]) <==> AllContents(before) && IsContent(model) && IsContent(tool)
  {
    var ts := before + [model, tool];
    assert ts[|before|] == model && ts[|before| + 1] == tool;
    assert forall i :: 0 <= i < |before| ==> ts[i] == before[i];
  }

  lemma {:induction false} TurnsAreContents(rounds: seq<Round>, n: nat)
    requires n <= |rounds|
    ensures AllContents(Turns(rounds, n)) <==> forall i :: 0 <= i < n ==> IsContent(ModelTurn(rounds[i]))
    decreases n
  {
    if n > 0 {
      TurnsAreContents(rounds, n - 1);
      ContentsAndPair(Turns(rounds, n - 1), ModelTurn(rounds[n - 1]), ToolTurn(rounds[n - 1]));
    }
  }

  /** What was sent normalises to itself before another turn is added: exactly if its model turns are contents. */
  lemma SentNormalises(contents: Contents, start: seq<Item>, rounds: seq<Round>, k: nat)
    requires Normalise(contents) == Ok(start) && k <= |rounds|
    ensures Normalise(SentTo(contents, start, rounds, k))
         == if forall i :: 0 <= i < k ==> IsContent(ModelTurn(rounds[i])) then Ok(start + Turns(rounds, k)) else Throws
  {
    NormaliseGivesContents(contents);
    TurnsAreContents(rounds, k);
    var ts := Turns(rounds, k);
    var all := start + ts;
    assert forall i :: 0 <= i < |start| ==> all[i] == start[i];
    assert forall i :: 0 <= i < |ts| ==> all[|start| + i] == ts[i];
    assert AllContents(all) <==> AllContents(ts);
    assert !IsContent(start[0]) || !AllLoose(all);
    if k == 0 {
      assert all == start;
    }
  }

  lemma CeilingAbove(n: nat, max: real)
    requires n as real < max
    ensures n + 1 <= Ceiling(max)
  {
  }

  /** Every round so far was sent the start and every turn before it. */
  ghost predicate AllSent(contents: Contents, start: seq<Item>, rounds: seq<Round>, sent: seq<Contents>) {
    |sent| <= |rounds| && forall k :: 0 <= k < |sent| ==> sent[k] == SentTo(contents, start, rounds, k)
  }

  /** The start, followed by the turns of the first `n` rounds where history is kept. */
  function Kept(start: seq<Item>, rounds: seq<Round>, keepHistory: bool, n: nat): seq<Item>
    requires n <= |rounds|
  {
    start + if keepHistory then Turns(rounds, n) else []
  }

  /** Of `m` rounds sent, those whose turns were added: all, but for a last one that called no function. */
  function Added(rounds: seq<Round>, m: nat): (n: nat)
    requires m <= |rounds|
    ensures n <= m
  {
    if m == 0 || (rounds[m - 1].Answers? && rounds[m - 1].calls) then m else m - 1
  }

  /** The model turns of the first `n` rounds are contents. */
  ghost predicate ContentsBefore(rounds: seq<Round>, n: nat)
    requires n <= |rounds|
  {
    forall i :: 0 <= i < n ==> IsContent(ModelTurn(rounds[i]))
  }

  /** How a round ends the loop. */
  datatype Ending = GoesOn | Stops | Broken

  /** What round `n` does to the loop: it fails, calls nothing, or is added to turns that all normalise. */
  ghost function EndOf(rounds: seq<Round>, n: nat): Ending
    requires n < |rounds|
  {
    var r := rounds[n];
    if r.Fails? then Broken
    else if !r.calls then Stops
    else if r.tools.None? || !ContentsBefore(rounds, n) then Broken
    else GoesOn
  }

  ghost predicate GoneOn(rounds: seq<Round>, n: nat) {
    n <= |rounds| && forall i :: 0 <= i < n ==> EndOf(rounds, i) == GoesOn
  }

  /** The loop ended so after `m` rounds: all before the last went on, and the last or the limit ended it. */
  ghost predicate EndsAs(max: Limit, rounds: seq<Round>, m: nat, end: End) {
    && m <= |rounds| && (m > 0 ==> Below(m - 1, max) && GoneOn(rounds, m - 1))
    && match end
       case Returned => (m > 0 && EndOf(rounds, m - 1) == Stops) || (GoneOn(rounds, m) && !Below(m, max))
       case Threw => m > 0 && EndOf(rounds, m - 1) == Broken
       case Waiting => GoneOn(rounds, m) && m == |rounds| && Below(m, max)
  }

  /** Where the loop stands before round `n`. */
  ghost predicate Stands(contents: Contents, start: seq<Item>, rounds: seq<Round>, keepHistory: bool, n: nat,
                         current: Contents, history: seq<Item>, sent: seq<Contents>, receipts: seq<nat>) {
    && n <= |rounds| && |sent| == n && AllSent(contents, start, rounds, sent) && AllCalled(rounds, n)
    && current == SentTo(contents, start, rounds, n)
    && history == Kept(start, rounds, keepHistory, n)
    && receipts == Receipts(rounds, n)
  }

  /** One round's pair of turns, added. */
  lemma PairAdded(start: seq<Item>, rounds: seq<Round>, keepHistory: bool, n: nat, contents: Contents)
    requires n < |rounds| && rounds[n].Answers? && rounds[n].tools.Some?
    ensures var pair := [rounds[n].model, UserTurn(rounds[n].tools.value)];
            && SentTo(contents, start, rounds, n + 1) == Many(start + Turns(rounds, n) + pair)
            && Kept(start, rounds, keepHistory, n + 1)
            == Kept(start, rounds, keepHistory, n) + (if keepHistory then pair else [])
  {
    var pair := [rounds[n].model, UserTurn(rounds[n].tools.value)];
    assert start + Turns(rounds, n) + pair == start + (Turns(rounds, n) + pair);
  }

  lemma SentOneMore(contents: Contents, start: seq<Item>, rounds: seq<Round>, sent: seq<Contents>, current: Contents)
    requires |sent| < |rounds| && AllSent(contents, start, rounds, sent)
    requires current == SentTo(contents, start, rounds, |sent|)
    ensures AllSent(contents, start, rounds, sent + [current])
  {
  }

  /** The items of what a round was sent, normalised. */
  function Base(start: seq<Item>, sent: seq<Contents>, k: nat): seq<Item>
    requires k < |sent|
  {
    if k > 0 && sent[k].Many? then sent[k].items else start
  }

  /** Each request after the first is the one before it, the model's turn and the tools' turn. */
  ghost predicate Chained(contents: Contents, start: seq<Item>, rounds: seq<Round>, sent: seq<Contents>) {
    && |sent| <= |rounds| && (sent != [] ==> sent[0] == contents)
    && forall k :: 0 < k < |sent| ==>
         && rounds[k - 1].Answers? && rounds[k - 1].tools.Some?
         && sent[k] == Many(Base(start, sent, k - 1) + [rounds[k - 1].model, UserTurn(rounds[k - 1].tools.value)])
  }

  lemma SentIsChained(contents: Contents, start: seq<Item>, rounds: seq<Round>, sent: seq<Contents>)
    requires AllSent(contents, start, rounds, sent) && (|sent| > 0 ==> AllCalled(rounds, |sent| - 1))
    ensures Chained(contents, start, rounds, sent)
  {
    forall k | 0 < k < |sent|
      ensures rounds[k - 1].Answers? && rounds[k - 1].tools.Some?
      ensures sent[k] == Many(Base(start, sent, k - 1) + [rounds[k - 1].model, UserTurn(rounds[k - 1].tools.value)])
    {
      PairAdded(start, rounds, true, k - 1, contents);
      assert sent[k - 1] == SentTo(contents, start, rounds, k - 1);
      assert start + [] == start;
    }
  }

  /** History is what the last round was sent, and that round's pair if it called functions; or, not kept, the start. */
  ghost predicate Recorded(start: seq<Item>, rounds: seq<Round>, keepHistory: bool, sent: seq<Contents>,
                           history: seq<Item>)
  {
    if !keepHistory || sent == [] then history == start else
      && |sent| <= |rounds|
      && var last, base := rounds[|sent| - 1], Base(start, sent, |sent| - 1);
      && last.Answers?
      && if last.calls then last.tools.Some? && history == base + [last.model, UserTurn(last.tools.value)]
         else history == base
  }

  lemma HistoryIsRecorded(contents: Contents, start: seq<Item>, rounds: seq<Round>, keepHistory: bool,
                          sent: seq<Contents>)
    requires AllSent(contents, start, rounds, sent)
    requires sent != [] ==> rounds[|sent| - 1].Answers?
    requires sent != [] && rounds[|sent| - 1].calls ==> rounds[|sent| - 1].tools.Some?
    ensures Recorded(start, rounds, keepHistory, sent, Kept(start, rounds, keepHistory, Added(rounds, |sent|)))
  {
    assert start + [] == start;
    if sent != [] {
      var n := |sent| - 1;
      assert sent[n] == SentTo(contents, start, rounds, n);
      if rounds[n].calls {
        PairAdded(start, rounds, true, n, contents);
      }
    }
  }

  /** After a round that called functions the loop stands one round further. */
  lemma StandsNext(contents: Contents, start: seq<Item>, rounds: seq<Round>, keepHistory: bool, n: nat,
                   current: Contents, history: seq<Item>, sent: seq<Contents>, receipts: seq<nat>)
    requires n < |rounds| && Stands(contents, start, rounds, keepHistory, n, current, history, sent, receipts)
    requires rounds[n].Answers? && rounds[n].calls && rounds[n].tools.Some?
    ensures var pair := [rounds[n].model, UserTurn(rounds[n].tools.value)];
            Stands(contents, start, rounds, keepHistory, n + 1, Many(start + Turns(rounds, n) + pair),
                   history + (if keepHistory then pair else []), sent + [current], Receipts(rounds, n + 1))
  {
    PairAdded(start, rounds, keepHistory, n, contents);
    SentOneMore(contents, start, rounds, sent, current);
  }

  /** One turn of the loop: the round is sent, and its turns are added unless it ends the loop. */
  method Turn(contents: Contents, start: seq<Item>, rounds: seq<Round>, keepHistory: bool, n: nat,
              current: Contents, history: seq<Item>, sent: seq<Contents>, receipts: seq<nat>)
    returns (ending: Ending, current': Contents, history': seq<Item>, sent': seq<Contents>, receipts': seq<nat>)
    requires Normalise(contents) == Ok(start) && n < |rounds|
    requires Stands(contents, start, rounds, keepHistory, n, current, history, sent, receipts)
    ensures AllSent(contents, start, rounds, sent') && |sent'| == n + 1
    ensures ending == GoesOn ==>
              Stands(contents, start, rounds, keepHistory, n + 1, current', history', sent', receipts')
    ensures ending != GoesOn ==> history' == history
    ensures ending == EndOf(rounds, n) && (ending == Stops ==> receipts' == Receipts(rounds, n + 1))
  {
    var round := rounds[n];
    SentOneMore(contents, start, rounds, sent, current);
    current', history', sent', receipts' := current, history, sent + [current], receipts;
    if round.Fails? {
      return Broken, current', history', sent', receipts';
    }
    receipts' := receipts + if round.receipt.Some? then [round.receipt.value] else [];
    if !round.calls {
      return Stops, current', history', sent', receipts';
    }
    if round.tools.None? {
      return Broken, current', history', sent', receipts';
    }
    SentNormalises(contents, start, rounds, n);
    var normal := ToContents(current);
    if normal.Throws? {
      return Broken, current', history', sent', receipts';
    }
    var pair := [round.model, UserTurn(round.tools.value)];
    StandsNext(contents, start, rounds, keepHistory, n, current, history, sent, receipts);
    current' := Many(normal.value + pair);
    history' := history + if keepHistory then pair else [];
    return GoesOn, current', history', sent', receipts';
  }

  /**
   * `runGovernedAfc` over any rounds. A start that does not normalise, a failing round, a failing tool, or a
   * malformed model turn met by a later one, ends it with a throw.
   */
  method Run(contents: Contents, max: Limit, keepHistory: bool, rounds: seq<Round>) returns (out: Outcome)
    ensures Normalise(contents).Throws? ==> out == Outcome(Threw, [], [], [])
    // It goes on while functions are called and the limit is not reached, and each round is sent the start and
    // every turn before it.
    ensures Normalise(contents).Ok? ==>
              && AllSent(contents, Normalise(contents).value, rounds, out.sent)
              && Chained(contents, Normalise(contents).value, rounds, out.sent)
              && EndsAs(max, rounds, |out.sent|, out.end)
    // The kept history is the start followed by the pair of every round that called functions.
    ensures Normalise(contents).Ok? && out.end != Threw ==>
              && |out.sent| <= |rounds| && out.receipts == Receipts(rounds, |out.sent|)
              && out.history == Kept(Normalise(contents).value, rounds, keepHistory, Added(rounds, |out.sent|))
    ensures Normalise(contents).Ok? && out.end != Threw ==>
              Recorded(Normalise(contents).value, rounds, keepHistory, out.sent, out.history)
  {
    var first := ToContents(contents);
    if first.Throws? {
      return Outcome(Threw, [], [], []);
    }
    var start := first.value;
    var current, history := contents, start;
    var sent: seq<Contents>, receipts: seq<nat> := [], [];
    var n := 0;
    assert start + [] == start;
    while Below(n, max) && n < |rounds|
      invariant 0 <= n <= |rounds| && (n > 0 ==> Below(n - 1, max)) && GoneOn(rounds, n)
      invariant Stands(contents, start, rounds, keepHistory, n, current, history, sent, receipts)
    {
      var ending: Ending;
      ending, current, history, sent, receipts :=
        Turn(contents, start, rounds, keepHistory, n, current, history, sent, receipts);
      if ending != GoesOn {
        SentIsChained(contents, start, rounds, sent);
        if ending == Stops {
          HistoryIsRecorded(contents, start, rounds, keepHistory, sent);
        }
        return Outcome(if ending == Broken then Threw else Returned, sent, history, receipts);
      }
      n := n + 1;
    }
    SentIsChained(contents, start, rounds, sent);
    HistoryIsRecorded(contents, start, rounds, keepHistory, sent);
    return Outcome(if Below(n, max) then Waiting else Returned, sent, history, receipts);
  }

  // ---- The number of rounds ----

  lemma CeilingIsFirstNotBelow(max: real, n: nat)
    requires (n > 0 ==> Below(n - 1, Finite(max))) && !Below(n, Finite(max))
    ensures n == if max <= 0.0 then 0 else Ceiling(max)
  {
  }

  /**
   * A finite maximum allows at most its ceiling of rounds, and a loop that returns has sent that many or was ended by
   * a round that called no function. Without a limit only such a round ends it well, and under a limit that is no
   * number nothing is sent.
   */
  lemma RoundsByLimit(max: Limit, rounds: seq<Round>, m: nat, end: End)
    requires EndsAs(max, rounds, m, end)
    ensures max.Finite? ==> m <= if max.value <= 0.0 then 0 else Ceiling(max.value)
    ensures end == Returned && !(m > 0 && EndOf(rounds, m - 1) == Stops) ==>
              match max
              case Finite(value) => m == if value <= 0.0 then 0 else Ceiling(value)
              case Unlimited => false
              case NotANumber => m == 0
    ensures max.NotANumber? ==> m == 0 && end == Returned
  {
    if max.Finite? && m > 0 {
      CeilingAbove(m - 1, max.value);
    }
    if max.Finite? && end == Returned && !(m > 0 && EndOf(rounds, m - 1) == Stops) {
      CeilingIsFirstNotBelow(max.value, m);
    }
  }

  /**
   * A failing round throws and an answer without calls returns. A throw has no other cause but a tool that fails or a
   * malformed turn before the last, and a return none but the limit.
   */
  lemma EndingByLastRound(max: Limit, rounds: seq<Round>, m: nat, end: End)
    requires EndsAs(max, rounds, m, end) && m > 0
    ensures rounds[m - 1].Fails? ==> end == Threw
    ensures rounds[m - 1].Answers? && !rounds[m - 1].calls ==> end == Returned
    ensures rounds[m - 1].Answers? && rounds[m - 1].calls && end == Returned ==> !Below(m, max)
    ensures rounds[m - 1].Answers? && rounds[m - 1].calls ==>
              (end == Threw <==>
               || rounds[m - 1].tools.None?
               || exists i :: 0 <= i < m - 1 && rounds[i].Answers? && !IsContent(rounds[i].model))
  {
    assert forall i :: 0 <= i < m - 1 ==> EndOf(rounds, i) == GoesOn && ModelTurn(rounds[i]) == rounds[i].model;
    assert end == Waiting ==> EndOf(rounds, m - 1) == GoesOn;
    assert end == Returned && EndOf(rounds, m - 1) != Stops ==> EndOf(rounds, m - 1) == GoesOn;
  }

  /** With well-formed model turns only a failing round or tool throws. */
  lemma OnlyFailuresThrow(max: Limit, rounds: seq<Round>, m: nat)
    requires EndsAs(max, rounds, m, Threw) && WellFormedRounds(rounds)
    ensures var last := rounds[m - 1]; last.Fails? || (last.calls && last.tools.None?)
  {
    forall i | 0 <= i < m - 1
      ensures IsContent(ModelTurn(rounds[i]))
    {
      assert EndOf(rounds, i) == GoesOn;
    }
  }
}
