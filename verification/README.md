# usertrust: a verified model

Dafny models of the money-handling core of usertrust and of the release tooling beside it, with proofs of what they
promise. `dafny verify dfyconfig.toml` checks everything.

| files | what they model |
|---|---|
| `GovernorModel`, `GovernorInvariant`, `GovernorSteps`, `GovernorAudit`, `GovernorBooks`, `GovernorTheorems`, `GovernorRuns`, `Governor`, `Sums` | the headless governor: authorize, settle, abort, release and destroy as atomic steps between awaits, in every interleaving |
| `TwoPhase`, `Engine` | the two-phase ledger, and the engine that keeps pending transfers on it, each call cut at its await |
| `UnheldRecords` | the rate bound and the memory of records of settlements without a hold |
| `MessageStream` | the finalize gate of a governed MessageStream |
| `StreamWrapper` | the async-generator wrapper around a provider stream, and its usage counters |
| `GovernedStream`, `Replay` | the OpenClaw stream wrapper and the replay log behind `result()` |
| `Bytes`, `Pax`, `Tar`, `TarHeader`, `TarWriter` | the release tarball reader and writer |
| `Utf8Text`, `PaxLayout`, `TarLayout`, `TarVerified` | which byte strings are UTF-8, extended headers, archives and verified archives, stated on the bytes; the reader accepts exactly these |
| `Paths`, `Classifier`, `PayloadNames`, `Framing`, `Release`, `Assemble`, `FullPayload` | the member classifier, the names it accepts, the frame between processes, the assembled tree and `assemble` from end to end |
| `JsonText`, `Json`, `CanonicalJson`, `JsonReader`, `CanonicalGraph`, `CanonicalHidden` | canonical JSON, a reader of RFC 8259 that reads it back, the approval identity on top of it, and what that does not bind |
| `Membrane`, `MembraneRuns`, `MembraneMirror`, `MembraneRequest` | the recording membrane around a Google request, its mirror, and the requests whose mirror is faithful |
| `Boundary` | the default-deny method boundary and its caches |
| `Afc` | the governed function-calling loop |
| `Common` | what several of these share |

How to read the governor model. A call is a name; what it is parked on is its task. Each step is one synchronous
stretch of the source between two awaits, so which steps exist, and which collection holds a hold at each of them, is
the protocol. A ledger request takes effect in the step that hears its answer, which loses no order of effects, since
that step may be delayed at will; a POST or a void whose error was reported may still land at any later time
(`LandsLate`). A reservation that lands after its error is not covered: no call knows of it, and it holds its wallet
until the ledger's timeout. The budget mutex is a lock. `GovernorObject.Governor` keeps the source's own fields
and shows that each method is such a step; its ghost field `view` adds the parked calls and the history, and is always
a state some run reaches, so the theorems hold of the object.

What the proofs found. Five promises do not hold as the code states them, and each has its exact condition here:

- The mirror of a Google request loses a `toJSON` property whose value is no function, which the membrane answers
  without recording it (`MembraneMirror.ToJsonIsLost`), the named properties of an array, and an index of an array that
  is asked for by `in` and not also read (`MembraneMirror.IndexIsLost`). A run over the mirror is the run over the
  original exactly when none of these was answered (`MembraneMirror.TreeMirror`). The mirror of an acyclic request is
  faithful to every reader that asks of no array by `in` exactly when nothing reached on a path of other keys has a
  `toJSON`, or is an array with a named property, that holds a value (`MembraneRequest.MirrorFaithfulIffQuiet`), and to
  every reader exactly when, besides, all those arrays are bare (`MembraneRequest.MirrorFaithfulIffBare`).
- A function read through a read-only view of one of the client's own transport objects comes out raw, whatever is
  free or listed: `client._options.fetch` (`Boundary.OptionsFetchIsRaw`). The boundary hands out an unwrapped function
  exactly on such a route (`Boundary.UnwrappedIffThroughTransportObject`). It also hands out raw objects, exactly where
  `Boundary.RawObjectIff` says; functions read off those are outside the boundary altogether.
- A `finalMessage` that arrives while a settle is unfinished, whether an abort, an end or another `finalMessage` began
  it, can resolve `.receipt` with the unsettled estimate and give the stream count back early
  (`MessageStream.FinalMessageDuringSettleCanWin`, and `MessageStream.OneFinalMessageIsEnough` with one `finalMessage`).
  Without one `.receipt` never resolves with the estimate (`MessageStream.ReceiptNeverEstimate`).
- An approval does not bind the state of an object outside its own enumerable string keys: after approval the date in
  an action can be changed (`CanonicalHidden.ChangedDatePasses`), and so can what any approved object hides
  (`CanonicalHidden.HiddenPartIsNotBound`). Among actions that hide nothing an approval passes for the approved one
  alone exactly when that one hides nothing (`CanonicalHidden.ApprovalBindsWholeIffBare`).
- Also among those, an approval bound to `[]` passes for an array of one hole
  (`CanonicalGraph.ApprovalOfEmptyPassesForOneHole`). Of what the printer reads no more is lost than key order, the sign
  of zero, and that one hole (`CanonicalJson.CanonicalIffSame`).

Three smaller observations. An OpenClaw stream that is closed before its first `next` leaves `result()` pending for
ever, and that is the only finished run that does (`GovernedStream.Drive`). A reservation that lands while
`voidAllPending` awaits its last answer outlives the sweep (`Engine.LateEntryOutlivesTheSweep`); what the sweep listed
when it began is always gone at its end (`Engine.SweepClearsItsSnapshot`). And a payload that fills the header cap leaves
no room for the root files: `assemble` then refuses its own result (`Assemble.FullPayloadIsRefused`, and
`FullPayload.FullArchiveIsRefused` at such an archive).

## Model

| member | source | states |
|---|---|---|
| `GovernorTheorems.StepInvariant` | packages/core/src/headless.ts:1511-2893 | every step of every call, in any interleaving, keeps the invariant: one place per hold, one owner, one record, and balanced counters |
| `GovernorTheorems.ReachableInvariant` | packages/core/src/headless.ts:1424-1478 | the invariant holds in every state that any run of authorize, settle, abort, release, destroy, ledger timeouts and requests that land after their error reaches |
| `GovernorTheorems.OneTerminalPerHold` | packages/core/src/headless.ts:2189-2215 | two terminals at work never have the same hold, and a hold in a terminal's hands can be claimed by no settle, abort or release |
| `GovernorTheorems.WhoEndsATransfer` | packages/core/src/headless.ts:2379-2417 | a transfer leaves pending once; after its POST began only that POST, heard by its own settle or landing late, the ledger's timeout or the engine's final sweep ends it, never abort, release or destroy's leftover loop |
| `GovernorTheorems.FailedSettleHandsTheHoldBack` | packages/core/src/headless.ts:2676-2678 | a settle that throws before its POST leaves the hold claimable by abort or release, by no second settle, with the ledger unchanged |
| `GovernorTheorems.AtMostOneRecord` | packages/core/src/headless.ts:2766-2768 | no hold ever has two terminal records, also when destroy took a terminal over at its deadline |
| `GovernorTheorems.TeardownRecordsEveryHold` | packages/core/src/headless.ts:1543-1615 | when teardown is over every hold ever registered has exactly one record, or its settle is past its claim and still to write it |
| `GovernorTheorems.NothingRegisteredAfterDestroy` | packages/core/src/headless.ts:2115-2146 | along every run, once destroy began no hold is registered any more |
| `GovernorTheorems.RecordsAgreeWithLedger` | packages/core/src/headless.ts:2417-2540 | a released or failed hold was never charged; a settled call was charged its cost where the hold covers it and the whole hold where not |
| `GovernorTheorems.SessionCounters` | packages/core/src/headless.ts:1841-1928 | the in-flight total is the sum of the estimates not yet given back, and spend plus in-flight stays within the larger of budget and restored spend plus the settled overruns |
| `GovernorTheorems.SessionShare` | packages/core/src/headless.ts:2470-2482 | an envelope's hold moves neither counter; a session hold is either still reserved or spent, and never spent for less than the ledger charged |
| `GovernorRuns.EveryHoldPassedItsGate` | packages/core/src/headless.ts:1883-1928 | along every run, each hold ever registered is of a call that entered with its estimate and passed the gate when that estimate was at most the envelope's remainder as it was read, or for a session hold at most the budget less what was spent and in flight |
| `GovernorRuns.EveryTaskHasItsPast` | packages/core/src/headless.ts:1883-1928 | along every run, a call that asks the ledger to reserve has entered with that estimate and passed that gate; a settle at work claimed its hold, and past its POST it posted that cost and got that answer; an abort or release at work left its hold so |
| `GovernorRuns.EveryRecordHasItsCall` | packages/core/src/headless.ts:2417-2540 | along every run, a record of a call names a hold that one settle claimed and posted at that cost, with the ledger's answer; a record of a failure a hold that an abort took; a record of a release one that a release took or destroy recorded or ended |
| `GovernorObject.Governor.AuthorizeEnter` | packages/core/src/headless.ts:1662-1665 | a destroyed governor admits no call; otherwise the call queues for the budget lock |
| `GovernorObject.Governor.AuthorizeGate` | packages/core/src/headless.ts:1883-1928 | an envelope's call passes exactly when its estimate is at most the envelope's remainder, any other exactly when it is at most the budget less what is spent and in flight |
| `GovernorObject.Governor.AuthorizeFinish` | packages/core/src/headless.ts:2036-2146 | accounts for the hold, and registers it exactly when destroy has not begun |
| `GovernorObject.Governor.AuthorizeUndo` | packages/core/src/headless.ts:2115-2124 | a hold cut off by destroy gives its accounting back |
| `GovernorObject.Governor.SettleClaim` | packages/core/src/headless.ts:2189-2215 | claims exactly when the hold is active and destroy is not sweeping, in one step |
| `GovernorObject.Governor.SettlePost` | packages/core/src/headless.ts:2382-2417 | the hold leaves the claimable sets before the POST is awaited |
| `GovernorObject.Governor.SettleAccount` | packages/core/src/headless.ts:2470-2482 | the hold's estimate goes back and its cost is spent, for a session hold only |
| `GovernorObject.Governor.SettleLeave` | packages/core/src/headless.ts:2676-2678 | the end of a settle releases its mark, and hands back a hold that was never posted |
| `GovernorObject.Governor.EndClaim` | packages/core/src/headless.ts:2692-2720 | abort and release claim exactly when no settle has the hold and it is active or handed back; the object's state stays one a run reaches |
| `GovernorObject.Governor.EndAccount` | packages/core/src/headless.ts:2725-2733 | the estimate of a session hold goes back once |
| `GovernorObject.Governor.EndVoided` | packages/core/src/headless.ts:2766-2768 | records exactly when destroy has not taken the hold over |
| `GovernorObject.Governor.DestroyTake` | packages/core/src/headless.ts:1543-1548 | takes every hold still the governor's in one step |
| `TwoPhase.NeverOverdrawn` | packages/core/src/headless.ts:1108-1257 | whatever sequence of reserve, post, void and timeout is asked, no wallet's posted plus pending debits exceed its credits |
| `TwoPhase.MovesOnce` | packages/core/src/headless.ts:1108-1257 | a transfer that was posted, voided or expired keeps that outcome under every later request |
| `Engine.EngineRun` | packages/core/src/headless.ts:1108-1257 | over every interleaving of calls cut at their awaits: no wallet is overdrawn, each answer told to a caller is what the ledger did, and no transfer is told ended twice |
| `Engine.SweepClearsItsSnapshot` | packages/core/src/headless.ts:1247-1257 | when a sweep is over, whatever ran during it, no entry it listed is in the map, and each either never got its request through or has ended on the ledger |
| `Engine.LateEntryOutlivesTheSweep` | packages/core/src/headless.ts:1247-1257 | from every state with a sweep at its last entry, a reservation can land first and is still in the map when the sweep is over |
| `Engine.TbEngine.SpendPending` | packages/core/src/headless.ts:1111-1194 | a hold is noted exactly when the ledger created it, which it does only within the wallet's credits, and then stands there pending under that wallet and amount |
| `Engine.TbEngine.PostLookup` | packages/core/src/headless.ts:1209-1217 | a post begins exactly for an entry in the map, and carries that entry over its await |
| `Engine.TbEngine.PostReturned` | packages/core/src/headless.ts:1218-1226 | posts no more than was held, posted plus shortfall is the actual cost, and a failed post keeps its entry |
| `Engine.TbEngine.VoidReturned` | packages/core/src/headless.ts:1228-1245 | voided is a void that succeeded or met a hold the ledger had expired, and leaves nothing taken from the wallet; any other answer keeps the entry |
| `Engine.TbEngine.SweepSnapshot` | packages/core/src/headless.ts:1247-1248 | the sweep lists every entry of the map once |
| `Engine.TbEngine.SweepReturned` | packages/core/src/headless.ts:1249-1256 | each answer, whatever it is, forgets that entry and no other |
| `UnheldRecords.AtMostBurstPerWindow` | packages/core/src/headless.ts:2976-2990 | with a clock that never goes back, no half-open interval of one window sees more than the burst of new appends |
| `UnheldRecords.NoRecordTwice` | packages/core/src/headless.ts:2959-3018 | a report appends only when none of the same key is at work and every record of it is followed by a full memory of newer ones |
| `UnheldRecords.RepliesByTheWholePast` | packages/core/src/headless.ts:2959-3018 | after every run the purged window and the bounded memory reply as a recorder that forgets nothing would: shared, known with its mark among the last 10,000 records, limited exactly while the 1,000th last append is younger than 60 seconds, otherwise begun |
| `UnheldRecords.TheWaitIsExact` | packages/core/src/headless.ts:2976-2990 | the wait that a limited report is told is exact: earlier it is limited still, with what is left of that wait, and from then on it begins |
| `UnheldRecords.Recorder.Begin` | packages/core/src/headless.ts:2959-3007 | the loop that drops old times, the limit and the shared reply are the stated step |
| `UnheldRecords.Recorder.End` | packages/core/src/headless.ts:3008-3018 | a durable append is remembered and the oldest memory goes past the cap; a failed one is forgotten |
| `MessageStream.SettleXorVoid` | packages/core/src/govern.ts:2547-2552 | for every order and repetition of events: settle or void, never both, one ledger action, hold and stream count back once each, and a winning void rejects the receipt |
| `MessageStream.LateEventsDoNotReject` | packages/core/src/govern.ts:3202-3211 | after a winning settle only that settle's own failure rejects the receipt |
| `MessageStream.ReceiptNeverEstimate` | packages/core/src/govern.ts:2601-2606 | without a `finalMessage` while a settle is unfinished, the receipt never resolves with the estimate |
| `MessageStream.FinalMessageDuringSettleCanWin` | packages/core/src/govern.ts:3197-3199 | from every state with an unfinished settle, whichever event began it, a `finalMessage` can resolve the receipt with the estimate and release the stream count early |
| `MessageStream.OneFinalMessageIsEnough` | packages/core/src/govern.ts:3222-3255 | an abort, an end or a `finalMessage`, then one `finalMessage`: the receipt is the estimate and nothing is posted |
| `MessageStream.FirstTerminalDecides` | packages/core/src/govern.ts:3202-3255 | over every run, read off the events alone: after a first terminal event that is an `error`, or an `abort` once a stream event tripped the anomaly cutoff, the hold is voided and the receipt rejected; after a `finalMessage`, an `end` or an `abort` without a trip it is settled; before any it is pending |
| `MessageStream.FinishDecidesTheReceipt` | packages/core/src/govern.ts:3197-3199 | when the settle or void of a stream is finished, its own outcome decides a receipt that is still open |
| `MessageStream.Governed.Listen` | packages/core/src/govern.ts:3173-3255 | the listeners take the stated steps |
| `MessageStream.Governed.FinalizeOnce` | packages/core/src/govern.ts:2548-2552 | the first terminal signal wins and fixes the outcome |
| `MessageStream.Governed.ReleaseHold` | packages/core/src/govern.ts:2169-2178 | the in-flight hold goes back at most once |
| `StreamWrapper.Drive` | packages/core/src/streaming.ts:401-629 | for every source and every sequence of `next`, `return` and `throw`, calls after the end included: at most one callback, exactly one when done, void or settle by how the body was left; done exactly unless every call was a `next` given a chunk or one waits for a source that answers no more; what is shown is a prefix of the source without withheld chunks |
| `StreamWrapper.ShownInOrder` | packages/core/src/streaming.ts:504-595 | every chunk pulled is shown behind those before it, but for the usage-only one of OpenAI that the wrapper itself asked for |
| `StreamWrapper.ClosedEarly` | packages/core/src/streaming.ts:424-450 | closed before its first `next` the stream shows nothing, and tells of no usage: `return` settles and `throw` voids |
| `StreamWrapper.WhyCalledBack` | packages/core/src/streaming.ts:596-628 | once begun, the error callback means a hook that failed or, without the caller's own signal, a source or consumer that threw or a close that failed; the other one, without that signal, a source that ended or a consumer that returned |
| `StreamWrapper.Wrapped.CallNext` | packages/core/src/streaming.ts:420-423 | usable in every phase: runs the body to its next yield or its end, and moves nothing once it is done |
| `StreamWrapper.Wrapped.CallReturn` | packages/core/src/streaming.ts:424-441 | before the first `next` it settles once without running the body; at a yield it unwinds; after the end it moves nothing |
| `StreamWrapper.Wrapped.CallThrow` | packages/core/src/streaming.ts:442-450 | the same, voiding |
| `StreamWrapper.Wrapped.Turn` | packages/core/src/streaming.ts:504-595 | usage counts every chunk pulled, the one whose hook threw included, which is not shown; the loop goes on only past a withheld chunk |
| `StreamWrapper.Wrapped.Unwind` | packages/core/src/streaming.ts:596-628 | the catch and finally blocks together make one callback, the error callback exactly for a throw that the caller's signal does not explain |
| `StreamWrapper.TotalsAreTheLast` | packages/core/src/streaming.ts:509-534 | running totals are those of the last chunk that carried any, never a sum, and reported stays reported |
| `StreamWrapper.CountersAreKept` | packages/core/src/streaming.ts:548-566 | a later chunk takes back no report and none of Anthropic's cache tokens |
| `StreamWrapper.HeadlinesAreTheLast` | packages/core/src/streaming.ts:534-566 | Anthropic's input and output counters are the last that were not zero, and its cache counters the largest |
| `StreamWrapper.ReportedByBoth` | packages/core/src/streaming.ts:552-554 | Anthropic's usage is reported exactly when some chunk reported an input and some chunk an output |
| `StreamWrapper.CountedIsAbsorbed` | packages/core/src/streaming.ts:509-572 | the counters told to the callback are those of all chunks pulled, the withheld ones included |
| `GovernedStream.Drive` | packages/openclaw/src/stream-governor.ts:306-394 | a run goes on until the consumer or the provider is waited for, and is left as the provider's and the consumer's last answers say; once authorized and finished, one settle or one abort and never both: after a provider error the abort alone, after `done` or an abort by the caller the settle, or the refused settle and the abort; without a terminal event walking away is paid for and only a failure voids; `result()` is decided before a terminal event is yielded, and is resolved only by one whose settle was accepted or that reports an error |
| `GovernedStream.Run.FinalizeTerminal` | packages/openclaw/src/stream-governor.ts:424-457 | an error aborts and resolves; any other terminal event settles, and aborts and rejects when the settle is refused |
| `GovernedStream.Run.Unwind` | packages/openclaw/src/stream-governor.ts:367-394 | whatever way the body is left, exactly one action has been taken and `result()` is decided |
| `Replay.EveryIteratorSeesTheDrain` | packages/openclaw/src/stream-governor.ts:198-213 | in every interleaving an iterator has seen the events the drain took, in order from the first; one that is over has seen them all and ends with the outcome the drain ended with; one that is blocked has seen all there are and the drain is not over |
| `Replay.EveryIteratorEnds` | packages/openclaw/src/stream-governor.ts:228-249 | once the drain is over, an iterator's own turns bring it to the end |
| `Replay.Log.Advance` | packages/openclaw/src/stream-governor.ts:198-213 | one turn delivers the next event, ends with the drain's failure, or waits for the current tick |
| `Replay.Log.Take` | packages/openclaw/src/stream-governor.ts:186-190 | an event is logged and every waiter's tick is passed |
| `Pax.PaxRecords` | scripts/release-tarball.py:146-178 | the loop advances by whole records and reads what the recursive grammar reads, or refuses |
| `Pax.RecordRoundTrip` | scripts/release-tarball.py:149-159 | a written record, whose length counts its own digits, up to the twenty the reader looks for, is read back as its key and value |
| `PaxLayout.ParseIffLaid` | scripts/release-tarball.py:146-178 | a body is read as these records exactly when its bytes are one record after another, each with its length, key, value and newline, of a taken key and no key twice, and the records are what is kept of them |
| `Utf8Text.Utf8IffEncoded` | scripts/release-tarball.py:160-164 | a value is text exactly when its bytes are the UTF-8 of section 3 of RFC 3629, surrogates and overlong forms excluded |
| `Bytes.OctalField` | scripts/release-tarball.py:133-139 | an octal field of any width reads back as the number it was written from |
| `Tar.ParseTar` | scripts/release-tarball.py:181-252 | every turn moves at least one block; the result is the recursive reading, header by header, or a refusal; which archives that accepts is `TarLayout.ParseIffLayout` |
| `Tar.ParseCaps` | scripts/release-tarball.py:204-249 | what is accepted keeps the caps on members, on one file and on the total |
| `TarLayout.ParseIffLayout` | scripts/release-tarball.py:181-252 | the reader yields these entries exactly when the bytes are laid out so: physical headers, extended ones included, with their checksum, magic, type and size, names and sizes of extended headers applied to the next member, the data each header sizes, two blocks of zeros and nothing else, and the caps of 4096 headers, 8 MiB a file, 48 MiB in all and 1 KiB an extended header |
| `TarLayout.EveryHeadIsSound` | scripts/release-tarball.py:207-219 | every physical header of an accepted archive has its bytes' sum, with the field itself read as spaces, in octal in its checksum field, the ustar magic, an octal size, and type '0', NUL, '5' or 'x' |
| `TarLayout.DecodeIff` | scripts/release-tarball.py:207-219 | a header decodes to a type, size and name exactly when its bytes say so |
| `TarHeader.DecodeHeader` | scripts/release-tarball.py:207-219 | checksum, magic, size, type and name of every written header are read back, the name joined from its prefix |
| `TarWriter.WriteThenParse` | scripts/release-tarball.py:464-490 | reading the tar of any member list within the caps gives back exactly its names and bytes in order: whole names, names split over the prefix field and names carried by a PAX path |
| `TarWriter.VerifyAcceptsWritten` | scripts/release-tarball.py:500-525 | `verify` accepts what was written, every fixed header field included |
| `TarWriter.VerifiedIffWithinCaps` | scripts/release-tarball.py:500-525 | `verify` accepts what was written exactly when every path record and every file, the headers, path headers included, and the total are within the reader's caps |
| `TarWriter.Verify` | scripts/release-tarball.py:500-525 | accepts exactly the archives that read as these members under the fixed fields |
| `TarVerified.VerifiedIffArchive` | scripts/release-tarball.py:500-525 | `verify` accepts a byte string exactly when it is an archive of these members, in order, each header with the fixed mode, owner, time, link and owner names |
| `Paths.AncestorsAreJoins` | scripts/release-tarball.py:255-257 | the joins of a name's first components are exactly its ancestors |
| `Classifier.Members.Classify` | scripts/release-tarball.py:269-310 | accepts a member exactly when its name is permitted and the accepted members with it still form a valid tree ignoring case |
| `Classifier.RefusalReasons` | scripts/release-tarball.py:298-309 | the three set tests are exactly the tests against every earlier member |
| `PayloadNames.PayloadIff` | scripts/release-tarball.py:269-293 | a file is payload exactly if its name is below package/dist, at most 200 bytes long and 16 levels deep, and every component between its slashes is of 1 to 100 permitted characters, begins and ends with no dot, and is no name that npm or Node treats specially, in any case |
| `PayloadNames.PayloadStaysInside` | scripts/release-tarball.py:284-289 | no component of a payload name is empty, `.` or `..` |
| `PayloadNames.RootIff` | scripts/release-tarball.py:294-297 | a file is a root exactly right below package and under a name that the package ships |
| `PayloadNames.DirectoryIff` | scripts/release-tarball.py:279-293 | a directory is accepted exactly if it is package, package/dist, or below that under a payload name |
| `Classifier.AssembledIsValid` | scripts/release-tarball.py:554-587 | adding root files with admissible, distinct names to any valid payload keeps the tree valid |
| `Release.ChildMain` | scripts/release-tarball.py:334-355 | the child writes the framed chunks of the accepted members, or refuses |
| `Release.ChildOutputIsReadBack` | scripts/release-tarball.py:371-377 | for every accepted archive the output is within the parent's cap and unframes to what was written |
| `Release.AssembledTree` | scripts/release-tarball.py:579-587 | whatever order members came in, the accepted ones, and their payload with the root files, are valid trees |
| `Assemble.AssembleVerifiesIffWithinCaps` | scripts/release-tarball.py:570-599 | for every accepted archive and admissible root files, in any order: `verify` accepts the written result exactly when each root's name and size, and the headers and the total of roots and payload, are within the caps |
| `Assemble.FullPayloadIsRefused` | scripts/release-tarball.py:584-599 | an accepted payload and roots of more members than the header cap are refused by their own `verify` |
| `FullPayload.ArchiveIsAccepted` | scripts/release-tarball.py:334-355 | for every number up to the header cap there is an archive of that many members, accepted as payload every one |
| `FullPayload.FullArchiveIsRefused` | scripts/release-tarball.py:584-599 | an archive of 4096 members is accepted, and with any `package.json` refused by its own `verify` |
| `Framing.Unframe` | scripts/release-tarball.py:432-458 | the loop reads what the recursive grammar reads, in order, or refuses |
| `Framing.FrameRoundTrip` | scripts/release-tarball.py:340-347 | unframing returns exactly the payload pairs and root names that were framed, in order |
| `Framing.UnframedIffStream` | scripts/release-tarball.py:432-458 | exactly the framings of chunks with ASCII names and lengths that fit their fields are unframed, as their contents |
| `Framing.PayloadOnBytes` | scripts/release-tarball.py:340-345 | a payload frame on its bytes: the letter P, the length of the name in four and of the data in eight, the highest first, the name and the data |
| `Framing.RootOnBytes` | scripts/release-tarball.py:346-347 | a root frame on its bytes: the letter R, the length of the name in four, and the name |
| `CanonicalJson.CanonicalIffSame` | packages/acs-adapter/src/identity.ts:20-52 | two values have the same canonical text exactly when they are equal up to key order and the sign of zero, an array of one hole counting as empty |
| `CanonicalJson.OneHoleLooksEmpty` | packages/acs-adapter/src/identity.ts:39-41 | an array of one hole has the text of the empty array, an array of two has not |
| `JsonReader.CanonicalIsRead` | packages/acs-adapter/src/identity.ts:20-52 | a strict reader of RFC 8259 reads the canonical text of every value without holes, to its end, as that value up to key order and the sign of zero, and meets the keys of every object in ascending order of their code units |
| `JsonReader.EscapeShape` | packages/acs-adapter/src/identity.ts:23-24 | seven characters are escaped by a letter, the other controls and lone surrogates by six characters in lower-case hexadecimal, and nothing else |
| `JsonReader.NumberShape` | packages/acs-adapter/src/identity.ts:27-29 | an exponent is printed exactly from 1e21 on and below 1e-6, with its sign, and a point exactly where there is a fraction |
| `CanonicalJson.PrintUnique` | packages/acs-adapter/src/identity.ts:20-52 | texts that agree were printed from the same value and leave the same rest: the text can be read in one way |
| `JsonText.QuoteUnique` | packages/acs-adapter/src/identity.ts:23-24 | a printed string, escapes and lone surrogates included, determines the string |
| `JsonText.MagnitudeReadsBack` | packages/acs-adapter/src/identity.ts:27-29 | a printed number reads back as its digits and exponent, in each of its four forms |
| `Json.SameIffNormal` | packages/acs-adapter/src/identity.ts:42-47 | values are equal up to key order, the sign of zero and one-hole arrays exactly when their normal forms are equal |
| `CanonicalGraph.PrintsIffTree` | packages/acs-adapter/src/identity.ts:35-51 | on an object graph it prints exactly the values that stand for a finite tree, shared objects and arrays with holes included, and prints that tree's text |
| `CanonicalGraph.Canonicalizer.Canonical` | packages/acs-adapter/src/identity.ts:20-52 | the marks are restored on every way out, and the result is the recursive one |
| `CanonicalGraph.PrintedIsRead` | packages/acs-adapter/src/identity.ts:35-51 | what the printer answers for an object graph without holes is read by the reader of RFC 8259 as a value equal to the graph's tree, its keys in ascending order |
| `CanonicalGraph.ApprovalMatchesIffSame` | packages/acs-adapter/src/identity.ts:54-87 | with a collision-free hash, an approval passes for another action exactly when what is printed of both is the same value, an array of one hole counting as empty, whatever else their objects hold |
| `CanonicalGraph.ApprovalOfEmptyPassesForOneHole` | packages/acs-adapter/src/identity.ts:81-87 | an approval bound to the empty array passes for an array of one hole |
| `CanonicalHidden.ApprovalBindsBare` | packages/acs-adapter/src/identity.ts:54-87 | between actions whose objects hide nothing, the approval of one passes for the other exactly when they are the same value |
| `CanonicalHidden.ApprovalBindsWholeIffBare` | packages/acs-adapter/src/identity.ts:54-87 | every action that hides nothing and that an approval passes for is the approved value exactly when the approved one hides nothing |
| `CanonicalHidden.HiddenPartIsNotBound` | packages/acs-adapter/src/identity.ts:35-49 | whatever object was approved, the approval passes with any other hidden part in it |
| `CanonicalHidden.ChangedDatePasses` | packages/acs-adapter/src/identity.ts:81-87 | an action whose date was changed after approval passes, and is another value |
| `MembraneMirror.TreeMirror` | packages/core/src/google-request.ts:692-796 | for every acyclic request, adaptive reader and number of questions the mirror exists, and asks and answers as the original exactly when no answer is lost: no value of a `toJSON` or of a named property of an array, no such name found by `in`, and no index found by `in` that was not also read |
| `MembraneMirror.MirrorAnswersAlike` | packages/core/src/google-request.ts:897-1005 | the same for every request, cyclic ones included, whenever materialization succeeds |
| `MembraneMirror.ReadIffAsked` | packages/core/src/google-request.ts:638-642 | at the end of every run the recording holds a key that is there exactly when some question read it |
| `MembraneRequest.MirrorFaithfulIffQuiet` | packages/core/src/google-request.ts:692-1005 | for every acyclic request, the mirror exists and answers alike for all readers that ask of no array by `in`, and any number of questions, exactly when nothing reached has a value under `toJSON` or under a name of an array |
| `MembraneRequest.MirrorFaithfulIffBare` | packages/core/src/google-request.ts:791-1005 | for all readers whatsoever exactly when, besides, every array reached has neither elements nor names |
| `MembraneMirror.IndexIsLost` | packages/core/src/google-request.ts:946-969 | an array asked for an index by `in` alone: its mirror denies it |
| `MembraneMirror.ToJsonIsLost` | packages/core/src/google-request.ts:737-742 | a request with a `toJSON` number: its mirror answers undefined |
| `MembraneRuns.RunGrows` | packages/core/src/google-request.ts:638-642 | along every run recordings stay true to the request and only grow |
| `Membrane.Proxies.Get` | packages/core/src/google-request.ts:692-790 | the read is the request's own, and the first read of a key is what is recorded |
| `Membrane.Proxies.Has` | packages/core/src/google-request.ts:791-796 | the answer is the request's own, and a key found is noted as present |
| `Membrane.Proxies.MaterializeNode` | packages/core/src/google-request.ts:897-944 | untouched objects become empty, cycles refuse, the rest is copied from its recording |
| `Membrane.Proxies.MaterializeReads` | packages/core/src/google-request.ts:946-1005 | the properties of a copy are the recorded reads, an array's below its length |
| `Boundary.ProxyOfRoute` | packages/core/src/default-deny.ts:1401-1432 | along every sequence of reads a guard's path is the dotted route of names from the client, and the names and the SDK's answers alone settle what kind of proxy is handed out |
| `Boundary.RawIffRouteAllowed` | packages/core/src/default-deny.ts:1401-1472 | along every sequence of reads of ordinary names a function reaches the raw SDK exactly when its dotted route is free or listed, is no transport method of the client and passes through no raw client, or when its route leaves the client through a transport object |
| `Boundary.BelowRawClientRefused` | packages/core/src/default-deny.ts:1508-1541 | everything reached from a raw client, at any depth, is refused under the path the raw client was reached at |
| `Boundary.UnwrappedIffThroughTransportObject` | packages/core/src/default-deny.ts:1364-1379 | a function comes out unwrapped exactly when its route leaves the client itself through one of its transport objects |
| `Boundary.RawObjectIff` | packages/core/src/default-deny.ts:1425-1432 | exactly which reads hand out a raw object, by route and answer |
| `Boundary.OptionsFetchIsRaw` | packages/core/src/default-deny.ts:1428-1430 | with nothing free and nothing listed, `_options.fetch` is the raw function |
| `Boundary.Caches.MethodWrapper` | packages/core/src/default-deny.ts:1440-1472 | warm or cold, the wrapper is the one its path decides |
| `Boundary.Caches.GuardedGet` | packages/core/src/default-deny.ts:1401-1432 | warm or cold, a read answers what it would without caches |
| `Boundary.Caches.Get` | packages/core/src/default-deny.ts:1479-1541 | the same for reads through guards, stand-ins and views |
| `Afc.ToContents` | packages/core/src/google-afc.ts:198-236 | the loop accepts all contents or all loose parts and refuses any mixture |
| `Afc.NormaliseIff` | packages/core/src/google-afc.ts:198-236 | the answer is exactly the contents themselves when all are contents, and one user turn with the parts of all items in their order when all are loose and each can be a part; a lone item with a function part is refused |
| `Afc.NormaliseIsIdempotent` | packages/core/src/google-afc.ts:198-236 | normalising again changes nothing |
| `Afc.SentNormalises` | packages/core/src/google-afc.ts:308-311 | what a round was sent normalises to itself exactly when every model turn in it is a content |
| `Afc.Run` | packages/core/src/google-afc.ts:283-319 | each round after the first is sent what the one before it was sent, normalised, the model's turn and the tools' turn; the loop goes on exactly while the limit is not reached and functions are called, and ends as its last round says; the kept history is what the last round was sent, and its pair if it called functions |
| `Afc.EndingByLastRound` | packages/core/src/google-afc.ts:283-319 | a failing round throws and an answer without calls returns; after calls the loop throws exactly when the tool fails or an earlier model turn is no content, and returns only at the limit |
| `Afc.ReceiptsInOrder` | packages/core/src/google-afc.ts:283-319 | the receipts are those of the rounds that brought one, in the order of the rounds |
| `Afc.RoundsByLimit` | packages/core/src/google-afc.ts:262-290 | at most the ceiling of a finite maximum, and exactly that many unless a round calls no function; under an infinite one only such a round ends the loop well; nothing is sent for NaN |
| `Afc.OnlyFailuresThrow` | packages/core/src/google-afc.ts:283-311 | with well-formed model turns only a failing round or tool throws |

## Left out

- Files and the network: spend-ledger persistence, vault files, configuration, TigerBeetle's connection, gzip, sub-process limits, system tar extraction and SHA hashing. Hashes are taken as collision-free where one is needed.
- Pricing, policy, anomaly detection, PII and injection scanning: a cost is a number, the gate is the remaining-after test, and a hook throws or does not.
- The audit chain: an append is a recorded event. Events other than a hold's terminal record (`settlement_ambiguous`, `settlement_shortfall`) are not modelled.
- Proxy mode, which the sources keep switched off.
- The order in which the budget mutex serves its waiters: it is a lock that any waiter may take.
- Handles altered by the caller: settle and abort are taken to get the authorization back as it was handed out.
- Destroy's wait for unheld-settlement appends at work, and a drain time of zero.
- The non-stream and action paths of `govern.ts`, and its own budget counters beyond the one hold of a stream.
- Concurrent calls on one wrapped stream: the consumer is taken to wait for each answer before its next call.
- Anthropic's one-hour cache counter and implausible counts in `streaming.ts`, and the text of errors.
- Release tarball: device number fields, which writers fill differently, are arbitrary. Names are ASCII without NUL, and neither a name nor a file is too large for the size field of a header (eight gibibytes); a name of exactly 101 bytes that begins with a slash does not survive the split, and no member name begins with one.
- Reading the canonical text back as RFC 8259 is stated for values without holes, whose place in an array prints as nothing.
- Canonical JSON: getters, and objects that change while they are printed. A number is its shortest decimal form, as ECMAScript's Number::toString defines it.
- Membrane: functions, boxed primitives, symbols, writes, prototypes and what they add, enumeration order, pinned options and requests that change while they are read.
- Boundary: names of Object.prototype and `toJSON` pass as they are, as in the source; symbols, writes and the validation of the caller's list are not modelled. What is inside a raw object that is no resource is read outside the boundary, and is not governed by it. The tables of free methods are arbitrary sets.
- The TypeScript types, `mock.ts`, `detect.ts`, `attribution.ts`, `fingerprint.ts`, `scarcity-block.ts`, the site, the UI and the command line: easy next to the rest.
