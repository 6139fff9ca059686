# The Foundry adapter's turn engine, verified

The adapter runs one Foundry agent run per *turn*. A turn is an append-only log of numbered frames and a
ledger of brokered tool calls. Three kinds of request act on it at the same time: stream requests poll
Foundry and replay the log, continue requests collect tool results and submit them, cancel requests end the
run. Around the turns the server keeps a registry: turn ids, tombstones of finished ids, one Foundry thread
per session, cleanup timers. This project models both, together with the event-stream wire format and the
turn paths, and proves what they promise.

The server mutex is released around every remote call, so nothing about a turn can be read off one handler.
Two transition systems therefore carry the main results. In each, a step is one section under the server
mutex or one remote call between two sections, and a run is any interleaving:

- `TurnProtocol`: one turn. Whoever holds the continue mutex has a program counter (checked, validated,
  recorded, submitted). Polls, failures and ends of the run can come between any two of its steps.
- `Registry`: all turns, threads, tombstones and timers. Whoever holds the session mutex has a program
  counter, for starting a run or for collecting threads. Clock, armed timers and Foundry's threads are state.

The methods that change state in place (`TurnState`, `Server`, `TombstoneTable`, `ResponseStream`,
`EventBuffer`, and the handlers and loops over them) are proved against the functions those systems are built
from. `Handlers` and `StreamRuns` close the gap for whole requests: what a continue or a cancel does to a turn,
with pollers in its gaps, and a stream request, with anything at all in its gaps, is a run of `TurnProtocol`.

| files | about |
|---|---|
| `Turns`, `TurnLedger`, `TurnState` | the value of a turn, its sections as functions, the object that changes in place |
| `ToolPolicy` | which tools Foundry is offered, and which of its calls are let through |
| `TurnProtocol`, `TurnSafety`, `TurnTheorems`, `RequestLog`, `Provenance`, `Batching` | the interleavings of one turn, the invariant, what follows over runs, where each logged frame comes from |
| `Polling`, `PollOutcome`, `Cancellation`, `Handlers`, `StreamRuns` | the poll loop, its result told from Foundry's answers, the cancel wait, whole continue and cancel requests, whole stream requests |
| `EventStream`, `Resumption` | replay from a cursor, and clients that reconnect |
| `Sse`, `SseRoundTrip`, `SseTruncation` | the event-stream writer and reader, byte by byte, with the reader's limits; streams that break after any byte |
| `FrameJson`, `FrameObject`, `JsonText`, `FrameSize`, `MeasuredRuns`, `MeasuredDue` | the JSON of a frame as text and as an object, its strings read back, how long it can get, and which logged results were measured |
| `Witnesses` | runs that show what can go wrong, from acceptable requests and with the adapter's size limit |
| `ContinueRequest`, `TurnPath` | the checks of a continue request, idempotency keys, turn paths |
| `Registry`, `RegistryRuns`, `RegistryThreads`, `RegistryCleanup`, `RegistryOrphan`, `RegistryTranscript`, `Replies`, `Server` | the registry, its four invariants, an orphaned thread, what a start is answered, the imperative form |
| `Tombstones` | the bounded table and its search for the oldest entry |
| `Locks` | every handler and timer as a lock program; deadlock freedom |
| `Bytes`, `Wrappers`, `Orders` | byte strings and trimming, results, iteration orders of maps |

Strings are sequences of bytes. Times are integers in nanoseconds counted from Go's zero time, which is what
`IsZero` tests for.

## What turned out not to hold

Each has its exact condition proved, and a concrete run or input that shows it.

- The terminal frame is not always last. A continue does not look at `completed` again after its remote
  submit (`Witnesses.TerminalOvertaken`). It can be overtaken exactly when a continue that is going to log
  results is in flight (`TurnTheorems.TerminalStaysLastExactly`).
- A call can be requested in two frames (`RequestLog.RepeatedCall`). This happens in a run exactly when one of
  its accepted batches names a new call twice (`RequestLog.RunLogsOnce`).
- A thread can be left to no cleanup (`RegistryOrphan.OrphanedRun`): the clock does not move between the record
  of the run and the end of the turn, and the cleanup timer fires at the very instant it is due. A thread's last
  timer loses it exactly then (`RegistryCleanup.FireCoversExactly`), because the sweep lists it exactly when the
  captured time is more than the retention after the thread was last seen
  (`RegistryCleanup.SweepCoversExactly`).
- A result can be logged under a tool name with which it is too large (`Witnesses.LoggedUnmeasured`): a poll
  adds the call between the size check and the record of a continue that already names it. What is checked,
  buffered and logged stays measured exactly as long as no poll does that
  (`MeasuredRuns.LoggedResultsWereMeasured`), and from any state it is logged exactly when it is due
  (`MeasuredDue.MeasuredExactly`).
- A log need not be readable to its end. Request frames are logged whatever their size
  (`Witnesses.OversizeRequest`), and no client gets past a frame that does not fit a line of the reader
  (`Resumption.StuckAtOversize`). A response brings the client up to date exactly when every frame it carries
  fits (`Resumption.WholeResponseExactly`).
- The search for the oldest tombstone uses the zero time as "nothing found yet". It misses the oldest entry in
  some iteration order exactly when the least expiry is the zero time and another entry expires later
  (`Tombstones.OldestExactly`, `Tombstones.ZeroIsForgotten`); pruning first rules that out
  (`Tombstones.OldestAfterPrune`).
- Distinct call ids do not make distinct idempotency keys; they may differ in surrounding white space
  (`ContinueRequest.SharedKeyAccepted`, `ContinueRequest.KeysOfAcceptable`).
- A resource name that has white space left after its slashes are trimmed does not survive the round trip
  through its path; all others do (`TurnPath.ParseBuild`, `TurnPath.PaddedResourceLost`).

## Model

| member | source | states |
|---|---|---|
| `TurnTheorems.LogShape` | main.go:1199-1206 | In every interleaving of polls, continues and cancels, a started turn's log begins with its only TurnStarted, is numbered from 1, and has exactly one terminal frame if and only if the turn is completed. Behind it are only results of the one continue in flight when it was written, and nothing when a cancel wrote it. |
| `Provenance.EveryFrameHasASource` | main.go:741-798 | Every frame of a reachable log comes from the run that led to it: a request frame from a call of one of its batches, with that call's id, name and arguments; a result frame from a submitted result, with its output and error; a completed frame from a completed run, with that very result and its own number; a failed one from a failure with that reason and message. |
| `Provenance.EveryFrameIsNamed` | main.go:720-745 | In every reachable log, each called tool has a definition of a supported class with its name, and each result goes by a name under which its call was requested. |
| `TurnTheorems.TerminalStaysLastExactly` | main.go:546-569 | A terminal frame stays last in every continuation of the run if and only if no continue that will log results is past its check. |
| `Witnesses.TerminalOvertaken` | main.go:522-569 | From an acceptable request whose result is within the adapter's size limit, a run exists in which a result frame is logged behind the terminal frame. |
| `TurnTheorems.RestOfContinue` | main.go:534-569 | A continue in flight that will log results can always finish, and then the terminal frame is no longer last. |
| `TurnTheorems.LedgerAlways` | main.go:546-569 | Wherever the mutex is free: buffered ids are pending, pending and submitted ids are disjoint and together are exactly the ids of the request frames, emitted ids are the submitted ids are the ids of the result frames, no id has two result frames; and known ids never shrink. |
| `RequestLog.RunLogsOnce` | main.go:704-753 | In every run, each call is requested in at most one frame if and only if no batch of the run adds a call twice. |
| `RequestLog.BatchLogsOnce` | main.go:711-752 | A batch keeps one request frame per call if and only if it comes after the end, has a call that is refused, or names no call twice that has an id and is neither pending nor submitted. |
| `RequestLog.RepeatedCall` | main.go:711-752 | On any turn that exposes the tool, a batch that names one new call twice logs it twice. |
| `Provenance.BatchLogsItsCalls` | main.go:711-752 | A batch without an offending call, on a live turn, appends exactly one request frame for each of its new calls, in order, with that call's own id, name and arguments; any other batch appends nothing. |
| `Provenance.NewCallsOfBatch` | main.go:728-739 | The new calls of a batch are those that have an id and are neither pending nor submitted. |
| `Provenance.RoundLogs` | main.go:756-798 | On a live turn, a completed run whose message is within 1 MiB appends exactly one frame, which carries that message and names itself as the final one; a longer message, a cancelled and a failed run append exactly their one frame; the turn is then terminal. On a terminal turn, and for every other answer without calls, nothing is appended. |
| `Provenance.ActionRoundLogs` | main.go:704-753 | A round that answers with calls logs what the batch logs and leaves the turn as live as it was. |
| `TurnTheorems.ExactlyOnce` | main.go:534-569 | No call id is in two successful submissions; each submission carries exactly the ids pending when it was recorded, once each, with the first accepted payload of each and never a zero value; what was submitted is what the ledger says. |
| `TurnTheorems.RetrySubmitsTheSame` | main.go:939-966 | After a failed submission, any retry that names known ids submits the same results again, in some order. |
| `TurnTheorems.RetryKeepsPayloads` | main.go:546-550 | However many steps lie between, an id goes out with the payload whose submission had failed. |
| `TurnSafety.StepInv` | main.go:522-571 | Every single step keeps the ledger, the shape of the log, what the holder of the continue mutex may rely on, and the account of submissions. |
| `TurnLedger.CommitKeepsLedger` | main.go:546-569 | The commit moves exactly the submitted ids from pending to submitted and keeps the ledger. |
| `TurnLedger.CompleteCoversPending` | main.go:957-965 | The test by counts means that every pending call has a buffered payload. |
| `TurnLedger.PayloadIds` | main.go:960-965 | In any iteration order of the map, the results to submit carry exactly the pending ids, once each, with their own buffered payloads. |
| `TurnLedger.AddCallsLog` | main.go:741-748 | New calls are logged in the provider's order, one frame each, behind what was there. |
| `TurnLedger.EmitAllLog` | main.go:548-563 | Results are logged in the order of submission, one frame each, with payload and tool name. |
| `TurnState.RejectedExactly` | main.go:711-737 | A batch is rejected if and only if it has a call that is not exposed, not approved, or new with bad arguments; then no call and no frame is added. |
| `ToolPolicy.ApprovedIsOffered` | main.go:1246-1289 | A call is approved if and only if its tool is one of those that Foundry was offered with the run, and then it is exposed. |
| `ToolPolicy.SchemaNames` | main.go:1246-1289 | The tools that are offered, in the order of their definitions: those of a supported class whose name is not blank. |
| `ToolPolicy.AllowsTool` | main.go:968-976 | The loop finds out whether the tool is exposed. |
| `ToolPolicy.ToolAllowed` | main.go:1256-1270 | The loop finds out whether the tool is approved. |
| `TurnState.TurnState.HandleRequiredAction` | main.go:704-753 | The section for a required action, in place: its outcome and its effect, for every batch, as the functions of which `Provenance.BatchLogsItsCalls` and `PollOutcome.RoundResultExactly` tell the logged frames and the result. |
| `TurnState.TurnState.RecordContinueResults` | main.go:933-966 | A request is refused, without effect, if and only if it names an id neither pending nor submitted. Otherwise the first payload of each id is kept, and when all pending calls have one, all of them are returned in the order the map was read. |
| `TurnState.TurnState.FindUnknown` | main.go:939-946 | The refused id is one that the request names and the turn does not know. |
| `TurnState.TurnState.BufferResults` | main.go:947-956 | Payloads that are submitted or buffered already are left alone. |
| `TurnState.TurnState.ReadBuffered` | main.go:960-965 | Every pending id is read once, in some order. |
| `TurnState.TurnState.CommitResults` | main.go:546-569 | The section after the remote submit, as one commit. |
| `TurnState.TurnState.End` | main.go:1085-1097 | The first terminal frame wins; a terminal turn does not change. |
| `TurnState.TurnState.EndCompleted` | main.go:771-781 | The section for a completed run, in place: the failure count is cleared also on a finished turn, and a live one gets the frame of `Provenance.RoundLogs`. |
| `TurnState.TurnState.AppendFrame` | main.go:1199-1206 | A frame's sequence number is the new length of the log. |
| `Batching.BatchingConfluence` | main.go:939-966 | Any sequence of continues, in any split, order or duplication, that together deliver every pending call causes one submission, with the first delivered payload of each; otherwise none, and the delivered payloads are buffered. |
| `Batching.ContinueIsTheProtocol` | main.go:508-571 | The continue used for confluence is the protocol's, run without interleaving. |
| `Handlers.ContinueTurn` | main.go:508-571 | From request to reply, with pollers between its sections, the handler takes the system along a run of the protocol and ends with the mutex free. A request that is valid, for this turn and finds it live is too large exactly if a result does not fit when it is checked; not pending exactly if it fits and an id is unknown when it is recorded; a submit error exactly if it passes both, completes the pending calls and the submit fails; and accepted exactly otherwise. Exactly one submission is added if it completes them and the submit works, and none in every other case. |
| `Handlers.CheckAndRecord` | main.go:530-571 | The same from the size check on, for a request that found the turn live. |
| `Handlers.RecordAndSubmit` | main.go:534-571 | From the record on: not pending exactly for an unknown id, a submit error exactly if the pending calls are complete and the submit fails, accepted otherwise; the one submission, if any, covers what was pending at the record, in some order of the map, and what it carries is committed to the turn as the pollers left it. |
| `Handlers.CompletesExactly` | main.go:957-965 | On a turn whose ledger is in order, a continue completes the pending calls if and only if there are some and each has a result, buffered before or in the request. |
| `Handlers.SentIsSettled` | main.go:546-570 | After a continue whose submit worked, every call that was pending when it was recorded is submitted and no longer pending, and the submission carried exactly these, once each. |
| `Handlers.SubmitAndCommit` | main.go:540-571 | A successful submit adds exactly one submission, with what was recorded, and commits it; a failed one adds none and leaves the turn to the pollers. |
| `Handlers.FramesFit` | main.go:895-931 | The size check passes if and only if every result fits as the next frame under the name it would be logged with. |
| `Handlers.CancelTurn` | main.go:573-611 | A cancel is a run of the protocol. It refuses exactly the invalid and mismatched requests, ignores exactly those that find the turn terminal, fails exactly if there is a run that Foundry does not report cancelled in time, and otherwise leaves the turn terminal. |
| `Handlers.ValidateCancel` | internal/harness/protocol.go:414-437 | A cancel request passes if and only if its version is the protocol's and none of its six names is blank. |
| `StreamRuns.StreamIsTheProtocol` | main.go:466-506 | A stream request together with whatever runs in its gaps, pollers, continues that record, submit or commit, and cancels, is a run of the protocol at whose end the turn is as the request leaves it; the request's own steps are a poller's. |
| `StreamRuns.EveryInterleaving` | main.go:689-809 | Nothing is excluded: for any steps of other handlers in the gaps there is an environment in which the request finds exactly what they did. |
| `StreamRuns.StreamGrows` | main.go:466-506 | From a reachable state, and whatever other handlers do meanwhile, the log only grows and stays numbered during a stream request. |
| `Handlers.MutexStepsKeepCount` | main.go:508-611 | No step of a continue or a cancel touches the failure count or takes back the end of the turn. |
| `Cancellation.CancelRun` | main.go:835-869 | Cancelling succeeds if and only if there is no run, or Foundry reports it cancelled before it refuses, reports another end, or the caller gives up. |
| `Polling.PollOutcomes` | main.go:689-809 | A poll that returns without error leaves the turn terminal or with an unanswered call of the batch it saw last, whatever other handlers did meanwhile. |
| `Polling.PollTerminates` | main.go:693-809 | A poll makes at most ceil((deadline - start) / interval) status requests, and none after the deadline. |
| `PollOutcome.RoundResultExactly` | main.go:694-804 | What one answer makes of a poll: it goes on exactly for a run in progress or, on a live turn, calls that are all blank or submitted; it fails exactly for an unavailable status or message, an action without calls, a missing answer or an offending call; in every other case it returns. A failure is fatal exactly for an action without calls, a missing answer, or a first offending call that is not exposed or has bad arguments. The failure count is cleared exactly by an answer that goes on, by an accepted batch with a new or pending call on a live turn, and by a message within 1 MiB. |
| `PollOutcome.PollExactly` | main.go:689-809 | The result of a poll from Foundry's answers: in every round before its last the client is there, the deadline has not passed and the answer lets it go on; the last round decides: timeout or disconnect at the deadline, disconnect after an answer that goes on, failure, or return. One status request goes out in each round before the deadline. |
| `PollOutcome.AttemptExactly` | main.go:483-492 | A stream request counts a failure, or meets a fatal one, exactly if the last answer is one, it came before the deadline and the client is still there. |
| `PollOutcome.EscalatesExactly` | main.go:483-492 | What a request leaves of a live turn: a fatal failure, or a counted one that is the third, ends it with one frame that gives the reason; another counted failure adds one; everything else leaves it as the poll did. |
| `Polling.CeilDivIsCeiling` | main.go:693-809 | The bound is the ceiling of the quotient. |
| `Polling.FailureEscalation` | main.go:484-492 | Over any sequence of stream requests, with continues and cancels at work during and between them, a turn that is not terminal has met no fatal failure and has fewer than three recorded ones, and the count is the number of failed polls since the last reset; disconnects do not count. |
| `Polling.AttemptCounts` | main.go:676-687 | What one request does, with continues and cancels at work: the count is cleared if the poll made progress, then one more if it failed, and a fatal failure leaves the turn terminal. |
| `Polling.Escalate` | main.go:483-492 | A fatal error makes the turn terminal at once, and so does a counted failure that is the third; any other counted failure adds one and changes nothing else; a success or a client that is gone changes nothing. |
| `Polling.EscalateFailure` | main.go:483-492 | The same, in place, with what other handlers do during the remote cancel. |
| `Polling.RunRound` | main.go:694-804 | One round of the poll loop, in place, for every answer of Foundry; `PollOutcome.RoundResultExactly` and `Provenance.RoundLogs` say what it comes to. |
| `Polling.PollFoundry` | main.go:689-809 | The loop, with other handlers at work during each remote call; `PollOutcome.PollExactly` says what it comes to. |
| `Polling.PollOnce` | main.go:483-497 | The part of a stream request between its two snapshots. |
| `EventStream.WriteFollowing` | main.go:474-480 | The loop writes the frames after the cursor and remembers the last. |
| `EventStream.FollowingIsSuffix` | main.go:475-480 | On a numbered log the frames after a cursor are exactly a suffix. |
| `EventStream.TwoSnapshots` | main.go:471-502 | Two snapshots of a growing log written one after the other are the later one written once. |
| `EventStream.StreamEvents` | main.go:466-506 | What a stream request writes is the final log after the cursor, each frame once, and the sentinel if and only if the turn is terminal. |
| `Resumption.ReceivedIsPrefix` | main.go:466-506 | Over any number of connections, each cut after any byte, and frames of any length, a client that reconnects after its last frame holds a gap-free, duplicate-free prefix of the log; when it meets the sentinel it holds the whole log. |
| `Resumption.ResumableStreaming` | main.go:466-506 | The same over every run of the turn, with appends going on and frames of any length; a client that has met the sentinel has the terminal frame. |
| `Resumption.OneConnection` | internal/harness/client.go:352-392 | One connection extends a prefix of the log by exactly the frames that arrived whole before the first that does not fit a line, and to the whole log when the sentinel arrives. |
| `Resumption.ReadFramesBack` | internal/harness/client.go:352-392 | Of a response that breaks after any byte, the client reads exactly those frames, and it meets the sentinel exactly if it arrived and all frames fit. |
| `Resumption.WholeResponseExactly` | internal/harness/client.go:352-392 | A response that arrives whole brings the client up to date if and only if every frame it carries fits a line of the reader. |
| `Resumption.StuckAtOversize` | internal/harness/client.go:380-385 | A frame that does not fit a line is never received, nor anything after it, over any number of connections. |
| `Witnesses.OversizeRequest` | main.go:741-748 | A request frame whose arguments are an 8 MiB number does not fit a line. |
| `Sse.ReadFrames` | internal/harness/client.go:352-392 | The loop over scanned lines computes the reader of `SseRoundTrip.RoundTrip` and `SseTruncation.TruncatedReadsExactly`, with its three ways to fail. |
| `Sse.EventBuffer.Append` | internal/harness/client.go:394-407 | A line is added with a line feed between, or refused without effect if the event would outgrow 8 MiB. |
| `Sse.AppendData` | internal/harness/client.go:394-407 | What has been collected never exceeds 8 MiB. |
| `Sse.ResponseStream.WriteFrame` | internal/harness/transport.go:21-33 | One data line and a blank line are appended. |
| `Sse.ResponseStream.WriteDone` | internal/harness/transport.go:35-43 | The sentinel is appended as an event of its own. |
| `SseRoundTrip.RoundTrip` | internal/harness/client.go:352-425 | For any list of trimmed one-line texts other than the sentinel, reading the written stream gives exactly that list and ignores whatever follows the sentinel, if every text fits a line; otherwise it gives exactly the texts before the first that does not, and the error for a long line. |
| `SseRoundTrip.SkippedLine` | internal/harness/client.go:371-378 | A comment or a line of another field can be put between any two lines of any stream without changing what is read. |
| `SseRoundTrip.ReturnIsDropped` | internal/harness/client.go:353-357 | A line of any stream may end in a carriage return and a line feed. |
| `SseRoundTrip.ReadDataLines` | internal/harness/client.go:371-407 | An event of several data lines is collected as its values joined by line feeds, and refused if and only if that is longer than 8 MiB. |
| `SseRoundTrip.ReadBlank` | internal/harness/client.go:358-366 | A blank line dispatches what was collected: nothing, the sentinel, an error or one frame. |
| `SseTruncation.TruncatedReadsExactly` | internal/harness/client.go:352-392 | A stream that breaks after any byte is read to exactly the frames that arrived before the first that does not fit a line, blank line or not, and how the reader ends is told by where it breaks; provided no proper prefix of a text decodes. |
| `SseTruncation.ArrivingExactly` | internal/harness/client.go:386-392 | A frame has arrived if and only if it and all before it fit a line and its last payload byte arrived. |
| `SseTruncation.SentinelExactly` | internal/harness/client.go:409-416 | However the bytes are cut, the reader meets the sentinel if and only if one was sent, every frame before it fits a line, and its last byte arrived; then it has read every frame. |
| `SseRoundTrip.ReadDone` | internal/harness/client.go:359-366 | The sentinel ends the stream. |
| `FrameJson.EscapeAtMostSixfold` | internal/harness/client.go:33-39 | JSON string escaping makes a text at most six times as long. |
| `FrameJson.EscapeSixfoldReached` | internal/harness/client.go:33-39 | The factor six is reached, at every length. |
| `FrameJson.EscapeIsOneLine` | internal/harness/transport.go:22-28 | An escaped string has no line break. |
| `FrameJson.EscapeHasNoMarkup` | internal/harness/transport.go:22-28 | An escaped string has no angle bracket and no ampersand. |
| `FrameJson.CompactIsOneLine` | internal/harness/transport.go:22-28 | A raw JSON value embedded in a frame has no line break. |
| `FrameJson.CompactHasNoMarkup` | internal/harness/transport.go:22-28 | Neither has a raw JSON value embedded in a frame. |
| `FrameJson.CompactIsDense` | internal/harness/transport.go:22-28 | White space outside strings goes from an embedded value. |
| `FrameJson.CompactKeeps` | internal/harness/transport.go:22-28 | Nothing else does: a value without such white space, markup and line separators stays as it is, white space in its strings included. |
| `FrameObject.EncodeIsPrinted` | internal/harness/protocol.go:239-292 | The encoding of every frame is a JSON object with its members printed in the order of the declaration: the type's name, the ids, the number, the time, and what the kind of frame carries; members that may be omitted are left out exactly when empty. |
| `JsonText.UnescapeEscape` | internal/harness/transport.go:22-28 | Reading an escaped string back gives the text that was written, with the replacement character for bytes that are not well-formed UTF-8 and no other change. |
| `JsonText.EscapeIsInjective` | internal/harness/transport.go:22-28 | Different well-formed texts are written differently. |
| `JsonText.NumberOfDigits` | internal/harness/transport.go:22-28 | A number's digits stand for it. |
| `FrameSize.ResultsReadableExactly` | main.go:765-768 | Every result within the 1 MiB limit can be read back, whatever its bytes, if and only if the rest of its line stays under 2 MiB. |
| `FrameSize.MeasuredIsReadable` | main.go:895-931 | A result that was measured within 4 MiB can still be read back under the same name with its time, summary, metadata and final sequence number. |
| `FrameSize.FrameIsPayload` | internal/harness/transport.go:21-28 | An encoded frame is a payload the reader round-trips if and only if it fits a line, and is never mistaken for the sentinel. |
| `MeasuredRuns.LoggedResultsWereMeasured` | main.go:530-563 | In every run, each logged result is the first accepted payload of its call; all that is logged, buffered and checked is measured under its name at every point if and only if no poll adds a call, between the check and the record of a continue that names it, under a name with which its result does not fit. |
| `MeasuredRuns.PollKeepsSizesExactly` | main.go:711-752 | A single poll leaves everything measured if and only if it does no such thing; a batch that is refused, comes after the end or gives a fitting name does not. |
| `MeasuredRuns.LoggedResultsAreReadable` | main.go:895-931 | In such a run each logged result can be read back from the event stream. |
| `MeasuredDue.MeasuredExactly` | main.go:530-563 | From any reachable state, while nothing else is started: every continuation logs only measured results if and only if the continue in flight is not about to log an unmeasured one. |
| `MeasuredDue.TerminalMeasuredExactly` | main.go:522-563 | On a terminal turn the same holds of all continuations. |
| `MeasuredDue.MeasuredMeansNothingDue` | main.go:895-966 | Where all that is checked, buffered and logged is measured, nothing unmeasured is due. |
| `Witnesses.LoggedUnmeasured` | main.go:902-905 | From an acceptable request with the largest result that fits under the call's id, and a tool name one letter longer, a run exists that logs the result under the name with which it does not fit. |
| `ContinueRequest.Validate` | internal/harness/protocol.go:439-488 | A continue request is accepted if and only if it is complete and its results are non-empty, distinct, answered, keyed canonically and of this turn; a refusal points at the first bad result. |
| `ContinueRequest.ValidateHeader` | internal/harness/protocol.go:440-463 | The checks of the request itself, and which of them failed. |
| `ContinueRequest.ValidateResults` | internal/harness/protocol.go:464-487 | The loop passes if and only if every result is good, and otherwise names the first that is not. |
| `ContinueRequest.ValidateResult` | internal/harness/protocol.go:465-486 | The checks of one result, and which of them failed. |
| `ContinueRequest.AcceptedResult` | internal/harness/protocol.go:439-488 | Each result of an accepted request has the protocol's version and the request's session and turn, a call id of its own, an output or an error, and session, turn and call id as its key. |
| `ContinueRequest.KeySpelled` | internal/harness/protocol.go:688-694 | A key is the session, the turn and the call id, trimmed, with colons between. |
| `ContinueRequest.KeysOfOneTurn` | internal/harness/protocol.go:688-694 | Within a turn, two calls share an idempotency key if and only if their ids agree but for surrounding white space. |
| `ContinueRequest.KeysAcrossTurns` | internal/harness/protocol.go:688-694 | Across turns too, where session and turn ids have no colon. |
| `ContinueRequest.KeysCollide` | internal/harness/protocol.go:688-694 | With a colon in an id, two sessions can share the key of a call. |
| `ContinueRequest.KeysOfAcceptable` | internal/harness/protocol.go:464-476 | Two results of an accepted request share a key if and only if their ids differ in white space only. |
| `ContinueRequest.SharedKeyAccepted` | internal/harness/protocol.go:464-476 | A request with one key on two results can be accepted. |
| `TurnPath.ParseBuild` | internal/harness/turn_path.go:36-93 | Parsing a built path gives back turn id and resource name if and only if that name has no surrounding white space. |
| `TurnPath.BuildExactly` | internal/harness/turn_path.go:21-45 | A path is built if and only if the id is trimmed and neither it nor the resource name is empty, a dot segment, or has a slash or backslash; it is the prefix, the escaped id and the resource name, and the escaped id is again one safe segment. |
| `TurnPath.PaddedResourceLost` | internal/harness/turn_path.go:40-40 | A concrete resource that the builder accepts and the parser does not give back. |
| `TurnPath.PlainResourceName` | internal/harness/turn_path.go:40-40 | A resource without surrounding white space or slashes is its own name, so it always comes back. |
| `TurnPath.PathsAreInjective` | internal/harness/turn_path.go:36-45 | Different turns or resources have different paths. |
| `TurnPath.ParsedIsValid` | internal/harness/turn_path.go:70-93 | Whatever is parsed, the id is one the validator accepts and the resource is one segment. |
| `TurnPath.ParseSegments` | internal/harness/turn_path.go:70-93 | A path of two segments under the prefix is accepted if and only if the first decodes to a valid id and the second has no backslash; otherwise the error is that of the first check that fails. |
| `TurnPath.OtherPaths` | internal/harness/turn_path.go:70-80 | A path outside the prefix, or of any other number of segments, is not found. |
| `TurnPath.UnescapeEscape` | internal/harness/turn_path.go:44-44 | Percent-decoding undoes percent-encoding (section 2.1 of RFC 3986). |
| `TurnPath.EscapedExactly` | internal/harness/turn_path.go:44-44 | An id is its own segment if and only if it has only characters that stand for themselves in one; the segment of any id has only these and percent signs. |
| `TurnPath.EscapedSlash` | internal/harness/turn_path.go:44-44 | A slash becomes a percent sign and two upper-case digits, which are read in either case; a cut escape is refused. |
| `RegistryRuns.RunOnce` | main.go:331-379 | Over any run of the server, live and tombstoned ids are disjoint, and between two recorded runs for one id the first turn has completed and its tombstone has expired or been evicted from a full table. |
| `RegistryRuns.TimersRemoveTheirTurn` | main.go:1099-1109 | A cleanup timer is armed once for a turn object; it finds that very object in the table, removes it and leaves its tombstone. |
| `RegistryRuns.UnfinishedStays` | main.go:331-357 | An unfinished turn stays in the table, so its id cannot be started again. |
| `RegistryRuns.TombstonesBounded` | main.go:1169-1197 | In every run of the server, whatever the times, there are at most 10,000 tombstones; one that is gone had expired or was evicted from a full table, and one that stands is in the table. |
| `RegistryThreads.SafeCollection` | main.go:1117-1158 | From the choice of candidates until a deleted thread is forgotten no running turn is on it, and no run is created or recorded on a deleted thread. |
| `RegistryThreads.DeletedNeverUsed` | main.go:614-674 | A deleted thread is never run on, nor mapped once it is forgotten, in any later step. |
| `RegistryThreads.CollectedAreIdle` | main.go:1117-1133 | In every run of the server, a cleanup collects a session if and only if it has a thread, its last run was recorded more than ten minutes before the time the cleanup captured, and no running turn is on the thread. |
| `RegistryThreads.SeenIsLastRun` | main.go:663-673 | The time a session's thread was last seen is the time of the last run that was recorded for the session. |
| `RegistryCleanup.NoOrphanedThread` | main.go:1099-1158 | If every cleanup captures a time that makes its own turn's thread old enough, which it fails to do only when the thread was last seen, the turn ended and the timer came due at coinciding times, then every mapped thread is on a running turn, or a turn of its session that ended no earlier than it was last seen has its cleanup armed, or a cleanup that finds it old enough is queued or in progress, or a retry is armed. |
| `RegistryCleanup.TickedUnlessDue` | main.go:1101-1125 | A cleanup fails to make its own turn's thread old enough exactly if the thread was last seen when the turn ended and the timer fires when it is due. |
| `RegistryCleanup.FireCoversExactly` | main.go:1101-1107 | A thread whose only cover is one armed timer is covered after it fires if and only if the thread was not last seen at the time the turn ended or the timer fires later than it is due. |
| `RegistryCleanup.SweepCoversExactly` | main.go:1119-1133 | A thread that nothing but one queued cleanup can collect is covered before the sweep, is among its candidates, and is covered after, each if and only if the captured time is more than the retention after the thread was last seen. |
| `RegistryOrphan.OrphanedRun` | main.go:1099-1158 | For any turn and thread a run exists that leaves the thread mapped with its only turn ended and no cleanup armed, queued or in progress, and no retry. |
| `RegistryTranscript.TranscriptConserved` | main.go:614-674 | The user messages on a session's thread are exactly the prompts of the turns whose run was recorded on it, in order and once each, whichever request carried them; every created thread is mapped, being set up, or was given to a delete. |
| `Server.Server.StartTurn` | main.go:329-371 | The first section of a start, in place: its answer, which `Replies.ReplyExactly` tells from the steps the server has taken; a turn is registered only with the answer that creates it; expired tombstones go in any case. |
| `Replies.ReplyExactly` | main.go:331-360 | The answer to a start at any point of any run of the server. While a turn of that id is unfinished or waits for its cleanup timer: that its initialisation is running, exactly until its run is recorded, and then the replay for the request it was started with and a refusal for any other. While its tombstone stands unexpired, a day from the time its timer captured: not replayable for that same request and an id consumed for any other. In every other case, and only then, a turn is created. |
| `Replies.CreatedExactly` | main.go:331-371 | A turn is created if and only if no turn of that id is in the table and none is remembered by an unexpired tombstone. |
| `Replies.KeptTenMinutes` | main.go:1099-1101 | A completed turn is replayable for at least ten minutes. |
| `Server.Server.CompleteTurnInitialization` | main.go:381-389 | The turn goes live, or leaves the table. |
| `Server.Server.LookUpThread` | main.go:628-637 | Whether the session has a thread to run on. |
| `Server.Server.RecordRun` | main.go:663-673 | The run is recorded on the turn, and the session's thread is seen now. |
| `Server.Server.FireCleanup` | main.go:1101-1107 | The timer's section: tombstone, and removal of the turn. |
| `Server.Server.ThreadInUse` | main.go:1160-1167 | True if and only if some turn in the table is not completed and runs on the thread. |
| `Server.Server.CollectExpired` | main.go:1117-1133 | The loop finds exactly the sessions whose thread is old enough and unused, once each. |
| `Server.Server.ForgetThread` | main.go:1145-1151 | A mapping is dropped only if it is still the one that was collected. |
| `Tombstones.OldestExactly` | main.go:1175-1183 | The search finds a least entry in every iteration order if and only if the least expiry is not the zero time, or all entries have it. |
| `Tombstones.OldestAfterPrune` | main.go:1173-1183 | After pruning, it always does. |
| `Tombstones.BoundedMemory` | main.go:1169-1197 | Over any run of prunes and records, at whatever times, there are at most 10,000 tombstones and none goes unless it has expired or the table was full. |
| `Tombstones.OldestGoesFirst` | main.go:1169-1197 | If record times never go backwards, what went expires no later than what is kept. |
| `Tombstones.RecordStaysBounded` | main.go:1169-1189 | One record keeps the bound, for any time and any order in which the map is read. |
| `Tombstones.NothingElseRemoved` | main.go:1169-1197 | An id once recorded is in the table or among what went. |
| `Tombstones.FromEmpty` | main.go:1169-1197 | From an empty table: the bound and the reasons for removal over every run, and the oldest first if record times never go backwards. |
| `Tombstones.TombstoneTable.PruneExpired` | main.go:1191-1197 | Exactly the expired entries go. |
| `Tombstones.TombstoneTable.RecordTombstone` | main.go:1169-1189 | Prune, search, evict and insert, in place, for the order in which the map was read. |
| `Locks.EveryProgramIsDisciplined` | main.go:508-571 | On every path of every handler and timer callback, early returns with their own unlocks included, the server mutex is innermost, the other locks are never nested, nothing slow happens under the server mutex, calls that must not overlap are made with their lock held, and every lock is released. |
| `Locks.NeverStuck` | main.go:381-402 | In every reachable state of any number of handlers and timers, unless all are done, one can go on. |
| `Locks.NoWaitCycle` | main.go:1099-1158 | The wait-for graph has no cycle in any reachable state. |
| `Locks.ServerMutexInnermost` | main.go:689-809 | Whoever holds the server mutex is about to release it, or to create or close a channel. |
| `Locks.GuardedCallsAlone` | main.go:622-675 | In every reachable state at most one handler is at a call for threads or runs, at most one at a status or message request of a turn, and at most one at a submission of a turn; and it holds the session mutex, that turn's poll mutex, or its continue mutex. |
| `Locks.ClosedOnce` | main.go:381-402 | A turn's channel is never closed twice, an open one has exactly one thread that will close it, and who waits for one holds no lock. |
| `Locks.DoneHoldsNothing` | main.go:614-674 | A handler that has returned holds no lock and has closed the channel of the turn it made. |

## Left out

- HTTP plumbing, authorization, health, capabilities and environment parsing: remote calls are success, failure or an answer chosen by the environment.
- JSON decoding of whole frames: `SseTruncation` and `Resumption` take any decoder that gives back an encoded frame and rejects its proper prefixes. Encoding is written out in `FrameJson`, and `JsonText` reads its strings and numbers back.
- Redaction and sanitizing of messages: messages are parameters.
- Endpoint safety checks, and the field-presence validators other than the continue request's: each is settled by one branch.
- `turnMessageThreads`: it is only ever deleted from.
- A turn's polling deadline and the parsing of a stream request's cursor: parameters.
- The advertised limit of one concurrent turn: the adapter does not enforce it.
- The poll mutex in `TurnProtocol`: polls may overlap there, so its runs include all that the mutex allows. `Locks` has it.
- Empty thread ids and reused thread ids from Foundry: created threads are taken to be fresh and not empty.
- Remote calls that fail after taking effect: a failed call is taken to have had none.
- Write errors to a client: writes succeed, and a broken connection is a prefix of the bytes.
- Errors from the reader's emit callback, and the reader telling its caller whether it met the sentinel or the end of input: the reader returns no error for both, and only the specification tells them apart.
- Turn objects in `Server` are records in a table, numbered in the order they were made, not heap objects.
- Turn fields of the registry and of `TurnProtocol` are separate models of one turn: the registry keeps the phase and the thread, the protocol keeps log and ledger.
- Handlers.ContinueTurn: what runs between its sections are steps of pollers and failing streams; another continue or cancel waits for the continue mutex.
- EventStream.StreamEvents: assumes a positive poll interval and that the log has only grown when the request takes its last look, which `StreamRuns.StreamGrows` gives in every reachable state, whatever other handlers do.
- Polling.FailureEscalation: is about stream requests that run one after another; overlapping stream requests share the counter.
- Tombstones.OldestGoesFirst: assumes that record times never go backwards. Each cleanup captures its time before it takes the mutex, so two of them can record in the other order; the bound does not depend on it.
- A client that leaves while its request waits for a turn's initialisation: in `Locks` the wait only ends when the channel is closed, so the deadlock freedom proved is the stronger one.
- Cancellation.CancelRun: assumes that the caller gives up at some point; without that the wait has no bound.
