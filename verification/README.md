# Verification of the agent kernel

A Dafny model of the kernel that runs an agent's turns, with proofs of what its design promises. It covers the turn
loop over an append-only session log, the context that is materialized from that log, the fold of a provider stream
into a response, the two queue workers behind progress display and event log, paging and forking of sessions, the
simultaneous text edits of the edit tool, and the sanitizing of messages for another provider.

The central promise is that a recorded tool call is closed on every way out of a turn, so that the next turn always
finds a conversation it can send. It needs the loop, the tool runtime, the classifier, the commit rules and the
pairing automaton together, and is `TurnLog.TurnClosure`; `TurnLog.TurnFaultTolerance` says what is left of it when
appends fail.

`dafny verify dfyconfig.toml` checks everything.

## How the model is built

The outside is a script. A `World` answers by the time at which it is asked: the provider's stream (items, delays,
errors), approval answers, executor outcomes, waiting times, and whether an append works. A cancellation token is the
time from which it is cancelled. A time is one observation or one wait, and also serves as a fresh id. Every theorem
holds for every world.

| part | files |
|---|---|
| values, log items, events | `Protocol`, `Tools`, `SessionTypes`, `TurnEvents` |
| context materialization, and the grammar of logs it accepts | `Materialize`, `LogGrammar` |
| session store, fork and reload | `SessionStore` |
| stream fold, and its declarative meaning | `ResponseBuilder`, `StreamFold` |
| classification, permission chain | `ResponseAction`, `ToolRuntime` |
| the turn as a function, and as the loop that mutates session and trace | `TurnSpec`, `AgentLoop` |
| theorems about turns | `TurnLog`, `TurnRounds`, `TurnStory`, `TurnLoss`, `TurnLedger`, `TurnRequests`, `TurnProtocol`, `TurnGuarantees` |
| handoff, paging, edits | `Handoff`, `TurnPages`, `Edits` |
| failures that senders of a queue meet, and what a status says of them | `QueueFailures` |
| progress derivation and its queue worker | `ProgressEvents`, `ProgressQueue` |
| event file, and its queue worker | `EventRecorder`, `EventLog` |

`AgentLoop.RunTurn` and its parts are loops over mutable fields, proved equal to the functions of `TurnSpec`; the
theorems are about those functions. Both queue workers are step functions over arbitrary interleavings of arrivals
and worker steps, with the worker loops proved to be runs of them. Histories (what was accepted, skipped, written,
observed, and how long the log was when an executor started) are part of the state of the specification.

## What the proofs found

- The builder refuses some streams that keep the stream invariants of `crates/agent-core/src/llm/tests.rs`: a tool id
  that has finished but still waits behind an unfinished tool cannot be started again
  (`StreamFold.RestartBehindUnfinishedIsRefused`). `StreamFold.AcceptedIff` gives the exact condition.
- An edit's `old_string` counts as unique if a scan for non-overlapping matches finds one, even if it occurs more
  often (`Edits.ScannedOnceMayOccurTwice`); `Edits.ScanCountsOccurrencesIff` says for which strings the two agree.
- A tool result whose nested content holds only thinking blocks, or nothing, disappears when messages are handed off,
  and its tool use then stands alone (`Handoff.HollowResultIsLost`); `Handoff.HandoffKeepsPairingIff` says exactly when
  pairing is kept. Materialized conversations are safe because their results are plain text.
- A turn that cannot append one of its calls, after the first, or one of its results leaves a session that may still be
  forked at its last item, and the fork then refuses every turn as the parent does (`TurnLoss.DanglingForkIsReachable`).
  For a lost result the turn's error says so; for a lost call the error is the one a lost prompt gives
  (`TurnLoss.ErrorAloneDoesNotTell`), and only the last item of the log tells. `TurnLoss.TurnClosesIff` gives the exact
  condition.
- Both queues can lose a stop from their status: a sender that met a full queue marks its drop without looking whether
  the worker has been marked as stopped meanwhile (`ProgressQueue.LateDropHidesStop`, `EventLog.LateDropHidesStop`).
  `ProgressQueue.StopLastsIff` and `EventLog.StopLastsIff` say exactly which stops last.
- The event recorder writes a line with the last 64-bit number before it notices the overflow, and repeats that number
  from then on (`EventRecorder.LongRunRepeatsANumber`, `EventRecorder.HistoryRepeatsIff`).

## Model

| member | source | states |
|---|---|---|
| `Materialize.MaterializeLog` | crates/agent-core/src/context/materialize.rs:28-69 | the loop over messages and phase computes exactly the automaton of the specification, error for error |
| `LogGrammar.MaterializesIffRounds` | crates/agent-core/src/context/materialize.rs:28-207 | a log materializes if and only if, checkpoints erased, it is a sequence of plain messages and closed rounds: calls with distinct ids, then a permutation of same-id, same-name results |
| `LogGrammar.MaterializesToRender` | crates/agent-core/src/context/materialize.rs:95-173 | whichever way a log is cut into plain messages and rounds, its messages are their rendering: per round one assistant message of tool uses with id, name and input in call order, and one user message of results in arrival order, each with its id and its text or written-out JSON |
| `LogGrammar.ScanIgnoresCheckpoints` | crates/agent-core/src/context/materialize.rs:28-69 | checkpoints change neither the messages nor the phase, wherever they stand |
| `LogGrammar.MaterializeConcat` | crates/agent-core/src/context/materialize.rs:28-69 | after a log that materializes, any other log gives its own messages appended, or its own error |
| `LogGrammar.ScanCalls` | crates/agent-core/src/context/materialize.rs:95-120 | distinct calls open a round that holds all of them in order, and nothing is emitted yet |
| `LogGrammar.ScanResults` | crates/agent-core/src/context/materialize.rs:122-207 | any results that settle distinct pending calls are accepted, and the round is emitted exactly when the last one arrives |
| `LogGrammar.ScanRound` | crates/agent-core/src/context/materialize.rs:95-207 | calls followed by results for some of them leave exactly the unanswered ones pending |
| `LogGrammar.PendingIsUnanswered` | crates/agent-core/src/context/materialize.rs:175-221 | what is pending after a scan is exactly the recorded calls that no later result answers |
| `LogGrammar.OpenRoundRefuses` | crates/agent-core/src/context/materialize.rs:84-207 | what an open round refuses and with which error follows from its calls and results alone: other items, calls behind results, repeated calls, and results that no pending call of this id and name waits for |
| `LogGrammar.FirstRefusalDecides` | crates/agent-core/src/context/materialize.rs:28-69 | a log that cannot be scanned fails with the error of its first refused item |
| `Tools.BlankIffTrimsAway` | crates/agent-core/src/session/types.rs:184-200 | an identity counts as empty exactly if nothing is left of it after trimming white space from both ends |
| `SessionStores.SessionStore.CommitItem` | crates/agent-core/src/session/store.rs:72-99 | a commit succeeds exactly for a draft whose turn does not go back and whose text and identities are not empty, if the line can be appended; the item then carries the given id and time, the next number, the session, and the draft's turn and payload; a refused draft is told why, and a refused or failed commit leaves memory and file as they were |
| `SessionStores.CommitKeepsWellFormed` | crates/agent-core/src/session/store.rs:72-99 | an accepted commit keeps everything that loading checks: sequence numbers from 0, the session id, non-decreasing turns, and non-blank identities of calls and results |
| `SessionStores.SessionStore.Fork` | crates/agent-core/src/session/store.rs:101-142 | a fork succeeds exactly when the boundary is the last item of its turn, the child file is created and every append works; it then holds the items up to the boundary, renumbered under the new session id, and a header naming the parent |
| `SessionStores.ForkWellFormed` | crates/agent-core/src/session/store.rs:113-142 | rebased items would load again, and carry the same payloads |
| `SessionStores.ValidateLoadedItems` | crates/agent-core/src/session/store.rs:175-220 | loading accepts exactly the well-formed logs, and otherwise names the first faulty line and the first of the five kinds of fault that it has |
| `SessionStores.WellFormedSnoc` | crates/agent-core/src/session/store.rs:175-220 | a log stays well-formed exactly when its next line has no fault of its own |
| `SessionStores.Load` | crates/agent-core/src/session/store.rs:57-70 | a session opens exactly when its version is 1 or 2 and its lines are well-formed, with those items in memory |
| `SessionStores.Reload` | crates/agent-core/src/session/store.rs:57-70 | whatever was created, committed, forked or loaded loads back to the same items and the same next sequence number |
| `ResponseBuilder.ModelResponseBuilder.Apply` | crates/agent-core/src/llm/response_builder.rs:63-151 | one stream event changes the builder as specified, or is refused, and yields the snapshot of the new state, whose meaning is StreamFold.SnapshotOfStream |
| `ResponseBuilder.ModelResponseBuilder.EnsurePart` | crates/agent-core/src/llm/response_builder.rs:183-209 | another kind or block index closes the open part and opens a new one; the same one stays open |
| `ResponseBuilder.ModelResponseBuilder.FlushOpenPart` | crates/agent-core/src/llm/response_builder.rs:211-225 | the open part becomes a block if it holds any text |
| `ResponseBuilder.ModelResponseBuilder.FlushFinishedTools` | crates/agent-core/src/llm/response_builder.rs:227-248 | the loop moves finished tools from the front of the queue into the content, and stops at the first unfinished one |
| `ResponseBuilder.ModelResponseBuilder.Finish` | crates/agent-core/src/llm/response_builder.rs:163-181 | a response needs a finish, an empty tool queue, and then carries the content and metadata |
| `StreamFold.ResponseOfStream` | crates/agent-core/src/llm/response_builder.rs:63-248 | of any accepted stream the tool blocks are the started ids in start order, each with its own finish, the other blocks are the maximal non-empty runs of one kind and index broken by tool starts, and the metadata is that of the last event |
| `StreamFold.ContentOfStream` | crates/agent-core/src/llm/response_builder.rs:63-248 | the whole content after every prefix, runs and tools in their order: each run stands where a cut, a run of another kind or the end closed it, and each tool where it and all tools started before it had finished |
| `StreamFold.SnapshotOfStream` | crates/agent-core/src/llm/response_builder.rs:153-271 | the whole snapshot after every prefix, from its events alone: the completed blocks; as pending the first started unfinished tool with its name and all input it was given, or else the open run of text or thinking if it is not empty; and the stop reason and usage once the stream has ended |
| `StreamFold.FoldInvariant` | crates/agent-core/src/llm/response_builder.rs:63-248 | after every prefix: content, open part and queue together are the runs and slots of the events so far; queued ids are distinct and the front of the queue is unfinished |
| `StreamFold.RunsKeepText` | crates/agent-core/src/llm/response_builder.rs:183-225 | grouping into runs loses and repeats no text, for text and for thinking |
| `StreamFold.SnapshotsGrow` | crates/agent-core/src/llm/response_builder.rs:153-161 | the content of every snapshot is a prefix of the content of every later one |
| `StreamFold.FoldsIffFoldable` | crates/agent-core/src/llm/response_builder.rs:87-150 | which event sequences the builder takes without an error, for all sequences: tools started before they are fed or finished, nothing finished early, no blocked restart |
| `StreamFold.AcceptedIff` | crates/agent-core/src/llm/response_builder.rs:87-181 | a stream folds and finishes exactly when it keeps the stream invariants and restarts no id that is still queued behind an unfinished tool |
| `StreamFold.AcceptedWithDistinctIds` | crates/agent-core/src/llm/tests.rs:300-344 | for streams whose tool ids are distinct, acceptance is exactly the stream invariants |
| `StreamFold.RestartBehindUnfinishedIsRefused` | crates/agent-core/src/llm/response_builder.rs:87-96 | a concrete stream that keeps the stream invariants and is refused: it restarts a finished tool that still waits behind an unfinished one |
| `TurnRounds.ModelCallFolds` | crates/agent-core/src/llm/provider.rs:34-53 | a model call that succeeds has folded its whole stream, without an error, into the response it returns |
| `TurnRequests.ModelCallEnds` | crates/agent-core/src/llm/provider.rs:34-53 | every model call shows one snapshot per event it takes and ends at the first of: a cancellation during a wait, an error of the stream, handed on as it is, an event the builder refuses, or the end of the stream; builder errors are never recoverable |
| `TurnRequests.AttemptTells` | crates/agent-core/src/loop/agent_loop.rs:103-204 | an attempt is determined by the stream the provider gives to it: its start, one request, the snapshots, the response if there is one, and an end whose outcome names success, unusable response, cancellation or the kind of failure; and what it hands on |
| `ResponseActions.ClassifyResponse` | crates/agent-core/src/loop/response.rs:25-66 | the loop over the blocks, with its set of ids, computes the specified classification or the first error |
| `ResponseActions.ClassifiesIffUsable` | crates/agent-core/src/loop/response.rs:25-66 | a response is acted on exactly when it has no result blocks, its calls have non-blank distinct identities, and it has calls if and only if it stopped for tools; its text and calls are then kept in order |
| `ResponseActions.UnusableFor` | crates/agent-core/src/loop/response.rs:25-66 | an unusable response is refused for its first block that cannot be acted on, or for calls that do not fit the way it stopped |
| `ToolRuntimes.ConstructedIff` | crates/agent-core/src/loop/tool_runtime.rs:62-91 | a runtime is constructed exactly with one permission per registered tool, and with a handler if any tool asks |
| `ToolRuntimes.ConstructedRuntimeHasNoFallback` | crates/agent-core/src/loop/tool_runtime.rs:93-142 | for every runtime that can be constructed the two denial fallbacks are dead; a call of a registered tool with valid input may run exactly if the tool is allowed, and must be asked about exactly if its permission is to ask |
| `TurnStory.ResultTellsWhatHappened` | crates/agent-core/src/loop/tool_runtime.rs:93-230 | unknown tool and invalid arguments exactly when found so, denied exactly when the user denied, with the reason given, succeeded or failed only after the executor ran, unknown only after it ran or on a cancellation, and a call reported cancelled never reached its executor |
| `TurnStory.RunsIffPermitted` | crates/agent-core/src/loop/tool_runtime.rs:110-180 | a call whose token is not cancelled before it is over is asked about exactly if its tool asks, and runs exactly if its tool is allowed or the answer was yes |
| `TurnStory.ExecutorDecides` | crates/agent-core/src/tools/registry.rs:43-66 | once its executor was started at a time, a call comes to exactly what the executor returned then, if that has the call's id and name and a status of an ended execution and the token was not cancelled before; and otherwise to an unknown outcome, with the fitting error |
| `TurnStory.AnswerDecides` | crates/agent-core/src/loop/tool_runtime.rs:158-192 | a call that was asked about comes to exactly what an answer other than a yes says: denied with its reason, cancelled by the user, or disposed of with the error of the handler |
| `TurnStory.RunOrStopped` | crates/agent-core/src/loop/tool_runtime.rs:93-220 | a call that could be run was run, was answered by something else than a yes, or was stopped by the cancelled token: before anything was done, while being asked about, or too close to the start to be known |
| `TurnLog.ExecuteCallResult` | crates/agent-core/src/loop/tool_runtime.rs:93-230 | on every path the result carries the call's id and name; a call that lets the round go on is never cancelled, and one that stops it is cancelled by user or disposal, or of unknown outcome, with no error for a user's cancellation and the handler's exactly for disposal |
| `AgentLoops.AgentLoop.EmitEvent` | crates/agent-core/src/event/pipeline.rs:37-62 | a committable event is committed first and shown only if that worked; an empty assistant marker is shown without a commit |
| `AgentLoops.AgentLoop.RunModelCall` | crates/agent-core/src/llm/provider.rs:34-53 | the loop over the stream shows one snapshot per event until an error, a cancellation or the end |
| `AgentLoops.AgentLoop.RunAttempt` | crates/agent-core/src/loop/agent_loop.rs:103-204 | one attempt of a model call, from its start event to its classified end |
| `AgentLoops.AgentLoop.CallModel` | crates/agent-core/src/loop/agent_loop.rs:100-212 | the retry loop |
| `AgentLoops.AgentLoop.RunCall` | crates/agent-core/src/loop/tool_runtime.rs:93-230 | the chain of decisions about one call, with every early return, equals the function of which TurnStory.RunsIffPermitted, TurnStory.ExecutorDecides and TurnStory.ResultTellsWhatHappened say the meaning |
| `AgentLoops.AgentLoop.CommitParentResults` | crates/agent-core/src/loop/agent_loop.rs:325-348 | the cleanup loop goes on past failed commits and collects them |
| `AgentLoops.AgentLoop.ProcessToolRound` | crates/agent-core/src/loop/agent_loop.rs:268-323 | the loop over a round's calls, with both ways of aborting it |
| `AgentLoops.AgentLoop.RunStep` | crates/agent-core/src/loop/agent_loop.rs:91-263 | one step equals the function of which TurnRequests.TurnsAskTheConversation, TurnRounds.StreamToNextRequest and TurnLoss.TurnClosesIff say what it asks and leaves |
| `AgentLoops.AgentLoop.RunTurn` | crates/agent-core/src/loop/agent_loop.rs:65-266 | the whole turn as an in-place computation on session, trace and clock equals the function the theorems below are about |
| `TurnLog.TurnClosure` | crates/agent-core/src/loop/agent_loop.rs:65-348 | if no append fails, a log that materializes when a turn starts materializes on every exit, for every stream, approval, execution and cancellation moment |
| `TurnLog.TurnFaultTolerance` | crates/agent-core/src/loop/agent_loop.rs:65-348 | whatever appends fail, scanning never meets another error than dangling calls, and those are exactly the recorded calls without a committed result |
| `TurnLog.TurnKeepsLogHealthy` | crates/agent-core/src/loop/agent_loop.rs:65-348 | every exit only appends items of the new turn, and leaves a log that can be scanned |
| `TurnLog.TurnRefusedIff` | crates/agent-core/src/loop/agent_loop.rs:70-78 | which turns are refused, and for what: a policy out of range, an empty text, a log that does not materialize, with its error, or no turn number left; a refused turn shows and appends nothing |
| `TurnLog.TurnIsNumberedNext` | crates/agent-core/src/session/store.rs:152-161 | a turn only appends, and all its items carry one number, 0 in an empty log and otherwise exactly one more than the last item's |
| `TurnLog.TurnEndsAreBoundaries` | crates/agent-core/src/session/store.rs:152-173 | over any run of turns the end of every earlier turn is a boundary: it may be forked at, and what follows it belongs to later turns |
| `TurnRequests.TurnShowsItsEnds` | crates/agent-core/src/loop/agent_loop.rs:65-266 | a turn shows anything exactly if it is not refused or cancelled before it begins, first its beginning; and it shows its end, as the last thing, exactly if it returns a response or has run out of steps |
| `TurnRequests.CancelledBeforePrompt` | crates/agent-core/src/loop/agent_loop.rs:80-84 | cancelled before its prompt is committed, a turn commits nothing |
| `TurnLog.OpenLogRefusesTurns` | crates/agent-core/src/loop/agent_loop.rs:70-77 | a log with a pending call refuses every turn, with no event and no append |
| `TurnLog.OpenLogStaysOpen` | crates/agent-core/src/loop/agent_loop.rs:70-77 | so does any run of turns on it |
| `TurnLog.TurnsKeepHistory` | crates/agent-core/src/loop/agent_loop.rs:65-348 | over any run of turns, failed appends included, every prefix that ends at the end of a turn before the last one materializes |
| `TurnLog.NewSessionsKeepHistory` | crates/agent-core/src/loop/agent_loop.rs:65-348 | in particular in a session that starts empty |
| `TurnLog.ForkMaterializes` | crates/agent-core/src/session/store.rs:101-173 | a fork at an accepted boundary materializes to the parent's messages up to it, and does so always except when the boundary is the end of a log with pending calls |
| `TurnLog.ForkKeepsHistory` | crates/agent-core/src/session/store.rs:101-173 | the fork again has every turn but possibly its last one closed, so that runs of turns keep this in the child too |
| `TurnLog.RecordCallsAdds` | crates/agent-core/src/loop/agent_loop.rs:240-248 | recording appends a prefix of the calls in order, all of them unless an append failed |
| `TurnLog.ToolRoundAdds` | crates/agent-core/src/loop/agent_loop.rs:268-348 | a round appends results of its own calls only, in call order and at most one each, and one for every call exactly when it reports no failed commit and no failed cleanup |
| `TurnRounds.RoundPartition` | crates/agent-core/src/loop/agent_loop.rs:268-348 | a round that reports no failed append commits one result per call in call order, cancelled-by-parent marks exactly the calls after the first one that aborted, and the error names what stopped it |
| `TurnRounds.StreamToNextRequest` | crates/agent-core/src/loop/agent_loop.rs:228-255 | after every closed tool round, whether the step goes on, runs out of steps or was cancelled or aborted without a failed append, the messages are the previous ones, the stream's text runs as one assistant message if any, its tools in start order with their finishes, and one result per call in call order |
| `TurnRounds.ToolRoundsAreClosed` | crates/agent-core/src/loop/agent_loop.rs:240-320 | with no append failing, every step whose response asks for tools closes its round in this sense |
| `TurnRounds.AttemptsAskTheSame` | crates/agent-core/src/loop/agent_loop.rs:93-121 | all attempts of a step send the same request |
| `TurnStory.StepAsksTheLog` | crates/agent-core/src/loop/agent_loop.rs:93-134 | every request of a step carries the system prompt, the messages of the log as the step found it and the id it goes on from, and its tool round asks nothing |
| `TurnRequests.TurnsAskTheConversation` | crates/agent-core/src/model_input/compile.rs:17-40 | over any run of turns every request carries the system prompt, the whole conversation as committed by then, and the id of the turn's latest response that had one, or else the given one; and no model call and no executor starts once the token is cancelled |
| `TurnStory.RetriesIffRecoverable` | crates/agent-core/src/loop/agent_loop.rs:175-204 | an attempt is followed by another exactly after a recoverable failure, while retries remain and nobody has cancelled |
| `TurnStory.ClosedTurn` | crates/agent-core/src/loop/agent_loop.rs:65-348 | a turn that returns a response, runs out of steps, or is aborted or cancelled in a round without a failed append, has added the prompt, its closed rounds, each asked for by an accepted stream of the provider, and the reply if there is one, in this order; with a reply it has announced its end, and out of steps it has used all of them |
| `TurnLoss.TurnClosesIff` | crates/agent-core/src/loop/agent_loop.rs:65-348 | on every exit of a turn the log materializes exactly if it did before and the turn was neither aborted with a failed result commit or cleanup, nor ended by a failed commit with a call as the last item of the log |
| `TurnLoss.RecordingClosesIff` | crates/agent-core/src/loop/agent_loop.rs:240-248 | recording the calls of a round stops at the first failed append without closing anything: the log stays closed exactly if no call has got into it |
| `TurnLoss.ErrorAloneDoesNotTell` | crates/agent-core/src/loop/agent_loop.rs:240-248 | two concrete worlds whose turns end in the same error: a prompt that cannot be appended leaves the log closed, a second call that cannot be appended leaves the first one pending |
| `TurnLoss.DanglingForkIsReachable` | crates/agent-core/src/session/store.rs:101-173 | concrete worlds in which a call or a result cannot be appended: the log stays open, its last item is an accepted fork boundary, and the fork refuses every turn |
| `TurnProtocol.TurnFollowsProtocol` | crates/agent-core/src/loop/agent_loop.rs:65-348 | what a turn shows and does is accepted, on every exit, by an automaton over events, requests, responses folded from the call's own stream, approvals as the handler gave them, executor starts and results as the executors gave them; and no model call is left open |
| `TurnProtocol.TurnsFollowProtocol` | crates/agent-core/src/loop/agent_loop.rs:65-348 | so is any run of turns with their own tokens |
| `TurnGuarantees.CallsAreBracketed` | crates/agent-core/src/loop/agent_loop.rs:103-204 | in any such trace call starts and ends alternate, and each end carries the id of the start before it |
| `TurnGuarantees.TurnClosesItsCalls` | crates/agent-core/src/loop/agent_loop.rs:103-204 | after any turn every started call has ended once |
| `TurnGuarantees.UpdatesStayInTheirCall` | crates/agent-core/src/loop/agent_loop.rs:116-134 | a snapshot is shown only between the start and the end of its own call |
| `TurnGuarantees.TurnBoundsModelCalls` | crates/agent-core/src/loop/turn.rs:26-44 | a turn starts at most max_steps * (max_llm_retries + 1) model calls, and at most four per step |
| `TurnGuarantees.TurnNeverRunsDry` | crates/agent-core/src/loop/agent_loop.rs:207-265 | the exits for a step without a response and for steps running out without a terminal response are unreachable, and a turn never blames its own history |
| `TurnLedger.TurnsKeepLedger` | crates/agent-core/src/event/pipeline.rs:37-62 | over any run of turns, whatever fails: what the log has gained is, item for item and in order, what has been shown to observers as committed, at the end and at every executor start |
| `TurnGuarantees.ExecutionDiscipline` | crates/agent-core/src/loop/tool_runtime.rs:135-230 | when an executor starts, what has been shown as committed since the latest response is its text, all of its calls and exactly one result for each earlier call, in this order; only earlier calls have been started, the token is not cancelled, the tool is registered and takes the input, and its permission is to allow, or to ask and this call has been approved since that response |
| `TurnGuarantees.ApprovalDiscipline` | crates/agent-core/src/loop/tool_runtime.rs:135-180 | an approval is asked for only for a tool whose permission is to ask, before the call runs, and the answer is the handler's |
| `TurnGuarantees.ResultsAreTheExecutors` | crates/agent-core/src/loop/tool_runtime.rs:175-230 | a committed success or failure is what the executor of that call, started since the response, has returned; and a call whose executor was started has as its result what that returned, or an unknown outcome |
| `TurnGuarantees.ExecutorsFindTheirRound` | crates/agent-core/src/loop/agent_loop.rs:228-274 | over any run of turns of a fresh loop, the log that an executor finds is the log as it stood before the response, then the items of its text, of all of its calls, and of one result for each earlier call |
| `Handoff.SanitizeIsIdempotent` | crates/agent-core/src/llm/normalize/common.rs:51-113 | sanitizing twice is sanitizing once, and leaves no thinking block at any depth and nothing empty |
| `Handoff.FixedIffClean` | crates/agent-core/src/llm/normalize/common.rs:90-113 | a block is left alone exactly when it is clean at every depth |
| `Handoff.FlatBlocksLoseOnlyThinking` | crates/agent-core/src/llm/normalize/common.rs:83-113 | where results are plain text, exactly the thinking blocks go and the rest keeps its order |
| `Handoff.HandoffSaysTheSame` | crates/agent-core/src/llm/normalize/common.rs:51-113 | nothing but thinking is lost at any depth: every text, tool use and result stays with its role and the results it stands in, in order; and nothing changes at all when thinking is kept |
| `Handoff.MaterializedIsPaired` | crates/agent-core/src/context/materialize.rs:122-173 | in the messages of any committed log each message with tool uses is directly followed by the message with all their results |
| `Handoff.HandoffKeepsPairingIff` | crates/agent-core/src/llm/normalize/common.rs:51-113 | sanitizing keeps paired messages paired exactly when no tool result in them is hollow: thinking, or nested results, at every depth and nothing else, the empty list included |
| `Handoff.DroppedIffHollow` | crates/agent-core/src/llm/normalize/common.rs:90-113 | the sanitizer drops exactly the hollow blocks |
| `Handoff.NestedResultSurvivesIff` | crates/agent-core/src/llm/normalize/common.rs:96-110 | a tool use and its nested result, paired before, are paired afterwards exactly when the result holds something that is not hollow |
| `Handoff.HandoffKeepsMaterializedPairing` | crates/agent-core/src/llm/normalize/common.rs:51-113 | it keeps the pairing of everything that materialization emits |
| `Handoff.HollowResultIsLost` | crates/agent-core/src/llm/normalize/common.rs:102-106 | two concrete paired exchanges whose pairing is broken: a nested result of one thinking block, and an empty one |
| `TurnPages.SelectTurns` | crates/agent-core/src/session/query.rs:105-115 | the reverse loop selects the newest visible turns, newest first, without repeats, up to the limit |
| `TurnPages.PageBackwards` | crates/agent-core/src/session/query.rs:100-137 | a page is a stretch of complete turns just below the cursor, holds as many distinct turns as the limit allows, and says whether anything older is left |
| `TurnPages.ReadBackwards` | crates/agent-core/src/session/query.rs:30-47 | following the oldest turn of each page ends, splits no turn, fills every page but the last, and the pages in reverse order are the items |
| `Edits.ApplyEdits` | crates/agent-tools/src/edit/executor.rs:119-167 | collecting, sorting and splicing the ranges gives the simultaneous replacement, or the first bad edit's error, or an overlap |
| `Edits.LocateAll` | crates/agent-tools/src/edit/executor.rs:122-145 | every edit's range in the original, or the complaint about the first edit that has none |
| `Edits.RefusalTells` | crates/agent-tools/src/edit/executor.rs:122-156 | an edit list is refused for its first edit that is empty, does not occur, or has two occurrences that do not overlap, and else because two matches overlap |
| `Edits.EachEditIsApplied` | crates/agent-tools/src/edit/executor.rs:158-166 | in the result the new text of every edit stands between what all edits make of the text before and behind its match |
| `Edits.OneEdit` | crates/agent-tools/src/edit/executor.rs:158-166 | a single edit replaces its match and leaves the rest |
| `Edits.Splice` | crates/agent-tools/src/edit/executor.rs:158-166 | the moving cursor never runs backwards and writes all replacements at once |
| `Edits.OrderPlaysNoPart` | crates/agent-tools/src/edit/executor.rs:119-167 | every permutation of an edit list is accepted or refused alike and gives the same text |
| `Edits.NeighboursSuffice` | crates/agent-tools/src/edit/executor.rs:147-156 | for sorted ranges, comparing neighbours finds every overlap |
| `Edits.SubstitutedSplits` | crates/agent-tools/src/edit/executor.rs:158-166 | the replacement of a text is that of its parts, at every position outside the ranges |
| `Edits.SubstitutedKeeps` | crates/agent-tools/src/edit/executor.rs:158-166 | text that no range meets is kept as it is |
| `Edits.SubstitutedReplaces` | crates/agent-tools/src/edit/executor.rs:158-166 | a range gives its replacement |
| `Edits.SelfReplacementKeepsText` | crates/agent-tools/src/edit/executor.rs:119-167 | replacing texts by themselves changes nothing |
| `Edits.ScanOnceIff` | crates/agent-tools/src/edit/executor.rs:129-138 | the scan reports a single match at a place exactly when all occurrences start inside that one |
| `Edits.ScannedOnceMayOccurTwice` | crates/agent-tools/src/edit/executor.rs:129-143 | "aa" counts as unique in "aaa", where it occurs twice |
| `Edits.ScanCountsOccurrencesIff` | crates/agent-tools/src/edit/executor.rs:129-143 | scanning once means occurring once, in every text, exactly for patterns of which no proper prefix is also a suffix |
| `ProgressEvents.ProgressState.DeriveProgress` | crates/agent/src/progress.rs:348-436 | the state update of one event, of which the next three rows say the meaning |
| `ProgressEvents.EveryEventIsShown` | crates/agent/src/progress.rs:348-436 | along a trace that follows the turn protocol, every event that is for hosts is shown so that it can be told back from what is shown, but for updates numbered too high |
| `ProgressEvents.NothingIsLostOnHosts` | crates/agent/src/progress.rs:348-436 | in any state what is shown names its event completely; nothing is shown exactly of prompts, context events and updates of a call that is not active |
| `ProgressEvents.ActiveCallTracksWatch` | crates/agent/src/progress.rs:348-436 | along a trace that follows the turn protocol the active call is exactly the open one, and its next index the number of its updates so far |
| `ProgressEvents.UpdatesAreNumbered` | crates/agent/src/progress.rs:368-396 | no update of a turn is discarded; those of a call are numbered 0, 1, 2, ..., and only one whose number would be 0xFFFFFFFF or beyond fails |
| `ProgressQueue.EveryRunIsAccounted` | crates/agent/src/progress.rs:221-335 | under every interleaving what was accepted is, in order, decided on, in the worker's hand, or queued; only a snapshot directly followed by one of the same call is skipped; marked drops are counted and shown; the resync marker stands exactly for a loss or stop marked since it was last taken |
| `ProgressQueue.DropsIffFull` | crates/agent/src/progress.rs:221-241 | after any run, an event offered to a worker that is there is dropped, and this alone noted, exactly if 256 commands wait; any other becomes the last one waiting |
| `ProgressQueue.StatusShowsNotes` | crates/agent/src/progress.rs:287-321 | the status is exactly what was noted in it: stopped if a stop was noted and no drop after it, running only if nothing was, the number of drops, and the latest error |
| `ProgressQueue.SkipsIffSuperseded` | crates/agent/src/progress.rs:259-278 | a snapshot is skipped exactly if, when it was decided on, a newer one of its call was already queued behind it |
| `ProgressQueue.FlushesAreSettled` | crates/agent/src/progress.rs:131-148 | no flush is lost: each one has been acknowledged, still waits, or has met its failure, which is noted or has yet to be |
| `ProgressQueue.PlainEventsAreNeverLost` | crates/agent/src/progress.rs:243-285 | events that are not snapshots, and acknowledgements, come out complete, once and in acceptance order |
| `ProgressQueue.LastSnapshotIsDelivered` | crates/agent/src/progress.rs:259-278 | the last snapshot accepted for a call is delivered before what follows it, such as the end of the call |
| `ProgressQueue.AckCoversEarlier` | crates/agent/src/progress.rs:131-148 | when a flush is acknowledged, everything accepted before it has been delivered, or superseded by a delivered snapshot of its call |
| `ProgressQueue.StopsDrained` | crates/agent/src/progress.rs:249-285 | a worker that nobody aborted stops only after the senders are gone and everything accepted is decided on |
| `ProgressQueue.StopLastsIff` | crates/agent/src/progress.rs:221-335 | from any reachable stopped state, the status says stopped after every further run exactly if no sender has met a full queue without having marked it yet |
| `ProgressQueue.LateDropHidesStop` | crates/agent/src/progress.rs:297-304 | a concrete run to that: 257 events, the worker dropped, a flush failing and marked, and then the late mark, after which the status says degraded |
| `ProgressQueue.ProgressWorker.TakeArrival` | crates/agent/src/progress.rs:221-241 | what an event, a flush, a sender marking its failure, a host taking the resync marker or the last sender going away does to queue and status |
| `ProgressQueue.ProgressWorker.Coalesce` | crates/agent/src/progress.rs:259-278 | the look-ahead loop is a run of the interleaving model, whatever arrives between its receives |
| `ProgressQueue.ProgressWorker.RunWorker` | crates/agent/src/progress.rs:243-285 | the worker loop with its pending slot is such a run, ends when the senders are gone, and has lost nothing |
| `EventRecorder.ReadExistingState` | crates/agent/src/log/file_recorder.rs:86-124 | the loop computes the fold over the lines, or the first bad line's error |
| `EventRecorder.OpensIff` | crates/agent/src/log/file_recorder.rs:86-124 | a file opens exactly when every line is blank or a record of the run with a number that leaves another one, and is otherwise refused for its first line that is not, by its place |
| `EventRecorder.ContinuesAfterLargest` | crates/agent/src/log/file_recorder.rs:114-122 | the next number is one more than the largest, and the last turn that of its first holder |
| `EventRecorder.NumberedReopensIff` | crates/agent/src/log/file_recorder.rs:34-44 | a numbered file continues at its length, exactly while the last 64-bit number is unused |
| `EventRecorder.FileStaysNumbered` | crates/agent/src/log/file_recorder.rs:53-124 | over any history of appends, failures, flushes, crashes and reopenings the file is numbered 0, 1, 2, ..., and the recorder knows the last line's turn |
| `EventRecorder.AppendedWritten` | crates/agent/src/log/file_recorder.rs:53-79 | an append writes the record itself under the next number, or is refused, for a foreign run, a line that is too long or a failed write, and changes nothing |
| `EventRecorder.DiskOnlyGrows` | crates/agent/src/log/file_recorder.rs:53-84 | no line that reached the disk is lost or changed |
| `EventRecorder.HistoryRepeatsIff` | crates/agent/src/log/file_recorder.rs:53-79 | over any such history a number stands twice exactly once more lines were written than there are 64-bit numbers |
| `EventRecorder.LastNumberIsWrittenTwice` | crates/agent/src/log/file_recorder.rs:72-76 | with the last number next, two appends both write it, and both report the overflow |
| `EventRecorder.LongRunRepeatsANumber` | crates/agent/src/log/file_recorder.rs:72-76 | a concrete history that gets there |
| `EventRecorder.FileRecorder.Append` | crates/agent/src/log/file_recorder.rs:53-79 | a number is consumed only by a line that was written |
| `EventRecorder.FileRecorder.Open` | crates/agent/src/log/file_recorder.rs:35-44 | opening reads the state back or refuses the file |
| `EventLog.EveryRunIsSound` | crates/agent/src/log/worker.rs:140-206 | under every interleaving records are handled in acceptance order, the file is what it was plus the written ones, failures show in the status, every drop is counted once it is marked, and only a worker that has done its last flush is stopped |
| `EventLog.FlushCoversEarlier` | crates/agent/src/log/worker.rs:65-91 | when a flush answers Ok, every record accepted before it was sent has been handled: on disk, in order and numbered on, or its failure shows in the status |
| `EventLog.DropsIffFull` | crates/agent/src/log/queued_recorder.rs:81-98 | after any run, a record sent to a worker that is there is dropped exactly if 256 wait, a flush can be sent exactly if fewer than 8 wait, and what is sent waits as the last one |
| `EventLog.StatusShowsNotes` | crates/agent/src/log/worker.rs:192-206 | the status is exactly what was noted in it: stopped if a stop was noted and no drop after it, running only if nothing was, the number of drops, and the latest error |
| `EventLog.PoliciesWiden` | crates/agent/src/log/queued_recorder.rs:102-135 | which records each policy is for, and that each keeps what the narrower one keeps |
| `EventLog.OnlyWantedIsAccepted` | crates/agent/src/log/queued_recorder.rs:65-81 | only records that the policy is for get into the log, and such a record is let in unless the log is stopped |
| `EventLog.StopsDrained` | crates/agent/src/log/worker.rs:162-180 | a worker that is over has handled everything that was accepted before its handle was dropped |
| `EventLog.CleanStopIsOnDisk` | crates/agent/src/log/worker.rs:182-190 | after a stop whose last flush worked, all of that is on disk, but for what a noted fault kept from it |
| `EventLog.FlushIsAnswered` | crates/agent/src/log/worker.rs:147-161 | the flush in front is taken before any record, and answered after every queued record has been handled |
| `EventLog.RecordIsHandled` | crates/agent/src/log/worker.rs:171-180 | without a flush the oldest record is handled within two steps |
| `EventLog.FlushesAreSettled` | crates/agent/src/log/worker.rs:65-91 | no flush is lost: each one has been answered, waits, or has met its failure, which is noted or has yet to be |
| `EventLog.EventLogWorker.Append` | crates/agent/src/log/queued_recorder.rs:65-99 | recording an event fails only when the worker has left unnoticed, and does nothing when the policy or a stopped log says so |
| `EventLog.EventLogWorker.ServeFlush` | crates/agent/src/log/worker.rs:150-161 | a flush drains the queue, flushes the file and answers, whatever arrives meanwhile |
| `EventLog.EventLogWorker.RunWorker` | crates/agent/src/log/worker.rs:140-190 | the select loop and what follows it is a run of the interleaving model, ends once the handle is gone, and leaves the status stopped, or degraded with a drop counted |
| `EventLog.StopLastsIff` | crates/agent/src/log/queued_recorder.rs:81-98 | from any reachable stopped state, the status says stopped after every further run exactly if no full queue is left to be marked and no checked record would still find the queue full |
| `EventLog.LateDropHidesStop` | crates/agent/src/log/queued_recorder.rs:81-91 | a concrete run to the opposite: the queue fills behind the last drain, a record is checked before the worker stops and sent after it, and its mark leaves the status degraded for a worker that is gone |

## Left out

- Real files, directories, dates, random ids and serialization: a file is a sequence of records, ids are fresh times, encoding is injective, and a failed append writes nothing (no torn lines).
- Dropping a turn's future from outside: a turn is run to one of its own exits. A provider, approval handler or executor that never answers and is never cancelled gives no exit and no trace.
- Error texts: errors are enumerated by cause; a round's error keeps its cause, its failed commit and its failed cleanups.
- Hook errors and hook order inside the event dispatcher, and the trace context it maintains: observers only see the events that were emitted.
- Retry delays: a backoff is a wait of arbitrary length that a cancellation can end.
- The sorted vector and binary search of the tool registry: a registry is a finite map from names to schema predicates. JSON Schema itself is that opaque predicate.
- Tool definitions, sampling settings and provider options in a request: the model's request is the part a turn decides (system prompt, messages, continuity id).
- Compaction beyond "materialize rejects it": the kernel emits no compaction event.
- SessionStores.SessionStore.CommitItem: does not model the overflow of the 64-bit sequence number, which the source does not check either and which would need as many items.
- EventRecorder.FileRecorder.Append: the length of a line is a given number of the record, after truncation; truncation itself, and the few digits the sequence number adds, are not computed.
- Workers that the runtime drops: the progress worker may be dropped at any step and then loses its queue; the event log worker is not dropped.
- In the event log, failing to write a record and marking it are one step, as are in the progress worker delivering an event and marking its observer's failure.
- Creating a session's own file, which may fail before there is a session (the child file of a fork is modelled).
- HTTP adapters, server-sent-event framing, web search, glob and regex tools, shell commands, prompt text, settings, fuzzy search, the desktop shell and runtime, v1 log migration, and session listings.
