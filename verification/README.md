# Verified model of the nano agent runtime

This project models the core of the nano runtime in Dafny and proves what it promises: the
serial agent loop with its event trace, the rolling media history, the append-only event log
with its terminal reserve, the incremental server-sent-event decoder and response reconciler,
and the bounded arithmetic of deadlines, usage counters and text truncation.

`dafny verify dfyconfig.toml` checks all of it.

## How it is organised

* **Media history.** `History` has the conversation items and the single-pass inspection,
  with an if-and-only-if characterisation. `MediaPolicy` has the windowing policy as a function
  and its laws. `MediaBatch` has the loops of the policy and of the batch builder, proved equal
  to those functions, in place on an array where the original works in place. `RequestHistory`
  says what a history must satisfy to be sent, `Conversation` that it only ever grows, and
  `MediaOutputs` when a batch with images is accepted.
* **Provider stream.** `SseDecoding` and `Reconciliation` are the decoder and the reconciler as
  functions over whole streams, `SseChunking` says which streams decode however they are cut;
  `SseDecoder` and `ResponseStream` are the objects.
  `ProviderTurn` is the completed response they hand to the loop, `Response` its validation.
* **Event log.** `EventLog` is the log as a value with injected faults, `LogFaults` what torn
  appends leave in its file, `LogJson` its lines as JSON; `EventWriter` is the object over it,
  `RunState` the object that stages receipts and finalizes once. `Usage` and `Evidence`
  are the usage accumulator and the evidence ledger, each against a whole-log meaning.
* **Agent loop.** `Finish` and `Review` hold the finish controller, the challenge automaton and
  the capacity rules, `ReviewPath` how long a review can get; `Deadline` the cutoffs and the clock
  projection. `AgentTrace` is a monitor over traces of actions, and the whole-run properties of
  every trace it accepts. `AgentState`, `AgentTools`, `AgentLoop`, `AgentTurn` and `AgentRun` are
  the loop itself. `AgentStream` joins its traces with the provider's bytes, `AgentLog` with the
  event log; `AgentLogRuns` has two traces with the bad logs they leave.

## Modelling decisions

* The clock, the provider, the tools, the executor's validation, the log's appends and the
  cancellation flag are nondeterministic: the loop picks their results freely (any later
  instant, any response, any output text, any failure), so its contracts hold for all of them.
* The loop's methods carry a ghost property of traces, `legal`, of which they only know that
  every allowed action preserves it. `AgentRun.RunAgent` instantiates it with "accepted by the
  monitor, every request sendable, every request continuing the conversation, every answer one
  the stream yielded and validation passed".
* Actions of the trace are the log events (`run.started`, `provider.requested`, `provider.completed` or
  `provider.failed`, `tool.registered`, `tool.dispatched`, `tool.failed`, `tool.completed`,
  `context.checkpointed`, `assistant.final`, the terminal event) and the internal moves the
  properties speak about: leaving the open action phase, call-limit recovery, staging a
  candidate, a change of review phase, and every append the log refuses. The loop does not decide
  which appends are refused; `AgentLog.Realizes` says which logs a trace may leave behind, with
  the writer's own admission rules, and its theorems hold for all of them.
* Text is a sequence of bytes, so lengths are byte lengths. Instants are natural numbers of
  nanoseconds; `checked_sub` on them fails below zero.
* SHA-256, the JSON encoding of a history and of a run record, and the JSON parser are function
  parameters. For log lines only the size of a terminal line matters (`EventLog.SizeLaw`), for
  codes of the alphabet the writer admits, which JSON does not escape;
  `LogJson.JsonObeysSizeLaw` shows that a JSON rendering with its escapes satisfies it.
* Stream events reach the reconciler with their fields already classified as absent, malformed
  or present.

## Where the code does not keep a promise

* **Terminal reserve.** The reserve is sized from `run.failed` with a 128-byte code. The
  `run.completed` tag is three bytes longer, so a success code fits at every sequence number and
  clock reading exactly when it has at most 125 bytes (`ReserveCoversExactly`). The only success
  code in use has nine. A log limit within 50 bytes of 2^64 can also turn the attempt that
  carries the omission counter into a length overflow, which has no fallback;
  `ReservedTerminalFits` gives the exact condition.
* **Torn appends.** A failed mandatory or terminal append is neither rolled back nor does it poison
  the writer. `TornRunIsPublished` gives, for every setup, a trace whose third event is torn: the
  run fails, writes its terminal event and publishes its record over a file that does not agree
  with the digest. `FileAgreesExactly` gives the exact condition over every run of the writer with
  any faults: nothing is left behind the hashed bytes. Restoring the length after a torn receipt
  removes such bytes (`RestoringHeals`) unless a line was accepted on top of them, and then the
  file never agrees again (`BuriedForever`).
* **No terminal event.** A refused first event, or a refused completion of a tool batch, ends the
  run without a terminal event although the reserve for it is still free. Without faults these are
  the only finished runs that lack it (`TerminalEventExactly`). `RefusedCommitLosesTerminal` gives,
  for every setup and every validated turn with one call, such a trace and its log;
  `ExampleHasOneCall` is one setup and turn.
* **Fresh-critic capacity** covers four responses, two tool batches and 600 seconds. The review
  automaton allows three batches (`ThreeBatchesEndReview`, `LongestPathAttained`), five requests and
  a recovery, three history items a call, and within the bounds of its requests and batches 810
  seconds, 900 with the recovery. Every review fits exactly when the longest one does
  (`EveryReviewFitsExactly`); admitted capacity misses the third batch
  (`FreshCapacityMissesThirdBatch`), its time (`ReserveMissesThirdBatch`, with the exact bound) and,
  with images, the history limit (`FreshCapacityMissesImages`). `FreshCapacityCovers` says what it
  does cover.
* **Chunk independence** is one-directional in the limit checks: a finer chunking of an accepted
  stream may fail because the unterminated line is measured at every cut (`FinerChunkingMayFail`).
  `ChunkingMeaning` says exactly which chunkings decode, `AlwaysDecodesExactly` which streams decode
  under every chunking, and `EncodingAlwaysDecodes` which encoded frames do.
* **Footers and truncation on media outputs.** The runtime budget footer and the output cut are
  applied to outputs that may carry an attachment, while the history inspector demands one exact
  sentence. A batch whose images were described properly is accepted exactly when each was described
  while no footer was due and fits what the call and the run still allow (`ImagesSurviveExactly`);
  otherwise the whole batch is rejected and the run fails. With a loaded deadline a footer is due
  after a clamped wait and in the last 60 seconds before the last send, which begin 20 seconds
  before the actor cutoff (`FooterDueExactly`): an image read then always fails the run.
  `FooterRejectsBatch` is one such batch.
* **Event stream format.** A lone CR does not end a line, and an unterminated last event is emitted
  at the end of the stream. Both differ from sections 9.2.5 and 9.2.6 of the WHATWG HTML Living
  Standard; the model follows the code.
* **Strict cutoffs.** The chain of cutoffs is strict exactly when every reserve is positive
  (`ChainStrictExactly`), as the frozen reserves are.

## Model

| member | source | states |
|---|---|---|
| `AgentRun.RunAgent` | crates/nano-runtime/src/agent_loop.rs:565-1555 | every run terminates (each turn that does not end it makes a request, and requests are bounded by the turn limit); its trace is accepted and sound, and finished: it ends in the terminal event, at a refused flush or terminal append, or, exactly when the exit says so, at a refused first event or batch completion; the usage accumulator reports balanced coverage of exactly the requests of the trace, at most one in flight, none after a success; a successful run reports exactly the requests, calls and output bytes of its trace, with every call completed in order |
| `AgentRun.AccountBalances` | crates/nano-runtime/src/agent_loop.rs:2709-2740 | the coverage the accumulator reports after the run's own billing balances: requested is the turn count and is completed plus failed plus in flight, with as many in flight as the billing left open |
| `AgentTrace.EveryRequestIsSettled` | crates/nano-runtime/src/agent_loop.rs:681-988 | at every provider request of every run the history has unique call ids, each call answered later, and a receipt that validates against it; earlier requests are answered, registered calls completed in order |
| `AgentTrace.SuccessIsSettled` | crates/nano-runtime/src/agent_loop.rs:2391-2404 | a successful run answered every request once and completed every registered call once, in call order, and published an answer before the terminal event |
| `AgentTrace.FinalRequestIsLast` | crates/nano-runtime/src/agent_loop.rs:877-916 | no request of any kind follows the final-only request, so there is at most one |
| `AgentTrace.OneLateBatch` | crates/nano-runtime/src/agent_loop.rs:1385-1425 | once the finish controller has left its open state, tools are dispatched in at most one batch: no request separates two dispatches |
| `AgentTrace.FallbackIsSafe` | crates/nano-runtime/src/agent_loop.rs:141-147 | a staged answer is published as a fallback only if no mutating call was dispatched since it was staged |
| `AgentTrace.PublishedIsTheAnswer` | crates/nano-runtime/src/agent_loop.rs:1220-1373 | a text published directly or staged for review is the nonempty final text of the response just received |
| `AgentTrace.ReviewMovesForward` | crates/nano-runtime/src/agent_loop.rs:114-153 | review phases of a run strictly increase |
| `AgentTrace.RecoveredOnce` | crates/nano-runtime/src/agent_loop.rs:1065-1109 | call-limit recovery happens at most once in a run |
| `AgentTrace.RecoveryAddsNoCalls` | crates/nano-runtime/src/agent_loop.rs:1065-1109 | recovery leaves the conversation as it was, evicted media aside, followed by exactly one user notice, with the same calls |
| `AgentTrace.NothingSaidIsLost` | crates/nano-runtime/src/agent_loop.rs:1240-1553 | every actor request carries the whole conversation since the start or the last checkpoint, each item at its place (answers and committed outputs included), attachments possibly as ledgers |
| `AgentTrace.CountsTally` | crates/nano-runtime/src/agent_loop.rs:689-698 | requests, the critic's included, stay within the turn limit, registered calls within the run limit, committed output within the run's byte cap; at most one request is unanswered |
| `AgentTrace.IdsTally` | crates/nano-runtime/src/agent_loop.rs:1427-1506 | the completed ids followed by the pending ones are the registered ones, in order |
| `AgentTrace.DispatchOnTime` | crates/nano-runtime/src/agent_loop.rs:1983-1999 | every dispatch is of the call just registered and strictly before the actor cutoff |
| `AgentTrace.CallsInOrder` | crates/nano-runtime/src/agent_loop.rs:1426-1463 | from an answer on, the calls registered are those of the answer in its order, and at the next request they are all of them: none invented, repeated or skipped |
| `AgentTrace.RegisteredIsAnswered` | crates/nano-runtime/src/agent_loop.rs:1426-1463 | every registered call is a call of an earlier accepted answer, the first of its calls not yet registered |
| `AgentTrace.RegisteredIsValid` | crates/nano-provider-xai/src/types.rs:776-827 | every registered call was validated: a known tool, arguments within the limit that parse to an object, an id no other call of its response has, within the per-response limit |
| `AgentStream.RegisteredIsReceived` | crates/nano-provider-xai/src/sse.rs:244-326 | every registered call was received and validated: it is a call of a turn that passed validation, that some chunks of bytes decode and reconcile to, and that agrees with everything they streamed about a call |
| `AgentTrace.ReviewRequestsBounded` | crates/nano-runtime/src/agent_loop.rs:1240-1372 | once an answer is staged for review at most five more requests are made, six if the call-limit recovery is unused |
| `AgentTrace.ReviewBatchesBounded` | crates/nano-runtime/src/agent_loop.rs:1507-1518 | once an answer is staged for review, tools are dispatched in at most three batches |
| `AgentTrace.StuckIsLast` | crates/nano-runtime/src/agent_loop.rs:1500-1505 | nothing follows a refused first event, batch completion, flush or terminal event |
| `AgentTrace.OverExactly` | crates/nano-runtime/src/agent_loop.rs:2540-2568 | a trace is finished exactly when its monitor has ended or is stuck, and the terminal event is there exactly when it has ended |
| `AgentLog.LogMirrorsTrace` | crates/nano-runtime/src/event_writer.rs:283-351 | whatever was refused or torn, the accepted lines of the log say exactly what the trace says, in order, and the log is closed exactly when the run has ended; without faults the file agrees with its digest |
| `AgentLog.TerminalEventExactly` | crates/nano-runtime/src/agent_loop.rs:1500-1505 | without faults a finished run lacks its terminal event exactly when its first event or the completion of a tool batch was refused, and then the terminal event would still have been accepted |
| `AgentLogRuns.RefusedCommitLosesTerminal` | crates/nano-runtime/src/agent_loop.rs:1500-1505 | for every setup and validated turn with one call: the request of the two windowed prompts, the answer, the call registered and run, its completion refused by a log full up to its reserve; the trace is accepted and sound, the log realizes it, and there is no terminal event |
| `AgentLogRuns.ExampleHasOneCall` | crates/nano-provider-xai/src/types.rs:776-827 | there are such setups and turns: one known tool called with an empty object |
| `AgentLogRuns.TornRunIsPublished` | crates/nano-runtime/src/event_writer.rs:342-343 | for every setup: the event of the first answer is torn, the run fails and closes its log, and its record is published over a file that does not agree with the digest |
| `AgentTrace.EndedIsLast` | crates/nano-runtime/src/agent_loop.rs:2540-2568 | the terminal event is the last event |
| `AgentTrace.PublishedOnce` | crates/nano-runtime/src/agent_loop.rs:2391-2404 | at most one answer is published |
| `AgentRun.NoDispatchAfterAbsoluteCutoff` | crates/nano-runtime/src/deadline.rs:163-191 | a run with loaded deadlines dispatches no tool at or after the absolute actor cutoff, which is 75 seconds before the hard deadline |
| `AgentRun.Turn` | crates/nano-runtime/src/agent_loop.rs:681-1555 | an iteration keeps the loop invariant and makes a request, or leaves the run properly; the leaked-settlement and second-final-request arms are unreachable |
| `AgentRun.ActionTurn` | crates/nano-runtime/src/agent_loop.rs:948-1240 | an action request and its answer keep the loop invariant or end the run |
| `AgentRun.RejectAnswer` | crates/nano-runtime/src/agent_loop.rs:1045-1198 | a rejected response is settled and either recovered from once or ends the run |
| `AgentRun.ToolTurn` | crates/nano-runtime/src/agent_loop.rs:1385-1553 | a batch brings the loop back to its invariant with a sendable history that continues the conversation |
| `AgentRun.PlansAreSound` | crates/nano-runtime/src/agent_loop.rs:1385-1425 | an admitted batch ends by the actor cutoff; one admitted after the open phase is the soft one, whose settlement closes the action phase; a review without a stage rejects the batch |
| `AgentRun.SoftBatchLeavesReserve` | crates/nano-runtime/src/agent_loop.rs:265-288 | a soft batch is cut off after at most 120 seconds and at least 90 seconds before the last send |
| `AgentRun.ReviewAfterBatch` | crates/nano-runtime/src/agent_loop.rs:1507-1518 | after a batch the challenge automaton agrees with the dispatches seen, and a review has moved on to a later phase in which nothing was asked or ran yet |
| `AgentRun.StageBatch` | crates/nano-runtime/src/agent_loop.rs:1426-1473 | settled calls are all pending in order within the call and byte limits, every image in the batch was described undisturbed, and the prepared history is sendable and continues the conversation with the response and all outputs |
| `AgentRun.CommitBatch` | crates/nano-runtime/src/agent_loop.rs:1474-1518 | one completion event per call in order, then counters and review agree with the trace again; a late commit fails the run and a refused completion abandons it |
| `AgentRun.LogBatch` | crates/nano-runtime/src/agent_loop.rs:1492-1506 | the completions join the conversation, nothing stays pending and the output bytes are the projected ones; a refused completion ends the run without finalization |
| `AgentRun.HandleBatch` | crates/nano-runtime/src/agent_loop.rs:1385-1538 | the batch of one response, from its admission on, returns the loop to rest with a sendable history |
| `AgentRun.BeginRun` | crates/nano-runtime/src/agent_loop.rs:638-648 | the first event starts the run, or its refusal ends it |
| `AgentRun.RunBatch` | crates/nano-runtime/src/agent_loop.rs:1426-1538 | one whole batch returns the loop to rest |
| `AgentRun.NextTurn` | crates/nano-runtime/src/agent_loop.rs:1519-1553 | the decision prompt and the next phase replace the settling phase and restore the loop-top invariant |
| `AgentRun.PhaseAfterBatch` | crates/nano-runtime/src/agent_loop.rs:1539-1553 | the phase after a batch is one that makes a request, and only the final one after a finished review |
| `AgentState.PhaseDecisions` | crates/nano-runtime/src/agent_loop.rs:207-257 | exact conditions for acting, ordinarily and on the first turn; never a terminal phase before the final send |
| `AgentExit.FinalizeFailure` | crates/nano-runtime/src/agent_loop.rs:2540-2629 | a failing exit publishes nothing, bills nothing, and adds to the trace exactly one action: the terminal event of a failure, or the refused flush or terminal append that prevented it |
| `AgentExit.RefuseEvent` | crates/nano-runtime/src/agent_loop.rs:2391-2401 | a refused event is followed by the failing exit and nothing else |
| `AgentExit.FinalizeWithText` | crates/nano-runtime/src/agent_loop.rs:2391-2404 | exactly this text is published, followed by the terminal event of a success or a refused append; or the log refused the text and the run failed; only from a settled state and only an answer or a safe fallback |
| `AgentExit.FallbackOr` | crates/nano-runtime/src/agent_loop.rs:2406-2413 | exactly when the challenge still offers the staged answer it is published, otherwise the run fails with the given code |
| `AgentTurn.SendRequest` | crates/nano-runtime/src/agent_loop.rs:948-1002 | the logged request carries a sendable history that continues the conversation; one more turn is counted and billed; during a review it counts against the phase; otherwise the log refused it or the run was cancelled |
| `AgentTurn.SettleRequest` | crates/nano-runtime/src/agent_loop.rs:1199-1219 | a settled request is billed with its usage and has exactly one completed or failed event, and a completed response joins the conversation |
| `AgentTurn.FailRequest` | crates/nano-runtime/src/agent_loop.rs:2320-2389 | a failed request is settled and billed with its usage, and then the safe fallback is published, if there is one, or the run fails |
| `AgentTurn.TimeOut` | crates/nano-runtime/src/agent_loop.rs:1026-1043 | with a safe fallback a timeout settles and bills the request and publishes the fallback; without one the request stays unsettled and the run fails with the given code |
| `AgentTurn.FinalTurn` | crates/nano-runtime/src/agent_loop.rs:1220-1239 | the final-only request always ends the run |
| `AgentTurn.Recover` | crates/nano-runtime/src/agent_loop.rs:1065-1109 | recovery adds a notice to the history last sent, which stays sendable |
| `AgentTurn.Critic` | crates/nano-runtime/src/agent_loop.rs:1653-1797 | the critic makes one request of its own and leaves the conversation, the candidate and its review untouched; if it does not advise, the candidate is published as it is, unless the log refused an event or the run was cancelled |
| `AgentTurn.StartReview` | crates/nano-runtime/src/agent_loop.rs:1244-1372 | the first action of a review stages the answer; then the actor is prompted with a sendable history and an unspoiled candidate, or the candidate was published, or the run was interrupted |
| `AgentTurn.AnswerText` | crates/nano-runtime/src/agent_loop.rs:1240-1383 | an answer without calls is reviewed, published, or ends the run |
| `AgentLoop.PushUser` | crates/nano-runtime/src/agent_loop.rs:759-770 | appending a notice and windowing a settled history cannot fail; the result is sendable and continues the conversation |
| `AgentLoop.NextPhaseMovesOn` | crates/nano-runtime/src/agent_loop.rs:699-744 | the phase block only moves the finish controller forward; finalizing closes the action phase, at turn 48 at the latest; while it stays open fewer than 40 turns were used and the finish reserves are ahead |
| `AgentLoop.ObserveFinish` | crates/nano-runtime/src/agent_loop.rs:699-772 | after the phase block the loop acts, or finalizes with the action phase closed |
| `AgentLoop.Checkpoint` | crates/nano-runtime/src/agent_loop.rs:773-839 | a checkpoint starts a fresh sendable conversation |
| `AgentLoop.Prologue` | crates/nano-runtime/src/agent_loop.rs:681-978 | before a request the loop invariant holds and a turn is left, or the run was left properly |
| `AgentLoop.Gates` | crates/nano-runtime/src/agent_loop.rs:840-978 | the checks before a request keep the loop invariant or end the run |
| `AgentLoop.SendWindow` | crates/nano-runtime/src/agent_loop.rs:845-869 | without a signed deadline an action request leaves the minimum send window |
| `AgentTools.PrepareCompletion` | crates/nano-runtime/src/agent_loop.rs:2112-2214 | the committed output is the cut of the tool's text with its footer to what the call and the run have left, valid UTF-8 within both; the attachment carries this turn and tool as origin |
| `AgentTools.ImagesSurviveExactly` | crates/nano-runtime/src/agent_loop.rs:2112-2214 | a batch whose images were described properly is accepted exactly when each was described while no footer was due by the clock and fits its room |
| `AgentTools.AcceptedImageUndisturbed` | crates/nano-runtime/src/agent_loop.rs:2129-2170 | whatever else a batch holds, once it is accepted every properly described image was described undisturbed |
| `AgentTools.Complete` | crates/nano-runtime/src/agent_loop.rs:2129-2214 | a completion carries a footer exactly when one is due by the clock or a clamped wait, and is the cut of the footered text |
| `AgentRun.FooterDueExactly` | crates/nano-runtime/src/agent_loop.rs:2131-2143 | with a loaded receipt a footer is due exactly after a clamped wait or in the last 60 seconds before the last send, which the actor cutoff precedes by 40 unless it had passed when the receipt was loaded |
| `AgentTools.SettleCall` | crates/nano-runtime/src/agent_loop.rs:1905-2091 | a call is registered once, never dispatched in a rejected batch, and its output stays in budget |
| `AgentTools.RegisterCall` | crates/nano-runtime/src/agent_loop.rs:1911-1937 | a call is registered as the next one of its answer and counted, or the log refused it |
| `AgentTools.HandleCall` | crates/nano-runtime/src/agent_loop.rs:1938-2091 | a registered call is refused or dispatched, and never dispatched in a rejected batch |
| `AgentTools.DispatchCall` | crates/nano-runtime/src/agent_loop.rs:1983-2079 | a dispatch happens only strictly before the cutoff, and a fatal execution leaves at most a diagnostic |
| `AgentTools.SettleCalls` | crates/nano-runtime/src/agent_loop.rs:1426-1463 | all calls of a response are registered in order; the projected bytes are the committed ones plus all outputs, within the run cap; each output was made as the footer rule and the budget say |
| `AgentTools.SettleNext` | crates/nano-runtime/src/agent_loop.rs:1426-1463 | one more call settled keeps what holds of the batch so far |
| `AgentTools.CommitCalls` | crates/nano-runtime/src/agent_loop.rs:1872-1885 | one completion event per call, in call order; bytes and conversation grow by exactly these outputs; a refused one is the last action of the run |
| `Conversation.ContinuesKeeps` | crates/nano-provider-xai/src/types.rs:551-607 | each item of a continued conversation keeps its index, or is an evicted attachment's ledger |
| `Conversation.WindowContinues` | crates/nano-provider-xai/src/types.rs:551-607 | appending and windowing continues the conversation |
| `Finish.OneLateBatchOneNotice` | crates/nano-runtime/src/finish_controller.rs:85-201 | under any use the controller admits at most one batch after its open state and gives at most one notice, which is due exactly once an observation closed a phase |
| `Finish.NeverMovesBack` | crates/nano-runtime/src/finish_controller.rs:85-201 | under any use the state never moves back |
| `Finish.AdmittedEnvelope` | crates/nano-runtime/src/finish_controller.rs:144-175 | an admitted batch keeps the settlement deadline, never gains time, and ends before the soft cutoff |
| `FinishObject.FinishController.Observe` | crates/nano-runtime/src/finish_controller.rs:85-112 | over everything done with the object before: a trigger is reported exactly when the phase closes further, by its own bound; an open phase means neither signal is up; a notice falls due unless one was given |
| `FinishObject.FinishController.TakeNotice` | crates/nano-runtime/src/finish_controller.rs:115-138 | the notice is given exactly when one is due in the object's history, so at most once in its life |
| `FinishObject.FinishController.AdmitActionBatch` | crates/nano-runtime/src/finish_controller.rs:144-175 | every batch in the open phase is admitted, and after it only the first of the object's life with time left before the reserve, with its deadlines |
| `FinishObject.FinishController.SettleActionBatch` | crates/nano-runtime/src/finish_controller.rs:177-183 | settling closes the action phase exactly when the history holds the admitted late batch |
| `FinishObject.FinishController.CloseActions` | crates/nano-runtime/src/finish_controller.rs:185-191 | closing reports whether anything changed |
| `FinishObject.FinishController.CommitTerminal` | crates/nano-runtime/src/finish_controller.rs:194-200 | the terminal commit is reported once |
| `Review.BatchMovesReviewForward` | crates/nano-runtime/src/agent_loop.rs:87-157 | every batch during a review moves its phase strictly forward until revalidation |
| `Review.FallbackMeaning` | crates/nano-runtime/src/agent_loop.rs:80-153 | under any use the challenge offers a text exactly when it was staged, no mutation was committed since and it was not taken yet |
| `Review.NeverMovesBack` | crates/nano-runtime/src/agent_loop.rs:80-153 | under any use the review phase never moves back |
| `Review.CapacityMonotone` | crates/nano-runtime/src/completion_review.rs:101-132 | capacity leaves a review its prompt, two turns and more than its reserve, and is monotone in time, turns and history |
| `ReviewPath.PathBound` | crates/nano-runtime/src/agent_loop.rs:87-157 | whatever the batches of a review do, the automaton bounds their number by the phases left, their calls, and the history items they add |
| `ReviewPath.ThreeBatchesEndReview` | crates/nano-runtime/src/agent_loop.rs:87-157 | after any three batches the next request is the final one |
| `ReviewPath.LongestPathAttained` | crates/nano-runtime/src/agent_loop.rs:87-157 | a path with three full batches, an image for every call that may have one and a recovery is allowed, and uses up the whole bound |
| `ReviewPath.EveryReviewFitsExactly` | crates/nano-runtime/src/finish_controller.rs:222-256 | every review the automaton allows stays within the turn, call, history and time limits exactly when there is room for the longest |
| `ReviewPath.FreshCapacityCovers` | crates/nano-runtime/src/finish_controller.rs:222-256 | what admitted capacity covers: every allowed review of at most two batches without a recovery whose images and other extra items are at most six, its time included |
| `ReviewPath.FreshCapacityMissesThirdBatch` | crates/nano-runtime/src/finish_controller.rs:222-256 | an admitted capacity after a first turn and an allowed review whose third batch exceeds the call limit |
| `ReviewPath.ReserveMissesThirdBatch` | crates/nano-runtime/src/completion_review.rs:80-98 | the reserve is 600 seconds; with room for everything else every review fits exactly from 810 seconds on, 900 if a recovery is still possible |
| `ReviewPath.FreshCapacityMissesImages` | crates/nano-runtime/src/finish_controller.rs:222-256 | an admitted capacity after a first turn and an allowed review of two batches whose images exceed the history limit |
| `Review.CheckpointLeavesReview` | crates/nano-runtime/src/completion_review.rs:256-274 | a checkpoint leaves twelve turns and more than twelve minutes; a fresh-critic review asked for within eight turns and two minutes after it is admitted exactly when call and history room suffice |
| `ReviewObject.CompletionChallengeState.Issue` | crates/nano-runtime/src/agent_loop.rs:80-85 | the staged answer is, until something spoils it, the only one to fall back on |
| `ReviewObject.CompletionChallengeState.CommitToolStage` | crates/nano-runtime/src/agent_loop.rs:114-139 | the phase moves on by one exactly when the stage it waits for was dispatched; a mutation leaves nothing to fall back on, anything else leaves the fallback alone |
| `ReviewObject.CompletionChallengeState.TakeSafeFallback` | crates/nano-runtime/src/agent_loop.rs:141-147 | the staged answer is given exactly while it is safe in the object's history, so at most once and never after a mutation |
| `ReviewObject.CompletionChallengeState.CloseReview` | crates/nano-runtime/src/agent_loop.rs:149-153 | an issued review is closed for good, its fallback untouched |
| `Deadline.CutoffsExactly` | crates/nano-runtime/src/deadline.rs:336-368 | cutoffs are derived exactly when timeout and hard deadline exceed the reserves; then every gap is exact and nothing wrapped |
| `Deadline.ChainStrictExactly` | crates/nano-runtime/src/deadline.rs:336-368 | the chain of cutoffs is strict exactly when every reserve is positive |
| `Deadline.ProjectionKeepsOrder` | crates/nano-runtime/src/deadline.rs:185-190 | projection keeps and, ahead of the anchor, separates the order of cutoffs |
| `Deadline.NeverPassesLate` | crates/nano-runtime/src/deadline.rs:163-191 | a check passes exactly while absolute time plus capture skew is before the cutoff, because the instant is read first |
| `Deadline.ReversedCapturePassesLate` | crates/nano-runtime/src/deadline.rs:164-183 | with the clocks read in the other order some check passes at the cutoff itself |
| `Deadline.AcceptedReceipt` | crates/nano-runtime/src/deadline.rs:251-304 | an accepted receipt has the frozen reserves in a strict chain, 75 seconds before the bound hard deadline, under a longer timeout |
| `Deadline.LoadedDeadlinesAreSafe` | crates/nano-runtime/src/deadline.rs:118-154 | loaded instants keep the order of the cutoffs and no check against them passes late |
| `MediaPolicy.TurnByTurnEqualsOneShot` | crates/nano-provider-xai/src/types.rs:551-607 | whenever windowing h and additions at once succeeds, windowing h, appending and windowing again gives the same history and receipt |
| `MediaPolicy.PolicyKeepsNewestSuffix` | crates/nano-provider-xai/src/types.rs:551-607 | the policy succeeds exactly on well-formed histories and keeps exactly the longest newest suffix within both caps; the result is the history with the older attachments evicted, every other item in place |
| `MediaPolicy.PolicyIdempotent` | crates/nano-provider-xai/src/types.rs:551-607 | windowing a windowed history changes nothing |
| `MediaPolicy.DropCountIsLeast` | crates/nano-provider-xai/src/types.rs:558-576 | the number of dropped attachments is the least that fits |
| `MediaPolicy.EvictionIsInPlace` | crates/nano-provider-xai/src/types.rs:576-597 | eviction replaces exactly the oldest attachments by ledgers with their provenance and moves nothing |
| `MediaPolicy.EvictionKeepsWellFormed` | crates/nano-provider-xai/src/types.rs:576-606 | eviction keeps a history well-formed |
| `History.InspectionMeaning` | crates/nano-provider-xai/src/types.rs:645-724 | inspection succeeds exactly on well-formed histories and then reports their true counts, sizes and positions |
| `History.InspectMediaHistory` | crates/nano-provider-xai/src/types.rs:645-724 | the inspection loop computes the item-by-item inspection |
| `MediaBatch.ApplyMediaHistoryPolicy` | crates/nano-provider-xai/src/types.rs:551-607 | the array is windowed in place as the policy says and left unchanged on failure |
| `MediaBatch.RetainFrom` | crates/nano-provider-xai/src/types.rs:558-574 | the backward scan finds the least number of attachments to drop |
| `MediaBatch.EvictInPlace` | crates/nano-provider-xai/src/types.rs:576-597 | the replacement loop evicts exactly the oldest attachments |
| `MediaBatch.ReceiptValidates` | crates/nano-provider-xai/src/types.rs:609-643 | the issued receipt validates against the windowed history and no other receipt does |
| `MediaBatch.BatchKeepsItsMedia` | crates/nano-provider-xai/src/types.rs:444-525 | an accepted batch with attachments within the item cap is appended verbatim; only older attachments make room |
| `MediaBatch.PrepareMediaHistoryBatch` | crates/nano-provider-xai/src/types.rs:444-525 | the batch builder's loops compute the batch function, all errors included |
| `MediaBatch.RegisterExpected` | crates/nano-provider-xai/src/types.rs:457-462 | expected ids are registered exactly when nonempty and distinct |
| `MediaBatch.ResolveNames` | crates/nano-provider-xai/src/types.rs:463-475 | names resolve exactly when every expected call occurs, unrepeated |
| `MediaBatch.CheckMediaTail` | crates/nano-provider-xai/src/types.rs:486-514 | attachments are checked for origin, order and total size |
| `RequestHistory.WindowSettled` | crates/nano-provider-xai/src/request.rs:307-310 | windowing a settled history succeeds and the result passes the media preflight |
| `RequestHistory.BatchAnswers` | crates/nano-provider-xai/src/types.rs:444-525 | an accepted batch answers every call of its response, so the history may be sent |
| `RequestHistory.WellFormedUnique` | crates/nano-provider-xai/src/types.rs:655-668 | call ids and output ids of a well-formed history are unique |
| `RequestHistory.AttachmentNeedsExactOutput` | crates/nano-provider-xai/src/types.rs:674-689 | in an accepted batch each attachment's output is the exact media sentence |
| `MediaOutputs.BatchAcceptedExactly` | crates/nano-provider-xai/src/types.rs:444-525 | a batch that is otherwise in order is accepted exactly when the output of every attachment's call is its sentence; otherwise it is rejected as a whole |
| `MediaOutputs.SentenceSurvivesExactly` | crates/nano-runtime/src/agent_loop.rs:2112-2214 | a sentence comes out of footer and cut unchanged exactly when it got no footer and fits |
| `MediaOutputs.FooterRejectsBatch` | crates/nano-provider-xai/src/types.rs:674-689 | one `read_file` call with its image: accepted with its sentence, rejected with any footer, rejected when cut |
| `Response.ValidateAuthoritative` | crates/nano-provider-xai/src/types.rs:776-827 | accepts exactly responses with distinct valid calls within the limits and at most one message; the call-limit failure exactly when the count is over |
| `Response.CheckCalls` | crates/nano-provider-xai/src/types.rs:788-816 | the loop over the calls succeeds exactly when their ids are distinct and nonempty, their tools known, and their arguments within the limit and objects |
| `Response.HistoryCallsListed` | crates/nano-provider-xai/src/types.rs:851-877 | every call a response puts into the history is one of its calls |
| `Response.NoCallsArePlain` | crates/nano-provider-xai/src/types.rs:851-877 | a response without calls adds only plain items |
| `SseDecoding.ChunkingMeaning` | crates/nano-provider-xai/src/sse.rs:558-593 | a chunking decodes exactly when the whole input is within limits, the line decoder accepts it and no cut leaves an oversized line; frames and end state are the line decoder's |
| `SseDecoding.CoarserChunking` | crates/nano-provider-xai/src/sse.rs:558-593 | every coarser chunking of a decoding one decodes to the same frames and state |
| `SseDecoding.ChunkingsAgree` | crates/nano-provider-xai/src/sse.rs:558-593 | two successful chunkings of the same bytes agree |
| `SseDecoding.FinerChunkingMayFail` | crates/nano-provider-xai/src/sse.rs:576-579 | a stream that decodes in one chunk and not in two |
| `SseChunking.AlwaysDecodesExactly` | crates/nano-provider-xai/src/sse.rs:558-593 | a stream decodes under every chunking exactly when it is within the response limit, the line decoder accepts it and every prefix leaves a line within the event limit |
| `SseDecoding.FramesWithinLimits` | crates/nano-provider-xai/src/sse.rs:636-647 | at most the allowed number of frames is emitted, each within the event limit |
| `SseDecoding.RoundTrip` | crates/nano-provider-xai/src/sse.rs:558-647 | encoding frames as data lines and decoding returns them, for every chunking that decodes |
| `SseDecoding.RoundTripOneChunk` | crates/nano-provider-xai/src/sse.rs:558-647 | in one chunk the encoding always decodes |
| `SseChunking.EncodingAlwaysDecodes` | crates/nano-provider-xai/src/sse.rs:558-647 | encoded frames are returned under every chunking exactly when the encoding is within the response limit and each data line within the event limit |
| `SseDecoding.SplitJoin` | crates/nano-provider-xai/src/sse.rs:636-647 | splitting a frame at line feeds and joining gives it back |
| `SseDecoderObject.SseDecoder.Feed` | crates/nano-provider-xai/src/sse.rs:558-580 | the object feeds as the function does |
| `SseDecoderObject.SseDecoder.Finish` | crates/nano-provider-xai/src/sse.rs:582-593 | the object finishes as the function does |
| `SseDecoderObject.SseDecoder.ConsumeLine` | crates/nano-provider-xai/src/sse.rs:595-634 | the object consumes a line as the function does |
| `SseDecoderObject.SseDecoder.EmitFrame` | crates/nano-provider-xai/src/sse.rs:636-647 | the object emits a frame as the function does |
| `Reconciliation.FinishedStreamReconciled` | crates/nano-provider-xai/src/sse.rs:40-326 | a finished stream's turn agrees with everything streamed; sequence numbers are consecutive; only one done mark may follow the completion |
| `Reconciliation.StreamedIndexReconciled` | crates/nano-provider-xai/src/sse.rs:244-326 | every index streamed as a function call is one in the turn, with agreeing id and name and the streamed arguments |
| `Reconciliation.StreamTracked` | crates/nano-provider-xai/src/sse.rs:132-242 | partial calls hold the pre-delta text plus all deltas in order |
| `Reconciliation.SequenceTracked` | crates/nano-provider-xai/src/sse.rs:98-121 | accepted sequence numbers are consecutive |
| `Reconciliation.StreamShape` | crates/nano-provider-xai/src/sse.rs:57-96 | nothing but one done mark follows the completed event |
| `Reconciliation.CompletedStreamMatches` | crates/nano-provider-xai/src/sse.rs:244-326 | the terminal output matches each partial call |
| `ResponseStreamObject.ResponseStream.Feed` | crates/nano-provider-xai/src/sse.rs:40-46 | the object decodes and reconciles the new frames in order |
| `ResponseStreamObject.ResponseStream.Finish` | crates/nano-provider-xai/src/sse.rs:48-55 | the object returns the turn of the whole stream or its failure |
| `ResponseStreamObject.ResponseStream.ConsumeFrame` | crates/nano-provider-xai/src/sse.rs:57-96 | a frame is consumed as the function does |
| `EventLog.TerminalReserve` | crates/nano-runtime/src/event_writer.rs:283-351 | after any run of appends, refusals, rollbacks and omissions an unpoisoned, unterminated writer accepts its terminal event |
| `EventLog.ReservedTerminalFits` | crates/nano-runtime/src/event_writer.rs:236-272 | the exact condition for that acceptance, and which body is written |
| `EventLog.ReserveCoversExactly` | crates/nano-runtime/src/event_writer.rs:420-447 | a terminal line fits the reserve at all numbers and times exactly when its code has at most 128 bytes, 125 on success |
| `EventLog.RunConsistent` | crates/nano-runtime/src/event_writer.rs:283-351 | under any faults: consecutive numbers, the digest over exactly the accepted lines, at most one terminal event and only at the end, room for one until then |
| `EventLog.ReceiptFaultsNeverCorrupt` | crates/nano-runtime/src/event_writer.rs:186-215 | with faults on receipt appends only, the file is exactly the accepted lines, or the writer is poisoned without terminal event or record |
| `LogFaults.FileAgreesExactly` | crates/nano-runtime/src/event_writer.rs:186-351 | over every run with any faults, the file agrees with its digest exactly when nothing is left behind the hashed bytes; torn mandatory and terminal appends leave bytes, a restored receipt removes them unless a line was accepted on top |
| `LogFaults.BuriedForever` | crates/nano-runtime/src/event_writer.rs:342-343 | once a line was accepted on top of torn bytes that differ from it, the file never agrees again |
| `LogFaults.LineBuriesJunk` | crates/nano-runtime/src/event_writer.rs:342-343 | a line is accepted on torn bytes without harm only if they begin with the same whole line |
| `LogFaults.TornAppendIsPublished` | crates/nano-runtime/src/event_writer.rs:342-343 | a run whose terminal event is written and record published over a file that disagrees with the digest |
| `LogFaults.TornTerminalDisagrees` | crates/nano-runtime/src/event_writer.rs:236-272 | a torn terminal append leaves the file in disagreement |
| `LogFaults.RestoringHeals` | crates/nano-runtime/src/event_writer.rs:186-215 | a torn receipt, restored, removes what a torn mandatory append left |
| `LogFaults.JsonOpens` | crates/nano-runtime/src/event_writer.rs:427-440 | these runs exist for a writer of JSON lines |
| `EventLog.FrozenForever` | crates/nano-runtime/src/event_writer.rs:283-289 | a poisoned or terminated log never changes again |
| `EventLog.PublishedIsFinal` | crates/nano-runtime/src/event_writer.rs:367-417 | a published record means the log ends in its only terminal event, and neither is ever replaced |
| `EventLog.TerminalEffect` | crates/nano-runtime/src/event_writer.rs:236-272 | an accepted terminal event carries the omission counter, or zero exactly when the counter made the line too long |
| `EventLog.ReceiptEffect` | crates/nano-runtime/src/event_writer.rs:186-215 | a receipt append writes the receipt, counts it as omitted, or fails, and exactly one of these |
| `LogJson.JsonObeysSizeLaw` | crates/nano-runtime/src/event_writer.rs:427-440 | JSON lines, escapes included, have the assumed terminal sizes for every admissible code, and not for others |
| `LogJson.PlainCodeUnescaped` | crates/nano-runtime/src/event_writer.rs:420-447 | an admissible code has no byte that JSON escapes |
| `EventWriterObject.Create` | crates/nano-runtime/src/event_writer.rs:104-170 | a writer is created exactly with a usable fresh directory and sufficient limits, and starts empty |
| `EventWriterObject.EventWriter.AppendInner` | crates/nano-runtime/src/event_writer.rs:283-351 | the object appends as the log value does and stays consistent |
| `EventWriterObject.EventWriter.AppendOperational` | crates/nano-runtime/src/event_writer.rs:174-181 | no terminal event through the operational path |
| `EventWriterObject.EventWriter.AppendToolReceipt` | crates/nano-runtime/src/event_writer.rs:186-215 | receipts are written, omitted or rolled back as the log value says |
| `EventWriterObject.EventWriter.RecordOmissions` | crates/nano-runtime/src/event_writer.rs:221-223 | omissions add up, saturating |
| `EventWriterObject.EventWriter.AppendTerminal` | crates/nano-runtime/src/event_writer.rs:236-272 | the terminal append with its zero-omission fallback |
| `EventWriterObject.EventWriter.CommitRunRecord` | crates/nano-runtime/src/event_writer.rs:367-417 | a record is published once, after the terminal event |
| `RunStateObject.RunState.StageToolReceipt` | crates/nano-runtime/src/agent_loop.rs:2492-2510 | a receipt is staged within 256 samples and 256 KiB, otherwise counted as omitted |
| `RunStateObject.RunState.RecordToolReceiptOmissions` | crates/nano-runtime/src/agent_loop.rs:2488-2490 | reported omissions are conserved |
| `RunStateObject.RunState.FlushStagedToolReceipts` | crates/nano-runtime/src/agent_loop.rs:2512-2525 | the staging area is emptied; without an error no receipt is lost |
| `RunStateObject.WriteReceipts` | crates/nano-runtime/src/agent_loop.rs:2516-2524 | each staged receipt is written, omitted or, after an error, unsettled |
| `RunStateObject.RunState.FinalizeOnce` | crates/nano-runtime/src/agent_loop.rs:2540-2629 | the first finalization accounts for every receipt, closes the log with the terminal event the record names, and publishes a valid record; later ones change nothing and answer the same |
| `RunStateObject.RunState.ProviderRequested` | crates/nano-runtime/src/agent_loop.rs:2527-2530 | the turn count stays the accumulator's request count |
| `RunStateObject.RunState.ProviderCompleted` | crates/nano-runtime/src/agent_loop.rs:2536-2538 | a completion is logged with its usage |
| `RunStateObject.RunState.ProviderFailed` | crates/nano-runtime/src/agent_loop.rs:2532-2534 | a failure is logged with its usage |
| `Usage.ObserveTallies` | crates/nano-runtime/src/agent_loop.rs:2653-2707 | every counter and total is the true one of the whole log cut off at 2^64-1, and invalid exactly on a malformed report or an overflow |
| `Usage.AccountTallies` | crates/nano-runtime/src/agent_loop.rs:2653-2707 | after any log of requests and settlements the accumulator holds its tallies |
| `Usage.CoverageBalances` | crates/nano-runtime/src/agent_loop.rs:2709-2740 | requested is completed plus failed plus in flight; present plus absent is settled, for usage and cost; the coverage validates |
| `Usage.CompleteExactly` | crates/nano-runtime/src/agent_loop.rs:2712-2718 | complete exactly when nothing is in flight, every settlement had valid usage, no cost was malformed and nothing overflowed |
| `UsageObject.UsageAccumulator.ObserveCompleted` | crates/nano-runtime/src/agent_loop.rs:2653-2656 | the object's fields stay the tallies of its log |
| `UsageObject.UsageAccumulator.ObserveFailed` | crates/nano-runtime/src/agent_loop.rs:2658-2661 | likewise for failures |
| `UsageObject.UsageAccumulator.TakeSnapshot` | crates/nano-runtime/src/agent_loop.rs:2709-2740 | totals appear exactly when reported and equal the true sums cut off at 2^64-1; coverage of a paired log validates |
| `Evidence.LongestRunMeaning` | crates/nano-runtime/src/completion_review.rs:361-379 | the recorded maximum is the length of some run of equal failures, and of no longer one |
| `Evidence.CallsSinceEditMeaning` | crates/nano-runtime/src/completion_review.rs:354-360 | the counter is absent exactly without a successful edit, and otherwise counts the calls since the last |
| `Evidence.UnresolvedMeaning` | crates/nano-runtime/src/completion_review.rs:388-418 | a task is unresolved exactly when some call announced it and no later one settled it |
| `Evidence.MeaningGrows` | crates/nano-runtime/src/completion_review.rs:347-386 | one streamed observation moves every field to the meaning of the longer log |
| `EvidenceObject.CompletionEvidenceLedger.Observe` | crates/nano-runtime/src/completion_review.rs:347-418 | the ledger always holds the whole-log meaning: counts, longest failure run, calls since the last edit, open tasks, last six facts |
| `Utf8.TruncateUtf8` | crates/nano-runtime/src/foreground.rs:242-264 | valid UTF-8; the identity when it fits; exactly the cap up to the marker length; otherwise between cap-3 and cap bytes from a disjoint prefix and suffix |

## Left out

- HTTP client, TLS, timers and the async select: each send is a nondeterministic response, error, timeout or cancellation.
- JSON parsing and serialization, SHA-256 and base64 are function parameters; classification of event and item type names, JSON depth counting and the mirroring of cost fields are not modelled.
- The wording of prompts, notices and footers.
- Tool executors, protected-target and git-history gates: a call may be refused or executed with any result.
- The request body, tool-choice selection and the media check for requests without a receipt (crates/nano-provider-xai/src/request.rs:222-350): the loop always sends a receipt.
- Settlement stage cutoffs for committing history: the commit cutoff is a parameter, and the failure to derive it is not modelled.
- Failing to create the writer, and configuration errors before the loop starts, beyond the checks of `EventWriterObject.Create`.
- The run record's identity and digest shapes; publication is modelled as a byte sequence that is written once.
- The loop appends to a trace instead of calling the writer object, and any append may be refused; `AgentLog` says which logs a trace can leave, for events of any payload. Tool receipts reach that log only at the flush.
- The evidence ledger and the observed token count enter the loop only as nondeterministic inputs of the checkpoint decision and of the prompts.
- Error codes that no property distinguishes are merged: all provider failures into one, and tool failures into one.
- Overflow of an instant when a review reserve is added to it.
- AgentState.PhaseDecisions: instants are natural numbers, so the platform's own lower bound on instants is taken as zero.
- AgentExit.FinalizeFailure: does not say why the record was not published; `RunStateObject.RunState.FinalizeOnce` does.
- AgentTools.SettleCall: the trace names a call by its id alone; its name and arguments are those of the answer.
- RunStateObject.RunState.FinalizeOnce: receipts dropped by an earlier failed flush are counted as lost; the loop never finalizes twice after one.
- Deadline.ValidateReceipt: identities, source and digests are reduced to whether they are well formed.
- Reconciliation.StreamTracked: does not bound the size of partial arguments, because the done event does not check it.
- CLI, scripted provider, and the Python audit and release scripts.
