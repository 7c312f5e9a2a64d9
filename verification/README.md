# The one-shot agent loop

A Dafny model of the agent loop of minicore-runtime: the runner, its tool
batches, the control plane shared with handles, the model driver with its
streaming assembler, the request validators, the prompt projection and the
best-effort event queues. `dafny verify dfyconfig.toml` checks the project.

How the pieces fit, bottom up:

- `Text`, `JsonBounds`, `Messages`, `Exchange`, `ToolCatalog`: the value layer.
  Each traversal or one-pass validator is a method proved against an
  independent declarative definition (normalization in two passes, tree height
  and node count, the block grammar of a tool exchange, a sorted table).
- `Assembly`, `Driver`, `LoopEvents`, `ModelCall`: one model call. The assembler
  is an object whose state is specified as a function of the events accepted so
  far; the driver runs it over any environment, and what it does is decided by
  that environment alone.
- `ControlSpec` is the control plane as a sequential object, with theorems about
  every run; `ControlHistory` reads every answer it gives off the list of
  operations before it. `ControlThreads` is the same protocol at the granularity of single
  compare-and-swaps, loads, lock acquisitions and plain writes, for any number
  of threads; it is proved linearizable to `ControlSpec`. `LoopControls` is the
  object the runner uses, with the source's fields updated in place, each method
  proved to perform exactly one operation of `ControlSpec`.
- `History`, `ToolCalls`, `ToolBatch`: the prompt projection and the tool calls
  of a turn. Each started call keeps a trace of its policy answer, its approval,
  its execution and its input, and that trace justifies its one result.
- `RunStates`, `Chronicles`, `Runner`, `LoopRuns`, `Host`: the loop itself. The
  environment (the model as a function of the request it is given, prompt and
  tool outcomes, policy decisions, inputs, deadlines, panics of host code, and
  operations of other threads between any two steps) is an arbitrary finite
  script, so each contract holds in every reachable state of every run. A run
  returns a record of what each of its rounds did against its own part of the
  script: what the two takes delivered, the prompt, the request, the driver's
  call under its contract, the tool batch and the reason for its end. The run's
  inputs, requests, responses, history, control log, output events and panics
  are theorems about these records. A run whose script ends before the loop
  does, or that waits forever for an answer, is `Unfinished`.
- `RequestBuilds`: when the loop's request builds fail, and what a built request
  says about the history behind it, over the rounds of any run.
- `Outcomes`: which outcome a finished loop reports, read off what its last round
  did.
- `ScriptDecides`: the contracts leave nothing open. Whatever keeps them did
  exactly the same things as anything else that keeps them, from one tool call
  and one model call up to whole runs, reports and conversations.

The main specification functions that methods are proved against have a second
reading that does not use them: the accepted event lists are a protocol on the list
itself (`Assembly.AcceptedExactly`), a response reads back its events
(`Assembly.ResponseReadsBack`), errors of attempts and calls are read off their
scripts (`Driver.AttemptIsMeant`, `Driver.CallTimesOutExactly`), messages read
back history items (`History.ProjectionReadsBack`), tool calls do what their
scripts say (`ToolCalls.CallDoesAsScripted`), the control plane answers by
history (`ControlHistory.AnswersByHistory`), usage is a sum per field
(`RunStates.UsageIsSummed`) and outcomes follow from rounds
(`Outcomes.OutcomeExactly`).

Where a natural property is false of the code, the model keeps the code and
proves exactly when it holds:

- Tool-argument deltas are normalized one by one, without a carried CR. For every
  event history the assembled argument text is the whole raw stream normalized
  at once exactly when no CRLF straddles two of its deltas
  (`Assembly.ArgumentsNormalizedExactly`, with `Assembly.SplitCrLfDiffers` as an
  accepted history for which it fails).
- User inputs and system prompts may hold control characters that the request
  validator refuses. A default prompt is accepted exactly when system prompt,
  base history and user texts are valid on their own
  (`History.PromptAcceptedExactly`, with `RunStates.ControlCharacterIsRefused`),
  and over every run a request build fails exactly when they are not
  (`RequestBuilds.BuildFailsExactly`).
- The backoff stays below 30 s exactly for a validated base delay
  (`Driver.BackoffCapped`), revisions increase strictly exactly until the counter
  saturates (`ControlSpec.RevisionsIncrease`), and reported losses add up exactly
  while no gap exceeds the drop counter (`LoopEvents.LossConserved`).
- `begin_final` leaves the status alone, so a later cancellation still wins
  (`ControlSpec.BeginFinalLeavesTheRace`).
- A host panic before the seal publishes `Failed(Internal)` with an empty history
  even when a cancellation won first. For every run that ends, the report names
  the cancellation that won before the seal exactly unless host code it reached
  panicked and one had won (`LoopRuns.RunLoop`, with
  `LoopRuns.PanicHidesCancellation` as the concrete run); a run panics exactly
  when host code it reached does (`Chronicles.RoundPanicsExactly`), which a
  script without panic flags never does (`Chronicles.NoFlagsNoPanic`). The
  comment at src/agent_loop/control.rs:14-19 calls the winner of the race the
  authoritative outcome; on the panic path the code does not consult it.

## Model

| member | source | states |
|---|---|---|
| Text.NormalizeModelText | src/value.rs:88-109 | the peeking scanner with its borrow shortcut equals the two-pass definition: drop each LF after a CR, then map CR to LF and other controls to a space |
| Text.NormalizedDelta | src/model/driver/assembler.rs:253-268 | one streamed delta is the normalization continued from the carried CR flag, and the new flag says whether the raw stream ends in CR |
| Text.NormalizeNeverGrows | src/value.rs:88-109 | the UTF-8 byte length never grows |
| Text.NormalizeDisplayable | src/value.rs:80-109 | the output is always displayable text |
| Text.NormalizeIdempotent | src/value.rs:80-109 | normalizing twice is normalizing once |
| Text.NormalizeFixesValid | src/value.rs:88-92 | displayable texts, and no others, come back unchanged |
| Text.NormalizeChar | src/value.rs:93-108 | what each single character becomes, at the start and right after a CR |
| Text.ChunkingIsIrrelevant | src/model/driver/assembler.rs:71-99 | for every chunking of a raw stream, empty chunks and split CRLF included, the streamed deltas concatenate to the whole string normalized at once |
| Text.PiecewiseExact | src/model/driver/assembler.rs:133-143 | for every list of pieces, normalizing them one by one and concatenating agrees with normalizing the concatenation exactly when no piece starts with LF after text that ends in CR, empty pieces in between included |
| JsonBounds.TreeWithinBounds | src/value.rs:274-304 | a depth-first scan with a threaded counter accepts exactly when height and total node count fit, and then adds exactly the node count |
| JsonBounds.ValidateJsonShape | src/value.rs:274-304 | the recursive early-exit traversal is that scan, with the same first error |
| JsonBounds.ValidateReplayShape | src/model/replay.rs:88-107 | the same for the replay traversal and its own bounds |
| JsonBounds.SerializeTo | src/value.rs:239-272 | a counting writer accepts exactly when the total length fits, for any split into writes |
| JsonBounds.ValidateJsonSize | src/value.rs:224-237 | both limits together, and which of them is reported when both or only one is exceeded |
| JsonBounds.NewProviderReplay | src/model/replay.rs:37-58 | a replay is built exactly within its shape and size bounds, and records its byte length |
| Messages.OrderFaultExact | src/model/message.rs:536-558 | no first fault exactly when texts are valid, call indices count 0, 1, 2, ... and ids are distinct |
| Messages.ValidateToolCallOrder | src/model/message.rs:536-558 | the one-pass check with two sets finds exactly the first fault |
| Messages.ValidateMessage | src/model/message.rs:485-503 | acceptance of a single message, and its error |
| Messages.NormalizeParts | src/model/message.rs:560-570 | the in-place rewrite normalizes every text part and nothing else |
| Messages.AssistantWithProviderReplay | src/model/message.rs:456-471 | accepts exactly content or replay whose normalized parts are ordered, yields a valid message, and otherwise reports the first fault |
| Messages.NewResponse | src/model/response.rs:49-66 | a response is built exactly under the same condition, with the same error otherwise |
| Messages.ResponseIsSendable | src/model/response.rs:49-66 | a valid response comes back unchanged as a valid assistant message |
| ToolCatalog.NeighboursDecideSorted | src/model/request.rs:101-107 | the neighbour test on names decides strict order of the whole list |
| ToolCatalog.BuildableExact | src/tools/set.rs:95-113 | a registration sequence builds exactly when no spec panics and all names differ |
| ToolCatalog.ToolSetBuilder.Build | src/tools/set.rs:115-137 | the frozen catalog is strictly sorted and has exactly the lookup map's entries, which are exactly the registrations |
| ToolCatalog.FrozenIsCanonical | src/tools/set.rs:115-137 | catalogs with the same specs are equal, whatever the registration order |
| ToolCatalog.BuildToolSet | src/tools/set.rs:87-137 | a whole registration sequence, end to end |
| Exchange.WellFormedConcat | src/model/request.rs:171-211 | accepted message sequences are closed under concatenation |
| Exchange.WellFormedCancel | src/model/request.rs:171-211 | and cancel on the left |
| Exchange.VerdictExact | src/model/request.rs:171-211 | from any scanner state, acceptance is: the missing answers first, then a well-formed rest |
| Exchange.ValidateToolExchange | src/model/request.rs:171-211 | the one-pass validator accepts exactly the block grammar (valid plain messages, and assistant messages followed by a permutation of their calls' answers) and reports the first violation |
| Exchange.NewRequest | src/model/request.rs:95-111 | acceptance of a request with the order check |
| Exchange.RequestWithValidatedTools | src/model/request.rs:113-129 | acceptance without it |
| Exchange.FrozenCatalogNeedsNoOrderCheck | src/model/request.rs:95-129 | on a frozen catalog both agree for every message list |
| Assembly.EmittedIsNormalizedWhole | src/model/driver/assembler.rs:71-99 | for every event history the emitted deltas of a channel concatenate to its whole raw stream normalized at once |
| Assembly.AcceptedFacts | src/model/driver/assembler.rs:63-185 | what any accepted history guarantees: text limits, distinct ids, offered names, ended calls, acceptable arguments |
| Assembly.SlotsFacts | src/model/driver/assembler.rs:71-121 | parts appear once, in order of first appearance, tools in index order |
| Assembly.AssembledIsValid | src/model/driver/assembler.rs:187-243 | an accepted and finished history without a finish fault always assembles to a response the validator accepts, with call indices 0..n-1 and distinct ids |
| Assembly.ArgumentsNormalizedExactly | src/model/driver/assembler.rs:133-143 | for every event history and call, the assembled argument text is the whole raw argument stream normalized at once exactly when no CRLF straddles two of its deltas |
| Assembly.SplitCrLfDiffers | src/model/driver/assembler.rs:133-143 | an accepted history of three events for which it is not |
| Assembly.AcceptedExactly | src/model/driver/assembler.rs:63-185 | for every event list: it is accepted event by event exactly when it keeps the protocol as a whole: a finish only at the end and only once every started call has ended; offered names, each id once, no more starts than the limit; arguments and ends between the start and the one end of their call; acceptable arguments for each ended call; at most one usage and one replay; deltas, arguments and channel texts within their bounds |
| Assembly.NextEvent | src/model/driver/assembler.rs:63-185 | after an accepted list an event is refused exactly when it breaks the protocol, as an unexpected tool call exactly for the start of a tool that is not offered, otherwise as an invalid response |
| Assembly.FaultExactly | src/model/driver/assembler.rs:187-208 | a finished list yields a response exactly when its finish reason fits whether it started calls, has the text a refusal needs, and there is anything to respond; an unfinished one is incomplete |
| Assembly.ResponseReadsBack | src/model/driver/assembler.rs:187-243 | the response of every accepted, finished list, read off its events: one part for each channel with text and each start, with whole texts, parsed arguments and call index, in the order in which they first had content, and the reported finish, usage and replay |
| Assembly.Assembler.Push | src/model/driver/assembler.rs:63-185 | the mutable assembler accepts an event exactly when the events so far and this one keep the protocol, refuses it with the exact error otherwise, and emits exactly the specified progress |
| Assembly.Assembler.Conclude | src/model/driver/assembler.rs:187-243 | `finish` fails exactly on the listed faults, never on an internal expectation, and otherwise returns the specified response |
| Driver.ProgressIsChannelText | src/model/driver.rs:272-282 | the deltas a host sees on a channel are the assembled channel text |
| Driver.RunAttempt | src/model/driver.rs:188-305 | one attempt gives exactly what its script decides: the first refused event, the step that cut it off, the assembler's final fault, or the assembled response of all its events; any error after a delivered event is `Started` and never retryable; what is accepted, when there is a response, and what an error says about the deadline, its kind and its delivery are stated on the script itself |
| Driver.AttemptIsMeant | src/model/driver.rs:188-305 | the accepted events are the longest prefix that keeps the protocol; an error names the deadline, with kind `Timeout`, exactly when the start or the step after them is the deadline, is `Cancelled` for a cancellation, `Panicked` for a panic, the provider's own for its error, and by the protocol for a refused event or a stream that does not conclude; delivery is `Started` and final once an event was seen, `Unknown` before unless the provider says otherwise |
| Driver.AttemptIsDecided | src/model/driver.rs:188-305 | the script of an attempt decides what was accepted of it and its result |
| Driver.BackoffCapped | src/model/driver/failure.rs:27-44 | each backoff doubles the one before, up to 30 s, and no backoff exceeds 30 s exactly when the base delay does not |
| Driver.DelayForRetry | src/model/driver/failure.rs:27-44 | repeated checked doubling gives min(base * 2^i, 30 s) after the uncapped first delay, and the provider hint raises or refuses it |
| Driver.EvaluateRetry | src/model/driver/failure.rs:46-68 | a retry is granted exactly when attempts remain, nothing was observed or delivered, the error is retryable and the delay ends before the deadline |
| Driver.AttemptLoop | src/model/driver.rs:110-168 | at most `max_attempts` attempts, another one exactly when a retry is due and neither the wait nor the next start is cut off; each attempt gives what its script decides, each but the last failed before delivery and was granted its exact delay, result and progress are the last attempt's or the exact late-start failure |
| Driver.RunDetailed | src/model/driver.rs:110-168 | the same for the whole call with its early checks: the first attempt starts exactly when the call is admitted |
| Driver.CallIsDecided | src/model/driver.rs:110-168 | no two results, delta lists or attempt traces keep this contract for one environment: retries are demanded as well as bounded |
| Driver.CallTimesOutExactly | src/model/driver.rs:110-168 | a failed call names the deadline exactly when it ended the call: at its own check, at a start, during the last attempt, or during the wait after it; its error is the last attempt's unless no further attempt could start |
| Driver.RetriesExactly | src/model/driver/failure.rs:46-68 | another attempt follows exactly when attempts remain, the last one failed before any event with a retryable, undelivered error, the longer of hint and backoff ends before the deadline, the wait is not cut off and the next start is in time |
| LoopEvents.LoopEventSink.TryEmit | src/agent_loop/event.rs:160-176 | one emission: appended to what the sink was given, and delivered with the pending count or counted once as dropped; what is delivered is always some of what was emitted, in order |
| LoopEvents.LoopEventSink.RecordDropped | src/agent_loop/event.rs:156-158 | external losses are added, saturating |
| LoopEvents.LossConserved | src/agent_loop/event.rs:140-176 | emitted plus recorded equals delivered plus reported losses plus pending, exactly when no gap exceeds the counter |
| LoopEvents.PumpProgress | src/agent_loop/runner/model.rs:119-157 | through the inner queue and any schedule, exactly the scheduled deltas reach the sink, in order, and exactly the scheduled losses are recorded; a call that unwinds leaves before the drain |
| LoopEvents.PumpConserves | src/agent_loop/runner/model.rs:119-157 | whatever the schedule, each delta is forwarded in order or counted once as lost; only a panic leaves some unaccounted for, and no more deltas than the queue holds are never lost |
| ModelCall.ProgressBounded | src/agent_loop/runner/model.rs:119-137 | the response limits bound the number of deltas, so the wrapping drop counter of one call cannot wrap |
| ModelCall.RunModel | src/agent_loop/runner/model.rs:98-138 | the driver's contract for the model's answer to the very request it was given, and exactly the forwarded deltas and recorded losses of its schedule at the sink; it unwinds exactly when dropping the provider's objects panics |
| ModelCall.CallAccounted | src/agent_loop/runner/model.rs:119-157 | every delta of a call is forwarded, in order, or counted once as lost, unless the call unwinds |
| ModelCall.MapModelFailure | src/agent_loop/runner/model.rs:159-175 | cancellation first, then a turn deadline, then the kind of error |
| Interactions.EncodeResult | src/tools/input.rs:155-184 | an answer that passed validation indexes an offered choice |
| ControlSpec.ApplyKeepsInv | src/agent_loop/control.rs:115-358 | every operation keeps the invariant, and what it can never undo |
| ControlSpec.RunEvolves | src/agent_loop/control.rs:115-358 | the invariant at every point of every run, and monotone evolution between any two points |
| ControlSpec.AtMostOneWinner | src/agent_loop/control.rs:154-170 | at most one cancellation wins, only the first seal wins, and nothing wins after a seal |
| ControlSpec.SealReportsCancellation | src/agent_loop/control.rs:252-280 | the first seal always wins, and reports a cancellation exactly when that one won before it |
| ControlSpec.BeginFinalLeavesTheRace | src/agent_loop/control.rs:221-225 | closing for the final seal leaves a later cancellation its win |
| ControlSpec.NothingAcceptedAfterwards | src/agent_loop/control.rs:177-206 | every update or answer after a winning cancellation or a seal is `NotActive` |
| ControlSpec.RevisionsIncrease | src/agent_loop/control.rs:177-206 | handed-out revisions grow in acceptance order, strictly exactly until the counter saturates |
| ControlSpec.TakeYieldsLatest | src/agent_loop/control.rs:211-216 | a take hands over the latest accepted config, unchanged, under its own revision |
| ControlSpec.EveryConfigSettles | src/agent_loop/control.rs:177-284 | each accepted config is taken, replaced, discarded or the one still pending; settled fates never change; nothing is pending after the seal |
| ControlSpec.OneAnswerPerInteraction | src/agent_loop/control.rs:334-358 | each interaction accepts at most one answer, and only one that fits its question |
| ControlHistory.AnswersByHistory | src/agent_loop/control.rs:154-358 | for every list of operations, each answer follows from the operations before it: a cancellation wins exactly when nothing decided the loop; an update is accepted exactly when its config fits and the loop is neither decided nor closed, under the next revision; a take or a seal hands over exactly the update nothing took, replaced or discarded since; an answer is accepted exactly for the open question it names and fits; a seal names the first cancellation; the applied revision is the last one committed |
| ControlHistory.TokenByHistory | src/agent_loop/control.rs:154-170 | the token is raised exactly by a raise after the loop was decided |
| ControlThreads.Linearizable | src/agent_loop/control.rs:148-358 | for any number of threads and any interleaving of single shared accesses, every call takes effect once, between invocation and return, with the sequential result |
| ControlThreads.SecondCasSucceeds | src/agent_loop/control.rs:264-274 | between the two CASes of `finish_once` the marker is still the one read, so the second never fails |
| ControlThreads.OneCallWins | src/agent_loop/control.rs:154-170 | of all completed calls at most one `mark_cancel` returns true and at most one seal wins |
| ControlThreads.ExactlyOneSealWins | src/agent_loop/control.rs:252-280 | once some `finish_once` has completed, exactly one call, completed or pending, has won the seal |
| ControlThreads.NothingAfterwards | src/agent_loop/control.rs:177-206 | a call invoked after a winning cancellation or a seal has returned gets `NotActive` |
| ControlThreads.WinningSealIsExact | src/agent_loop/control.rs:252-280 | the winning seal of an interleaving names exactly the cancellation that took effect before it |
| ControlThreads.RevisionsFollowRealTime | src/agent_loop/control.rs:177-206 | updates that do not overlap get increasing revisions in real-time order |
| LoopControls.LoopControl.CompareAndCancel | src/agent_loop/control.rs:154-170 | the CAS of `mark_cancel` as one operation of the sequential object |
| LoopControls.LoopControl.Update | src/agent_loop/control.rs:177-206 | an update, with its error order |
| LoopControls.LoopControl.Answer | src/agent_loop/control.rs:334-358 | an answer, with its error order |
| LoopControls.LoopControl.TakeConfig | src/agent_loop/control.rs:211-216 | the runner's take |
| LoopControls.LoopControl.FinishOnce | src/agent_loop/control.rs:252-280 | the seal, closing and discarding in one step |
| LoopControls.LoopControl.SetInteraction | src/agent_loop/control.rs:318-328 | filling the slot, busy exactly when it is full |
| LoopControls.LoopControl.Interfere | src/agent_loop/control.rs:115-358 | whatever other threads do between two runner steps leaves the taken config, the issued revision, the questions and the seal alone |
| History.SettledConcat | src/agent_loop/runner.rs:395-403 | settled histories are closed under concatenation |
| History.LongestFittingExact | src/prompt.rs:164-176 | a prefix fits a byte budget exactly when it is no longer than the longest fitting one |
| History.SummaryMessage | src/prompt.rs:164-176 | walking back to a character boundary keeps exactly the longest prefix that fits |
| History.SummaryFits | src/prompt.rs:164-176 | a projected summary always fits, and is refused exactly when what remains cannot be displayed |
| History.Prepare | src/prompt.rs:108-147 | the default provider: non-empty system prompt first, then one message per item, in order, that reads back the item: a result keeps its id, output and outcome; it errs exactly when cancelled or late, for an item without a message, or with nothing to say |
| History.ProjectionReadsBack | src/prompt.rs:108-162 | a projection exists exactly when assistant items are ordered and not empty and summaries can be shown; the i-th message is a tool message exactly for a result item, with its id, output and outcome, a user message exactly for a user item, with its text, an assistant message exactly for an assistant item, with its normalized parts and replay, and a system message for a summary, with the prefix and as much as fits |
| History.SettledProjects | src/prompt.rs:114-143 | a settled loop history projects to an accepted exchange exactly when its user texts are valid |
| History.PromptAcceptedExactly | src/prompt.rs:114-143 | a default prompt over any base is accepted exactly when system prompt, base and user texts are |
| History.BaseExtends | examples/memory_agent.rs:100-124 | extending a base by a settled loop history stays acceptable exactly when the base and the new texts are |
| ToolCalls.RunPortCall | src/port_call.rs:19-66 | the log and the script decide a host call: cancelled exactly when the token is raised before the host is called or while it runs, unwound exactly when the called host's destructor panics, and otherwise as deadline and result say, end by end on the script's own fields: a panic is a panic, an error an error, and an exceeded deadline one the script names; other threads act exactly as scripted |
| ToolCalls.WaitInteraction | src/agent_loop/runner/tools.rs:422-486 | a wait ends at the first look that sees a raised token, a reached deadline or an accepted answer, in that order, with what it sees, and goes on forever exactly when no look does; the slot is free before and after, the id is fresh, an answer fits its question, and neither the busy error nor a closed reply channel occurs |
| ToolCalls.WaitIsDecided | src/agent_loop/runner/tools.rs:422-486 | two waits on one question, from the same log and script, end alike |
| ToolCalls.WaitSees | src/agent_loop/runner/tools.rs:422-486 | what a wait came to, on the control plane at its last look: cancelled exactly for a raised token, late exactly for a reached deadline without one, answered exactly for an accepted answer without either; before that look there was none of them |
| ToolCalls.DecidePolicy | src/agent_loop/runner/tools.rs:261-308 | a call is allowed exactly without a policy or by its own decision, asks exactly for a valid approval request, and every failure of the policy denies |
| ToolCalls.CompletedResult | src/agent_loop/runner/tools.rs:498-525 | a result within the limit is kept, a larger one becomes a bounded failure |
| ToolCalls.ProvidedInputResult | src/agent_loop/runner/tools.rs:527-555 | an encoded answer is kept exactly when it fits and is valid output |
| ToolCalls.DeniedResult | src/agent_loop/runner/tools.rs:557-578 | a denial carries its reason when it fits; building its output never fails |
| ToolCalls.TerminalFits | src/agent_loop/runner/tools.rs:488-496 | a static message or the empty text fits every limit |
| ToolCalls.RunToolCall | src/agent_loop/runner/tools.rs:121-250 | each stage of a call runs exactly when the earlier ones lead to it, from the log they left, and the call's result is justified by its own trace: a tool's output is recorded only if the policy or the answer to this call's own question allowed it; a denial needs a denying or failing policy or a `Deny` to this call's question; provided input is the rendered answer to the tool's own request; a failure names its cause; the mismatched-answer branches are unreachable |
| ToolCalls.StepIsDecided | src/agent_loop/runner/tools.rs:121-250 | what happened during a call decides how it ends and what its result says: one trace never justifies two different ends |
| ToolCalls.CallDoesAsScripted | src/agent_loop/runner/tools.rs:121-420 | every call read off its script: the tool runs only without a policy, for `Allow`, or for a question answered with `AllowOnce`; a policy that errs, panics or times out denies, a valid denial carries its reason when it fits; a tool that errs, panics or exceeds its own deadline gives a failed result and the batch goes on; the turn's deadline, a raised token and an invalid decision end it; outputs and answers are kept when they fit |
| ToolCalls.DeadlineHasCause | src/agent_loop/runner/tools.rs:121-486 | a call ends for the turn's deadline only when a script field names it, or the loop's own passed during a wait |
| ToolBatch.SettlementCompletes | src/agent_loop/runner/tools.rs:32-51 | settling the rest gives every call its one result, in call order |
| ToolBatch.RunToolBatch | src/agent_loop/runner/tools.rs:53-115 | on every path one terminal result per call in call order, each justified by its own call's trace, cancelled exactly from the interruption on; a call starts only while the token is not raised, from the log the one before left; every question is put during its own call and no two calls share one; the snapshot lookup always succeeds |
| ToolBatch.BatchUnwindsExactly | src/agent_loop/runner/tools.rs:53-115 | a batch unwinds exactly when a host destructor panics in one of its started calls |
| RunStates.RunTakesConfig | src/agent_loop/runner.rs:58-80 | the current config stays the one handed out under the candidate revision |
| RunStates.RunIssues | src/agent_loop/runner.rs:214-226 | the revision committed at an issue is that of the config that serves it |
| RunStates.TextsAreInputs | src/agent_loop/runner.rs:58-80 | the user texts of a loop's history are its prompt and the inputs taken |
| RunStates.UsageIsSummed | src/usage.rs:20-45 | over any responses with 64-bit counts a usage field stays unknown exactly when nobody reported it and is the sum of what was reported otherwise; the total fails exactly when a sum leaves the counter's range |
| RunStates.ControlCharacterIsRefused | src/execution.rs:33-39 | the concrete user input that no request accepts |
| Chronicles.RoundPanicsExactly | src/agent_loop/runner.rs:152-345 | a round that follows its script panics exactly when host code it reached does: a take, the prompt, the model call, or a tool call |
| Chronicles.NoFlagsNoPanic | src/agent_loop/runner.rs:152-345 | so a round whose script raises no panic flag never panics |
| Chronicles.RunPanicsExactly | src/agent_loop/runner.rs:86-106 | the last executed round decides whether a run panicked |
| Chronicles.DeltasAccounted | src/agent_loop/runner/model.rs:119-157 | over a whole run every delta the driver produced was given to the event sink or reported to it as lost, once, unless host code panicked |
| Runner.TakeBoundary | src/agent_loop/runner.rs:58-80 | a boundary takes exactly the pending config and delivers exactly the given inputs, in order, reports whether it took anything, exactly, and panics exactly when the host code it runs does; a config that the round's snapshot still pins is dropped after the inputs |
| Runner.TakenIsLatest | src/agent_loop/runner.rs:197-210 | when the second boundary takes nothing, the loop's config is the latest accepted one, and the revision it will commit is that config's |
| Runner.PreparePrompt | src/agent_loop/runner/model.rs:30-80 | the preparation follows the provider's script, or the default provider's own code; a ready prompt is exactly what it returned, and every other end has its exact cause |
| Runner.BuildModelRequest | src/agent_loop/runner/model.rs:82-96 | on a default prompt the build fails exactly for unacceptable texts or base, whatever rounds the history holds |
| Runner.RoundPrompt | src/agent_loop/runner.rs:152-212 | up to the issue boundary: cut exactly by a raised token or a passed deadline; what both takes delivered, in order; a prompt that survives the second take is exactly the prepared one for the current config and history, and that config is the latest accepted one; a rebuild keeps the request index |
| Runner.IssueRequest | src/agent_loop/runner.rs:214-226 | the issue boundary as one step of the invariant: the request holds the prepared messages and the snapshot's catalog, and fails exactly for messages the validator refuses |
| Runner.Interpret | src/agent_loop/runner.rs:252-296 | failure, usage overflow and finish without tools, each with its exact path, mapped before anything enters the history |
| Runner.SettleTurn | src/agent_loop/runner.rs:298-327 | final turns and the round limit leave a settled history |
| Runner.BatchTurn | src/agent_loop/runner.rs:328-344 | a batch appends the response and its results, each justified by its own call's trace, and its end decides the round's |
| Runner.ServeRequest | src/agent_loop/runner.rs:237-344 | one served request: the driver's contract for exactly the checked messages and catalog, the token read when its result arrived, and the response and results that enter the history |
| Runner.Round | src/agent_loop/runner.rs:152-345 | one iteration keeps the invariant and tells what it did: its takes' inputs, its request, the driver's call, the response, the justified batch, and the exact reason for its end |
| Runner.RunRounds | src/agent_loop/runner.rs:108-345 | over every script: the run's inputs are the concatenation of the executed rounds' take results, its requests, responses, batches and history those of the rounds in order, its control log and output events exactly what the rounds did; it stops only at the script's end or for its last round's reason; requests are numbered without gaps, committed revisions never decrease and name the serving config, rounds are counted and bounded, every issued prompt was prepared from a settled history with all inputs taken so far; over all its batches no question serves two calls |
| LoopRuns.OutcomeIsDecided | src/agent_loop/runner.rs:379-393 | the sealed outcome is the winning cancellation's reason exactly when one won, the path's own otherwise |
| LoopRuns.FinishLoop | src/agent_loop/runner.rs:365-420 | seals once, publishes once, and reports the run; unless a cancellation won before the seal, each outcome is reported exactly for its own path |
| LoopRuns.PanicReport | src/agent_loop/runner.rs:447-480 | publishes the empty report `Failed(Internal)` on the first seal, which ends the log, and returns the published one afterwards |
| LoopRuns.Wait | src/agent_loop/handle.rs:73-86 | a waiter sees exactly the one published report |
| LoopRuns.RunLoop | src/agent_loop/runner.rs:86-106 | every ending loop returns the one report it published; it panics exactly when host code its rounds reached does; the report reflects the winning cancellation exactly unless such a panic hides one; otherwise all that its rounds did, in order, is what the report says; the control log is exactly the rounds' and the ending's |
| LoopRuns.PanicHidesCancellation | src/agent_loop/runner.rs:447-480 | the concrete run: a cancellation wins, the host's `take` panics, the report says `Failed(Internal)`, and the log shows all four operations |
| LoopRuns.ReportIsSettled | src/agent_loop/runner.rs:365-420 | every report off the panic path is the prompt and what the executed rounds appended; it is settled, its steering items are the concatenation of all take results in order, it respects the output limit and names the revision of the last issued request |
| LoopRuns.RequestsAreCounted | src/agent_loop/runner.rs:221-344 | requests are numbered 0, 1, 2, ... over the rounds that issued one, batches <= requests <= batches + 1, a round limit m allows m batches and m + 1 requests, and the report counts both |
| LoopRuns.CancellationIsExact | src/agent_loop/runner.rs:379-393 | the report is `Cancelled` by user, owner or shutdown exactly when a `mark_cancel` with that reason won before the seal |
| LoopRuns.ResponsesAreReported | src/agent_loop/runner.rs:246-296 | the report's assistant items are the driver's responses, verbatim and in order, each valid for its own request's catalog, and its usage is their sum |
| LoopRuns.OutcomeIsEarned | src/agent_loop/runner.rs:246-327 | a model-driven or round-limited outcome is what the last response's finish or the number of batches demands |
| LoopRuns.ReportExtendsBase | src/agent_loop/runner.rs:395-403 | base plus report is acceptable to the next loop exactly when the base, the prompt and every text the rounds took are |
| RequestBuilds.BuildFailsExactly | src/agent_loop/runner.rs:197-217 | in every run, finished or not, a default prompt that survives the second take is issued as a request exactly when the system prompt, the base history, the prompt text and every input taken so far are acceptable on their own; otherwise that round breaks for its prompt |
| RequestBuilds.RequestReadsHistory | src/agent_loop/runner/model.rs:30-96 | in every run, a request the default provider's prompt became holds the system text and then one message for each item of the base history, the prompt text and everything the rounds took and appended before it, each reading back its item, and the driver is given exactly these messages and the catalog of the config they were prepared for |
| RequestBuilds.BuildNeverFails | src/agent_loop/runner.rs:214-217 | so with the default provider and acceptable texts every prompt that survives the second take is issued |
| RequestBuilds.PromptPathIsACut | src/agent_loop/runner/model.rs:30-96 | with the default provider and acceptable texts a round breaks for its prompt exactly when its preparation was cut by an invalid or exceeded port deadline or failed because the provider itself saw cancellation or deadline |
| RequestBuilds.NoPromptFailure | src/agent_loop/runner.rs:379-393 | so a loop whose preparations nothing hurries never reports a prompt failure |
| Outcomes.RoundReachesExactly | src/agent_loop/runner.rs:152-236 | how far each round gets, by the log and the script: it is cut, panics at a take, goes without a prompt, starts over for something new, or issues, each exactly under its condition |
| Outcomes.InputsAreReported | src/agent_loop/runner.rs:58-80 | the steering texts of a finished loop's report are exactly what the host gave at the boundaries its rounds reached, in order: none is lost or repeated |
| Outcomes.BatchEndsExactly | src/agent_loop/runner/tools.rs:53-115 | no call of a batch starts while the token is raised; a batch ends cancelled exactly when a call was cut off or the token was raised before the next one, for the deadline exactly when one of its calls timed out, for the policy exactly when an invalid decision was given, internally exactly when a call's own deadline overflowed or a question got no id |
| Outcomes.CutCallsAreAnswered | src/agent_loop/runner.rs:307-344 | calls that never ran are answered: all as failed at the round limit, the rest as cancelled after an early end, with the static text when it fits |
| Outcomes.RoundCancelsExactly | src/agent_loop/runner.rs:152-345 | a round breaks for a cancellation exactly when the token was raised on top, during its preparation, when the driver had failed, or in its batch |
| Outcomes.RoundBreaksExactly | src/agent_loop/runner.rs:152-345 | a round that breaks without a cancellation breaks for exactly one reason, each read off what the round did |
| Outcomes.DriverDeadlineBreaks | src/agent_loop/runner/model.rs:159-175 | with no token raised, a failed call breaks the loop for its deadline exactly when the turn's own deadline ended the call |
| Outcomes.OutcomeExactly | src/agent_loop/runner.rs:379-547 | in every finished run in which no cancellation won, each outcome is reported exactly when the last round did what it stands for: the deadline on top, in preparation, driver or batch; a failed or empty or unacceptable prompt; the driver's own error, as a bad response or a model failure; the finish of a response without calls; the round limit; an invalid policy decision; an overflow or a broken call |
| Outcomes.LimitIsExact | src/agent_loop/runner.rs:246-327 | a response with calls runs into the limit exactly when that many batches ran before it, and a successful call gives no response exactly when the usage of all responses overflows |
| Host.MemoryAgent.Chat | examples/memory_agent.rs:100-124 | one turn runs the loop over its own script from the history so far, returns its report, and appends exactly the report's items; the history stays an acceptable base exactly for valid texts, which are the turn's input and all inputs its rounds took |
| Host.MemoryAgent.Converse | examples/memory_agent.rs:100-124 | over any number of turns and any mix of outcomes the history is the one it started from and all turns' items in order, each turn ran from the history before it, only a loop that never ends keeps the next turn from starting, and the history stays an acceptable base exactly for valid texts |
| ScriptDecides.BatchIsDecided | src/agent_loop/runner/tools.rs:53-115 | two batches from the same log, calls, scripts and interaction ids started the same calls, went alike, gave the same results and ended alike |
| ScriptDecides.RoundIsDecided | src/agent_loop/runner.rs:152-345 | what came before a round, its script and the ids decide everything it does |
| ScriptDecides.RunIsDecided | src/agent_loop/runner.rs:108-345 | two runs over one script, with the same ids for the same questions, executed the same rounds, took the same inputs, issued the same requests, got the same responses, made the same history and log, emitted the same events and stopped for the same reason |
| ScriptDecides.ReportIsDecided | src/agent_loop/runner.rs:365-420 | the rounds and the log up to the seal decide the report |
| ScriptDecides.ConversationIsDecided | examples/memory_agent.rs:100-124 | whole conversations over the same turns end with the same history, texts and reports |

## Left out

- Tokio (futures, timers, wakers, `select!` polling order beyond its bias) is replaced by scripts; time is what the script says was seen, so a deadline may be seen without a configured one (the source uses a 24 h horizon).
- Runs are finite prefixes: nothing is claimed about termination or fairness.
- In `ControlThreads` plain writes made under the mutex by one call are one step; each atomic access, lock and unlock is a step of its own. Memory ordering is sequentially consistent, as in the source.
- Reads of the state-watch channel, `publish_state` and `LoopState` snapshots; of the loop's events only output deltas pass through the modelled sink inside the runner.
- Tool progress uses the same bounded queue and drop counter as model progress; only the latter is modelled.
- Reasoning parts keep their visible text only: summary, encrypted and signature fields are opaque in the source and are not modelled.
- Model descriptors, reasoning preference, model limits and tool schemas do not affect the modelled behaviour and are dropped; `validate_against_limits` is a flag of the update.
- JSON parsing and serialization are an abstract partial parser and sequence of writes; object keys do not take part in any modelled bound.
- Interaction and loop ids are assumed fresh and distinct, so runs are compared under the same interaction ids; loop ids on history items are dropped.
- Shared ownership and drop placement: a report is a value, and a panicking destructor is a scripted flag at the points where the loop drops host objects: the config a take replaces (the second take's once its round's snapshot is gone), the prompt, policy and tool futures of a host call, the model's future or stream, and the loop's locals after publication. A panic of the model's destructor is placed after the last attempt of its call.
- Panics between the seal and the publication are excluded, as no host code runs there.
- Serde, wire shapes, redaction and error texts.
- Other hosts, the Python scripts and the provider gate.
- ModelCall.RunModel: foreign operations during the call are performed after it, because the driver itself sees cancellation only through its scripted polls.
