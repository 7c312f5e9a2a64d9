/**
 * What the report of a finished loop says about its last round
 * (src/agent_loop/runner.rs:147-345, 379-393 and 489-547), read off what the
 * round did and not off the path table.
 */
module Outcomes {
  import opened Common
  import opened Text
  import opened Messages
  import opened Exchange
  import opened Assembly
  import opened History
  import opened Driver
  import opened ModelCall
  import opened Interactions
  import opened ControlSpec
  import opened Reports
  import opened ToolCalls
  import opened ToolBatch
  import opened RunStates
  import opened Chronicles
  import opened Runner
  import opened LoopRuns

  // ---- Batches -------------------------------------------------------------------------------

  /** The turn's deadline ended the policy's call, the tool's call, or a wait for the user. */
  predicate TimedOut(tr: ToolTrace) {
    || tr.policy == Some(DeadlineExceeded(TurnDeadline))
    || tr.tool == Some(DeadlineExceeded(TurnDeadline))
    || (tr.approval.Some? && tr.approval.value.waited == Ended(PathDeadline))
    || (tr.input.Some? && tr.input.value.waited == Ended(PathDeadline))
  }

  /** A raised token ended the policy's call, the tool's call, or a wait for the user. */
  predicate CutOff(tr: ToolTrace) {
    || (tr.policy.Some? && tr.policy.value.PortCancelled?)
    || (tr.tool.Some? && tr.tool.value.PortCancelled?)
    || (tr.approval.Some? && tr.approval.value.waited == Ended(PathCancelled))
    || (tr.input.Some? && tr.input.value.waited == Ended(PathCancelled))
  }

  /** The policy gave a decision that is not valid. */
  predicate Misdecided(tr: ToolTrace) {
    tr.policy.Some? && tr.policy.value.Returned? && !DecisionValid(tr.policy.value.value)
  }

  /** The tool's deadline overflowed, or a question got no id. */
  predicate Broke(tr: ToolTrace, script: CallScript) {
    || tr.tool == Some(InvalidDeadline)
    || (WantsApproval(tr) && script.approvalIdFails)
    || (WantsInput(tr) && script.inputIdFails)
  }

  /** The step of a call that ended its batch. */
  lemma EndingCall(path: FailPath, tr: ToolTrace, hasPolicy: bool, script: CallScript, o: BatchOptions, config: ExecutionConfig)
    requires TraceFollows(tr, hasPolicy, script, o, config)
    ensures CutOff(tr) ==> Justified(StepEnd(PathCancelled), tr, script, o)
    ensures TimedOut(tr) ==> Justified(StepEnd(PathDeadline), tr, script, o)
    ensures Misdecided(tr) ==> Justified(StepEnd(PathPolicy), tr, script, o)
    ensures Broke(tr, script) ==> Justified(StepEnd(PathInternal), tr, script, o)
    ensures Justified(StepEnd(path), tr, script, o) ==>
      && (path == PathCancelled ==> CutOff(tr))
      && (path == PathDeadline ==> TimedOut(tr))
      && (path == PathPolicy ==> Misdecided(tr))
      && (path == PathInternal ==> Broke(tr, script))
  {
    hide TraceFollows, DecisionValid, InputRequestValid;
    WaitsEndTwoWays(tr, hasPolicy, script, o, config);
  }

  lemma WaitsEndTwoWays(tr: ToolTrace, hasPolicy: bool, script: CallScript, o: BatchOptions, config: ExecutionConfig)
    requires TraceFollows(tr, hasPolicy, script, o, config)
    ensures tr.approval.Some? && tr.approval.value.waited.Ended? ==> tr.approval.value.waited.path in {PathCancelled, PathDeadline}
    ensures tr.input.Some? && tr.input.value.waited.Ended? ==> tr.input.value.waited.path in {PathCancelled, PathDeadline}
    ensures tr.input.Some? ==> tr.tool.Some?
  {
    hide PortFollows, WaitFollows, ApprovalLog, PolicyLog, ToolLog, DecisionValid, InputRequestValid;
    if tr.approval.Some? {
      WaitSees(config, tr.approval.value, ApprovalKind(tr), script.approval, o.hasDeadline);
    }
    if tr.input.Some? {
      WaitSees(config, tr.input.value, InputKind(tr), script.input, o.hasDeadline);
    }
  }

  /** A step justified by a call of the batch is the one that ended it. */
  lemma {:induction false} OnlyEnd(b: BatchRecord, i: nat, path: FailPath, requestIndex: nat, calls: seq<ToolCall>, hasPolicy: bool,
                                   scripts: seq<CallScript>, o: BatchOptions, config: ExecutionConfig)
    requires BatchOk(b, requestIndex, calls, hasPolicy, scripts, o, config) && i < |b.traces|
    requires |b.traces| <= |scripts| && Justified(StepEnd(path), b.traces[i], scripts[i], o)
    ensures b.end == BatchEnded(path)
  {
    hide TraceFollows, ResultJustified, PolicyEnd, ApprovalEnd, ToolEnd, Unwinds, Waits, Terminal, InterruptedAt, Settlement, BatchLog, TokenAt;
    assert TraceFollows(b.traces[i], hasPolicy, scripts[i], o, config);
    if i < b.from {
      StepIsDecided(StepResult(b.results[i]), StepEnd(path), b.traces[i], hasPolicy, scripts[i], o, config);
    } else if b.end.BatchEnded? {
      StepIsDecided(StepEnd(b.end.path), StepEnd(path), b.traces[i], hasPolicy, scripts[i], o, config);
    } else if b.end.BatchSuspended? {
      StepIsDecided(StepSuspended, StepEnd(path), b.traces[i], hasPolicy, scripts[i], o, config);
    } else {
      StepIsDecided(StepUnwinds, StepEnd(path), b.traces[i], hasPolicy, scripts[i], o, config);
    }
  }

  /** What ended a batch is in its calls, or the token was raised before the next one; no call starts once it is. */
  lemma {:induction false} BatchEndsExactly(b: BatchRecord, requestIndex: nat, calls: seq<ToolCall>, hasPolicy: bool,
                                            scripts: seq<CallScript>, o: BatchOptions, config: ExecutionConfig)
    requires BatchOk(b, requestIndex, calls, hasPolicy, scripts, o, config)
    ensures |b.traces| <= |scripts|
    ensures forall i | 0 <= i < |b.traces| :: !TokenAt(config, b.traces[i].from)
    ensures b.end == BatchEnded(PathCancelled) <==>
      || (exists i :: 0 <= i < |b.traces| && CutOff(b.traces[i]))
      || (|b.traces| == b.from < |calls| && TokenAt(config, BatchLog(b, scripts, config)))
    ensures b.end == BatchEnded(PathDeadline) <==> exists i :: 0 <= i < |b.traces| && TimedOut(b.traces[i])
    ensures b.end == BatchEnded(PathPolicy) <==> exists i :: 0 <= i < |b.traces| && Misdecided(b.traces[i])
    ensures b.end == BatchEnded(PathInternal) <==> exists i :: 0 <= i < |b.traces| && Broke(b.traces[i], scripts[i])
    ensures b.end.BatchEnded? ==> b.end.path in {PathCancelled, PathDeadline, PathPolicy, PathInternal}
  {
    hide TraceFollows, Justified, Terminal, InterruptedAt, Settlement, BatchLog, TokenAt, CutOff, TimedOut, Misdecided, Broke;
    assert forall i | 0 <= i < |b.traces| :: CallStarts(b.log, b.traces, i, scripts, config);
    hide CallsChained, CallStarts;
    forall i | 0 <= i < |b.traces|
      ensures !TokenAt(config, b.traces[i].from)
      ensures CutOff(b.traces[i]) ==> b.end == BatchEnded(PathCancelled)
      ensures TimedOut(b.traces[i]) ==> b.end == BatchEnded(PathDeadline)
      ensures Misdecided(b.traces[i]) ==> b.end == BatchEnded(PathPolicy)
      ensures Broke(b.traces[i], scripts[i]) ==> b.end == BatchEnded(PathInternal)
    {
      assert TraceFollows(b.traces[i], hasPolicy, scripts[i], o, config);
      StartsUncancelled(b.log, b.traces, i, scripts, config);
      EndingCall(PathDeadline, b.traces[i], hasPolicy, scripts[i], o, config);
      if CutOff(b.traces[i]) {
        OnlyEnd(b, i, PathCancelled, requestIndex, calls, hasPolicy, scripts, o, config);
      }
      if TimedOut(b.traces[i]) {
        OnlyEnd(b, i, PathDeadline, requestIndex, calls, hasPolicy, scripts, o, config);
      }
      if Misdecided(b.traces[i]) {
        OnlyEnd(b, i, PathPolicy, requestIndex, calls, hasPolicy, scripts, o, config);
      }
      if Broke(b.traces[i], scripts[i]) {
        OnlyEnd(b, i, PathInternal, requestIndex, calls, hasPolicy, scripts, o, config);
      }
    }
    if b.end.BatchEnded? && |b.traces| == b.from + 1 {
      assert TraceFollows(b.traces[b.from], hasPolicy, scripts[b.from], o, config);
      EndingCall(b.end.path, b.traces[b.from], hasPolicy, scripts[b.from], o, config);
    }
  }

  lemma StartsUncancelled(log: seq<Op>, traces: seq<ToolTrace>, i: nat, scripts: seq<CallScript>, config: ExecutionConfig)
    requires i < |traces| && CallStarts(log, traces, i, scripts, config)
    ensures !TokenAt(config, traces[i].from)
  {
  }

  // ---- Rounds -------------------------------------------------------------------------------

  /** The deadline ended the round: on top, in its preparation, in the driver, or in its batch. */
  ghost predicate EndedByDeadline(rec: RoundRecord, script: RoundScript, o: LoopOptions) {
    || (rec.first.None? && o.hasDeadline && script.deadlinePassed)
    || rec.prompt == Some(DeadlineExceeded(TurnDeadline))
    || (CallFailed(rec, script) && rec.call.value.result.error.deadlineSource == Some(TurnDeadline))
    || (rec.batch.Some? && exists i :: 0 <= i < |rec.batch.value.traces| && TimedOut(rec.batch.value.traces[i]))
  }

  /** The driver returned an error. */
  predicate CallFailed(rec: RoundRecord, script: RoundScript) {
    Heard(rec, script) && rec.call.value.result.Err?
  }

  /** The preparation failed, or gave nothing, or what it gave is no request. */
  ghost predicate EndedByPrompt(rec: RoundRecord, script: RoundScript) {
    || (rec.prompt.Some?
        && (rec.prompt.value.ReturnedError? || rec.prompt.value.InvalidDeadline? || rec.prompt.value.PortPanicked?
            || rec.prompt.value == DeadlineExceeded(PortDeadline) || rec.prompt.value == Returned([])))
    || (PromptStands(rec, script) && rec.issue.None?)
  }

  predicate BadResponse(kind: ModelErrorKind) {
    kind == InvalidProviderResponse || kind == IncompleteResponse || kind == UnexpectedToolCall
  }

  /** The driver failed for another reason than its response or the turn's deadline, with this error. */
  predicate EndedByModel(rec: RoundRecord, script: RoundScript, error: ModelError) {
    && CallFailed(rec, script) && rec.call.value.result.error.error == error
    && rec.call.value.result.error.deadlineSource != Some(TurnDeadline) && !BadResponse(error.kind)
  }

  /** The driver's response was bad, or asked for tools without calling any. */
  predicate EndedByResponse(rec: RoundRecord, script: RoundScript, error: ModelError) {
    || (CallFailed(rec, script) && rec.call.value.result.error.error == error
        && rec.call.value.result.error.deadlineSource != Some(TurnDeadline) && BadResponse(error.kind))
    || ((FinishedAs(rec, ModelFinishReason.ToolCalls) || FinishedAs(rec, Unknown))
        && error == ModelError(InvalidProviderResponse, DeliveryStarted, Never))
  }

  /** A response without tool calls finished for `reason`. */
  predicate FinishedAs(rec: RoundRecord, reason: ModelFinishReason) {
    rec.response.Some? && Calls(rec.response.value.parts) == [] && rec.response.value.finishReason == reason
  }

  /** A response with tool calls ran no batch. */
  predicate LimitReached(rec: RoundRecord) {
    rec.response.Some? && Calls(rec.response.value.parts) != [] && rec.batch.None?
  }

  ghost predicate EndedByPolicy(rec: RoundRecord) {
    rec.batch.Some? && exists i :: 0 <= i < |rec.batch.value.traces| && Misdecided(rec.batch.value.traces[i])
  }

  /** The usage overflowed, or something broke inside a batch. */
  ghost predicate EndedInternally(rec: RoundRecord, script: RoundScript) {
    || (Heard(rec, script) && rec.call.value.result.Ok? && rec.response.None?)
    || (rec.batch.Some? && |rec.batch.value.traces| <= |script.tools|
        && exists i :: 0 <= i < |rec.batch.value.traces| && Broke(rec.batch.value.traces[i], script.tools[i]))
  }

  /** Everything a breaking round did says why it broke, one way only. */
  ghost predicate BreaksAs(path: FailPath, rec: RoundRecord, script: RoundScript, o: LoopOptions) {
    && (path == PathDeadline <==> EndedByDeadline(rec, script, o))
    && (path == PathPrompt <==> EndedByPrompt(rec, script))
    && (forall e: ModelError :: path == PathModel(e) <==> EndedByModel(rec, script, e))
    && (forall e: ModelError :: path == PathInvalidModelResponse(e) <==> EndedByResponse(rec, script, e))
    && (path == PathCompleted <==> FinishedAs(rec, Stop))
    && (path == PathOutputLimit <==> FinishedAs(rec, Length))
    && (path == PathRefused <==> FinishedAs(rec, Refused))
    && (path == PathContentFiltered <==> FinishedAs(rec, ContentFiltered))
    && (path == PathMaxToolRounds <==> LimitReached(rec))
    && (path == PathPolicy <==> EndedByPolicy(rec))
    && (path == PathInternal <==> EndedInternally(rec, script))
  }

  /** A round that breaks before any request was issued. */
  lemma UnissuedBreaks(rec: RoundRecord, script: RoundScript, path: FailPath, req: LoopRequest, o: LoopOptions)
    requires RoundFollows(rec, script, req, o) && rec.end == Break(path) && path != PathCancelled && rec.call.None?
    ensures BreaksAs(path, rec, script, o)
  {
    hide PortFollows, PromptPort, PromptLog, WellFormed, CallKept, IsLatest, Serves, TakeFollows, TakePanics, TookAny, Calls, TokenAt,
         BatchOk, Settlement, TimedOut, Misdecided, Broke, CallUnwinds, BatchRoundEnd, FailedCallEnd, NoToolFinish;
  }

  /** A round that breaks for the driver's result. */
  lemma UnansweredBreaks(rec: RoundRecord, script: RoundScript, path: FailPath, req: LoopRequest, o: LoopOptions)
    requires RoundFollows(rec, script, req, o) && rec.end == Break(path) && path != PathCancelled && rec.call.Some? && rec.response.None?
    ensures BreaksAs(path, rec, script, o)
  {
    hide PortFollows, PromptPort, PromptLog, WellFormed, CallKept, IsLatest, Serves, TakeFollows, TakePanics, TookAny, Calls, TokenAt,
         BatchOk, Settlement, TimedOut, Misdecided, Broke, CallUnwinds, BatchRoundEnd, NoToolFinish;
  }

  /** What a response takes. */
  lemma ResponseTakes(rec: RoundRecord, script: RoundScript, req: LoopRequest, o: LoopOptions)
    requires RoundFollows(rec, script, req, o) && rec.response.Some?
    ensures rec.first.Some? && rec.prompt.Some? && rec.prompt.value.Returned? && rec.prompt.value.value != []
    ensures rec.issue.Some? && Heard(rec, script) && rec.call.value.result.Ok?
    ensures AnsweredEnd(rec)
  {
    hide PortFollows, PromptPort, PromptLog, WellFormed, CallKept, IsLatest, Serves, TakeFollows, TakePanics, TookAny, Calls, TokenAt, TurnFollows,
         CallUnwinds, BatchRoundEnd, FailedCallEnd, NoToolFinish, TopFollows;
  }

  /** The last steps of `EndFollows`. */
  ghost predicate AnsweredEnd(rec: RoundRecord)
    requires rec.response.Some?
  {
    var calls, finish := Calls(rec.response.value.parts), NoToolFinish(rec.response.value.finishReason);
    if rec.turn == [] then calls == [] && finish.None? && rec.end == Break(PathInvalidModelResponse(INVALID_FINISH))
    else if calls == [] then finish.Some? && rec.end == Break(finish.value)
    else if rec.batch.None? then rec.end == Break(PathMaxToolRounds)
    else rec.end == BatchRoundEnd(rec.batch.value.end)
  }

  /** A round that breaks for the finish of its response, or the round limit. */
  lemma FinishBreaks(rec: RoundRecord, script: RoundScript, path: FailPath, o: LoopOptions)
    requires rec.response.Some? && AnsweredEnd(rec) && rec.end == Break(path) && rec.batch.None?
    requires rec.first.Some? && rec.prompt.Some? && rec.prompt.value.Returned? && rec.prompt.value.value != []
    requires rec.issue.Some? && Heard(rec, script) && rec.call.value.result.Ok?
    ensures BreaksAs(path, rec, script, o)
  {
    hide Calls, TimedOut, Misdecided, Broke, CallUnwinds, Heard, BatchRoundEnd, PromptStands;
  }

  /** A round that breaks with its batch. */
  lemma BatchBreaks(rec: RoundRecord, script: RoundScript, path: FailPath, o: LoopOptions)
    requires rec.end == Break(path) && path != PathCancelled && rec.batch.Some? && rec.end == BatchRoundEnd(rec.batch.value.end)
    requires rec.response.Some? && Calls(rec.response.value.parts) != []
    requires rec.first.Some? && rec.prompt.Some? && rec.prompt.value.Returned? && rec.prompt.value.value != []
    requires rec.issue.Some? && Heard(rec, script) && rec.call.value.result.Ok?
    requires var b := rec.batch.value;
             && |b.traces| <= |script.tools|
             && (b.end == BatchEnded(PathDeadline) <==> exists i :: 0 <= i < |b.traces| && TimedOut(b.traces[i]))
             && (b.end == BatchEnded(PathPolicy) <==> exists i :: 0 <= i < |b.traces| && Misdecided(b.traces[i]))
             && (b.end == BatchEnded(PathInternal) <==> exists i :: 0 <= i < |b.traces| && Broke(b.traces[i], script.tools[i]))
             && (b.end.BatchEnded? ==> b.end.path in {PathCancelled, PathDeadline, PathPolicy, PathInternal})
    ensures BreaksAs(path, rec, script, o)
  {
    hide Calls, TimedOut, Misdecided, Broke, CallUnwinds, Heard, PromptStands;
  }

  /** A round that breaks after a response. */
  lemma AnsweredBreaks(rec: RoundRecord, script: RoundScript, path: FailPath, req: LoopRequest, o: LoopOptions)
    requires RoundFollows(rec, script, req, o) && rec.end == Break(path) && path != PathCancelled && rec.call.Some? && rec.response.Some?
    ensures BreaksAs(path, rec, script, o)
  {
    hide TopFollows, PromptFollows, CallFollows, EndFollows, TakePanics, TookAny, Calls, BatchOk, Settlement, TimedOut, Misdecided, Broke, CallUnwinds,
         PromptReady, WellFormed, BreaksAs, Heard, NoToolFinish;
    ResponseTakes(rec, script, req, o);
    if rec.batch.None? {
      FinishBreaks(rec, script, path, o);
    } else {
      BatchEndsExactly(rec.batch.value, rec.issue.value.requestIndex, Calls(rec.response.value.parts), rec.snapshot.hasPolicy, script.tools,
                       Batch(o), req.config);
      BatchBreaks(rec, script, path, o);
    }
  }

  /** A round that breaks without a cancellation breaks for what it did. */
  lemma RoundBreaksExactly(rec: RoundRecord, script: RoundScript, path: FailPath, req: LoopRequest, o: LoopOptions)
    requires RoundFollows(rec, script, req, o) && rec.end == Break(path) && path != PathCancelled
    ensures BreaksAs(path, rec, script, o)
  {
    hide RoundFollows, BreaksAs;
    if rec.call.None? {
      UnissuedBreaks(rec, script, path, req, o);
    } else if rec.response.None? {
      UnansweredBreaks(rec, script, path, req, o);
    } else {
      AnsweredBreaks(rec, script, path, req, o);
    }
  }

  /** A round breaks for a cancellation exactly when the token was raised on top, in its preparation, when the driver had failed, or in its batch. */
  lemma RoundCancelsExactly(rec: RoundRecord, script: RoundScript, req: LoopRequest, o: LoopOptions)
    requires RoundFollows(rec, script, req, o)
    ensures rec.end == Break(PathCancelled) <==>
      || TokenAt(req.config, rec.topLog)
      || (rec.prompt.Some? && rec.prompt.value.PortCancelled?)
      || (CallFailed(rec, script) && TokenAt(req.config, rec.heard))
      || (rec.batch.Some? && rec.batch.value.end == BatchEnded(PathCancelled))
  {
    hide PortFollows, PromptPort, PromptLog, WellFormed, CallKept, IsLatest, Serves, TakeFollows, TakePanics, TookAny, Calls, TokenAt,
         BatchOk, Settlement, CallUnwinds;
  }

  // ---- How far a round gets ------------------------------------------------------------------

  /** A config is waiting to be taken. */
  predicate Waiting(config: ExecutionConfig, log: seq<Op>) {
    LoggedState(config, log).pending.Some?
  }

  /**
   * A round starts unless it is cancelled or late, prepares unless host code
   * panics at its first take, issues its prompt exactly when the second take
   * finds nothing new and the prompt is a request, and starts over exactly
   * when something new made the prompt stale or its batch is done.
   */
  lemma RoundReachesExactly(rec: RoundRecord, script: RoundScript, req: LoopRequest, o: LoopOptions)
    requires RoundFollows(rec, script, req, o)
    ensures rec.first.Some? <==> !TokenAt(req.config, rec.topLog) && !(o.hasDeadline && script.deadlinePassed)
    ensures rec.prompt.Some? <==>
      rec.first.Some? && script.first.inputs.Some? && !(script.first.dropPanics && Waiting(req.config, rec.topLog + script.first.ops))
    ensures rec.second.Some? <==> rec.prompt.Some? && rec.prompt.value.Returned? && rec.prompt.value.value != []
    ensures rec.issue.Some? <==>
      && rec.second.Some? && script.second.inputs == Some([]) && !Waiting(req.config, rec.second.value.log)
      && WellFormed(rec.prompt.value.value)
    ensures rec.end == Again <==>
      || (rec.second.Some? && script.second.inputs.Some?
          && if Waiting(req.config, rec.second.value.log) then !script.second.dropPanics else script.second.inputs.value != [])
      || (rec.batch.Some? && rec.batch.value.end.BatchDone?)
  {
    hide PortFollows, PromptPort, PromptLog, WellFormed, CallKept, CallUnwinds, IsLatest, Serves, Calls, TokenAt, BatchOk, Settlement, LoggedState;
  }

  // ---- Inputs --------------------------------------------------------------------------------

  /** What the host gave at one boundary, if the round reached it. */
  function Given(take: Option<Take>, b: BoundaryScript): seq<UserInput> {
    if take.Some? && b.inputs.Some? then b.inputs.value else []
  }

  /** What the host gave at every boundary the rounds reached, in order. */
  function AllGiven(records: seq<RoundRecord>, script: seq<RoundScript>): seq<UserInput>
    requires |records| <= |script|
  {
    if records == [] then []
    else
      var n := |records| - 1;
      AllGiven(records[..n], script) + (Given(records[n].first, script[n].first) + Given(records[n].second, script[n].second))
  }

  /** A round without a panic takes everything it was given. */
  lemma RoundTakesAll(rec: RoundRecord, script: RoundScript, req: LoopRequest, o: LoopOptions)
    requires RoundFollows(rec, script, req, o) && rec.end != RoundPanics
    ensures RoundInputs(rec, script) == Given(rec.first, script.first) + Given(rec.second, script.second)
  {
    hide PortFollows, PromptPort, PromptLog, WellFormed, CallKept, CallUnwinds, IsLatest, Serves, Calls, TokenAt, BatchOk, Settlement, LoggedState,
         TurnFollows, CallFollows, TookAny, BatchRoundEnd, FailedCallEnd, NoToolFinish;
  }

  lemma {:induction false} AllIsTaken(records: seq<RoundRecord>, script: seq<RoundScript>, req: LoopRequest, o: LoopOptions)
    requires Executed(records, script, req, o) && (records != [] ==> records[|records| - 1].end != RoundPanics)
    ensures TakenOf(records, script) == AllGiven(records, script)
  {
    hide RoundFollows, Given, RoundInputs;
    if records != [] {
      var n := |records| - 1;
      var init := records[..n];
      assert forall k | 0 <= k < n :: init[k] == records[k];
      AllIsTaken(init, script, req, o);
      RoundTakesAll(records[n], script[n], req, o);
    }
  }

  /** The report's steering texts are exactly what the host gave at the boundaries its rounds reached, in order: none is lost or repeated. */
  lemma InputsAreReported(report: LoopReport, run: RunState, path: FailPath, g: RunRecord, script: seq<RoundScript>, req: LoopRequest, o: LoopOptions)
    requires FinishedRun(report, run, path, g, script, req, o) && StopsBecause(g.rounds, script, LastRound(Finished(path)))
    ensures |g.rounds| <= |script|
    ensures SteeringTexts(report.appended) == AllGiven(g.rounds, script)
  {
    hide ReportOk, RoundFollows, RoundSeesAll, SteeringTexts, AllGiven, TakenOf, AppendedBy;
    ReportIsSettled(report, run, path, g, script, req, o);
    hide FinishedRun;
    AllIsTaken(g.rounds, script, req, o);
  }

  // ---- Calls that never ran ------------------------------------------------------------------

  /** The result of a call that did not run to its own end. */
  predicate AnsweredFor(item: HistoryItem, requestIndex: nat, call: ToolCall, outcome: ToolResultOutcome, text: string, maxOutput: nat) {
    && item.ResultItem? && item.requestIndex == requestIndex && item.callId == call.id && item.toolName == call.name
    && item.outcome == outcome && Carries(item.output, text, maxOutput)
  }

  /** Calls that were settled from `from` on. */
  lemma SettledFor(results: seq<HistoryItem>, from: nat, requestIndex: nat, calls: seq<ToolCall>, outcome: ToolResultOutcome, text: string, maxOutput: nat)
    requires from <= |results| == |calls| && results[from..] == Settlement(requestIndex, calls, from, outcome, text, maxOutput)
    ensures forall i | from <= i < |calls| :: AnsweredFor(results[i], requestIndex, calls[i], outcome, text, maxOutput)
  {
    hide Utf8Len;
    forall i | from <= i < |calls| ensures AnsweredFor(results[i], requestIndex, calls[i], outcome, text, maxOutput) {
      var k := i - from;
      assert results[i] == results[from..][k] == TerminalResult(requestIndex, calls[from + k], outcome, text, maxOutput);
    }
  }

  /** At the round limit every call is answered as failed; after an early end of a batch the rest is answered as cancelled. */
  lemma CutCallsAreAnswered(rec: RoundRecord, script: RoundScript, req: LoopRequest, o: LoopOptions)
    requires RoundFollows(rec, script, req, o) && rec.response.Some? && rec.turn != []
    ensures var calls := Calls(rec.response.value.parts);
            && rec.issue.Some?
            && (rec.batch.None? ==>
                  && |rec.turn| == 1 + |calls|
                  && forall i | 0 <= i < |calls| ::
                       AnsweredFor(rec.turn[1 + i], rec.issue.value.requestIndex, calls[i], ToolResultOutcome.Failed, "tool round limit reached",
                                   o.limits.maxToolOutput))
            && (rec.batch.Some? && rec.batch.value.end.BatchEnded? ==>
                  && |rec.turn| == 1 + |calls|
                  && forall i | rec.batch.value.from <= i < |calls| ::
                       AnsweredFor(rec.turn[1 + i], rec.issue.value.requestIndex, calls[i], ToolResultOutcome.Cancelled, "tool batch interrupted",
                                   o.limits.maxToolOutput))
  {
    hide TopFollows, PromptFollows, CallFollows, EndFollows, Calls, Justified, TraceFollows, CallsChained, CallsJustified, InterruptedAt, BatchLog,
         TokenAt, Waits, Unwinds, AnsweredFor, Terminal, Settlement;
    var calls, limit := Calls(rec.response.value.parts), o.limits.maxToolOutput;
    var results := rec.turn[1..];
    if rec.batch.None? {
      assert results[0..] == results;
      SettledFor(results, 0, rec.issue.value.requestIndex, calls, ToolResultOutcome.Failed, "tool round limit reached", limit);
    } else if rec.batch.value.end.BatchEnded? {
      SettledFor(results, rec.batch.value.from, rec.issue.value.requestIndex, calls, ToolResultOutcome.Cancelled, "tool batch interrupted", limit);
    }
    assert forall i | 0 <= i < |results| :: rec.turn[1 + i] == results[i];
  }

  // ---- The driver's deadline -----------------------------------------------------------------

  /** With no token raised, a failed call breaks the loop for its deadline exactly when the turn's own deadline ended it. */
  lemma DriverDeadlineBreaks(rec: RoundRecord, script: RoundScript, req: LoopRequest, o: LoopOptions)
    requires RoundFollows(rec, script, req, o) && CallFailed(rec, script) && !TokenAt(req.config, rec.heard)
    ensures rec.end == Break(PathDeadline)
       <==> script.model.source == TurnDeadline
            && CallTimesOut(script.model.model(rec.call.value.request), script.model.deadline, rec.call.value.attempts)
  {
    hide PortFollows, PromptPort, PromptLog, WellFormed, CallContract, CallUnwinds, IsLatest, Serves, TakeFollows, TakePanics, TookAny, Calls, TokenAt,
         TurnFollows, TopFollows, BatchRoundEnd, NoToolFinish, CallTimesOut, CallErrorMeans;
    var c := rec.call.value;
    assert c.result == Err(c.result.error);
    CallTimesOutExactly(Request(c.request.tools, o.limits, o.codec), o.retry, script.model.deadline, script.model.source,
                        script.model.model(c.request), c.result.error, c.progress, c.attempts);
  }

  // ---- Reports -------------------------------------------------------------------------------

  /** What an outcome says about the round it came from. */
  ghost predicate OutcomeMeans(outcome: LoopOutcome, rec: RoundRecord, script: RoundScript, o: LoopOptions) {
    && (outcome == CancelledFor(DeadlineReached) <==> EndedByDeadline(rec, script, o))
    && (outcome == FailedWith(PromptFailure, None) <==> EndedByPrompt(rec, script))
    && (forall e: ModelError :: outcome == FailedWith(ModelFailure, Some(e)) <==> EndedByModel(rec, script, e))
    && (forall e: ModelError :: outcome == FailedWith(InvalidModelResponse, Some(e)) <==> EndedByResponse(rec, script, e))
    && (outcome == Completed <==> FinishedAs(rec, Stop))
    && (outcome == FailedWith(OutputLimit, None) <==> FinishedAs(rec, Length))
    && (outcome == FailedWith(RefusedByModel, None) <==> FinishedAs(rec, Refused))
    && (outcome == FailedWith(Filtered, None) <==> FinishedAs(rec, ContentFiltered))
    && (outcome == FailedWith(MaxToolRounds, None) <==> LimitReached(rec))
    && (outcome == FailedWith(PolicyFailure, None) <==> EndedByPolicy(rec))
    && (outcome == FailedWith(InternalFailure, None) <==> EndedInternally(rec, script))
  }

  lemma NamedMeans(outcome: LoopOutcome, path: FailPath, rec: RoundRecord, script: RoundScript, o: LoopOptions)
    requires BreaksAs(path, rec, script, o) && NamesPath(outcome, path)
    ensures OutcomeMeans(outcome, rec, script, o)
  {
    hide EndedByDeadline, EndedByPrompt, EndedByModel, EndedByResponse, FinishedAs, LimitReached, EndedByPolicy, EndedInternally;
  }

  /** No cancellation won before the seal. */
  ghost predicate Uncontested(g: RunRecord, req: LoopRequest) {
    g.sealed != [] && !SomeCancelled(req.config, g.sealed, |g.sealed| - 1)
  }

  /**
   * In every finished run in which no cancellation won, the outcome is what
   * the last round did: each outcome is reported exactly for its own causes.
   */
  lemma OutcomeExactly(report: LoopReport, run: RunState, path: FailPath, g: RunRecord, script: seq<RoundScript>, req: LoopRequest, o: LoopOptions)
    requires FinishedRun(report, run, path, g, script, req, o) && StopsBecause(g.rounds, script, LastRound(Finished(path)))
    requires Uncontested(g, req)
    ensures 0 < |g.rounds| <= |script|
    ensures OutcomeMeans(report.outcome, g.rounds[|g.rounds| - 1], script[|g.rounds| - 1], o)
  {
    hide ReportOk, RoundFollows, BreaksAs, OutcomeMeans, RoundSeesAll, NamesPath, SomeCancelled;
    ReportNamesPath(report, run, g.before, path, g.sealed, req, o);
    var last := |g.rounds| - 1;
    assert RoundFollows(g.rounds[last], script[last], req, o);
    RoundBreaksExactly(g.rounds[last], script[last], path, req, o);
    NamedMeans(report.outcome, path, g.rounds[last], script[last], o);
  }

  /** The last round ran into the limit exactly when its response called tools and that many batches had run. */
  lemma LimitIsExact(records: seq<RoundRecord>, script: seq<RoundScript>, run: RunState, items: seq<HistoryItem>, k: nat,
                     req: LoopRequest, o: LoopOptions)
    requires Chronicle(records, script, run, items, req, o) && k < |records|
    ensures LimitReached(records[k]) <==>
      && records[k].response.Some? && Calls(records[k].response.value.parts) != []
      && o.maxToolRounds != 0 && BatchCount(records[..k]) >= o.maxToolRounds
    ensures Heard(records[k], script[k]) && records[k].call.value.result.Ok? ==>
      (records[k].response.None? <==> TotalUsage(ResponsesOf(records[..k]) + [records[k].call.value.result.value]).None?)
  {
    hide RoundFollows, Calls, BatchCount, TotalUsage, ResponsesOf, Heard, AppendedBy, TakenOf, RunLog, IssuesOf;
    assert RoundSeesAll(records, script, k, req, o);
  }
}
