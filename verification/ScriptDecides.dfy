/**
 * The script decides the run: whatever keeps the contracts of the runner and
 * its parts did exactly the same things, in the same order, as anything else
 * that keeps them. Interaction ids are random in the source, so two runs are
 * compared under the same ids.
 */
module ScriptDecides {
  import opened Common
  import opened Text
  import opened Messages
  import opened Exchange
  import opened Assembly
  import opened Interactions
  import opened History
  import opened Driver
  import opened LoopEvents
  import opened ModelCall
  import opened ControlSpec
  import opened Reports
  import opened LoopControls
  import opened ToolCalls
  import opened ToolBatch
  import opened RunStates
  import opened Chronicles
  import opened Runner
  import opened LoopRuns
  import opened Host

  // ---- One tool call ---------------------------------------------------------------------

  /** The questions two traces both put have the same ids. */
  predicate SameIds(a: ToolTrace, b: ToolTrace) {
    && (a.approval.Some? && b.approval.Some? ==> a.approval.value.id == b.approval.value.id)
    && (a.input.Some? && b.input.Some? ==> a.input.value.id == b.input.value.id)
  }

  lemma TraceIsDecided(a: ToolTrace, b: ToolTrace, hasPolicy: bool, script: CallScript, o: BatchOptions, config: ExecutionConfig)
    requires TraceFollows(a, hasPolicy, script, o, config) && TraceFollows(b, hasPolicy, script, o, config)
    requires a.from == b.from && SameIds(a, b)
    ensures a == b
  {
    hide PortGives, PortLog, WaitFollows, DecisionValid, InputRequestValid, AskedLog;
    assert a.policy == b.policy;
    if a.approval.Some? {
      WaitIsDecided(config, a.approval.value, b.approval.value, ApprovalKind(a), script.approval, o.hasDeadline);
    }
    assert a.approval == b.approval;
    assert ApprovalLog(a, script, config) == ApprovalLog(b, script, config);
    assert a.tool == b.tool;
    assert ToolLog(a, script, config) == ToolLog(b, script, config);
    if a.input.Some? {
      WaitIsDecided(config, a.input.value, b.input.value, InputKind(a), script.input, o.hasDeadline);
    }
  }

  // ---- One batch ----------------------------------------------------------------------------

  ghost predicate BatchSameIds(a: BatchRecord, b: BatchRecord) {
    forall i | 0 <= i < |a.traces| && i < |b.traces| :: SameIds(a.traces[i], b.traces[i])
  }

  /** The calls both batches started went alike. */
  lemma {:induction false} TracesAgree(a: BatchRecord, b: BatchRecord, n: nat, requestIndex: nat, calls: seq<ToolCall>, hasPolicy: bool,
                                       scripts: seq<CallScript>, o: BatchOptions, config: ExecutionConfig)
    requires BatchOk(a, requestIndex, calls, hasPolicy, scripts, o, config) && BatchOk(b, requestIndex, calls, hasPolicy, scripts, o, config)
    requires a.log == b.log && BatchSameIds(a, b) && n <= |a.traces| && n <= |b.traces|
    ensures a.traces[..n] == b.traces[..n]
  {
    hide Terminal, InterruptedAt, TraceFollows, Justified, CallsLog, TokenAt, Settlement, SameIds, Waits, Unwinds;
    if n > 0 {
      TracesAgree(a, b, n - 1, requestIndex, calls, hasPolicy, scripts, o, config);
      assert CallStarts(a.log, a.traces, n - 1, scripts, config) && CallStarts(b.log, b.traces, n - 1, scripts, config);
      assert TraceFollows(a.traces[n - 1], hasPolicy, scripts[n - 1], o, config);
      assert TraceFollows(b.traces[n - 1], hasPolicy, scripts[n - 1], o, config);
      TraceIsDecided(a.traces[n - 1], b.traces[n - 1], hasPolicy, scripts[n - 1], o, config);
      assert a.traces[..n] == a.traces[..n - 1] + [a.traces[n - 1]];
      assert b.traces[..n] == b.traces[..n - 1] + [b.traces[n - 1]];
    }
  }

  /** The step of the last call, when it has no result. */
  function EndStep(b: BatchRecord): ToolStep {
    match b.end
    case BatchEnded(path) => StepEnd(path)
    case BatchSuspended => StepSuspended
    case _ => StepUnwinds
  }

  function StepAt(b: BatchRecord, i: nat): ToolStep {
    if i < b.from && i < |b.results| then StepResult(b.results[i]) else EndStep(b)
  }

  lemma SameIdsBothWays(a: BatchRecord, b: BatchRecord)
    requires BatchSameIds(a, b)
    ensures BatchSameIds(b, a)
  {
    forall i | 0 <= i < |a.traces| && i < |b.traces| ensures SameIds(b.traces[i], a.traces[i]) {
      assert SameIds(a.traces[i], b.traces[i]);
    }
  }

  /** What a batch record says call by call. */
  lemma CallsSteps(b: BatchRecord, i: nat, requestIndex: nat, calls: seq<ToolCall>, hasPolicy: bool, scripts: seq<CallScript>,
                   o: BatchOptions, config: ExecutionConfig)
    requires BatchOk(b, requestIndex, calls, hasPolicy, scripts, o, config) && i < |b.traces|
    ensures |b.traces| in {b.from, b.from + 1} && |b.traces| <= |calls| && |b.traces| <= |scripts|
    ensures TraceFollows(b.traces[i], hasPolicy, scripts[i], o, config)
    ensures Justified(StepAt(b, i), b.traces[i], scripts[i], o) && (StepAt(b, i).StepResult? <==> i < b.from)
    ensures b.from <= |b.results|
    ensures CallStarts(b.log, b.traces, i, scripts, config)
  {
    hide TraceFollows, CallStarts, CallsLog, TokenAt, ResultJustified, PolicyEnd, ApprovalEnd, ToolEnd, Terminal, InterruptedAt, Settlement;
  }

  /** Neither batch can stop while the other starts one more call. */
  lemma {:induction false} NoneStopsShort(a: BatchRecord, b: BatchRecord, requestIndex: nat, calls: seq<ToolCall>, hasPolicy: bool,
                                          scripts: seq<CallScript>, o: BatchOptions, config: ExecutionConfig)
    requires BatchOk(a, requestIndex, calls, hasPolicy, scripts, o, config) && BatchOk(b, requestIndex, calls, hasPolicy, scripts, o, config)
    requires a.log == b.log && BatchSameIds(a, b)
    ensures |a.traces| >= |b.traces|
  {
    hide TraceFollows, Justified, CallsLog, TokenAt, Terminal, InterruptedAt, Settlement, SameIds, Waits, Unwinds, CallsJustified, CallsChained;
    if |a.traces| < |b.traces| {
      var n := |a.traces|;
      TracesAgree(a, b, n, requestIndex, calls, hasPolicy, scripts, o, config);
      assert a.traces[..n] == a.traces;
      CallsSteps(b, n, requestIndex, calls, hasPolicy, scripts, o, config);
      if n > 0 {
        CallsSteps(a, n - 1, requestIndex, calls, hasPolicy, scripts, o, config);
        CallsSteps(b, n - 1, requestIndex, calls, hasPolicy, scripts, o, config);
        assert a.traces[n - 1] == b.traces[..n][n - 1];
        StepIsDecided(StepAt(a, n - 1), StepAt(b, n - 1), a.traces[n - 1], hasPolicy, scripts[n - 1], o, config);
      }
    }
  }

  /** The log, the scripts and the ids decide a batch. */
  lemma {:induction false} BatchIsDecided(a: BatchRecord, b: BatchRecord, requestIndex: nat, calls: seq<ToolCall>, hasPolicy: bool,
                                          scripts: seq<CallScript>, o: BatchOptions, config: ExecutionConfig)
    requires BatchOk(a, requestIndex, calls, hasPolicy, scripts, o, config) && BatchOk(b, requestIndex, calls, hasPolicy, scripts, o, config)
    requires a.log == b.log && BatchSameIds(a, b)
    ensures a == b
  {
    hide TraceFollows, Justified, CallsLog, TokenAt, Terminal, InterruptedAt, Settlement, SameIds, Waits, Unwinds, CallsJustified, CallsChained;
    NoneStopsShort(a, b, requestIndex, calls, hasPolicy, scripts, o, config);
    SameIdsBothWays(a, b);
    NoneStopsShort(b, a, requestIndex, calls, hasPolicy, scripts, o, config);
    var n := |a.traces|;
    TracesAgree(a, b, n, requestIndex, calls, hasPolicy, scripts, o, config);
    assert a.traces[..n] == a.traces && b.traces[..n] == b.traces;
    if n > 0 {
      CallsSteps(a, n - 1, requestIndex, calls, hasPolicy, scripts, o, config);
      CallsSteps(b, n - 1, requestIndex, calls, hasPolicy, scripts, o, config);
      StepIsDecided(StepAt(a, n - 1), StepAt(b, n - 1), a.traces[n - 1], hasPolicy, scripts[n - 1], o, config);
    }
    assert a.from == b.from;
    EndsAgree(a, b, requestIndex, calls, hasPolicy, scripts, o, config);
    ResultsAgree(a, b, requestIndex, calls, hasPolicy, scripts, o, config);
  }

  lemma EndsAgree(a: BatchRecord, b: BatchRecord, requestIndex: nat, calls: seq<ToolCall>, hasPolicy: bool, scripts: seq<CallScript>,
                  o: BatchOptions, config: ExecutionConfig)
    requires BatchOk(a, requestIndex, calls, hasPolicy, scripts, o, config) && BatchOk(b, requestIndex, calls, hasPolicy, scripts, o, config)
    requires a.log == b.log && a.traces == b.traces && a.from == b.from
    ensures a.end == b.end
  {
    hide TraceFollows, Justified, CallsLog, TokenAt, Terminal, InterruptedAt, Settlement, Waits, Unwinds, CallsJustified, CallsChained;
    if |a.traces| == a.from + 1 {
      CallsSteps(a, a.from, requestIndex, calls, hasPolicy, scripts, o, config);
      CallsSteps(b, a.from, requestIndex, calls, hasPolicy, scripts, o, config);
      StepIsDecided(StepAt(a, a.from), StepAt(b, a.from), a.traces[a.from], hasPolicy, scripts[a.from], o, config);
    }
  }

  lemma {:induction false} ResultsAgree(a: BatchRecord, b: BatchRecord, requestIndex: nat, calls: seq<ToolCall>, hasPolicy: bool,
                                        scripts: seq<CallScript>, o: BatchOptions, config: ExecutionConfig)
    requires BatchOk(a, requestIndex, calls, hasPolicy, scripts, o, config) && BatchOk(b, requestIndex, calls, hasPolicy, scripts, o, config)
    requires a.log == b.log && a.traces == b.traces && a.from == b.from && a.end == b.end
    ensures a.results == b.results
  {
    hide TraceFollows, Justified, CallsLog, TokenAt, InterruptedAt, Settlement, Waits, Unwinds, CallsJustified, CallsChained, ValidText, Utf8Len;
    BatchSizes(a, requestIndex, calls, hasPolicy, scripts, o, config);
    BatchSizes(b, requestIndex, calls, hasPolicy, scripts, o, config);
    forall i | 0 <= i < a.from ensures a.results[i] == b.results[i] {
      CallsSteps(a, i, requestIndex, calls, hasPolicy, scripts, o, config);
      CallsSteps(b, i, requestIndex, calls, hasPolicy, scripts, o, config);
      StepIsDecided(StepAt(a, i), StepAt(b, i), a.traces[i], hasPolicy, scripts[i], o, config);
      assert ResultFor(a.results[i], requestIndex, calls[i], o.maxOutput) && ResultFor(b.results[i], requestIndex, calls[i], o.maxOutput);
    }
    assert a.results == a.results[..a.from] + a.results[a.from..] && b.results == b.results[..a.from] + b.results[a.from..];
  }

  lemma BatchSizes(b: BatchRecord, requestIndex: nat, calls: seq<ToolCall>, hasPolicy: bool, scripts: seq<CallScript>, o: BatchOptions,
                   config: ExecutionConfig)
    requires BatchOk(b, requestIndex, calls, hasPolicy, scripts, o, config)
    ensures b.from <= |b.results| <= |calls| && b.from <= |b.traces|
    ensures !b.end.BatchEnded? ==> |b.results| == b.from
  {
    hide TraceFollows, Justified, CallsLog, TokenAt, InterruptedAt, Settlement, Waits, Unwinds, CallsChained, ResultFor;
  }

  // ---- One round ------------------------------------------------------------------------------

  ghost predicate RoundSameIds(a: RoundRecord, b: RoundRecord) {
    a.batch.Some? && b.batch.Some? ==> BatchSameIds(a.batch.value, b.batch.value)
  }

  /** What a round depends on besides its script and the log: the history, inputs, requests and responses before it. */
  datatype Earlier = Earlier(items: seq<HistoryItem>, taken: seq<UserInput>, issues: nat, responses: seq<ModelResponse>, batches: nat)

  ghost predicate ComesAfter(rec: RoundRecord, script: RoundScript, e: Earlier, o: LoopOptions) {
    && (rec.prompt.Some? ==> rec.view == e.items + SteeringItems(Delivered(rec.first, script.first, false)))
    && (rec.issue.Some? ==>
          && rec.issue.value.requestIndex == Min(e.issues, U32_MAX)
          && rec.issue.value.inputs == e.taken + RoundInputs(rec, script)
          && rec.issue.value.preparedFrom == e.items + SteeringItems(RoundInputs(rec, script)))
    && Responds(rec, script, e.responses) && LimitDecides(rec, e.batches, o)
  }

  /** The top check and the first take. */
  lemma FirstIsDecided(a: RoundRecord, b: RoundRecord, script: RoundScript, req: LoopRequest, o: LoopOptions)
    requires TopFollows(a, script, req, o) && TopFollows(b, script, req, o) && a.topLog == b.topLog
    ensures a.first == b.first && (a.first.None? ==> a.end == b.end)
  {
    hide LoggedState;
  }

  /** The prompt, and the second take. */
  lemma PromptIsDecided(a: RoundRecord, b: RoundRecord, script: RoundScript, e: Earlier, req: LoopRequest, o: LoopOptions)
    requires PromptFollows(a, script, req) && PromptFollows(b, script, req)
    requires ComesAfter(a, script, e, o) && ComesAfter(b, script, e, o) && a.topLog == b.topLog && a.first == b.first
    ensures a.snapshot == b.snapshot && a.view == b.view && a.prompt == b.prompt && a.second == b.second
  {
    hide LoggedState, PortGives, PortLog, PromptPort, TakePanics, SteeringItems, Delivered, Responds, LimitDecides;
    assert RoundPort(a, script, req) == RoundPort(b, script, req);
    assert PromptLog(a, script, req) == PromptLog(b, script, req);
  }

  /** The request, and the driver's call. */
  lemma CallIsTheSame(a: RoundRecord, b: RoundRecord, script: RoundScript, e: Earlier, req: LoopRequest, o: LoopOptions)
    requires CallFollows(a, script, req, o) && CallFollows(b, script, req, o)
    requires ComesAfter(a, script, e, o) && ComesAfter(b, script, e, o)
    requires a.topLog == b.topLog && a.first == b.first && a.snapshot == b.snapshot && a.view == b.view
    requires a.prompt == b.prompt && a.second == b.second
    ensures a.issue == b.issue && a.call == b.call && a.heard == b.heard && a.response == b.response
  {
    hide LoggedState, WellFormed, CallContract, CallUnwinds, TakePanics, TookAny, SteeringItems, Delivered, TotalUsage, PumpEnd;
    assert PromptStands(a, script) == PromptStands(b, script) && RoundInputs(a, script) == RoundInputs(b, script);
    assert a.issue == b.issue;
    if a.call.Some? {
      var c, d := a.call.value, b.call.value;
      var model := script.model.model(c.request);
      CallIsDecided(Request(c.request.tools, o.limits, o.codec), o.retry, script.model.deadline, script.model.source, model,
                    c.result, c.progress, c.attempts, d.result, d.progress, d.attempts);
      UnwindsAlike(c, d, script.model);
    }
    assert a.call == b.call;
  }

  lemma UnwindsAlike(c: CallRecord, d: CallRecord, script: ModelScript)
    requires c.request == d.request && c.attempts == d.attempts
    ensures CallUnwinds(c, script) == CallUnwinds(d, script)
  {
  }

  /** A response means that nothing ended the round before it, and then decides whether a turn enters the history. */
  lemma TurnOrNot(rec: RoundRecord, script: RoundScript, req: LoopRequest, o: LoopOptions)
    requires RoundFollows(rec, script, req, o)
    ensures rec.response.None? ==> rec.turn == []
    ensures rec.response.Some? ==>
      (rec.turn == [] <==> Calls(rec.response.value.parts) == [] && NoToolFinish(rec.response.value.finishReason).None?)
    ensures rec.batch.Some? ==> rec.response.Some? && Calls(rec.response.value.parts) != []
  {
    hide TopFollows, LoggedState, CallUnwinds, TakePanics, TookAny, BatchOk, Settlement, Calls, TokenAt, WellFormed, CallKept, PortGives, PromptPort,
         PromptLog, IsLatest, Serves;
  }

  /** What entered the history, and how the round ended. */
  lemma TurnIsDecided(a: RoundRecord, b: RoundRecord, script: RoundScript, e: Earlier, req: LoopRequest, o: LoopOptions)
    requires RoundFollows(a, script, req, o) && RoundFollows(b, script, req, o) && RoundSameIds(a, b)
    requires ComesAfter(a, script, e, o) && ComesAfter(b, script, e, o)
    requires a.topLog == b.topLog && a.first == b.first && a.snapshot == b.snapshot && a.prompt == b.prompt && a.second == b.second
    requires a.issue == b.issue && a.call == b.call && a.heard == b.heard && a.response == b.response
    requires a.first.None? ==> a.end == b.end
    ensures a.turn == b.turn && a.batch == b.batch && a.end == b.end
  {
    hide TopFollows, PromptFollows, CallFollows, LoggedState, CallUnwinds, TakePanics, TookAny, SteeringItems, RoundInputs, Delivered, Responds,
         BatchOk, BatchSameIds, Settlement, Calls, TokenAt, WellFormed;
    TurnOrNot(a, script, req, o);
    TurnOrNot(b, script, req, o);
    assert a.batch.Some? == b.batch.Some?;
    if a.batch.Some? {
      BatchIsDecided(a.batch.value, b.batch.value, a.issue.value.requestIndex, Calls(a.response.value.parts), a.snapshot.hasPolicy,
                     script.tools, Batch(o), req.config);
    }
    if a.turn != [] {
      assert a.turn == [a.turn[0]] + a.turn[1..] && b.turn == [b.turn[0]] + b.turn[1..];
    }
  }

  /** What came before a round, its script and the ids decide everything it does. */
  lemma RoundIsDecided(a: RoundRecord, b: RoundRecord, script: RoundScript, e: Earlier, req: LoopRequest, o: LoopOptions)
    requires RoundFollows(a, script, req, o) && RoundFollows(b, script, req, o) && RoundSameIds(a, b)
    requires ComesAfter(a, script, e, o) && ComesAfter(b, script, e, o) && a.topLog == b.topLog
    ensures a == b
  {
    hide TopFollows, PromptFollows, CallFollows, TurnFollows, EndFollows, ComesAfter, RoundSameIds;
    FirstIsDecided(a, b, script, req, o);
    PromptIsDecided(a, b, script, e, req, o);
    CallIsTheSame(a, b, script, e, req, o);
    TurnIsDecided(a, b, script, e, req, o);
  }

  // ---- Whole runs -------------------------------------------------------------------------------

  ghost predicate RunSameIds(a: seq<RoundRecord>, b: seq<RoundRecord>) {
    forall k | 0 <= k < |a| && k < |b| :: RoundSameIds(a[k], b[k])
  }

  function EarlierThan(records: seq<RoundRecord>, script: seq<RoundScript>, req: LoopRequest): Earlier
    requires |records| <= |script|
  {
    Earlier([UserItem(PromptInput, req.input)] + AppendedBy(records, script), TakenOf(records, script), |IssuesOf(records)|,
            ResponsesOf(records), BatchCount(records))
  }

  lemma ComesAfterAll(records: seq<RoundRecord>, script: seq<RoundScript>, k: nat, req: LoopRequest, o: LoopOptions)
    requires k < |records| <= |script| && RoundSeesAll(records, script, k, req, o)
    ensures ComesAfter(records[k], script[k], EarlierThan(records[..k], script, req), o)
    ensures records[k].topLog == RunLog(records[..k], script, req) + script[k].before
  {
    hide SteeringItems, RoundInputs, Delivered, Responds, LimitDecides, AppendedBy, TakenOf, IssuesOf, ResponsesOf, BatchCount, RunLog;
  }

  lemma {:induction false} RoundsAgree(a: seq<RoundRecord>, b: seq<RoundRecord>, n: nat, script: seq<RoundScript>, req: LoopRequest, o: LoopOptions)
    requires n <= |a| <= |script| && n <= |b| <= |script| && RunSameIds(a, b)
    requires forall k | 0 <= k < |a| :: RoundSeesAll(a, script, k, req, o)
    requires forall k | 0 <= k < |b| :: RoundSeesAll(b, script, k, req, o)
    requires Executed(a, script, req, o) && Executed(b, script, req, o)
    ensures a[..n] == b[..n]
  {
    hide RoundSeesAll, RoundFollows, RoundSameIds, ComesAfter, EarlierThan, RunLog;
    if n > 0 {
      RoundsAgree(a, b, n - 1, script, req, o);
      ComesAfterAll(a, script, n - 1, req, o);
      ComesAfterAll(b, script, n - 1, req, o);
      assert RoundSameIds(a[n - 1], b[n - 1]);
      RoundIsDecided(a[n - 1], b[n - 1], script[n - 1], EarlierThan(a[..n - 1], script, req), req, o);
      assert a[..n] == a[..n - 1] + [a[n - 1]] && b[..n] == b[..n - 1] + [b[n - 1]];
    }
  }

  /**
   * The script decides the run. Two runs of the loop over one script, with the
   * same ids for the same questions, executed the same rounds, took the same
   * inputs, issued the same requests, got the same responses, made the same
   * history, left the same log, and stopped for the same reason.
   */
  lemma RunIsDecided(a: seq<RoundRecord>, b: seq<RoundRecord>, script: seq<RoundScript>, run: RunState, other: RunState,
                     items: seq<HistoryItem>, others: seq<HistoryItem>, end: RoundEnd, last: RoundEnd, req: LoopRequest, o: LoopOptions)
    requires Chronicle(a, script, run, items, req, o) && StopsBecause(a, script, end)
    requires Chronicle(b, script, other, others, req, o) && StopsBecause(b, script, last)
    requires RunSameIds(a, b)
    ensures a == b && end == last && items == others
    ensures run.taken == other.taken && run.issues == other.issues && run.responses == other.responses && run.batches == other.batches
    ensures RunLog(a, script, req) == RunLog(b, script, req) && EventsOfRun(a) == EventsOfRun(b)
  {
    hide RoundSeesAll, RoundFollows, RunSameIds, RunLog, EventsOfRun, AppendedBy, TakenOf, IssuesOf, ResponsesOf, BatchCount;
    var n := if |a| < |b| then |a| else |b|;
    RoundsAgree(a, b, n, script, req, o);
    assert n > 0 ==> a[..n][n - 1] == b[..n][n - 1];
    assert |a| == |b|;
    assert a[..n] == a && b[..n] == b;
  }

  // ---- Reports and conversations ------------------------------------------------------------------

  /** The log up to the seal and the path decide the outcome. */
  lemma OutcomeIsSame(config: ExecutionConfig, sealed: seq<Op>, at: nat, path: FailPath, x: LoopOutcome, y: LoopOutcome)
    requires OutcomeDecided(config, sealed, at, path, x) && OutcomeDecided(config, sealed, at, path, y)
    ensures x == y
  {
    hide CancelledBefore, SealsRun, OutcomeFor;
    if source: CancelSource :| CancelledBefore(config, sealed, at, source) {
      assert (x == CancelledFor(ReasonOf(source))) == CancelledBefore(config, sealed, at, source);
      assert (y == CancelledFor(ReasonOf(source))) == CancelledBefore(config, sealed, at, source);
    }
  }

  /** The rounds and the log up to the seal decide the report. */
  lemma ReportIsDecided(r: LoopReport, s: LoopReport, run: RunState, other: RunState, path: FailPath, g: RunRecord, h: RunRecord,
                        script: seq<RoundScript>, req: LoopRequest, o: LoopOptions)
    requires FinishedRun(r, run, path, g, script, req, o) && FinishedRun(s, other, path, h, script, req, o)
    requires g.rounds == h.rounds && g.sealed == h.sealed
    ensures r == s
  {
    hide Settled, HistoryOk, ResponsesFit, RevisionsServe, PromptsFresh, RequestsNumbered, RoundsBounded, Chronicle, AppendedBy, TakenOf, IssuesOf,
         ResponsesOf, BatchCount, OutcomeDecided, AssistantItems, TotalUsage, TurnItem, FinishedRun, ReportOk;
    FinishedFacts(r, run, path, g, script, req, o);
    FinishedFacts(s, other, path, h, script, req, o);
    RequestsAreCounted(r, run, path, g, script, req, o);
    RequestsAreCounted(s, other, path, h, script, req, o);
    FinishedPath(r, run, path, g, script, req, o);
    FinishedPath(s, other, path, h, script, req, o);
    OutcomeIsSame(req.config, g.sealed, |g.sealed| - 1, path, r.outcome, s.outcome);
  }

  /** A turn's script, its base and the ids decide its report and what the host's history becomes. */
  lemma TurnRunsAlike(t: TurnRecord, u: TurnRecord, turn: TurnScript, base: seq<HistoryItem>, config: ExecutionConfig, o: LoopOptions)
    requires TurnKept(t, turn, base, config, o) && TurnKept(u, turn, base, config, o)
    requires RunSameIds(t.ran.rounds, u.ran.rounds)
    ensures t.end == u.end && t.report == u.report && t.items == u.items
    ensures TurnItems(t) == TurnItems(u) && TurnTexts(t, turn) == TurnTexts(u, turn)
  {
    hide Chronicle, StopsBecause, HostPanicked, RunSameIds, RunLog, SealedLog, EventsOfRun, FinishedRun, TakenOf;
    RunIsDecided(t.ran.rounds, u.ran.rounds, turn.rounds, t.run, u.run, t.items, u.items, LastRound(t.end), LastRound(u.end), t.request, o);
    LastRoundTells(t.end, u.end);
    if t.end.Finished? {
      ReportIsDecided(t.report.value, u.report.value, t.run, u.run, t.end.path, t.ran, u.ran, turn.rounds, t.request, o);
    }
  }

  lemma LastRoundTells(a: LoopEnd, b: LoopEnd)
    ensures LastRound(a) == LastRound(b) ==> a == b
  {
  }

  ghost predicate TurnsSameIds(a: seq<TurnRecord>, b: seq<TurnRecord>) {
    forall i | 0 <= i < |a| && i < |b| :: RunSameIds(a[i].ran.rounds, b[i].ran.rounds)
  }

  lemma {:induction false} TurnsAgree(a: seq<TurnRecord>, b: seq<TurnRecord>, n: nat, turns: seq<TurnScript>, base: seq<HistoryItem>,
                                      config: ExecutionConfig, o: LoopOptions)
    requires Conversation(a, turns, base, config, o) && Conversation(b, turns, base, config, o) && TurnsSameIds(a, b)
    requires n <= |a| && n <= |b|
    ensures ItemsOf(a[..n]) == ItemsOf(b[..n]) && TextsOf(a[..n], turns) == TextsOf(b[..n], turns)
    ensures forall i | 0 <= i < n :: a[i].end == b[i].end && a[i].report == b[i].report
  {
    hide TurnKept, RunSameIds, TurnItems, TurnTexts;
    if n > 0 {
      TurnsAgree(a, b, n - 1, turns, base, config, o);
      assert TurnAt(a, turns, n - 1, base, config, o) && TurnAt(b, turns, n - 1, base, config, o);
      TurnRunsAlike(a[n - 1], b[n - 1], turns[n - 1], base + ItemsOf(a[..n - 1]), config, o);
      assert a[..n][..n - 1] == a[..n - 1] && b[..n][..n - 1] == b[..n - 1];
    }
  }

  /** Whole conversations over the same turns end with the same history, texts and reports. */
  lemma ConversationIsDecided(a: seq<TurnRecord>, b: seq<TurnRecord>, turns: seq<TurnScript>, base: seq<HistoryItem>, config: ExecutionConfig,
                              o: LoopOptions)
    requires Conversation(a, turns, base, config, o) && Conversation(b, turns, base, config, o) && TurnsSameIds(a, b)
    requires |a| < |turns| ==> a != [] && a[|a| - 1].end.Unfinished?
    requires |b| < |turns| ==> b != [] && b[|b| - 1].end.Unfinished?
    ensures |a| == |b| && ItemsOf(a) == ItemsOf(b) && TextsOf(a, turns) == TextsOf(b, turns)
    ensures forall i | 0 <= i < |a| :: a[i].report == b[i].report
  {
    hide TurnKept, TurnAt, RunSameIds, TurnItems, TurnTexts, ItemsOf, TextsOf;
    var n := if |a| < |b| then |a| else |b|;
    TurnsAgree(a, b, n, turns, base, config, o);
    assert |a| == |b|;
    assert a[..n] == a && b[..n] == b;
  }
}
