/** Tool batches (src/agent_loop/runner/tools.rs): one terminal result per call, on every path. */
module ToolBatch {
  import opened Common
  import opened Text
  import opened Messages
  import opened ToolCatalog
  import opened Assembly
  import opened Interactions
  import opened History
  import opened ControlSpec
  import opened Reports
  import opened LoopControls
  import opened ToolCalls

  datatype BatchEnd = BatchDone | BatchEnded(path: FailPath) | BatchSuspended | BatchUnwinds

  /** `results` are terminal results of the first calls, in order. */
  predicate Terminal(results: seq<HistoryItem>, requestIndex: nat, calls: seq<ToolCall>, maxOutput: nat) {
    && |results| <= |calls|
    && forall i | 0 <= i < |results| :: ResultFor(results[i], requestIndex, calls[i], maxOutput)
  }

  /** From `from` on every call was cancelled by the interruption, and none before it. */
  predicate InterruptedAt(results: seq<HistoryItem>, from: nat) {
    && (forall i | 0 <= i < |results| && i < from :: results[i].ResultItem? && results[i].outcome != ToolResultOutcome.Cancelled)
    && (forall i | from <= i < |results| :: results[i].ResultItem? && results[i].outcome == ToolResultOutcome.Cancelled)
  }

  lemma {:induction false} TerminalAnswers(results: seq<HistoryItem>, requestIndex: nat, calls: seq<ToolCall>, maxOutput: nat)
    requires Terminal(results, requestIndex, calls, maxOutput) && |results| == |calls|
    ensures AnsweredInOrder(requestIndex, calls, results)
  {
  }

  /** One more finished call. */
  lemma {:induction false} TerminalStep(results: seq<HistoryItem>, item: HistoryItem, requestIndex: nat, calls: seq<ToolCall>, maxOutput: nat)
    requires Terminal(results, requestIndex, calls, maxOutput) && |results| < |calls|
    requires InterruptedAt(results, |results|)
    requires ResultFor(item, requestIndex, calls[|results|], maxOutput) && item.outcome != ToolResultOutcome.Cancelled
    ensures Terminal(results + [item], requestIndex, calls, maxOutput)
    ensures InterruptedAt(results + [item], |results| + 1)
  {
    ResultIsItem(item, requestIndex, calls[|results|], maxOutput);
    hide ResultFor;
  }

  lemma ResultIsItem(item: HistoryItem, requestIndex: nat, call: ToolCall, maxOutput: nat)
    requires ResultFor(item, requestIndex, call, maxOutput)
    ensures item.ResultItem?
  {
  }

  /** The same static result for every call from `from` on. */
  function Settlement(requestIndex: nat, calls: seq<ToolCall>, from: nat, outcome: ToolResultOutcome,
                      message: string, maxOutput: nat): (items: seq<HistoryItem>)
    ensures |items| == if from <= |calls| then |calls| - from else 0
  {
    var n := if from <= |calls| then |calls| - from else 0;
    seq(n, i requires 0 <= i < n => TerminalResult(requestIndex, calls[from + i], outcome, message, maxOutput))
  }

  /** `settle_calls`. */
  method SettleCalls(working: WorkingHistory, requestIndex: nat, calls: seq<ToolCall>, from: nat,
                     outcome: ToolResultOutcome, message: string, maxOutput: nat)
    requires from <= |calls|
    modifies working
    ensures working.appended == old(working.appended) + Settlement(requestIndex, calls, from, outcome, message, maxOutput)
  {
    hide TerminalResult;
    ghost var all := Settlement(requestIndex, calls, from, outcome, message, maxOutput);
    for i := from to |calls|
      invariant working.appended == old(working.appended) + all[..i - from]
    {
      assert all[..i + 1 - from] == all[..i - from] + [all[i - from]];
      working.Append(TerminalResult(requestIndex, calls[i], outcome, message, maxOutput));
    }
    assert all[..|all|] == all;
  }

  /** Settling the rest completes the batch: every call has its one result. */
  lemma {:induction false} SettlementCompletes(done: seq<HistoryItem>, requestIndex: nat, calls: seq<ToolCall>,
                                               outcome: ToolResultOutcome, message: string, maxOutput: nat)
    requires Terminal(done, requestIndex, calls, maxOutput) && StaticMessage(message)
    ensures var results := done + Settlement(requestIndex, calls, |done|, outcome, message, maxOutput);
            && Terminal(results, requestIndex, calls, maxOutput) && |results| == |calls|
            && AnsweredInOrder(requestIndex, calls, results)
            && (outcome == ToolResultOutcome.Cancelled && InterruptedAt(done, |done|) ==> InterruptedAt(results, |done|))
  {
    hide StaticMessage, StaticOutput, ResultFor;
    var rest := Settlement(requestIndex, calls, |done|, outcome, message, maxOutput);
    forall i | 0 <= i < |rest|
      ensures ResultFor(rest[i], requestIndex, calls[|done| + i], maxOutput)
      ensures rest[i].ResultItem? && rest[i].outcome == outcome
    {
      TerminalFits(requestIndex, calls[|done| + i], outcome, message, maxOutput);
    }
    TerminalAnswers(done + rest, requestIndex, calls, maxOutput);
  }

  // ---- What a batch did ---------------------------------------------------------------------

  /**
   * The control log before a batch, how it ended, its results, where it was
   * interrupted, and what happened during each started call.
   */
  datatype BatchRecord = BatchRecord(log: seq<Op>, end: BatchEnd, results: seq<HistoryItem>, from: nat, traces: seq<ToolTrace>)

  /** The log after the started calls. */
  function CallsLog(log: seq<Op>, traces: seq<ToolTrace>, scripts: seq<CallScript>, config: ExecutionConfig): seq<Op> {
    if traces == [] || |traces| > |scripts| then log else CallLog(traces[|traces| - 1], scripts[|traces| - 1], config)
  }

  function BatchLog(b: BatchRecord, scripts: seq<CallScript>, config: ExecutionConfig): seq<Op> {
    CallsLog(b.log, b.traces, scripts, config)
  }

  /** Each call starts where the one before it left the log, while the token is not raised. */
  predicate CallsChained(log: seq<Op>, traces: seq<ToolTrace>, scripts: seq<CallScript>, config: ExecutionConfig) {
    forall i | 0 <= i < |traces| :: CallStarts(log, traces, i, scripts, config)
  }

  predicate CallStarts(log: seq<Op>, traces: seq<ToolTrace>, i: nat, scripts: seq<CallScript>, config: ExecutionConfig)
    requires i < |traces|
  {
    traces[i].from == CallsLog(log, traces[..i], scripts, config) && !TokenAt(config, traces[i].from)
  }

  /** Every started call followed its own script, and every result has its cause in its own call. */
  predicate CallsJustified(results: seq<HistoryItem>, from: nat, traces: seq<ToolTrace>, hasPolicy: bool, scripts: seq<CallScript>, o: BatchOptions,
                           config: ExecutionConfig) {
    && from <= |results| && from <= |traces| <= |scripts|
    && (forall i | 0 <= i < |traces| :: TraceFollows(traces[i], hasPolicy, scripts[i], o, config))
    && (forall i | 0 <= i < from :: Justified(StepResult(results[i]), traces[i], scripts[i], o))
  }

  function QuestionIds(tr: ToolTrace): set<nat> {
    (if tr.approval.Some? then {tr.approval.value.id} else {}) + (if tr.input.Some? then {tr.input.value.id} else {})
  }

  /** Every question was put during its own call, and no two calls share one: an approval serves one call only. */
  ghost predicate CallsAsk(traces: seq<ToolTrace>, before: ControlState, now: ControlState) {
    && (forall i | 0 <= i < |traces| :: TraceAsks(traces[i], before, now))
    && (forall i, j | 0 <= i < j < |traces| :: QuestionIds(traces[i]) !! QuestionIds(traces[j]))
  }

  /** One result per call unless the batch stops for good, and the cause of any early end. */
  ghost predicate BatchOk(b: BatchRecord, requestIndex: nat, calls: seq<ToolCall>, hasPolicy: bool, scripts: seq<CallScript>,
                          o: BatchOptions, config: ExecutionConfig) {
    && Terminal(b.results, requestIndex, calls, o.maxOutput) && InterruptedAt(b.results, b.from)
    && CallsJustified(b.results, b.from, b.traces, hasPolicy, scripts, o, config)
    && CallsChained(b.log, b.traces, scripts, config)
    && (b.end.BatchDone? || b.end.BatchEnded? ==> |b.results| == |calls|)
    && (!b.end.BatchDone? ==> b.from < |calls|)
    && match b.end
       case BatchDone => b.from == |b.traces| == |calls|
       case BatchEnded(path) =>
         && path in {PathCancelled, PathDeadline, PathPolicy, PathInternal}
         && b.results[b.from..] == Settlement(requestIndex, calls, b.from, ToolResultOutcome.Cancelled, "tool batch interrupted", o.maxOutput)
         && (|| (|b.traces| == b.from && path == PathCancelled && TokenAt(config, BatchLog(b, scripts, config)))
             || (|b.traces| == b.from + 1 && Justified(StepEnd(path), b.traces[b.from], scripts[b.from], o)))
       case BatchSuspended =>
         && |b.results| == b.from
         && (|| (|b.traces| == b.from == |scripts| && !TokenAt(config, BatchLog(b, scripts, config)))
             || (|b.traces| == b.from + 1 && Waits(b.traces[b.from])))
       case BatchUnwinds =>
         |b.results| == b.from && |b.traces| == b.from + 1 && Unwinds(b.traces[b.from])
  }

  /** A batch unwinds exactly when a host destructor panicked in one of its calls. */
  lemma {:induction false} BatchUnwindsExactly(b: BatchRecord, requestIndex: nat, calls: seq<ToolCall>, hasPolicy: bool,
                                               scripts: seq<CallScript>, o: BatchOptions, config: ExecutionConfig)
    requires BatchOk(b, requestIndex, calls, hasPolicy, scripts, o, config)
    ensures b.end.BatchUnwinds? <==> exists i | 0 <= i < |b.traces| :: Unwinds(b.traces[i])
  {
    hide TraceFollows, ResultJustified, PolicyEnd, ApprovalEnd, ToolEnd, Unwinds, Waits, Terminal, InterruptedAt;
    forall i | 0 <= i < |b.traces| && Unwinds(b.traces[i]) ensures b.end.BatchUnwinds? {
      assert TraceFollows(b.traces[i], hasPolicy, scripts[i], o, config);
      if i < b.from {
        StepIsDecided(StepResult(b.results[i]), StepUnwinds, b.traces[i], hasPolicy, scripts[i], o, config);
      } else if b.end.BatchEnded? {
        StepIsDecided(StepEnd(b.end.path), StepUnwinds, b.traces[i], hasPolicy, scripts[i], o, config);
      } else if b.end.BatchSuspended? {
        StepIsDecided(StepSuspended, StepUnwinds, b.traces[i], hasPolicy, scripts[i], o, config);
      }
    }
  }

  lemma {:induction false} CallsJustifiedSnoc(results: seq<HistoryItem>, step: ToolStep, tr: ToolTrace, traces: seq<ToolTrace>, hasPolicy: bool,
                                              scripts: seq<CallScript>, o: BatchOptions, config: ExecutionConfig)
    requires CallsJustified(results, |results|, traces, hasPolicy, scripts, o, config) && |traces| == |results| < |scripts|
    requires TraceFollows(tr, hasPolicy, scripts[|results|], o, config) && Justified(step, tr, scripts[|results|], o)
    ensures CallsJustified(results, |results|, traces + [tr], hasPolicy, scripts, o, config)
    ensures step.StepResult? ==> CallsJustified(results + [step.item], |results| + 1, traces + [tr], hasPolicy, scripts, o, config)
  {
    hide TraceFollows, Justified;
  }

  lemma {:induction false} CallsChainedSnoc(log: seq<Op>, traces: seq<ToolTrace>, tr: ToolTrace, scripts: seq<CallScript>, config: ExecutionConfig)
    requires CallsChained(log, traces, scripts, config) && |traces| < |scripts|
    requires tr.from == CallsLog(log, traces, scripts, config) && !TokenAt(config, tr.from)
    ensures CallsChained(log, traces + [tr], scripts, config)
    ensures CallsLog(log, traces + [tr], scripts, config) == CallLog(tr, scripts[|traces|], config)
  {
    hide CallLog, TokenAt;
    var longer := traces + [tr];
    forall i | 0 <= i < |longer| ensures CallStarts(log, longer, i, scripts, config) {
      assert longer[..i] == traces[..i];
      if i < |traces| {
        assert CallStarts(log, traces, i, scripts, config);
      } else {
        assert traces[..i] == traces;
      }
    }
  }

  lemma {:induction false} JustifiedPrefix(results: seq<HistoryItem>, more: seq<HistoryItem>, traces: seq<ToolTrace>, hasPolicy: bool,
                                           scripts: seq<CallScript>, o: BatchOptions, config: ExecutionConfig)
    requires |results| <= |traces| && CallsJustified(results, |results|, traces, hasPolicy, scripts, o, config)
    ensures CallsJustified(results + more, |results|, traces, hasPolicy, scripts, o, config)
  {
    hide TraceFollows, Justified;
  }

  lemma {:induction false} CallsAskSnoc(traces: seq<ToolTrace>, tr: ToolTrace, start: ControlState, before: ControlState, now: ControlState)
    requires CallsAsk(traces, start, before) && TraceAsks(tr, before, now)
    requires Keeps(start, before) && Keeps(before, now)
    ensures CallsAsk(traces + [tr], start, now)
  {
    hide TraceAsks, Keeps, QuestionIds;
    KeepsRefl(start);
    KeepsRefl(now);
    forall i | 0 <= i < |traces| ensures TraceAsks(traces[i], start, now) && QuestionIds(traces[i]) !! QuestionIds(tr) {
      TraceAsksWidens(traces[i], start, start, before, now);
      LaterCallAsksAnew(traces[i], tr, start, before, now);
    }
    TraceAsksWidens(tr, start, before, now, now);
  }

  lemma LaterCallAsksAnew(first: ToolTrace, second: ToolTrace, start: ControlState, before: ControlState, now: ControlState)
    requires TraceAsks(first, start, before) && TraceAsks(second, before, now)
    ensures QuestionIds(first) !! QuestionIds(second)
  {
    hide DecisionValid, InputRequestValid, AnswerMatches;
  }

  lemma {:induction false} CallsAskLasts(traces: seq<ToolTrace>, start: ControlState, before: ControlState, now: ControlState, later: ControlState)
    requires CallsAsk(traces, before, now) && Evolves(start, before) && Evolves(now, later)
    ensures CallsAsk(traces, start, later)
  {
    hide TraceAsks, Evolves, QuestionIds;
    forall i | 0 <= i < |traces| ensures TraceAsks(traces[i], start, later) {
      TraceAsksLasts(traces[i], start, before, now, later);
    }
  }

  /** Two batches one after the other: no question serves both. */
  lemma {:induction false} CallsAskConcat(a: seq<ToolTrace>, b: seq<ToolTrace>, start: ControlState, mid: ControlState, now: ControlState)
    requires CallsAsk(a, start, mid) && CallsAsk(b, mid, now) && Evolves(start, mid) && Evolves(mid, now)
    ensures CallsAsk(a + b, start, now)
  {
    hide TraceAsks, Evolves, QuestionIds;
    EvolvesRefl(start);
    EvolvesRefl(now);
    forall i | 0 <= i < |a| ensures TraceAsks(a[i], start, now) {
      TraceAsksLasts(a[i], start, start, mid, now);
    }
    forall j | 0 <= j < |b| ensures TraceAsks(b[j], start, now) {
      TraceAsksLasts(b[j], start, mid, now, now);
    }
    forall i, j | 0 <= i < |a| && 0 <= j < |b| ensures QuestionIds(a[i]) !! QuestionIds(b[j]) {
      LaterCallAsksAnew(a[i], b[j], start, mid, now);
    }
  }

  predicate ScriptsForeign(scripts: seq<CallScript>) {
    forall i | 0 <= i < |scripts| :: CallForeign(scripts[i])
  }

  // ---- The batch loop -------------------------------------------------------------------------

  /** Between two calls: every call so far has its result, its trace and its cause. */
  ghost predicate InBatch(log: seq<Op>, results: seq<HistoryItem>, traces: seq<ToolTrace>, requestIndex: nat, calls: seq<ToolCall>, hasPolicy: bool,
                          scripts: seq<CallScript>, o: BatchOptions, config: ExecutionConfig) {
    && |traces| == |results|
    && Terminal(results, requestIndex, calls, o.maxOutput) && InterruptedAt(results, |results|)
    && CallsJustified(results, |results|, traces, hasPolicy, scripts, o, config)
    && CallsChained(log, traces, scripts, config)
  }

  /** A step without a result ends the batch. */
  lemma {:induction false} BatchEnds(log: seq<Op>, step: ToolStep, tr: ToolTrace, results: seq<HistoryItem>, traces: seq<ToolTrace>, requestIndex: nat,
                                     calls: seq<ToolCall>, hasPolicy: bool, scripts: seq<CallScript>, o: BatchOptions, config: ExecutionConfig, token: bool)
    requires InBatch(log, results, traces, requestIndex, calls, hasPolicy, scripts, o, config)
    requires |results| < |calls| && |results| < |scripts|
    requires TraceFollows(tr, hasPolicy, scripts[|results|], o, config) && Justified(step, tr, scripts[|results|], o)
    requires tr.from == CallsLog(log, traces, scripts, config) && !TokenAt(config, tr.from)
    requires StepOk(step, requestIndex, calls[|results|], o.maxOutput, token)
    ensures CallsLog(log, traces + [tr], scripts, config) == CallLog(tr, scripts[|results|], config)
    ensures match step
            case StepEnd(path) =>
              BatchOk(Interrupted(log, path, results, traces + [tr], requestIndex, calls, o), requestIndex, calls, hasPolicy, scripts, o, config)
            case StepSuspended =>
              BatchOk(BatchRecord(log, BatchSuspended, results, |results|, traces + [tr]), requestIndex, calls, hasPolicy, scripts, o, config)
            case StepUnwinds =>
              BatchOk(BatchRecord(log, BatchUnwinds, results, |results|, traces + [tr]), requestIndex, calls, hasPolicy, scripts, o, config)
            case StepResult(item) =>
              InBatch(log, results + [item], traces + [tr], requestIndex, calls, hasPolicy, scripts, o, config)
  {
    hide TraceFollows, Justified, ResultFor, Terminal, InterruptedAt, CallsJustified, CallsChained, CallsLog, CallLog, TokenAt, Settlement, BatchOk;
    CallsJustifiedSnoc(results, step, tr, traces, hasPolicy, scripts, o, config);
    CallsChainedSnoc(log, traces, tr, scripts, config);
    match step {
      case StepResult(item) => TerminalStep(results, item, requestIndex, calls, o.maxOutput);
      case StepEnd(path) => EndInterrupts(log, path, results, traces + [tr], requestIndex, calls, hasPolicy, scripts, o, config);
      case _ => StepStops(log, step, results, traces + [tr], requestIndex, calls, hasPolicy, scripts, o, config);
    }
  }

  /** A step that ends its batch leaves the remaining calls cancelled. */
  lemma {:induction false} EndInterrupts(log: seq<Op>, path: FailPath, results: seq<HistoryItem>, traces: seq<ToolTrace>, requestIndex: nat,
                                         calls: seq<ToolCall>, hasPolicy: bool, scripts: seq<CallScript>, o: BatchOptions, config: ExecutionConfig)
    requires |traces| == |results| + 1 <= |scripts| && |results| < |calls|
    requires Terminal(results, requestIndex, calls, o.maxOutput) && InterruptedAt(results, |results|)
    requires CallsJustified(results, |results|, traces, hasPolicy, scripts, o, config) && CallsChained(log, traces, scripts, config)
    requires Justified(StepEnd(path), traces[|results|], scripts[|results|], o)
    requires path in {PathCancelled, PathDeadline, PathPolicy, PathInternal}
    ensures BatchOk(Interrupted(log, path, results, traces, requestIndex, calls, o), requestIndex, calls, hasPolicy, scripts, o, config)
  {
    hide TraceFollows, Justified, ResultFor, Terminal, InterruptedAt, CallsJustified, CallsChained, CallsLog, TokenAt, Settlement;
    SettlementCompletes(results, requestIndex, calls, ToolResultOutcome.Cancelled, "tool batch interrupted", o.maxOutput);
    JustifiedPrefix(results, Settlement(requestIndex, calls, |results|, ToolResultOutcome.Cancelled, "tool batch interrupted", o.maxOutput),
                    traces, hasPolicy, scripts, o, config);
    RestIs(results, Settlement(requestIndex, calls, |results|, ToolResultOutcome.Cancelled, "tool batch interrupted", o.maxOutput));
  }

  lemma RestIs(results: seq<HistoryItem>, rest: seq<HistoryItem>)
    ensures (results + rest)[|results|..] == rest
  {
  }

  /** A step that waits for good, or unwinds, leaves the batch as it is. */
  lemma StepStops(log: seq<Op>, step: ToolStep, results: seq<HistoryItem>, traces: seq<ToolTrace>, requestIndex: nat,
                  calls: seq<ToolCall>, hasPolicy: bool, scripts: seq<CallScript>, o: BatchOptions, config: ExecutionConfig)
    requires |traces| == |results| + 1 <= |scripts| && |results| < |calls|
    requires Terminal(results, requestIndex, calls, o.maxOutput) && InterruptedAt(results, |results|)
    requires CallsJustified(results, |results|, traces, hasPolicy, scripts, o, config) && CallsChained(log, traces, scripts, config)
    requires Justified(step, traces[|results|], scripts[|results|], o)
    ensures step.StepSuspended? ==>
      BatchOk(BatchRecord(log, BatchSuspended, results, |results|, traces), requestIndex, calls, hasPolicy, scripts, o, config)
    ensures step.StepUnwinds? ==>
      BatchOk(BatchRecord(log, BatchUnwinds, results, |results|, traces), requestIndex, calls, hasPolicy, scripts, o, config)
  {
    hide Terminal, InterruptedAt, CallsJustified, CallsChained, CallsLog, TokenAt, Waits, Unwinds, ResultJustified, PolicyEnd, ApprovalEnd, ToolEnd;
  }

  /** The record of a batch that `path` interrupts after `results`. */
  function Interrupted(log: seq<Op>, path: FailPath, results: seq<HistoryItem>, traces: seq<ToolTrace>, requestIndex: nat, calls: seq<ToolCall>,
                       o: BatchOptions): BatchRecord {
    BatchRecord(log, BatchEnded(path),
                results + Settlement(requestIndex, calls, |results|, ToolResultOutcome.Cancelled, "tool batch interrupted", o.maxOutput),
                |results|, traces)
  }

  /** The token was raised before the next call started. */
  lemma {:induction false} BatchCancelled(log: seq<Op>, results: seq<HistoryItem>, traces: seq<ToolTrace>, requestIndex: nat, calls: seq<ToolCall>,
                                          hasPolicy: bool, scripts: seq<CallScript>, o: BatchOptions, config: ExecutionConfig)
    requires InBatch(log, results, traces, requestIndex, calls, hasPolicy, scripts, o, config) && |results| < |calls|
    requires TokenAt(config, CallsLog(log, traces, scripts, config))
    ensures BatchOk(Interrupted(log, PathCancelled, results, traces, requestIndex, calls, o), requestIndex, calls, hasPolicy, scripts, o, config)
  {
    hide TraceFollows, Justified, ResultFor, Terminal, InterruptedAt, CallsJustified, CallsChained, CallsLog, TokenAt, Settlement;
    SettlementCompletes(results, requestIndex, calls, ToolResultOutcome.Cancelled, "tool batch interrupted", o.maxOutput);
    JustifiedPrefix(results, Settlement(requestIndex, calls, |results|, ToolResultOutcome.Cancelled, "tool batch interrupted", o.maxOutput),
                    traces, hasPolicy, scripts, o, config);
    RestIs(results, Settlement(requestIndex, calls, |results|, ToolResultOutcome.Cancelled, "tool batch interrupted", o.maxOutput));
  }

  lemma EmptyBatch(log: seq<Op>, requestIndex: nat, calls: seq<ToolCall>, hasPolicy: bool, scripts: seq<CallScript>, o: BatchOptions,
                   config: ExecutionConfig, s: ControlState)
    ensures InBatch(log, [], [], requestIndex, calls, hasPolicy, scripts, o, config) && CallsAsk([], s, s)
    ensures CallsLog(log, [], scripts, config) == log
  {
  }

  lemma BatchStops(log: seq<Op>, results: seq<HistoryItem>, traces: seq<ToolTrace>, requestIndex: nat, calls: seq<ToolCall>, hasPolicy: bool,
                   scripts: seq<CallScript>, o: BatchOptions, config: ExecutionConfig)
    requires InBatch(log, results, traces, requestIndex, calls, hasPolicy, scripts, o, config)
    ensures |results| == |calls| ==>
      BatchOk(BatchRecord(log, BatchDone, results, |results|, traces), requestIndex, calls, hasPolicy, scripts, o, config)
    ensures |results| == |scripts| < |calls| && !TokenAt(config, CallsLog(log, traces, scripts, config)) ==>
      BatchOk(BatchRecord(log, BatchSuspended, results, |results|, traces), requestIndex, calls, hasPolicy, scripts, o, config)
  {
    hide Terminal, InterruptedAt, CallsJustified, CallsChained, CallsLog, TokenAt;
  }

  /**
   * `run_tool_batch`: on every path each call gets exactly one terminal
   * result, in call order; the ones an interruption did not let finish are
   * `Cancelled`. The snapshot lookup always succeeds.
   */
  method RunToolBatch(control: LoopControl, working: WorkingHistory, requestIndex: nat, tools: FrozenTools, hasPolicy: bool,
                      calls: seq<ToolCall>, scripts: seq<CallScript>, options: BatchOptions)
    returns (end: BatchEnd, ghost b: BatchRecord)
    requires control.Valid() && control.model.slot.None? && ScriptsForeign(scripts)
    requires forall i | 0 <= i < |calls| :: Offers(tools.specs, calls[i].name)
    modifies control, working
    ensures control.Valid() && Keeps(old(control.model), control.model)
    ensures control.published == old(control.published)
    ensures !end.BatchSuspended? ==> control.model.slot.None?
    ensures end == BatchEnded(PathCancelled) ==> control.token
    ensures b.end == end && working.appended == old(working.appended) + b.results
    ensures BatchOk(b, requestIndex, calls, hasPolicy, scripts, options, control.initial)
    ensures b.log == old(control.log) && control.log == BatchLog(b, scripts, control.initial)
    ensures CallsAsk(b.traces, old(control.model), control.model)
  {
    hide Inv, LoopRun, Initial, Evolves, Keeps, Foreign, LoopControl.Valid, CallForeign, BatchOk, InBatch, CallsAsk, TraceAsks, TraceFollows,
         Justified, Frozen, Offers, Settlement, CallsLog, CallLog, TokenAt, ResultFor;
    ghost var results: seq<HistoryItem>, traces: seq<ToolTrace> := [], [];
    ghost var log, config := control.log, control.initial;
    KeepsRefl(control.model);
    EmptyBatch(log, requestIndex, calls, hasPolicy, scripts, options, config, control.model);
    for i := 0 to |calls|
      invariant control.Valid() && Keeps(old(control.model), control.model) && control.model.slot.None?
      invariant control.published == old(control.published) && control.log == CallsLog(log, traces, scripts, config)
      invariant |results| == |traces| == i && working.appended == old(working.appended) + results
      invariant InBatch(log, results, traces, requestIndex, calls, hasPolicy, scripts, options, config)
      invariant CallsAsk(traces, old(control.model), control.model)
    {
      ghost var before := control.model;
      LogIsState(control);
      if control.token {
        BatchCancelled(log, results, traces, requestIndex, calls, hasPolicy, scripts, options, config);
        SettleCalls(working, requestIndex, calls, i, ToolResultOutcome.Cancelled, "tool batch interrupted", options.maxOutput);
        return BatchEnded(PathCancelled), Interrupted(log, PathCancelled, results, traces, requestIndex, calls, options);
      }
      if i >= |scripts| {
        ScriptsCoverTraces(log, results, traces, requestIndex, calls, hasPolicy, scripts, options, config);
        BatchStops(log, results, traces, requestIndex, calls, hasPolicy, scripts, options, config);
        return BatchSuspended, BatchRecord(log, BatchSuspended, results, i, traces);
      }
      OfferedIsFound(tools, calls[i].name);
      // The lookup in the snapshot's table cannot fail.
      assert calls[i].name in tools.entries;
      var step;
      ghost var tr;
      step, tr := RunToolCall(control, requestIndex, calls[i], hasPolicy, scripts[i], options);
      BatchEnds(log, step, tr, results, traces, requestIndex, calls, hasPolicy, scripts, options, config, control.token);
      CallsAskSnoc(traces, tr, old(control.model), before, control.model);
      KeepsTrans(old(control.model), before, control.model);
      traces := traces + [tr];
      match step {
        case StepResult(item) =>
          working.Append(item);
          results := results + [item];
        case StepEnd(path) =>
          SettleCalls(working, requestIndex, calls, i, ToolResultOutcome.Cancelled, "tool batch interrupted", options.maxOutput);
          return BatchEnded(path), Interrupted(log, path, results, traces, requestIndex, calls, options);
        case StepSuspended =>
          return BatchSuspended, BatchRecord(log, BatchSuspended, results, i, traces);
        case StepUnwinds =>
          return BatchUnwinds, BatchRecord(log, BatchUnwinds, results, i, traces);
      }
    }
    BatchStops(log, results, traces, requestIndex, calls, hasPolicy, scripts, options, config);
    return BatchDone, BatchRecord(log, BatchDone, results, |calls|, traces);
  }

  lemma ScriptsCoverTraces(log: seq<Op>, results: seq<HistoryItem>, traces: seq<ToolTrace>, requestIndex: nat, calls: seq<ToolCall>, hasPolicy: bool,
                           scripts: seq<CallScript>, o: BatchOptions, config: ExecutionConfig)
    requires InBatch(log, results, traces, requestIndex, calls, hasPolicy, scripts, o, config)
    ensures |results| == |traces| <= |scripts|
  {
    hide Terminal, InterruptedAt, TraceFollows, Justified, CallsChained;
  }

  /** A name on a frozen catalog is a key of its lookup map. */
  lemma OfferedIsFound(tools: FrozenTools, name: ToolName)
    requires Offers(tools.specs, name)
    ensures name in tools.entries && tools.entries[name].name == name
  {
    var i :| 0 <= i < |tools.specs| && tools.specs[i].name == name;
    assert tools.specs[i] in tools.specs;
  }
}
