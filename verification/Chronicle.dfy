/**
 * What a run of the agent loop did, round by round, against the script of its
 * environment: the takes, the prompt, the driver's call, the tool batch, and
 * why the round ended as it did (src/agent_loop/runner.rs:108-345).
 */
module Chronicles {
  import opened Common
  import opened Text
  import opened Messages
  import opened Exchange
  import opened Assembly
  import opened History
  import opened Driver
  import opened LoopEvents
  import opened ModelCall
  import opened ControlSpec
  import opened Reports
  import opened LoopControls
  import opened ToolCalls
  import opened ToolBatch
  import opened RunStates

  // ---- The environment -----------------------------------------------------------------

  /** One boundary take; dropping the replaced config and `inputs.take()` are host code and may panic. */
  datatype BoundaryScript = BoundaryScript(ops: seq<Op>, dropPanics: bool, inputs: Option<seq<UserInput>>)

  /** `expired` is what the default provider itself sees of cancellation and deadline. */
  datatype PromptScript = PromptScript(port: PortScript<seq<ModelMessage>>, expired: bool)

  datatype RoundScript = RoundScript(
    before: seq<Op>, deadlinePassed: bool,
    first: BoundaryScript, prompt: PromptScript, second: BoundaryScript,
    model: ModelScript, during: seq<Op>, tools: seq<CallScript>)

  predicate RoundForeign(r: RoundScript) {
    && AllForeign(r.before) && AllForeign(r.first.ops) && PortForeign(r.prompt.port) && AllForeign(r.second.ops)
    && AllForeign(r.during) && ScriptsForeign(r.tools)
  }

  // ---- What a round does -----------------------------------------------------------------

  datatype RoundEnd = Again | Break(path: FailPath) | RoundPanics | RoundSuspended

  /** One boundary: the config it took, if any, and the control log at that moment. */
  datatype Take = Take(config: Option<PendingConfig>, log: seq<Op>)

  /**
   * Everything one round did, in order. A stage is `None` when the round did
   * not reach it; `topLog` is the control log at the check on top of the round,
   * `heard` the one when the driver's result arrived, `turn` the assistant item
   * and results that entered the history.
   */
  datatype RoundRecord = RoundRecord(
    topLog: seq<Op>,
    first: Option<Take>,
    snapshot: ExecutionConfig,
    view: seq<HistoryItem>,
    prompt: Option<PortOutcome<seq<ModelMessage>>>,
    second: Option<Take>,
    issue: Option<Issue>,
    call: Option<CallRecord>,
    heard: seq<Op>,
    response: Option<ModelResponse>,
    turn: seq<HistoryItem>,
    batch: Option<BatchRecord>,
    end: RoundEnd)

  /** A take panics when dropping the config it replaced does, or the host's `take` itself. */
  predicate TakePanics(take: Take, b: BoundaryScript) {
    (take.config.Some? && b.dropPanics) || b.inputs.None?
  }

  /**
   * The inputs a take appended. The config the first take replaces is dropped
   * before it pulls the inputs; the second take's is still pinned by the
   * round's snapshot, and dropped with it.
   */
  function Delivered(take: Option<Take>, b: BoundaryScript, pinned: bool): seq<UserInput> {
    if take.None? || b.inputs.None? || (!pinned && take.value.config.Some? && b.dropPanics) then [] else b.inputs.value
  }

  /** The inputs a round took: its first take's, then its second take's. */
  function RoundInputs(rec: RoundRecord, script: RoundScript): seq<UserInput> {
    Delivered(rec.first, script.first, false) + Delivered(rec.second, script.second, true)
  }

  predicate TookAny(take: Take, b: BoundaryScript) {
    take.config.Some? || (b.inputs.Some? && b.inputs.value != [])
  }

  function SteeringItems(inputs: seq<UserInput>): (items: seq<HistoryItem>)
    ensures |items| == |inputs|
  {
    seq(|inputs|, i requires 0 <= i < |inputs| => UserItem(Steering, inputs[i]))
  }

  // ---- The prompt --------------------------------------------------------------------------

  /** What the default provider's own code does with a history. */
  function DefaultEnds(system: Option<string>, history: seq<HistoryItem>, expired: bool): PortEnd<seq<ModelMessage>> {
    if expired || ProjectAll(history).None? then PortEnd.Fails
    else
      var messages := SystemMessages(system) + ProjectAll(history).value;
      if messages == [] then PortEnd.Fails else Returns(messages)
  }

  /** The host call of a preparation: a host provider's own, or the default provider's code, which no panic leaves. */
  function PromptPort(script: PromptScript, provider: PromptProvider, history: seq<HistoryItem>): PortScript<seq<ModelMessage>> {
    match provider
    case HostProvider(_) => script.port
    case DefaultProvider(system) =>
      script.port.(dropPanics := false,
                   ends := if script.port.ends.Expires? then script.port.ends else DefaultEnds(system, history, script.expired))
  }

  predicate PromptReady(outcome: PortOutcome<seq<ModelMessage>>) {
    outcome.Returned? && outcome.value != []
  }

  /** Where a preparation without a prompt leads. */
  function PromptEnd(outcome: PortOutcome<seq<ModelMessage>>): RoundEnd {
    match outcome
    case PortUnwinds => RoundPanics
    case PortCancelled(_) => Break(PathCancelled)
    case DeadlineExceeded(source) => Break(if source.TurnDeadline? then PathDeadline else PathPrompt)
    case _ => Break(PathPrompt)
  }

  // ---- The response ---------------------------------------------------------------------------

  /** How a response without tool calls ends the loop. */
  function NoToolFinish(reason: ModelFinishReason): Option<FailPath> {
    match reason
    case Stop => Some(PathCompleted)
    case Length => Some(PathOutputLimit)
    case Refused => Some(PathRefused)
    case ContentFiltered => Some(PathContentFiltered)
    case _ => None
  }

  const INVALID_FINISH: ModelError := ModelError(InvalidProviderResponse, DeliveryStarted, Never)

  /** The path of a failed call when the token is not raised. */
  function FailurePath(f: DriverFailure): FailPath {
    if f.deadlineSource == Some(TurnDeadline) then PathDeadline
    else if f.error.kind in {InvalidProviderResponse, IncompleteResponse, UnexpectedToolCall} then PathInvalidModelResponse(f.error)
    else PathModel(f.error)
  }

  function BatchRoundEnd(end: BatchEnd): RoundEnd {
    match end
    case BatchDone => Again
    case BatchEnded(path) => Break(path)
    case BatchSuspended => RoundSuspended
    case BatchUnwinds => RoundPanics
  }

  function Batch(o: LoopOptions): BatchOptions {
    BatchOptions(o.hasDeadline, o.limits.maxToolOutput, o.render)
  }

  // ---- A round follows its script -----------------------------------------------------------------

  /** A take hands over exactly the config that is pending when it happens. */
  predicate TakeFollows(take: Take, config: ExecutionConfig) {
    take.config == LoggedState(config, take.log).pending
  }

  /** The log once a take is over. */
  function TakenLog(take: Take): seq<Op> {
    take.log + [Op.TakeConfig]
  }

  /** `served` is the config the runner took last. */
  predicate Serves(config: ExecutionConfig, log: seq<Op>, served: ExecutionConfig) {
    var s := LoggedState(config, log);
    s.taken < |s.accepted| && served == s.accepted[s.taken]
  }

  /** Updates are still accepted, and `served` is the latest accepted config, with its revision. */
  predicate IsLatest(config: ExecutionConfig, log: seq<Op>, served: ExecutionConfig, revision: nat) {
    var s := LoggedState(config, log);
    && s.accepting && s.accepted != []
    && served == s.accepted[|s.accepted| - 1] && revision == RevisionOf(|s.accepted| - 1)
  }

  /** The top of a round: cut exactly by a raised token or a passed deadline, in that order. */
  ghost predicate TopFollows(rec: RoundRecord, script: RoundScript, req: LoopRequest, o: LoopOptions) {
    && (rec.first.None? <==> TokenAt(req.config, rec.topLog) || (o.hasDeadline && script.deadlinePassed))
    && (rec.first.Some? ==> rec.first.value.log == rec.topLog + script.first.ops && TakeFollows(rec.first.value, req.config))
    && (rec.first.None? ==> rec.end == Break(if TokenAt(req.config, rec.topLog) then PathCancelled else PathDeadline))
  }

  /** The host call of a round's preparation. */
  function RoundPort(rec: RoundRecord, script: RoundScript, req: LoopRequest): PortScript<seq<ModelMessage>> {
    PromptPort(script.prompt, rec.snapshot.prompt, req.history + rec.view)
  }

  /** The log once a round's preparation is over. */
  function PromptLog(rec: RoundRecord, script: RoundScript, req: LoopRequest): seq<Op> {
    if rec.first.None? then rec.topLog else PortLog(req.config, TakenLog(rec.first.value), RoundPort(rec, script, req))
  }

  /** The prompt of a round, from its own config and view, between the two takes. */
  ghost predicate PromptFollows(rec: RoundRecord, script: RoundScript, req: LoopRequest) {
    && (rec.prompt.Some? <==> rec.first.Some? && !TakePanics(rec.first.value, script.first))
    && (rec.prompt.Some? ==>
          && Serves(req.config, TakenLog(rec.first.value), rec.snapshot)
          && PortFollows(req.config, TakenLog(rec.first.value), RoundPort(rec, script, req), rec.prompt.value))
    && (rec.prompt.None? ==> Serves(req.config, rec.topLog, rec.snapshot) && rec.view == [])
    && (rec.second.Some? <==> rec.prompt.Some? && PromptReady(rec.prompt.value))
    && (rec.second.Some? ==>
          && rec.second.value.log == PromptLog(rec, script, req) + script.second.ops
          && TakeFollows(rec.second.value, req.config))
  }

  /** The prompt reached the issue boundary and is not stale. */
  predicate PromptStands(rec: RoundRecord, script: RoundScript) {
    && rec.second.Some? && !TakePanics(rec.second.value, script.second) && !TookAny(rec.second.value, script.second)
    && rec.prompt.Some? && PromptReady(rec.prompt.value)
  }

  /**
   * The request that is issued, served and answered is the prepared one: it is
   * issued exactly when its messages pass, under the latest config accepted
   * before its issue boundary, and the driver keeps its contract with the
   * model's answer to exactly these messages and this catalog.
   */
  ghost predicate CallFollows(rec: RoundRecord, script: RoundScript, req: LoopRequest, o: LoopOptions) {
    && (rec.issue.Some? <==> PromptStands(rec, script) && WellFormed(rec.prompt.value.value))
    && (rec.issue.Some? ==>
          && rec.issue.value.messages == rec.prompt.value.value
          && rec.issue.value.config == rec.snapshot && rec.issue.value.preparedFrom == rec.view
          && IsLatest(req.config, rec.second.value.log, rec.issue.value.config, rec.issue.value.revision))
    && (rec.call.Some? <==> rec.issue.Some?)
    && (rec.call.Some? ==>
          && rec.call.value.request == ModelRequest(rec.issue.value.messages, rec.issue.value.config.tools.specs)
          && CallKept(rec.call.value, o.limits, o.codec, o.retry, script.model))
    && rec.heard == (if Heard(rec, script) then IssuedLog(rec) + script.during else [])
    && (rec.response.Some? ==> Heard(rec, script) && rec.call.value.result == Ok(rec.response.value))
  }

  /** The log once the request of a round is issued. */
  function IssuedLog(rec: RoundRecord): seq<Op> {
    if rec.second.None? || rec.issue.None? then rec.topLog
    else TakenLog(rec.second.value) + [CommitRevision(rec.issue.value.revision)]
  }

  /**
   * What entered the history: nothing, the response alone, the response with
   * all calls settled at the round limit, or with the results of its batch.
   */
  ghost predicate TurnFollows(rec: RoundRecord, script: RoundScript, req: LoopRequest, o: LoopOptions) {
    if rec.turn == [] then rec.batch.None?
    else
      && rec.issue.Some? && rec.response.Some?
      && var calls := Calls(rec.response.value.parts);
         && rec.turn[0] == AssistantItem(rec.issue.value.requestIndex, rec.response.value.parts, rec.response.value.replay,
                                         rec.response.value.finishReason, UsageOf(rec.response.value))
         && (rec.batch.Some? ==>
               && calls != [] && rec.turn[1..] == rec.batch.value.results && rec.batch.value.log == rec.heard
               && BatchOk(rec.batch.value, rec.issue.value.requestIndex, calls, rec.snapshot.hasPolicy, script.tools, Batch(o), req.config))
         && (rec.batch.None? ==>
               rec.turn[1..] == Settlement(rec.issue.value.requestIndex, calls, 0, ToolResultOutcome.Failed,
                                           "tool round limit reached", o.limits.maxToolOutput))
  }

  /** The driver returned, without a panic on the way. */
  predicate Heard(rec: RoundRecord, script: RoundScript) {
    rec.call.Some? && !CallUnwinds(rec.call.value, script.model)
  }

  /** A successful call becomes a response exactly when the usage of all responses stays in range. */
  predicate Responds(rec: RoundRecord, script: RoundScript, earlier: seq<ModelResponse>) {
    Heard(rec, script) && rec.call.value.result.Ok? ==>
      (rec.response.Some? <==> TotalUsage(earlier + [rec.call.value.result.value]).Some?)
  }

  /** A turn with calls runs them exactly below the round limit. */
  predicate LimitDecides(rec: RoundRecord, batches: nat, o: LoopOptions) {
    rec.response.Some? && Calls(rec.response.value.parts) != [] ==>
      (rec.batch.None? <==> o.maxToolRounds != 0 && batches >= o.maxToolRounds)
  }

  /** Where a failed call leads: the token as it is once the driver returned comes first. */
  function FailedCallEnd(config: ExecutionConfig, heard: seq<Op>, failure: DriverFailure): RoundEnd {
    Break(if TokenAt(config, heard) then PathCancelled else FailurePath(failure))
  }

  /** Why a round ends as it does, stage by stage. */
  ghost predicate EndFollows(rec: RoundRecord, script: RoundScript, req: LoopRequest) {
    if rec.first.None? then rec.end.Break?
    else if TakePanics(rec.first.value, script.first) then rec.end == RoundPanics
    else if rec.second.None? then rec.prompt.Some? && rec.end == PromptEnd(rec.prompt.value)
    else if TakePanics(rec.second.value, script.second) then rec.end == RoundPanics
    else if TookAny(rec.second.value, script.second) then rec.end == Again
    else if rec.call.None? then rec.end == Break(PathPrompt)
    else if CallUnwinds(rec.call.value, script.model) then rec.end == RoundPanics
    else if rec.call.value.result.Err? then rec.end == FailedCallEnd(req.config, rec.heard, rec.call.value.result.error)
    else if rec.response.None? then rec.end == Break(PathInternal)
    else if rec.turn == [] then
      && Calls(rec.response.value.parts) == [] && NoToolFinish(rec.response.value.finishReason).None?
      && rec.end == Break(PathInvalidModelResponse(INVALID_FINISH))
    else if Calls(rec.response.value.parts) == [] then
      NoToolFinish(rec.response.value.finishReason).Some? && rec.end == Break(NoToolFinish(rec.response.value.finishReason).value)
    else if rec.batch.None? then rec.end == Break(PathMaxToolRounds)
    else rec.end == BatchRoundEnd(rec.batch.value.end)
  }

  ghost predicate RoundFollows(rec: RoundRecord, script: RoundScript, req: LoopRequest, o: LoopOptions) {
    && TopFollows(rec, script, req, o) && PromptFollows(rec, script, req) && CallFollows(rec, script, req, o)
    && TurnFollows(rec, script, req, o) && EndFollows(rec, script, req)
  }

  /** The log a round leaves: everything that happened in it, in order. */
  function EndLog(rec: RoundRecord, script: RoundScript, req: LoopRequest): seq<Op> {
    if rec.first.None? then rec.topLog
    else if rec.prompt.None? then TakenLog(rec.first.value)
    else if rec.second.None? then PromptLog(rec, script, req)
    else if rec.issue.None? then TakenLog(rec.second.value)
    else if !Heard(rec, script) then IssuedLog(rec)
    else if rec.batch.None? then rec.heard + (if rec.end == Break(PathCompleted) then [BeginFinal] else [])
    else BatchLog(rec.batch.value, script.tools, req.config)
  }

  /** The output events a round gave the sink, and the deltas it reported as lost. */
  function RoundEvents(rec: RoundRecord): seq<LoopEvent> {
    if rec.issue.None? || rec.call.None? then [] else Deltas(rec.issue.value.requestIndex, rec.call.value.forwarded)
  }

  function RoundLost(rec: RoundRecord): nat {
    if rec.call.None? then 0 else rec.call.value.recorded
  }

  /** Host code that was reached in this round panics, by the script's own flags. */
  ghost predicate HostPanics(rec: RoundRecord, script: RoundScript) {
    || (rec.first.Some? && TakePanics(rec.first.value, script.first))
    || rec.prompt == Some(PortUnwinds)
    || (rec.second.Some? && TakePanics(rec.second.value, script.second))
    || (rec.call.Some? && CallUnwinds(rec.call.value, script.model))
    || (rec.batch.Some? && exists i | 0 <= i < |rec.batch.value.traces| :: Unwinds(rec.batch.value.traces[i]))
  }

  /** A round panics exactly when host code it reached does. */
  lemma RoundPanicsExactly(rec: RoundRecord, script: RoundScript, req: LoopRequest, o: LoopOptions)
    requires RoundFollows(rec, script, req, o)
    ensures rec.end == RoundPanics <==> HostPanics(rec, script)
  {
    hide TokenAt, TakeFollows, Serves, IsLatest, PortFollows, CallKept, CallUnwinds, BatchOk, Settlement, WellFormed, PromptPort, PromptLog, Calls, Unwinds;
    if rec.batch.Some? {
      var calls := Calls(rec.response.value.parts);
      BatchUnwindsExactly(rec.batch.value, rec.issue.value.requestIndex, calls, rec.snapshot.hasPolicy, script.tools, Batch(o), req.config);
    }
  }

  /** No panic flag anywhere in a round's script. */
  predicate NoFlags(script: RoundScript) {
    && !script.first.dropPanics && script.first.inputs.Some?
    && !script.second.dropPanics && script.second.inputs.Some?
    && !script.prompt.port.dropPanics && !script.model.dropPanics
    && forall i | 0 <= i < |script.tools| :: !script.tools[i].policy.dropPanics && !script.tools[i].tool.dropPanics
  }

  /** A script without panic flags never panics. */
  lemma {:induction false} NoFlagsNoPanic(rec: RoundRecord, script: RoundScript, req: LoopRequest, o: LoopOptions)
    requires RoundFollows(rec, script, req, o) && NoFlags(script)
    ensures rec.end != RoundPanics
  {
    RoundPanicsExactly(rec, script, req, o);
    QuietPrompt(rec, script, req, o);
    if rec.batch.Some? {
      QuietBatch(rec, script, req, o);
    }
    hide RoundFollows, CallKept;
  }

  lemma QuietPrompt(rec: RoundRecord, script: RoundScript, req: LoopRequest, o: LoopOptions)
    requires RoundFollows(rec, script, req, o) && NoFlags(script)
    ensures rec.prompt != Some(PortUnwinds)
  {
    hide TopFollows, CallFollows, TurnFollows, EndFollows, DefaultEnds, PortGives, PromptLog, Serves;
    if rec.prompt.Some? {
      PortUnwindsOnly(req.config, TakenLog(rec.first.value), RoundPort(rec, script, req));
    }
  }

  lemma QuietBatch(rec: RoundRecord, script: RoundScript, req: LoopRequest, o: LoopOptions)
    requires RoundFollows(rec, script, req, o) && NoFlags(script) && rec.batch.Some?
    ensures forall i | 0 <= i < |rec.batch.value.traces| :: !Unwinds(rec.batch.value.traces[i])
  {
    hide TopFollows, PromptFollows, CallFollows, EndFollows, Settlement, Calls, Terminal, InterruptedAt, Justified, WantsApproval, WantsInput,
         Authorized, PortGives, PolicyLog, ApprovalLog, ToolLog, CallsChained, BatchLog, WaitFollows, TokenAt;
    forall i | 0 <= i < |rec.batch.value.traces| ensures !Unwinds(rec.batch.value.traces[i]) {
      var tr := rec.batch.value.traces[i];
      assert TraceFollows(tr, rec.snapshot.hasPolicy, script.tools[i], Batch(o), req.config);
      PortUnwindsOnly(req.config, tr.from, script.tools[i].policy);
      PortUnwindsOnly(req.config, ApprovalLog(tr, script.tools[i], req.config), script.tools[i].tool);
    }
  }

  // ---- Whole runs ------------------------------------------------------------------------------------

  /** The concatenation of all take results, in order. */
  function TakenOf(records: seq<RoundRecord>, script: seq<RoundScript>): seq<UserInput>
    requires |records| <= |script|
  {
    if records == [] then []
    else
      var n := |records| - 1;
      TakenOf(records[..n], script) + RoundInputs(records[n], script[n])
  }

  function IssuesOf(records: seq<RoundRecord>): seq<Issue> {
    if records == [] then []
    else
      var n := |records| - 1;
      IssuesOf(records[..n]) + (if records[n].issue.Some? then [records[n].issue.value] else [])
  }

  function ResponsesOf(records: seq<RoundRecord>): seq<ModelResponse> {
    if records == [] then []
    else
      var n := |records| - 1;
      ResponsesOf(records[..n]) + (if records[n].response.Some? then [records[n].response.value] else [])
  }

  function BatchCount(records: seq<RoundRecord>): nat {
    if records == [] then 0
    else
      var n := |records| - 1;
      BatchCount(records[..n]) + (if records[n].batch.Some? then 1 else 0)
  }

  /** The items the rounds appended: each round's inputs, then its turn. */
  function AppendedBy(records: seq<RoundRecord>, script: seq<RoundScript>): seq<HistoryItem>
    requires |records| <= |script|
  {
    if records == [] then []
    else
      var n := |records| - 1;
      AppendedBy(records[..n], script) + (SteeringItems(RoundInputs(records[n], script[n])) + records[n].turn)
  }

  /** The tool calls of a run, batch after batch. */
  function TracesOf(records: seq<RoundRecord>): seq<ToolTrace> {
    if records == [] then []
    else
      var n := |records| - 1;
      TracesOf(records[..n]) + (if records[n].batch.Some? then records[n].batch.value.traces else [])
  }

  /** The control log the rounds leave. */
  function RunLog(records: seq<RoundRecord>, script: seq<RoundScript>, req: LoopRequest): seq<Op> {
    if records == [] || |records| > |script| then [] else EndLog(records[|records| - 1], script[|records| - 1], req)
  }

  /** The output events of a run, in order, and the deltas reported as lost. */
  function EventsOfRun(records: seq<RoundRecord>): seq<LoopEvent> {
    if records == [] then []
    else
      var n := |records| - 1;
      EventsOfRun(records[..n]) + RoundEvents(records[n])
  }

  function LostOfRun(records: seq<RoundRecord>): nat {
    if records == [] then 0
    else
      var n := |records| - 1;
      LostOfRun(records[..n]) + RoundLost(records[n])
  }

  /** The deltas the driver produced over a run. */
  function ProducedOfRun(records: seq<RoundRecord>): nat {
    if records == [] then 0
    else
      var n := |records| - 1;
      ProducedOfRun(records[..n]) + (if records[n].call.Some? then |records[n].call.value.progress| else 0)
  }

  lemma {:induction false} EventsGoOn(records: seq<RoundRecord>, rec: RoundRecord, start: seq<LoopEvent>)
    ensures start + EventsOfRun(records + [rec]) == (start + EventsOfRun(records)) + RoundEvents(rec)
    ensures LostOfRun(records + [rec]) == LostOfRun(records) + RoundLost(rec)
  {
    hide RoundEvents, RoundLost;
    assert (records + [rec])[..|records|] == records;
  }

  /** Every question of the run was really put, its answer is the one accepted for it, and no two calls share one. */
  ghost predicate RunAsks(records: seq<RoundRecord>, start: ControlState, now: ControlState) {
    CallsAsk(TracesOf(records), start, now)
  }

  /** The questions of one round, put between `before` and `now`. */
  ghost predicate RoundAsks(rec: RoundRecord, before: ControlState, now: ControlState) {
    rec.batch.Some? ==> CallsAsk(rec.batch.value.traces, before, now)
  }

  lemma {:induction false} RunAsksGoesOn(records: seq<RoundRecord>, rec: RoundRecord, start: ControlState, before: ControlState, now: ControlState)
    requires RunAsks(records, start, before) && RoundAsks(rec, before, now)
    requires Evolves(start, before) && Evolves(before, now)
    ensures RunAsks(records + [rec], start, now)
  {
    hide CallsAsk, Evolves;
    var longer := records + [rec];
    assert longer[..|longer| - 1] == records;
    if rec.batch.Some? {
      CallsAskConcat(TracesOf(records), rec.batch.value.traces, start, before, now);
    } else {
      EvolvesRefl(start);
      CallsAskLasts(TracesOf(records), start, start, before, now);
      assert TracesOf(records) + [] == TracesOf(records);
    }
  }

  lemma NothingAsked(s: ControlState)
    ensures RunAsks([], s, s)
  {
  }

  /** Every executed round followed its own script, and only the last one did not lead to another. */
  ghost predicate Executed(records: seq<RoundRecord>, script: seq<RoundScript>, req: LoopRequest, o: LoopOptions) {
    && |records| <= |script|
    && (forall k | 0 <= k < |records| - 1 :: records[k].end == Again)
    && (forall k | 0 <= k < |records| :: RoundFollows(records[k], script[k], req, o))
  }

  /**
   * Round `k` starts from the log the rounds before it left, and prepares from
   * the history of all turns and inputs up to its own first take. A request it
   * issues was prepared from everything up to its second take, and numbered
   * after all earlier ones. Its response and its batch are counted with them.
   */
  ghost predicate RoundSeesAll(records: seq<RoundRecord>, script: seq<RoundScript>, k: nat, req: LoopRequest, o: LoopOptions)
    requires k < |records| <= |script|
  {
    && records[k].topLog == RunLog(records[..k], script, req) + script[k].before
    && Responds(records[k], script[k], ResponsesOf(records[..k]))
    && LimitDecides(records[k], BatchCount(records[..k]), o)
    && (records[k].prompt.Some? ==>
      records[k].view == [UserItem(PromptInput, req.input)] + AppendedBy(records[..k], script)
                         + SteeringItems(Delivered(records[k].first, script[k].first, false)))
    && (records[k].issue.Some? ==>
      && records[k].issue.value.requestIndex == Min(|IssuesOf(records[..k])|, U32_MAX)
      && records[k].issue.value.inputs == TakenOf(records[..k], script) + RoundInputs(records[k], script[k])
      && records[k].issue.value.preparedFrom
         == [UserItem(PromptInput, req.input)] + AppendedBy(records[..k], script) + SteeringItems(RoundInputs(records[k], script[k])))
  }

  /** The run's own trace and its history are exactly what the rounds did. */
  ghost predicate Chronicle(records: seq<RoundRecord>, script: seq<RoundScript>, run: RunState, items: seq<HistoryItem>,
                            req: LoopRequest, o: LoopOptions) {
    && |records| <= |script|
    && run.taken == TakenOf(records, script)
    && run.issues == IssuesOf(records)
    && run.responses == ResponsesOf(records)
    && run.batches == BatchCount(records)
    && items == [UserItem(PromptInput, req.input)] + AppendedBy(records, script)
    && (forall k | 0 <= k < |records| :: RoundSeesAll(records, script, k, req, o))
    && Executed(records, script, req, o)
  }

  /** What one round adds to the run's trace and history. */
  ghost predicate RoundTold(rec: RoundRecord, script: RoundScript, run: RunState, next: RunState,
                            before: seq<HistoryItem>, after: seq<HistoryItem>, req: LoopRequest, o: LoopOptions) {
    && next.taken == run.taken + RoundInputs(rec, script)
    && next.issues == run.issues + (if rec.issue.Some? then [rec.issue.value] else [])
    && next.responses == run.responses + (if rec.response.Some? then [rec.response.value] else [])
    && next.batches == run.batches + (if rec.batch.Some? then 1 else 0)
    && after == before + (SteeringItems(RoundInputs(rec, script)) + rec.turn)
    && (rec.issue.Some? ==>
          && rec.issue.value.requestIndex == Min(|run.issues|, U32_MAX)
          && rec.issue.value.inputs == next.taken
          && rec.issue.value.preparedFrom == before + SteeringItems(RoundInputs(rec, script)))
    && (rec.prompt.Some? ==> rec.view == before + SteeringItems(Delivered(rec.first, script.first, false)))
    && Responds(rec, script, run.responses) && LimitDecides(rec, run.batches, o)
    && RoundFollows(rec, script, req, o)
  }

  lemma ChronicleBegins(script: seq<RoundScript>, req: LoopRequest, o: LoopOptions)
    ensures Chronicle([], script, Begin(req), [UserItem(PromptInput, req.input)], req, o)
  {
  }

  lemma {:induction false} ChronicleGoesOn(records: seq<RoundRecord>, rec: RoundRecord, script: seq<RoundScript>, run: RunState, next: RunState,
                                           before: seq<HistoryItem>, after: seq<HistoryItem>, req: LoopRequest, o: LoopOptions)
    requires Chronicle(records, script, run, before, req, o) && |records| < |script|
    requires records != [] ==> records[|records| - 1].end == Again
    requires RoundTold(rec, script[|records|], run, next, before, after, req, o)
    requires rec.topLog == RunLog(records, script, req) + script[|records|].before
    ensures Chronicle(records + [rec], script, next, after, req, o)
    ensures RunLog(records + [rec], script, req) == EndLog(rec, script[|records|], req)
  {
    hide RoundFollows, RoundInputs, SteeringItems, Responds, LimitDecides, EndLog, Delivered;
    var longer := records + [rec];
    assert longer[..|longer| - 1] == records;
    var added := SteeringItems(RoundInputs(rec, script[|records|])) + rec.turn;
    var first := [UserItem(PromptInput, req.input)];
    assert (first + AppendedBy(records, script)) + added == first + (AppendedBy(records, script) + added);
    forall k | 0 <= k < |longer| ensures RoundSeesAll(longer, script, k, req, o) {
      assert longer[..k] == records[..k];
      if k < |records| {
        assert RoundSeesAll(records, script, k, req, o);
      } else {
        assert records[..k] == records;
      }
    }
  }

  /** Some executed round reached host code that panics. */
  ghost predicate HostPanicked(records: seq<RoundRecord>, script: seq<RoundScript>)
    requires |records| <= |script|
  {
    exists k | 0 <= k < |records| :: HostPanics(records[k], script[k])
  }

  /** The last round decides whether a run panicked. */
  lemma {:induction false} RunPanicsExactly(records: seq<RoundRecord>, script: seq<RoundScript>, req: LoopRequest, o: LoopOptions)
    requires Executed(records, script, req, o)
    ensures HostPanicked(records, script) <==> records != [] && records[|records| - 1].end == RoundPanics
  {
    hide RoundFollows, HostPanics;
    forall k | 0 <= k < |records| ensures HostPanics(records[k], script[k]) <==> records[k].end == RoundPanics {
      RoundPanicsExactly(records[k], script[k], req, o);
    }
    if records != [] && records[|records| - 1].end == RoundPanics {
      assert HostPanics(records[|records| - 1], script[|records| - 1]);
    }
  }

  /**
   * Over a whole run each delta the driver produced was given to the sink or
   * reported to it as lost, once; only a host panic leaves some unaccounted for.
   */
  lemma {:induction false} DeltasAccounted(records: seq<RoundRecord>, script: seq<RoundScript>, req: LoopRequest, o: LoopOptions)
    requires Executed(records, script, req, o) && LimitsValid(o.limits)
    ensures |EventsOfRun(records)| + LostOfRun(records) <= ProducedOfRun(records)
    ensures !HostPanicked(records, script) ==> |EventsOfRun(records)| + LostOfRun(records) == ProducedOfRun(records)
  {
    hide RoundFollows, HostPanics, RoundEvents, RoundLost;
    if records != [] {
      var n := |records| - 1;
      var init := records[..n];
      assert forall k | 0 <= k < n :: init[k] == records[k];
      assert Executed(init, script, req, o);
      DeltasAccounted(init, script, req, o);
      RoundAccounted(records[n], script[n], req, o);
      if !HostPanicked(records, script) {
        assert !HostPanics(records[n], script[n]);
        assert !HostPanicked(init, script);
      }
    }
  }

  lemma RoundAccounted(rec: RoundRecord, script: RoundScript, req: LoopRequest, o: LoopOptions)
    requires RoundFollows(rec, script, req, o) && LimitsValid(o.limits)
    ensures var produced := if rec.call.Some? then |rec.call.value.progress| else 0;
            && |RoundEvents(rec)| + RoundLost(rec) <= produced
            && (!HostPanics(rec, script) ==> |RoundEvents(rec)| + RoundLost(rec) == produced)
  {
    hide TopFollows, PromptFollows, TurnFollows, EndFollows, PromptStands, CallKept, WellFormed, IsLatest, CallUnwinds, Unwinds, TakePanics, InOrder;
    if rec.call.Some? {
      CallAccounted(rec.call.value, o.limits, o.codec, o.retry, script.model);
    }
  }
}
