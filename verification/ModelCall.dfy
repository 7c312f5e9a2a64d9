/** One model call of the loop: `run_model` and `map_model_failure` (src/agent_loop/runner/model.rs). */
module ModelCall {
  import opened Common
  import opened Text
  import opened Messages
  import opened Assembly
  import opened Driver
  import opened Exchange
  import opened LoopEvents
  import opened Reports

  /** Each delta a host can see carries text, so the response limits bound their number. */
  lemma {:induction false} ProgressCarriesText(es: seq<ModelEvent>)
    ensures |ProgressList(es)| <= Utf8Len(ChannelText(es, TextChannel)) + Utf8Len(ChannelText(es, ReasoningChannel))
  {
    hide ChannelText, EmittedDelta, Utf8Len, Raw;
    if es != [] {
      var init, e := Init(es), Last(es);
      assert init + [e] == es;
      ProgressCarriesText(init);
      ChannelStep(init, e, TextChannel);
      ChannelStep(init, e, ReasoningChannel);
      Utf8LenConcat(ChannelText(init, TextChannel), EmittedDelta(init, e, TextChannel));
      Utf8LenConcat(ChannelText(init, ReasoningChannel), EmittedDelta(init, e, ReasoningChannel));
      if ProgressOf(init, e).Some? {
        NonEmptyHasBytes(EmittedDelta(init, e, e.channel));
        assert e.channel == TextChannel || e.channel == ReasoningChannel;
      }
    }
  }

  lemma NonEmptyHasBytes(s: string)
    requires s != []
    ensures Utf8Len(s) >= 1
  {
  }

  lemma ProgressBounded(es: seq<ModelEvent>, req: Request)
    requires Accepted(es, req) && LimitsValid(req.limits)
    ensures |ProgressList(es)| <= 2 * MAX_TEXT_BYTES
  {
    AcceptedFacts(es, req);
    ProgressCarriesText(es);
    hide Accepted, Refusal, ChannelText, Utf8Len;
    assert Utf8Len(ChannelText(es, TextChannel)) <= ChannelLimit(req.limits, TextChannel);
    assert Utf8Len(ChannelText(es, ReasoningChannel)) <= ChannelLimit(req.limits, ReasoningChannel);
  }

  lemma CallProgressBounded(req: Request, policy: RetryPolicy, deadline: nat, source: DeadlineSource, env: CallEnv,
                            r: Result<ModelResponse, DriverFailure>, progress: seq<Progress>, trace: seq<AttemptRecord>)
    requires CallContract(req, policy, deadline, source, env, r, progress, trace) && LimitsValid(req.limits)
    ensures |progress| <= 2 * MAX_TEXT_BYTES
  {
    hide Accepted, ResponseFor, Assembled, ProgressList, TraceKept, CallFailure, StartedForGood, FinishReason;
    if trace != [] {
      ProgressBounded(trace[|trace| - 1].accepted, req);
    } else {
      EmptyProgress();
    }
  }

  /**
   * The model as it answers the request it is given, how the two queues are
   * scheduled meanwhile, and whether dropping its future or stream panics.
   */
  datatype ModelScript = ModelScript(
    model: ModelRequest -> CallEnv, deadline: nat, source: DeadlineSource, pumps: nat -> nat, host: nat -> HostStep,
    dropPanics: bool)

  /**
   * What one call did: the request it served, the driver's result, deltas and
   * attempts, and the deltas the sink was given or told to be lost.
   */
  datatype CallRecord = CallRecord(
    request: ModelRequest, result: Result<ModelResponse, DriverFailure>, progress: seq<Progress>, attempts: seq<AttemptRecord>,
    forwarded: seq<Progress>, recorded: nat)

  /** The record keeps the driver's contract with the model's answer to that very request. */
  ghost predicate CallKept(c: CallRecord, limits: Limits, codec: Codec, policy: RetryPolicy, script: ModelScript) {
    && CallContract(Request(c.request.tools, limits, codec), policy, script.deadline, script.source, script.model(c.request),
                    c.result, c.progress, c.attempts)
    && c.forwarded == PumpEnd(c.progress, script.pumps, CallUnwinds(c, script)).forwarded
    && c.recorded == PumpEnd(c.progress, script.pumps, CallUnwinds(c, script)).recorded
  }

  /**
   * Every delta of a call is forwarded, in order, or counted once as lost; only
   * a panic leaves some unaccounted for.
   */
  lemma CallAccounted(c: CallRecord, limits: Limits, codec: Codec, policy: RetryPolicy, script: ModelScript)
    requires CallKept(c, limits, codec, policy, script) && LimitsValid(limits)
    ensures InOrder(c.progress, c.forwarded)
    ensures |c.forwarded| + c.recorded <= |c.progress|
    ensures !CallUnwinds(c, script) ==> |c.forwarded| + c.recorded == |c.progress|
    ensures !CallUnwinds(c, script) && |c.progress| <= MODEL_PROGRESS_CAPACITY ==> c.forwarded == c.progress
  {
    hide CallContract, CallUnwinds, InOrder, PumpEnd;
    CallProgressBounded(Request(c.request.tools, limits, codec), policy, script.deadline, script.source, script.model(c.request),
                        c.result, c.progress, c.attempts);
    PumpConserves(c.progress, script.pumps, CallUnwinds(c, script));
  }

  /** A provider object exists to be dropped once a start did not itself panic. */
  predicate CallUnwinds(c: CallRecord, script: ModelScript) {
    script.dropPanics && exists i | 0 <= i < |c.attempts| :: !script.model(c.request).attempts(i).start.StartPanics?
  }

  /**
   * `run_model`: the driver's result, with every delta it produced forwarded
   * to the sink in order or counted as dropped.
   */
  method RunModel(sink: LoopEventSink, requestIndex: nat, request: ModelRequest, limits: Limits, codec: Codec, policy: RetryPolicy,
                  script: ModelScript)
    returns (call: CallRecord, unwinds: bool)
    requires sink.Valid() && LimitsValid(limits) && policy.baseDelay <= MAX_DURATION
    modifies sink
    ensures sink.Valid()
    ensures call.request == request && CallKept(call, limits, codec, policy, script)
    ensures unwinds <==> CallUnwinds(call, script)
    ensures sink.emitted == old(sink.emitted) + Deltas(requestIndex, call.forwarded)
    ensures sink.recorded == old(sink.recorded) + call.recorded
  {
    hide CallContract, PumpEnd, LoopEventSink.Valid;
    var env := script.model(request);
    var req := Request(request.tools, limits, codec);
    var result, progress, attempts := RunDetailed(req, policy, script.deadline, script.source, env);
    call := CallRecord(request, result, progress, attempts, [], 0);
    unwinds := CallUnwinds(call, script);
    var forwarded, recorded := PumpProgress(sink, requestIndex, progress, script.pumps, script.host, unwinds);
    call := call.(forwarded := forwarded, recorded := recorded);
  }

  /** `map_model_failure`: the token first, then a turn deadline, then the error's kind. */
  method MapModelFailure(cancelled: bool, failure: DriverFailure) returns (path: FailPath)
    ensures path == PathCancelled <==> cancelled
    ensures path == PathDeadline <==> !cancelled && failure.deadlineSource == Some(TurnDeadline)
    ensures !cancelled && failure.deadlineSource != Some(TurnDeadline) ==>
      path == if failure.error.kind in {InvalidProviderResponse, IncompleteResponse, UnexpectedToolCall}
              then PathInvalidModelResponse(failure.error) else PathModel(failure.error)
  {
    if cancelled {
      return PathCancelled;
    }
    if failure.deadlineSource == Some(TurnDeadline) {
      return PathDeadline;
    }
    match failure.error.kind {
      case InvalidProviderResponse => return PathInvalidModelResponse(failure.error);
      case IncompleteResponse => return PathInvalidModelResponse(failure.error);
      case UnexpectedToolCall => return PathInvalidModelResponse(failure.error);
      case _ => return PathModel(failure.error);
    }
  }
}
