/**
 * The agent loop (src/agent_loop/runner.rs): boundaries, prompt preparation,
 * the issue boundary, the model call, tool batches and the exactly-once
 * ending, over any environment. A run is driven by a finite script, so the
 * contracts speak of every reachable state of every run.
 */
module Runner {
  import opened Common
  import opened Text
  import opened Messages
  import opened Exchange
  import opened ToolCatalog
  import opened Assembly
  import opened History
  import opened Driver
  import opened LoopEvents
  import opened ModelCall
  import opened ControlSpec
  import opened Reports
  import opened LoopControls
  import opened ToolCalls
  import opened ToolBatch
  import opened RunStates
  import opened Chronicles

  // ---- Boundaries -------------------------------------------------------------------------

  datatype Boundary = Took(any: bool) | TakePanicked

  /** What every piece of the loop needs on entry and gives back while the loop goes on. */
  ghost predicate Looping(control: LoopControl, working: WorkingHistory, run: RunState, open: nat, req: LoopRequest, o: LoopOptions)
    reads control, working
  {
    && control.Valid() && control.initial == req.config && control.published == [] && control.model.slot.None?
    && working.base == req.history
    && RunInv(run, working.appended, control.model, open, req, o)
    && Settled(working.appended)
  }

  /** A panicking loop has not been sealed. */
  ghost predicate Unsealed(control: LoopControl, req: LoopRequest)
    reads control
  {
    control.Valid() && control.initial == req.config && control.published == [] && control.model.status != Sealed
  }

  /**
   * `take_boundary`: the latest config becomes the candidate and every input,
   * in order, a steering item. It panics exactly when the host code it runs
   * does; a replaced config that is still `pinned` by the round's snapshot is
   * dropped only after the inputs were appended.
   */
  method TakeBoundary(control: LoopControl, working: WorkingHistory, run: RunState, script: BoundaryScript, pinned: bool,
                      ghost req: LoopRequest, ghost o: LoopOptions)
    returns (next: RunState, r: Boundary, ghost take: Take)
    requires Looping(control, working, run, 0, req, o) && AllForeign(script.ops)
    modifies control, working
    ensures Evolves(old(control.model), control.model)
    ensures take.log == old(control.log) + script.ops && control.log == TakenLog(take)
    ensures TakeFollows(take, req.config) && control.model.accepting == old(control.model.accepting)
    ensures r.TakePanicked? <==> TakePanics(take, script)
    ensures r.TakePanicked? ==> Unsealed(control, req)
    ensures r.Took? ==> Looping(control, working, next, 0, req, o) && (r.any <==> TookAny(take, script))
    ensures next.taken == run.taken + Delivered(Some(take), script, pinned)
    ensures working.appended == old(working.appended) + SteeringItems(Delivered(Some(take), script, pinned))
    ensures r.Took? && !r.any ==> next == run && working.appended == old(working.appended)
    ensures AssistantItems(working.appended) == AssistantItems(old(working.appended))
    ensures next == run.(config := next.config, candidate := next.candidate, taken := next.taken)
  {
    hide RunInv, Settled, LoopControl.Valid, Keeps, Disturbs, Evolves, AllForeign, AssistantItems, LoggedState;
    var taken := TakeCandidate(control, working, run, script.ops, req, o);
    take := Take(taken, old(control.log) + script.ops);
    next := WithCandidate(run, taken);
    InvUnsealed(next, working.appended, control.model, 0, req, o);
    assert run.taken + [] == run.taken && working.appended + SteeringItems([]) == working.appended;
    if (taken.Some? && script.dropPanics && !pinned) || script.inputs.None? {
      return next, TakePanicked, take;
    }
    next := AppendInputs(control, working, next, script.inputs.value, req, o);
    if taken.Some? && script.dropPanics {
      return next, TakePanicked, take;
    }
    var any := taken.Some? || script.inputs.value != [];
    return next, Took(any), take;
  }

  method TakeCandidate(control: LoopControl, working: WorkingHistory, run: RunState, ops: seq<Op>,
                       ghost req: LoopRequest, ghost o: LoopOptions)
    returns (taken: Option<PendingConfig>)
    requires Looping(control, working, run, 0, req, o) && AllForeign(ops)
    modifies control
    ensures Looping(control, working, WithCandidate(run, taken), 0, req, o)
    ensures Evolves(old(control.model), control.model) && control.log == (old(control.log) + ops) + [Op.TakeConfig]
    ensures control.model.accepting == old(control.model.accepting)
    ensures taken == LoggedState(req.config, old(control.log) + ops).pending
  {
    hide RunInv, Inv, LoopRun, Initial, Evolves, Keeps, Disturbs, Settled;
    control.Interfere(ops);
    TakeClosesNothing(old(control.model), control.model);
    DisturbsKeeps(old(control.model), control.model);
    RunKept(run, working.appended, old(control.model), control.model, 0, req, o);
    ghost var mid := control.model;
    RunTakesConfig(run, working.appended, mid, 0, req, o);
    TakeKeepsSlot(mid);
    TakeAdvances(old(control.model), mid);
    TakeEvolves(old(control.model), mid);
    taken := control.TakeConfig();
  }

  lemma TakeClosesNothing(before: ControlState, s: ControlState)
    requires Disturbs(before, s)
    ensures Apply(s, Op.TakeConfig).0.accepting == before.accepting
  {
  }

  lemma TakeEvolves(before: ControlState, s: ControlState)
    requires Inv(s) && Disturbs(before, s)
    ensures Evolves(before, Apply(s, TakeConfig).0)
  {
    ApplyKeepsInv(s, TakeConfig);
    hide Inv, Apply;
    EvolvesTrans(before, s, Apply(s, TakeConfig).0);
    hide Evolves;
  }

  method AppendInputs(control: LoopControl, working: WorkingHistory, run: RunState, inputs: seq<UserInput>,
                      ghost req: LoopRequest, ghost o: LoopOptions)
    returns (next: RunState)
    requires Looping(control, working, run, 0, req, o)
    modifies working
    ensures Looping(control, working, next, 0, req, o)
    ensures next == run.(taken := run.taken + inputs)
    ensures working.appended == old(working.appended) + SteeringItems(inputs)
    ensures AssistantItems(working.appended) == AssistantItems(old(working.appended))
  {
    hide RunInv, Settled, LoopControl.Valid, AssistantItems;
    next := run;
    ghost var items := SteeringItems(inputs);
    assert run.taken + inputs[..0] == run.taken && working.appended + items[..0] == working.appended;
    for i := 0 to |inputs|
      invariant Looping(control, working, next, 0, req, o)
      invariant next == run.(taken := run.taken + inputs[..i])
      invariant working.appended == old(working.appended) + items[..i]
      invariant AssistantItems(working.appended) == AssistantItems(old(working.appended))
    {
      assert run.taken + inputs[..i + 1] == (run.taken + inputs[..i]) + [inputs[i]];
      assert old(working.appended) + items[..i + 1] == (old(working.appended) + items[..i]) + [items[i]];
      RunTakesInput(next, working.appended, inputs[i], control.model, 0, req, o);
      working.Append(UserItem(Steering, inputs[i]));
      next := next.(taken := next.taken + [inputs[i]]);
    }
    assert inputs[..|inputs|] == inputs && items[..|items|] == items;
  }

  /** Exactly a non-empty take moves on to a later config. */
  lemma TakeAdvances(before: ControlState, s: ControlState)
    requires Inv(s) && Disturbs(before, s)
    ensures var t := Apply(s, TakeConfig).0;
            t.taken >= before.taken && (s.pending.Some? <==> t.taken != before.taken)
  {
    hide Evolves;
    TakeStep(s);
  }

  lemma TakeKeepsSlot(s: ControlState)
    ensures Apply(s, TakeConfig).0.slot == s.slot && Apply(s, TakeConfig).0.status == s.status
  {
  }

  lemma InvUnsealed(run: RunState, items: seq<HistoryItem>, s: ControlState, open: nat, req: LoopRequest, o: LoopOptions)
    requires RunInv(run, items, s, open, req, o)
    ensures s.status != Sealed
  {
  }

  // ---- Prompt preparation ---------------------------------------------------------------------

  datatype PromptPrep = Ready(messages: seq<ModelMessage>) | PrepEnd(end: RoundEnd)

  /** `prepare_prompt`, with the provider's own code for the default provider. */
  method PreparePrompt(control: LoopControl, provider: PromptProvider, history: seq<HistoryItem>, script: PromptScript)
    returns (r: PromptPrep, ghost outcome: PortOutcome<seq<ModelMessage>>)
    requires control.Valid() && PortForeign(script.port)
    modifies control
    ensures control.Valid() && Disturbs(old(control.model), control.model)
    ensures control.published == old(control.published)
    ensures PortFollows(control.initial, old(control.log), PromptPort(script, provider, history), outcome)
    ensures control.log == PortLog(control.initial, old(control.log), PromptPort(script, provider, history))
    ensures outcome.PortCancelled? ==> control.token
    ensures if PromptReady(outcome) then r == Ready(outcome.value) else r == PrepEnd(PromptEnd(outcome))
    ensures r.Ready? ==> PromptFor(provider, history, r.messages)
  {
    hide Inv, LoopRun, Initial, Evolves, Disturbs, ProjectAll, SystemMessages, Foreign, LoopControl.Valid, PortFollows, PortLog;
    ghost var from := control.log;
    var port := script.port;
    if provider.DefaultProvider? {
      port := port.(dropPanics := false);
      if !port.ends.Expires? {
        var prepared := Prepare(provider.system, history, script.expired);
        port := port.(ends := if prepared.Ok? then Returns(prepared.value) else PortEnd.Fails);
      }
    }
    var answer := RunPortCall(control, port);
    outcome := answer;
    ReadyIsFor(script, provider, history, control.initial, from, answer);
    match answer {
      case Returned(messages) => r := if messages == [] then PrepEnd(Break(PathPrompt)) else Ready(messages);
      case PortCancelled(_) => r := PrepEnd(Break(PathCancelled));
      case DeadlineExceeded(source) => r := PrepEnd(Break(if source.TurnDeadline? then PathDeadline else PathPrompt));
      case PortUnwinds => r := PrepEnd(RoundPanics);
      case ReturnedError => r := PrepEnd(Break(PathPrompt));
      case InvalidDeadline => r := PrepEnd(Break(PathPrompt));
      case PortPanicked => r := PrepEnd(Break(PathPrompt));
    }
  }

  /** What a provider's ready prompt is. */
  lemma ReadyIsFor(script: PromptScript, provider: PromptProvider, history: seq<HistoryItem>, config: ExecutionConfig, from: seq<Op>,
                   outcome: PortOutcome<seq<ModelMessage>>)
    requires PortFollows(config, from, PromptPort(script, provider, history), outcome)
    ensures PromptReady(outcome) ==> PromptFor(provider, history, outcome.value)
  {
    hide ProjectAll, SystemMessages, TokenAt;
  }

  /** The texts, the system prompt and the base a default prompt depends on. */
  predicate PromptAcceptable(system: Option<string>, base: seq<HistoryItem>, items: seq<HistoryItem>) {
    SystemAccepted(system) && BaseAccepted(base) && UserTextsValid(items)
  }

  /**
   * `build_model_request` on a default prompt succeeds exactly when the
   * system prompt, the base history and the user texts are acceptable, however
   * many tool rounds the history holds.
   */
  method BuildModelRequest(messages: seq<ModelMessage>, config: ExecutionConfig, ghost base: seq<HistoryItem>, ghost items: seq<HistoryItem>)
    returns (r: Result<ModelRequest, ModelValueError>)
    requires PromptFor(config.prompt, base + items, messages)
    requires items != [] && items[0].UserItem? && Settled(items) && LoopItems(items)
    ensures r.Ok? ==> r.value == ModelRequest(messages, config.tools.specs) && WellFormed(messages)
    ensures r.Err? ==> !WellFormed(messages)
    ensures config.prompt.DefaultProvider? ==> (r.Ok? <==> PromptAcceptable(config.prompt.system, base, items))
  {
    hide WellFormed, Settled, LoopItems, SystemAccepted, BaseAccepted, UserTextsValid, Verdict;
    if config.prompt.DefaultProvider? {
      ProjectConcat(base, items);
      hide ProjectAll, SystemMessages;
      PromptAcceptedExactly(config.prompt.system, base, items);
    }
    r := RequestWithValidatedTools(messages, config.tools.specs);
  }

  // ---- One round ---------------------------------------------------------------------------------

  /** Requests and batches agree, with at most one request whose batch was never entered. */
  ghost predicate Stopped(run: RunState, items: seq<HistoryItem>, s: ControlState, req: LoopRequest, o: LoopOptions) {
    RunInv(run, items, s, 0, req, o) || RunInv(run, items, s, 1, req, o)
  }

  /** The last response is in the history, with or without tool calls, and finished for `reason`. */
  ghost predicate LastTurn(run: RunState, items: seq<HistoryItem>, callsMade: bool) {
    && run.responses != [] && |AssistantItems(items)| == |run.responses|
    && (Calls(run.responses[|run.responses| - 1].parts) != [] <==> callsMade)
  }

  /** The paths that a model turn leads to are exactly those its finish or the round limit demands. */
  ghost predicate PathExplained(path: FailPath, run: RunState, items: seq<HistoryItem>, o: LoopOptions) {
    && (path in {PathCompleted, PathOutputLimit, PathRefused, PathContentFiltered} ==>
          && LastTurn(run, items, false)
          && NoToolFinish(run.responses[|run.responses| - 1].finishReason) == Some(path))
    && (path == PathMaxToolRounds ==>
          && LastTurn(run, items, true)
          && o.maxToolRounds != 0 && run.batches == o.maxToolRounds)
  }

  /** What holds wherever the loop breaks with `path`. */
  ghost predicate Broken(control: LoopControl, working: WorkingHistory, run: RunState, path: FailPath, req: LoopRequest, o: LoopOptions)
    reads control, working
  {
    && Unsealed(control, req)
    && working.base == req.history
    && Stopped(run, working.appended, control.model, req, o)
    && Settled(working.appended)
    && path != PathInteraction && PathExplained(path, run, working.appended, o)
    && (path == PathCancelled ==> control.model.status != Active)
    && (path == PathCompleted ==> !control.model.accepting)
  }

  /** Between rounds: everything issued so far has had its response and its batch. */
  ghost predicate AtTop(control: LoopControl, working: WorkingHistory, run: RunState, req: LoopRequest, o: LoopOptions)
    reads control, working
  {
    && Looping(control, working, run, 0, req, o) && run.requestIndex == Min(|run.issues|, U32_MAX)
    && |AssistantItems(working.appended)| == |run.responses| == |run.issues| && control.model.accepting
  }

  ghost predicate RoundEnded(control: LoopControl, working: WorkingHistory, run: RunState, end: RoundEnd, req: LoopRequest, o: LoopOptions)
    reads control, working
  {
    match end
    case Again => AtTop(control, working, run, req, o)
    case Break(path) => Broken(control, working, run, path, req, o)
    case RoundPanics => Unsealed(control, req)
    case RoundSuspended => Unsealed(control, req) && Stopped(run, working.appended, control.model, req, o)
  }

  lemma BreaksWith(control: LoopControl, working: WorkingHistory, run: RunState, open: nat, path: FailPath, req: LoopRequest, o: LoopOptions)
    requires Looping(control, working, run, open, req, o) && open <= 1
    requires path != PathInteraction && (path == PathCancelled ==> control.token)
    requires path == PathCompleted ==> !control.model.accepting
    requires PathExplained(path, run, working.appended, o)
    ensures Broken(control, working, run, path, req, o)
  {
    if control.token {
      TokenMeansStopped(control.model);
    }
    InvUnsealed(run, working.appended, control.model, open, req, o);
    hide RunInv, Settled, Inv, LoopRun, Initial;
  }

  /** A prompt comes with the snapshot and the history view it was prepared from. */
  datatype PromptStep =
    | Stale
    | Prepared(messages: seq<ModelMessage>, snapshot: ExecutionConfig, view: seq<HistoryItem>)
    | Ends(end: RoundEnd)

  /** What a round did before the issue boundary, and what it added so far. */
  ghost predicate PromptTold(rec: RoundRecord, step: PromptStep, script: RoundScript, run: RunState, next: RunState,
                             before: seq<HistoryItem>, after: seq<HistoryItem>, req: LoopRequest, o: LoopOptions) {
    && TopFollows(rec, script, req, o) && PromptFollows(rec, script, req)
    && rec.issue.None? && rec.call.None? && rec.response.None? && rec.turn == [] && rec.batch.None? && rec.heard == []
    && next.taken == run.taken + RoundInputs(rec, script)
    && next.issues == run.issues && next.responses == run.responses && next.batches == run.batches
    && after == before + SteeringItems(RoundInputs(rec, script))
    && (rec.prompt.Some? ==> rec.view == before + SteeringItems(Delivered(rec.first, script.first, false)))
    && (if step.Prepared? then
          PromptStands(rec, script) && rec.prompt == Some(Returned(step.messages)) && rec.snapshot == step.snapshot && rec.view == step.view
          && IsLatest(req.config, rec.second.value.log, step.snapshot, NextRevision(next))
        else
          !PromptStands(rec, script) && EndFollows(rec, script, req) && rec.end == (if step.Ends? then step.end else Again))
  }

  /** A round after its first take. */
  ghost predicate TopTold(rec: RoundRecord, script: RoundScript, run: RunState, next: RunState,
                          before: seq<HistoryItem>, after: seq<HistoryItem>, req: LoopRequest, o: LoopOptions) {
    && TopFollows(rec, script, req, o)
    && rec.first.Some? && !TakePanics(rec.first.value, script.first)
    && rec.prompt.None? && rec.second.None? && rec.end == Again
    && rec.issue.None? && rec.call.None? && rec.response.None? && rec.turn == [] && rec.batch.None? && rec.heard == []
    && next.taken == run.taken + Delivered(rec.first, script.first, false)
    && next.issues == run.issues && next.responses == run.responses && next.batches == run.batches
    && after == before + SteeringItems(Delivered(rec.first, script.first, false))
  }

  /** The checks on top of a round and its first take. */
  method RoundTop(control: LoopControl, working: WorkingHistory, run: RunState, script: RoundScript, req: LoopRequest, o: LoopOptions)
    returns (next: RunState, early: Option<RoundEnd>, ghost rec: RoundRecord)
    requires AtTop(control, working, run, req, o) && RoundForeign(script)
    modifies control, working
    ensures Evolves(old(control.model), control.model)
    ensures rec.topLog == old(control.log) + script.before && control.log == EndLog(rec, script, req)
    ensures early.None? ==> AtTop(control, working, next, req, o)
    ensures early.None? ==> TopTold(rec, script, run, next, old(working.appended), working.appended, req, o)
    ensures early.Some? ==> RoundEnded(control, working, next, early.value, req, o) && early.value != Again
    ensures early.Some? ==> PromptTold(rec, Ends(early.value), script, run, next, old(working.appended), working.appended, req, o)
    ensures next.requestIndex == run.requestIndex
  {
    hide RunInv, Settled, LoopControl.Valid, Keeps, Disturbs, Evolves, AllForeign, PortForeign, Inv, Unsealed, Broken,
         AssistantItems, TokenAt, TakeFollows, Serves, SteeringItems, PromptTold, PromptLog, LoggedState;
    Await(control, working, run, 0, script.before, req, o);
    next := run;
    rec := RoundRecord(control.log, None, run.config, [], None, None, None, None, [], None, [], None, Again);
    LogIsState(control);
    LoopingServes(control, working, run, req, o);
    if control.token {
      BreaksWith(control, working, next, 0, PathCancelled, req, o);
      rec := rec.(end := Break(PathCancelled));
      TopCut(rec, script, run, working.appended, req, o);
      return next, Some(Break(PathCancelled)), rec;
    }
    if o.hasDeadline && script.deadlinePassed {
      BreaksWith(control, working, next, 0, PathDeadline, req, o);
      rec := rec.(end := Break(PathDeadline));
      TopCut(rec, script, run, working.appended, req, o);
      return next, Some(Break(PathDeadline)), rec;
    }
    ghost var top := control.model;
    var first: Boundary;
    ghost var take: Take;
    next, first, take := TakeBoundary(control, working, next, script.first, false, req, o);
    EvolvesTrans(old(control.model), top, control.model);
    rec := rec.(first := Some(take));
    if first.TakePanicked? {
      rec := rec.(end := RoundPanics);
      FirstPanics(rec, script, run, next, old(working.appended), working.appended, req, o);
      return next, Some(RoundPanics), rec;
    }
    return next, None, rec;
  }

  /** A round that its top check cuts. */
  lemma TopCut(rec: RoundRecord, script: RoundScript, run: RunState, items: seq<HistoryItem>, req: LoopRequest, o: LoopOptions)
    requires rec.first.None? && rec.prompt.None? && rec.second.None? && rec.end.Break?
    requires rec.issue.None? && rec.call.None? && rec.response.None? && rec.turn == [] && rec.batch.None?
    requires TopFollows(rec, script, req, o) && Serves(req.config, rec.topLog, rec.snapshot) && rec.view == [] && rec.heard == []
    ensures PromptTold(rec, Ends(rec.end), script, run, run, items, items, req, o)
  {
    hide TokenAt, TakeFollows, Serves, PortFollows, PromptPort, PromptLog;
    NoInputs(run.taken, items);
  }

  /** A round whose first take panics. */
  lemma FirstPanics(rec: RoundRecord, script: RoundScript, run: RunState, next: RunState, before: seq<HistoryItem>, after: seq<HistoryItem>,
                    req: LoopRequest, o: LoopOptions)
    requires rec.first.Some? && TakePanics(rec.first.value, script.first) && rec.end == RoundPanics
    requires rec.prompt.None? && rec.second.None?
    requires rec.issue.None? && rec.call.None? && rec.response.None? && rec.turn == [] && rec.batch.None?
    requires TopFollows(rec, script, req, o) && Serves(req.config, rec.topLog, rec.snapshot) && rec.view == [] && rec.heard == []
    requires next.taken == run.taken + Delivered(rec.first, script.first, false)
    requires next.issues == run.issues && next.responses == run.responses && next.batches == run.batches
    requires after == before + SteeringItems(Delivered(rec.first, script.first, false))
    ensures PromptTold(rec, Ends(RoundPanics), script, run, next, before, after, req, o)
  {
    hide TokenAt, TakeFollows, Serves, PortFollows, PromptPort, PromptLog;
    InputsSoFar(Delivered(rec.first, script.first, false));
  }

  /** A round that ends at its preparation, or at its second take, or goes on to the issue boundary. */
  lemma PromptIsTold(top: RoundRecord, rec: RoundRecord, step: PromptStep, script: RoundScript, run: RunState, mid: RunState, next: RunState,
                     before: seq<HistoryItem>, between: seq<HistoryItem>, after: seq<HistoryItem>, req: LoopRequest, o: LoopOptions)
    requires TopTold(top, script, run, mid, before, between, req, o)
    requires rec == top.(snapshot := rec.snapshot, view := rec.view, prompt := rec.prompt, second := rec.second, end := rec.end)
    requires rec.first.Some? && rec.prompt.Some? && rec.view == between && Serves(req.config, TakenLog(rec.first.value), rec.snapshot)
    requires PortFollows(req.config, TakenLog(rec.first.value), RoundPort(rec, script, req), rec.prompt.value)
    requires rec.second.Some? <==> PromptReady(rec.prompt.value)
    requires rec.second.Some? ==>
      rec.second.value.log == PromptLog(rec, script, req) + script.second.ops && TakeFollows(rec.second.value, req.config)
    requires next.taken == mid.taken + Delivered(rec.second, script.second, true)
    requires next.issues == mid.issues && next.responses == mid.responses && next.batches == mid.batches
    requires after == between + SteeringItems(Delivered(rec.second, script.second, true))
    requires match step
             case Ends(end) =>
               rec.end == end && if rec.second.None? then end == PromptEnd(rec.prompt.value)
                                 else TakePanics(rec.second.value, script.second) && end == RoundPanics
             case Stale =>
               rec.end == Again && rec.second.Some? && !TakePanics(rec.second.value, script.second) && TookAny(rec.second.value, script.second)
             case Prepared(messages, snapshot, view) =>
               && PromptStands(rec, script) && rec.prompt == Some(Returned(messages)) && rec.snapshot == snapshot && rec.view == view
               && IsLatest(req.config, rec.second.value.log, snapshot, NextRevision(next))
    ensures PromptTold(rec, step, script, run, next, before, after, req, o)
  {
    hide TokenAt, TakeFollows, Serves, IsLatest, PortFollows, PromptPort, PromptLog, Delivered, SteeringItems, CallUnwinds, Calls;
    var first, second := Delivered(rec.first, script.first, false), Delivered(rec.second, script.second, true);
    InputsJoin(run.taken, before, first, second);
  }

  /** Steps up to the second boundary: a prompt that survives it is never stale. */
  method RoundPrompt(control: LoopControl, working: WorkingHistory, run: RunState, script: RoundScript,
                     req: LoopRequest, o: LoopOptions)
    returns (next: RunState, step: PromptStep, ghost rec: RoundRecord)
    requires AtTop(control, working, run, req, o) && RoundForeign(script)
    modifies control, working
    ensures Evolves(old(control.model), control.model)
    ensures rec.topLog == old(control.log) + script.before && control.log == EndLog(rec, script, req)
    ensures step.Stale? || step.Prepared? ==> AtTop(control, working, next, req, o)
    ensures step.Prepared? ==> PromptFor(step.snapshot.prompt, req.history + step.view, step.messages)
    ensures step.Prepared? ==> step.snapshot == next.config && step.view == working.appended
    ensures step.Ends? ==> RoundEnded(control, working, next, step.end, req, o) && step.end != Again
    ensures PromptTold(rec, step, script, run, next, old(working.appended), working.appended, req, o)
    ensures next.requestIndex == run.requestIndex
  {
    hide RunInv, Settled, LoopControl.Valid, Keeps, Disturbs, Evolves, AllForeign, PromptFor, PortForeign, Inv, Unsealed, Broken,
         AssistantItems, PortFollows, PromptPort, TopTold, PromptTold, SteeringItems, Delivered, TookAny, TakePanics, AtTop, Looping, RoundEnded,
         PromptStands, TakeFollows, Serves, IsLatest, PortLog;
    var early;
    next, early, rec := RoundTop(control, working, run, script, req, o);
    if early.Some? {
      return next, Ends(early.value), rec;
    }
    ghost var top, mid, between, before := rec, next, working.appended, control.model;
    TopIs(top, script, run, next, old(working.appended), between, req, o);
    TopIsLooping(control, working, next, req, o);
    LoopingServes(control, working, next, req, o);
    var snapshot, view := next.config, working.appended;
    var prep;
    ghost var outcome;
    prep, outcome := PreparePrompt(control, snapshot.prompt, working.base + view, script.prompt);
    rec := rec.(snapshot := snapshot, view := view, prompt := Some(outcome));
    Awaited(control, working, next, 0, before, req, o);
    EvolvesTrans(old(control.model), before, control.model);
    NothingDelivered(next.taken, between, script.second);
    if prep.PrepEnd? {
      rec := rec.(end := prep.end);
      step := Ends(prep.end);
      PrepEndIs(outcome);
      PrepEnds(control, working, next, outcome, req, o);
      PromptIsTold(top, rec, step, script, run, mid, next, old(working.appended), between, working.appended, req, o);
      return;
    }
    ghost var ready := control.model;
    var second: Boundary;
    ghost var again: Take;
    next, second, again := TakeBoundary(control, working, next, script.second, true, req, o);
    EvolvesTrans(old(control.model), ready, control.model);
    rec := rec.(second := Some(again));
    match second {
      case TakePanicked =>
        rec := rec.(end := RoundPanics);
        step := Ends(RoundPanics);
        UnsealedPanics(control, working, next, req, o);
      case Took(any) =>
        step := if any then Stale else Prepared(prep.messages, snapshot, view);
        LoopingIsTop(control, working, next, req, o);
        if !any {
          StandsFor(rec, script, prep.messages);
          TakenIsLatest(control, working, next, again, script.second, req, o);
        }
    }
    PromptIsTold(top, rec, step, script, run, mid, next, old(working.appended), between, working.appended, req, o);
  }

  /** The config of the loop is always the one taken last. */
  lemma LoopingServes(control: LoopControl, working: WorkingHistory, run: RunState, req: LoopRequest, o: LoopOptions)
    requires Looping(control, working, run, 0, req, o)
    ensures Serves(req.config, control.log, run.config)
  {
    hide Settled, HistoryOk, IssuesOk, Responded, ResponsesFit, Counted, LoopControl.Valid;
    LogIsState(control);
    hide LoggedState;
  }

  /** Nothing was taken: the config of the loop is the latest accepted one. */
  lemma TakenIsLatest(control: LoopControl, working: WorkingHistory, run: RunState, take: Take, b: BoundaryScript, req: LoopRequest, o: LoopOptions)
    requires Looping(control, working, run, 0, req, o) && control.model.accepting && !TookAny(take, b)
    requires TakeFollows(take, req.config) && control.log == TakenLog(take)
    ensures IsLatest(req.config, take.log, run.config, NextRevision(run))
  {
    hide Settled, HistoryOk, IssuesOk, Responded, ResponsesFit, Counted, Delivered, LoopRun, Initial;
    LogIsState(control);
    LogStep(control.initial, take.log, Op.TakeConfig);
    NothingPending(control.model);
  }

  /** With updates open and nothing pending, the latest accepted config has been taken. */
  lemma NothingPending(s: ControlState)
    requires Inv(s) && s.accepting && s.pending.None?
    ensures s.taken == |s.accepted| - 1
  {
  }

  lemma TopIsLooping(control: LoopControl, working: WorkingHistory, run: RunState, req: LoopRequest, o: LoopOptions)
    requires AtTop(control, working, run, req, o)
    ensures Looping(control, working, run, 0, req, o) && run.requestIndex == Min(|run.issues|, U32_MAX)
    ensures |AssistantItems(working.appended)| == |run.responses| == |run.issues| && control.model.accepting
    ensures control.Valid() && working.base == req.history && control.model.slot.None? && Settled(working.appended)
    ensures control.initial == req.config && control.published == [] && RunInv(run, working.appended, control.model, 0, req, o)
  {
    hide RunInv, Settled, LoopControl.Valid, AssistantItems;
  }

  lemma LoopingIsTop(control: LoopControl, working: WorkingHistory, run: RunState, req: LoopRequest, o: LoopOptions)
    requires Looping(control, working, run, 0, req, o) && run.requestIndex == Min(|run.issues|, U32_MAX)
    requires |AssistantItems(working.appended)| == |run.responses| == |run.issues| && control.model.accepting
    ensures AtTop(control, working, run, req, o)
  {
    hide Looping, AssistantItems;
  }

  lemma PrepEnds(control: LoopControl, working: WorkingHistory, run: RunState, outcome: PortOutcome<seq<ModelMessage>>, req: LoopRequest, o: LoopOptions)
    requires Looping(control, working, run, 0, req, o)
    requires outcome.PortCancelled? ==> control.token
    ensures RoundEnded(control, working, run, PromptEnd(outcome), req, o)
  {
    hide RunInv, Settled, LoopControl.Valid, AssistantItems, Broken, Unsealed;
    PrepEndIs(outcome);
    if PromptEnd(outcome).Break? {
      BreaksWith(control, working, run, 0, PromptEnd(outcome).path, req, o);
    } else {
      LoopingUnsealed(control, working, run, 0, req, o);
    }
  }

  lemma UnsealedPanics(control: LoopControl, working: WorkingHistory, run: RunState, req: LoopRequest, o: LoopOptions)
    requires Unsealed(control, req)
    ensures RoundEnded(control, working, run, RoundPanics, req, o)
  {
    hide Unsealed;
  }

  lemma StandsFor(rec: RoundRecord, script: RoundScript, messages: seq<ModelMessage>)
    requires rec.second.Some? && !TakePanics(rec.second.value, script.second) && !TookAny(rec.second.value, script.second)
    requires rec.prompt.Some? && PromptReady(rec.prompt.value) && rec.prompt.value.value == messages
    ensures PromptStands(rec, script) && rec.prompt == Some(Returned(messages))
  {
    hide TakePanics, TookAny;
  }

  lemma TopIs(top: RoundRecord, script: RoundScript, run: RunState, next: RunState, before: seq<HistoryItem>, after: seq<HistoryItem>,
              req: LoopRequest, o: LoopOptions)
    requires TopTold(top, script, run, next, before, after, req, o)
    ensures top.first.Some? && top.prompt.None? && top.second.None? && top.issue.None? && top.end == Again
  {
    hide TokenAt, TakeFollows, SteeringItems, Delivered, PromptLog;
  }

  lemma NothingDelivered(taken: seq<UserInput>, items: seq<HistoryItem>, b: BoundaryScript)
    ensures taken + Delivered(None, b, true) == taken && items + SteeringItems(Delivered(None, b, true)) == items
  {
  }

  lemma NoInputs(taken: seq<UserInput>, items: seq<HistoryItem>)
    ensures taken + ([] + []) == taken && items + SteeringItems([] + []) == items
  {
  }

  lemma InputsSoFar(first: seq<UserInput>)
    ensures first + [] == first
  {
  }

  lemma InputsJoin(taken: seq<UserInput>, items: seq<HistoryItem>, first: seq<UserInput>, second: seq<UserInput>)
    ensures (taken + first) + second == taken + (first + second)
    ensures (items + SteeringItems(first)) + SteeringItems(second) == items + SteeringItems(first + second)
  {
    assert SteeringItems(first) + SteeringItems(second) == SteeringItems(first + second);
  }

  /** How a preparation without a prompt ends the round. */
  lemma PrepEndIs(outcome: PortOutcome<seq<ModelMessage>>)
    ensures var end := PromptEnd(outcome);
            && end in {RoundPanics, Break(PathCancelled), Break(PathDeadline), Break(PathPrompt)}
            && (end == Break(PathCancelled) <==> outcome.PortCancelled?)
  {
  }

  lemma LoopingUnsealed(control: LoopControl, working: WorkingHistory, run: RunState, open: nat, req: LoopRequest, o: LoopOptions)
    requires Looping(control, working, run, open, req, o)
    ensures Unsealed(control, req)
  {
    hide RunInv, Settled, LoopControl.Valid;
    InvUnsealed(run, working.appended, control.model, open, req, o);
  }

  /** Other threads run; the loop's invariant survives. */
  method Await(control: LoopControl, working: WorkingHistory, ghost run: RunState, ghost open: nat, ops: seq<Op>,
               ghost req: LoopRequest, ghost o: LoopOptions)
    requires Looping(control, working, run, open, req, o) && AllForeign(ops)
    modifies control
    ensures Looping(control, working, run, open, req, o) && control.model.taken == old(control.model.taken)
    ensures control.model.accepting == old(control.model.accepting)
    ensures Evolves(old(control.model), control.model) && control.log == old(control.log) + ops
  {
    hide RunInv, Settled, LoopControl.Valid, Keeps, Disturbs, Evolves, AllForeign;
    ghost var before := control.model;
    control.Interfere(ops);
    Awaited(control, working, run, open, before, req, o);
  }

  lemma Awaited(control: LoopControl, working: WorkingHistory, run: RunState, open: nat, before: ControlState, req: LoopRequest, o: LoopOptions)
    requires RunInv(run, working.appended, before, open, req, o) && Disturbs(before, control.model)
    requires control.Valid() && control.initial == req.config && control.published == [] && before.slot.None?
    requires working.base == req.history && Settled(working.appended)
    ensures Looping(control, working, run, open, req, o) && control.model.taken == before.taken
    ensures Evolves(before, control.model) && control.model.accepting == before.accepting
  {
    hide RunInv, Settled, LoopControl.Valid, Keeps, Evolves;
    assert control.model.taken == before.taken && Evolves(before, control.model) && control.model.accepting == before.accepting;
    hide Disturbs;
    DisturbsKeeps(before, control.model);
    RunKept(run, working.appended, before, control.model, open, req, o);
  }

  /** The issue boundary: build, commit the revision, and record the request. */
  method IssueRequest(control: LoopControl, working: WorkingHistory, run: RunState, messages: seq<ModelMessage>,
                      snapshot: ExecutionConfig, view: seq<HistoryItem>, req: LoopRequest, o: LoopOptions)
    returns (next: RunState, request: Option<ModelRequest>)
    requires AtTop(control, working, run, req, o)
    requires PromptFor(snapshot.prompt, req.history + view, messages)
    requires snapshot == run.config && view == working.appended
    modifies control
    ensures Evolves(old(control.model), control.model)
    ensures control.log == old(control.log) + (if request.Some? then [CommitRevision(next.issued)] else [])
    ensures request.Some? <==> WellFormed(messages)
    ensures request.None? ==> Broken(control, working, next, PathPrompt, req, o) && next == run
    ensures working.appended == old(working.appended)
    ensures request.Some? ==>
      && Looping(control, working, next, 1, req, o) && control.model.accepting
      && request.value == ModelRequest(messages, snapshot.tools.specs)
      && next == IssueNow(run, view, messages)
    ensures snapshot.prompt.DefaultProvider? ==>
      (request.Some? <==> PromptAcceptable(snapshot.prompt.system, req.history, view))
  {
    hide RunInv, Settled, LoopControl.Valid, PromptFor, WellFormed, PromptAcceptable, Inv, LoopRun, Initial, Apply;
    EvolvesRefl(control.model);
    hide Evolves;
    PromptFirst(run, working.appended, control.model, 0, req, o);
    var built := BuildModelRequest(messages, snapshot, req.history, view);
    if built.Err? {
      Rejected(control, working, run, req, o);
      return run, None;
    }
    RunIssues(run, working.appended, messages, control.model, req, o);
    CommitKeepsSlot(control.model, IssueNow(run, view, messages).issued);
    ValidInv(control);
    CommitEvolves(control.model, IssueNow(run, view, messages).issued);
    var revision := NextRevision(run);
    next := IssueNow(run, view, messages);
    control.CommitRevision(revision);
    return next, Some(built.value);
  }

  lemma PromptFirst(run: RunState, items: seq<HistoryItem>, s: ControlState, open: nat, req: LoopRequest, o: LoopOptions)
    requires RunInv(run, items, s, open, req, o)
    ensures items != [] && items[0].UserItem? && LoopItems(items)
  {
  }

  lemma Rejected(control: LoopControl, working: WorkingHistory, run: RunState, req: LoopRequest, o: LoopOptions)
    requires AtTop(control, working, run, req, o)
    ensures Broken(control, working, run, PathPrompt, req, o)
  {
    hide RunInv, Settled, LoopControl.Valid, AssistantItems, LastTurn;
    InvUnsealed(run, working.appended, control.model, 0, req, o);
  }

  lemma ValidInv(control: LoopControl)
    requires control.Valid()
    ensures Inv(control.model)
  {
    hide Inv;
  }

  lemma CommitEvolves(s: ControlState, revision: nat)
    requires Inv(s)
    ensures Evolves(s, Apply(s, CommitRevision(revision)).0)
  {
    ApplyKeepsInv(s, CommitRevision(revision));
  }

  lemma CommitKeepsSlot(s: ControlState, revision: nat)
    ensures Apply(s, CommitRevision(revision)).0.slot == s.slot && Apply(s, CommitRevision(revision)).0.accepting == s.accepting
  {
  }

  // ---- The response ------------------------------------------------------------------------------

  datatype Response = Turn(assistant: HistoryItem, calls: seq<ToolCall>, finish: Option<FailPath>) | Unusable(path: FailPath)

  /** A turn that enters the history: its calls are on the request's catalog, and without calls it ends the loop. */
  predicate TurnOk(r: Response, run: RunState, tools: seq<ToolSpec>) {
    r.Turn? ==>
      && r.assistant.AssistantItem? && LoopItem(r.assistant)
      && r.assistant.requestIndex == run.requestIndex
      && r.calls == Calls(r.assistant.parts)
      && (forall i | 0 <= i < |r.calls| :: Offers(tools, r.calls[i].name))
      && (r.finish.Some? <==> r.calls == [])
      && (r.finish.Some? ==> r.finish == NoToolFinish(r.assistant.finishReason))
  }

  lemma ResponseIsTurn(k: nat, response: ModelResponse, request: Request)
    requires ResponseFor(response, request)
    ensures LoopItem(TurnItem(k, response))
    ensures forall i | 0 <= i < |Calls(response.parts)| :: Offers(request.tools, Calls(response.parts)[i].name)
  {
    hide PartsOrdered, Offers, Calls;
  }

  /** The paths only a usable turn can lead to. */
  predicate TurnPath(path: FailPath) {
    path in {PathCompleted, PathOutputLimit, PathRefused, PathContentFiltered, PathMaxToolRounds}
  }

  /** Whether a driver result becomes a response of the loop: it succeeded and its usage does not overflow. */
  predicate Counts(run: RunState, result: Result<ModelResponse, DriverFailure>) {
    result.Ok? && SumUsage(run.usage, UsageOf(result.value)).Some?
  }

  /** From the driver's result to a turn: failure mapping, usage, and the finish without tool calls. */
  method Interpret(run: RunState, result: Result<ModelResponse, DriverFailure>, cancelled: bool, ghost request: Request)
    returns (next: RunState, r: Response)
    requires result.Ok? ==> ResponseFor(result.value, request)
    requires run.requestIndex == Min(|run.responses|, U32_MAX)
    ensures Counts(run, result) ==> next == Respond(run, result.value, SumUsage(run.usage, UsageOf(result.value)).value)
    ensures !Counts(run, result) ==> next == run && r.Unusable?
    ensures TurnOk(r, run, request.tools)
    ensures r.Unusable? ==> !TurnPath(r.path) && r.path != PathInteraction && (r.path == PathCancelled ==> cancelled)
    ensures result.Err? ==> r.path == if cancelled then PathCancelled else FailurePath(result.error)
    ensures result.Ok? && !Counts(run, result) ==> r.path == PathInternal
    ensures Counts(run, result) ==>
      var response := result.value;
      r == if Calls(response.parts) == [] && NoToolFinish(response.finishReason).None?
           then Unusable(PathInvalidModelResponse(INVALID_FINISH))
           else Turn(TurnItem(|run.responses|, response), Calls(response.parts),
                     if Calls(response.parts) == [] then NoToolFinish(response.finishReason) else None)
  {
    hide ResponseFor, LoopItem, Calls, SumUsage, Offers;
    next := run;
    if result.Err? {
      var path := MapModelFailure(cancelled, result.error);
      return next, Unusable(path);
    }
    var response := result.value;
    ResponseIsTurn(|run.responses|, response, request);
    var roundUsage := UsageOf(response);
    var sum := SumUsage(run.usage, roundUsage);
    if sum.None? {
      return next, Unusable(PathInternal);
    }
    next := Respond(run, response, sum.value);
    var calls := Calls(response.parts);
    var finish := None;
    if calls == [] {
      finish := NoToolFinish(response.finishReason);
      if finish.None? {
        return next, Unusable(PathInvalidModelResponse(INVALID_FINISH));
      }
    }
    var assistant := AssistantItem(run.requestIndex, response.parts, response.replay, response.finishReason, roundUsage);
    return next, Turn(assistant, calls, finish);
  }

  // ---- Turns ---------------------------------------------------------------------------------------

  lemma BeginFinalKeeps(s: ControlState)
    requires Inv(s)
    ensures Persists(s, Apply(s, BeginFinal).0)
    ensures Apply(s, BeginFinal).0.slot == s.slot && !Apply(s, BeginFinal).0.accepting
  {
    ApplyKeepsInv(s, BeginFinal);
    hide Inv, Evolves, Settle;
  }

  lemma PersistsEvolves(s: ControlState, t: ControlState)
    requires Persists(s, t)
    ensures Evolves(s, t)
  {
    hide Evolves;
  }

  lemma KeepsEvolves(s: ControlState, t: ControlState)
    requires Keeps(s, t)
    ensures Evolves(s, t) && t.accepting == s.accepting
  {
    hide Evolves;
  }

  /** Closes accepting as the loop completes; everything else stays. */
  method CloseCompleted(control: LoopControl, working: WorkingHistory, ghost run: RunState, ghost open: nat,
                        ghost req: LoopRequest, ghost o: LoopOptions)
    returns (discarded: Option<PendingConfig>)
    requires Looping(control, working, run, open, req, o)
    modifies control
    ensures Looping(control, working, run, open, req, o)
    ensures !control.model.accepting
    ensures Evolves(old(control.model), control.model) && control.log == old(control.log) + [BeginFinal]
    ensures discarded == old(control.model.pending)
  {
    hide RunInv, Settled, Inv, LoopRun, Initial, Persists, Apply;
    BeginFinalKeeps(control.model);
    PersistsEvolves(control.model, Apply(control.model, BeginFinal).0);
    hide Evolves;
    RunPersists(run, working.appended, control.model, Apply(control.model, BeginFinal).0, open, req, o);
    discarded := control.BeginFinal();
  }

  /** `assistant` is the latest response, the only one not yet in the history. */
  predicate LatestTurn(assistant: HistoryItem, run: RunState, items: seq<HistoryItem>) {
    var k := |AssistantItems(items)|;
    |run.responses| == k + 1 == |run.issues| && assistant == TurnItem(k, run.responses[k])
  }

  /** An assistant item together with all its results keeps the loop's invariant. */
  lemma TurnAppended(run: RunState, items: seq<HistoryItem>, assistant: HistoryItem, results: seq<HistoryItem>,
                     s: ControlState, open: nat, req: LoopRequest, o: LoopOptions)
    requires RunInv(run, items, s, open, req, o) && Settled(items)
    requires LatestTurn(assistant, run, items) && LoopItem(assistant)
    requires Terminal(results, assistant.requestIndex, Calls(assistant.parts), o.limits.maxToolOutput)
    ensures RunInv(run, items + [assistant] + results, s, open, req, o)
    ensures |AssistantItems(items + [assistant] + results)| == |run.responses|
    ensures |results| == |Calls(assistant.parts)| ==> Settled(items + [assistant] + results)
  {
    hide RunInv, Settled, LoopItem, Terminal, AnsweredInOrder, Calls, AssistantItems;
    RunAssistant(run, items, assistant, s, open, req, o);
    RunResults(run, items + [assistant], results, assistant.requestIndex, Calls(assistant.parts), s, open, req, o);
    if |results| == |Calls(assistant.parts)| {
      TerminalAnswers(results, assistant.requestIndex, Calls(assistant.parts), o.limits.maxToolOutput);
      SettledTurn(items, assistant, results);
    }
  }

  lemma TurnExplains(turn: Response, run: RunState, items: seq<HistoryItem>, s: ControlState, o: LoopOptions, req: LoopRequest, results: seq<HistoryItem>)
    requires turn.Turn? && TurnOk(turn, run, run.config.tools.specs) && LatestTurn(turn.assistant, run, items)
    requires RunInv(run, items, s, 1, req, o)
    requires |AssistantItems(items + [turn.assistant] + results)| == |run.responses|
    requires turn.finish.None? ==> OptionsValid(o) && o.maxToolRounds != 0 && run.toolRounds >= o.maxToolRounds
    ensures PathExplained(if turn.finish.Some? then turn.finish.value else PathMaxToolRounds, run, items + [turn.assistant] + results, o)
  {
    hide HistoryOk, IssuesOk, ConfigCoupled, AssistantItems, Calls, Offers, LoopItem;
  }

  lemma NothingTerminal(requestIndex: nat, calls: seq<ToolCall>, maxOutput: nat)
    ensures Terminal([], requestIndex, calls, maxOutput)
  {
  }

  /** No calls, or too many rounds: the turn settles without running tools. */
  method SettleTurn(control: LoopControl, working: WorkingHistory, run: RunState, turn: Response,
                    req: LoopRequest, o: LoopOptions)
    returns (end: RoundEnd)
    requires Looping(control, working, run, 1, req, o)
    requires turn.Turn? && TurnOk(turn, run, run.config.tools.specs) && LatestTurn(turn.assistant, run, working.appended)
    requires turn.finish.None? ==> OptionsValid(o) && o.maxToolRounds != 0 && run.toolRounds >= o.maxToolRounds
    modifies control, working
    ensures Evolves(old(control.model), control.model)
    ensures control.log == old(control.log) + (if end == Break(PathCompleted) then [BeginFinal] else [])
    ensures end.Break? && Broken(control, working, run, end.path, req, o)
    ensures end.path == if turn.finish.Some? then turn.finish.value else PathMaxToolRounds
    ensures working.appended == old(working.appended) + [turn.assistant]
      + Settlement(run.requestIndex, turn.calls, 0, ToolResultOutcome.Failed, "tool round limit reached", o.limits.maxToolOutput)
  {
    hide RunInv, Settled, LoopControl.Valid, LoopItem, Terminal, AnsweredInOrder, Calls, Offers, Settlement, Broken, AssistantItems, Evolves;
    ghost var items := working.appended;
    EvolvesRefl(control.model);
    working.Append(turn.assistant);
    NothingTerminal(run.requestIndex, turn.calls, o.limits.maxToolOutput);
    SettlementCompletes([], run.requestIndex, turn.calls, ToolResultOutcome.Failed, "tool round limit reached", o.limits.maxToolOutput);
    ghost var results := Settlement(run.requestIndex, turn.calls, 0, ToolResultOutcome.Failed, "tool round limit reached", o.limits.maxToolOutput);
    assert [] + results == results;
    TurnAppended(run, items, turn.assistant, results, control.model, 1, req, o);
    if turn.finish.Some? {
      assert results == [];
      assert items + [turn.assistant] + results == items + [turn.assistant];
      TurnExplains(turn, run, items, control.model, o, req, []);
      if turn.finish.value == PathCompleted {
        var _ := CloseCompleted(control, working, run, 1, req, o);
      }
      BreaksWith(control, working, run, 1, turn.finish.value, req, o);
      return Break(turn.finish.value);
    }
    SettleCalls(working, run.requestIndex, turn.calls, 0, ToolResultOutcome.Failed, "tool round limit reached", o.limits.maxToolOutput);
    TurnExplains(turn, run, items, control.model, o, req, results);
    BreaksWith(control, working, run, 1, PathMaxToolRounds, req, o);
    return Break(PathMaxToolRounds);
  }

  /** The tool batch of a turn, from entering it to the next round. */
  method BatchTurn(control: LoopControl, working: WorkingHistory, run: RunState, turn: Response, snapshot: ExecutionConfig,
                   scripts: seq<CallScript>, req: LoopRequest, o: LoopOptions)
    returns (next: RunState, end: RoundEnd, ghost batch: BatchRecord)
    requires control.model.accepting
    requires Looping(control, working, run, 1, req, o) && OptionsValid(o)
    requires turn.Turn? && TurnOk(turn, run, snapshot.tools.specs) && turn.finish.None? && ScriptsForeign(scripts)
    requires LatestTurn(turn.assistant, run, working.appended)
    requires run.requestIndex == Min(|run.issues| - 1, U32_MAX)
    requires o.maxToolRounds == 0 || run.toolRounds < o.maxToolRounds
    modifies control, working
    ensures Evolves(old(control.model), control.model)
    ensures batch.log == old(control.log) && control.log == BatchLog(batch, scripts, req.config)
    ensures RoundEnded(control, working, next, end, req, o) && end == BatchRoundEnd(batch.end)
    ensures next.responses == run.responses && next.issues == run.issues && next.taken == run.taken && next.batches == run.batches + 1
    ensures working.appended == old(working.appended) + [turn.assistant] + batch.results
    ensures BatchOk(batch, run.requestIndex, turn.calls, snapshot.hasPolicy, scripts, Batch(o), req.config)
    ensures CallsAsk(batch.traces, old(control.model), control.model)
  {
    hide RunInv, Settled, LoopControl.Valid, LoopItem, Terminal, AnsweredInOrder, Calls, Offers, Broken, Inv, Keeps, Evolves,
         ScriptsForeign, Stopped, BatchOk, BatchLog, CallsAsk, AssistantItems;
    ghost var items, before := working.appended, control.model;
    RunEnters(run, items, before, req, o);
    next := EnterBatch(run);
    working.Append(turn.assistant);
    var ended;
    ended, batch := RunToolBatch(control, working, run.requestIndex, snapshot.tools, snapshot.hasPolicy, turn.calls, scripts, Batch(o));
    BatchFacts(batch, run.requestIndex, turn.calls, snapshot.hasPolicy, scripts, Batch(o), req.config);
    KeepsEvolves(before, control.model);
    RunKept(next, items, before, control.model, 0, req, o);
    TurnAppended(next, items, turn.assistant, batch.results, control.model, 0, req, o);
    match ended {
      case BatchSuspended =>
        SuspendsIn(control, working, next, req, o);
        end := RoundSuspended;
      case BatchUnwinds =>
        InvUnsealed(next, working.appended, control.model, 0, req, o);
        end := RoundPanics;
      case BatchEnded(path) =>
        BreaksWith(control, working, next, 0, path, req, o);
        end := Break(path);
      case BatchDone =>
        RunFrame(next, next.(requestIndex := Min(next.requestIndex + 1, U32_MAX)), working.appended, control.model, 0, req, o);
        CountedIssues(next, working.appended, control.model, 0, req, o);
        next := next.(requestIndex := Min(next.requestIndex + 1, U32_MAX));
        end := Again;
    }
  }

  lemma BatchFacts(b: BatchRecord, requestIndex: nat, calls: seq<ToolCall>, hasPolicy: bool, scripts: seq<CallScript>, o: BatchOptions,
                   config: ExecutionConfig)
    requires BatchOk(b, requestIndex, calls, hasPolicy, scripts, o, config)
    ensures Terminal(b.results, requestIndex, calls, o.maxOutput)
    ensures b.end.BatchDone? || b.end.BatchEnded? ==> |b.results| == |calls|
    ensures b.end.BatchEnded? ==> b.end.path in {PathCancelled, PathDeadline, PathPolicy, PathInternal}
  {
    hide Terminal, InterruptedAt, CallsJustified, CallsChained, Justified, BatchLog, TokenAt;
  }

  lemma CountedIssues(run: RunState, items: seq<HistoryItem>, s: ControlState, open: nat, req: LoopRequest, o: LoopOptions)
    requires RunInv(run, items, s, open, req, o)
    ensures |run.issues| == run.batches + open
  {
  }

  lemma SuspendsIn(control: LoopControl, working: WorkingHistory, run: RunState, req: LoopRequest, o: LoopOptions)
    requires control.Valid() && control.initial == req.config && control.published == []
    requires RunInv(run, working.appended, control.model, 0, req, o)
    ensures RoundEnded(control, working, run, RoundSuspended, req, o)
  {
    hide RunInv, LoopControl.Valid, AssistantItems;
    InvUnsealed(run, working.appended, control.model, 0, req, o);
  }

  // ---- The loop ---------------------------------------------------------------------------------------

  /** What a served request did, from its call to the end of its round. */
  ghost predicate ServeTold(rec: RoundRecord, script: RoundScript, run: RunState, next: RunState, before: seq<HistoryItem>,
                            after: seq<HistoryItem>, request: ModelRequest, requestIndex: nat, log: seq<Op>, req: LoopRequest, o: LoopOptions) {
    && rec.call.Some? && rec.call.value.request == request
    && CallKept(rec.call.value, o.limits, o.codec, o.retry, script.model)
    && rec.heard == (if Heard(rec, script) then log + script.during else [])
    && (rec.response.Some? ==> Heard(rec, script) && rec.call.value.result == Ok(rec.response.value))
    && next.taken == run.taken && next.issues == run.issues
    && next.responses == run.responses + (if rec.response.Some? then [rec.response.value] else [])
    && next.batches == run.batches + (if rec.batch.Some? then 1 else 0)
    && after == before + rec.turn
    && ServedTurn(rec, script, requestIndex, req, o)
    && ServedEnd(rec, script, req)
    && Responds(rec, script, run.responses) && LimitDecides(rec, run.batches, o)
  }

  /** The turn of a served request. */
  ghost predicate ServedTurn(rec: RoundRecord, script: RoundScript, requestIndex: nat, req: LoopRequest, o: LoopOptions) {
    if rec.turn == [] then rec.batch.None?
    else
      && rec.response.Some?
      && var calls := Calls(rec.response.value.parts);
         && rec.turn[0] == AssistantItem(requestIndex, rec.response.value.parts, rec.response.value.replay,
                                         rec.response.value.finishReason, UsageOf(rec.response.value))
         && (rec.batch.Some? ==>
               && calls != [] && rec.turn[1..] == rec.batch.value.results && rec.batch.value.log == rec.heard
               && BatchOk(rec.batch.value, requestIndex, calls, rec.snapshot.hasPolicy, script.tools, Batch(o), req.config))
         && (rec.batch.None? ==>
               rec.turn[1..] == Settlement(requestIndex, calls, 0, ToolResultOutcome.Failed, "tool round limit reached", o.limits.maxToolOutput))
  }

  /** The end of a served request, from the driver's result on. */
  ghost predicate ServedEnd(rec: RoundRecord, script: RoundScript, req: LoopRequest)
    requires rec.call.Some?
  {
    if CallUnwinds(rec.call.value, script.model) then rec.end == RoundPanics
    else if rec.call.value.result.Err? then rec.end == FailedCallEnd(req.config, rec.heard, rec.call.value.result.error)
    else if rec.response.None? then rec.end == Break(PathInternal)
    else if rec.turn == [] then
      && Calls(rec.response.value.parts) == [] && NoToolFinish(rec.response.value.finishReason).None?
      && rec.end == Break(PathInvalidModelResponse(INVALID_FINISH))
    else if Calls(rec.response.value.parts) == [] then
      NoToolFinish(rec.response.value.finishReason).Some? && rec.end == Break(NoToolFinish(rec.response.value.finishReason).value)
    else if rec.batch.None? then rec.end == Break(PathMaxToolRounds)
    else rec.end == BatchRoundEnd(rec.batch.value.end)
  }

  /** The log a served request leaves. */
  function ServedLog(rec: RoundRecord, script: RoundScript, log: seq<Op>, req: LoopRequest): seq<Op> {
    if !Heard(rec, script) then log
    else if rec.batch.None? then rec.heard + (if rec.end == Break(PathCompleted) then [BeginFinal] else [])
    else BatchLog(rec.batch.value, script.tools, req.config)
  }

  /** The model call of an issued request, and what its turn leads to. */
  method ServeRequest(control: LoopControl, sink: LoopEventSink, working: WorkingHistory, run: RunState, request: ModelRequest,
                      snapshot: ExecutionConfig, script: RoundScript, req: LoopRequest, o: LoopOptions, ghost start: RoundRecord)
    returns (next: RunState, end: RoundEnd, ghost rec: RoundRecord)
    requires Looping(control, working, run, 1, req, o) && OptionsValid(o) && RoundForeign(script)
    requires control.model.accepting
    requires run.requestIndex == Min(|run.issues| - 1, U32_MAX) && snapshot == run.config && request.tools == snapshot.tools.specs
    requires |AssistantItems(working.appended)| == |run.responses| == |run.issues| - 1
    requires snapshot == run.issues[|run.issues| - 1].config && start.snapshot == snapshot
    requires start.call.None? && start.response.None? && start.turn == [] && start.batch.None? && start.heard == []
    requires sink.Valid()
    modifies control, working, sink
    ensures sink.Valid() && RoundEnded(control, working, next, end, req, o) && rec.end == end
    ensures Evolves(old(control.model), control.model) && control.log == ServedLog(rec, script, old(control.log), req)
    ensures rec == start.(call := rec.call, heard := rec.heard, response := rec.response, turn := rec.turn, batch := rec.batch, end := rec.end)
    ensures ServeTold(rec, script, run, next, old(working.appended), working.appended, request, run.requestIndex, old(control.log), req, o)
    ensures rec.call.Some?
    ensures sink.emitted == old(sink.emitted) + Deltas(run.requestIndex, rec.call.value.forwarded)
    ensures sink.recorded == old(sink.recorded) + rec.call.value.recorded
    ensures RoundAsks(rec, old(control.model), control.model)
  {
    hide RunInv, Settled, LoopControl.Valid, LoopEventSink.Valid, Broken, CallContract, CallKept, CallUnwinds, ResponseFor, Stopped, AllForeign,
         ScriptsForeign, AssistantItems, CallsAsk, Evolves, Looping, RoundEnded, ServedEnd, ServedTurn, TokenAt, BatchLog,
         SumUsage, TotalUsage;
    var call, unwinds := RunModel(sink, run.requestIndex, request, o.limits, o.codec, o.retry, script.model);
    rec := start.(call := Some(call));
    EvolvesRefl(control.model);
    if unwinds {
      LoopingUnsealed(control, working, run, 1, req, o);
      UnsealedPanics(control, working, run, req, o);
      rec := rec.(end := RoundPanics);
      NothingAdded(run, working.appended);
      ServedNothing(rec, script, run.requestIndex, req, o);
      return run, RoundPanics, rec;
    }
    CallIsFor(call, o, script.model, Request(snapshot.tools.specs, o.limits, o.codec));
    ghost var log := control.log;
    Await(control, working, run, 1, script.during, req, o);
    ghost var awaited := control.model;
    rec := rec.(heard := control.log);
    HeardNow(control, working, run, req, o);
    next, end, rec := UseResult(control, working, run, snapshot, script, req, o, rec, call, log);
    if rec.batch.Some? {
      EvolvesRefl(control.model);
      CallsAskLasts(rec.batch.value.traces, old(control.model), awaited, control.model, control.model);
    }
    EvolvesTrans(old(control.model), awaited, control.model);
  }

  /** What becomes of the driver's result. */
  method UseResult(control: LoopControl, working: WorkingHistory, run: RunState, snapshot: ExecutionConfig, script: RoundScript,
                   req: LoopRequest, o: LoopOptions, ghost start: RoundRecord, call: CallRecord, ghost log: seq<Op>)
    returns (next: RunState, end: RoundEnd, ghost rec: RoundRecord)
    requires Looping(control, working, run, 1, req, o) && OptionsValid(o) && ScriptsForeign(script.tools)
    requires control.model.accepting
    requires run.requestIndex == Min(|run.issues| - 1, U32_MAX) && snapshot == run.config
    requires |AssistantItems(working.appended)| == |run.responses| == |run.issues| - 1
    requires snapshot == run.issues[|run.issues| - 1].config && start.snapshot == snapshot
    requires start.call == Some(call) && start.response.None? && start.turn == [] && start.batch.None?
    requires CallKept(call, o.limits, o.codec, o.retry, script.model) && !CallUnwinds(call, script.model)
    requires call.request.tools == snapshot.tools.specs && start.heard == log + script.during
    requires control.token == TokenAt(req.config, start.heard) && control.log == start.heard
    requires forall r: ModelResponse :: TotalUsage(run.responses + [r]) == SumUsage(run.usage, UsageOf(r))
    modifies control, working
    ensures RoundEnded(control, working, next, end, req, o) && rec.end == end
    ensures Evolves(old(control.model), control.model) && control.log == ServedLog(rec, script, log, req)
    ensures rec == start.(response := rec.response, turn := rec.turn, batch := rec.batch, end := rec.end)
    ensures ServeTold(rec, script, run, next, old(working.appended), working.appended, call.request, run.requestIndex, log, req, o)
    ensures RoundAsks(rec, old(control.model), control.model)
  {
    hide RunInv, Settled, LoopControl.Valid, Broken, CallKept, CallUnwinds, ResponseFor, Stopped, ScriptsForeign, TurnOk, AssistantItems, Calls,
         SumUsage, TotalUsage, BatchOk, CallsAsk, Evolves, Settlement, Looping, RoundEnded, LatestTurn, ServedEnd, ServedTurn, TokenAt, BatchLog,
         Responds, LimitDecides;
    rec := start;
    EvolvesRefl(control.model);
    NothingAdded(run, working.appended);
    ghost var catalog := Request(snapshot.tools.specs, o.limits, o.codec);
    CallIsFor(call, o, script.model, catalog);
    var turn;
    next, turn := Interpret(run, call.result, control.token, catalog);
    if Counts(run, call.result) {
      rec := rec.(response := Some(call.result.value));
      LoopingResponds(control, working, run, call.result.value, next.usage, req, o);
    }
    TurnFrame(turn, run, next, snapshot.tools.specs);
    TurnIs(turn, snapshot.tools.specs, next);
    if turn.Unusable? {
      NotExplained(turn.path, next, working.appended, o);
      LoopingNotPublished(control, working, next, 1, req, o);
      BreaksWith(control, working, next, 1, turn.path, req, o);
      BrokenEnds(control, working, next, turn.path, req, o);
      rec := rec.(end := Break(turn.path));
      ServedNothing(rec, script, run.requestIndex, req, o);
      ResultResponds(rec, call, script, run);
      LimitIs(rec, run, o);
      return next, Break(turn.path), rec;
    }
    TurnIsLatest(turn.assistant, next, working.appended, call.result.value);
    ghost var batch, items;
    next, end, items, batch := FinishTurn(control, working, next, turn, snapshot, script.tools, req, o);
    rec := rec.(turn := items, batch := batch, end := end);
    ServedSomething(rec, script, turn, run.requestIndex, req, o);
    ResultResponds(rec, call, script, run);
    LimitIs(rec, run, o);
  }

  lemma ResultResponds(rec: RoundRecord, call: CallRecord, script: RoundScript, run: RunState)
    requires rec.call == Some(call) && (rec.response.Some? <==> Counts(run, call.result))
    requires forall r: ModelResponse :: TotalUsage(run.responses + [r]) == SumUsage(run.usage, UsageOf(r))
    ensures Responds(rec, script, run.responses)
  {
    hide TotalUsage, SumUsage, CallUnwinds;
  }

  lemma LimitIs(rec: RoundRecord, run: RunState, o: LoopOptions)
    requires rec.response.Some? && Calls(rec.response.value.parts) != [] ==>
      (rec.batch.None? <==> o.maxToolRounds != 0 && run.batches >= o.maxToolRounds)
    ensures LimitDecides(rec, run.batches, o)
  {
    hide Calls;
  }

  lemma HeardNow(control: LoopControl, working: WorkingHistory, run: RunState, req: LoopRequest, o: LoopOptions)
    requires Looping(control, working, run, 1, req, o)
    ensures control.token == TokenAt(req.config, control.log)
    ensures forall r: ModelResponse :: TotalUsage(run.responses + [r]) == SumUsage(run.usage, UsageOf(r))
  {
    hide TokenAt, SumUsage, Settled, LoopControl.Valid;
    LogIsState(control);
    forall r: ModelResponse ensures TotalUsage(run.responses + [r]) == SumUsage(run.usage, UsageOf(r)) {
      assert (run.responses + [r])[..|run.responses|] == run.responses;
    }
  }

  lemma LoopingResponds(control: LoopControl, working: WorkingHistory, run: RunState, response: ModelResponse, usage: Usage,
                        req: LoopRequest, o: LoopOptions)
    requires Looping(control, working, run, 1, req, o)
    requires |run.responses| == |AssistantItems(working.appended)| < |run.issues|
    requires SumUsage(run.usage, UsageOf(response)) == Some(usage)
    requires ResponseFor(response, RequestOf(run.issues[|run.responses|], o))
    ensures Looping(control, working, Respond(run, response, usage), 1, req, o)
  {
    hide RunInv, Settled, LoopControl.Valid, AssistantItems, SumUsage, ResponseFor;
    RunResponds(run, working.appended, response, usage, control.model, 1, req, o);
  }

  lemma LoopingNotPublished(control: LoopControl, working: WorkingHistory, run: RunState, open: nat, req: LoopRequest, o: LoopOptions)
    requires Looping(control, working, run, open, req, o)
    ensures control.Valid()
  {
    hide RunInv, Settled, LoopControl.Valid;
  }

  lemma NotExplained(path: FailPath, run: RunState, items: seq<HistoryItem>, o: LoopOptions)
    requires !TurnPath(path)
    ensures PathExplained(path, run, items, o) && path != PathCompleted
  {
    hide LastTurn;
  }

  lemma BrokenEnds(control: LoopControl, working: WorkingHistory, run: RunState, path: FailPath, req: LoopRequest, o: LoopOptions)
    requires Broken(control, working, run, path, req, o)
    ensures RoundEnded(control, working, run, Break(path), req, o)
  {
    hide Broken;
  }

  lemma TurnIsLatest(assistant: HistoryItem, run: RunState, items: seq<HistoryItem>, response: ModelResponse)
    requires run.responses != [] && |AssistantItems(items)| == |run.responses| - 1 == |run.issues| - 1
    requires run.responses[|run.responses| - 1] == response && assistant == TurnItem(|run.responses| - 1, response)
    ensures LatestTurn(assistant, run, items)
  {
    hide AssistantItems;
  }

  /** A served request without a turn. */
  lemma ServedNothing(rec: RoundRecord, script: RoundScript, requestIndex: nat, req: LoopRequest, o: LoopOptions)
    requires rec.call.Some? && rec.turn == [] && rec.batch.None?
    requires if CallUnwinds(rec.call.value, script.model) then rec.end == RoundPanics
             else if rec.call.value.result.Err? then rec.end == FailedCallEnd(req.config, rec.heard, rec.call.value.result.error)
             else if rec.response.None? then rec.end == Break(PathInternal)
             else Calls(rec.response.value.parts) == [] && NoToolFinish(rec.response.value.finishReason).None?
                  && rec.end == Break(PathInvalidModelResponse(INVALID_FINISH))
    ensures ServedTurn(rec, script, requestIndex, req, o) && ServedEnd(rec, script, req)
  {
    hide CallUnwinds, Calls;
  }

  /** A served request whose turn entered the history. */
  lemma ServedSomething(rec: RoundRecord, script: RoundScript, turn: Response, requestIndex: nat, req: LoopRequest, o: LoopOptions)
    requires rec.call.Some? && !CallUnwinds(rec.call.value, script.model) && rec.call.value.result.Ok? && rec.response.Some?
    requires turn.Turn? && turn.calls == Calls(rec.response.value.parts)
    requires turn.assistant == AssistantItem(requestIndex, rec.response.value.parts, rec.response.value.replay,
                                             rec.response.value.finishReason, UsageOf(rec.response.value))
    requires turn.finish == if turn.calls == [] then NoToolFinish(rec.response.value.finishReason) else None
    requires rec.turn != [] && rec.turn[0] == turn.assistant
    requires rec.batch.Some? ==>
      && turn.calls != [] && rec.end == BatchRoundEnd(rec.batch.value.end) && rec.turn[1..] == rec.batch.value.results
      && rec.batch.value.log == rec.heard
      && BatchOk(rec.batch.value, requestIndex, turn.calls, rec.snapshot.hasPolicy, script.tools, Batch(o), req.config)
    requires rec.batch.None? ==>
      && rec.end == Break(if turn.finish.Some? then turn.finish.value else PathMaxToolRounds)
      && (turn.finish.Some? <==> turn.calls == [])
      && rec.turn[1..] == Settlement(requestIndex, turn.calls, 0, ToolResultOutcome.Failed, "tool round limit reached", o.limits.maxToolOutput)
    ensures ServedTurn(rec, script, requestIndex, req, o) && ServedEnd(rec, script, req)
  {
    hide CallUnwinds, Calls, BatchOk, Settlement;
  }

  /** A usable turn: settled without running tools, or with its batch. */
  method FinishTurn(control: LoopControl, working: WorkingHistory, run: RunState, turn: Response, snapshot: ExecutionConfig,
                    scripts: seq<CallScript>, req: LoopRequest, o: LoopOptions)
    returns (next: RunState, end: RoundEnd, ghost items: seq<HistoryItem>, ghost batch: Option<BatchRecord>)
    requires control.model.accepting
    requires Looping(control, working, run, 1, req, o) && OptionsValid(o)
    requires turn.Turn? && TurnOk(turn, run, snapshot.tools.specs) && ScriptsForeign(scripts) && snapshot == run.config
    requires LatestTurn(turn.assistant, run, working.appended)
    requires run.requestIndex == Min(|run.issues| - 1, U32_MAX)
    modifies control, working
    ensures Evolves(old(control.model), control.model)
    ensures batch.Some? ==> batch.value.log == old(control.log) && control.log == BatchLog(batch.value, scripts, req.config)
    ensures batch.None? ==> control.log == old(control.log) + (if end == Break(PathCompleted) then [BeginFinal] else [])
    ensures turn.calls != [] ==> (batch.None? <==> o.maxToolRounds != 0 && run.batches >= o.maxToolRounds)
    ensures RoundEnded(control, working, next, end, req, o)
    ensures next.responses == run.responses && next.issues == run.issues && next.taken == run.taken
    ensures next.batches == run.batches + (if batch.Some? then 1 else 0)
    ensures items != [] && items[0] == turn.assistant && working.appended == old(working.appended) + items
    ensures batch.Some? ==>
      && turn.calls != [] && end == BatchRoundEnd(batch.value.end) && items[1..] == batch.value.results
      && BatchOk(batch.value, run.requestIndex, turn.calls, snapshot.hasPolicy, scripts, Batch(o), req.config)
      && CallsAsk(batch.value.traces, old(control.model), control.model)
    ensures batch.None? ==>
      && end == Break(if turn.finish.Some? then turn.finish.value else PathMaxToolRounds)
      && (turn.finish.Some? <==> turn.calls == [])
      && items[1..] == Settlement(run.requestIndex, turn.calls, 0, ToolResultOutcome.Failed, "tool round limit reached", o.limits.maxToolOutput)
  {
    hide RunInv, Settled, LoopControl.Valid, Broken, Stopped, TurnOk, AssistantItems, Calls, BatchOk, CallsAsk, Evolves, Settlement,
         ScriptsForeign, Unsealed, LatestTurn, BatchLog;
    next := run;
    TurnCalls(turn, run, snapshot.tools.specs);
    RoundsAreBatches(run, working.appended, control.model, 1, req, o);
    ghost var results;
    if turn.finish.Some? || (o.maxToolRounds != 0 && run.toolRounds >= o.maxToolRounds) {
      end := SettleTurn(control, working, run, turn, req, o);
      results := Settlement(run.requestIndex, turn.calls, 0, ToolResultOutcome.Failed, "tool round limit reached", o.limits.maxToolOutput);
      batch := None;
    } else {
      ghost var done;
      next, end, done := BatchTurn(control, working, run, turn, snapshot, scripts, req, o);
      results, batch := done.results, Some(done);
    }
    items := [turn.assistant] + results;
    TurnJoins(old(working.appended), turn.assistant, results);
  }

  /** The saturating counter decides the round limit as the true number of batches does. */
  lemma RoundsAreBatches(run: RunState, items: seq<HistoryItem>, s: ControlState, open: nat, req: LoopRequest, o: LoopOptions)
    requires RunInv(run, items, s, open, req, o) && OptionsValid(o)
    ensures run.toolRounds >= o.maxToolRounds <==> run.batches >= o.maxToolRounds
  {
    hide HistoryOk, IssuesOk, ConfigCoupled, Responded, ResponsesFit;
  }

  lemma NothingAdded(run: RunState, items: seq<HistoryItem>)
    ensures run.responses + [] == run.responses && items + [] == items
  {
  }

  lemma TurnJoins(items: seq<HistoryItem>, assistant: HistoryItem, results: seq<HistoryItem>)
    ensures (items + [assistant]) + results == items + ([assistant] + results)
    ensures ([assistant] + results)[1..] == results
  {
  }

  /** What a turn says about the response it came from. */
  lemma TurnIs(turn: Response, tools: seq<ToolSpec>, run: RunState)
    requires TurnOk(turn, run, tools)
    ensures turn.Turn? ==> turn.assistant.AssistantItem? && turn.calls == Calls(turn.assistant.parts)
  {
  }

  lemma TurnCalls(turn: Response, run: RunState, tools: seq<ToolSpec>)
    requires TurnOk(turn, run, tools) && turn.Turn?
    ensures turn.finish.Some? <==> turn.calls == []
  {
  }

  lemma CallIsFor(call: CallRecord, o: LoopOptions, script: ModelScript, request: Request)
    requires CallKept(call, o.limits, o.codec, o.retry, script) && request == Request(call.request.tools, o.limits, o.codec)
    ensures call.result.Ok? ==> ResponseFor(call.result.value, request)
  {
  }

  lemma TurnFrame(turn: Response, run: RunState, next: RunState, tools: seq<ToolSpec>)
    requires TurnOk(turn, run, tools) && next.requestIndex == run.requestIndex
    ensures TurnOk(turn, next, tools)
  {
  }

  /** A round that never reached the issue boundary, or whose build failed. */
  lemma {:induction false} UnissuedRound(rec: RoundRecord, step: PromptStep, script: RoundScript, run: RunState, mid: RunState, next: RunState,
                      before: seq<HistoryItem>, after: seq<HistoryItem>, req: LoopRequest, o: LoopOptions)
    requires PromptTold(rec, step, script, run, mid, before, after, req, o)
    requires next.taken == mid.taken && next.issues == mid.issues && next.responses == mid.responses && next.batches == mid.batches
    requires step.Prepared? ==> !WellFormed(step.messages)
    ensures var told := if step.Prepared? then rec.(end := Break(PathPrompt)) else rec;
            && RoundTold(told, script, run, next, before, after, req, o)
            && EndLog(told, script, req) == EndLog(rec, script, req) && RoundEvents(told) == [] && RoundLost(told) == 0
  {
    hide TokenAt, TakeFollows, Serves, IsLatest, PortFollows, PortLog, PromptPort, WellFormed, SteeringItems, CallKept, CallUnwinds, Delivered;
    assert PromptLog(rec.(end := Break(PathPrompt)), script, req) == PromptLog(rec, script, req);
    hide PromptLog;
    assert RoundInputs(rec.(end := Break(PathPrompt)), script) == RoundInputs(rec, script);
    hide RoundInputs;
    assert run.issues + [] == run.issues && run.responses + [] == run.responses;
    assert SteeringItems(RoundInputs(rec, script)) + [] == SteeringItems(RoundInputs(rec, script));
  }

  /** A round that issued and served its request. */
  lemma {:induction false} ServedRound(rec: RoundRecord, served: RoundRecord, step: PromptStep, script: RoundScript, run: RunState, mid: RunState, issued: RunState,
                    next: RunState, before: seq<HistoryItem>, between: seq<HistoryItem>, after: seq<HistoryItem>, issue: Issue,
                    request: ModelRequest, req: LoopRequest, o: LoopOptions)
    requires PromptTold(rec, step, script, run, mid, before, between, req, o) && step.Prepared? && WellFormed(step.messages)
    requires issued.taken == mid.taken && issued.issues == mid.issues + [issue]
    requires issued.responses == mid.responses && issued.batches == mid.batches
    requires issue.messages == step.messages && issue.config == step.snapshot && issue.preparedFrom == step.view == between
    requires issue.inputs == mid.taken && issue.revision == NextRevision(mid) && issue.requestIndex == Min(|mid.issues|, U32_MAX)
    requires request == ModelRequest(step.messages, step.snapshot.tools.specs)
    requires served == rec.(issue := Some(issue), call := served.call, heard := served.heard, response := served.response, turn := served.turn,
                            batch := served.batch, end := served.end)
    requires ServeTold(served, script, issued, next, between, after, request, issue.requestIndex, IssuedLog(served), req, o)
    ensures RoundTold(served, script, run, next, before, after, req, o)
    ensures EndLog(served, script, req) == ServedLog(served, script, IssuedLog(served), req)
  {
    hide TokenAt, TakeFollows, Serves, IsLatest, PortFollows, PortLog, PromptPort, WellFormed, SteeringItems, CallKept, CallUnwinds, Delivered, BatchOk,
         BatchLog, Settlement, Calls, TookAny, TakePanics;
    assert PromptLog(served, script, req) == PromptLog(rec, script, req);
    hide PromptLog;
    assert RoundInputs(served, script) == RoundInputs(rec, script);
    hide RoundInputs;
    assert (before + SteeringItems(RoundInputs(rec, script))) + served.turn == before + (SteeringItems(RoundInputs(rec, script)) + served.turn);
  }

  /** One iteration of the loop, and the record of everything it did. */
  method Round(control: LoopControl, sink: LoopEventSink, working: WorkingHistory, run: RunState, script: RoundScript,
               req: LoopRequest, o: LoopOptions)
    returns (next: RunState, end: RoundEnd, ghost rec: RoundRecord)
    requires AtTop(control, working, run, req, o) && OptionsValid(o) && RoundForeign(script) && sink.Valid()
    modifies control, working, sink
    ensures sink.Valid() && RoundEnded(control, working, next, end, req, o) && rec.end == end
    ensures Evolves(old(control.model), control.model)
    ensures rec.topLog == old(control.log) + script.before && control.log == EndLog(rec, script, req)
    ensures sink.emitted == old(sink.emitted) + RoundEvents(rec) && sink.recorded == old(sink.recorded) + RoundLost(rec)
    ensures RoundTold(rec, script, run, next, old(working.appended), working.appended, req, o)
    ensures RoundAsks(rec, old(control.model), control.model)
  {
    hide RunInv, Settled, LoopControl.Valid, LoopEventSink.Valid, Broken, Stopped, PromptFor, PromptAcceptable, Unsealed, AssistantItems,
         PromptTold, ServeTold, RoundTold, Evolves, WellFormed, RoundForeign, CallsAsk, EndLog, ServedLog;
    var step;
    next, step, rec := RoundPrompt(control, working, run, script, req, o);
    ghost var mid, items, prompted := next, working.appended, control.model;
    NothingYet(rec, step, script, run, mid, old(working.appended), items, req, o);
    match step {
      case Ends(early) =>
        UnissuedRound(rec, step, script, run, mid, next, old(working.appended), items, req, o);
        end := early;
      case Stale =>
        UnissuedRound(rec, step, script, run, mid, next, old(working.appended), items, req, o);
        end := Again;
      case Prepared(messages, snapshot, view) =>
        ghost var log := control.log;
        var request;
        next, request := IssueRequest(control, working, next, messages, snapshot, view, req, o);
        ghost var issuedAt := control.model;
        EvolvesTrans(old(control.model), prompted, issuedAt);
        if request.None? {
          UnissuedRound(rec, step, script, run, mid, next, old(working.appended), items, req, o);
          rec := rec.(end := Break(PathPrompt));
          return next, Break(PathPrompt), rec;
        }
        ghost var issue := next.issues[|next.issues| - 1];
        ghost var issued := next;
        ghost var start := rec.(issue := Some(issue));
        ghost var served;
        LogAtIssue(rec, issue, script, req);
        next, end, served := ServeRequest(control, sink, working, next, request.value, snapshot, script, req, o, start);
        ServedRound(rec, served, step, script, run, mid, issued, next, old(working.appended), items, working.appended, issue,
                    request.value, req, o);
        AsksLast(served, old(control.model), issuedAt, control.model);
        EvolvesTrans(old(control.model), issuedAt, control.model);
        rec := served;
    }
  }

  lemma LogAtIssue(rec: RoundRecord, issue: Issue, script: RoundScript, req: LoopRequest)
    requires rec.first.Some? && rec.prompt.Some? && rec.second.Some? && rec.issue.None?
    ensures IssuedLog(rec.(issue := Some(issue))) == EndLog(rec, script, req) + [CommitRevision(issue.revision)]
  {
    hide PromptLog;
  }

  /** Before the issue boundary nothing has been issued, served or asked. */
  lemma NothingYet(rec: RoundRecord, step: PromptStep, script: RoundScript, run: RunState, mid: RunState, before: seq<HistoryItem>,
                   after: seq<HistoryItem>, req: LoopRequest, o: LoopOptions)
    requires PromptTold(rec, step, script, run, mid, before, after, req, o)
    ensures rec.call.None? && rec.response.None? && rec.turn == [] && rec.batch.None? && rec.heard == []
    ensures !step.Prepared? ==> rec.end == (if step.Ends? then step.end else Again)
    ensures rec.issue.None? && (step.Prepared? ==> rec.snapshot == step.snapshot && rec.second.Some? && rec.prompt.Some? && rec.first.Some?)
    ensures mid.issues == run.issues && mid.responses == run.responses && mid.batches == run.batches
  {
    hide TopFollows, EndFollows, RoundInputs, SteeringItems, PortFollows, PromptPort, PromptLog, TakeFollows, Serves, TakePanics, TookAny, Delivered;
  }

  lemma AsksLast(rec: RoundRecord, start: ControlState, before: ControlState, now: ControlState)
    requires RoundAsks(rec, before, now) && Evolves(start, before)
    ensures RoundAsks(rec, start, now)
  {
    hide Evolves, CallsAsk;
    EvolvesRefl(now);
    if rec.batch.Some? {
      CallsAskLasts(rec.batch.value.traces, start, before, now, now);
    }
  }

  /** Why a run stops where it does: every script round went on, or the last executed one says so. */
  ghost predicate StopsBecause(records: seq<RoundRecord>, script: seq<RoundScript>, end: RoundEnd) {
    if records == [] || records[|records| - 1].end == Again then |records| == |script| && end == RoundSuspended
    else end == records[|records| - 1].end
  }

  /**
   * `run_loop_inner` up to its `break`, over any script: the records say what
   * every executed round did, and the run's trace and history are exactly
   * theirs. It suspends only when the script ends or a batch waits for good.
   */
  method RunRounds(control: LoopControl, sink: LoopEventSink, working: WorkingHistory, script: seq<RoundScript>,
                   req: LoopRequest, o: LoopOptions)
    returns (run: RunState, end: RoundEnd, ghost records: seq<RoundRecord>)
    requires OptionsValid(o) && sink.Valid() && (forall i | 0 <= i < |script| :: RoundForeign(script[i]))
    requires control.Valid() && control.initial == req.config && control.published == [] && control.log == []
    requires working.base == req.history && working.appended == []
    modifies control, working, sink
    ensures sink.Valid() && !end.Again? && RoundEnded(control, working, run, end, req, o)
    ensures Chronicle(records, script, run, working.appended, req, o) && StopsBecause(records, script, end)
    ensures RunAsks(records, Initial(req.config), control.model)
    ensures control.log == RunLog(records, script, req)
    ensures sink.emitted == old(sink.emitted) + EventsOfRun(records) && sink.recorded == old(sink.recorded) + LostOfRun(records)
    ensures !end.RoundPanics? ==> TraceMeans(run, working.appended, control.model, req, o)
  {
    hide TraceMeans, RunInv, Settled, LoopControl.Valid, LoopEventSink.Valid, Broken, Stopped, RoundForeign, Unsealed, AssistantItems, Chronicle, RoundTold,
         RoundAsks, RunAsks, Evolves, EndLog, RoundEvents, RoundLost;
    FreshControl(control, req);
    run := Begin(req);
    records := [];
    RunBegins(req, o);
    ChronicleBegins(script, req, o);
    NothingAsked(control.model);
    EvolvesRefl(control.model);
    working.Append(UserItem(PromptInput, req.input));
    assert [] + [UserItem(PromptInput, req.input)] == [UserItem(PromptInput, req.input)];
    for i := 0 to |script|
      invariant sink.Valid() && AtTop(control, working, run, req, o)
      invariant |records| == i && (records != [] ==> records[i - 1].end == Again)
      invariant Chronicle(records, script, run, working.appended, req, o)
      invariant RunAsks(records, Initial(req.config), control.model) && Evolves(Initial(req.config), control.model)
      invariant control.log == RunLog(records, script, req)
      invariant sink.emitted == old(sink.emitted) + EventsOfRun(records) && sink.recorded == old(sink.recorded) + LostOfRun(records)
    {
      ghost var before, items, was := control.model, working.appended, run;
      ghost var rec;
      run, end, rec := Round(control, sink, working, run, script[i], req, o);
      ChronicleGoesOn(records, rec, script, was, run, items, working.appended, req, o);
      RunAsksGoesOn(records, rec, Initial(req.config), before, control.model);
      EvolvesTrans(Initial(req.config), before, control.model);
      EventsGoOn(records, rec, old(sink.emitted));
      records := records + [rec];
      if !end.Again? {
        EndedMeans(control, working, run, end, req, o);
        return run, end, records;
      }
    }
    AtTopSuspends(control, working, run, req, o);
    EndedMeans(control, working, run, RoundSuspended, req, o);
    return run, RoundSuspended, records;
  }

  /** What every run's trace satisfies, finished or not. */
  ghost predicate TraceMeans(run: RunState, items: seq<HistoryItem>, s: ControlState, req: LoopRequest, o: LoopOptions) {
    && RequestsNumbered(run) && RoundsBounded(run, o) && RevisionsServe(run, s) && PromptsFresh(run, req.history)
    && HistoryOk(items, run.taken, req.input, o.limits.maxToolOutput)
    && Responded(run, items) && ResponsesFit(run, o)
  }

  lemma StoppedMeans(run: RunState, items: seq<HistoryItem>, s: ControlState, req: LoopRequest, o: LoopOptions)
    requires Stopped(run, items, s, req, o)
    ensures TraceMeans(run, items, s, req, o)
  {
    var open := if RunInv(run, items, s, 0, req, o) then 0 else 1;
    RunInvMeans(run, items, s, open, req, o);
    hide HistoryOk, IssuesOk, RequestsNumbered, RevisionsServe, PromptsFresh, RoundsBounded, ConfigCoupled, Responded, ResponsesFit, Counted;
  }

  lemma EndedMeans(control: LoopControl, working: WorkingHistory, run: RunState, end: RoundEnd, req: LoopRequest, o: LoopOptions)
    requires RoundEnded(control, working, run, end, req, o) && !end.Again?
    ensures !end.RoundPanics? ==> TraceMeans(run, working.appended, control.model, req, o)
  {
    hide Unsealed, TraceMeans, Stopped, Settled, PathExplained;
    if !end.RoundPanics? {
      StoppedMeans(run, working.appended, control.model, req, o);
    }
  }

  lemma AtTopSuspends(control: LoopControl, working: WorkingHistory, run: RunState, req: LoopRequest, o: LoopOptions)
    requires AtTop(control, working, run, req, o)
    ensures RoundEnded(control, working, run, RoundSuspended, req, o)
  {
    hide RunInv, Settled, LoopControl.Valid, AssistantItems;
    SuspendsIn(control, working, run, req, o);
  }

  lemma FreshControl(control: LoopControl, req: LoopRequest)
    requires control.Valid() && control.initial == req.config && control.log == []
    ensures control.model == Initial(req.config) && control.model.slot.None? && control.model.accepting
  {
  }
}
