/**
 * When the loop's request builds fail (src/agent_loop/runner.rs:214-217 with
 * src/agent_loop/runner/model.rs:30-96), over the rounds of any run: finished,
 * panicked or unfinished.
 */
module RequestBuilds {
  import opened Common
  import opened Messages
  import opened Exchange
  import opened Assembly
  import opened History
  import opened Driver
  import opened ModelCall
  import opened ControlSpec
  import opened Reports
  import opened ToolCalls
  import opened ToolBatch
  import opened RunStates
  import opened Chronicles
  import opened Runner
  import opened LoopRuns

  // ---- What a loop's history holds at each preparation -------------------------------------------

  predicate AllUserTexts(texts: seq<UserInput>) {
    forall t | t in texts :: UserText(t)
  }

  /** A settled loop history that begins with the prompt and whose user texts are valid exactly when `texts` are. */
  predicate Sound(items: seq<HistoryItem>, texts: seq<UserInput>) {
    && items != [] && items[0].UserItem? && Settled(items) && LoopItems(items)
    && (UserTextsValid(items) <==> AllUserTexts(texts))
  }

  lemma SoundPrompt(input: UserInput)
    ensures Sound([UserItem(PromptInput, input)], [input])
  {
    hide UserText;
    var item := UserItem(PromptInput, input);
    var items := [item];
    assert items[1..] == [] && Settled(items);
    assert UserTextsValid(items) <==> UserText(input) by {
      assert item in items;
    }
    assert AllUserTexts([input]) <==> UserText(input) by {
      assert input in [input];
    }
  }

  lemma {:induction false} SoundInputs(items: seq<HistoryItem>, texts: seq<UserInput>, inputs: seq<UserInput>)
    requires Sound(items, texts)
    ensures Sound(items + SteeringItems(inputs), texts + inputs)
  {
    if inputs == [] {
      assert items + SteeringItems(inputs) == items && texts + inputs == texts;
    } else {
      var n := |inputs| - 1;
      SoundInputs(items, texts, inputs[..n]);
      assert SteeringItems(inputs) == SteeringItems(inputs[..n]) + [UserItem(Steering, inputs[n])];
      assert items + SteeringItems(inputs) == (items + SteeringItems(inputs[..n])) + [UserItem(Steering, inputs[n])];
      assert texts + inputs == (texts + inputs[..n]) + [inputs[n]];
      SoundInput(items + SteeringItems(inputs[..n]), texts + inputs[..n], inputs[n]);
    }
  }

  lemma SoundInput(items: seq<HistoryItem>, texts: seq<UserInput>, input: UserInput)
    requires Sound(items, texts)
    ensures Sound(items + [UserItem(Steering, input)], texts + [input])
  {
    hide UserText, Settled;
    SettledUser(items, UserItem(Steering, input));
    Members(items, [UserItem(Steering, input)]);
    Members(texts, [input]);
  }

  lemma Members<T>(a: seq<T>, b: seq<T>)
    ensures forall x :: x in a + b <==> x in a || x in b
  {
  }

  lemma SoundTurn(items: seq<HistoryItem>, texts: seq<UserInput>, turn: seq<HistoryItem>)
    requires Sound(items, texts) && WholeTurn(turn)
    ensures Sound(items + turn, texts)
  {
    hide UserText, Settled, LoopItem;
    SettledConcat(items, turn);
    Members(items, turn);
  }

  /** Complete turns of the model, without user items. */
  predicate WholeTurn(turn: seq<HistoryItem>) {
    Settled(turn) && LoopItems(turn) && forall item | item in turn :: !item.UserItem?
  }

  /** A round that leads to another one appended a whole turn, or nothing. */
  lemma TurnIsWhole(rec: RoundRecord, script: RoundScript, req: LoopRequest, o: LoopOptions)
    requires RoundFollows(rec, script, req, o) && rec.end == Again
    ensures WholeTurn(rec.turn)
  {
    hide TopFollows, PromptFollows, CallKept, CallUnwinds, TakePanics, TookAny, BatchOk, Settlement, Calls, WellFormed, IsLatest, Settled, LoopItem;
    if rec.turn == [] {
      EmptyIsWhole();
    } else {
      BatchIsWhole(rec, script, req, o);
    }
  }

  lemma EmptyIsWhole()
    ensures WholeTurn([])
  {
  }

  lemma BatchIsWhole(rec: RoundRecord, script: RoundScript, req: LoopRequest, o: LoopOptions)
    requires CallFollows(rec, script, req, o) && TurnFollows(rec, script, req, o)
    requires rec.turn != [] && rec.batch.Some? && rec.batch.value.end == BatchDone
    ensures WholeTurn(rec.turn)
  {
    hide CallKept, CallUnwinds, TakePanics, TookAny, WellFormed, IsLatest, Settled, Calls, AnsweredInOrder, CallsJustified, CallsChained,
         InterruptedAt, PartsOrdered, PromptStands;
    var assistant, results := rec.turn[0], rec.turn[1..];
    var calls := Calls(rec.response.value.parts);
    TerminalAnswers(results, rec.issue.value.requestIndex, calls, o.limits.maxToolOutput);
    SettledTurn([], assistant, results);
    assert [] + [assistant] + results == rec.turn;
    CallIsFor(rec.call.value, o, script.model, Request(rec.call.value.request.tools, o.limits, o.codec));
    ResponseIsTurn(0, rec.response.value, Request(rec.call.value.request.tools, o.limits, o.codec));
    forall item | item in rec.turn ensures LoopItem(item) && !item.UserItem? {
      if item != assistant {
        assert item in results;
      }
    }
  }

  /** The history the rounds before the next one made. */
  lemma {:induction false} HistoryIsSound(records: seq<RoundRecord>, script: seq<RoundScript>, req: LoopRequest, o: LoopOptions)
    requires Executed(records, script, req, o) && (records != [] ==> records[|records| - 1].end == Again)
    ensures Sound([UserItem(PromptInput, req.input)] + AppendedBy(records, script), [req.input] + TakenOf(records, script))
  {
    hide RoundFollows, Sound, SteeringItems, RoundInputs, WholeTurn;
    var first := [UserItem(PromptInput, req.input)];
    if records == [] {
      SoundPrompt(req.input);
      assert first + [] == first && [req.input] + [] == [req.input];
    } else {
      var n := |records| - 1;
      var init := records[..n];
      assert forall k | 0 <= k < n :: init[k] == records[k];
      HistoryIsSound(init, script, req, o);
      TurnIsWhole(records[n], script[n], req, o);
      var inputs := RoundInputs(records[n], script[n]);
      var items, texts := first + AppendedBy(init, script), [req.input] + TakenOf(init, script);
      SoundInputs(items, texts, inputs);
      SoundTurn(items + SteeringItems(inputs), texts + inputs, records[n].turn);
      assert (items + SteeringItems(inputs)) + records[n].turn == first + (AppendedBy(init, script) + (SteeringItems(inputs) + records[n].turn));
      assert texts + inputs == [req.input] + (TakenOf(init, script) + inputs);
    }
  }

  /** The texts a round's preparation sees: the prompt and everything taken up to the round's first take. */
  function TextsSeen(records: seq<RoundRecord>, script: seq<RoundScript>, k: nat, req: LoopRequest): seq<UserInput>
    requires k < |records| <= |script|
  {
    [req.input] + TakenOf(records[..k], script) + Delivered(records[k].first, script[k].first, false)
  }

  lemma ViewIsSound(records: seq<RoundRecord>, script: seq<RoundScript>, run: RunState, items: seq<HistoryItem>, k: nat,
                    req: LoopRequest, o: LoopOptions)
    requires Chronicle(records, script, run, items, req, o) && k < |records| && records[k].prompt.Some?
    ensures Sound(records[k].view, TextsSeen(records, script, k, req))
  {
    hide RoundFollows, Sound, SteeringItems, Delivered, Responds, LimitDecides, AppendedBy, TakenOf, RunLog, IssuesOf, ResponsesOf, BatchCount,
         RoundInputs;
    assert RoundSeesAll(records, script, k, req, o);
    var before := records[..k];
    assert forall i | 0 <= i < k :: before[i] == records[i];
    HistoryIsSound(before, script, req, o);
    SoundInputs([UserItem(PromptInput, req.input)] + AppendedBy(before, script), [req.input] + TakenOf(before, script),
                Delivered(records[k].first, script[k].first, false));
  }

  // ---- The build -------------------------------------------------------------------------------------

  /**
   * In every run, a prompt of the default provider that survives the second
   * take is built into a request, and issued, exactly when the system prompt,
   * the base history, the prompt text and every input taken so far are
   * acceptable on their own, however many tool rounds came before; otherwise
   * the loop breaks for its prompt.
   */
  lemma BuildFailsExactly(records: seq<RoundRecord>, script: seq<RoundScript>, run: RunState, items: seq<HistoryItem>, k: nat,
                          req: LoopRequest, o: LoopOptions)
    requires Chronicle(records, script, run, items, req, o) && k < |records|
    requires PromptStands(records[k], script[k]) && records[k].snapshot.prompt.DefaultProvider?
    ensures records[k].issue.Some?
       <==> SystemAccepted(records[k].snapshot.prompt.system) && BaseAccepted(req.history) && AllUserTexts(TextsSeen(records, script, k, req))
    ensures records[k].issue.None? ==> records[k].end == Break(PathPrompt)
  {
    hide Sound, TextsSeen, AllUserTexts, UserText, BaseAccepted, SystemAccepted, Responds, LimitDecides, AppendedBy, TakenOf, RunLog, IssuesOf,
         ResponsesOf, BatchCount, RoundSeesAll, RoundFollows;
    var rec := records[k];
    StandsMeans(rec, script[k]);
    ViewIsSound(records, script, run, items, k, req, o);
    assert RoundFollows(rec, script[k], req, o);
    DefaultIsProjected(rec, script[k], req, o);
    BuildIsExact(rec.snapshot.prompt.system, req.history, rec.view, TextsSeen(records, script, k, req), rec.prompt.value.value);
    IssuedIfBuilt(rec, script[k], req, o);
  }

  lemma StandsMeans(rec: RoundRecord, script: RoundScript)
    requires PromptStands(rec, script)
    ensures rec.prompt.Some? && PromptReady(rec.prompt.value) && rec.second.Some?
    ensures !TakePanics(rec.second.value, script.second) && !TookAny(rec.second.value, script.second)
  {
    hide TakePanics, TookAny;
  }

  /** What the default provider's ready prompt is. */
  lemma DefaultIsProjected(rec: RoundRecord, script: RoundScript, req: LoopRequest, o: LoopOptions)
    requires RoundFollows(rec, script, req, o) && rec.prompt.Some? && PromptReady(rec.prompt.value)
    requires rec.snapshot.prompt.DefaultProvider?
    ensures ProjectAll(req.history + rec.view).Some?
    ensures rec.prompt.value.value == SystemMessages(rec.snapshot.prompt.system) + ProjectAll(req.history + rec.view).value
  {
    hide TopFollows, CallFollows, TurnFollows, EndFollows, ProjectAll, SystemMessages, TokenAt, Serves, TakeFollows, TakePanics;
  }

  /** The build of a projected prompt, in terms of the texts behind it. */
  lemma BuildIsExact(system: Option<string>, base: seq<HistoryItem>, view: seq<HistoryItem>, texts: seq<UserInput>, messages: seq<ModelMessage>)
    requires Sound(view, texts) && ProjectAll(base + view).Some? && messages == SystemMessages(system) + ProjectAll(base + view).value
    ensures WellFormed(messages) <==> SystemAccepted(system) && BaseAccepted(base) && AllUserTexts(texts)
  {
    hide Settled, LoopItem, SystemAccepted, UserTextsValid, AllUserTexts, WellFormed, BaseAccepted;
    ProjectConcat(base, view);
    hide ProjectAll, SystemMessages;
    PromptAcceptedExactly(system, base, view);
  }

  lemma IssuedIfBuilt(rec: RoundRecord, script: RoundScript, req: LoopRequest, o: LoopOptions)
    requires RoundFollows(rec, script, req, o) && PromptStands(rec, script)
    ensures rec.issue.Some? <==> WellFormed(rec.prompt.value.value)
    ensures rec.issue.None? ==> rec.end == Break(PathPrompt)
  {
    hide TopFollows, PortFollows, PromptPort, PromptLog, TurnFollows, WellFormed, CallKept, CallUnwinds, IsLatest, Serves, TakeFollows, TakePanics,
         TookAny, Calls;
  }

  /**
   * A request the default provider's prompt became reads back the system text,
   * the base history, the prompt text and everything the run appended and took
   * before it, message by message: no result changes its outcome on the way.
   */
  lemma RequestReadsHistory(records: seq<RoundRecord>, script: seq<RoundScript>, run: RunState, items: seq<HistoryItem>, k: nat,
                            req: LoopRequest, o: LoopOptions)
    requires Chronicle(records, script, run, items, req, o) && k < |records|
    requires records[k].issue.Some? && records[k].snapshot.prompt.DefaultProvider?
    ensures PromptReadsBack(records[k].snapshot.prompt.system,
                            req.history + ([UserItem(PromptInput, req.input)] + AppendedBy(records[..k], script)
                                           + SteeringItems(RoundInputs(records[k], script[k]))),
                            records[k].issue.value.messages)
    ensures records[k].call.Some?
    ensures records[k].call.value.request == ModelRequest(records[k].issue.value.messages, records[k].snapshot.tools.specs)
  {
    hide AppendedBy, TakenOf, RunLog, IssuesOf, ResponsesOf, BatchCount, RoundFollows, Responds, LimitDecides, SteeringItems, RoundInputs, Delivered,
         PromptReadsBack;
    var rec := records[k];
    assert RoundSeesAll(records, script, k, req, o);
    assert RoundFollows(rec, script[k], req, o);
    IssuedIsPrepared(rec, script[k], req, o);
    DefaultIsProjected(rec, script[k], req, o);
    PromptOfProjection(rec.snapshot.prompt.system, req.history + rec.view);
  }

  lemma IssuedIsPrepared(rec: RoundRecord, script: RoundScript, req: LoopRequest, o: LoopOptions)
    requires RoundFollows(rec, script, req, o) && rec.issue.Some?
    ensures rec.prompt.Some? && PromptReady(rec.prompt.value) && rec.issue.value.messages == rec.prompt.value.value
    ensures rec.issue.value.preparedFrom == rec.view
    ensures rec.call.Some? && rec.call.value.request == ModelRequest(rec.issue.value.messages, rec.snapshot.tools.specs)
  {
    hide TopFollows, PromptFollows, TurnFollows, EndFollows, CallKept, CallUnwinds, IsLatest, TakePanics, TookAny, WellFormed;
  }

  // ---- When it never fails -----------------------------------------------------------------------------

  /** The default provider with an acceptable system prompt. */
  predicate DefaultAccepted(config: ExecutionConfig) {
    config.prompt.DefaultProvider? && SystemAccepted(config.prompt.system)
  }

  /** Base, prompt text and everything the run took are acceptable, and so is the system prompt of each preparation. */
  ghost predicate AllAcceptable(records: seq<RoundRecord>, script: seq<RoundScript>, req: LoopRequest)
    requires |records| <= |script|
  {
    && BaseAccepted(req.history) && UserText(req.input) && AllUserTexts(TakenOf(records, script))
    && forall k | 0 <= k < |records| && records[k].prompt.Some? :: DefaultAccepted(records[k].snapshot)
  }

  lemma {:induction false} TakenSoFar(records: seq<RoundRecord>, script: seq<RoundScript>, n: nat)
    requires n <= |records| <= |script|
    ensures forall t | t in TakenOf(records[..n], script) :: t in TakenOf(records, script)
  {
    hide RoundInputs;
    if n == |records| {
      assert records[..n] == records;
    } else {
      var last := |records| - 1;
      TakenSoFar(records[..last], script, n);
      assert records[..last][..n] == records[..n];
      Members(TakenOf(records[..last], script), RoundInputs(records[last], script[last]));
    }
  }

  /** What a preparation sees was taken. */
  lemma SeenIsTaken(records: seq<RoundRecord>, script: seq<RoundScript>, k: nat, req: LoopRequest)
    requires k < |records| <= |script| && UserText(req.input) && AllUserTexts(TakenOf(records, script))
    ensures AllUserTexts(TextsSeen(records, script, k, req))
  {
    hide UserText, TakenOf, Delivered;
    TakenSoFar(records, script, k + 1);
    OneMoreRound(records, script, k);
    var first, second := Delivered(records[k].first, script[k].first, false), Delivered(records[k].second, script[k].second, true);
    Members(first, second);
    Members(TakenOf(records[..k], script), first + second);
    Members([req.input] + TakenOf(records[..k], script), first);
    Members([req.input], TakenOf(records[..k], script));
  }

  lemma OneMoreRound(records: seq<RoundRecord>, script: seq<RoundScript>, k: nat)
    requires k < |records| <= |script|
    ensures TakenOf(records[..k + 1], script) == TakenOf(records[..k], script) + RoundInputs(records[k], script[k])
  {
    hide RoundInputs;
    assert records[..k + 1][..k] == records[..k];
  }

  /** With the default provider and acceptable texts no build of a run fails. */
  lemma BuildNeverFails(records: seq<RoundRecord>, script: seq<RoundScript>, run: RunState, items: seq<HistoryItem>, k: nat,
                        req: LoopRequest, o: LoopOptions)
    requires Chronicle(records, script, run, items, req, o) && AllAcceptable(records, script, req) && k < |records|
    ensures records[k].issue.Some? <==> PromptStands(records[k], script[k])
  {
    hide AllUserTexts, UserText, BaseAccepted, TextsSeen, Responds, LimitDecides, AppendedBy, TakenOf, RunLog, IssuesOf, ResponsesOf, BatchCount,
         RoundSeesAll, RoundFollows;
    assert RoundFollows(records[k], script[k], req, o);
    IssuedStands(records[k], script[k], req, o);
    if PromptStands(records[k], script[k]) {
      StandsMeans(records[k], script[k]);
      SeenIsTaken(records, script, k, req);
      BuildFailsExactly(records, script, run, items, k, req, o);
    }
  }

  lemma IssuedStands(rec: RoundRecord, script: RoundScript, req: LoopRequest, o: LoopOptions)
    requires RoundFollows(rec, script, req, o)
    ensures rec.issue.Some? ==> PromptStands(rec, script)
  {
    hide TopFollows, PromptFollows, TurnFollows, EndFollows, CallKept, CallUnwinds, IsLatest, TakePanics, TookAny, WellFormed;
  }

  /** The preparation was cut by an invalid or exceeded port deadline, or by what the provider itself saw. */
  predicate PreparationCut(outcome: PortOutcome<seq<ModelMessage>>) {
    outcome.InvalidDeadline? || outcome.ReturnedError? || outcome == DeadlineExceeded(PortDeadline)
  }

  /** Nothing in a script cuts a preparation for its own deadline. */
  predicate Unhurried(script: PromptScript) {
    && !script.port.overflow && script.port.expired != Some(PortDeadline) && script.port.ends != Expires(PortDeadline)
    && !script.expired
  }

  /**
   * With the default provider and acceptable texts, a round of any run breaks
   * for its prompt exactly when its preparation was cut for a deadline or a
   * cancellation, and never when its script does not hurry it.
   */
  lemma PromptPathIsACut(records: seq<RoundRecord>, script: seq<RoundScript>, run: RunState, items: seq<HistoryItem>, k: nat,
                         req: LoopRequest, o: LoopOptions)
    requires Chronicle(records, script, run, items, req, o) && AllAcceptable(records, script, req) && k < |records|
    ensures records[k].end == Break(PathPrompt) <==> records[k].prompt.Some? && PreparationCut(records[k].prompt.value)
    ensures records[k].prompt == Some(ReturnedError) ==> script[k].prompt.expired
    ensures Unhurried(script[k].prompt) ==> records[k].end != Break(PathPrompt)
  {
    hide AllUserTexts, UserText, BaseAccepted, TextsSeen, Responds, LimitDecides, AppendedBy, TakenOf, RunLog, IssuesOf, ResponsesOf, BatchCount,
         RoundSeesAll, RoundFollows, Sound, PreparationCut, Unhurried;
    var rec := records[k];
    assert RoundFollows(rec, script[k], req, o);
    BuildNeverFails(records, script, run, items, k, req, o);
    if rec.prompt.Some? {
      ViewIsSound(records, script, run, items, k, req, o);
      DefaultPromptIsReady(rec, script[k], TextsSeen(records, script, k, req), req, o);
    }
    PromptPathMeans(rec, script[k], req, o);
  }

  /** On an acceptable base the default provider's own code fails only for what it sees of cancellation and deadline. */
  lemma DefaultPromptIsReady(rec: RoundRecord, script: RoundScript, texts: seq<UserInput>, req: LoopRequest, o: LoopOptions)
    requires RoundFollows(rec, script, req, o) && rec.prompt.Some? && rec.snapshot.prompt.DefaultProvider?
    requires BaseAccepted(req.history) && Sound(rec.view, texts)
    ensures rec.prompt.value.Returned? ==> PromptReady(rec.prompt.value)
    ensures rec.prompt.value.ReturnedError? ==> script.prompt.expired
    ensures Unhurried(script.prompt) ==> !PreparationCut(rec.prompt.value)
    ensures !rec.prompt.value.PortPanicked? && !rec.prompt.value.PortUnwinds?
  {
    hide TopFollows, CallFollows, TurnFollows, EndFollows, SystemMessages, TokenAt, Serves, TakeFollows, TakePanics, WellFormed, Settled, LoopItems,
         UserTextsValid, AllUserTexts, SystemAccepted;
    PromptAcceptedExactly(rec.snapshot.prompt.system, req.history, rec.view);
    hide ProjectAll;
  }

  /** Every other way for a round to end is not a prompt failure. */
  lemma PromptPathMeans(rec: RoundRecord, script: RoundScript, req: LoopRequest, o: LoopOptions)
    requires RoundFollows(rec, script, req, o) && (rec.issue.Some? <==> PromptStands(rec, script))
    requires rec.prompt.Some? ==>
      && (rec.prompt.value.Returned? ==> PromptReady(rec.prompt.value))
      && !rec.prompt.value.PortPanicked? && !rec.prompt.value.PortUnwinds?
    ensures rec.end == Break(PathPrompt) <==> rec.prompt.Some? && PreparationCut(rec.prompt.value)
  {
    hide PortFollows, PromptPort, PromptLog, WellFormed, CallKept, CallUnwinds, IsLatest, Serves, TakeFollows, TakePanics, TookAny, Calls, TokenAt,
         Terminal, InterruptedAt, CallsJustified, CallsChained, BatchLog, Settlement, Justified, Waits, Unwinds;
  }

  /** So a loop whose prompts nothing hurries never reports a prompt failure. */
  lemma NoPromptFailure(report: LoopReport, run: RunState, path: FailPath, g: RunRecord, script: seq<RoundScript>, req: LoopRequest, o: LoopOptions)
    requires FinishedRun(report, run, path, g, script, req, o) && StopsBecause(g.rounds, script, LastRound(Finished(path)))
    requires |g.rounds| <= |script| && AllAcceptable(g.rounds, script, req)
    requires forall k | 0 <= k < |script| :: Unhurried(script[k].prompt)
    ensures report.outcome != FailedWith(PromptFailure, None)
  {
    hide Chronicle, ReportOk, AllAcceptable, Unhurried, OutcomeDecided, PathExplained;
    FinishedPath(report, run, path, g, script, req, o);
    if report.outcome == FailedWith(PromptFailure, None) {
      FailureIsPath(req.config, g.sealed, path, report.outcome);
      var last := |g.rounds| - 1;
      PromptPathIsACut(g.rounds, script, run, report.appended, last, req, o);
    }
  }
}
