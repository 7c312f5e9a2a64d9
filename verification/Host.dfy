/** The host fold of examples/memory_agent.rs:100-124: each turn's report extends the base of the next. */
module Host {
  import opened Common
  import opened History
  import opened LoopEvents
  import opened ControlSpec
  import opened Reports
  import opened LoopControls
  import opened ToolBatch
  import opened RunStates
  import opened Chronicles
  import opened Runner
  import opened LoopRuns

  /** One turn: the user's input and the environment of its loop. */
  datatype TurnScript = TurnScript(input: UserInput, rounds: seq<RoundScript>, finish: FinishScript)

  predicate TurnForeign(t: TurnScript) {
    FinishForeign(t.finish) && forall i | 0 <= i < |t.rounds| :: RoundForeign(t.rounds[i])
  }

  /** Every input the environment ever hands over is valid model text. */
  predicate GivenTextsValid(rounds: seq<RoundScript>) {
    forall k | 0 <= k < |rounds| ::
      && (rounds[k].first.inputs.Some? ==> AllTexts(rounds[k].first.inputs.value))
      && (rounds[k].second.inputs.Some? ==> AllTexts(rounds[k].second.inputs.value))
  }

  predicate AllTexts(texts: seq<UserInput>) {
    forall t | t in texts :: UserText(t)
  }

  /** What one turn did: its request, the loop that ran, the items it reached and its report. */
  datatype TurnRecord = TurnRecord(
    request: LoopRequest, items: seq<HistoryItem>, run: RunState, end: LoopEnd, ran: RunRecord, report: Option<LoopReport>)

  /** The turn ran the loop over its own script, from the history it was given. */
  ghost predicate TurnKept(t: TurnRecord, script: TurnScript, base: seq<HistoryItem>, config: ExecutionConfig, o: LoopOptions) {
    && t.request == LoopRequest(base, script.input, config)
    && Chronicle(t.ran.rounds, script.rounds, t.run, t.items, t.request, o)
    && StopsBecause(t.ran.rounds, script.rounds, LastRound(t.end))
    && (t.end.Panicked? <==> HostPanicked(t.ran.rounds, script.rounds))
    && match t.end
       case Unfinished => t.report.None?
       case Panicked => t.report == Some(PANIC_REPORT)
       case Finished(path) =>
         && t.report.Some? && t.report.value.appended == t.items
         && t.ran.sealed == SealedLog(RunLog(t.ran.rounds, script.rounds, t.request), script.finish)
         && FinishedRun(t.report.value, t.run, path, t.ran, script.rounds, t.request, o)
  }

  /** What a turn adds to the host's history, and the user texts among it. */
  function TurnItems(t: TurnRecord): seq<HistoryItem> {
    if t.report.Some? then t.report.value.appended else []
  }

  function TurnTexts(t: TurnRecord, script: TurnScript): seq<UserInput> {
    if t.end.Finished? && |t.ran.rounds| <= |script.rounds| then [script.input] + TakenOf(t.ran.rounds, script.rounds) else []
  }

  /** The items and texts of several turns, in order. */
  function ItemsOf(records: seq<TurnRecord>): seq<HistoryItem> {
    if records == [] then []
    else
      var n := |records| - 1;
      ItemsOf(records[..n]) + TurnItems(records[n])
  }

  function TextsOf(records: seq<TurnRecord>, turns: seq<TurnScript>): seq<UserInput>
    requires |records| <= |turns|
  {
    if records == [] then []
    else
      var n := |records| - 1;
      TextsOf(records[..n], turns) + TurnTexts(records[n], turns[n])
  }

  /**
   * A conversation: each turn runs from the history the turns before it left,
   * and only one whose loop never ends keeps the next from starting.
   */
  ghost predicate Conversation(records: seq<TurnRecord>, turns: seq<TurnScript>, base: seq<HistoryItem>, config: ExecutionConfig, o: LoopOptions) {
    && |records| <= |turns|
    && (forall i | 0 <= i < |records| :: TurnAt(records, turns, i, base, config, o))
    && (forall i | 0 <= i < |records| - 1 :: !records[i].end.Unfinished?)
  }

  ghost predicate TurnAt(records: seq<TurnRecord>, turns: seq<TurnScript>, i: nat, base: seq<HistoryItem>, config: ExecutionConfig, o: LoopOptions)
    requires i < |records| <= |turns|
  {
    TurnKept(records[i], turns[i], base + ItemsOf(records[..i]), config, o)
  }

  lemma {:induction false} ConversationGoesOn(records: seq<TurnRecord>, t: TurnRecord, turns: seq<TurnScript>, base: seq<HistoryItem>,
                                              config: ExecutionConfig, o: LoopOptions)
    requires Conversation(records, turns, base, config, o) && |records| < |turns|
    requires records != [] ==> !records[|records| - 1].end.Unfinished?
    requires TurnKept(t, turns[|records|], base + ItemsOf(records), config, o)
    ensures Conversation(records + [t], turns, base, config, o)
    ensures base + ItemsOf(records + [t]) == (base + ItemsOf(records)) + TurnItems(t)
    ensures TextsOf(records + [t], turns) == TextsOf(records, turns) + TurnTexts(t, turns[|records|])
  {
    hide TurnKept, TurnTexts, TurnItems;
    var longer := records + [t];
    assert longer[..|records|] == records;
    forall i | 0 <= i < |longer| ensures TurnAt(longer, turns, i, base, config, o) {
      assert longer[..i] == records[..i];
      if i < |records| {
        assert TurnAt(records, turns, i, base, config, o);
      } else {
        assert records[..i] == records;
      }
    }
  }

  lemma ConversationBegins(turns: seq<TurnScript>, base: seq<HistoryItem>, config: ExecutionConfig, o: LoopOptions)
    ensures Conversation([], turns, base, config, o) && base + ItemsOf([]) == base && TextsOf([], turns) == []
  {
  }

  class MemoryAgent {
    var history: seq<HistoryItem>
    const config: ExecutionConfig
    const options: LoopOptions

    constructor (config: ExecutionConfig, options: LoopOptions)
      requires OptionsValid(options)
      ensures history == [] && BaseAccepted(history) && this.config == config && this.options == options
    {
      history := [];
      this.config := config;
      this.options := options;
      new;
      EmptyBaseAccepted();
    }

    /**
     * One loop over the current history, folded back whatever its outcome.
     * `texts` are the user texts that entered the history.
     */
    method Chat(turn: TurnScript) returns (report: Option<LoopReport>, texts: seq<UserInput>, ghost t: TurnRecord)
      requires OptionsValid(options) && TurnForeign(turn)
      modifies this
      ensures TurnKept(t, turn, old(history), config, options) && t.report == report
      ensures history == old(history) + TurnItems(t) && texts == TurnTexts(t, turn)
      ensures BaseAccepted(history) <==> BaseAccepted(old(history)) && AllTexts(texts)
      ensures UserText(turn.input) && GivenTextsValid(turn.rounds) ==> AllTexts(texts)
    {
      hide BaseAccepted, TurnForeign, RoundForeign, UserText, ReportOk, Stopped, Chronicle, TraceMeans, RunAsks, StopsBecause, HostPanicked, RunSealed,
           RunLog, AppendedBy, TakenOf, SteeringTexts, GivenTextsValid, AllTexts, FinishedRun, EventsOfRun,
           LostOfRun, SealedLog, PublishedLog, TurnKept, TurnTexts, LastRound, Initial, LoopControl.Valid, LoopEventSink.Valid, FinishForeign;
      var request := LoopRequest(history, turn.input, config);
      TurnScripts(turn);
      var control := new LoopControl(config);
      var sink := new LoopEventSink(256);
      var working := new WorkingHistory(history);
      var run, end;
      ghost var g;
      report, run, end, g := RunLoop(control, sink, working, turn.rounds, turn.finish, request, options);
      t := TurnRecord(request, working.appended, run, end, g, report);
      TurnIsKept(t, turn, history, config, options);
      TurnFoldsIn(t, turn, history, config, options);
      texts := if end.Finished? then [turn.input] + run.taken else [];
      if report.Some? {
        history := history + report.value.appended;
      }
    }

    /**
     * Any number of turns with any mix of outcomes: the history is the one it
     * started from and everything the turns appended, in order, and it stays an
     * acceptable base exactly as long as every user text is valid model text.
     */
    method Converse(turns: seq<TurnScript>) returns (texts: seq<UserInput>, ghost records: seq<TurnRecord>)
      requires OptionsValid(options) && forall i | 0 <= i < |turns| :: TurnForeign(turns[i])
      modifies this
      ensures Conversation(records, turns, old(history), config, options)
      ensures |records| < |turns| ==> records != [] && records[|records| - 1].end.Unfinished?
      ensures history == old(history) + ItemsOf(records) && texts == TextsOf(records, turns)
      ensures BaseAccepted(history) <==> BaseAccepted(old(history)) && AllTexts(texts)
      ensures (forall i | 0 <= i < |turns| :: UserText(turns[i].input) && GivenTextsValid(turns[i].rounds)) ==> AllTexts(texts)
    {
      hide GivenTextsValid, BaseAccepted, TurnForeign, UserText, TurnKept, Conversation, ItemsOf, TextsOf, TurnTexts, TurnItems;
      texts, records := [], [];
      ConversationBegins(turns, history, config, options);
      for i := 0 to |turns|
        invariant Conversation(records, turns, old(history), config, options) && |records| == i
        invariant records != [] ==> !records[i - 1].end.Unfinished?
        invariant history == old(history) + ItemsOf(records) && texts == TextsOf(records, turns)
        invariant BaseAccepted(history) <==> BaseAccepted(old(history)) && AllTexts(texts)
        invariant (forall j | 0 <= j < i :: UserText(turns[j].input) && GivenTextsValid(turns[j].rounds)) ==> AllTexts(texts)
      {
        var report, more;
        ghost var t;
        report, more, t := Chat(turns[i]);
        ConversationGoesOn(records, t, turns, old(history), config, options);
        TextsJoin(texts, more);
        EndsWithReport(t, turns[i], old(history) + ItemsOf(records), config, options);
        texts, records := texts + more, records + [t];
        if report.None? {
          return;
        }
      }
    }
  }

  /** A turn has a report exactly when its loop ended. */
  lemma EndsWithReport(t: TurnRecord, turn: TurnScript, base: seq<HistoryItem>, config: ExecutionConfig, o: LoopOptions)
    requires TurnKept(t, turn, base, config, o)
    ensures t.report.None? <==> t.end.Unfinished?
  {
    hide Chronicle, StopsBecause, HostPanicked, FinishedRun;
  }

  lemma TurnScripts(turn: TurnScript)
    requires TurnForeign(turn)
    ensures FinishForeign(turn.finish) && forall i | 0 <= i < |turn.rounds| :: RoundForeign(turn.rounds[i])
  {
    hide FinishForeign, RoundForeign;
  }

  /** A loop over the turn's script keeps the turn. */
  lemma TurnIsKept(t: TurnRecord, turn: TurnScript, base: seq<HistoryItem>, config: ExecutionConfig, o: LoopOptions)
    requires t.request == LoopRequest(base, turn.input, config)
    requires Chronicle(t.ran.rounds, turn.rounds, t.run, t.items, t.request, o)
    requires StopsBecause(t.ran.rounds, turn.rounds, LastRound(t.end))
    requires t.report.None? <==> t.end.Unfinished?
    requires |t.ran.rounds| <= |turn.rounds| && (t.end.Panicked? <==> HostPanicked(t.ran.rounds, turn.rounds))
    requires t.end.Panicked? ==> t.report.value == PANIC_REPORT
    requires t.end.Finished? ==>
      && t.report.value.appended == t.items
      && t.ran.sealed == SealedLog(RunLog(t.ran.rounds, turn.rounds, t.request), turn.finish)
      && ReportOk(t.report.value, t.run, t.ran.before, t.end.path, t.ran.sealed, t.request, o)
    ensures TurnKept(t, turn, base, config, o)
  {
    hide Chronicle, StopsBecause, HostPanicked, ReportOk, RunLog, SealedLog;
  }

  /** A turn extends an acceptable base to one exactly when its texts are valid. */
  lemma TurnFoldsIn(t: TurnRecord, turn: TurnScript, base: seq<HistoryItem>, config: ExecutionConfig, o: LoopOptions)
    requires TurnKept(t, turn, base, config, o)
    ensures TurnTexts(t, turn) == if t.end.Finished? then [turn.input] + t.run.taken else []
    ensures BaseAccepted(base + TurnItems(t)) <==> BaseAccepted(base) && AllTexts(TurnTexts(t, turn))
    ensures UserText(turn.input) && GivenTextsValid(turn.rounds) ==> AllTexts(TurnTexts(t, turn))
  {
    hide BaseAccepted, UserText, GivenTextsValid, AllTexts, Chronicle, StopsBecause, HostPanicked, FinishedRun, TakenOf, SteeringTexts;
    if t.end.Finished? {
      TurnFolds(t.report.value, t.run, t.end.path, t.ran, turn, t.request, o);
    } else {
      assert base + [] == base;
      NoTexts();
    }
  }

  lemma NoTexts()
    ensures AllTexts([])
  {
  }

  /** One finished turn, folded into the history it started from. */
  lemma TurnFolds(report: LoopReport, run: RunState, path: FailPath, g: RunRecord, turn: TurnScript, req: LoopRequest, o: LoopOptions)
    requires FinishedRun(report, run, path, g, turn.rounds, req, o) && req.input == turn.input
    ensures |g.rounds| <= |turn.rounds| && run.taken == TakenOf(g.rounds, turn.rounds)
    ensures var texts := [turn.input] + run.taken;
            && (BaseAccepted(req.history + report.appended) <==> BaseAccepted(req.history) && AllTexts(texts))
            && SteeringTexts(report.appended) == run.taken
            && (UserText(turn.input) && GivenTextsValid(turn.rounds) ==> AllTexts(texts))
  {
    hide FinishedRun, BaseAccepted, UserText, SteeringTexts, GivenTextsValid, AppendedBy, TakenOf, Chronicle, TraceMeans, Settled, LoopItems,
         OutputsBounded, ResponsesOf, IssuesOf, BatchCount;
    ReportExtendsBase(report, run, path, g, turn.rounds, req, o);
    ReportIsSettled(report, run, path, g, turn.rounds, req, o);
    FinishedFacts(report, run, path, g, turn.rounds, req, o);
    FinishedChronicle(report, run, path, g, turn.rounds, req, o);
    TakenIsGiven(run, g.rounds, turn.rounds, report.appended, req, o);
    FirstAndRest(turn.input, run.taken);
  }

  lemma FinishedChronicle(report: LoopReport, run: RunState, path: FailPath, g: RunRecord, script: seq<RoundScript>, req: LoopRequest, o: LoopOptions)
    requires FinishedRun(report, run, path, g, script, req, o)
    ensures Chronicle(g.rounds, script, run, report.appended, req, o)
  {
    hide Chronicle, ReportOk;
  }

  /** What a run took, it was given. */
  lemma TakenIsGiven(run: RunState, records: seq<RoundRecord>, rounds: seq<RoundScript>, items: seq<HistoryItem>, req: LoopRequest, o: LoopOptions)
    requires Chronicle(records, rounds, run, items, req, o)
    ensures GivenTextsValid(rounds) ==> AllTexts(run.taken)
  {
    hide RoundFollows, RoundSeesAll, UserText;
    if GivenTextsValid(rounds) {
      TakenValid(records, rounds);
    }
  }

  lemma {:induction false} TakenValid(records: seq<RoundRecord>, rounds: seq<RoundScript>)
    requires |records| <= |rounds| && GivenTextsValid(rounds)
    ensures AllTexts(TakenOf(records, rounds))
  {
    hide UserText;
    if records != [] {
      var n := |records| - 1;
      TakenValid(records[..n], rounds);
      TextsJoin(Delivered(records[n].first, rounds[n].first, false), Delivered(records[n].second, rounds[n].second, true));
      TextsJoin(TakenOf(records[..n], rounds), RoundInputs(records[n], rounds[n]));
    }
  }

  lemma FirstAndRest(first: UserInput, rest: seq<UserInput>)
    ensures AllTexts([first] + rest) <==> UserText(first) && AllTexts(rest)
    ensures AllTexts(rest) <==> forall t | t in rest :: UserText(t)
  {
    hide UserText;
    assert first in [first] + rest;
  }

  lemma TextsJoin(a: seq<UserInput>, b: seq<UserInput>)
    ensures AllTexts(a + b) <==> AllTexts(a) && AllTexts(b)
  {
    hide UserText;
    assert forall t | t in a :: t in a + b;
    assert forall t | t in b :: t in a + b;
  }

  /** An empty history is an acceptable base. */
  lemma EmptyBaseAccepted()
    ensures BaseAccepted([])
  {
  }
}
