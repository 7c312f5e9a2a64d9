/**
 * The state of the agent loop (the locals of `run_loop_inner` in
 * src/agent_loop/runner.rs) and what every step of a run keeps.
 */
module RunStates {
  import opened Common
  import opened Text
  import opened Messages
  import opened Exchange
  import opened Assembly
  import opened History
  import opened Driver
  import opened ControlSpec
  import opened Reports
  import opened ToolCalls
  import opened ToolBatch

  /** `UserInput::text`: non-empty and bounded, but possibly with control characters. */
  type UserInput = s: string | s != [] && Utf8Len(s) <= MAX_TEXT_BYTES
    witness "a"

  datatype LoopRequest = LoopRequest(history: seq<HistoryItem>, input: UserInput, config: ExecutionConfig)

  datatype LoopOptions = LoopOptions(
    hasDeadline: bool, maxToolRounds: nat, retry: RetryPolicy, limits: Limits, codec: Codec,
    render: Interactions.CanonicalResult -> string)

  predicate OptionsValid(o: LoopOptions) {
    o.maxToolRounds <= U32_MAX && LimitsValid(o.limits) && o.retry.baseDelay <= MAX_DURATION
  }

  /** One issued model request: the revision committed for it, the config that serves it, and its prompt. */
  datatype Issue = Issue(
    requestIndex: nat, revision: nat, config: ExecutionConfig,
    preparedFrom: seq<HistoryItem>, inputs: seq<UserInput>, messages: seq<ModelMessage>)

  /** The loop's locals, then its trace: inputs taken, requests issued, responses received, batches entered. */
  datatype RunState = RunState(
    config: ExecutionConfig,
    candidate: Option<nat>,
    issued: nat,
    requestIndex: nat,
    toolRounds: nat,
    requests: nat,
    lastIssued: Option<nat>,
    usage: Usage,
    taken: seq<UserInput>,
    issues: seq<Issue>,
    responses: seq<ModelResponse>,
    batches: nat)

  function Begin(req: LoopRequest): RunState {
    RunState(req.config, None, 0, 0, 0, 0, None, NO_USAGE, [], [], [], 0)
  }

  // ---- The history part -----------------------------------------------------------------

  /** Texts of the steering items, in order. */
  function SteeringTexts(items: seq<HistoryItem>): seq<string> {
    if items == [] then []
    else
      var last := items[|items| - 1];
      SteeringTexts(items[..|items| - 1]) + (if last.UserItem? && last.kind == Steering then [last.text] else [])
  }

  lemma {:induction false} SteeringConcat(a: seq<HistoryItem>, b: seq<HistoryItem>)
    ensures SteeringTexts(a + b) == SteeringTexts(a) + SteeringTexts(b)
  {
    if b == [] {
      assert a + b == a;
    } else {
      assert (a + b)[..|a + b| - 1] == a + b[..|b| - 1];
      SteeringConcat(a, b[..|b| - 1]);
    }
  }

  lemma {:induction false} NoSteering(items: seq<HistoryItem>)
    requires forall item | item in items :: !item.UserItem?
    ensures SteeringTexts(items) == []
  {
    if items != [] {
      assert items[|items| - 1] in items;
      NoSteering(items[..|items| - 1]);
    }
  }

  predicate OutputsBounded(items: seq<HistoryItem>, maxOutput: nat) {
    forall item | item in items && item.ResultItem? ::
      Utf8Len(item.output) <= maxOutput && ValidText(item.output, MAX_TEXT_BYTES, true)
  }

  /** The prompt comes first and everything after it is steering, assistants or results. */
  predicate StartsWithPrompt(items: seq<HistoryItem>, input: UserInput) {
    && items != [] && items[0] == UserItem(PromptInput, input)
    && forall i | 1 <= i < |items| && items[i].UserItem? :: items[i].kind == Steering
  }

  /** What every appended history satisfies, complete turns or not. */
  ghost predicate HistoryOk(items: seq<HistoryItem>, taken: seq<UserInput>, input: UserInput, maxOutput: nat) {
    && StartsWithPrompt(items, input)
    && LoopItems(items)
    && SteeringTexts(items) == taken
    && OutputsBounded(items, maxOutput)
  }

  lemma HistoryBegins(input: UserInput, maxOutput: nat)
    ensures HistoryOk([UserItem(PromptInput, input)], [], input, maxOutput)
    ensures Settled([UserItem(PromptInput, input)])
  {
    var items := [UserItem(PromptInput, input)];
    assert items[1..] == [] && items[..0] == [];
  }

  lemma {:induction false} HistoryExtends(items: seq<HistoryItem>, more: seq<HistoryItem>, taken: seq<UserInput>,
                                          extra: seq<UserInput>, input: UserInput, maxOutput: nat)
    requires HistoryOk(items, taken, input, maxOutput)
    requires LoopItems(more) && SteeringTexts(more) == extra && OutputsBounded(more, maxOutput)
    requires forall item | item in more && item.UserItem? :: item.kind == Steering
    ensures HistoryOk(items + more, taken + extra, input, maxOutput)
  {
    hide LoopItem, ValidText;
    SteeringConcat(items, more);
    forall i | 1 <= i < |items + more| && (items + more)[i].UserItem? ensures (items + more)[i].kind == Steering {
      if i >= |items| {
        assert (items + more)[i] == more[i - |items|];
      }
    }
  }

  lemma {:induction false} SteeringItem(items: seq<HistoryItem>, text: UserInput, taken: seq<UserInput>, input: UserInput, maxOutput: nat)
    requires HistoryOk(items, taken, input, maxOutput) && Settled(items)
    ensures HistoryOk(items + [UserItem(Steering, text)], taken + [text], input, maxOutput)
    ensures Settled(items + [UserItem(Steering, text)])
  {
    var more := [UserItem(Steering, text)];
    assert more[..0] == [];
    HistoryExtends(items, more, taken, [text], input, maxOutput);
    SettledUser(items, more[0]);
  }

  lemma {:induction false} AssistantAppended(items: seq<HistoryItem>, assistant: HistoryItem, taken: seq<UserInput>, input: UserInput, maxOutput: nat)
    requires HistoryOk(items, taken, input, maxOutput)
    requires assistant.AssistantItem? && LoopItem(assistant)
    ensures HistoryOk(items + [assistant], taken, input, maxOutput)
  {
    NoSteering([assistant]);
    HistoryExtends(items, [assistant], taken, [], input, maxOutput);
    assert taken + [] == taken;
  }

  lemma {:induction false} ResultsAppended(items: seq<HistoryItem>, results: seq<HistoryItem>, requestIndex: nat, calls: seq<ToolCall>,
                        taken: seq<UserInput>, input: UserInput, maxOutput: nat)
    requires HistoryOk(items, taken, input, maxOutput)
    requires Terminal(results, requestIndex, calls, maxOutput)
    ensures HistoryOk(items + results, taken, input, maxOutput)
  {
    forall item | item in results
      ensures item.ResultItem? && Utf8Len(item.output) <= maxOutput && ValidText(item.output, MAX_TEXT_BYTES, true)
    {
      var i :| 0 <= i < |results| && results[i] == item;
      assert ResultFor(results[i], requestIndex, calls[i], maxOutput);
    }
    NoSteering(results);
    HistoryExtends(items, results, taken, [], input, maxOutput);
    assert taken + [] == taken;
  }

  /** The user texts of a history are the prompt and the inputs taken. */
  lemma {:induction false} TextsAreInputs(items: seq<HistoryItem>, taken: seq<UserInput>, input: UserInput, maxOutput: nat)
    requires HistoryOk(items, taken, input, maxOutput)
    ensures UserTextsValid(items) <==> UserText(input) && forall t | t in taken :: UserText(t)
  {
    hide UserText, ValidText;
    var rest := items[1..];
    assert items == [items[0]] + rest;
    assert [items[0]][..0] == [];
    SteeringConcat([items[0]], rest);
    assert SteeringTexts([items[0]]) == [];
    assert SteeringTexts(items) == SteeringTexts(rest);
    forall i | 0 <= i < |rest| && rest[i].UserItem? ensures rest[i].kind == Steering {
      assert rest[i] == items[i + 1];
    }
    SteeringMembers(rest);
    assert items[0] in items;
  }

  lemma {:induction false} SteeringMembers(items: seq<HistoryItem>)
    requires forall i | 0 <= i < |items| && items[i].UserItem? :: items[i].kind == Steering
    ensures forall item | item in items && item.UserItem? :: item.text in SteeringTexts(items)
    ensures forall t | t in SteeringTexts(items) :: exists item :: item in items && item.UserItem? && item.text == t
  {
    if items != [] {
      var init, last := items[..|items| - 1], items[|items| - 1];
      SteeringMembers(init);
      assert items == init + [last];
      forall t | t in SteeringTexts(items) ensures exists item :: item in items && item.UserItem? && item.text == t {
        if t in SteeringTexts(init) {
          var item :| item in init && item.UserItem? && item.text == t;
          assert item in items;
        } else {
          assert last in items && last.UserItem? && last.text == t;
        }
      }
    }
  }

  /** A bell character is a legal user input that no request accepts. */
  lemma ControlCharacterIsRefused()
    ensures var bell: UserInput := "\U{0007}";
            !UserText(bell) && !BaseAccepted([UserItem(PromptInput, bell)])
  {
    var bell: UserInput := "\U{0007}";
    assert !UserText(bell) by {
      assert bell[0] in bell && !Displayable(bell[0]);
    }
    var items := [UserItem(PromptInput, bell)];
    HistoryBegins(bell, 0);
    SettledProjects(items);
    assert items[0] in items;
    hide UserText, Settled, WellFormed, LoopItems;
  }

  // ---- The config part --------------------------------------------------------------------

  /** The current config is the last one handed out, under the candidate revision or, if none, the issued one. */
  ghost predicate ConfigCoupled(run: RunState, s: ControlState) {
    && s.taken < |s.accepted|
    && run.config == s.accepted[s.taken]
    && s.current == run.issued <= RevisionOf(s.taken)
    && RevisionOf(s.taken) == if run.candidate.Some? then run.candidate.value else run.issued
  }

  lemma CouplingBegins(req: LoopRequest)
    ensures ConfigCoupled(Begin(req), Initial(req.config))
  {
  }

  lemma CouplingKept(run: RunState, s: ControlState, t: ControlState)
    requires ConfigCoupled(run, s) && Persists(s, t)
    ensures ConfigCoupled(run, t)
  {
    hide StatusGrows, InteractionsGrow;
  }

  function WithCandidate(run: RunState, taken: Option<PendingConfig>): RunState {
    if taken.None? then run else run.(config := taken.value.config, candidate := Some(taken.value.revision))
  }

  /** Taking a config moves the candidate along with it. */
  lemma CouplingTakes(run: RunState, s: ControlState)
    requires Inv(s) && ConfigCoupled(run, s)
    ensures ConfigCoupled(WithCandidate(run, s.pending), Apply(s, TakeConfig).0)
    ensures s.pending.None? ==> Apply(s, TakeConfig).0 == s
  {
    hide SlotInv, StatusInv, Settle;
    TakeStep(s);
  }

  // ---- The requests ---------------------------------------------------------------------------

  /** The config that serves the request is the `index`-th accepted one, and its revision is the one committed. */
  ghost predicate ServedBy(issue: Issue, index: nat, s: ControlState) {
    && index <= s.taken < |s.accepted|
    && issue.config == s.accepted[index]
    && issue.revision == RevisionOf(index)
  }

  /** Some accepted config serves the request under its own revision. */
  ghost predicate Served(issue: Issue, s: ControlState) {
    exists index :: ServedBy(issue, index, s)
  }

  /** What holds of the k-th issued request, from the point of view of a later state. */
  ghost predicate IssueOk(issue: Issue, k: nat, s: ControlState, base: seq<HistoryItem>) {
    && issue.requestIndex == Min(k, U32_MAX)
    && Served(issue, s)
    && Settled(issue.preparedFrom)
    && SteeringTexts(issue.preparedFrom) == issue.inputs
    && PromptFor(issue.config.prompt, base + issue.preparedFrom, issue.messages)
    && WellFormed(issue.messages)
  }

  /** What the default provider must have prepared; a host provider may return any non-empty prompt. */
  predicate PromptFor(provider: PromptProvider, history: seq<HistoryItem>, messages: seq<ModelMessage>) {
    && messages != []
    && match provider
       case DefaultProvider(system) =>
         ProjectAll(history).Some? && messages == SystemMessages(system) + ProjectAll(history).value
       case HostProvider(_) => true
  }

  ghost predicate IssuesOk(run: RunState, s: ControlState, base: seq<HistoryItem>) {
    && (forall k | 0 <= k < |run.issues| :: IssueOk(run.issues[k], k, s, base))
    && (forall j, k | 0 <= j < k < |run.issues| ::
          run.issues[j].revision <= run.issues[k].revision && run.issues[j].inputs <= run.issues[k].inputs)
    && (forall k | 0 <= k < |run.issues| :: run.issues[k].inputs <= run.taken)
    && run.issued == (if run.issues == [] then 0 else run.issues[|run.issues| - 1].revision)
    && run.lastIssued == (if run.issues == [] then None else Some(run.issues[|run.issues| - 1].requestIndex))
    && run.requests == Min(|run.issues|, U32_MAX)
  }

  lemma IssuesKept(run: RunState, s: ControlState, t: ControlState, base: seq<HistoryItem>)
    requires IssuesOk(run, s, base)
    requires s.accepted <= t.accepted && s.taken <= t.taken < |t.accepted|
    ensures IssuesOk(run, t, base)
  {
    hide Settled, WellFormed, PromptFor, RevisionOf;
    forall k | 0 <= k < |run.issues| ensures IssueOk(run.issues[k], k, t, base) {
      assert IssueOk(run.issues[k], k, s, base);
      ServedLasts(run.issues[k], s, t);
    }
  }

  /** The locals the request trace depends on. */
  function IssueFields(run: RunState): (seq<Issue>, nat, Option<nat>, nat) {
    (run.issues, run.issued, run.lastIssued, run.requests)
  }

  lemma IssuesFrame(run: RunState, next: RunState, s: ControlState, base: seq<HistoryItem>)
    requires IssuesOk(run, s, base) && IssueFields(next) == IssueFields(run) && run.taken <= next.taken
    ensures IssuesOk(next, s, base)
  {
    hide IssueOk;
  }

  /** The revision the next request commits: the candidate's, or the one issued last. */
  function NextRevision(run: RunState): nat {
    if run.candidate.Some? then run.candidate.value else run.issued
  }

  /** The issue boundary: the candidate is committed together with the request it serves. */
  function IssueNow(run: RunState, preparedFrom: seq<HistoryItem>, messages: seq<ModelMessage>): RunState {
    var revision := NextRevision(run);
    run.(candidate := None, issued := revision, requests := Min(run.requests + 1, U32_MAX),
         lastIssued := Some(run.requestIndex),
         issues := run.issues + [Issue(run.requestIndex, revision, run.config, preparedFrom, run.taken, messages)])
  }

  lemma {:induction false} IssueStep(run: RunState, s: ControlState, base: seq<HistoryItem>, preparedFrom: seq<HistoryItem>, messages: seq<ModelMessage>)
    requires ConfigCoupled(run, s) && IssuesOk(run, s, base)
    requires run.requestIndex == Min(|run.issues|, U32_MAX)
    requires Settled(preparedFrom) && SteeringTexts(preparedFrom) == run.taken
    requires PromptFor(run.config.prompt, base + preparedFrom, messages) && WellFormed(messages)
    ensures var next := IssueNow(run, preparedFrom, messages);
            var t := Apply(s, CommitRevision(next.issued)).0;
            ConfigCoupled(next, t) && IssuesOk(next, t, base)
  {
    hide Settled, WellFormed, PromptFor, SteeringTexts;
    var next := IssueNow(run, preparedFrom, messages);
    var t := Apply(s, CommitRevision(next.issued)).0;
    var n := |run.issues|;
    assert ServedBy(next.issues[n], s.taken, t);
    assert IssueOk(next.issues[n], n, t, base);
    hide Served, RevisionOf;
    forall k | 0 <= k < n ensures IssueOk(next.issues[k], k, t, base) && next.issues[k].revision <= next.issued {
      assert IssueOk(run.issues[k], k, s, base);
      ServedLasts(run.issues[k], s, t);
      ServedBefore(run.issues[k], s);
    }
    hide IssueOk;
  }

  lemma ServedLasts(issue: Issue, s: ControlState, t: ControlState)
    requires Served(issue, s) && s.accepted <= t.accepted && s.taken <= t.taken < |t.accepted|
    ensures Served(issue, t)
  {
    var index :| ServedBy(issue, index, s);
    assert ServedBy(issue, index, t);
  }

  lemma ServedBefore(issue: Issue, s: ControlState)
    requires Served(issue, s)
    ensures issue.revision <= RevisionOf(s.taken)
  {
  }

  // ---- The responses --------------------------------------------------------------------------

  /** `unwrap_or_default` on a response's usage. */
  function UsageOf(r: ModelResponse): Usage {
    if r.usage.Some? then r.usage.value else NO_USAGE
  }

  function TotalUsage(rs: seq<ModelResponse>): Option<Usage> {
    if rs == [] then Some(NO_USAGE)
    else
      var init := TotalUsage(rs[..|rs| - 1]);
      if init.None? then None else SumUsage(init.value, UsageOf(rs[|rs| - 1]))
  }

  datatype UsageField = InputTokens | OutputTokens | ReasoningTokens | CacheReadTokens | CacheWriteTokens | ProviderTotal

  function Field(u: Usage, f: UsageField): Option<nat> {
    match f
    case InputTokens => u.input
    case OutputTokens => u.output
    case ReasoningTokens => u.reasoning
    case CacheReadTokens => u.cacheRead
    case CacheWriteTokens => u.cacheWrite
    case ProviderTotal => u.providerTotal
  }

  /** The count response `r` reported for `f`. */
  function Reported(r: ModelResponse, f: UsageField): Option<nat> {
    if r.usage.None? then None else Field(r.usage.value, f)
  }

  /** Everything the responses reported for one field, added up. */
  function FieldSum(rs: seq<ModelResponse>, f: UsageField): nat {
    if rs == [] then 0
    else
      var last := Reported(rs[|rs| - 1], f);
      FieldSum(rs[..|rs| - 1], f) + (if last.Some? then last.value else 0)
  }

  predicate SomeReported(rs: seq<ModelResponse>, f: UsageField) {
    exists i :: 0 <= i < |rs| && Reported(rs[i], f).Some?
  }

  /** The counts are 64-bit. */
  predicate CountsInRange(rs: seq<ModelResponse>) {
    forall i, f | 0 <= i < |rs| && Reported(rs[i], f).Some? :: Reported(rs[i], f).value <= U64_MAX
  }

  lemma ReportedSnoc(rs: seq<ModelResponse>, r: ModelResponse, f: UsageField)
    ensures SomeReported(rs + [r], f) <==> SomeReported(rs, f) || Reported(r, f).Some?
    ensures FieldSum(rs + [r], f) == FieldSum(rs, f) + if Reported(r, f).Some? then Reported(r, f).value else 0
  {
    hide Reported;
    var longer := rs + [r];
    assert longer[..|rs|] == rs && longer[|rs|] == r;
    assert forall i | 0 <= i < |rs| :: longer[i] == rs[i];
  }

  lemma {:induction false} NothingReported(rs: seq<ModelResponse>, f: UsageField)
    ensures !SomeReported(rs, f) ==> FieldSum(rs, f) == 0
  {
    hide Reported;
    if rs != [] {
      var init := rs[..|rs| - 1];
      assert init + [rs[|rs| - 1]] == rs;
      ReportedSnoc(init, rs[|rs| - 1], f);
      NothingReported(init, f);
    }
  }

  /** One addition, in one field. */
  lemma SumInField(a: Usage, b: Usage, f: UsageField)
    requires SumUsage(a, b).Some?
    ensures SumField(Field(a, f), Field(b, f)) == Some(Field(SumUsage(a, b).value, f))
  {
    hide SumField;
  }

  /** An addition fails in some field. */
  lemma SumFailsIn(a: Usage, b: Usage) returns (f: UsageField)
    requires SumUsage(a, b).None?
    ensures SumField(Field(a, f), Field(b, f)).None?
  {
    hide SumField;
    f := if SumField(a.input, b.input).None? then InputTokens
         else if SumField(a.output, b.output).None? then OutputTokens
         else if SumField(a.reasoning, b.reasoning).None? then ReasoningTokens
         else if SumField(a.cacheRead, b.cacheRead).None? then CacheReadTokens
         else if SumField(a.cacheWrite, b.cacheWrite).None? then CacheWriteTokens
         else ProviderTotal;
  }

  /** The total of the responses in one field, once their usage has one. */
  lemma FieldStep(init: seq<ModelResponse>, last: ModelResponse, total: Usage, f: UsageField)
    requires Field(total, f) == if SomeReported(init, f) then Some(FieldSum(init, f)) else None
    requires FieldSum(init, f) <= U64_MAX && (Reported(last, f).Some? ==> Reported(last, f).value <= U64_MAX)
    ensures var rs := init + [last];
            SumField(Field(total, f), Field(UsageOf(last), f))
            == if FieldSum(rs, f) > U64_MAX then None else Some(if SomeReported(rs, f) then Some(FieldSum(rs, f)) else None)
  {
    assert Field(UsageOf(last), f) == Reported(last, f);
    hide Reported, Field, UsageOf;
    ReportedSnoc(init, last, f);
    NothingReported(init, f);
    hide SomeReported, FieldSum;
  }

  /**
   * Usage accumulates field by field: a field nobody reported stays unknown,
   * one that somebody reported is the sum of what was, and the total fails
   * exactly when one of these sums leaves the range of the counter.
   */
  lemma {:induction false} UsageIsSummed(rs: seq<ModelResponse>)
    requires CountsInRange(rs)
    ensures TotalUsage(rs).Some? <==> forall f :: FieldSum(rs, f) <= U64_MAX
    ensures TotalUsage(rs).Some? ==>
      forall f :: Field(TotalUsage(rs).value, f) == if SomeReported(rs, f) then Some(FieldSum(rs, f)) else None
  {
    if rs == [] {
      assert forall f :: Field(NO_USAGE, f).None?;
    } else {
      var init, last := rs[..|rs| - 1], rs[|rs| - 1];
      assert init + [last] == rs && CountsInRange(init);
      UsageIsSummed(init);
      if TotalUsage(init).Some? {
        LastUsage(rs, init, last, TotalUsage(init).value);
      } else {
        var f :| FieldSum(init, f) > U64_MAX;
        ReportedSnoc(init, last, f);
      }
    }
  }

  lemma LastUsage(rs: seq<ModelResponse>, init: seq<ModelResponse>, last: ModelResponse, total: Usage)
    requires rs == init + [last] && CountsInRange(rs) && TotalUsage(init) == Some(total)
    requires forall f :: Field(total, f) == if SomeReported(init, f) then Some(FieldSum(init, f)) else None
    requires forall f :: FieldSum(init, f) <= U64_MAX
    ensures TotalUsage(rs).Some? <==> forall f :: FieldSum(rs, f) <= U64_MAX
    ensures TotalUsage(rs).Some? ==>
      forall f :: Field(TotalUsage(rs).value, f) == if SomeReported(rs, f) then Some(FieldSum(rs, f)) else None
  {
    assert rs[..|rs| - 1] == init && rs[|rs| - 1] == last;
    assert TotalUsage(rs) == SumUsage(total, UsageOf(last));
    assert forall f | Reported(last, f).Some? :: Reported(last, f).value <= U64_MAX by {
      assert rs[|rs| - 1] == last;
    }
    hide Reported, Field, SumUsage, SumField, CountsInRange, UsageOf, SomeReported, FieldSum, TotalUsage;
    forall f
      ensures SumField(Field(total, f), Field(UsageOf(last), f))
           == if FieldSum(rs, f) > U64_MAX then None else Some(if SomeReported(rs, f) then Some(FieldSum(rs, f)) else None)
    {
      FieldStep(init, last, total, f);
    }
    if TotalUsage(rs).Some? {
      forall f
        ensures FieldSum(rs, f) <= U64_MAX
        ensures Field(TotalUsage(rs).value, f) == if SomeReported(rs, f) then Some(FieldSum(rs, f)) else None
      {
        SumInField(total, UsageOf(last), f);
      }
    } else {
      var f := SumFailsIn(total, UsageOf(last));
      assert FieldSum(rs, f) > U64_MAX;
    }
  }

  function AssistantItems(items: seq<HistoryItem>): seq<HistoryItem> {
    if items == [] then []
    else
      var last := items[|items| - 1];
      AssistantItems(items[..|items| - 1]) + (if last.AssistantItem? then [last] else [])
  }

  /** The history item of the k-th response. */
  function TurnItem(k: nat, r: ModelResponse): HistoryItem {
    AssistantItem(Min(k, U32_MAX), r.parts, r.replay, r.finishReason, UsageOf(r))
  }

  /**
   * The assistant items are the responses, in order and verbatim; at most the
   * last response is not (or not yet) in the history. Usage is their sum.
   */
  ghost predicate Responded(run: RunState, items: seq<HistoryItem>) {
    var turns := AssistantItems(items);
    && |turns| <= |run.responses| <= |turns| + 1
    && (forall k | 0 <= k < |turns| :: turns[k] == TurnItem(k, run.responses[k]))
    && |run.responses| <= |run.issues|
    && TotalUsage(run.responses) == Some(run.usage)
  }

  /** The driver request of an issue: its config's own catalog. */
  function RequestOf(issue: Issue, o: LoopOptions): Request {
    Request(issue.config.tools.specs, o.limits, o.codec)
  }

  /** Each response answers its own request: it is valid and calls only tools of the config that served it. */
  ghost predicate ResponsesFit(run: RunState, o: LoopOptions) {
    && |run.responses| <= |run.issues|
    && forall k | 0 <= k < |run.responses| :: ResponseFor(run.responses[k], RequestOf(run.issues[k], o))
  }

  /** The locals the responses depend on. */
  lemma ResponsesFrame(run: RunState, next: RunState, items: seq<HistoryItem>, o: LoopOptions)
    requires Responded(run, items) && ResponsesFit(run, o)
    requires next.responses == run.responses && next.usage == run.usage && run.issues <= next.issues
    ensures Responded(next, items) && ResponsesFit(next, o)
  {
    hide ResponseFor, AssistantItems, TotalUsage;
  }

  lemma {:induction false} FitStep(run: RunState, response: ModelResponse, usage: Usage, o: LoopOptions)
    requires ResponsesFit(run, o) && |run.responses| < |run.issues|
    requires ResponseFor(response, RequestOf(run.issues[|run.responses|], o))
    ensures ResponsesFit(Respond(run, response, usage), o)
  {
    hide ResponseFor, RequestOf;
  }

  lemma {:induction false} AssistantsConcat(a: seq<HistoryItem>, b: seq<HistoryItem>)
    ensures AssistantItems(a + b) == AssistantItems(a) + AssistantItems(b)
  {
    if b == [] {
      assert a + b == a;
    } else {
      assert (a + b)[..|a + b| - 1] == a + b[..|b| - 1];
      AssistantsConcat(a, b[..|b| - 1]);
    }
  }

  lemma {:induction false} NoAssistants(items: seq<HistoryItem>)
    requires forall item | item in items :: !item.AssistantItem?
    ensures AssistantItems(items) == []
  {
    if items != [] {
      assert items[|items| - 1] in items;
      NoAssistants(items[..|items| - 1]);
    }
  }

  lemma {:induction false} OneAssistant(item: HistoryItem)
    ensures AssistantItems([item]) == if item.AssistantItem? then [item] else []
  {
    assert [item][..0] == [];
  }

  /** A response arrives and its usage is added. */
  function Respond(run: RunState, response: ModelResponse, usage: Usage): RunState {
    run.(responses := run.responses + [response], usage := usage)
  }

  lemma {:induction false} RespondStep(run: RunState, items: seq<HistoryItem>, response: ModelResponse, usage: Usage)
    requires Responded(run, items) && |run.responses| == |AssistantItems(items)| < |run.issues|
    requires SumUsage(run.usage, UsageOf(response)) == Some(usage)
    ensures Responded(Respond(run, response, usage), items)
  {
    hide SumUsage;
    var longer := run.responses + [response];
    assert longer[..|longer| - 1] == run.responses;
  }

  // ---- Counting -------------------------------------------------------------------------------

  /** One batch per request except possibly the last (`open`), and the round limit. */
  predicate Counted(run: RunState, open: nat, o: LoopOptions) {
    && |run.issues| == run.batches + open
    && run.toolRounds == Min(run.batches, U64_MAX)
    && (o.maxToolRounds != 0 ==> run.batches <= o.maxToolRounds)
  }

  // ---- The invariant ----------------------------------------------------------------------------

  /** What every reachable state of the loop satisfies; `settled` except inside a batch. */
  ghost predicate RunInv(run: RunState, items: seq<HistoryItem>, s: ControlState, open: nat, req: LoopRequest, o: LoopOptions) {
    && HistoryOk(items, run.taken, req.input, o.limits.maxToolOutput)
    && ConfigCoupled(run, s)
    && IssuesOk(run, s, req.history)
    && Counted(run, open, o)
    && Responded(run, items) && ResponsesFit(run, o)
    && s.status != Sealed
  }

  lemma RunBegins(req: LoopRequest, o: LoopOptions)
    ensures RunInv(Begin(req), [UserItem(PromptInput, req.input)], Initial(req.config), 0, req, o)
    ensures AssistantItems([UserItem(PromptInput, req.input)]) == []
    ensures Settled([UserItem(PromptInput, req.input)])
  {
    HistoryBegins(req.input, o.limits.maxToolOutput);
    CouplingBegins(req);
    OneAssistant(UserItem(PromptInput, req.input));
    hide AssistantItems, HistoryOk, ConfigCoupled;
  }

  /** The loop's invariant survives other threads and tool batches. */
  lemma RunPersists(run: RunState, items: seq<HistoryItem>, s: ControlState, t: ControlState, open: nat, req: LoopRequest, o: LoopOptions)
    requires RunInv(run, items, s, open, req, o) && Persists(s, t)
    ensures RunInv(run, items, t, open, req, o)
  {
    CouplingKept(run, s, t);
    hide StatusGrows, InteractionsGrow, IssuesOk, HistoryOk, Counted, Responded, ResponsesFit;
    IssuesKept(run, s, t, req.history);
  }

  lemma RunKept(run: RunState, items: seq<HistoryItem>, s: ControlState, t: ControlState, open: nat, req: LoopRequest, o: LoopOptions)
    requires RunInv(run, items, s, open, req, o) && Keeps(s, t)
    ensures RunInv(run, items, t, open, req, o)
  {
    hide RunInv, Persists;
    RunPersists(run, items, s, t, open, req, o);
  }

  lemma CoupledInRange(run: RunState, s: ControlState)
    requires ConfigCoupled(run, s)
    ensures s.taken < |s.accepted|
  {
  }

  lemma TakeKeepsStatus(s: ControlState)
    ensures Apply(s, TakeConfig).0.status == s.status
  {
  }

  /** A boundary take: the config moves with its revision and every input becomes a steering item. */
  lemma RunTakesConfig(run: RunState, items: seq<HistoryItem>, s: ControlState, open: nat, req: LoopRequest, o: LoopOptions)
    requires RunInv(run, items, s, open, req, o) && Inv(s)
    ensures RunInv(WithCandidate(run, s.pending), items, Apply(s, TakeConfig).0, open, req, o)
  {
    hide HistoryOk, Inv, StatusGrows, InteractionsGrow, IssuesOk, Responded, ResponsesFit, ConfigCoupled, Apply;
    var next, t := WithCandidate(run, s.pending), Apply(s, TakeConfig).0;
    CouplingTakes(run, s);
    CoupledInRange(next, t);
    CoupledInRange(run, s);
    ApplyKeepsInv(s, TakeConfig);
    TakeKeepsStatus(s);
    ResponsesFrame(run, next, items, o);
    IssuesKept(run, s, t, req.history);
    IssuesFrame(run, next, t, req.history);
  }

  lemma {:induction false} RunTakesInput(run: RunState, items: seq<HistoryItem>, text: UserInput, s: ControlState, open: nat, req: LoopRequest, o: LoopOptions)
    requires RunInv(run, items, s, open, req, o) && Settled(items)
    ensures RunInv(run.(taken := run.taken + [text]), items + [UserItem(Steering, text)], s, open, req, o)
    ensures Settled(items + [UserItem(Steering, text)])
    ensures AssistantItems(items + [UserItem(Steering, text)]) == AssistantItems(items)
  {
    OneAssistant(UserItem(Steering, text));
    AssistantsConcat(items, [UserItem(Steering, text)]);
    hide HistoryOk, IssuesOk, AssistantItems, TotalUsage, ResponsesFit;
    ResponsesFrame(run, run.(taken := run.taken + [text]), items, o);
    SteeringItem(items, text, run.taken, req.input, o.limits.maxToolOutput);
    IssuesFrame(run, run.(taken := run.taken + [text]), s, req.history);
  }

  lemma CommitKeepsStatus(s: ControlState, revision: nat)
    ensures Apply(s, CommitRevision(revision)).0.status == s.status
  {
  }

  /** A request goes out under the config and the history it was prepared from. */
  lemma {:induction false} RunIssues(run: RunState, items: seq<HistoryItem>, messages: seq<ModelMessage>, s: ControlState, req: LoopRequest, o: LoopOptions)
    requires RunInv(run, items, s, 0, req, o) && Settled(items)
    requires run.requestIndex == Min(|run.issues|, U32_MAX)
    requires PromptFor(run.config.prompt, req.history + items, messages) && WellFormed(messages)
    ensures var next := IssueNow(run, items, messages);
            RunInv(next, items, Apply(s, CommitRevision(next.issued)).0, 1, req, o)
  {
    assert SteeringTexts(items) == run.taken;
    hide Settled, WellFormed, PromptFor, HistoryOk, ConfigCoupled, IssuesOk, Responded, ResponsesFit, SteeringTexts;
    var next := IssueNow(run, items, messages);
    ResponsesFrame(run, next, items, o);
    CommitKeepsStatus(s, next.issued);
    IssueStep(run, s, req.history, items, messages);
  }

  /** The locals the invariant does not mention. */
  lemma RunFrame(run: RunState, next: RunState, items: seq<HistoryItem>, s: ControlState, open: nat, req: LoopRequest, o: LoopOptions)
    requires RunInv(run, items, s, open, req, o)
    requires next == run.(requestIndex := next.requestIndex)
    ensures RunInv(next, items, s, open, req, o)
  {
    hide HistoryOk, IssuesOk, Responded, ResponsesFit;
    ResponsesFrame(run, next, items, o);
    IssuesFrame(run, next, s, req.history);
  }

  lemma RunResponds(run: RunState, items: seq<HistoryItem>, response: ModelResponse, usage: Usage,
                    s: ControlState, open: nat, req: LoopRequest, o: LoopOptions)
    requires RunInv(run, items, s, open, req, o)
    requires |run.responses| == |AssistantItems(items)| < |run.issues|
    requires SumUsage(run.usage, UsageOf(response)) == Some(usage)
    requires ResponseFor(response, RequestOf(run.issues[|run.responses|], o))
    ensures RunInv(Respond(run, response, usage), items, s, open, req, o)
  {
    hide HistoryOk, IssuesOk, Responded, SumUsage, AssistantItems, ResponseFor, RequestOf, ResponsesFit;
    RespondStep(run, items, response, usage);
    FitStep(run, response, usage, o);
    IssuesFrame(run, Respond(run, response, usage), s, req.history);
  }

  /** The assistant item of the latest response enters the history. */
  lemma RunAssistant(run: RunState, items: seq<HistoryItem>, assistant: HistoryItem, s: ControlState, open: nat, req: LoopRequest, o: LoopOptions)
    requires RunInv(run, items, s, open, req, o) && assistant.AssistantItem? && LoopItem(assistant)
    requires var k := |AssistantItems(items)|; |run.responses| == k + 1 && assistant == TurnItem(k, run.responses[k])
    ensures RunInv(run, items + [assistant], s, open, req, o)
    ensures |AssistantItems(items + [assistant])| == |run.responses|
  {
    OneAssistant(assistant);
    AssistantsConcat(items, [assistant]);
    hide HistoryOk, IssuesOk, ConfigCoupled, LoopItem, AssistantItems, TotalUsage, ResponsesFit;
    AssistantAppended(items, assistant, run.taken, req.input, o.limits.maxToolOutput);
  }

  lemma {:induction false} RunResults(run: RunState, items: seq<HistoryItem>, results: seq<HistoryItem>, requestIndex: nat, calls: seq<ToolCall>,
                   s: ControlState, open: nat, req: LoopRequest, o: LoopOptions)
    requires RunInv(run, items, s, open, req, o) && Terminal(results, requestIndex, calls, o.limits.maxToolOutput)
    ensures RunInv(run, items + results, s, open, req, o)
    ensures AssistantItems(items + results) == AssistantItems(items)
  {
    forall item | item in results ensures !item.AssistantItem? {
      var i :| 0 <= i < |results| && results[i] == item;
      ResultIsItem(results[i], requestIndex, calls[i], o.limits.maxToolOutput);
    }
    NoAssistants(results);
    AssistantsConcat(items, results);
    hide HistoryOk, IssuesOk, ConfigCoupled, Terminal, AssistantItems, TotalUsage, ResponsesFit;
    ResultsAppended(items, results, requestIndex, calls, run.taken, req.input, o.limits.maxToolOutput);
  }

  function EnterBatch(run: RunState): RunState {
    run.(toolRounds := Min(run.toolRounds + 1, U64_MAX), batches := run.batches + 1)
  }

  /** A batch is entered only below the round limit. */
  lemma RunEnters(run: RunState, items: seq<HistoryItem>, s: ControlState, req: LoopRequest, o: LoopOptions)
    requires RunInv(run, items, s, 1, req, o) && OptionsValid(o)
    requires o.maxToolRounds == 0 || run.toolRounds < o.maxToolRounds
    ensures RunInv(EnterBatch(run), items, s, 0, req, o)
  {
    hide HistoryOk, IssuesOk, Responded, ResponsesFit;
    ResponsesFrame(run, EnterBatch(run), items, o);
    IssuesFrame(run, EnterBatch(run), s, req.history);
  }

  // ---- What a run's trace means -----------------------------------------------------------------

  /** Request indices are 0, 1, 2, ... without gaps, up to the counter's range, and the counter counts them. */
  predicate RequestsNumbered(run: RunState) {
    && (forall k | 0 <= k < |run.issues| :: run.issues[k].requestIndex == Min(k, U32_MAX))
    && run.requests == Min(|run.issues|, U32_MAX)
  }

  /** Batches <= requests <= batches + 1; a round limit m allows m batches and m + 1 requests. */
  predicate RoundsBounded(run: RunState, o: LoopOptions) {
    && run.batches <= |run.issues| <= run.batches + 1
    && run.toolRounds == Min(run.batches, U64_MAX)
    && (o.maxToolRounds != 0 ==> run.batches <= o.maxToolRounds && |run.issues| <= o.maxToolRounds + 1)
  }

  /** Each committed revision is that of the accepted config that serves its request, and they never decrease. */
  ghost predicate RevisionsServe(run: RunState, s: ControlState) {
    && (forall k | 0 <= k < |run.issues| :: Served(run.issues[k], s))
    && (forall j, k | 0 <= j <= k < |run.issues| :: run.issues[j].revision <= run.issues[k].revision)
    && run.issued == (if run.issues == [] then 0 else run.issues[|run.issues| - 1].revision)
  }

  /** Every issued prompt is the projection of a settled history holding exactly its inputs, and was accepted. */
  ghost predicate PromptsFresh(run: RunState, base: seq<HistoryItem>) {
    forall k | 0 <= k < |run.issues| ::
      && SteeringTexts(run.issues[k].preparedFrom) == run.issues[k].inputs
      && Settled(run.issues[k].preparedFrom)
      && PromptFor(run.issues[k].config.prompt, base + run.issues[k].preparedFrom, run.issues[k].messages)
      && WellFormed(run.issues[k].messages)
  }

  lemma IssuesMean(run: RunState, s: ControlState, base: seq<HistoryItem>)
    requires IssuesOk(run, s, base)
    ensures RequestsNumbered(run) && RevisionsServe(run, s) && PromptsFresh(run, base)
  {
    hide Settled, WellFormed, PromptFor, SteeringTexts, Served;
    forall k | 0 <= k < |run.issues|
      ensures run.issues[k].requestIndex == Min(k, U32_MAX)
      ensures Served(run.issues[k], s)
      ensures SteeringTexts(run.issues[k].preparedFrom) == run.issues[k].inputs && Settled(run.issues[k].preparedFrom)
      ensures PromptFor(run.issues[k].config.prompt, base + run.issues[k].preparedFrom, run.issues[k].messages)
      ensures WellFormed(run.issues[k].messages)
    {
      assert IssueOk(run.issues[k], k, s, base);
    }
  }

  /** What the invariant says about the trace. */
  lemma RunInvMeans(run: RunState, items: seq<HistoryItem>, s: ControlState, open: nat, req: LoopRequest, o: LoopOptions)
    requires RunInv(run, items, s, open, req, o) && open <= 1
    ensures RequestsNumbered(run) && RoundsBounded(run, o) && RevisionsServe(run, s) && PromptsFresh(run, req.history)
  {
    hide HistoryOk, IssuesOk, RequestsNumbered, RevisionsServe, PromptsFresh, ConfigCoupled, Responded, ResponsesFit;
    IssuesMean(run, s, req.history);
  }
}
