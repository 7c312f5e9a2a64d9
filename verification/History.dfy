/** Loop history and its default prompt projection: src/history.rs and src/prompt.rs. */
module History {
  import opened Common
  import opened Text
  import opened Messages
  import opened Exchange

  const SUMMARY_PREFIX: string := "Conversation summary:\n"
  const SUMMARY_PREFIX_BYTES: nat := 22

  datatype UserMessageKind = PromptInput | Steering

  datatype HistoryItem =
    | UserItem(kind: UserMessageKind, text: string)
    | AssistantItem(requestIndex: nat, parts: seq<AssistantPart>, replay: Option<string>,
                    finishReason: ModelFinishReason, usage: Usage)
    | ResultItem(requestIndex: nat, callId: CallId, toolName: ToolName, outcome: ToolResultOutcome, output: string)
    | SummaryItem(content: string)

  /** The host's base history and what this loop appended. */
  class WorkingHistory {
    const base: seq<HistoryItem>
    var appended: seq<HistoryItem>

    constructor (base: seq<HistoryItem>)
      ensures this.base == base && appended == []
    {
      this.base := base;
      appended := [];
    }

    method Append(item: HistoryItem)
      modifies this
      ensures appended == old(appended) + [item]
    {
      appended := appended + [item];
    }
  }

  // ---- Settled histories -------------------------------------------------------------

  /** One terminal result per call, in call order, for the same request. */
  predicate AnsweredInOrder(requestIndex: nat, calls: seq<ToolCall>, results: seq<HistoryItem>) {
    && |results| == |calls|
    && forall i | 0 <= i < |calls| ::
         results[i].ResultItem? && results[i].requestIndex == requestIndex
         && results[i].callId == calls[i].id && results[i].toolName == calls[i].name
  }

  /** Every assistant item is followed by its results, in call order, before anything else. */
  predicate Settled(items: seq<HistoryItem>)
    decreases |items|
  {
    items == []
    || ((items[0].UserItem? || items[0].SummaryItem?) && Settled(items[1..]))
    || (items[0].AssistantItem?
        && var calls := Calls(items[0].parts);
           1 + |calls| <= |items|
           && AnsweredInOrder(items[0].requestIndex, calls, items[1..1 + |calls|])
           && Settled(items[1 + |calls|..]))
  }

  function TurnLen(item: HistoryItem): (n: nat)
    ensures n >= 1
  {
    if item.AssistantItem? then 1 + |Calls(item.parts)| else 1
  }

  lemma {:induction false} SettledConcat(a: seq<HistoryItem>, b: seq<HistoryItem>)
    requires Settled(a) && Settled(b)
    ensures Settled(a + b)
    decreases |a|
  {
    if a == [] {
      assert a + b == b;
    } else {
      hide Settled, AnsweredInOrder, Calls;
      var n := TurnLen(a[0]);
      SettledHead(a);
      ItemSlices(a, b, n);
      SettledConcat(a[n..], b);
      SettledHead(a + b);
    }
  }

  lemma ItemSlices(a: seq<HistoryItem>, b: seq<HistoryItem>, n: nat)
    requires 1 <= n <= |a|
    ensures (a + b)[0] == a[0] && (a + b)[1..n] == a[1..n] && (a + b)[n..] == a[n..] + b
  {
  }

  /** The first turn of a non-empty history, and the rest. */
  lemma SettledHead(items: seq<HistoryItem>)
    requires items != []
    ensures Settled(items)
       <==> !items[0].ResultItem? && TurnLen(items[0]) <= |items| && Settled(items[TurnLen(items[0])..])
            && (items[0].AssistantItem? ==>
                  AnsweredInOrder(items[0].requestIndex, Calls(items[0].parts), items[1..TurnLen(items[0])]))
  {
    hide AnsweredInOrder, Calls;
  }

  /** A settled history extended by one complete turn, or by one user item, is settled. */
  lemma SettledTurn(items: seq<HistoryItem>, assistant: HistoryItem, results: seq<HistoryItem>)
    requires Settled(items) && assistant.AssistantItem?
    requires AnsweredInOrder(assistant.requestIndex, Calls(assistant.parts), results)
    ensures Settled(items + [assistant] + results)
  {
    var turn := [assistant] + results;
    assert turn[1..1 + |results|] == results && turn[1 + |results|..] == [];
    SettledConcat(items, turn);
    assert items + turn == items + [assistant] + results;
  }

  lemma SettledUser(items: seq<HistoryItem>, user: HistoryItem)
    requires Settled(items) && user.UserItem?
    ensures Settled(items + [user])
  {
    assert [user][1..] == [];
    SettledConcat(items, [user]);
  }

  // ---- Summaries -----------------------------------------------------------------------

  /** The longest prefix of `s` whose UTF-8 form fits in `budget` bytes. */
  function LongestFitting(s: string, budget: nat): string {
    if s == [] || CharBytes(s[0]) > budget then []
    else [s[0]] + LongestFitting(s[1..], budget - CharBytes(s[0]))
  }

  lemma {:induction false} LongestFittingExact(s: string, budget: nat, k: nat)
    requires k <= |s|
    ensures LongestFitting(s, budget) <= s
    ensures Utf8Len(s[..k]) <= budget <==> k <= |LongestFitting(s, budget)|
  {
    hide Utf8Len, LongestFitting;
    FittingCons(s, budget);
    if k == 0 {
      assert s[..0] == [];
      Utf8Cons(s, 0);
      if s != [] && CharBytes(s[0]) <= budget {
        LongestFittingExact(s[1..], budget - CharBytes(s[0]), 0);
      }
    } else {
      Utf8Cons(s, k);
      if CharBytes(s[0]) <= budget {
        LongestFittingExact(s[1..], budget - CharBytes(s[0]), k - 1);
      }
    }
  }

  lemma FittingCons(s: string, budget: nat)
    ensures LongestFitting(s, budget)
         == if s == [] || CharBytes(s[0]) > budget then [] else [s[0]] + LongestFitting(s[1..], budget - CharBytes(s[0]))
  {
  }

  lemma Utf8Cons(s: string, k: nat)
    requires k <= |s|
    ensures Utf8Len(s[..k]) == if k == 0 then 0 else CharBytes(s[0]) + Utf8Len(s[1..][..k - 1])
  {
    if k > 0 {
      assert s[..k][1..] == s[1..][..k - 1];
    }
  }

  /** `str::is_char_boundary`: some prefix of `s` takes exactly `n` bytes. */
  predicate IsCharBoundary(s: string, n: nat) {
    exists k | 0 <= k <= |s| :: Utf8Len(s[..k]) == n
  }

  /** `&s[..n]` at a boundary. */
  function SliceBytes(s: string, n: nat): (t: string)
    requires IsCharBoundary(s, n)
    ensures t <= s && Utf8Len(t) == n
  {
    PrefixLengthsDiffer(s);
    var k :| 0 <= k <= |s| && Utf8Len(s[..k]) == n;
    s[..k]
  }

  lemma {:induction false} PrefixGrows(s: string, i: nat, j: nat)
    requires i < j <= |s|
    ensures Utf8Len(s[..i]) < Utf8Len(s[..j])
  {
    assert s[..j] == s[..i] + s[i..j];
    Utf8LenConcat(s[..i], s[i..j]);
  }

  lemma PrefixLengthsDiffer(s: string)
    ensures forall i, j | 0 <= i < j <= |s| :: Utf8Len(s[..i]) != Utf8Len(s[..j])
  {
    forall i, j | 0 <= i < j <= |s| ensures Utf8Len(s[..i]) != Utf8Len(s[..j]) {
      PrefixGrows(s, i, j);
    }
  }

  const SUMMARY_BUDGET: nat := MAX_MODEL_MESSAGE_TEXT_BYTES - SUMMARY_PREFIX_BYTES

  function SummaryText(content: string): string {
    SUMMARY_PREFIX + LongestFitting(content, SUMMARY_BUDGET)
  }

  lemma PrefixBytes()
    ensures Utf8Len(SUMMARY_PREFIX) == SUMMARY_PREFIX_BYTES
    ensures AllDisplayable(SUMMARY_PREFIX)
  {
    hide Utf8Len;
    assert forall i | 0 <= i < |SUMMARY_PREFIX| :: 0x20 <= SUMMARY_PREFIX[i] as int < 0x7F || SUMMARY_PREFIX[i] == '\n';
    AsciiBytes(SUMMARY_PREFIX);
  }

  /** A projected summary always fits; it is refused exactly when what remains of it cannot be displayed. */
  lemma SummaryFits(content: string)
    ensures ValidText(SummaryText(content), MAX_MODEL_MESSAGE_TEXT_BYTES, false)
       <==> AllDisplayable(LongestFitting(content, SUMMARY_BUDGET))
  {
    hide LongestFitting, Utf8Len, Displayable;
    var kept := LongestFitting(content, SUMMARY_BUDGET);
    PrefixBytes();
    Utf8LenConcat(SUMMARY_PREFIX, kept);
    LongestFittingExact(content, SUMMARY_BUDGET, 0);
    LongestFittingExact(content, SUMMARY_BUDGET, |kept|);
    assert content[..|kept|] == kept;
    if AllDisplayable(SummaryText(content)) {
      assert forall c | c in kept :: c in SummaryText(content);
    }
  }

  /** `summary_message`: walks back to a character boundary at or below the byte budget. */
  method SummaryMessage(content: string) returns (m: Option<ModelMessage>)
    ensures m == ProjectItem(SummaryItem(content))
  {
    var end := Utf8Len(content);
    assert content[..|content|] == content;
    assert content[..0] == [];
    var kept := LongestFitting(content, SUMMARY_BUDGET);
    LongestFittingExact(content, SUMMARY_BUDGET, |content|);
    assert Utf8Len(content) <= SUMMARY_BUDGET ==> kept == content;
    if SUMMARY_PREFIX_BYTES + end > MAX_MODEL_MESSAGE_TEXT_BYTES {
      end := SUMMARY_BUDGET;
      LongestFittingExact(content, SUMMARY_BUDGET, |kept|);
      assert IsCharBoundary(content, 0);
      assert content[..|kept|] == kept && IsCharBoundary(content, Utf8Len(kept));
      while end > 0 && !IsCharBoundary(content, end)
        invariant Utf8Len(kept) <= end <= SUMMARY_BUDGET
      {
        end := end - 1;
      }
    }
    assert end <= SUMMARY_BUDGET && Utf8Len(kept) <= end;
    var slice := SliceBytes(content, end);
    BoundaryIsLongest(content, slice);
    SummaryFits(content);
    var text := SUMMARY_PREFIX + slice;
    return if ValidText(text, MAX_MODEL_MESSAGE_TEXT_BYTES, false) then Some(System(text)) else None;
  }

  /** A fitting prefix at least as long in bytes as the longest one is the longest one. */
  lemma BoundaryIsLongest(content: string, slice: string)
    requires slice <= content
    requires Utf8Len(LongestFitting(content, SUMMARY_BUDGET)) <= Utf8Len(slice) <= SUMMARY_BUDGET
    ensures slice == LongestFitting(content, SUMMARY_BUDGET)
  {
    var kept := LongestFitting(content, SUMMARY_BUDGET);
    LongestFittingExact(content, SUMMARY_BUDGET, |slice|);
    assert content[..|slice|] == slice && content[..|kept|] == kept;
    if |slice| < |kept| {
      PrefixGrows(content, |slice|, |kept|);
    }
  }

  // ---- Projection --------------------------------------------------------------------------

  function ProjectItem(item: HistoryItem): Option<ModelMessage> {
    match item
    case UserItem(_, text) => Some(User(text))
    case AssistantItem(_, parts, replay, _, _) =>
      if AssistantAccepted(parts, replay) then Some(AssistantMessage(NormalizedParts(parts), replay)) else None
    case ResultItem(_, callId, _, outcome, output) => Some(Tool(callId, output, outcome))
    case SummaryItem(content) =>
      if AllDisplayable(LongestFitting(content, SUMMARY_BUDGET)) then Some(System(SummaryText(content))) else None
  }

  /** The projected messages in history order, when every item projects. */
  function ProjectAll(items: seq<HistoryItem>): Option<seq<ModelMessage>> {
    if items == [] then Some([])
    else
      var init := ProjectAll(items[..|items| - 1]);
      var last := ProjectItem(items[|items| - 1]);
      if init.Some? && last.Some? then Some(init.value + [last.value]) else None
  }

  lemma ProjectSnoc(items: seq<HistoryItem>, item: HistoryItem)
    ensures ProjectAll(items + [item])
         == if ProjectAll(items).Some? && ProjectItem(item).Some?
            then Some(ProjectAll(items).value + [ProjectItem(item).value]) else None
  {
    assert (items + [item])[..|items|] == items;
  }

  lemma {:induction false} ProjectConcat(a: seq<HistoryItem>, b: seq<HistoryItem>)
    ensures ProjectAll(a + b)
         == if ProjectAll(a).Some? && ProjectAll(b).Some?
            then Some(ProjectAll(a).value + ProjectAll(b).value) else None
  {
    hide ProjectItem;
    if b == [] {
      assert a + b == a;
      assert ProjectAll(a).Some? ==> ProjectAll(a).value + [] == ProjectAll(a).value;
    } else {
      var init, last := b[..|b| - 1], b[|b| - 1];
      ProjectConcat(a, init);
      assert a + b == (a + init) + [last] && b == init + [last];
      ProjectSnoc(a + init, last);
      ProjectSnoc(init, last);
      if ProjectAll(a).Some? && ProjectAll(init).Some? && ProjectItem(last).Some? {
        var x, y, z := ProjectAll(a).value, ProjectAll(init).value, [ProjectItem(last).value];
        assert (x + y) + z == x + (y + z);
      }
    }
  }

  function SystemMessages(system: Option<string>): seq<ModelMessage> {
    if system.Some? && system.value != [] then [System(system.value)] else []
  }

  // ---- What a message says about the item behind it -----------------------------------------

  /** Display texts are normalized, everything else is kept. */
  predicate PartReadsBack(from: AssistantPart, part: AssistantPart) {
    part == if from.TextPart? then TextPart(Normalize(from.text)) else from
  }

  /** The prefix, and as much of the summary as fits the message. */
  ghost predicate SummaryReadsBack(content: string, text: string) {
    exists n | 0 <= n <= |content| ::
      && text == SUMMARY_PREFIX + content[..n]
      && Utf8Len(text) <= MAX_MODEL_MESSAGE_TEXT_BYTES
      && (n < |content| ==> Utf8Len(SUMMARY_PREFIX + content[..n + 1]) > MAX_MODEL_MESSAGE_TEXT_BYTES)
  }

  /** What a message of the model's conversation says about the history item it stands for. */
  ghost predicate ReadsBack(item: HistoryItem, m: ModelMessage) {
    && (m.User? <==> item.UserItem?) && (m.Assistant? || m.AssistantWithReplay? <==> item.AssistantItem?)
    && (m.Tool? <==> item.ResultItem?) && (m.System? <==> item.SummaryItem?)
    && (m.User? ==> m.text == item.text)
    && (m.Tool? ==> m.callId == item.callId && m.output == item.output && m.outcome == item.outcome)
    && (m.Assistant? || m.AssistantWithReplay? ==>
          && item.replay == (if m.Assistant? then None else Some(m.replay))
          && |m.parts| == |item.parts|
          && forall i | 0 <= i < |m.parts| :: PartReadsBack(item.parts[i], m.parts[i]))
    && (m.System? ==> SummaryReadsBack(item.content, m.text))
  }

  /** The items that have a message: all but mis-ordered or empty assistant items and summaries that cannot be shown. */
  predicate HasMessage(item: HistoryItem) {
    && (item.AssistantItem? ==> (item.parts != [] || item.replay.Some?) && PartsOrdered(NormalizedParts(item.parts)))
    && (item.SummaryItem? ==> AllDisplayable(LongestFitting(item.content, SUMMARY_BUDGET)))
  }

  /** A prompt: the non-empty system text first, then one message for each item, in order. */
  ghost predicate PromptReadsBack(system: Option<string>, history: seq<HistoryItem>, messages: seq<ModelMessage>) {
    var lead := if system.Some? && system.value != [] then [System(system.value)] else [];
    && |messages| == |lead| + |history| && messages[..|lead|] == lead
    && forall i | 0 <= i < |history| :: ReadsBack(history[i], messages[|lead| + i])
  }

  lemma ItemReadsBack(item: HistoryItem)
    ensures ProjectItem(item).Some? <==> HasMessage(item)
    ensures ProjectItem(item).Some? ==> ReadsBack(item, ProjectItem(item).value)
  {
    hide Normalize, PartsOrdered, LongestFitting, AllDisplayable, Utf8Len;
    if item.SummaryItem? {
      SummaryIsLongest(item.content);
    }
  }

  lemma SummaryIsLongest(content: string)
    ensures SummaryReadsBack(content, SummaryText(content))
  {
    hide LongestFitting, Utf8Len;
    var kept := LongestFitting(content, SUMMARY_BUDGET);
    var n := |kept|;
    LongestFittingExact(content, SUMMARY_BUDGET, 0);
    LongestFittingExact(content, SUMMARY_BUDGET, n);
    assert content[..n] == kept;
    PrefixBytes();
    Utf8LenConcat(SUMMARY_PREFIX, kept);
    if n < |content| {
      LongestFittingExact(content, SUMMARY_BUDGET, n + 1);
      Utf8LenConcat(SUMMARY_PREFIX, content[..n + 1]);
    }
  }

  /** A projection exists exactly when every item has a message, and reads back item by item. */
  lemma {:induction false} ProjectionReadsBack(items: seq<HistoryItem>)
    ensures ProjectAll(items).Some? <==> forall i | 0 <= i < |items| :: HasMessage(items[i])
    ensures ProjectAll(items).Some? ==>
      && |ProjectAll(items).value| == |items|
      && forall i | 0 <= i < |items| :: ReadsBack(items[i], ProjectAll(items).value[i])
  {
    hide ProjectItem, HasMessage, ReadsBack;
    if items != [] {
      ProjectionReadsBack(items[..|items| - 1]);
      ItemReadsBack(items[|items| - 1]);
    }
  }

  lemma PromptOfProjection(system: Option<string>, history: seq<HistoryItem>)
    ensures ProjectAll(history).None? <==> exists i :: 0 <= i < |history| && !HasMessage(history[i])
    ensures ProjectAll(history).Some? ==>
      var messages := SystemMessages(system) + ProjectAll(history).value;
      && PromptReadsBack(system, history, messages)
      && (messages == [] <==> history == [] && (system.None? || system.value == []))
  {
    hide ReadsBack, ProjectAll, HasMessage;
    ProjectionReadsBack(history);
  }

  datatype PromptError = InvalidHistory | PromptCancelled | EmptyPrompt

  /** `DefaultPromptProvider::prepare`; `expired` is what it saw of cancellation and deadline. */
  method Prepare(system: Option<string>, history: seq<HistoryItem>, expired: bool)
    returns (r: Result<seq<ModelMessage>, PromptError>)
    ensures r == Err(PromptCancelled) <==> expired
    ensures r == Err(InvalidHistory) <==> !expired && exists i :: 0 <= i < |history| && !HasMessage(history[i])
    ensures r == Err(EmptyPrompt) <==> !expired && history == [] && (system.None? || system.value == [])
    ensures r.Ok? ==> PromptReadsBack(system, history, r.value)
    ensures !expired && ProjectAll(history).None? ==> r == Err(InvalidHistory)
    ensures !expired && ProjectAll(history).Some? ==>
      var messages := SystemMessages(system) + ProjectAll(history).value;
      r == if messages == [] then Err(EmptyPrompt) else Ok(messages)
  {
    assert ProjectAll(history[..0]) == Some([]);
    hide ProjectItem, HasMessage, PromptReadsBack, ProjectAll;
    if expired {
      return Err(PromptCancelled);
    }
    var messages: seq<ModelMessage> := [];
    if system.Some? && system.value != [] {
      messages := messages + [System(system.value)];
    }
    assert history[..0] == [];
    for i := 0 to |history|
      invariant ProjectAll(history[..i]).Some?
      invariant messages == SystemMessages(system) + ProjectAll(history[..i]).value
    {
      assert history[..i + 1] == history[..i] + [history[i]];
      ProjectSnoc(history[..i], history[i]);
      var message := ProjectOne(history[i]);
      if message.None? {
        assert history == history[..i + 1] + history[i + 1..];
        ProjectConcat(history[..i + 1], history[i + 1..]);
        PromptOfProjection(system, history);
        return Err(InvalidHistory);
      }
      messages := messages + [message.value];
    }
    assert history[..|history|] == history;
    PromptOfProjection(system, history);
    return if messages == [] then Err(EmptyPrompt) else Ok(messages);
  }

  method ProjectOne(item: HistoryItem) returns (m: Option<ModelMessage>)
    ensures m == ProjectItem(item)
  {
    match item {
      case UserItem(_, text) => return Some(User(text));
      case AssistantItem(_, parts, replay, _, _) =>
        var message := AssistantWithProviderReplay(parts, replay);
        return if message.Ok? then Some(message.value) else None;
      case ResultItem(_, callId, _, outcome, output) => return Some(Tool(callId, output, outcome));
      case SummaryItem(content) =>
        m := SummaryMessage(content);
    }
  }

  // ---- What the projection of a settled history means --------------------------------------------

  predicate UserText(text: string) {
    ValidText(text, MAX_MODEL_MESSAGE_TEXT_BYTES, false)
  }

  predicate UserTextsValid(items: seq<HistoryItem>) {
    forall item | item in items && item.UserItem? :: UserText(item.text)
  }

  /** What a loop appends: no summaries, and assistant items that came from valid responses. */
  predicate LoopItem(item: HistoryItem) {
    && !item.SummaryItem?
    && (item.AssistantItem? ==> (item.parts != [] || item.replay.Some?) && PartsOrdered(item.parts))
  }

  predicate LoopItems(items: seq<HistoryItem>) {
    forall item | item in items :: LoopItem(item)
  }

  lemma {:induction false} LoopItemsProject(items: seq<HistoryItem>)
    requires LoopItems(items)
    ensures ProjectAll(items).Some? && |ProjectAll(items).value| == |items|
    ensures forall i | 0 <= i < |items| :: ProjectItem(items[i]) == Some(ProjectAll(items).value[i])
  {
    if items != [] {
      var init := items[..|items| - 1];
      LoopItemsProject(init);
      var last := items[|items| - 1];
      assert last in items && LoopItem(last);
      if last.AssistantItem? {
        NormalizedPartsFixed(last.parts);
      }
      hide ProjectItem;
      ProjectSnoc(init, last);
    }
  }

  /** The first turn of a settled loop history, and the settled rest. */
  lemma {:induction false} FirstTurn(items: seq<HistoryItem>)
    requires items != [] && Settled(items) && LoopItems(items)
    ensures var n := TurnLen(items[0]);
            && n <= |items|
            && IsTurn(items[..n]) && LoopItems(items[..n])
            && Settled(items[n..]) && LoopItems(items[n..])
            && (UserTextsValid(items) <==> UserTextsValid(items[..n]) && UserTextsValid(items[n..]))
  {
    hide LoopItem, UserText, Calls, AnsweredInOrder;
    assert items[0] in items && !items[0].SummaryItem? by {
      assert LoopItem(items[0]);
      NoSummary(items[0]);
    }
    var n := TurnLen(items[0]);
    assert items[0].AssistantItem? ==> items[..n][1..] == items[1..n];
    MembersSplit(items, n);
  }

  lemma NoSummary(item: HistoryItem)
    requires LoopItem(item)
    ensures !item.SummaryItem?
  {
  }

  lemma {:induction false} MembersSplit(items: seq<HistoryItem>, n: nat)
    requires n <= |items|
    ensures items == items[..n] + items[n..]
    ensures forall item :: item in items <==> item in items[..n] || item in items[n..]
  {
    assert items == items[..n] + items[n..];
  }

  /** One user item, or one assistant item with its results. */
  predicate IsTurn(turn: seq<HistoryItem>) {
    && turn != []
    && |turn| == TurnLen(turn[0])
    && (turn[0].UserItem? || turn[0].AssistantItem?)
    && (turn[0].AssistantItem? ==> AnsweredInOrder(turn[0].requestIndex, Calls(turn[0].parts), turn[1..]))
  }

  /** A settled loop history projects to an accepted exchange exactly when its user texts are valid. */
  lemma {:induction false} SettledProjects(items: seq<HistoryItem>)
    requires Settled(items) && LoopItems(items)
    ensures ProjectAll(items).Some?
    ensures WellFormed(ProjectAll(items).value) <==> UserTextsValid(items)
    decreases |items|
  {
    if items != [] {
      hide Settled, LoopItems, IsTurn, UserTextsValid, TurnLen;
      var n := TurnLen(items[0]);
      FirstTurn(items);
      MembersSplit(items, n);
      SettledProjects(items[n..]);
      ProjectConcat(items[..n], items[n..]);
      TurnProjects(items[..n]);
      hide ProjectAll;
      JoinTurn(ProjectAll(items[..n]).value, ProjectAll(items[n..]).value);
    }
  }

  lemma JoinTurn(a: seq<ModelMessage>, b: seq<ModelMessage>)
    requires WellFormed(a) || (|a| == 1 && IsPlain(a[0]))
    ensures WellFormed(a + b) <==> WellFormed(a) && WellFormed(b)
  {
    if WellFormed(a) && WellFormed(b) {
      WellFormedConcat(a, b);
    } else if WellFormed(a) && WellFormed(a + b) {
      WellFormedCancel(a, b);
    }
  }

  lemma TurnProjects(turn: seq<HistoryItem>)
    requires LoopItems(turn) && IsTurn(turn)
    ensures ProjectAll(turn).Some?
    ensures var ms := ProjectAll(turn).value;
            && (WellFormed(ms) <==> UserTextsValid(turn))
            && (WellFormed(ms) || (|ms| == 1 && IsPlain(ms[0])))
  {
    LoopItemsProject(turn);
    var ms := ProjectAll(turn).value;
    assert ProjectItem(turn[0]) == Some(ms[0]);
    if turn[0].AssistantItem? {
      hide ProjectAll, ProjectItem, LoopItem, PartsOrdered, Calls, WellFormed, Answers, AnsweredInOrder;
      assert turn[0] in turn && LoopItem(turn[0]);
      AssistantProjects(turn[0]);
      AnswersInOrder(turn[0], turn, ms);
      BlockIsWellFormed(ms[0], ms);
    } else {
      UserTurn(turn, ms);
    }
  }

  lemma {:induction false} UserTurn(turn: seq<HistoryItem>, ms: seq<ModelMessage>)
    requires |turn| == |ms| == 1 && turn[0].UserItem? && ms[0] == User(turn[0].text)
    ensures WellFormed(ms) <==> UserTextsValid(turn)
  {
    assert ms[1..] == [];
    assert turn[0] in turn;
  }

  /** A loop's own assistant item is sent back verbatim. */
  lemma AssistantProjects(item: HistoryItem)
    requires LoopItem(item) && item.AssistantItem?
    ensures var m := AssistantMessage(item.parts, item.replay);
            && ProjectItem(item) == Some(m) && IsAssistant(m) && MessageValid(m)
            && MessageCallIds(m) == CallIds(Calls(item.parts))
  {
    NormalizedPartsFixed(item.parts);
  }

  lemma BlockIsWellFormed(m: ModelMessage, block: seq<ModelMessage>)
    requires IsAssistant(m) && MessageValid(m) && |block| == 1 + |MessageCallIds(m)| && block[0] == m
    requires Answers(multiset(MessageCallIds(m)), block[1..])
    ensures WellFormed(block)
  {
    hide MessageValid, Calls;
    assert block[|block|..] == [];
    assert block[1..|block|] == block[1..];
  }

  lemma AnswersInOrder(first: HistoryItem, turn: seq<HistoryItem>, ms: seq<ModelMessage>)
    requires first.AssistantItem? && |turn| == |ms| == TurnLen(first)
    requires AnsweredInOrder(first.requestIndex, Calls(first.parts), turn[1..])
    requires forall i | 0 <= i < |turn| :: ProjectItem(turn[i]) == Some(ms[i])
    ensures Answers(multiset(CallIds(Calls(first.parts))), ms[1..])
    ensures turn[0].AssistantItem? ==> UserTextsValid(turn)
  {
    forall i | 0 <= i < |ms| - 1 ensures ms[1..][i].Tool? && ms[1..][i].callId == CallIds(Calls(first.parts))[i] {
      assert turn[1..][i].ResultItem?;
      assert ProjectItem(turn[i + 1]) == Some(ms[i + 1]);
    }
    assert AnswerIds(ms[1..]) == CallIds(Calls(first.parts));
    forall item | item in turn ensures item == turn[0] || item.ResultItem? {
      var k :| 0 <= k < |turn| && turn[k] == item;
      assert k > 0 ==> turn[1..][k - 1] == item;
    }
  }

  // ---- When a prompt is accepted -----------------------------------------------------------------

  /** The base projects to an accepted exchange. */
  predicate BaseAccepted(base: seq<HistoryItem>) {
    ProjectAll(base).Some? && WellFormed(ProjectAll(base).value)
  }

  predicate SystemAccepted(system: Option<string>) {
    system.Some? && system.value != [] ==> ValidText(system.value, MAX_MODEL_MESSAGE_TEXT_BYTES, false)
  }

  lemma {:induction false} BlockHoldsTools(ms: seq<ModelMessage>)
    requires WellFormed(ms) && ms != []
    ensures BlockLen(ms[0]) <= |ms|
    ensures forall i | 1 <= i < BlockLen(ms[0]) :: ms[i].Tool?
  {
    var n := BlockLen(ms[0]);
    forall i | 1 <= i < n ensures ms[i].Tool? {
      assert ms[1..n][i - 1] == ms[i];
    }
  }

  /** An accepted sequence can be cut before any plain message. */
  lemma {:induction false} WellFormedSplit(a: seq<ModelMessage>, b: seq<ModelMessage>)
    requires WellFormed(a + b) && b != [] && IsPlain(b[0])
    ensures WellFormed(a) && WellFormed(b)
    decreases |a|
  {
    if a == [] {
      assert a + b == b;
    } else {
      hide MessageValid, Answers, WellFormed;
      var n := BlockLen(a[0]);
      var whole := a + b;
      assert whole[0] == a[0] && whole[|a|] == b[0];
      BlockHoldsTools(whole);
      WellFormedHead(whole);
      ConcatSlices(a, b, n);
      WellFormedSplit(a[n..], b);
      WellFormedHead(a);
    }
  }

  /**
   * The prompt prepared from any base and any settled loop history is
   * accepted by the request validator exactly when the system prompt, the base
   * and the user texts are acceptable on their own.
   */
  lemma PromptAcceptedExactly(system: Option<string>, base: seq<HistoryItem>, appended: seq<HistoryItem>)
    requires ProjectAll(base).Some?
    requires appended != [] && appended[0].UserItem? && Settled(appended) && LoopItems(appended)
    ensures ProjectAll(base + appended).Some?
    ensures var messages := SystemMessages(system) + ProjectAll(base + appended).value;
            && messages != []
            && (WellFormed(messages) <==> SystemAccepted(system) && BaseAccepted(base) && UserTextsValid(appended))
  {
    SettledProjects(appended);
    ProjectConcat(base, appended);
    LoopItemsProject(appended);
    var s, a, b := SystemMessages(system), ProjectAll(base).value, ProjectAll(appended).value;
    assert s + ProjectAll(base + appended).value == s + (a + b);
    assert ProjectItem(appended[0]) == Some(b[0]);
    hide ProjectAll, ProjectItem, Settled;
    if WellFormed(a) && WellFormed(b) {
      WellFormedConcat(a, b);
    }
    if WellFormed(a + b) {
      WellFormedSplit(a, b);
    }
    if s == [] {
      assert s + (a + b) == a + b;
    } else {
      assert (s + (a + b))[1..] == a + b;
    }
  }

  /** Extending a base by a settled loop history is acceptable exactly when the base and the new user texts are. */
  lemma BaseExtends(base: seq<HistoryItem>, appended: seq<HistoryItem>)
    requires Settled(appended) && LoopItems(appended)
    requires appended != [] ==> appended[0].UserItem?
    ensures BaseAccepted(base + appended) <==> BaseAccepted(base) && UserTextsValid(appended)
  {
    SettledProjects(appended);
    ProjectConcat(base, appended);
    LoopItemsProject(appended);
    if ProjectAll(base).Some? {
      var a, b := ProjectAll(base).value, ProjectAll(appended).value;
      assert appended != [] ==> ProjectItem(appended[0]) == Some(b[0]);
      hide ProjectAll, ProjectItem, Settled;
      if WellFormed(a) && WellFormed(b) {
        WellFormedConcat(a, b);
      }
      if appended == [] {
        assert a + b == a;
      } else if WellFormed(a + b) {
        WellFormedSplit(a, b);
      }
    }
  }
}
