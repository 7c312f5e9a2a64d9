/** Messages, assistant parts and their validators (src/model/message.rs, src/model/response.rs). */
module Messages {
  import opened Common
  import opened Text
  import opened JsonBounds

  type CallId = string
  type ToolName = string

  const MAX_MODEL_MESSAGE_TEXT_BYTES: nat := 262144
  const MAX_REASONING_TEXT_BYTES: nat := 262144

  datatype ToolCall = ToolCall(id: CallId, name: ToolName, arguments: Json, callIndex: nat)

  datatype AssistantPart = TextPart(text: string) | ReasoningPart(reasoning: string) | CallPart(call: ToolCall)

  datatype ToolResultOutcome = Success | Failed | Denied | Cancelled | InputProvided

  datatype ModelMessage =
    | System(text: string)
    | User(text: string)
    | Assistant(parts: seq<AssistantPart>)
    | AssistantWithReplay(parts: seq<AssistantPart>, replay: string)
    | Tool(callId: CallId, output: string, outcome: ToolResultOutcome)

  datatype ModelFinishReason = Stop | ToolCalls | Length | ContentFiltered | Refused | Unknown

  datatype Usage = Usage(
    input: Option<nat>, output: Option<nat>, reasoning: Option<nat>,
    cacheRead: Option<nat>, cacheWrite: Option<nat>, providerTotal: Option<nat>)

  const NO_USAGE := Usage(None, None, None, None, None, None)

  datatype ModelResponse = ModelResponse(
    parts: seq<AssistantPart>, finishReason: ModelFinishReason, usage: Option<Usage>, replay: Option<string>)

  datatype ModelValueError =
    | InvalidText
    | EmptyMessages
    | EmptyAssistantParts
    | OrphanToolResult
    | DuplicateToolResult
    | IncompleteToolExchange
    | EmptyResponseParts
    | DuplicateToolCallId
    | DuplicateToolCallIndex
    | InvalidToolCallOrder
    | InvalidTools

  // ---- What a well-ordered list of parts is ---------------------------------

  /** The tool calls of an assistant item, in part order. */
  function Calls(parts: seq<AssistantPart>): seq<ToolCall> {
    if parts == [] then []
    else
      var init := parts[..|parts| - 1];
      match parts[|parts| - 1]
      case CallPart(call) => Calls(init) + [call]
      case _ => Calls(init)
  }

  function CallIds(calls: seq<ToolCall>): (ids: seq<CallId>)
    ensures |ids| == |calls|
  {
    seq(|calls|, i requires 0 <= i < |calls| => calls[i].id)
  }

  predicate Distinct<T(==)>(s: seq<T>) {
    forall i, j | 0 <= i < j < |s| :: s[i] != s[j]
  }

  predicate TextsValid(parts: seq<AssistantPart>) {
    forall p | p in parts :: p.TextPart? ==> ValidText(p.text, MAX_MODEL_MESSAGE_TEXT_BYTES, true)
  }

  /** Indices count 0, 1, 2, ... in part order and ids are pairwise distinct. */
  predicate CallsOrdered(calls: seq<ToolCall>) {
    && |calls| <= U32_MAX
    && (forall i | 0 <= i < |calls| :: calls[i].callIndex == i)
    && Distinct(CallIds(calls))
  }

  predicate PartsOrdered(parts: seq<AssistantPart>) {
    TextsValid(parts) && CallsOrdered(Calls(parts))
  }

  lemma PartsOrderedExtend(parts: seq<AssistantPart>, i: nat)
    requires i < |parts|
    ensures parts[..i + 1][..i] == parts[..i]
    ensures Calls(parts[..i + 1])
         == if parts[i].CallPart? then Calls(parts[..i]) + [parts[i].call] else Calls(parts[..i])
    ensures TextsValid(parts[..i + 1])
       <==> TextsValid(parts[..i]) && (parts[i].TextPart? ==> ValidText(parts[i].text, MAX_MODEL_MESSAGE_TEXT_BYTES, true))
  {
    assert parts[..i + 1][..i] == parts[..i];
    assert parts[..i + 1] == parts[..i] + [parts[i]];
  }

  /** What is wrong with part `p` after the ordered calls `done`, if anything. */
  function PartFault(p: AssistantPart, done: seq<ToolCall>): Option<ModelValueError> {
    match p
    case TextPart(text) =>
      if ValidText(text, MAX_MODEL_MESSAGE_TEXT_BYTES, true) then None else Some(InvalidText)
    case ReasoningPart(_) => None
    case CallPart(call) =>
      if call.callIndex < |done| then Some(DuplicateToolCallIndex)
      else if call.callIndex > |done| then Some(InvalidToolCallOrder)
      else if call.id in CallIds(done) then Some(DuplicateToolCallId)
      else if |done| >= U32_MAX then Some(InvalidToolCallOrder)
      else None
  }

  /** The first fault of a part list, reading left to right. */
  function OrderFault(parts: seq<AssistantPart>): Option<ModelValueError> {
    if parts == [] then None
    else
      var init := parts[..|parts| - 1];
      var earlier := OrderFault(init);
      if earlier.Some? then earlier else PartFault(parts[|parts| - 1], Calls(init))
  }

  /** A list is well ordered exactly when it has no first fault. */
  lemma {:induction false} OrderFaultExact(parts: seq<AssistantPart>)
    ensures OrderFault(parts).None? <==> PartsOrdered(parts)
  {
    if parts != [] {
      var n := |parts| - 1;
      OrderFaultExact(parts[..n]);
      PartsOrderedExtend(parts, n);
      assert parts[..n + 1] == parts;
      var done := Calls(parts[..n]);
      if parts[n].CallPart? {
        CallsOrderedInit(done, parts[n].call);
        if CallsOrdered(done) {
          CallsOrderedAppend(done, parts[n].call);
        }
      }
    }
  }

  lemma CallsOrderedInit(calls: seq<ToolCall>, call: ToolCall)
    ensures CallsOrdered(calls + [call]) ==> CallsOrdered(calls)
  {
    var longer := calls + [call];
    assert forall k | 0 <= k < |calls| :: calls[k] == longer[k];
    assert forall k | 0 <= k < |calls| :: CallIds(calls)[k] == CallIds(longer)[k];
  }

  lemma {:induction false} FaultPersists(parts: seq<AssistantPart>, i: nat)
    requires i <= |parts|
    requires OrderFault(parts[..i]).Some?
    ensures OrderFault(parts) == OrderFault(parts[..i])
    decreases |parts| - i
  {
    if i == |parts| {
      assert parts[..i] == parts;
    } else {
      assert parts[..i + 1][..i] == parts[..i];
      FaultPersists(parts, i + 1);
    }
  }

  lemma CallsOrderedAppend(calls: seq<ToolCall>, call: ToolCall)
    requires CallsOrdered(calls)
    ensures CallsOrdered(calls + [call])
       <==> |calls| < U32_MAX && call.callIndex == |calls| && call.id !in CallIds(calls)
  {
    var longer := calls + [call];
    var ids := CallIds(longer);
    assert ids == CallIds(calls) + [call.id];
    if CallsOrdered(longer) {
      assert longer[|calls|].callIndex == |calls|;
      forall k | 0 <= k < |calls| ensures CallIds(calls)[k] != call.id {
        assert ids[k] != ids[|calls|];
      }
    }
  }

  /** One more part: either it is the first fault, or the ordered prefix grows by it. */
  lemma OrderStep(parts: seq<AssistantPart>, i: nat)
    requires i < |parts| && OrderFault(parts[..i]).None?
    ensures var fault := PartFault(parts[i], Calls(parts[..i]));
            if fault.Some? then OrderFault(parts) == fault else OrderFault(parts[..i + 1]).None?
    ensures Calls(parts[..i + 1])
         == if parts[i].CallPart? then Calls(parts[..i]) + [parts[i].call] else Calls(parts[..i])
  {
    PartsOrderedExtend(parts, i);
    if PartFault(parts[i], Calls(parts[..i])).Some? {
      FaultPersists(parts, i + 1);
    }
  }

  lemma NothingOrdered()
    ensures OrderFault([]).None? && Calls([]) == [] && CallIds([]) == []
  {
  }

  lemma CallIdsSnoc(calls: seq<ToolCall>, call: ToolCall)
    ensures CallIds(calls + [call]) == CallIds(calls) + [call.id]
  {
  }

  /** The verdict on one part, read off the two sets. */
  lemma PartVerdict(p: AssistantPart, done: seq<ToolCall>, ids: set<CallId>, indices: set<nat>)
    requires forall id :: id in ids <==> id in CallIds(done)
    requires forall k: nat :: k in indices <==> k < |done|
    ensures match p
            case TextPart(text) =>
              PartFault(p, done) == if ValidText(text, MAX_MODEL_MESSAGE_TEXT_BYTES, true) then None else Some(InvalidText)
            case ReasoningPart(_) => PartFault(p, done) == None
            case CallPart(call) =>
              PartFault(p, done) == if call.callIndex in indices then Some(DuplicateToolCallIndex)
                                    else if call.callIndex != |done| then Some(InvalidToolCallOrder)
                                    else if call.id in ids then Some(DuplicateToolCallId)
                                    else if |done| >= U32_MAX then Some(InvalidToolCallOrder)
                                    else None
  {
    hide ValidText, CallIds;
  }

  /** `validate_tool_call_order`: one pass with an index counter and two sets. */
  method ValidateToolCallOrder(parts: seq<AssistantPart>) returns (error: Option<ModelValueError>)
    ensures error == OrderFault(parts)
    ensures error.None? <==> PartsOrdered(parts)
  {
    hide OrderFault, Calls, PartsOrdered, PartFault, ValidText, CallIds;
    OrderFaultExact(parts);
    NothingOrdered();
    var ids: set<CallId> := {};
    var indices: set<nat> := {};
    var expected: nat := 0;
    assert parts[..0] == [];
    ghost var calls: seq<ToolCall> := [];
    for i := 0 to |parts|
      invariant OrderFault(parts[..i]).None? && calls == Calls(parts[..i])
      invariant expected == |calls| <= U32_MAX
      invariant forall id :: id in ids <==> id in CallIds(calls)
      invariant forall k: nat :: k in indices <==> k < expected
    {
      OrderStep(parts, i);
      PartVerdict(parts[i], calls, ids, indices);
      match parts[i] {
        case TextPart(text) =>
          if !ValidText(text, MAX_MODEL_MESSAGE_TEXT_BYTES, true) {
            return Some(InvalidText);
          }
        case ReasoningPart(_) =>
        case CallPart(call) =>
          CallIdsSnoc(calls, call);
          if call.callIndex in indices {
            return Some(DuplicateToolCallIndex);
          }
          indices := indices + {call.callIndex};
          if call.callIndex != expected {
            return Some(InvalidToolCallOrder);
          }
          if call.id in ids {
            return Some(DuplicateToolCallId);
          }
          ids := ids + {call.id};
          if expected + 1 > U32_MAX {
            return Some(InvalidToolCallOrder);
          }
          expected := expected + 1;
          calls := calls + [call];
      }
    }
    assert parts[..|parts|] == parts;
    return None;
  }

  // ---- Single messages --------------------------------------------------------

  /** `ModelMessage::validate`, stated by what it accepts. */
  predicate MessageValid(m: ModelMessage) {
    match m
    case System(text) => ValidText(text, MAX_MODEL_MESSAGE_TEXT_BYTES, false)
    case User(text) => ValidText(text, MAX_MODEL_MESSAGE_TEXT_BYTES, false)
    case Assistant(parts) => parts != [] && PartsOrdered(parts)
    case AssistantWithReplay(parts, _) => PartsOrdered(parts)
    case Tool(_, _, _) => true
  }

  function MessageFault(m: ModelMessage): Option<ModelValueError> {
    match m
    case System(text) => if ValidText(text, MAX_MODEL_MESSAGE_TEXT_BYTES, false) then None else Some(InvalidText)
    case User(text) => if ValidText(text, MAX_MODEL_MESSAGE_TEXT_BYTES, false) then None else Some(InvalidText)
    case Assistant(parts) => if parts == [] then Some(EmptyAssistantParts) else OrderFault(parts)
    case AssistantWithReplay(parts, _) => OrderFault(parts)
    case Tool(_, _, _) => None
  }

  lemma MessageFaultExact(m: ModelMessage)
    ensures MessageFault(m).None? <==> MessageValid(m)
  {
    if m.Assistant? || m.AssistantWithReplay? {
      OrderFaultExact(m.parts);
    }
  }

  method ValidateMessage(m: ModelMessage) returns (error: Option<ModelValueError>)
    ensures error == MessageFault(m)
    ensures error.None? <==> MessageValid(m)
  {
    MessageFaultExact(m);
    match m {
      case System(text) =>
        return if ValidText(text, MAX_MODEL_MESSAGE_TEXT_BYTES, false) then None else Some(InvalidText);
      case User(text) =>
        return if ValidText(text, MAX_MODEL_MESSAGE_TEXT_BYTES, false) then None else Some(InvalidText);
      case Assistant(parts) =>
        if parts == [] {
          return Some(EmptyAssistantParts);
        }
        error := ValidateToolCallOrder(parts);
      case AssistantWithReplay(parts, _) =>
        error := ValidateToolCallOrder(parts);
      case Tool(_, _, _) =>
        return None;
    }
  }

  // ---- Part normalization -------------------------------------------------------

  function NormalizedPart(p: AssistantPart): AssistantPart {
    match p
    case TextPart(text) => TextPart(Normalize(text))
    case _ => p
  }

  function NormalizedParts(parts: seq<AssistantPart>): (ps: seq<AssistantPart>)
    ensures |ps| == |parts|
  {
    seq(|parts|, i requires 0 <= i < |parts| => NormalizedPart(parts[i]))
  }

  /** `normalize_parts`: rewrites the text parts in place, one by one. */
  method NormalizeParts(parts: seq<AssistantPart>) returns (out: seq<AssistantPart>)
    ensures out == NormalizedParts(parts)
  {
    out := parts;
    for i := 0 to |parts|
      invariant |out| == |parts|
      invariant forall k | 0 <= k < i :: out[k] == NormalizedPart(parts[k])
      invariant forall k | i <= k < |parts| :: out[k] == parts[k]
    {
      if out[i].TextPart? {
        var text := NormalizeModelText(out[i].text);
        out := out[i := TextPart(text)];
      }
    }
  }

  /** Parts whose texts are already valid come back unchanged. */
  lemma NormalizedPartsFixed(parts: seq<AssistantPart>)
    requires TextsValid(parts)
    ensures NormalizedParts(parts) == parts
  {
    forall i | 0 <= i < |parts| ensures NormalizedPart(parts[i]) == parts[i] {
      assert parts[i] in parts;
      if parts[i].TextPart? {
        NormalizeFixesValid(parts[i].text);
      }
    }
  }

  /** `assistant_with_provider_replay` on already valid parts. */
  method AssistantWithProviderReplay(parts: seq<AssistantPart>, replay: Option<string>)
    returns (r: Result<ModelMessage, ModelValueError>)
    ensures r.Ok? <==> AssistantAccepted(parts, replay)
    ensures r.Err? ==> r.error == AssistantFault(parts, replay, EmptyAssistantParts)
    ensures r.Ok? ==> r.value == AssistantMessage(NormalizedParts(parts), replay) && MessageValid(r.value)
  {
    OrderFaultExact(NormalizedParts(parts));
    var normalized := NormalizeParts(parts);
    var message := if replay.Some? then AssistantWithReplay(normalized, replay.value) else Assistant(normalized);
    var error := ValidateMessage(message);
    return if error.Some? then Err(error.value) else Ok(message);
  }

  function AssistantMessage(parts: seq<AssistantPart>, replay: Option<string>): ModelMessage {
    match replay
    case Some(payload) => AssistantWithReplay(parts, payload)
    case None => Assistant(parts)
  }

  /** Why parts and replay are refused: missing content first, then the first order fault. */
  function AssistantFault(parts: seq<AssistantPart>, replay: Option<string>, empty: ModelValueError): ModelValueError
    requires !AssistantAccepted(parts, replay)
  {
    if parts == [] && replay.None? then empty
    else
      OrderFaultExact(NormalizedParts(parts));
      OrderFault(NormalizedParts(parts)).value
  }

  predicate AssistantAccepted(parts: seq<AssistantPart>, replay: Option<string>) {
    (parts != [] || replay.Some?) && PartsOrdered(NormalizedParts(parts))
  }

  // ---- Model responses -------------------------------------------------------------

  /** What every constructed `ModelResponse` satisfies. */
  predicate ResponseValid(r: ModelResponse) {
    (r.parts != [] || r.replay.Some?) && PartsOrdered(r.parts)
  }

  /** `ModelResponse::new_with_provider_replay`. */
  method NewResponse(parts: seq<AssistantPart>, reason: ModelFinishReason, usage: Option<Usage>, replay: Option<string>)
    returns (r: Result<ModelResponse, ModelValueError>)
    ensures r.Ok? <==> AssistantAccepted(parts, replay)
    ensures r.Err? ==> r.error == AssistantFault(parts, replay, EmptyResponseParts)
    ensures r.Ok? ==> r.value == ModelResponse(NormalizedParts(parts), reason, usage, replay) && ResponseValid(r.value)
  {
    var normalized := NormalizeParts(parts);
    if normalized == [] && replay.None? {
      return Err(EmptyResponseParts);
    }
    var error := ValidateToolCallOrder(normalized);
    return if error.Some? then Err(error.value) else Ok(ModelResponse(normalized, reason, usage, replay));
  }

  /** A valid response can always be sent back: its assistant message is accepted verbatim. */
  lemma ResponseIsSendable(r: ModelResponse)
    requires ResponseValid(r)
    ensures AssistantAccepted(r.parts, r.replay)
    ensures NormalizedParts(r.parts) == r.parts
    ensures MessageValid(AssistantMessage(r.parts, r.replay))
  {
    NormalizedPartsFixed(r.parts);
  }
}
