/**
 * The streaming assembler of src/model/driver/assembler.rs. Its state is
 * specified as a function of the events accepted so far.
 */
module Assembly {
  import opened Common
  import opened Text
  import opened JsonBounds
  import opened Messages
  import opened ToolCatalog

  const MAX_MODEL_EVENT_TEXT_BYTES: nat := 65536
  const MAX_TOOL_CALLS_PER_RESPONSE: nat := 64

  datatype Channel = TextChannel | ReasoningChannel

  datatype ModelEvent =
    | Delta(channel: Channel, delta: string)
    | ToolCallStart(id: CallId, name: ToolName)
    | ArgumentsDelta(id: CallId, delta: string)
    | ToolCallEnd(id: CallId)
    | UsageReport(usage: Usage)
    | ReplayReport(replay: string)
    | Finish(reason: ModelFinishReason)

  datatype ModelErrorKind =
    | InvalidRequest | Unavailable | ProviderUnavailable | AuthMissing | AuthRejected | RateLimited
    | QuotaExceeded | ContextOverflow | Timeout | TransportUnavailable | CallCancelled
    | InvalidProviderResponse | IncompleteResponse | StreamInterrupted | RequestOutcomeUnknown
    | UnexpectedToolCall | CallPanicked | CallInternal

  datatype Progress = Progress(channel: Channel, delta: string)

  datatype Limits = Limits(maxText: nat, maxReasoning: nat, maxToolCalls: nat, maxArguments: nat, maxToolOutput: nat)

  /** The part of `LoopLimits::validate` that the assembler and the tool results rely on. */
  predicate LimitsValid(limits: Limits) {
    && 1 <= limits.maxText <= MAX_TEXT_BYTES
    && 1 <= limits.maxReasoning <= MAX_TEXT_BYTES
    && 1 <= limits.maxToolCalls <= MAX_TOOL_CALLS_PER_RESPONSE
    && 1 <= limits.maxArguments <= MAX_JSON_BYTES
    && 1 <= limits.maxToolOutput <= MAX_TEXT_BYTES
  }

  /** The JSON library: a partial parser and the serializer's sequence of writes. */
  datatype Codec = Codec(parse: string -> Option<Json>, serialize: Json -> seq<seq<bv8>>)

  datatype Request = Request(tools: seq<ToolSpec>, limits: Limits, codec: Codec)

  datatype Slot = ChannelSlot(channel: Channel) | ToolSlot(index: nat)

  // ---- Meaning of an event history ----------------------------------------------

  function Init(es: seq<ModelEvent>): (init: seq<ModelEvent>)
    requires es != []
    ensures |init| < |es|
  {
    es[..|es| - 1]
  }

  function Last(es: seq<ModelEvent>): ModelEvent
    requires es != []
  {
    es[|es| - 1]
  }

  /** The raw stream of one channel: all its deltas, concatenated. */
  function Raw(es: seq<ModelEvent>, ch: Channel): string {
    if es == [] then []
    else if Last(es).Delta? && Last(es).channel == ch then Raw(Init(es), ch) + Last(es).delta
    else Raw(Init(es), ch)
  }

  /** The assembled channel text: the whole raw stream normalized at once. */
  function ChannelText(es: seq<ModelEvent>, ch: Channel): string {
    Normalize(Raw(es, ch))
  }

  function Starts(es: seq<ModelEvent>): seq<(CallId, ToolName)> {
    if es == [] then []
    else match Last(es)
      case ToolCallStart(id, name) => Starts(Init(es)) + [(id, name)]
      case _ => Starts(Init(es))
  }

  /** Tool arguments are normalized per delta, with no carried CR state. */
  function ArgumentsText(es: seq<ModelEvent>, id: CallId): string {
    if es == [] then []
    else match Last(es)
      case ArgumentsDelta(target, delta) =>
        if target == id then ArgumentsText(Init(es), id) + Normalize(delta) else ArgumentsText(Init(es), id)
      case _ => ArgumentsText(Init(es), id)
  }

  predicate Started(es: seq<ModelEvent>, id: CallId) {
    exists i :: 0 <= i < |Starts(es)| && Starts(es)[i].0 == id
  }

  predicate Ended(es: seq<ModelEvent>, id: CallId) {
    ToolCallEnd(id) in es
  }

  /** Parts in order of first appearance: a channel appears when its text stops being empty. */
  function Slots(es: seq<ModelEvent>): seq<Slot> {
    if es == [] then []
    else
      var init := Init(es);
      match Last(es)
      case Delta(ch, _) =>
        if ChannelText(init, ch) == [] && ChannelText(es, ch) != [] then Slots(init) + [ChannelSlot(ch)] else Slots(init)
      case ToolCallStart(_, _) => Slots(init) + [ToolSlot(|Starts(init)|)]
      case _ => Slots(init)
  }

  function ReportedUsage(es: seq<ModelEvent>): Option<Usage> {
    if es == [] then None
    else if Last(es).UsageReport? then Some(Last(es).usage)
    else ReportedUsage(Init(es))
  }

  function ReportedReplay(es: seq<ModelEvent>): Option<string> {
    if es == [] then None
    else if Last(es).ReplayReport? then Some(Last(es).replay)
    else ReportedReplay(Init(es))
  }

  function FinishReason(es: seq<ModelEvent>): Option<ModelFinishReason> {
    if es == [] then None
    else if Last(es).Finish? then Some(Last(es).reason)
    else FinishReason(Init(es))
  }

  predicate ArgumentsAccepted(text: string, req: Request) {
    var v := req.codec.parse(text);
    && text != []
    && v.Some?
    && v.value.Object?
    && req.limits.maxArguments <= MAX_JSON_BYTES
    && Height(v.value) <= MAX_JSON_DEPTH
    && Count(v.value) <= MAX_JSON_NODES
    && TotalLen(req.codec.serialize(v.value)) <= req.limits.maxArguments
  }

  predicate Offers(tools: seq<ToolSpec>, name: ToolName) {
    exists i :: 0 <= i < |tools| && tools[i].name == name
  }

  function ChannelLimit(limits: Limits, ch: Channel): nat {
    if ch == TextChannel then limits.maxText else limits.maxReasoning
  }

  predicate EventValid(e: ModelEvent) {
    match e
    case Delta(_, delta) => Utf8Len(delta) <= MAX_MODEL_EVENT_TEXT_BYTES
    case ArgumentsDelta(_, delta) => Utf8Len(delta) <= MAX_MODEL_EVENT_TEXT_BYTES
    case _ => true
  }

  /** Why the next event `e` is refused after the accepted history `es`, if it is. */
  function Refusal(es: seq<ModelEvent>, e: ModelEvent, req: Request): Option<ModelErrorKind> {
    if FinishReason(es).Some? || !EventValid(e) then Some(InvalidProviderResponse)
    else
      var bad :=
        match e
        case Delta(ch, _) => Utf8Len(ChannelText(es + [e], ch)) > ChannelLimit(req.limits, ch)
        case ToolCallStart(id, name) => |Starts(es)| >= req.limits.maxToolCalls || Started(es, id)
        case ArgumentsDelta(id, _) =>
          !Started(es, id) || Ended(es, id) || Utf8Len(ArgumentsText(es + [e], id)) > MAX_JSON_BYTES
        case ToolCallEnd(id) => !Started(es, id) || Ended(es, id) || !ArgumentsAccepted(ArgumentsText(es, id), req)
        case UsageReport(_) => ReportedUsage(es).Some?
        case ReplayReport(_) => ReportedReplay(es).Some?
        case Finish(_) => exists i :: 0 <= i < |Starts(es)| && !Ended(es, Starts(es)[i].0);
      if e.ToolCallStart? && !Offers(req.tools, e.name) then Some(UnexpectedToolCall)
      else if bad then Some(InvalidProviderResponse)
      else None
  }

  predicate Accepted(es: seq<ModelEvent>, req: Request) {
    es == [] || (Accepted(Init(es), req) && Refusal(Init(es), Last(es), req).None?)
  }

  lemma Snoc(es: seq<ModelEvent>, e: ModelEvent)
    ensures Init(es + [e]) == es && Last(es + [e]) == e
    ensures forall id :: Ended(es + [e], id) <==> Ended(es, id) || e == ToolCallEnd(id)
  {
    assert (es + [e])[..|es|] == es;
  }

  // ---- One more event -------------------------------------------------------------------

  lemma RawSnoc(es: seq<ModelEvent>, e: ModelEvent, ch: Channel)
    ensures Raw(es + [e], ch) == if e.Delta? && e.channel == ch then Raw(es, ch) + e.delta else Raw(es, ch)
  {
    Snoc(es, e);
  }

  lemma StartsSnoc(es: seq<ModelEvent>, e: ModelEvent)
    ensures Starts(es + [e]) == if e.ToolCallStart? then Starts(es) + [(e.id, e.name)] else Starts(es)
  {
    Snoc(es, e);
  }

  lemma ArgumentsSnoc(es: seq<ModelEvent>, e: ModelEvent, id: CallId)
    ensures ArgumentsText(es + [e], id)
         == if e.ArgumentsDelta? && e.id == id then ArgumentsText(es, id) + Normalize(e.delta) else ArgumentsText(es, id)
  {
    hide Normalize;
    Snoc(es, e);
  }

  lemma SlotsSnoc(es: seq<ModelEvent>, e: ModelEvent)
    ensures e.Delta? ==>
      Slots(es + [e]) == if ChannelText(es, e.channel) == [] && ChannelText(es + [e], e.channel) != []
                         then Slots(es) + [ChannelSlot(e.channel)] else Slots(es)
    ensures e.ToolCallStart? ==> Slots(es + [e]) == Slots(es) + [ToolSlot(|Starts(es)|)]
    ensures !e.Delta? && !e.ToolCallStart? ==> Slots(es + [e]) == Slots(es)
  {
    hide ChannelText, Starts;
    Snoc(es, e);
  }

  lemma ReportsSnoc(es: seq<ModelEvent>, e: ModelEvent)
    ensures ReportedUsage(es + [e]) == if e.UsageReport? then Some(e.usage) else ReportedUsage(es)
    ensures ReportedReplay(es + [e]) == if e.ReplayReport? then Some(e.replay) else ReportedReplay(es)
    ensures FinishReason(es + [e]) == if e.Finish? then Some(e.reason) else FinishReason(es)
  {
    Snoc(es, e);
  }

  lemma AcceptedSnoc(es: seq<ModelEvent>, e: ModelEvent, req: Request)
    ensures Accepted(es + [e], req) <==> Accepted(es, req) && Refusal(es, e, req).None?
  {
    hide Refusal;
    Snoc(es, e);
  }

  /** What one more event changes in everything a history means. */
  lemma After(es: seq<ModelEvent>, e: ModelEvent, req: Request)
    ensures var next := es + [e];
            && (forall ch: Channel :: Raw(next, ch) == if e.Delta? && e.channel == ch then Raw(es, ch) + e.delta else Raw(es, ch))
            && Starts(next) == (if e.ToolCallStart? then Starts(es) + [(e.id, e.name)] else Starts(es))
            && (forall id :: ArgumentsText(next, id)
                  == if e.ArgumentsDelta? && e.id == id then ArgumentsText(es, id) + Normalize(e.delta) else ArgumentsText(es, id))
            && (forall id :: Ended(next, id) <==> Ended(es, id) || e == ToolCallEnd(id))
            && (!e.Delta? ==> Slots(next) == if e.ToolCallStart? then Slots(es) + [ToolSlot(|Starts(es)|)] else Slots(es))
            && ReportedUsage(next) == (if e.UsageReport? then Some(e.usage) else ReportedUsage(es))
            && ReportedReplay(next) == (if e.ReplayReport? then Some(e.replay) else ReportedReplay(es))
            && FinishReason(next) == (if e.Finish? then Some(e.reason) else FinishReason(es))
            && (Accepted(next, req) <==> Accepted(es, req) && Refusal(es, e, req).None?)
  {
    hide Raw, Starts, ArgumentsText, Slots, ReportedUsage, ReportedReplay, FinishReason, Accepted, Refusal, ChannelText, Normalize;
    Snoc(es, e);
    hide Ended;
    forall ch: Channel ensures Raw(es + [e], ch) == if e.Delta? && e.channel == ch then Raw(es, ch) + e.delta else Raw(es, ch) {
      RawSnoc(es, e, ch);
    }
    forall id
      ensures ArgumentsText(es + [e], id)
           == if e.ArgumentsDelta? && e.id == id then ArgumentsText(es, id) + Normalize(e.delta) else ArgumentsText(es, id)
    {
      ArgumentsSnoc(es, e, id);
    }
    StartsSnoc(es, e);
    SlotsSnoc(es, e);
    ReportsSnoc(es, e);
    AcceptedSnoc(es, e, req);
  }

  // ---- Progress ---------------------------------------------------------------------

  /** The display delta that event `e` contributes to its channel. */
  function EmittedDelta(es: seq<ModelEvent>, e: ModelEvent, ch: Channel): string {
    if e.Delta? && e.channel == ch then NormalizeFrom(e.delta, EndsCr(Raw(es, ch), false)) else []
  }

  function ProgressOf(es: seq<ModelEvent>, e: ModelEvent): Option<Progress> {
    if e.Delta? && EmittedDelta(es, e, e.channel) != []
    then Some(Progress(e.channel, EmittedDelta(es, e, e.channel)))
    else None
  }

  /** Everything emitted on one channel over a whole history. */
  function Emitted(es: seq<ModelEvent>, ch: Channel): string {
    if es == [] then [] else Emitted(Init(es), ch) + EmittedDelta(Init(es), Last(es), ch)
  }

  lemma ChannelStep(es: seq<ModelEvent>, e: ModelEvent, ch: Channel)
    ensures ChannelText(es + [e], ch) == ChannelText(es, ch) + EmittedDelta(es, e, ch)
    ensures e.Delta? && e.channel == ch ==>
      EndsCr(Raw(es + [e], ch), false) == EndsCr(e.delta, EndsCr(Raw(es, ch), false))
  {
    RawSnoc(es, e, ch);
    hide Raw, NormalizeFrom, EndsCr;
    if e.Delta? && e.channel == ch {
      NormalizeConcat(Raw(es, ch), e.delta, false);
    }
  }

  /**
   * For every event history, hence every chunking of a channel's raw stream,
   * the emitted deltas concatenate to the final channel text, which is the
   * whole raw stream normalized at once.
   */
  lemma {:induction false} EmittedIsNormalizedWhole(es: seq<ModelEvent>, ch: Channel)
    ensures Emitted(es, ch) == Normalize(Raw(es, ch))
  {
    hide Raw, Normalize, EmittedDelta;
    if es == [] {
      NothingRaw(ch);
    } else {
      EmittedIsNormalizedWhole(Init(es), ch);
      ChannelStep(Init(es), Last(es), ch);
      assert Init(es) + [Last(es)] == es;
    }
  }

  lemma NothingRaw(ch: Channel)
    ensures Raw([], ch) == [] && Normalize(Raw([], ch)) == []
  {
    EmptyIsFixed();
  }

  // ---- Tool arguments -----------------------------------------------------------------

  /** The raw argument deltas of one call, in order. */
  function ArgumentChunks(es: seq<ModelEvent>, id: CallId): seq<string> {
    if es == [] then []
    else match Last(es)
      case ArgumentsDelta(target, delta) =>
        if target == id then ArgumentChunks(Init(es), id) + [delta] else ArgumentChunks(Init(es), id)
      case _ => ArgumentChunks(Init(es), id)
  }

  lemma {:induction false} ArgumentsArePieces(es: seq<ModelEvent>, id: CallId)
    ensures ArgumentsText(es, id) == NormalizePieces(ArgumentChunks(es, id))
  {
    hide Normalize;
    if es != [] {
      ArgumentsArePieces(Init(es), id);
      var e := Last(es);
      if e.ArgumentsDelta? && e.id == id {
        var chunks := ArgumentChunks(Init(es), id);
        assert (chunks + [e.delta])[..|chunks|] == chunks;
      }
    }
  }

  /**
   * For every event history, hence every accepted one, the argument text of a
   * call is its whole raw argument stream normalized at once exactly when no
   * CRLF straddles two of its deltas.
   */
  lemma ArgumentsNormalizedExactly(es: seq<ModelEvent>, id: CallId)
    ensures var chunks := ArgumentChunks(es, id);
            ArgumentsText(es, id) == Normalize(Flatten(chunks)) <==> (forall i | 0 <= i < |chunks| :: !Straddles(chunks, i))
  {
    hide Normalize, Straddles, ArgumentsText;
    ArgumentsArePieces(es, id);
    PiecewiseExact(ArgumentChunks(es, id));
  }

  /** A started call whose CRLF arrives as two deltas. */
  function SplitCrLf(id: CallId, name: ToolName): seq<ModelEvent> {
    [ToolCallStart(id, name), ArgumentsDelta(id, "\r"), ArgumentsDelta(id, "\n")]
  }

  /** An accepted history for which it fails: two line feeds where the whole stream has one. */
  lemma SplitCrLfDiffers(id: CallId, name: ToolName, req: Request)
    requires Offers(req.tools, name) && LimitsValid(req.limits)
    ensures var es := SplitCrLf(id, name);
            && Accepted(es, req)
            && ArgumentsText(es, id) == "\n\n"
            && Normalize(Flatten(ArgumentChunks(es, id))) == "\n"
  {
    var one := [] + [ToolCallStart(id, name)];
    var two := one + [ArgumentsDelta(id, "\r")];
    assert SplitCrLf(id, name) == two + [ArgumentsDelta(id, "\n")];
    hide Accepted, ArgumentsText, ArgumentChunks, Normalize, Utf8Len;
    CrLfTexts();
    CallOpens(id, name, req);
    CallContinues(one, id, name, "\r", req);
    CallContinues(two, id, name, "\n", req);
    assert [] + Normalize("\r") == "\n" && [] + ["\r"] == ["\r"];
    FlattenSnoc([], "\r");
    FlattenSnoc(["\r"], "\n");
  }

  /** A call is open: its start was accepted, nothing has ended. */
  ghost predicate CallOpen(es: seq<ModelEvent>, id: CallId, name: ToolName, req: Request) {
    Accepted(es, req) && Starts(es) == [(id, name)] && FinishReason(es).None? && !Ended(es, id)
  }

  lemma {:induction false} CallOpens(id: CallId, name: ToolName, req: Request)
    requires Offers(req.tools, name) && LimitsValid(req.limits)
    ensures var es := [] + [ToolCallStart(id, name)];
            CallOpen(es, id, name, req) && ArgumentsText(es, id) == [] && ArgumentChunks(es, id) == []
  {
    var e: ModelEvent := ToolCallStart(id, name);
    Snoc([], e);
    assert Starts([]) == [] && FinishReason([]).None?;
    assert Refusal([], e, req).None?;
  }

  lemma {:induction false} CallContinues(es: seq<ModelEvent>, id: CallId, name: ToolName, delta: string, req: Request)
    requires CallOpen(es, id, name, req)
    requires Utf8Len(delta) <= MAX_MODEL_EVENT_TEXT_BYTES
    requires Utf8Len(ArgumentsText(es, id) + Normalize(delta)) <= MAX_JSON_BYTES
    ensures var more := es + [ArgumentsDelta(id, delta)];
            && CallOpen(more, id, name, req)
            && ArgumentsText(more, id) == ArgumentsText(es, id) + Normalize(delta)
            && ArgumentChunks(more, id) == ArgumentChunks(es, id) + [delta]
  {
    hide Normalize, Utf8Len, Offers;
    var e: ModelEvent := ArgumentsDelta(id, delta);
    Snoc(es, e);
    assert Starts(es)[0].0 == id;
    assert Refusal(es, e, req).None?;
  }

  lemma CrLfTexts()
    ensures Normalize("\r") == "\n" && Normalize("\n") == "\n" && Normalize("\r" + "\n") == "\n"
    ensures Utf8Len("\r") == 1 && Utf8Len("\n") == 1 && Utf8Len("\n" + "\n") == 2 && "\n" + "\n" == "\n\n"
  {
    assert DropPairedLf("\r", false) == "\r" && DropPairedLf("\n", false) == "\n";
    assert DropPairedLf("\r\n", false) == ['\r'] + DropPairedLf("\n", true);
    assert DropPairedLf("\n", true) == [];
    AsciiBytes("\n\n");
  }

  // ---- Facts about accepted histories ----------------------------------------------

  predicate TextsWithin(es: seq<ModelEvent>, req: Request) {
    forall ch: Channel :: Utf8Len(ChannelText(es, ch)) <= ChannelLimit(req.limits, ch)
  }

  predicate StartsDistinct(es: seq<ModelEvent>) {
    forall i, j | 0 <= i < j < |Starts(es)| :: Starts(es)[i].0 != Starts(es)[j].0
  }

  lemma {:induction false} AcceptedFacts(es: seq<ModelEvent>, req: Request)
    requires Accepted(es, req)
    ensures TextsWithin(es, req)
    ensures StartsDistinct(es)
    ensures |Starts(es)| <= req.limits.maxToolCalls
    ensures forall i | 0 <= i < |Starts(es)| :: Offers(req.tools, Starts(es)[i].1)
    ensures FinishReason(es).Some? ==> forall i | 0 <= i < |Starts(es)| :: Ended(es, Starts(es)[i].0)
    ensures forall id | Ended(es, id) :: ArgumentsAccepted(ArgumentsText(es, id), req)
  {
    if es == [] {
      NothingSaid(req);
    } else {
      hide Raw, Starts, ArgumentsText, Slots, FinishReason, Accepted, Refusal, TextsWithin, StartsDistinct, ArgumentsAccepted, Ended, Offers;
      var init, last := Init(es), Last(es);
      assert init + [last] == es;
      After(init, last, req);
      AcceptedFacts(init, req);
      TextsStayWithin(init, last, req);
      StartsStay(init, last, req);
      EndsStay(init, last, req);
    }
  }

  lemma NothingSaid(req: Request)
    ensures TextsWithin([], req) && Starts([]) == [] && FinishReason([]).None? && forall id :: !Ended([], id)
  {
    assert Utf8Len([]) == 0;
    forall ch: Channel ensures ChannelText([], ch) == [] {
      NothingRaw(ch);
    }
  }

  lemma TextsStayWithin(es: seq<ModelEvent>, e: ModelEvent, req: Request)
    requires TextsWithin(es, req) && Refusal(es, e, req).None?
    ensures TextsWithin(es + [e], req)
  {
    hide Raw, Normalize, Utf8Len, Starts, ArgumentsText, FinishReason, ReportedUsage, ReportedReplay, ArgumentsAccepted;
    forall ch: Channel ensures Utf8Len(ChannelText(es + [e], ch)) <= ChannelLimit(req.limits, ch) {
      RawSnoc(es, e, ch);
      assert Utf8Len(ChannelText(es, ch)) <= ChannelLimit(req.limits, ch);
    }
  }

  lemma {:induction false} StartsStay(es: seq<ModelEvent>, e: ModelEvent, req: Request)
    requires StartsDistinct(es) && |Starts(es)| <= req.limits.maxToolCalls && Refusal(es, e, req).None?
    requires forall i | 0 <= i < |Starts(es)| :: Offers(req.tools, Starts(es)[i].1)
    ensures StartsDistinct(es + [e]) && |Starts(es + [e])| <= req.limits.maxToolCalls
    ensures forall i | 0 <= i < |Starts(es + [e])| :: Offers(req.tools, Starts(es + [e])[i].1)
  {
    hide ChannelText, ArgumentsText, FinishReason, ReportedUsage, ReportedReplay, ArgumentsAccepted, Starts, Utf8Len, Offers, EventValid;
    StartsSnoc(es, e);
  }

  lemma {:induction false} EndsStay(es: seq<ModelEvent>, e: ModelEvent, req: Request)
    requires Refusal(es, e, req).None?
    requires forall id | Ended(es, id) :: ArgumentsAccepted(ArgumentsText(es, id), req)
    ensures var next := es + [e];
            && (FinishReason(next).Some? ==> forall i | 0 <= i < |Starts(next)| :: Ended(next, Starts(next)[i].0))
            && (forall id | Ended(next, id) :: ArgumentsAccepted(ArgumentsText(next, id), req))
  {
    hide ChannelText, ArgumentsText, FinishReason, ReportedUsage, ReportedReplay, ArgumentsAccepted, Starts, Utf8Len, Offers, EventValid,
         Raw, Slots, Accepted, Normalize;
    After(es, e, req);
    hide Ended;
  }

  // ---- The event protocol, read off the event list ---------------------------------------

  /** Each delta is within the bound on one event's text. */
  predicate DeltasFit(es: seq<ModelEvent>) {
    forall i | 0 <= i < |es| && (es[i].Delta? || es[i].ArgumentsDelta?) :: Utf8Len(es[i].delta) <= MAX_MODEL_EVENT_TEXT_BYTES
  }

  predicate ReportedOnce(es: seq<ModelEvent>) {
    && (forall i, j | 0 <= i < j < |es| :: !(es[i].UsageReport? && es[j].UsageReport?))
    && (forall i, j | 0 <= i < j < |es| :: !(es[i].ReplayReport? && es[j].ReplayReport?))
  }

  predicate StartsAt(es: seq<ModelEvent>, s: int, id: CallId) {
    0 <= s < |es| && es[s].ToolCallStart? && es[s].id == id
  }

  function StartIndices(es: seq<ModelEvent>): set<nat> {
    set s: nat | s < |es| && es[s].ToolCallStart?
  }

  /** Offered tools only, each id once, no more than the limit. */
  predicate StartsAllowed(es: seq<ModelEvent>, req: Request) {
    && (forall i | 0 <= i < |es| && es[i].ToolCallStart? :: exists k :: 0 <= k < |req.tools| && req.tools[k].name == es[i].name)
    && (forall i, j | 0 <= i < j < |es| && es[i].ToolCallStart? && es[j].ToolCallStart? :: es[i].id != es[j].id)
    && |StartIndices(es)| <= req.limits.maxToolCalls
  }

  /** Arguments and ends come after the start of their call and not after its end. */
  predicate CallsBracketed(es: seq<ModelEvent>) {
    forall i | 0 <= i < |es| && (es[i].ArgumentsDelta? || es[i].ToolCallEnd?) ::
      && (exists s :: 0 <= s < i && StartsAt(es, s, es[i].id))
      && ToolCallEnd(es[i].id) !in es[..i]
  }

  /** The arguments of each ended call parse to an object within the bounds. */
  ghost predicate ArgumentsFit(es: seq<ModelEvent>, req: Request) {
    && (forall id :: Utf8Len(ArgumentsText(es, id)) <= MAX_JSON_BYTES)
    && (forall id | ToolCallEnd(id) in es ::
          && ArgumentsText(es, id) != []
          && req.limits.maxArguments <= MAX_JSON_BYTES
          && exists v ::
               && req.codec.parse(ArgumentsText(es, id)) == Some(v)
               && v.Object?
               && Height(v) <= MAX_JSON_DEPTH
               && Count(v) <= MAX_JSON_NODES
               && TotalLen(req.codec.serialize(v)) <= req.limits.maxArguments)
  }

  predicate ChannelsFit(es: seq<ModelEvent>, req: Request) {
    && Utf8Len(Normalize(Raw(es, TextChannel))) <= req.limits.maxText
    && Utf8Len(Normalize(Raw(es, ReasoningChannel))) <= req.limits.maxReasoning
  }

  /** A finish is the last event, and every started call has ended by then. */
  predicate FinishCloses(es: seq<ModelEvent>) {
    forall f | 0 <= f < |es| && es[f].Finish? ::
      f == |es| - 1 && forall s | 0 <= s < |es| && es[s].ToolCallStart? :: ToolCallEnd(es[s].id) in es
  }

  /** The event lists a provider may stream, whole or so far. */
  ghost predicate Protocol(es: seq<ModelEvent>, req: Request) {
    && DeltasFit(es)
    && ReportedOnce(es)
    && StartsAllowed(es, req)
    && CallsBracketed(es)
    && ArgumentsFit(es, req)
    && ChannelsFit(es, req)
    && FinishCloses(es)
  }

  /** The recursive readings of a history against its indices. */
  lemma {:induction false} ReadByIndex(es: seq<ModelEvent>)
    ensures FinishReason(es).Some? <==> exists i :: 0 <= i < |es| && es[i].Finish?
    ensures ReportedUsage(es).Some? <==> exists i :: 0 <= i < |es| && es[i].UsageReport?
    ensures ReportedReplay(es).Some? <==> exists i :: 0 <= i < |es| && es[i].ReplayReport?
    ensures |Starts(es)| == |StartIndices(es)|
    ensures forall id :: Started(es, id) <==> exists s :: StartsAt(es, s, id)
  {
    hide Starts, Started, StartsAt, FinishReason, ReportedUsage, ReportedReplay;
    if es == [] {
      NothingRead();
    } else {
      var init, e := Init(es), Last(es);
      assert init + [e] == es;
      ReadByIndex(init);
      ReportsSnoc(init, e);
      StartIndicesSnoc(init, e);
      forall id ensures Started(es, id) <==> exists s :: StartsAt(es, s, id) {
        StartedSnoc(init, e, id);
      }
    }
  }

  lemma NothingRead()
    ensures FinishReason([]).None? && ReportedUsage([]).None? && ReportedReplay([]).None?
    ensures Starts([]) == [] && StartIndices([]) == {}
    ensures forall id :: !Started([], id)
    ensures forall id, s :: !StartsAt([], s, id)
  {
  }

  lemma StartIndicesSnoc(es: seq<ModelEvent>, e: ModelEvent)
    ensures |StartIndices(es + [e])| == |StartIndices(es)| + if e.ToolCallStart? then 1 else 0
    ensures |Starts(es + [e])| == |Starts(es)| + if e.ToolCallStart? then 1 else 0
  {
    StartsSnoc(es, e);
    hide Starts;
    assert StartIndices(es + [e]) == if e.ToolCallStart? then StartIndices(es) + {|es|} else StartIndices(es);
  }

  lemma StartedSnoc(es: seq<ModelEvent>, e: ModelEvent, id: CallId)
    requires Started(es, id) <==> exists s :: StartsAt(es, s, id)
    ensures Started(es + [e], id) <==> exists s :: StartsAt(es + [e], s, id)
    ensures Started(es + [e], id) <==> Started(es, id) || (e.ToolCallStart? && e.id == id)
  {
    StartsSnoc(es, e);
    hide Starts;
    var next := es + [e];
    if Started(es, id) {
      var i :| 0 <= i < |Starts(es)| && Starts(es)[i].0 == id;
      assert Starts(next)[i].0 == id;
      var s :| StartsAt(es, s, id);
      assert StartsAt(next, s, id);
    }
    if e.ToolCallStart? && e.id == id {
      assert Starts(next)[|Starts(es)|].0 == id;
      assert StartsAt(next, |es|, id);
    }
    if s :| StartsAt(next, s, id) {
      assert s < |es| ==> StartsAt(es, s, id);
    }
  }

  lemma DeltasStep(es: seq<ModelEvent>, e: ModelEvent)
    ensures DeltasFit(es + [e]) <==> DeltasFit(es) && EventValid(e)
  {
    hide Utf8Len;
    var next := es + [e];
    assert next[|es|] == e;
    assert forall i | 0 <= i < |es| :: next[i] == es[i];
  }

  lemma ReportedStep(es: seq<ModelEvent>, e: ModelEvent)
    ensures ReportedOnce(es + [e]) <==>
      && ReportedOnce(es)
      && (e.UsageReport? ==> ReportedUsage(es).None?)
      && (e.ReplayReport? ==> ReportedReplay(es).None?)
  {
    ReadByIndex(es);
    hide ReportedUsage, ReportedReplay, FinishReason;
    var next := es + [e];
    assert next[|es|] == e;
    assert forall i | 0 <= i < |es| :: next[i] == es[i];
  }

  lemma StartsStep(es: seq<ModelEvent>, e: ModelEvent, req: Request)
    ensures StartsAllowed(es + [e], req) <==>
      && StartsAllowed(es, req)
      && (e.ToolCallStart? ==> Offers(req.tools, e.name) && !Started(es, e.id) && |Starts(es)| < req.limits.maxToolCalls)
  {
    ReadByIndex(es);
    StartIndicesSnoc(es, e);
    hide Started, Starts, StartIndices, FinishReason, ReportedUsage, ReportedReplay;
    var next := es + [e];
    assert next[|es|] == e;
    assert forall i | 0 <= i < |es| :: next[i] == es[i];
    if e.ToolCallStart? && Started(es, e.id) {
      var s :| StartsAt(es, s, e.id);
      assert next[s].ToolCallStart? && next[s].id == next[|es|].id;
    }
    if e.ToolCallStart? && !Started(es, e.id) {
      assert forall s | 0 <= s < |es| && es[s].ToolCallStart? :: StartsAt(es, s, es[s].id);
    }
  }

  lemma BracketsStep(es: seq<ModelEvent>, e: ModelEvent)
    ensures CallsBracketed(es + [e]) <==>
      && CallsBracketed(es)
      && (e.ArgumentsDelta? || e.ToolCallEnd? ==> Started(es, e.id) && !Ended(es, e.id))
  {
    ReadByIndex(es);
    hide Started, Starts, StartIndices, FinishReason, ReportedUsage, ReportedReplay;
    var next := es + [e];
    assert next[|es|] == e && next[..|es|] == es;
    assert forall i | 0 <= i < |es| :: next[i] == es[i] && next[..i] == es[..i];
    assert forall s, id | 0 <= s < |es| :: StartsAt(next, s, id) == StartsAt(es, s, id);
  }

  lemma ArgumentsFitStep(es: seq<ModelEvent>, e: ModelEvent, req: Request)
    requires e.ArgumentsDelta? || e.ToolCallEnd? ==> !Ended(es, e.id)
    ensures ArgumentsFit(es + [e], req) <==>
      && ArgumentsFit(es, req)
      && (e.ArgumentsDelta? ==> Utf8Len(ArgumentsText(es + [e], e.id)) <= MAX_JSON_BYTES)
      && (e.ToolCallEnd? ==> ArgumentsAccepted(ArgumentsText(es, e.id), req))
  {
    hide Utf8Len, ArgumentsText, Normalize, Height, Count;
    var next := es + [e];
    forall id
      ensures ArgumentsText(next, id) == ArgumentsText(es, id) || (e.ArgumentsDelta? && e.id == id)
      ensures Utf8Len(ArgumentsText(es, id)) <= Utf8Len(ArgumentsText(next, id))
    {
      ArgumentsSnoc(es, e, id);
      if e.ArgumentsDelta? && e.id == id {
        Utf8LenConcat(ArgumentsText(es, id), Normalize(e.delta));
      }
    }
    assert forall id | ToolCallEnd(id) in es :: ArgumentsText(next, id) == ArgumentsText(es, id);
    assert forall id :: ToolCallEnd(id) in next <==> ToolCallEnd(id) in es || e == ToolCallEnd(id);
  }

  lemma ChannelsStep(es: seq<ModelEvent>, e: ModelEvent, req: Request)
    ensures ChannelsFit(es + [e], req) <==>
      && ChannelsFit(es, req)
      && (e.Delta? ==> Utf8Len(ChannelText(es + [e], e.channel)) <= ChannelLimit(req.limits, e.channel))
  {
    hide Utf8Len, Raw, Normalize, EmittedDelta;
    forall ch: Channel
      ensures Utf8Len(ChannelText(es, ch)) <= Utf8Len(ChannelText(es + [e], ch))
      ensures ChannelText(es + [e], ch) == ChannelText(es, ch) || (e.Delta? && e.channel == ch)
    {
      ChannelStep(es, e, ch);
      OtherChannel(es, e, ch);
      Utf8LenConcat(ChannelText(es, ch), EmittedDelta(es, e, ch));
    }
    assert forall ch: Channel :: ChannelText(es, ch) == Normalize(Raw(es, ch));
    assert ChannelText(es + [e], TextChannel) == Normalize(Raw(es + [e], TextChannel));
    assert ChannelText(es + [e], ReasoningChannel) == Normalize(Raw(es + [e], ReasoningChannel));
    hide ChannelText;
  }

  lemma FinishStep(es: seq<ModelEvent>, e: ModelEvent)
    ensures FinishCloses(es + [e]) <==>
      && FinishReason(es).None?
      && (e.Finish? ==> forall i | 0 <= i < |Starts(es)| :: Ended(es, Starts(es)[i].0))
  {
    ReadByIndex(es);
    hide Starts, StartIndices, FinishReason, ReportedUsage, ReportedReplay;
    var next := es + [e];
    assert next[|es|] == e;
    assert forall i | 0 <= i < |es| :: next[i] == es[i];
    if e.Finish? {
      assert forall id :: ToolCallEnd(id) in next <==> ToolCallEnd(id) in es;
      forall i | 0 <= i < |Starts(es)| ensures exists s :: 0 <= s < |es| && next[s].ToolCallStart? && next[s].id == Starts(es)[i].0 {
        assert Started(es, Starts(es)[i].0);
        var s :| StartsAt(es, s, Starts(es)[i].0);
      }
      forall s | 0 <= s < |es| && es[s].ToolCallStart? ensures Started(es, es[s].id) {
        assert StartsAt(es, s, es[s].id);
      }
    }
  }

  /** One more event keeps the protocol exactly when it is not refused. */
  lemma ProtocolStep(es: seq<ModelEvent>, e: ModelEvent, req: Request)
    ensures Protocol(es + [e], req) <==> Protocol(es, req) && Refusal(es, e, req).None?
  {
    hide DeltasFit, ReportedOnce, StartsAllowed, CallsBracketed, ArgumentsFit, ChannelsFit, Starts, Started, Ended, ArgumentsText,
         ChannelText, Utf8Len, FinishReason, ReportedUsage, ReportedReplay, ArgumentsAccepted, Offers, EventValid;
    DeltasStep(es, e);
    ReportedStep(es, e);
    StartsStep(es, e, req);
    BracketsStep(es, e);
    if !((e.ArgumentsDelta? || e.ToolCallEnd?) && Ended(es, e.id)) {
      ArgumentsFitStep(es, e, req);
    }
    ChannelsStep(es, e, req);
    FinishStep(es, e);
    ReadByIndex(es);
  }

  lemma NothingFits(req: Request)
    ensures Protocol([], req)
  {
    NothingRaw(TextChannel);
    NothingRaw(ReasoningChannel);
    assert Utf8Len([]) == 0;
    assert StartIndices([]) == {};
    assert forall id :: ArgumentsText([], id) == [];
  }

  /** The assembler accepts exactly the event lists that keep the protocol. */
  lemma {:induction false} AcceptedExactly(es: seq<ModelEvent>, req: Request)
    ensures Accepted(es, req) <==> Protocol(es, req)
  {
    hide Protocol, Refusal;
    if es == [] {
      NothingFits(req);
    } else {
      AcceptedExactly(Init(es), req);
      ProtocolStep(Init(es), Last(es), req);
      assert Init(es) + [Last(es)] == es;
    }
  }

  /** The next event's fate on the list it would complete, and the kind of its error. */
  lemma NextEvent(es: seq<ModelEvent>, e: ModelEvent, req: Request)
    requires Accepted(es, req)
    ensures Refusal(es, e, req).None? <==> Protocol(es + [e], req)
    ensures Refusal(es, e, req) == Some(UnexpectedToolCall) <==>
      e.ToolCallStart? && (forall i | 0 <= i < |es| :: !es[i].Finish?) && (forall k | 0 <= k < |req.tools| :: req.tools[k].name != e.name)
    ensures Refusal(es, e, req) in {None, Some(InvalidProviderResponse), Some(UnexpectedToolCall)}
  {
    hide Protocol, Accepted, FinishReason, Starts, Started, Ended, ArgumentsText, ChannelText, ReportedUsage, ReportedReplay, Utf8Len;
    AcceptedExactly(es, req);
    ProtocolStep(es, e, req);
    ReadByIndex(es);
  }

  // ---- Slots --------------------------------------------------------------------------

  function ToolIndices(slots: seq<Slot>): seq<nat> {
    if slots == [] then []
    else match slots[|slots| - 1]
      case ToolSlot(index) => ToolIndices(slots[..|slots| - 1]) + [index]
      case ChannelSlot(_) => ToolIndices(slots[..|slots| - 1])
  }

  function Counting(n: nat): (s: seq<nat>)
    ensures |s| == n
  {
    seq(n, i requires 0 <= i < n => i)
  }

  /** A channel has a slot exactly when its text is non-empty. */
  lemma {:induction false} ChannelSlots(es: seq<ModelEvent>, ch: Channel)
    ensures ChannelSlot(ch) in Slots(es) <==> ChannelText(es, ch) != []
  {
    hide ChannelText, EmittedDelta, Raw, Starts, Slots;
    if es == [] {
      NoSlots(ch);
    } else {
      ChannelSlots(Init(es), ch);
      ChannelStep(Init(es), Last(es), ch);
      SlotsSnoc(Init(es), Last(es));
      OtherChannel(Init(es), Last(es), ch);
      assert Init(es) + [Last(es)] == es;
    }
  }

  lemma NoSlots(ch: Channel)
    ensures Slots([]) == [] && ChannelText([], ch) == []
  {
    NothingRaw(ch);
  }

  /** Only a delta on the channel itself changes its text. */
  lemma OtherChannel(es: seq<ModelEvent>, e: ModelEvent, ch: Channel)
    ensures !(e.Delta? && e.channel == ch) ==> ChannelText(es + [e], ch) == ChannelText(es, ch)
    ensures ChannelText(es, ch) != [] ==> ChannelText(es + [e], ch) != []
  {
    RawSnoc(es, e, ch);
    ChannelStep(es, e, ch);
    hide Raw, EmittedDelta;
  }

  /** Tools get slots in index order. */
  lemma {:induction false} ToolSlots(es: seq<ModelEvent>)
    ensures ToolIndices(Slots(es)) == Counting(|Starts(es)|)
    ensures forall i: nat :: ToolSlot(i) in Slots(es) <==> i < |Starts(es)|
  {
    hide ChannelText, Slots, Starts, ToolIndices;
    if es == [] {
      NoTools();
    } else {
      var init := Init(es);
      assert init + [Last(es)] == es;
      ToolSlots(init);
      SlotsSnoc(init, Last(es));
      StartsSnoc(init, Last(es));
      if Slots(es) != Slots(init) {
        var s := Slots(es)[|Slots(init)|];
        assert Slots(es) == Slots(init) + [s];
        ToolIndicesSnoc(Slots(init), s);
        assert Counting(|Starts(init)| + 1) == Counting(|Starts(init)|) + [|Starts(init)|];
      }
    }
  }

  lemma NoTools()
    ensures Slots([]) == [] && Starts([]) == [] && ToolIndices([]) == [] && Counting(0) == []
  {
  }

  lemma ToolIndicesSnoc(slots: seq<Slot>, s: Slot)
    ensures ToolIndices(slots + [s]) == if s.ToolSlot? then ToolIndices(slots) + [s.index] else ToolIndices(slots)
  {
    assert (slots + [s])[..|slots|] == slots;
  }

  lemma {:induction false} SlotsDistinct(es: seq<ModelEvent>)
    ensures Distinct(Slots(es))
  {
    hide ChannelText, Slots, Starts, ToolIndices, Counting;
    if es == [] {
      NoTools();
    } else {
      var init := Init(es);
      assert init + [Last(es)] == es;
      SlotsDistinct(init);
      SlotsSnoc(init, Last(es));
      ToolSlots(init);
      if Last(es).Delta? {
        ChannelSlots(init, Last(es).channel);
      }
    }
  }

  lemma {:induction false} SlotsFacts(es: seq<ModelEvent>)
    ensures forall ch: Channel :: ChannelSlot(ch) in Slots(es) <==> ChannelText(es, ch) != []
    ensures Distinct(Slots(es))
    ensures ToolIndices(Slots(es)) == Counting(|Starts(es)|)
    ensures forall s | s in Slots(es) :: s.ToolSlot? ==> s.index < |Starts(es)|
    ensures forall i: nat :: ToolSlot(i) in Slots(es) <==> i < |Starts(es)|
  {
    SlotsDistinct(es);
    ToolSlots(es);
    hide Slots, Starts, ChannelText, ToolIndices, Counting;
    assert forall s | s in Slots(es) && s.ToolSlot? :: s == ToolSlot(s.index);
    forall ch: Channel ensures ChannelSlot(ch) in Slots(es) <==> ChannelText(es, ch) != [] {
      ChannelSlots(es, ch);
    }
  }

  // ---- The assembled response -----------------------------------------------------------

  function ToolCallAt(es: seq<ModelEvent>, i: nat, req: Request): ToolCall
    requires i < |Starts(es)|
    requires ArgumentsAccepted(ArgumentsText(es, Starts(es)[i].0), req)
  {
    var (id, name) := Starts(es)[i];
    ToolCall(id, name, req.codec.parse(ArgumentsText(es, id)).value, i)
  }

  predicate Complete(es: seq<ModelEvent>, req: Request) {
    forall i | 0 <= i < |Starts(es)| :: ArgumentsAccepted(ArgumentsText(es, Starts(es)[i].0), req)
  }

  function SlotPart(es: seq<ModelEvent>, slot: Slot, req: Request): AssistantPart
    requires Complete(es, req)
    requires slot.ToolSlot? ==> slot.index < |Starts(es)|
  {
    match slot
    case ChannelSlot(TextChannel) => TextPart(ChannelText(es, TextChannel))
    case ChannelSlot(ReasoningChannel) => ReasoningPart(ChannelText(es, ReasoningChannel))
    case ToolSlot(i) => CallPart(ToolCallAt(es, i, req))
  }

  function SlotParts(es: seq<ModelEvent>, slots: seq<Slot>, req: Request): (parts: seq<AssistantPart>)
    requires Complete(es, req)
    requires forall s | s in slots :: s.ToolSlot? ==> s.index < |Starts(es)|
    ensures |parts| == |slots|
  {
    seq(|slots|, k requires 0 <= k < |slots| => SlotPart(es, slots[k], req))
  }

  lemma {:induction false} SlotPartsCalls(es: seq<ModelEvent>, slots: seq<Slot>, req: Request)
    requires Complete(es, req)
    requires forall s | s in slots :: s.ToolSlot? ==> s.index < |Starts(es)|
    ensures var calls := Calls(SlotParts(es, slots, req));
            var indices := ToolIndices(slots);
            |calls| == |indices| && forall k | 0 <= k < |calls| ::
              indices[k] < |Starts(es)| && calls[k] == ToolCallAt(es, indices[k], req)
  {
    hide ArgumentsText, ArgumentsAccepted, Starts, ToolCallAt, ChannelText;
    if slots != [] {
      var n := |slots| - 1;
      var init := slots[..n];
      assert forall s | s in init :: s in slots;
      SlotPartsCalls(es, init, req);
      var parts := SlotParts(es, slots, req);
      assert parts[..n] == SlotParts(es, init, req);
      assert slots[n] in slots;
      assert parts[n] == SlotPart(es, slots[n], req);
    }
  }

  /** The reasons for which an accepted history still yields no response. */
  function FinishFault(es: seq<ModelEvent>): Option<ModelErrorKind> {
    match FinishReason(es)
    case None => Some(IncompleteResponse)
    case Some(reason) =>
      var hasTools := Starts(es) != [];
      if hasTools && reason !in {ToolCalls, Unknown} then Some(InvalidProviderResponse)
      else if !hasTools && reason == ToolCalls then Some(InvalidProviderResponse)
      else if reason in {ContentFiltered, Refused} && ChannelText(es, TextChannel) == [] then Some(InvalidProviderResponse)
      else if Slots(es) == [] && ReportedReplay(es).None? then Some(InvalidProviderResponse)
      else None
  }

  predicate CallsOffered(parts: seq<AssistantPart>, tools: seq<ToolSpec>) {
    forall i | 0 <= i < |Calls(parts)| :: Offers(tools, Calls(parts)[i].name)
  }

  /** What holds of every response a driver returns for `req`. */
  predicate ResponseFor(r: ModelResponse, req: Request) {
    && ResponseValid(r)
    && CallsOffered(r.parts, req.tools)
    && r.usage.Some?
    && (r.finishReason == ToolCalls ==> Calls(r.parts) != [])
    && (Calls(r.parts) != [] ==> r.finishReason in {ToolCalls, Unknown})
  }

  function Assembled(es: seq<ModelEvent>, req: Request): ModelResponse
    requires Accepted(es, req) && FinishReason(es).Some?
  {
    AcceptedFacts(es, req);
    SlotsFacts(es);
    ModelResponse(SlotParts(es, Slots(es), req), FinishReason(es).value,
                  Some(if ReportedUsage(es).Some? then ReportedUsage(es).value else NO_USAGE), ReportedReplay(es))
  }

  /** An accepted, finished history without a fault always assembles to a valid response. */
  lemma AssembledIsValid(es: seq<ModelEvent>, req: Request)
    requires LimitsValid(req.limits)
    requires Accepted(es, req) && FinishReason(es).Some? && FinishFault(es).None?
    ensures ResponseFor(Assembled(es, req), req)
    ensures NormalizedParts(Assembled(es, req).parts) == Assembled(es, req).parts
    ensures |Calls(Assembled(es, req).parts)| == |Starts(es)|
  {
    AcceptedFacts(es, req);
    SlotsFacts(es);
    SlotPartsCalls(es, Slots(es), req);
    NormalizeDisplayable(Raw(es, TextChannel), false);
    assert Utf8Len(ChannelText(es, TextChannel)) <= ChannelLimit(req.limits, TextChannel);
    assert ValidText(ChannelText(es, TextChannel), MAX_MODEL_MESSAGE_TEXT_BYTES, true);
    hide ArgumentsText, ArgumentsAccepted, Starts, Slots, ChannelText, ValidText, ToolIndices, Calls, Accepted;
    var parts := Assembled(es, req).parts;
    forall p | p in parts && p.TextPart? ensures ValidText(p.text, MAX_MODEL_MESSAGE_TEXT_BYTES, true) {
      var k :| 0 <= k < |parts| && parts[k] == p;
      assert parts[k] == SlotPart(es, Slots(es)[k], req);
    }
    NormalizedPartsFixed(parts);
    OrderedByStarts(es, Calls(parts), req);
    assert parts == [] <==> Slots(es) == [];
  }

  /** Calls listed in start order have indices 0, 1, 2, ... and distinct ids. */
  lemma OrderedByStarts(es: seq<ModelEvent>, calls: seq<ToolCall>, req: Request)
    requires Complete(es, req) && StartsDistinct(es) && |Starts(es)| <= req.limits.maxToolCalls <= U32_MAX
    requires |calls| == |Starts(es)|
    requires forall k | 0 <= k < |calls| :: calls[k] == ToolCallAt(es, k, req)
    ensures CallsOrdered(calls)
    ensures forall k | 0 <= k < |calls| :: calls[k].name == Starts(es)[k].1
  {
    hide ArgumentsText, ArgumentsAccepted, Starts;
  }

  // ---- The assembled response, read off the event list ------------------------------------

  /** A finished history yields a response exactly when its finish fits what it streamed. */
  lemma FaultExactly(es: seq<ModelEvent>, req: Request)
    requires Accepted(es, req)
    ensures FinishFault(es) == Some(IncompleteResponse) <==> forall i | 0 <= i < |es| :: !es[i].Finish?
    ensures FinishFault(es) in {None, Some(IncompleteResponse), Some(InvalidProviderResponse)}
    ensures forall reason | Finish(reason) in es ::
              FinishFault(es).None? <==>
                && (reason == ToolCalls ==> StartIndices(es) != {})
                && (StartIndices(es) != {} ==> reason == ToolCalls || reason == Unknown)
                && (reason == ContentFiltered || reason == Refused ==> Normalize(Raw(es, TextChannel)) != [])
                && (StartIndices(es) != {} || Normalize(Raw(es, TextChannel)) != [] || Normalize(Raw(es, ReasoningChannel)) != []
                    || exists i :: 0 <= i < |es| && es[i].ReplayReport?)
  {
    hide Raw, Normalize, Starts, Slots, FinishReason, ReportedReplay, ReportedUsage, StartIndices, Protocol;
    ReadByIndex(es);
    SlotsEmpty(es);
    FinishIsReason(es, req);
    hide Accepted, ChannelText;
    assert StartIndices(es) == {} <==> Starts(es) == [];
  }

  lemma SlotsEmpty(es: seq<ModelEvent>)
    ensures Slots(es) == [] <==> Starts(es) == [] && Normalize(Raw(es, TextChannel)) == [] && Normalize(Raw(es, ReasoningChannel)) == []
  {
    SlotsFacts(es);
    hide Raw, Normalize, Starts, Slots;
    assert ChannelText(es, TextChannel) == Normalize(Raw(es, TextChannel));
    assert ChannelText(es, ReasoningChannel) == Normalize(Raw(es, ReasoningChannel));
    assert ToolSlot(0) in Slots(es) <==> Starts(es) != [];
    assert ChannelSlot(TextChannel) in Slots(es) <==> ChannelText(es, TextChannel) != [];
    assert ChannelSlot(ReasoningChannel) in Slots(es) <==> ChannelText(es, ReasoningChannel) != [];
    if Slots(es) != [] {
      var slot := Slots(es)[0];
      assert slot in Slots(es);
      assert slot.ChannelSlot? ==> slot == ChannelSlot(slot.channel) && ChannelText(es, slot.channel) != [];
      assert slot.ChannelSlot? ==> slot.channel == TextChannel || slot.channel == ReasoningChannel;
    }
  }

  /** The finish of an accepted history is its last event. */
  lemma FinishIsReason(es: seq<ModelEvent>, req: Request)
    requires Accepted(es, req)
    ensures forall reason | Finish(reason) in es :: FinishReason(es) == Some(reason)
    ensures FinishReason(es).Some? ==> es != [] && Last(es) == Finish(FinishReason(es).value)
  {
    AcceptedExactly(es, req);
    ReadByIndex(es);
    hide Accepted, DeltasFit, ReportedOnce, StartsAllowed, CallsBracketed, ArgumentsFit, ChannelsFit, Starts, Started, ReportedUsage, ReportedReplay;
    forall i | 0 <= i < |es| && es[i].Finish? ensures i == |es| - 1 {
    }
  }

  /** The reported usage and replay are those of their one event. */
  lemma {:induction false} ReportsRead(es: seq<ModelEvent>)
    requires ReportedOnce(es)
    ensures forall i | 0 <= i < |es| && es[i].UsageReport? :: ReportedUsage(es) == Some(es[i].usage)
    ensures forall i | 0 <= i < |es| && es[i].ReplayReport? :: ReportedReplay(es) == Some(es[i].replay)
  {
    if es != [] {
      var init, e := Init(es), Last(es);
      assert init + [e] == es;
      hide ReportedUsage, ReportedReplay;
      ReportsRead(init);
      ReportsSnoc(init, e);
    }
  }

  lemma {:induction false} SlotsGrow(es: seq<ModelEvent>, k: nat)
    requires k <= |es|
    ensures Slots(es[..k]) <= Slots(es) && Starts(es[..k]) <= Starts(es)
  {
    hide Slots, Starts, ChannelText;
    if k == |es| {
      assert es[..k] == es;
    } else {
      var init, e := Init(es), Last(es);
      assert init + [e] == es && init[..k] == es[..k];
      SlotsGrow(init, k);
      SlotsSnoc(init, e);
      StartsSnoc(init, e);
    }
  }

  /** The start of the `i`-th call, as an event. */
  lemma {:induction false} StartRead(es: seq<ModelEvent>, s: nat)
    requires s < |es| && es[s].ToolCallStart?
    ensures |Starts(es[..s])| < |Starts(es)| && Starts(es)[|Starts(es[..s])|] == (es[s].id, es[s].name)
  {
    assert es[..s + 1] == es[..s] + [es[s]];
    StartsSnoc(es[..s], es[s]);
    SlotsGrow(es, s + 1);
    hide Slots, Starts;
  }

  /** What a part of the response says, in terms of the events alone. */
  ghost predicate PartRead(es: seq<ModelEvent>, p: AssistantPart, req: Request) {
    match p
    case TextPart(text) => text == Normalize(Raw(es, TextChannel)) && text != []
    case ReasoningPart(text) => text == Normalize(Raw(es, ReasoningChannel)) && text != []
    case CallPart(call) =>
      exists s :: 0 <= s < |es| && es[s] == ToolCallStart(call.id, call.name)
        && call.callIndex == |StartIndices(es[..s])|
        && req.codec.parse(ArgumentsText(es, call.id)) == Some(call.arguments)
  }

  /** A part appears with the event that first gives it content. */
  ghost predicate Appeared(es: seq<ModelEvent>, k: nat, p: AssistantPart)
    requires k <= |es|
  {
    match p
    case TextPart(_) => Normalize(Raw(es[..k], TextChannel)) != []
    case ReasoningPart(_) => Normalize(Raw(es[..k], ReasoningChannel)) != []
    case CallPart(call) => exists s :: 0 <= s < k && StartsAt(es, s, call.id)
  }

  function SlotOf(p: AssistantPart): Slot {
    match p
    case TextPart(_) => ChannelSlot(TextChannel)
    case ReasoningPart(_) => ChannelSlot(ReasoningChannel)
    case CallPart(call) => ToolSlot(call.callIndex)
  }

  lemma PartAt(es: seq<ModelEvent>, i: nat, req: Request)
    requires Accepted(es, req) && FinishReason(es).Some? && i < |Slots(es)|
    ensures var parts := Assembled(es, req).parts;
            && |parts| == |Slots(es)|
            && SlotOf(parts[i]) == Slots(es)[i]
            && PartRead(es, parts[i], req)
            && (parts[i].CallPart? ==> parts[i].call.callIndex < |Starts(es)| && parts[i].call.id == Starts(es)[parts[i].call.callIndex].0)
  {
    AcceptedFacts(es, req);
    SlotsFacts(es);
    hide Raw, Normalize, Starts, Slots, FinishReason, ArgumentsText, Accepted, StartIndices, ToolIndices;
    var p := Assembled(es, req).parts[i];
    assert p == SlotPart(es, Slots(es)[i], req);
    assert Slots(es)[i] in Slots(es);
    if p.CallPart? {
      StartEvent(es, p.call.callIndex);
    }
  }

  /** The event of the `i`-th start. */
  lemma {:induction false} StartEvent(es: seq<ModelEvent>, i: nat)
    requires i < |Starts(es)|
    ensures exists s :: 0 <= s < |es| && es[s] == ToolCallStart(Starts(es)[i].0, Starts(es)[i].1) && |StartIndices(es[..s])| == i
  {
    hide Starts, StartIndices, Started;
    if es == [] {
      NothingRead();
    } else {
      var init, e := Init(es), Last(es);
      assert init + [e] == es;
      StartsSnoc(init, e);
      if i < |Starts(init)| {
        StartEvent(init, i);
        var s :| 0 <= s < |init| && init[s] == ToolCallStart(Starts(init)[i].0, Starts(init)[i].1) && |StartIndices(init[..s])| == i;
        assert init[..s] == es[..s] && es[s] == init[s];
      } else {
        ReadByIndex(init);
        assert es[..|init|] == init && es[|init|] == e;
      }
    }
  }

  lemma AppearedSlot(es: seq<ModelEvent>, k: nat, i: nat, req: Request)
    requires Accepted(es, req) && FinishReason(es).Some? && i < |Slots(es)| && k <= |es|
    ensures |Assembled(es, req).parts| == |Slots(es)|
    ensures Appeared(es, k, Assembled(es, req).parts[i]) <==> i < |Slots(es[..k])|
  {
    PartAt(es, i, req);
    AcceptedFacts(es, req);
    var before := es[..k];
    SlotsFacts(before);
    SlotsGrow(es, k);
    SlotsDistinct(es);
    ReadByIndex(before);
    hide Raw, Normalize, Slots, FinishReason, ArgumentsText, Accepted, StartIndices, ToolIndices, Assembled, Starts;
    var p := Assembled(es, req).parts[i];
    var slot := Slots(es)[i];
    assert slot in Slots(before) <==> i < |Slots(before)|;
    match p {
      case TextPart(_) =>
        assert ChannelText(before, TextChannel) == Normalize(Raw(before, TextChannel));
      case ReasoningPart(_) =>
        assert ChannelText(before, ReasoningChannel) == Normalize(Raw(before, ReasoningChannel));
      case CallPart(call) =>
        CallAppeared(es, k, call, req);
    }
  }

  lemma CallAppeared(es: seq<ModelEvent>, k: nat, call: ToolCall, req: Request)
    requires k <= |es| && StartsDistinct(es) && PartRead(es, CallPart(call), req)
    ensures Appeared(es, k, CallPart(call)) <==> call.callIndex < |Starts(es[..k])|
  {
    hide Raw, Normalize, Slots, ArgumentsText, Starts, StartIndices;
    var s :| 0 <= s < |es| && es[s] == ToolCallStart(call.id, call.name) && call.callIndex == |StartIndices(es[..s])|;
    ReadByIndex(es[..s]);
    StartRead(es, s);
    SlotsGrow(es, k);
    if s < k {
      assert es[..k][..s] == es[..s] && es[..k][s] == es[s];
      StartRead(es[..k], s);
      assert StartsAt(es, s, call.id);
    } else {
      assert es[..s][..k] == es[..k];
      SlotsGrow(es[..s], k);
      if t :| 0 <= t < k && StartsAt(es, t, call.id) {
        StartRead(es, t);
        assert es[..s][..t] == es[..t] && es[..s][t] == es[t];
        StartRead(es[..s], t);
        assert false;
      }
    }
  }

  /**
   * The response of every accepted, finished history, read off its events:
   * one part for each channel with text and for each start, with their whole
   * texts and arguments, in the order in which they first had content, and
   * the finish, usage and replay that were reported.
   */
  lemma ResponseReadsBack(es: seq<ModelEvent>, req: Request)
    requires Accepted(es, req) && FinishReason(es).Some?
    ensures var r := Assembled(es, req);
            && es[|es| - 1] == Finish(r.finishReason)
            && r.usage.Some?
            && (forall i | 0 <= i < |es| && es[i].UsageReport? :: r.usage == Some(es[i].usage))
            && ((forall i | 0 <= i < |es| :: !es[i].UsageReport?) ==> r.usage == Some(NO_USAGE))
            && (forall i | 0 <= i < |es| && es[i].ReplayReport? :: r.replay == Some(es[i].replay))
            && ((forall i | 0 <= i < |es| :: !es[i].ReplayReport?) ==> r.replay == None)
            && (forall p | p in r.parts :: PartRead(es, p, req))
            && (forall i, j | 0 <= i < j < |r.parts| :: r.parts[i] != r.parts[j])
            && (forall ch: Channel | Normalize(Raw(es, ch)) != [] ::
                  (if ch == TextChannel then TextPart(Normalize(Raw(es, ch))) else ReasoningPart(Normalize(Raw(es, ch)))) in r.parts)
            && (forall s | 0 <= s < |es| && es[s].ToolCallStart? :: exists p :: p in r.parts && p.CallPart? && p.call.id == es[s].id)
            && (forall i, j, k | 0 <= i < j < |r.parts| && 0 <= k <= |es| && Appeared(es, k, r.parts[j]) :: Appeared(es, k, r.parts[i]))
  {
    hide Raw, Normalize, Starts, FinishReason, ArgumentsText, Accepted, StartIndices, ToolIndices, Started, StartsAt, PartRead, Appeared,
         ReportedUsage, ReportedReplay;
    var r := Assembled(es, req);
    FinishIsReason(es, req);
    AcceptedExactly(es, req);
    ReadByIndex(es);
    ReportsRead(es);
    hide Protocol;
    EachPartRead(es, req);
    EachPartThere(es, req);
    hide Assembled;
    forall i, j, k | 0 <= i < j < |r.parts| && 0 <= k <= |es| && Appeared(es, k, r.parts[j]) ensures Appeared(es, k, r.parts[i]) {
      PartAt(es, i, req);
      AppearedSlot(es, k, i, req);
      AppearedSlot(es, k, j, req);
    }
  }

  lemma EachPartRead(es: seq<ModelEvent>, req: Request)
    requires Accepted(es, req) && FinishReason(es).Some?
    ensures var parts := Assembled(es, req).parts;
            && |parts| == |Slots(es)|
            && (forall p | p in parts :: PartRead(es, p, req))
            && (forall i, j | 0 <= i < j < |parts| :: parts[i] != parts[j])
  {
    var parts := Assembled(es, req).parts;
    SlotsDistinct(es);
    hide Accepted, FinishReason, PartRead, Assembled, Slots;
    forall i | 0 <= i < |Slots(es)|
      ensures |parts| == |Slots(es)| && PartRead(es, parts[i], req) && SlotOf(parts[i]) == Slots(es)[i]
    {
      PartAt(es, i, req);
    }
    PartCount(es, req);
    hide SlotOf;
    assert forall i, j | 0 <= i < j < |parts| :: SlotOf(parts[i]) != SlotOf(parts[j]);
  }

  lemma PartCount(es: seq<ModelEvent>, req: Request)
    requires Accepted(es, req) && FinishReason(es).Some?
    ensures |Assembled(es, req).parts| == |Slots(es)|
  {
  }

  lemma EachPartThere(es: seq<ModelEvent>, req: Request)
    requires Accepted(es, req) && FinishReason(es).Some?
    ensures var parts := Assembled(es, req).parts;
            && (forall ch: Channel | Normalize(Raw(es, ch)) != [] ::
                  (if ch == TextChannel then TextPart(Normalize(Raw(es, ch))) else ReasoningPart(Normalize(Raw(es, ch)))) in parts)
            && (forall s | 0 <= s < |es| && es[s].ToolCallStart? :: exists p :: p in parts && p.CallPart? && p.call.id == es[s].id)
  {
    var parts := Assembled(es, req).parts;
    SlotsFacts(es);
    hide Raw, Normalize, Accepted, FinishReason, Assembled, Slots, Starts, ToolIndices;
    forall ch: Channel | Normalize(Raw(es, ch)) != []
      ensures (if ch == TextChannel then TextPart(Normalize(Raw(es, ch))) else ReasoningPart(Normalize(Raw(es, ch)))) in parts
    {
      assert ChannelSlot(ch) in Slots(es);
      var i :| 0 <= i < |Slots(es)| && Slots(es)[i] == ChannelSlot(ch);
      PartAt(es, i, req);
      assert parts[i] in parts;
    }
    forall s | 0 <= s < |es| && es[s].ToolCallStart?
      ensures exists p :: p in parts && p.CallPart? && p.call.id == es[s].id
    {
      StartRead(es, s);
      var slot := ToolSlot(|Starts(es[..s])|);
      assert slot in Slots(es);
      var i :| 0 <= i < |Slots(es)| && Slots(es)[i] == slot;
      PartAt(es, i, req);
      assert parts[i] in parts;
    }
  }

  // ---- The assembler object -----------------------------------------------------------

  datatype ToolAssembly = ToolAssembly(id: CallId, name: ToolName, argumentsText: string, call: Option<ToolCall>, callIndex: nat)

  /** `ToolCall::new_with_max_bytes`. */
  method NewToolCall(id: CallId, name: ToolName, arguments: Json, index: nat, req: Request) returns (call: Option<ToolCall>)
    ensures call.Some? <==>
      && arguments.Object?
      && req.limits.maxArguments <= MAX_JSON_BYTES
      && Height(arguments) <= MAX_JSON_DEPTH
      && Count(arguments) <= MAX_JSON_NODES
      && TotalLen(req.codec.serialize(arguments)) <= req.limits.maxArguments
    ensures call.Some? ==> call.value == ToolCall(id, name, arguments, index)
  {
    if !arguments.Object? {
      return None;
    }
    var error := ValidateJsonSize(arguments, req.codec.serialize(arguments), req.limits.maxArguments);
    return if error.Some? then None else Some(ToolCall(id, name, arguments, index));
  }

  /** `ReasoningContent::new` for a text-only artifact. */
  method NewReasoning(text: string) returns (part: Option<AssistantPart>)
    ensures part == if Utf8Len(Normalize(text)) <= MAX_REASONING_TEXT_BYTES then Some(ReasoningPart(Normalize(text))) else None
  {
    var normalized := NormalizeModelText(text);
    return if Utf8Len(normalized) > MAX_REASONING_TEXT_BYTES then None else Some(ReasoningPart(normalized));
  }

  /** What the tool table must say after history `es`. */
  ghost predicate TableMatches(tools: seq<ToolAssembly>, es: seq<ModelEvent>, req: Request) {
    && |tools| == |Starts(es)|
    && (forall i | 0 <= i < |tools| ::
          && tools[i].id == Starts(es)[i].0
          && tools[i].name == Starts(es)[i].1
          && tools[i].callIndex == i
          && tools[i].argumentsText == ArgumentsText(es, tools[i].id)
          && (Ended(es, tools[i].id) <==> tools[i].call.Some?)
          && (Ended(es, tools[i].id) ==>
                ArgumentsAccepted(ArgumentsText(es, tools[i].id), req) && tools[i].call == Some(ToolCallAt(es, i, req))))
  }

  /** The state after an accepted end of row `i`. */
  lemma EndStep(v: AsmState, es: seq<ModelEvent>, e: ModelEvent, i: nat, req: Request)
    requires StateOf(v, es, req)
    requires i < |v.tools| && e.ToolCallEnd? && e.id == v.tools[i].id && v.tools[i].call.None?
    requires Refusal(es, e, req).None?
    ensures Starts(es)[i] == (e.id, v.tools[i].name)
    ensures StateOf(v.(tools := v.tools[i := v.tools[i].(call := Some(ToolCallAt(es, i, req)))]), es + [e], req)
  {
    hide Raw, Starts, ArgumentsText, Slots, ReportedUsage, ReportedReplay, FinishReason, Accepted, Normalize, ChannelText, ArgumentsAccepted, EventValid, Offers, EndsCr;
    EndFacts(v.tools, es, e, i, req);
    UsedExtend(es, e);
    AcceptedFacts(es, req);
    TableEnd(v.tools, es, e, i, req);
    hide TableMatches, UsedIdsStarted, Ended, Started;
    SameTexts(es, e);
    After(es, e, req);
  }

  lemma EndFacts(tools: seq<ToolAssembly>, es: seq<ModelEvent>, e: ModelEvent, i: nat, req: Request)
    requires TableMatches(tools, es, req) && Refusal(es, e, req).None?
    requires i < |tools| && e.ToolCallEnd? && e.id == tools[i].id
    ensures Starts(es)[i] == (e.id, tools[i].name) && Started(es, e.id)
    ensures ArgumentsAccepted(ArgumentsText(es, e.id), req)
  {
    hide Raw, Starts, ArgumentsText, Slots, FinishReason, ArgumentsAccepted, EventValid;
    assert Starts(es)[i].0 == tools[i].id;
  }

  /** Only deltas touch the channel texts. */
  lemma SameTexts(es: seq<ModelEvent>, e: ModelEvent)
    ensures !e.Delta? ==> forall ch: Channel :: Raw(es + [e], ch) == Raw(es, ch) && ChannelText(es + [e], ch) == ChannelText(es, ch)
  {
    hide Normalize, Raw;
    forall ch: Channel ensures !e.Delta? ==> Raw(es + [e], ch) == Raw(es, ch) {
      RawSnoc(es, e, ch);
    }
  }

  /** The assembler's fields, as a value. */
  datatype AsmState = AsmState(
    slots: seq<Slot>, text: string, reasoning: string, textEndedWithCr: bool, reasoningEndedWithCr: bool,
    tools: seq<ToolAssembly>, usage: Option<Usage>, replay: Option<string>, finishReason: Option<ModelFinishReason>)

  /** The state that a history of accepted events must have led to. */
  ghost predicate StateOf(v: AsmState, es: seq<ModelEvent>, req: Request) {
    && Accepted(es, req)
    && v.slots == Slots(es)
    && v.text == ChannelText(es, TextChannel)
    && v.reasoning == ChannelText(es, ReasoningChannel)
    && v.textEndedWithCr == EndsCr(Raw(es, TextChannel), false)
    && v.reasoningEndedWithCr == EndsCr(Raw(es, ReasoningChannel), false)
    && TableMatches(v.tools, es, req)
    && UsedIdsStarted(es)
    && v.usage == ReportedUsage(es)
    && v.replay == ReportedReplay(es)
    && v.finishReason == FinishReason(es)
  }

  lemma StateAccepted(v: AsmState, es: seq<ModelEvent>, req: Request)
    requires StateOf(v, es, req)
    ensures Accepted(es, req)
  {
  }

  ghost predicate UsedIdsStarted(es: seq<ModelEvent>) {
    && (forall id :: Ended(es, id) ==> Started(es, id))
    && (forall id :: ArgumentsText(es, id) != [] ==> Started(es, id))
  }

  /** Events that touch no tool leave the table valid. */
  lemma TableExtend(tools: seq<ToolAssembly>, es: seq<ModelEvent>, e: ModelEvent, req: Request)
    requires TableMatches(tools, es, req)
    requires !e.ToolCallStart? && !e.ArgumentsDelta? && !e.ToolCallEnd?
    ensures TableMatches(tools, es + [e], req)
  {
    hide Raw, Starts, ArgumentsText, Slots, ReportedUsage, ReportedReplay, FinishReason, Accepted, Normalize, ChannelText, ArgumentsAccepted, EventValid, Offers, Refusal;
    After(es, e, req);
    hide Ended;
  }

  lemma UsedExtend(es: seq<ModelEvent>, e: ModelEvent)
    requires UsedIdsStarted(es)
    requires e.ArgumentsDelta? || e.ToolCallEnd? ==> Started(es, e.id)
    ensures UsedIdsStarted(es + [e])
  {
    hide Raw, Starts, ArgumentsText, Normalize;
    Snoc(es, e);
    hide Ended;
    StartsSnoc(es, e);
    forall id ensures ArgumentsText(es + [e], id) != [] ==> ArgumentsText(es, id) != [] || (e.ArgumentsDelta? && e.id == id) {
      ArgumentsSnoc(es, e, id);
    }
    forall id | Started(es, id) ensures Started(es + [e], id) {
      var i :| 0 <= i < |Starts(es)| && Starts(es)[i].0 == id;
      assert Starts(es + [e])[i].0 == id;
    }
  }

  lemma TableStart(tools: seq<ToolAssembly>, es: seq<ModelEvent>, e: ModelEvent, req: Request)
    requires TableMatches(tools, es, req) && UsedIdsStarted(es)
    requires e.ToolCallStart? && !Started(es, e.id)
    ensures TableMatches(tools + [ToolAssembly(e.id, e.name, [], None, |tools|)], es + [e], req)
    ensures Slots(es + [e]) == Slots(es) + [ToolSlot(|tools|)]
    ensures forall ch: Channel :: Raw(es + [e], ch) == Raw(es, ch)
  {
    hide Raw, Starts, ArgumentsText, Slots, ReportedUsage, ReportedReplay, FinishReason, Accepted, Normalize, ChannelText, ArgumentsAccepted, EventValid, Offers, Refusal;
    After(es, e, req);
    assert ArgumentsText(es, e.id) == [] && !Ended(es, e.id);
    hide Ended;
    var next := es + [e];
    var tools' := tools + [ToolAssembly(e.id, e.name, [], None, |tools|)];
    assert !Ended(next, e.id) && ArgumentsText(next, e.id) == [];
    assert Starts(next) == Starts(es) + [(e.id, e.name)];
    forall i | 0 <= i < |tools|
      ensures tools'[i] == tools[i] && Starts(next)[i] == Starts(es)[i]
      ensures ArgumentsText(next, tools[i].id) == ArgumentsText(es, tools[i].id)
      ensures Ended(next, tools[i].id) == Ended(es, tools[i].id)
    {
    }
  }

  /** The state after an accepted start: one more row, one more slot. */
  lemma StartStep(v: AsmState, es: seq<ModelEvent>, e: ModelEvent, req: Request)
    requires StateOf(v, es, req) && e.ToolCallStart? && !Started(es, e.id) && Refusal(es, e, req).None?
    ensures StateOf(v.(tools := v.tools + [ToolAssembly(e.id, e.name, [], None, |v.tools|)], slots := v.slots + [ToolSlot(|v.tools|)]),
                    es + [e], req)
  {
    hide Raw, Starts, ArgumentsText, Slots, ReportedUsage, ReportedReplay, FinishReason, Accepted, Normalize, ChannelText, ArgumentsAccepted, EventValid, Offers, EndsCr, Ended, Refusal;
    UsedExtend(es, e);
    TableStart(v.tools, es, e, req);
    hide TableMatches, UsedIdsStarted, Started;
    SameTexts(es, e);
    After(es, e, req);
  }

  /** The state after an accepted arguments delta for row `i`. */
  lemma ArgumentsStep(v: AsmState, es: seq<ModelEvent>, e: ModelEvent, i: nat, req: Request)
    requires StateOf(v, es, req)
    requires i < |v.tools| && e.ArgumentsDelta? && e.id == v.tools[i].id && v.tools[i].call.None?
    requires Refusal(es, e, req).None?
    ensures StateOf(v.(tools := v.tools[i := v.tools[i].(argumentsText := v.tools[i].argumentsText + Normalize(e.delta))]),
                    es + [e], req)
  {
    hide Raw, Starts, ArgumentsText, Slots, ReportedUsage, ReportedReplay, FinishReason, Accepted, Normalize, ChannelText, ArgumentsAccepted, EventValid, Offers, EndsCr;
    assert Starts(es)[i].0 == e.id;
    UsedExtend(es, e);
    AcceptedFacts(es, req);
    TableArguments(v.tools, es, e, i, req);
    hide TableMatches, UsedIdsStarted, Ended, Started;
    SameTexts(es, e);
    After(es, e, req);
  }

  function StateText(v: AsmState, ch: Channel): string {
    if ch == TextChannel then v.text else v.reasoning
  }

  function StateCr(v: AsmState, ch: Channel): bool {
    if ch == TextChannel then v.textEndedWithCr else v.reasoningEndedWithCr
  }

  /** The state after a normalized delta has been booked on its channel. */
  function WithDelta(v: AsmState, ch: Channel, delta: string, ended: bool): AsmState {
    var slots := if delta != [] && StateText(v, ch) == [] then v.slots + [ChannelSlot(ch)] else v.slots;
    if ch == TextChannel then v.(slots := slots, text := v.text + delta, textEndedWithCr := ended)
    else v.(slots := slots, reasoning := v.reasoning + delta, reasoningEndedWithCr := ended)
  }

  lemma DeltaVerdict(v: AsmState, es: seq<ModelEvent>, e: ModelEvent, req: Request)
    requires StateOf(v, es, req) && e.Delta? && EventValid(e) && v.finishReason.None?
    ensures var delta := NormalizeFrom(e.delta, StateCr(v, e.channel));
            var fits := delta == [] || Utf8Len(StateText(v, e.channel)) + Utf8Len(delta) <= ChannelLimit(req.limits, e.channel);
            && Refusal(es, e, req) == (if fits then None else Some(InvalidProviderResponse))
            && ProgressOf(es, e) == (if delta == [] then None else Some(Progress(e.channel, delta)))
  {
    hide Raw, Starts, ArgumentsText, Slots, Accepted, TableMatches, UsedIdsStarted, NormalizeFrom, EndsCr, Utf8Len, ReportedUsage,
         ReportedReplay, FinishReason;
    AcceptedFacts(es, req);
    ChannelStep(es, e, e.channel);
    hide ChannelText;
    assert Utf8Len(ChannelText(es, e.channel)) <= ChannelLimit(req.limits, e.channel);
    Utf8LenConcat(StateText(v, e.channel), EmittedDelta(es, e, e.channel));
    assert StateText(v, e.channel) + [] == StateText(v, e.channel);
  }

  lemma DeltaStep(v: AsmState, es: seq<ModelEvent>, e: ModelEvent, req: Request)
    requires StateOf(v, es, req) && e.Delta?
    requires Refusal(es, e, req).None?
    ensures var cr := StateCr(v, e.channel);
            StateOf(WithDelta(v, e.channel, NormalizeFrom(e.delta, cr), EndsCr(e.delta, cr)), es + [e], req)
  {
    hide Raw, Starts, ArgumentsText, Slots, ReportedUsage, ReportedReplay, FinishReason, Accepted, Normalize, ChannelText, ArgumentsAccepted, EventValid, Offers, TableMatches, UsedIdsStarted, NormalizeFrom, Ended, Utf8Len, Refusal;
    ChannelStep(es, e, e.channel);
    OtherChannel(es, e, TextChannel);
    OtherChannel(es, e, ReasoningChannel);
    SlotsSnoc(es, e);
    TableExtend(v.tools, es, e, req);
    UsedExtend(es, e);
    After(es, e, req);
    hide EndsCr;
  }

  lemma UnstartedVerdict(v: AsmState, es: seq<ModelEvent>, e: ModelEvent, req: Request)
    requires StateOf(v, es, req) && v.finishReason.None? && EventValid(e)
    requires e.ArgumentsDelta? || e.ToolCallEnd?
    ensures !Started(es, e.id) ==> Refusal(es, e, req) == Some(InvalidProviderResponse)
  {
  }

  /** The verdict on an arguments delta, read off the table row. */
  lemma ArgumentsVerdict(v: AsmState, es: seq<ModelEvent>, e: ModelEvent, i: nat, req: Request)
    requires StateOf(v, es, req) && v.finishReason.None? && EventValid(e)
    requires i < |v.tools| && e.ArgumentsDelta? && e.id == v.tools[i].id
    ensures Refusal(es, e, req).None? <==>
      v.tools[i].call.None? && Utf8Len(v.tools[i].argumentsText) + Utf8Len(Normalize(e.delta)) <= MAX_JSON_BYTES
    ensures Refusal(es, e, req) in {None, Some(InvalidProviderResponse)}
  {
    hide Raw, Starts, ArgumentsText, Slots, Accepted, Utf8Len, Normalize, ReportedUsage, ReportedReplay, FinishReason, ChannelText,
         ArgumentsAccepted;
    ArgumentsSnoc(es, e, e.id);
    assert Starts(es)[i].0 == e.id;
    assert ArgumentsText(es + [e], e.id) == v.tools[i].argumentsText + Normalize(e.delta);
    Utf8LenConcat(v.tools[i].argumentsText, Normalize(e.delta));
  }

  lemma TableArguments(tools: seq<ToolAssembly>, es: seq<ModelEvent>, e: ModelEvent, i: nat, req: Request)
    requires TableMatches(tools, es, req) && StartsDistinct(es)
    requires i < |tools| && e.ArgumentsDelta? && e.id == tools[i].id && tools[i].call.None?
    ensures TableMatches(
              tools[i := tools[i].(argumentsText := tools[i].argumentsText + Normalize(e.delta))], es + [e], req)
  {
    hide Raw, Starts, ArgumentsText, Slots, ReportedUsage, ReportedReplay, FinishReason, Accepted, Normalize, ChannelText, ArgumentsAccepted, EventValid, Offers, Refusal;
    After(es, e, req);
    hide Ended;
    forall k | 0 <= k < |tools| && k != i ensures tools[k].id != e.id {
      assert Starts(es)[k].0 != Starts(es)[i].0;
    }
  }

  lemma TableEnd(tools: seq<ToolAssembly>, es: seq<ModelEvent>, e: ModelEvent, i: nat, req: Request)
    requires TableMatches(tools, es, req) && StartsDistinct(es)
    requires i < |tools| && e.ToolCallEnd? && e.id == tools[i].id
    requires ArgumentsAccepted(ArgumentsText(es, e.id), req)
    ensures TableMatches(tools[i := tools[i].(call := Some(ToolCallAt(es, i, req)))], es + [e], req)
  {
    hide Raw, Starts, ArgumentsText, Slots, ReportedUsage, ReportedReplay, FinishReason, Accepted, Normalize, ChannelText, ArgumentsAccepted, EventValid, Offers, Refusal;
    After(es, e, req);
    hide Ended;
    forall k | 0 <= k < |tools| && k != i ensures tools[k].id != e.id {
      assert Starts(es)[k].0 != Starts(es)[i].0;
    }
  }

  /** What draining one slot would take out of the assembler now. */
  function Content(slot: Slot, text: string, reasoning: string, tools: seq<ToolAssembly>): Option<AssistantPart> {
    match slot
    case ChannelSlot(TextChannel) => Some(TextPart(text))
    case ChannelSlot(ReasoningChannel) => Some(ReasoningPart(reasoning))
    case ToolSlot(i) =>
      if i < |tools| && tools[i].call.Some? then Some(CallPart(tools[i].call.value)) else None
  }

  /** After `k` slots the drained parts are final, and every later slot still holds its content. */
  ghost predicate Drained(slots: seq<Slot>, all: seq<AssistantPart>, k: nat, parts: seq<AssistantPart>,
                          text: string, reasoning: string, tools: seq<ToolAssembly>) {
    && |all| == |slots| && k <= |slots|
    && parts == all[..k]
    && forall j | k <= j < |slots| :: Content(slots[j], text, reasoning, tools) == Some(all[j])
  }

  /** Past the reason checks, only a response with neither content nor replay is refused. */
  lemma ConcludeVerdict(es: seq<ModelEvent>, v: AsmState, req: Request)
    requires StateOf(v, es, req) && FinishReason(es).Some? && LimitsValid(req.limits)
    requires var reason := FinishReason(es).value;
             && (v.tools != [] ==> reason in {ToolCalls, Unknown})
             && (v.tools == [] ==> reason != ToolCalls)
             && (reason in {ContentFiltered, Refused} ==> v.text != [])
    ensures var whole := Assembled(es, req);
            && FinishFault(es) == (if AssistantAccepted(whole.parts, v.replay) then None else Some(InvalidProviderResponse))
            && (FinishFault(es).None? ==> ResponseFor(whole, req) && NormalizedParts(whole.parts) == whole.parts)
            && whole == ModelResponse(whole.parts, v.finishReason.value,
                                      Some(if v.usage.Some? then v.usage.value else NO_USAGE), v.replay)
  {
    AcceptedFacts(es, req);
    SlotsFacts(es);
    if FinishFault(es).None? {
      AssembledIsValid(es, req);
    }
  }

  lemma DrainStart(es: seq<ModelEvent>, v: AsmState, req: Request)
    requires StateOf(v, es, req) && FinishReason(es).Some? && LimitsValid(req.limits)
    ensures Drained(v.slots, Assembled(es, req).parts, 0, [], v.text, v.reasoning, v.tools)
    ensures Distinct(v.slots)
    ensures Normalize(v.reasoning) == v.reasoning && Utf8Len(v.reasoning) <= MAX_REASONING_TEXT_BYTES
  {
    AcceptedFacts(es, req);
    SlotsFacts(es);
    NormalizeIdempotent(Raw(es, ReasoningChannel));
    assert Utf8Len(ChannelText(es, ReasoningChannel)) <= ChannelLimit(req.limits, ReasoningChannel);
    var all := Assembled(es, req).parts;
    forall j | 0 <= j < |v.slots| ensures Content(v.slots[j], v.text, v.reasoning, v.tools) == Some(all[j]) {
      assert v.slots[j] in v.slots;
      assert all[j] == SlotPart(es, v.slots[j], req);
    }
  }

  /** One slot drained: its part is the expected one, and later slots keep their content. */
  lemma {:induction false} DrainStep(slots: seq<Slot>, all: seq<AssistantPart>, k: nat, parts: seq<AssistantPart>,
                                     text: string, reasoning: string, tools: seq<ToolAssembly>)
    requires Drained(slots, all, k, parts, text, reasoning, tools) && k < |slots| && Distinct(slots)
    ensures slots[k] in slots[k..] && forall s | s in slots[k + 1..] :: s in slots[k..] && s != slots[k]
    ensures Content(slots[k], text, reasoning, tools) == Some(all[k])
    ensures slots[k] == ChannelSlot(TextChannel) ==> Drained(slots, all, k + 1, parts + [all[k]], [], reasoning, tools)
    ensures slots[k] == ChannelSlot(ReasoningChannel) ==> Drained(slots, all, k + 1, parts + [all[k]], text, [], tools)
    ensures slots[k].ToolSlot? ==>
      && slots[k].index < |tools|
      && var i := slots[k].index;
         Drained(slots, all, k + 1, parts + [all[k]], text, reasoning, tools[i := tools[i].(call := None)])
  {
    assert all[..k + 1] == all[..k] + [all[k]];
    assert slots[k..][0] == slots[k];
    assert forall j | k < j < |slots| :: slots[j] != slots[k];
  }

  lemma DrainEnd(slots: seq<Slot>, all: seq<AssistantPart>, parts: seq<AssistantPart>, text: string, reasoning: string, tools: seq<ToolAssembly>)
    requires Drained(slots, all, |slots|, parts, text, reasoning, tools)
    ensures parts == all
  {
    assert all[..|slots|] == all;
  }

  lemma NotProgress(es: seq<ModelEvent>, e: ModelEvent)
    requires !e.Delta?
    ensures ProgressOf(es, e) == None
  {
  }

  class Assembler {
    const req: Request
    var slots: seq<Slot>
    var text: string
    var reasoning: string
    var textEndedWithCr: bool
    var reasoningEndedWithCr: bool
    var tools: seq<ToolAssembly>
    var usage: Option<Usage>
    var providerReplay: Option<string>
    var finishReason: Option<ModelFinishReason>
    ghost var events: seq<ModelEvent>

    function View(): AsmState
      reads this
    {
      AsmState(slots, text, reasoning, textEndedWithCr, reasoningEndedWithCr, tools, usage, providerReplay, finishReason)
    }

    ghost predicate Valid()
      reads this
    {
      StateOf(View(), events, req)
    }

    constructor (req: Request)
      ensures Valid() && events == [] && this.req == req
    {
      this.req := req;
      slots, text, reasoning, tools := [], [], [], [];
      textEndedWithCr, reasoningEndedWithCr := false, false;
      usage, providerReplay, finishReason := None, None, None;
      events := [];
      new;
      assert forall id :: ArgumentsText([], id) == [];
    }

    /** `append_bounded` on one channel, with its slot and its carried flag. */
    method PushText(e: ModelEvent) returns (r: Result<Option<Progress>, ModelErrorKind>)
      requires Valid() && e.Delta? && e.channel == TextChannel && EventValid(e) && finishReason.None?
      modifies this
      ensures r.Ok? <==> Refusal(old(events), e, req).None?
      ensures r.Err? ==> Some(r.error) == Refusal(old(events), e, req)
      ensures r.Ok? ==> Valid() && events == old(events) + [e] && r.value == ProgressOf(old(events), e)
    {
      hide StateOf, Refusal, ProgressOf, EventValid, NormalizeFrom, EndsCr, Utf8Len;
      DeltaVerdict(View(), events, e, req);
      if Refusal(events, e, req).None? {
        DeltaStep(View(), events, e, req);
      }
      ghost var before := View();
      events := events + [e];
      var delta;
      delta, textEndedWithCr := NormalizedDelta(e.delta, textEndedWithCr);
      if delta == [] {
        assert text + [] == text;
        return Ok(None);
      }
      if text == [] {
        slots := slots + [ChannelSlot(TextChannel)];
      }
      if Utf8Len(text) + Utf8Len(delta) > req.limits.maxText {
        return Err(InvalidProviderResponse);
      }
      text := text + delta;
      assert View() == WithDelta(before, TextChannel, delta, EndsCr(e.delta, StateCr(before, TextChannel)));
      return Ok(Some(Progress(TextChannel, delta)));
    }

    method PushReasoning(e: ModelEvent) returns (r: Result<Option<Progress>, ModelErrorKind>)
      requires Valid() && e.Delta? && e.channel == ReasoningChannel && EventValid(e) && finishReason.None?
      modifies this
      ensures r.Ok? <==> Refusal(old(events), e, req).None?
      ensures r.Err? ==> Some(r.error) == Refusal(old(events), e, req)
      ensures r.Ok? ==> Valid() && events == old(events) + [e] && r.value == ProgressOf(old(events), e)
    {
      hide StateOf, Refusal, ProgressOf, EventValid, NormalizeFrom, EndsCr, Utf8Len;
      DeltaVerdict(View(), events, e, req);
      if Refusal(events, e, req).None? {
        DeltaStep(View(), events, e, req);
      }
      ghost var before := View();
      events := events + [e];
      var delta;
      delta, reasoningEndedWithCr := NormalizedDelta(e.delta, reasoningEndedWithCr);
      if delta == [] {
        assert reasoning + [] == reasoning;
        return Ok(None);
      }
      if reasoning == [] {
        slots := slots + [ChannelSlot(ReasoningChannel)];
      }
      if Utf8Len(reasoning) + Utf8Len(delta) > req.limits.maxReasoning {
        return Err(InvalidProviderResponse);
      }
      reasoning := reasoning + delta;
      assert View() == WithDelta(before, ReasoningChannel, delta, EndsCr(e.delta, StateCr(before, ReasoningChannel)));
      return Ok(Some(Progress(ReasoningChannel, delta)));
    }

    /** `tool_mut`: the table row of a started call. */
    method FindTool(id: CallId) returns (found: Option<nat>)
      requires Valid()
      ensures found.None? <==> !Started(events, id)
      ensures found.Some? ==> found.value < |tools| && tools[found.value].id == id
    {
      for i := 0 to |tools|
        invariant forall k | 0 <= k < i :: tools[k].id != id
      {
        if tools[i].id == id {
          assert Starts(events)[i].0 == id;
          return Some(i);
        }
      }
      return None;
    }

    method PushStart(e: ModelEvent) returns (r: Result<Option<Progress>, ModelErrorKind>)
      requires Valid() && e.ToolCallStart? && finishReason.None?
      modifies this
      ensures r.Ok? <==> Refusal(old(events), e, req).None?
      ensures r.Err? ==> Some(r.error) == Refusal(old(events), e, req)
      ensures r.Ok? ==> Valid() && events == old(events) + [e] && r.value == None
    {
      hide Raw, Starts, ArgumentsText, Slots, ReportedUsage, ReportedReplay, FinishReason, Accepted, ChannelText, UsedIdsStarted, Ended, EndsCr;
      ghost var before := events;
      if !Offers(req.tools, e.name) {
        return Err(UnexpectedToolCall);
      }
      var found := FindTool(e.id);
      if |tools| >= req.limits.maxToolCalls || found.Some? {
        return Err(InvalidProviderResponse);
      }
      StartStep(View(), before, e, req);
      hide StateOf;
      var index := |tools|;
      tools := tools + [ToolAssembly(e.id, e.name, [], None, index)];
      slots := slots + [ToolSlot(index)];
      events := events + [e];
      return Ok(None);
    }

    method PushArguments(e: ModelEvent) returns (r: Result<Option<Progress>, ModelErrorKind>)
      requires Valid() && e.ArgumentsDelta? && EventValid(e) && finishReason.None?
      modifies this
      ensures r.Ok? <==> Refusal(old(events), e, req).None?
      ensures r.Err? ==> Some(r.error) == Refusal(old(events), e, req)
      ensures r.Ok? ==> Valid() && events == old(events) + [e] && r.value == None
    {
      hide StateOf, Refusal, Started, Ended, ArgumentsText;
      var delta := NormalizeModelText(e.delta);
      var found := FindTool(e.id);
      UnstartedVerdict(View(), events, e, req);
      if found.None? {
        return Err(InvalidProviderResponse);
      }
      var i := found.value;
      ArgumentsVerdict(View(), events, e, i, req);
      var tool := tools[i];
      if tool.call.Some? {
        return Err(InvalidProviderResponse);
      }
      if Utf8Len(tool.argumentsText) + Utf8Len(delta) > MAX_JSON_BYTES {
        return Err(InvalidProviderResponse);
      }
      ArgumentsStep(View(), events, e, i, req);
      tools := tools[i := tool.(argumentsText := tool.argumentsText + delta)];
      events := events + [e];
      return Ok(None);
    }

    method PushEnd(e: ModelEvent) returns (r: Result<Option<Progress>, ModelErrorKind>)
      requires Valid() && e.ToolCallEnd? && finishReason.None?
      modifies this
      ensures r.Ok? <==> Refusal(old(events), e, req).None?
      ensures r.Err? ==> Some(r.error) == Refusal(old(events), e, req)
      ensures r.Ok? ==> Valid() && events == old(events) + [e] && r.value == None
    {
      hide Raw, Starts, Slots, ReportedUsage, ReportedReplay, Accepted, ChannelText, UsedIdsStarted, EndsCr, Normalize, Height, Count;
      ghost var before := events;
      var found := FindTool(e.id);
      if found.None? {
        return Err(InvalidProviderResponse);
      }
      var i := found.value;
      var tool := tools[i];
      if tool.call.Some? || tool.argumentsText == [] {
        return Err(InvalidProviderResponse);
      }
      var arguments := req.codec.parse(tool.argumentsText);
      if arguments.None? {
        return Err(InvalidProviderResponse);
      }
      var call := NewToolCall(tool.id, tool.name, arguments.value, tool.callIndex, req);
      if call.None? {
        return Err(InvalidProviderResponse);
      }
      EndStep(View(), before, e, i, req);
      hide StateOf;
      tools := tools[i := tool.(call := call)];
      events := events + [e];
      return Ok(None);
    }

    /** `Assembler::push`. A refused event ends the attempt, so the state after it is not used. */
    method Push(e: ModelEvent) returns (r: Result<Option<Progress>, ModelErrorKind>)
      requires Valid()
      modifies this
      ensures r.Ok? <==> Refusal(old(events), e, req).None?
      ensures r.Err? ==> Some(r.error) == Refusal(old(events), e, req)
      ensures r.Ok? ==> Valid() && events == old(events) + [e] && r.value == ProgressOf(old(events), e)
      ensures r.Ok? <==> Protocol(old(events) + [e], req)
      ensures r == Err(UnexpectedToolCall) <==>
        && e.ToolCallStart?
        && (forall i | 0 <= i < |old(events)| :: !old(events)[i].Finish?)
        && (forall k | 0 <= k < |req.tools| :: req.tools[k].name != e.name)
    {
      hide Protocol, Accepted, Raw, Starts, ArgumentsText, Slots, ReportedUsage, ReportedReplay, ChannelText, TableMatches, UsedIdsStarted, EndsCr,
           Started, Ended, Utf8Len;
      NextEvent(events, e, req);
      hide FinishReason;
      if finishReason.Some? || !EventValid(e) {
        return Err(InvalidProviderResponse);
      }
      hide StateOf, Refusal, ProgressOf, EventValid;
      match e {
        case Delta(channel, _) =>
          if channel == TextChannel {
            r := PushText(e);
          } else {
            r := PushReasoning(e);
          }
        case ToolCallStart(_, _) =>
          NotProgress(events, e);
          r := PushStart(e);
        case ArgumentsDelta(_, _) =>
          NotProgress(events, e);
          r := PushArguments(e);
        case ToolCallEnd(_) =>
          NotProgress(events, e);
          r := PushEnd(e);
        case UsageReport(_) =>
          NotProgress(events, e);
          r := PushUsage(e);
        case ReplayReport(_) =>
          NotProgress(events, e);
          r := PushReplay(e);
        case Finish(_) =>
          NotProgress(events, e);
          r := PushFinish(e);
      }
    }

    method PushUsage(e: ModelEvent) returns (r: Result<Option<Progress>, ModelErrorKind>)
      requires Valid() && e.UsageReport? && finishReason.None?
      modifies this
      ensures r.Ok? <==> Refusal(old(events), e, req).None?
      ensures r.Err? ==> Some(r.error) == Refusal(old(events), e, req)
      ensures r.Ok? ==> Valid() && events == old(events) + [e] && r.value == None
    {
      hide Raw, Starts, ArgumentsText, Slots, ReportedUsage, ReportedReplay, FinishReason, Accepted, ChannelText, UsedIdsStarted, TableMatches, EndsCr;
      var previous := usage;
      usage := Some(e.usage);
      if previous.Some? {
        return Err(InvalidProviderResponse);
      }
      r := Quietly(e);
    }

    method PushReplay(e: ModelEvent) returns (r: Result<Option<Progress>, ModelErrorKind>)
      requires Valid() && e.ReplayReport? && finishReason.None?
      modifies this
      ensures r.Ok? <==> Refusal(old(events), e, req).None?
      ensures r.Err? ==> Some(r.error) == Refusal(old(events), e, req)
      ensures r.Ok? ==> Valid() && events == old(events) + [e] && r.value == None
    {
      hide Raw, Starts, ArgumentsText, Slots, ReportedUsage, ReportedReplay, FinishReason, Accepted, ChannelText, UsedIdsStarted, TableMatches, EndsCr;
      var previous := providerReplay;
      providerReplay := Some(e.replay);
      if previous.Some? {
        return Err(InvalidProviderResponse);
      }
      r := Quietly(e);
    }

    method PushFinish(e: ModelEvent) returns (r: Result<Option<Progress>, ModelErrorKind>)
      requires Valid() && e.Finish? && finishReason.None?
      modifies this
      ensures r.Ok? <==> Refusal(old(events), e, req).None?
      ensures r.Err? ==> Some(r.error) == Refusal(old(events), e, req)
      ensures r.Ok? ==> Valid() && events == old(events) + [e] && r.value == None
    {
      hide Raw, Starts, ArgumentsText, Slots, ReportedUsage, ReportedReplay, FinishReason, Accepted, ChannelText, UsedIdsStarted, EndsCr,
           ArgumentsAccepted, Ended;
      if exists i :: 0 <= i < |tools| && tools[i].call.None? {
        ghost var i :| 0 <= i < |tools| && tools[i].call.None?;
        assert !Ended(events, Starts(events)[i].0);
        return Err(InvalidProviderResponse);
      }
      assert forall i | 0 <= i < |Starts(events)| :: Starts(events)[i].0 == tools[i].id && tools[i].call.Some?;
      hide TableMatches;
      finishReason := Some(e.reason);
      r := Quietly(e);
    }

    /** Books an accepted event that only set one of the once-only fields. */
    method Quietly(e: ModelEvent) returns (r: Result<Option<Progress>, ModelErrorKind>)
      requires e.UsageReport? || e.ReplayReport? || e.Finish?
      requires Refusal(events, e, req).None?
      requires Accepted(events, req)
      requires slots == Slots(events)
      requires text == ChannelText(events, TextChannel) && reasoning == ChannelText(events, ReasoningChannel)
      requires textEndedWithCr == EndsCr(Raw(events, TextChannel), false)
      requires reasoningEndedWithCr == EndsCr(Raw(events, ReasoningChannel), false)
      requires TableMatches(tools, events, req) && UsedIdsStarted(events)
      requires usage == if e.UsageReport? then Some(e.usage) else ReportedUsage(events)
      requires providerReplay == if e.ReplayReport? then Some(e.replay) else ReportedReplay(events)
      requires finishReason == if e.Finish? then Some(e.reason) else FinishReason(events)
      modifies `events
      ensures r == Ok(None) && Valid() && events == old(events) + [e]
    {
      hide Raw, Starts, ArgumentsText, Slots, ReportedUsage, ReportedReplay, FinishReason, Accepted, Normalize, ChannelText, Refusal, EndsCr, Ended;
      TableExtend(tools, events, e, req);
      UsedExtend(events, e);
      hide TableMatches, UsedIdsStarted, Started;
      SameTexts(events, e);
      After(events, e, req);
      events := events + [e];
      return Ok(None);
    }

    /** The draining loop of `finish`: the `expect` on a completed call never fires. */
    method DrainParts(ghost all: seq<AssistantPart>) returns (parts: seq<AssistantPart>)
      requires Drained(slots, all, 0, [], text, reasoning, tools) && Distinct(slots)
      requires Normalize(reasoning) == reasoning && Utf8Len(reasoning) <= MAX_REASONING_TEXT_BYTES
      modifies `text, `reasoning, `tools
      ensures parts == all
    {
      hide Drained, Distinct, Normalize, Utf8Len;
      parts := [];
      for k := 0 to |slots|
        invariant Drained(slots, all, k, parts, text, reasoning, tools)
        invariant ChannelSlot(ReasoningChannel) in slots[k..] ==>
          Normalize(reasoning) == reasoning && Utf8Len(reasoning) <= MAX_REASONING_TEXT_BYTES
      {
        DrainStep(slots, all, k, parts, text, reasoning, tools);
        match slots[k] {
          case ChannelSlot(TextChannel) =>
            parts := parts + [TextPart(text)];
            text := [];
          case ChannelSlot(ReasoningChannel) =>
            var part := NewReasoning(reasoning);
            reasoning := [];
            if part.None? {
              assert false;
            }
            parts := parts + [part.value];
          case ToolSlot(index) =>
            var call := tools[index].call;
            tools := tools[index := tools[index].(call := None)];
            if call.None? {
              assert false;
            }
            parts := parts + [CallPart(call.value)];
        }
      }
      DrainEnd(slots, all, parts, text, reasoning, tools);
    }

    /**
     * `Assembler::finish`. The response validator never refuses the drained
     * parts for another reason than emptiness, so every failure is `FinishFault`'s.
     */
    method Conclude() returns (r: Result<ModelResponse, ModelErrorKind>)
      requires Valid() && LimitsValid(req.limits)
      modifies this
      ensures r.Ok? <==> FinishFault(old(events)).None?
      ensures r.Err? ==> Some(r.error) == FinishFault(old(events))
      ensures r.Ok? ==> r.value == Assembled(old(events), req) && ResponseFor(r.value, req)
    {
      ghost var es := events;
      if finishReason.None? {
        return Err(IncompleteResponse);
      }
      var reason := finishReason.value;
      var hasTools := tools != [];
      if (hasTools && reason !in {ToolCalls, Unknown}) || (!hasTools && reason == ToolCalls) {
        return Err(InvalidProviderResponse);
      }
      if reason in {ContentFiltered, Refused} && text == [] {
        return Err(InvalidProviderResponse);
      }
      DrainStart(es, View(), req);
      ConcludeVerdict(es, View(), req);
      hide StateOf, FinishFault, ResponseFor, Accepted, AssistantAccepted, NormalizedParts;
      var usageTotal := if usage.Some? then usage.value else NO_USAGE;
      var replay := providerReplay;
      var parts := DrainParts(Assembled(es, req).parts);
      var response := NewResponse(parts, reason, Some(usageTotal), replay);
      return if response.Err? then Err(InvalidProviderResponse) else Ok(response.value);
    }
  }
}
