/** The delivery-aware model driver: src/model/driver.rs and src/model/driver/failure.rs. */
module Driver {
  import opened Common
  import opened Text
  import opened Messages
  import opened Assembly

  /** Durations are nanoseconds; `Duration::MAX` bounds what `checked_mul` can return. */
  const MAX_MODEL_RETRY_DELAY: nat := 30_000_000_000
  const MAX_DURATION: nat := U64_MAX * 1_000_000_000 + 999_999_999

  datatype DeliveryState = NotStarted | DeliveryStarted | DeliveryUnknown

  datatype RetryHint = Never | Retryable(retryAfter: Option<nat>)

  datatype RawModelError = ModelError(kind: ModelErrorKind, delivery: DeliveryState, hint: RetryHint)

  /** Every constructor and the deserializer keep retryable errors to `NotStarted`. */
  type ModelError = e: RawModelError | e.hint.Retryable? ==> e.delivery == NotStarted
    witness ModelError(CallInternal, DeliveryUnknown, Never)

  datatype DeadlineSource = TurnDeadline | PortDeadline

  datatype AttemptFailure = AttemptFailure(error: ModelError, observedEvent: bool, deadlineSource: Option<DeadlineSource>)

  datatype DriverFailure = DriverFailure(error: ModelError, deadlineSource: Option<DeadlineSource>)

  /** What polling the provider's stream yields at one point; the end of the list is EOF. */
  datatype StreamStep = StreamEvent(event: ModelEvent) | StreamError(error: ModelError) | StreamPanics | SeenCancel | SeenDeadline

  datatype StartOutcome =
    | StartPanics
    | StartCancelled
    | StartDeadline
    | StartFails(error: ModelError)
    | Streams(steps: seq<StreamStep>)

  datatype WaitOutcome = WaitDone | WaitCancelled | WaitDeadline

  /** Everything the environment decides around one attempt. */
  datatype AttemptEnv = AttemptEnv(cancelled: bool, now: nat, start: StartOutcome, evaluatedAt: nat, wait: WaitOutcome)

  // ---- Errors -------------------------------------------------------------------

  function ObservedDelivery(observed: bool): DeliveryState {
    if observed then DeliveryStarted else DeliveryUnknown
  }

  function GeneratedError(kind: ModelErrorKind, delivery: DeliveryState): ModelError {
    ModelError(kind, delivery, Never)
  }

  /** Delivery may have started and the error must never be retried. */
  predicate StartedForGood(e: ModelError) {
    e.delivery == DeliveryStarted && e.hint == Never
  }

  function NormalizeAfterEvent(e: ModelError, observed: bool): (r: ModelError)
    ensures observed ==> StartedForGood(r) && r.kind == e.kind
    ensures !observed ==> r == e
  {
    if observed && (e.delivery != DeliveryStarted || e.hint != Never) then
      ModelError(e.kind, DeliveryStarted, Never)
    else e
  }

  // ---- One attempt ------------------------------------------------------------------

  /** The events a stream yields before it is cut off, or ends. */
  function EventsOf(steps: seq<StreamStep>): (es: seq<ModelEvent>)
    ensures |es| <= |steps| && (|es| < |steps| ==> !steps[|es|].StreamEvent?)
    ensures forall i | 0 <= i < |es| :: steps[i] == StreamEvent(es[i])
  {
    if steps == [] then []
    else if steps[0].StreamEvent? then [steps[0].event] + EventsOf(steps[1..])
    else []
  }

  /** The display progress of an accepted history, in order. */
  function ProgressList(es: seq<ModelEvent>): seq<Progress> {
    if es == [] then []
    else match ProgressOf(Init(es), Last(es))
      case None => ProgressList(Init(es))
      case Some(p) => ProgressList(Init(es)) + [p]
  }

  function ChannelConcat(ps: seq<Progress>, ch: Channel): string {
    if ps == [] then []
    else ChannelConcat(ps[..|ps| - 1], ch) + (if ps[|ps| - 1].channel == ch then ps[|ps| - 1].delta else [])
  }

  /** The deltas a host sees on a channel are exactly the assembled channel text. */
  lemma {:induction false} ProgressIsChannelText(es: seq<ModelEvent>, ch: Channel)
    ensures ChannelConcat(ProgressList(es), ch) == ChannelText(es, ch)
  {
    EmittedIsNormalizedWhole(es, ch);
    if es != [] {
      ProgressIsChannelText(Init(es), ch);
      EmittedIsNormalizedWhole(Init(es), ch);
      var ps := ProgressList(es);
      assert ps != [] ==> (ProgressList(Init(es)) + [ps[|ps| - 1]])[..|ProgressList(Init(es))|] == ProgressList(Init(es));
      var e := Last(es);
      if e.Delta? && e.channel != ch {
        assert EmittedDelta(Init(es), e, ch) == [];
      }
    }
  }

  /** How an attempt ends that never gets a stream. */
  function StartFailure(start: StartOutcome, source: DeadlineSource): (f: AttemptFailure)
    requires !start.Streams?
    ensures !f.observedEvent && f.deadlineSource in {None, Some(source)}
  {
    match start
    case StartPanics => AttemptFailure(GeneratedError(CallPanicked, DeliveryUnknown), false, None)
    case StartCancelled => AttemptFailure(GeneratedError(CallCancelled, DeliveryUnknown), false, None)
    case StartDeadline => AttemptFailure(GeneratedError(Timeout, DeliveryUnknown), false, Some(source))
    case StartFails(error) => AttemptFailure(error, false, None)
  }

  /** How an attempt ends at a stream step that is not an event. */
  function Interrupted(step: StreamStep, observed: bool, source: DeadlineSource): (f: AttemptFailure)
    requires !step.StreamEvent?
    ensures f.observedEvent == observed && (observed ==> StartedForGood(f.error))
    ensures f.deadlineSource in {None, Some(source)}
  {
    match step
    case SeenCancel => AttemptFailure(GeneratedError(CallCancelled, ObservedDelivery(observed)), observed, None)
    case SeenDeadline => AttemptFailure(GeneratedError(Timeout, ObservedDelivery(observed)), observed, Some(source))
    case StreamError(error) => AttemptFailure(NormalizeAfterEvent(error, observed), observed, None)
    case StreamPanics => AttemptFailure(GeneratedError(CallPanicked, ObservedDelivery(observed)), observed, None)
  }

  /** The assembler refuses an event, which was delivered. */
  function RefusedEvent(kind: ModelErrorKind): AttemptFailure {
    AttemptFailure(GeneratedError(kind, DeliveryStarted), true, None)
  }

  /** The assembler does not conclude. */
  function NotConcluded(kind: ModelErrorKind, observed: bool): AttemptFailure {
    AttemptFailure(GeneratedError(kind, if kind == IncompleteResponse then ObservedDelivery(observed) else DeliveryStarted), observed, None)
  }

  /** `response` is what the assembler makes of a finished history. */
  ghost predicate AssembledFrom(es: seq<ModelEvent>, req: Request, response: ModelResponse) {
    Accepted(es, req) && FinishReason(es).Some? && response == Assembled(es, req)
  }

  /** How a stream ends all of whose events were accepted. */
  ghost predicate StreamEnds(req: Request, steps: seq<StreamStep>, source: DeadlineSource, r: Result<ModelResponse, AttemptFailure>) {
    var es := EventsOf(steps);
    if |es| < |steps| then r == Err(Interrupted(steps[|es|], es != [], source))
    else if FinishFault(es).Some? then r == Err(NotConcluded(FinishFault(es).value, es != []))
    else r.Ok? && AssembledFrom(es, req, r.value)
  }

  /** What a stream gives: the first event the assembler refuses ends it, otherwise its own end does. */
  ghost predicate StreamGave(req: Request, steps: seq<StreamStep>, source: DeadlineSource, accepted: seq<ModelEvent>,
                             r: Result<ModelResponse, AttemptFailure>) {
    && accepted <= EventsOf(steps) && Accepted(accepted, req)
    && if |accepted| == |EventsOf(steps)| then StreamEnds(req, steps, source, r)
       else
         && Refusal(accepted, EventsOf(steps)[|accepted|], req).Some?
         && r == Err(RefusedEvent(Refusal(accepted, EventsOf(steps)[|accepted|], req).value))
  }

  /** What an attempt gives, by the script of its environment alone. */
  ghost predicate AttemptGave(req: Request, start: StartOutcome, source: DeadlineSource, accepted: seq<ModelEvent>,
                              r: Result<ModelResponse, AttemptFailure>) {
    if start.Streams? then StreamGave(req, start.steps, source, accepted, r)
    else accepted == [] && r == Err(StartFailure(start, source))
  }

  lemma {:induction false} AcceptedThroughout(es: seq<ModelEvent>, n: nat, req: Request)
    requires n < |es| && Accepted(es, req)
    ensures Refusal(es[..n], es[n], req).None?
  {
    hide Refusal;
    if n < |es| - 1 {
      AcceptedThroughout(Init(es), n, req);
      assert Init(es)[..n] == es[..n];
    }
  }

  lemma StreamEndIsDecided(req: Request, steps: seq<StreamStep>, source: DeadlineSource, r: Result<ModelResponse, AttemptFailure>,
                           s: Result<ModelResponse, AttemptFailure>)
    requires StreamEnds(req, steps, source, r) && StreamEnds(req, steps, source, s)
    ensures r == s
  {
    hide EventsOf, Interrupted, FinishFault, Assembled, Accepted;
  }

  /** The script decides the attempt: what was accepted of it, and its result. */
  lemma AttemptIsDecided(req: Request, start: StartOutcome, source: DeadlineSource, accepted: seq<ModelEvent>,
                         r: Result<ModelResponse, AttemptFailure>, other: seq<ModelEvent>, s: Result<ModelResponse, AttemptFailure>)
    requires AttemptGave(req, start, source, accepted, r) && AttemptGave(req, start, source, other, s)
    ensures accepted == other && r == s
  {
    hide Accepted, Refusal, StreamEnds, StartFailure, EventsOf;
    if start.Streams? && accepted == other == EventsOf(start.steps) {
      StreamEndIsDecided(req, start.steps, source, r, s);
    }
    if start.Streams? {
      var es := EventsOf(start.steps);
      assert accepted == es[..|accepted|] && other == es[..|other|];
      if |accepted| < |other| {
        assert other[..|accepted|] == accepted;
        AcceptedThroughout(other, |accepted|, req);
      } else if |other| < |accepted| {
        assert accepted[..|other|] == other;
        AcceptedThroughout(accepted, |other|, req);
      }
    }
  }

  /** Any error after a delivered event is `Started` and never retryable; without one nothing was accepted. */
  lemma AttemptFails(req: Request, start: StartOutcome, source: DeadlineSource, accepted: seq<ModelEvent>, f: AttemptFailure)
    requires AttemptGave(req, start, source, accepted, Err(f))
    ensures f.observedEvent <==> start.Streams? && EventsOf(start.steps) != []
    ensures f.observedEvent ==> StartedForGood(f.error)
    ensures !f.observedEvent ==> accepted == []
    ensures f.deadlineSource in {None, Some(source)}
  {
    hide Accepted, Refusal, EventsOf, Interrupted, FinishFault, Assembled, StartFailure;
    FinishFaultWithoutEvents();
  }

  /** An accepted prefix is part of what the stream yields. */
  lemma AttemptAccepts(req: Request, start: StartOutcome, source: DeadlineSource, accepted: seq<ModelEvent>,
                       r: Result<ModelResponse, AttemptFailure>)
    requires AttemptGave(req, start, source, accepted, r)
    ensures Accepted(accepted, req)
    ensures r.Ok? ==> start.Streams? && accepted == EventsOf(start.steps) && AssembledFrom(accepted, req, r.value)
  {
    hide Refusal, EventsOf, Interrupted, Assembled, StartFailure, FinishFault;
  }

  // ---- How an attempt ends, read off its script ------------------------------------------

  /** The stream gave `step` once the accepted events were through. */
  predicate StoppedAt(start: StartOutcome, accepted: seq<ModelEvent>, step: StreamStep) {
    start.Streams? && |accepted| < |start.steps| && start.steps[|accepted|] == step
  }

  /** The assembler was given an event it refuses. */
  predicate StoppedByEvent(start: StartOutcome, accepted: seq<ModelEvent>) {
    start.Streams? && |accepted| < |start.steps| && start.steps[|accepted|].StreamEvent?
  }

  predicate StreamedOut(start: StartOutcome, accepted: seq<ModelEvent>) {
    start.Streams? && |accepted| == |start.steps|
  }

  /** The accepted events are the stream's longest prefix that keeps the protocol. */
  ghost predicate AcceptsLongest(req: Request, start: StartOutcome, accepted: seq<ModelEvent>) {
    && (!start.Streams? ==> accepted == [])
    && (start.Streams? ==>
          && |accepted| <= |start.steps| && Protocol(accepted, req)
          && forall i | 0 <= i < |accepted| :: start.steps[i] == StreamEvent(accepted[i]))
    && (StoppedByEvent(start, accepted) ==> !Protocol(accepted + [start.steps[|accepted|].event], req))
  }

  /** What the error of an attempt says about the one thing that ended it. */
  ghost predicate FailureMeans(req: Request, start: StartOutcome, source: DeadlineSource, accepted: seq<ModelEvent>, f: AttemptFailure) {
    && (f.deadlineSource.Some? <==> start.StartDeadline? || StoppedAt(start, accepted, SeenDeadline))
    && (f.deadlineSource.Some? ==> f.deadlineSource == Some(source) && f.error.kind == Timeout)
    && (start.StartCancelled? || StoppedAt(start, accepted, SeenCancel) ==> f.error.kind == CallCancelled)
    && (start.StartPanics? || StoppedAt(start, accepted, StreamPanics) ==> f.error.kind == CallPanicked)
    && (StoppedByEvent(start, accepted) ==>
          f.error.kind == if UnofferedStart(start.steps[|accepted|].event, accepted, req) then UnexpectedToolCall else InvalidProviderResponse)
    && (StreamedOut(start, accepted) ==>
          f.error.kind == if exists i :: 0 <= i < |accepted| && accepted[i].Finish? then InvalidProviderResponse else IncompleteResponse)
    && (forall e: ModelError | start == StartFails(e) || StoppedAt(start, accepted, StreamError(e)) ::
          f.error.kind == e.kind && (!f.observedEvent ==> f.error == e))
    && DeliveryMeans(start, accepted, f)
  }

  /** Only observed events say that delivery started, and then the error is final; a provider's own error speaks for itself. */
  ghost predicate DeliveryMeans(start: StartOutcome, accepted: seq<ModelEvent>, f: AttemptFailure) {
    && (f.observedEvent <==> start.Streams? && start.steps != [] && start.steps[0].StreamEvent?)
    && (f.observedEvent ==> f.error.delivery == DeliveryStarted && f.error.hint == Never)
    && (!f.observedEvent && !ProviderFailed(start, accepted) ==> f.error.delivery == DeliveryUnknown && f.error.hint == Never)
  }

  predicate ProviderFailed(start: StartOutcome, accepted: seq<ModelEvent>) {
    start.StartFails? || (start.Streams? && |accepted| < |start.steps| && start.steps[|accepted|].StreamError?)
  }

  predicate UnofferedStart(e: ModelEvent, accepted: seq<ModelEvent>, req: Request) {
    && e.ToolCallStart?
    && (forall i | 0 <= i < |accepted| :: !accepted[i].Finish?)
    && (forall k | 0 <= k < |req.tools| :: req.tools[k].name != e.name)
  }

  /** A response takes a whole stream of accepted events that concludes. */
  ghost predicate AttemptMeans(req: Request, start: StartOutcome, source: DeadlineSource, accepted: seq<ModelEvent>,
                               r: Result<ModelResponse, AttemptFailure>) {
    && AcceptsLongest(req, start, accepted)
    && (r.Ok? <==> StreamedOut(start, accepted) && FinishFault(accepted).None?)
    && (r.Err? ==> FailureMeans(req, start, source, accepted, r.error))
  }

  lemma LongestAccepted(req: Request, start: StartOutcome, source: DeadlineSource, accepted: seq<ModelEvent>,
                        r: Result<ModelResponse, AttemptFailure>)
    requires AttemptGave(req, start, source, accepted, r)
    ensures AcceptsLongest(req, start, accepted) && Accepted(accepted, req)
  {
    hide Protocol, Refusal, StreamEnds;
    AcceptedExactly(accepted, req);
    assert Accepted([], req);
    hide Accepted;
    if start.Streams? {
      var es := EventsOf(start.steps);
      hide EventsOf;
      assert accepted == es[..|accepted|];
      if |accepted| < |es| {
        NextEvent(accepted, es[|accepted|], req);
      }
    }
  }

  lemma StartMeans(req: Request, start: StartOutcome, source: DeadlineSource)
    requires !start.Streams?
    ensures FailureMeans(req, start, source, [], StartFailure(start, source))
  {
  }

  /** The stream was cut off after accepted events only. */
  lemma CutMeans(req: Request, steps: seq<StreamStep>, source: DeadlineSource, accepted: seq<ModelEvent>)
    requires accepted == EventsOf(steps) && |accepted| < |steps|
    ensures FailureMeans(req, Streams(steps), source, accepted, Interrupted(steps[|accepted|], accepted != [], source))
  {
    hide EventsOf;
  }

  lemma RefusalMeans(req: Request, steps: seq<StreamStep>, source: DeadlineSource, accepted: seq<ModelEvent>)
    requires accepted < EventsOf(steps) && Accepted(accepted, req)
    requires Refusal(accepted, EventsOf(steps)[|accepted|], req).Some?
    ensures FailureMeans(req, Streams(steps), source, accepted, RefusedEvent(Refusal(accepted, EventsOf(steps)[|accepted|], req).value))
  {
    hide EventsOf, Accepted, Refusal, Protocol;
    NextEvent(accepted, EventsOf(steps)[|accepted|], req);
  }

  /** The stream ended by itself, but its events do not conclude. */
  lemma ConclusionMeans(req: Request, steps: seq<StreamStep>, source: DeadlineSource, accepted: seq<ModelEvent>)
    requires accepted == EventsOf(steps) && |accepted| == |steps| && Accepted(accepted, req) && FinishFault(accepted).Some?
    ensures FailureMeans(req, Streams(steps), source, accepted, NotConcluded(FinishFault(accepted).value, accepted != []))
  {
    hide EventsOf, Accepted, FinishFault, Protocol, StartIndices, Raw, Normalize;
    FaultExactly(accepted, req);
  }

  lemma StreamFails(req: Request, steps: seq<StreamStep>, source: DeadlineSource, accepted: seq<ModelEvent>, r: Result<ModelResponse, AttemptFailure>)
    requires StreamGave(req, steps, source, accepted, r) && Accepted(accepted, req)
    ensures r.Ok? <==> |accepted| == |steps| && FinishFault(accepted).None?
    ensures r.Err? ==> FailureMeans(req, Streams(steps), source, accepted, r.error)
  {
    hide Accepted, Refusal, FinishFault, Assembled, FinishReason, FailureMeans, EventsOf, RefusedEvent, NotConcluded, Interrupted;
    var es := EventsOf(steps);
    assert accepted == es[..|accepted|];
    if |accepted| < |es| {
      hide StreamEnds;
      RefusalMeans(req, steps, source, accepted);
    } else {
      assert accepted == es;
      hide StreamGave;
      if |es| < |steps| {
        CutMeans(req, steps, source, accepted);
      } else if FinishFault(es).Some? {
        ConclusionMeans(req, steps, source, accepted);
      }
    }
  }

  /** The script of an attempt says what it accepts, whether it responds, and what its error says. */
  lemma AttemptIsMeant(req: Request, start: StartOutcome, source: DeadlineSource, accepted: seq<ModelEvent>,
                       r: Result<ModelResponse, AttemptFailure>)
    requires AttemptGave(req, start, source, accepted, r)
    ensures AttemptMeans(req, start, source, accepted, r)
  {
    LongestAccepted(req, start, source, accepted, r);
    hide Accepted, FinishFault, AcceptsLongest, FailureMeans, StartFailure, StreamGave;
    if start.Streams? {
      assert start == Streams(start.steps);
      StreamFails(req, start.steps, source, accepted, r);
    } else {
      StartMeans(req, start, source);
    }
  }

  /**
   * `run_attempt`. `accepted` is the event history the assembler accepted; the
   * deltas are its progress, in order, and the result is decided by the script.
   */
  method RunAttempt(req: Request, start: StartOutcome, source: DeadlineSource)
    returns (r: Result<ModelResponse, AttemptFailure>, progress: seq<Progress>, accepted: seq<ModelEvent>)
    requires LimitsValid(req.limits)
    ensures AttemptGave(req, start, source, accepted, r) && progress == ProgressList(accepted)
    ensures AttemptMeans(req, start, source, accepted, r)
    ensures r.Ok? ==> ResponseFor(r.value, req)
    ensures r.Err? ==> (r.error.observedEvent <==> start.Streams? && EventsOf(start.steps) != [])
    ensures r.Err? && r.error.observedEvent ==> StartedForGood(r.error.error)
  {
    hide ProgressList, EventsOf, StreamGave, ResponseFor, AttemptMeans;
    EmptyProgress();
    progress, accepted := [], [];
    match start {
      case StartPanics =>
        r := Err(AttemptFailure(GeneratedError(CallPanicked, DeliveryUnknown), false, None));
      case StartCancelled =>
        r := Err(AttemptFailure(GeneratedError(CallCancelled, DeliveryUnknown), false, None));
      case StartDeadline =>
        r := Err(AttemptFailure(GeneratedError(Timeout, DeliveryUnknown), false, Some(source)));
      case StartFails(error) =>
        r := Err(AttemptFailure(error, false, None));
      case Streams(steps) =>
        r, progress, accepted := RunStream(req, steps, source);
    }
    if r.Err? {
      AttemptFails(req, start, source, accepted, r.error);
    }
    AttemptIsMeant(req, start, source, accepted, r);
  }

  method RunStream(req: Request, steps: seq<StreamStep>, source: DeadlineSource)
    returns (r: Result<ModelResponse, AttemptFailure>, progress: seq<Progress>, accepted: seq<ModelEvent>)
    requires LimitsValid(req.limits)
    ensures StreamGave(req, steps, source, accepted, r) && progress == ProgressList(accepted)
    ensures r.Ok? ==> ResponseFor(r.value, req)
  {
    hide Accepted, ResponseFor, Refusal, ProgressOf, Assembled, FinishFault, StateOf, ProgressList, EventsOf, Interrupted, Protocol;
    var assembler := new Assembler(req);
    var observed := false;
    progress, accepted := [], [];
    EmptyProgress();
    var i := 0;
    while i < |steps|
      invariant 0 <= i <= |EventsOf(steps)| && accepted == EventsOf(steps)[..i]
      invariant fresh(assembler) && assembler.Valid() && assembler.req == req
      invariant assembler.events == accepted && progress == ProgressList(accepted)
      invariant observed <==> accepted != []
    {
      StateAccepted(assembler.View(), accepted, req);
      if !steps[i].StreamEvent? {
        return Err(Interrupted(steps[i], observed, source)), progress, accepted;
      }
      var event := steps[i].event;
      observed := true;
      var pushed := assembler.Push(event);
      if pushed.Err? {
        return Err(AttemptFailure(GeneratedError(pushed.error, DeliveryStarted), observed, None)), progress, accepted;
      }
      ProgressSnoc(accepted, event);
      accepted := accepted + [event];
      if pushed.value.Some? {
        progress := progress + [pushed.value.value];
      }
      i := i + 1;
    }
    assert EventsOf(steps)[..i] == EventsOf(steps);
    StateAccepted(assembler.View(), accepted, req);
    AcceptedFinished(accepted, req);
    var response := assembler.Conclude();
    if response.Err? {
      var delivery := if response.error == IncompleteResponse then ObservedDelivery(observed) else DeliveryStarted;
      return Err(AttemptFailure(GeneratedError(response.error, delivery), observed, None)), progress, accepted;
    }
    return Ok(response.value), progress, accepted;
  }

  lemma ProgressSnoc(es: seq<ModelEvent>, e: ModelEvent)
    ensures ProgressList(es + [e])
         == if ProgressOf(es, e).Some? then ProgressList(es) + [ProgressOf(es, e).value] else ProgressList(es)
  {
    Snoc(es, e);
  }

  lemma FinishFaultWithoutEvents()
    ensures FinishFault([]) == Some(IncompleteResponse)
  {
  }

  lemma AcceptedFinished(es: seq<ModelEvent>, req: Request)
    ensures FinishFault(es).None? ==> FinishReason(es).Some?
  {
  }

  // ---- Retry decision ------------------------------------------------------------------

  function Pow2(n: nat): (p: nat)
    ensures p >= 1
  {
    if n == 0 then 1 else 2 * Pow2(n - 1)
  }

  /** The capped exponential backoff before retry `index`. */
  function Backoff(base: nat, index: nat): nat {
    if index == 0 then base else Min(base * Pow2(index), MAX_MODEL_RETRY_DELAY)
  }

  /** Each backoff doubles the one before up to 30 s; none exceeds 30 s exactly when the base does not: the first one is not capped. */
  lemma BackoffCapped(base: nat)
    ensures (forall i: nat :: Backoff(base, i) <= MAX_MODEL_RETRY_DELAY) <==> base <= MAX_MODEL_RETRY_DELAY
    ensures Backoff(base, 0) == base && forall i: nat :: Backoff(base, i + 1) == Min(2 * Backoff(base, i), MAX_MODEL_RETRY_DELAY)
  {
    assert Backoff(base, 0) == base;
    forall i: nat ensures Backoff(base, i + 1) == Min(2 * Backoff(base, i), MAX_MODEL_RETRY_DELAY) {
      DoublingStep(base, i);
    }
  }

  /** `delay_for_retry`: repeated checked doubling, capped at every step. */
  method DelayForRetry(base: nat, index: nat, retryAfter: Option<nat>) returns (delay: Option<nat>)
    requires base <= MAX_DURATION
    ensures delay == match retryAfter
      case None => Some(Backoff(base, index))
      case Some(hint) => if hint > MAX_MODEL_RETRY_DELAY then None else Some(Max(hint, Backoff(base, index)))
  {
    var exponential := base;
    for i := 0 to index
      invariant exponential == Backoff(base, i)
    {
      DoublingStep(base, i);
      var doubled := exponential * 2;
      exponential := Min(if doubled > MAX_DURATION then MAX_MODEL_RETRY_DELAY else doubled, MAX_MODEL_RETRY_DELAY);
    }
    match retryAfter {
      case None => return Some(exponential);
      case Some(hint) => return if hint > MAX_MODEL_RETRY_DELAY then None else Some(Max(hint, exponential));
    }
  }

  lemma DoublingStep(base: nat, i: nat)
    ensures Backoff(base, i + 1) == Min(Backoff(base, i) * 2, MAX_MODEL_RETRY_DELAY)
  {
    assert base * Pow2(i + 1) == (base * Pow2(i)) * 2;
    assert base * Pow2(0) == base;
  }

  /** What makes a failed attempt retryable at all. */
  predicate RetryableFailure(f: AttemptFailure) {
    !f.observedEvent && f.error.delivery == NotStarted && f.error.hint.Retryable?
  }

  function RetryDelay(base: nat, attempt: nat, f: AttemptFailure): nat
    requires RetryableFailure(f)
  {
    Max(if f.error.hint.retryAfter.Some? then f.error.hint.retryAfter.value else 0, Backoff(base, attempt))
  }

  /** A retry is due: attempts remain, nothing was delivered, and the delay ends before the deadline. */
  predicate RetryAllowed(maxAttempts: nat, base: nat, attempt: nat, f: AttemptFailure, now: nat, deadline: nat) {
    && attempt + 1 < maxAttempts
    && RetryableFailure(f)
    && (f.error.hint.retryAfter.Some? ==> f.error.hint.retryAfter.value <= MAX_MODEL_RETRY_DELAY)
    && now + RetryDelay(base, attempt, f) < deadline
  }

  method EvaluateRetry(maxAttempts: nat, base: nat, attempt: nat, f: AttemptFailure, now: nat, deadline: nat)
    returns (delay: Option<nat>)
    requires base <= MAX_DURATION
    ensures delay.Some? <==> RetryAllowed(maxAttempts, base, attempt, f, now, deadline)
    ensures delay.Some? ==> delay.value == RetryDelay(base, attempt, f)
  {
    if attempt + 1 >= maxAttempts || f.observedEvent || f.error.delivery != NotStarted {
      return None;
    }
    match f.error.hint {
      case Never => return None;
      case Retryable(retryAfter) =>
        delay := DelayForRetry(base, attempt, retryAfter);
        if delay.Some? && !(now + delay.value < deadline) {
          return None;
        }
    }
  }

  // ---- The retry loop ---------------------------------------------------------------------

  datatype RetryPolicy = RetryPolicy(maxAttempts: nat, baseDelay: nat)

  /** One started attempt: when it started, how it failed, and the backoff it was granted. */
  datatype AttemptRecord = AttemptRecord(
    cancelledAtStart: bool, startedAt: nat, accepted: seq<ModelEvent>, failure: Option<AttemptFailure>,
    evaluatedAt: nat, delay: Option<nat>)

  /** Every attempt started before cancellation and deadline were seen. */
  predicate StartsInTime(trace: seq<AttemptRecord>, deadline: nat) {
    forall i | 0 <= i < |trace| :: !trace[i].cancelledAtStart && trace[i].startedAt < deadline
  }

  /**
   * Attempt `i` failed before delivery could have started and was granted its
   * exact backoff, which ends before the deadline and, for a validated base,
   * never exceeds 30 s.
   */
  predicate RetriedSafely(record: AttemptRecord, i: nat, base: nat, deadline: nat) {
    && record.accepted == []
    && record.failure.Some?
    && RetryableFailure(record.failure.value)
    && record.delay == Some(RetryDelay(base, i, record.failure.value))
    && record.evaluatedAt + record.delay.value < deadline
    && (base <= MAX_MODEL_RETRY_DELAY ==> record.delay.value <= MAX_MODEL_RETRY_DELAY)
  }

  predicate AllRetriedSafely(trace: seq<AttemptRecord>, base: nat, deadline: nat) {
    forall i | 0 <= i < |trace| :: RetriedSafely(trace[i], i, base, deadline)
  }

  /** The failure of a start that comes too late. */
  function PrecheckFailure(cancelled: bool, source: DeadlineSource): DriverFailure {
    if cancelled then DriverFailure(GeneratedError(CallCancelled, NotStarted), None)
    else DriverFailure(GeneratedError(Timeout, NotStarted), Some(source))
  }

  method Precheck(cancelled: bool, now: nat, deadline: nat, source: DeadlineSource) returns (failure: Option<DriverFailure>)
    ensures failure == if !cancelled && now < deadline then None else Some(PrecheckFailure(cancelled, source))
  {
    if cancelled {
      return Some(DriverFailure(GeneratedError(CallCancelled, NotStarted), None));
    }
    if now >= deadline {
      return Some(DriverFailure(GeneratedError(Timeout, NotStarted), Some(source)));
    }
    return None;
  }

  /** What surrounds the attempts: the deadline computation and the request check. */
  datatype CallEnv = CallEnv(overflow: bool, cancelled: bool, now: nat, requestValid: bool, attempts: nat -> AttemptEnv)

  /** The record of an attempt is what that attempt's environment gives. */
  ghost predicate AttemptMatches(record: AttemptRecord, e: AttemptEnv, req: Request, source: DeadlineSource) {
    && record.cancelledAtStart == e.cancelled && record.startedAt == e.now && record.evaluatedAt == e.evaluatedAt
    && (record.failure.Some? ==> AttemptGave(req, e.start, source, record.accepted, Err(record.failure.value)))
    && (record.failure.None? ==>
          && Accepted(record.accepted, req) && FinishReason(record.accepted).Some?
          && AttemptGave(req, e.start, source, record.accepted, Ok(Assembled(record.accepted, req))))
  }

  ghost predicate AllMatch(trace: seq<AttemptRecord>, env: CallEnv, req: Request, source: DeadlineSource) {
    forall i | 0 <= i < |trace| :: AttemptMatches(trace[i], env.attempts(i), req, source)
  }

  /** A failed attempt is granted exactly its retry delay, exactly when a retry is allowed. */
  predicate DelayKept(record: AttemptRecord, i: nat, policy: RetryPolicy, deadline: nat) {
    record.delay ==
      if record.failure.Some? && RetryAllowed(policy.maxAttempts, policy.baseDelay, i, record.failure.value, record.evaluatedAt, deadline)
      then Some(RetryDelay(policy.baseDelay, i, record.failure.value)) else None
  }

  predicate DelaysKept(trace: seq<AttemptRecord>, policy: RetryPolicy, deadline: nat) {
    forall i | 0 <= i < |trace| :: DelayKept(trace[i], i, policy, deadline)
  }

  predicate MayStart(e: AttemptEnv, deadline: nat) {
    !e.cancelled && e.now < deadline
  }

  /** The call reaches its first attempt. */
  predicate Admitted(env: CallEnv, deadline: nat) {
    !env.overflow && !env.cancelled && env.now < deadline && env.requestValid
  }

  /** Whether attempt `i` is followed by another one. */
  predicate GoesOn(record: AttemptRecord, i: nat, policy: RetryPolicy, deadline: nat, env: CallEnv) {
    && record.failure.Some?
    && RetryAllowed(policy.maxAttempts, policy.baseDelay, i, record.failure.value, record.evaluatedAt, deadline)
    && env.attempts(i).wait.WaitDone?
    && MayStart(env.attempts(i + 1), deadline)
  }

  /**
   * The promises of one logical model call. It starts exactly when admitted
   * before cancellation and deadline, goes on to another attempt exactly when
   * a retry is due and neither the wait nor the next start is cut off, makes at
   * most `maxAttempts` attempts, takes all progress from the last one, and
   * never retries once anything was delivered.
   */
  ghost predicate CallContract(req: Request, policy: RetryPolicy, deadline: nat, source: DeadlineSource, env: CallEnv,
                               r: Result<ModelResponse, DriverFailure>, progress: seq<Progress>, trace: seq<AttemptRecord>) {
    TraceKept(req, policy, deadline, source, env, trace) && ResultKept(req, policy, deadline, source, env, r, progress, trace)
  }

  /** The attempts: which were started, what each gave, which went on, and that the last one did not. */
  ghost predicate TraceKept(req: Request, policy: RetryPolicy, deadline: nat, source: DeadlineSource, env: CallEnv, trace: seq<AttemptRecord>) {
    var n := |trace|;
    && n <= Max(policy.maxAttempts, 1)
    && AllMatch(trace, env, req, source) && DelaysKept(trace, policy, deadline)
    && StartsInTime(trace, deadline)
    && (n == 0 <==> !(Admitted(env, deadline) && MayStart(env.attempts(0), deadline)))
    && (forall i | 0 <= i < n - 1 :: GoesOn(trace[i], i, policy, deadline, env))
    && (n > 0 ==> AllRetriedSafely(trace[..n - 1], policy.baseDelay, deadline) && !GoesOn(trace[n - 1], n - 1, policy, deadline, env))
  }

  const INVALID_REQUEST: DriverFailure := DriverFailure(GeneratedError(InvalidRequest, NotStarted), None)

  /** The failure of a call none of whose attempts succeeded: its last attempt's, or that of the start that came too late. */
  function CallFailure(trace: seq<AttemptRecord>, policy: RetryPolicy, deadline: nat, source: DeadlineSource, env: CallEnv): DriverFailure {
    var n := |trace|;
    if n == 0 then
      if env.overflow then INVALID_REQUEST
      else if env.cancelled || env.now >= deadline then PrecheckFailure(env.cancelled, source)
      else if !env.requestValid then INVALID_REQUEST
      else PrecheckFailure(env.attempts(0).cancelled, source)
    else if trace[n - 1].failure.None? then INVALID_REQUEST
    else
      var f := trace[n - 1].failure.value;
      if trace[n - 1].delay.None? then DriverFailure(f.error, f.deadlineSource)
      else match env.attempts(n - 1).wait
        case WaitCancelled => DriverFailure(f.error, None)
        case WaitDeadline => DriverFailure(f.error, Some(source))
        case WaitDone => PrecheckFailure(env.attempts(n).cancelled, source)
  }

  /** The result and the deltas are the last attempt's. */
  ghost predicate ResultKept(req: Request, policy: RetryPolicy, deadline: nat, source: DeadlineSource, env: CallEnv,
                             r: Result<ModelResponse, DriverFailure>, progress: seq<Progress>, trace: seq<AttemptRecord>) {
    var n := |trace|;
    && progress == (if n > 0 then ProgressList(trace[n - 1].accepted) else [])
    && (n > 0 ==> Accepted(trace[n - 1].accepted, req))
    && (if n > 0 && trace[n - 1].failure.None? then r.Ok? && AssembledFrom(trace[n - 1].accepted, req, r.value)
        else r == Err(CallFailure(trace, policy, deadline, source, env)))
    && (r.Ok? ==> ResponseFor(r.value, req))
    && (r.Err? ==> r.error.deadlineSource in {None, Some(source)} && (progress != [] ==> StartedForGood(r.error.error)))
  }

  /** Between attempts: every attempt so far was retried safely, and the next one is due. */
  ghost predicate Retrying(trace: seq<AttemptRecord>, policy: RetryPolicy, deadline: nat, source: DeadlineSource, env: CallEnv, req: Request) {
    && (trace == [] || |trace| < policy.maxAttempts)
    && AllMatch(trace, env, req, source) && DelaysKept(trace, policy, deadline)
    && StartsInTime(trace, deadline)
    && AllRetriedSafely(trace, policy.baseDelay, deadline)
    && (forall i | 0 <= i < |trace| - 1 :: GoesOn(trace[i], i, policy, deadline, env))
    && (trace != [] ==> RetryDue(trace[|trace| - 1], |trace| - 1, policy, deadline, env))
  }

  /** Everything `GoesOn` asks except the next start. */
  predicate RetryDue(record: AttemptRecord, i: nat, policy: RetryPolicy, deadline: nat, env: CallEnv) {
    && record.failure.Some?
    && RetryAllowed(policy.maxAttempts, policy.baseDelay, i, record.failure.value, record.evaluatedAt, deadline)
    && env.attempts(i).wait.WaitDone?
  }

  /** The call ends between attempts, before another one starts. */
  lemma EndsEarly(req: Request, policy: RetryPolicy, deadline: nat, source: DeadlineSource, env: CallEnv, trace: seq<AttemptRecord>)
    requires Retrying(trace, policy, deadline, source, env, req)
    requires Admitted(env, deadline) && !MayStart(env.attempts(|trace|), deadline)
    ensures CallContract(req, policy, deadline, source, env, Err(PrecheckFailure(env.attempts(|trace|).cancelled, source)), [], trace)
  {
    hide AttemptGave, RetryAllowed, FinishReason, Assembled, ResponseFor, StartedForGood, ProgressList, RetryDelay, Accepted;
    EmptyProgress();
    NothingAccepted(req);
    var n := |trace|;
    if n > 0 {
      assert RetriedSafely(trace[n - 1], n - 1, policy.baseDelay, deadline);
      assert AttemptMatches(trace[0], env.attempts(0), req, source);
      assert env.attempts((n - 1) + 1) == env.attempts(n);
      assert !GoesOn(trace[n - 1], n - 1, policy, deadline, env);
      assert DelayKept(trace[n - 1], n - 1, policy, deadline);
    }
  }

  lemma NothingAccepted(req: Request)
    ensures Accepted([], req)
  {
  }

  /** The call ends with the attempt `record`. */
  lemma EndsWith(req: Request, policy: RetryPolicy, deadline: nat, source: DeadlineSource, env: CallEnv,
                 trace: seq<AttemptRecord>, record: AttemptRecord, r: Result<ModelResponse, DriverFailure>)
    requires Retrying(trace, policy, deadline, source, env, req)
    requires Admitted(env, deadline) && MayStart(env.attempts(|trace|), deadline)
    requires AttemptMatches(record, env.attempts(|trace|), req, source) && DelayKept(record, |trace|, policy, deadline)
    requires !RetryDue(record, |trace|, policy, deadline, env)
    requires if record.failure.None? then r.Ok? && AssembledFrom(record.accepted, req, r.value)
             else r == Err(CallFailure(trace + [record], policy, deadline, source, env))
    requires r.Ok? ==> ResponseFor(r.value, req)
    ensures CallContract(req, policy, deadline, source, env, r, ProgressList(record.accepted), trace + [record])
  {
    hide AttemptGave, Accepted, FinishReason, Assembled, ResponseFor, StartedForGood, Retrying, Admitted, TraceKept, ProgressList, MayStart,
         EventsOf, RetryAllowed, RetryDelay;
    TraceEnds(req, policy, deadline, source, env, trace, record);
    if record.failure.Some? {
      AttemptAccepts(req, env.attempts(|trace|).start, source, record.accepted, Err(record.failure.value));
      AttemptFails(req, env.attempts(|trace|).start, source, record.accepted, record.failure.value);
    }
    EmptyProgress();
  }

  lemma TraceEnds(req: Request, policy: RetryPolicy, deadline: nat, source: DeadlineSource, env: CallEnv, trace: seq<AttemptRecord>, record: AttemptRecord)
    requires Retrying(trace, policy, deadline, source, env, req)
    requires Admitted(env, deadline) && MayStart(env.attempts(|trace|), deadline)
    requires AttemptMatches(record, env.attempts(|trace|), req, source) && DelayKept(record, |trace|, policy, deadline)
    requires !RetryDue(record, |trace|, policy, deadline, env)
    ensures TraceKept(req, policy, deadline, source, env, trace + [record])
  {
    hide Admitted, RetryAllowed, RetriedSafely, AttemptMatches, MayStart, DelayKept;
    var longer := trace + [record];
    var n := |trace|;
    StartedAt(record, env.attempts(n), req, source, deadline);
    if n > 0 {
      StartedAt(trace[0], env.attempts(0), req, source, deadline);
    }
    assert longer[..n] == trace;
    EveryRetryWentOn(trace, env.attempts(n), policy, deadline, source, env, req);
    GoesOnIsDue(record, n, policy, deadline, env);
    hide RetryDue, GoesOn;
    assert forall i | 0 <= i < n :: longer[i] == trace[i];
    assert AllMatch(longer, env, req, source);
    assert DelaysKept(longer, policy, deadline);
  }

  lemma GoesOnIsDue(record: AttemptRecord, i: nat, policy: RetryPolicy, deadline: nat, env: CallEnv)
    ensures GoesOn(record, i, policy, deadline, env) <==> RetryDue(record, i, policy, deadline, env) && MayStart(env.attempts(i + 1), deadline)
  {
    hide RetryAllowed, MayStart;
  }

  lemma EveryRetryWentOn(trace: seq<AttemptRecord>, e: AttemptEnv, policy: RetryPolicy, deadline: nat, source: DeadlineSource, env: CallEnv, req: Request)
    requires Retrying(trace, policy, deadline, source, env, req) && e == env.attempts(|trace|) && MayStart(e, deadline)
    ensures forall i | 0 <= i < |trace| :: GoesOn(trace[i], i, policy, deadline, env)
  {
    hide AttemptMatches, RetryAllowed, RetriedSafely, MayStart, DelayKept;
  }

  /** An attempt starts in time exactly when its environment lets it. */
  lemma StartedAt(record: AttemptRecord, e: AttemptEnv, req: Request, source: DeadlineSource, deadline: nat)
    requires AttemptMatches(record, e, req, source)
    ensures MayStart(e, deadline) <==> !record.cancelledAtStart && record.startedAt < deadline
  {
    hide AttemptGave;
  }

  lemma RetryGranted(trace: seq<AttemptRecord>, record: AttemptRecord, policy: RetryPolicy, deadline: nat, source: DeadlineSource, env: CallEnv, req: Request)
    requires Retrying(trace, policy, deadline, source, env, req)
    requires MayStart(env.attempts(|trace|), deadline)
    requires AttemptMatches(record, env.attempts(|trace|), req, source) && DelayKept(record, |trace|, policy, deadline)
    requires RetryDue(record, |trace|, policy, deadline, env)
    ensures Retrying(trace + [record], policy, deadline, source, env, req)
  {
    hide AttemptMatches, MayStart;
    var n := |trace|;
    RetryIsSafe(record, n, env.attempts(n), policy, deadline, source, env, req);
    StartedAt(record, env.attempts(n), req, source, deadline);
    EveryRetryWentOn(trace, env.attempts(n), policy, deadline, source, env, req);
    hide RetriedSafely, DelayKept, RetryDue, GoesOn;
    var longer := trace + [record];
    assert forall i | 0 <= i < n :: longer[i] == trace[i];
  }

  /** A retry is only granted when nothing was delivered, and its delay is in bounds. */
  lemma RetryIsSafe(record: AttemptRecord, i: nat, e: AttemptEnv, policy: RetryPolicy, deadline: nat, source: DeadlineSource, env: CallEnv, req: Request)
    requires AttemptMatches(record, e, req, source) && DelayKept(record, i, policy, deadline)
    requires RetryDue(record, i, policy, deadline, env)
    ensures RetriedSafely(record, i, policy.baseDelay, deadline) && i + 1 < policy.maxAttempts
  {
    hide AttemptGave, EventsOf, StartedForGood;
    AttemptFails(req, e.start, source, record.accepted, record.failure.value);
    DelayCapped(policy.baseDelay, i, record.failure.value);
  }

  lemma DelayCapped(base: nat, i: nat, f: AttemptFailure)
    requires RetryableFailure(f)
    requires f.error.hint.retryAfter.Some? ==> f.error.hint.retryAfter.value <= MAX_MODEL_RETRY_DELAY
    ensures base <= MAX_MODEL_RETRY_DELAY ==> RetryDelay(base, i, f) <= MAX_MODEL_RETRY_DELAY
  {
    BackoffCapped(base);
  }

  /** The attempt loop of `run_detailed`. */
  method AttemptLoop(req: Request, policy: RetryPolicy, deadline: nat, source: DeadlineSource, env: CallEnv)
    returns (r: Result<ModelResponse, DriverFailure>, progress: seq<Progress>, trace: seq<AttemptRecord>)
    requires LimitsValid(req.limits) && policy.baseDelay <= MAX_DURATION && Admitted(env, deadline)
    ensures CallContract(req, policy, deadline, source, env, r, progress, trace)
  {
    hide ResponseFor, Assembled, ProgressList, CallContract, RetryDelay, StartedForGood, Admitted, Retrying, RetryAllowed, EventsOf, AttemptGave;
    var attempt := 0;
    progress, trace := [], [];
    NothingTried(policy, deadline, source, env, req);
    while true
      invariant |trace| == attempt && Retrying(trace, policy, deadline, source, env, req)
      decreases policy.maxAttempts - attempt
    {
      var e := env.attempts(attempt);
      var early := Precheck(e.cancelled, e.now, deadline, source);
      if early.Some? {
        EndsEarly(req, policy, deadline, source, env, trace);
        return Err(early.value), [], trace;
      }
      var result, emitted, accepted := RunAttempt(req, e.start, source);
      if result.Ok? {
        var served := AttemptRecord(e.cancelled, e.now, accepted, None, e.evaluatedAt, None);
        AttemptAccepts(req, e.start, source, accepted, result);
        EndsWith(req, policy, deadline, source, env, trace, served, Ok(result.value));
        return Ok(result.value), emitted, trace + [served];
      }
      var failure := result.error;
      var delay := EvaluateRetry(policy.maxAttempts, policy.baseDelay, attempt, failure, e.evaluatedAt, deadline);
      var record := AttemptRecord(e.cancelled, e.now, accepted, Some(failure), e.evaluatedAt, delay);
      if delay.None? || !e.wait.WaitDone? {
        var deadlineSource :=
          if delay.None? then failure.deadlineSource else if e.wait.WaitDeadline? then Some(source) else None;
        var ended := DriverFailure(failure.error, deadlineSource);
        EndsWith(req, policy, deadline, source, env, trace, record, Err(ended));
        return Err(ended), emitted, trace + [record];
      }
      RetryIsSafe(record, attempt, e, policy, deadline, source, env, req);
      RetryGranted(trace, record, policy, deadline, source, env, req);
      trace := trace + [record];
      attempt := attempt + 1;
    }
  }

  lemma NothingTried(policy: RetryPolicy, deadline: nat, source: DeadlineSource, env: CallEnv, req: Request)
    ensures Retrying([], policy, deadline, source, env, req)
  {
  }

  lemma NotAdmitted(req: Request, policy: RetryPolicy, deadline: nat, source: DeadlineSource, env: CallEnv)
    requires !Admitted(env, deadline)
    ensures CallContract(req, policy, deadline, source, env, Err(CallFailure([], policy, deadline, source, env)), [], [])
  {
  }

  /** `run_detailed`. */
  method RunDetailed(req: Request, policy: RetryPolicy, deadline: nat, source: DeadlineSource, env: CallEnv)
    returns (r: Result<ModelResponse, DriverFailure>, progress: seq<Progress>, trace: seq<AttemptRecord>)
    requires LimitsValid(req.limits) && policy.baseDelay <= MAX_DURATION
    ensures CallContract(req, policy, deadline, source, env, r, progress, trace)
  {
    hide CallContract;
    if !Admitted(env, deadline) {
      NotAdmitted(req, policy, deadline, source, env);
    }
    if env.overflow {
      return Err(DriverFailure(GeneratedError(InvalidRequest, NotStarted), None)), [], [];
    }
    var early := Precheck(env.cancelled, env.now, deadline, source);
    if early.Some? {
      return Err(early.value), [], [];
    }
    if !env.requestValid {
      return Err(DriverFailure(GeneratedError(InvalidRequest, NotStarted), None)), [], [];
    }
    r, progress, trace := AttemptLoop(req, policy, deadline, source, env);
  }

  // ---- How a call ends, read off its script --------------------------------------------------

  /** The deadline ended the call: at its own check, at a start, during the last attempt, or during the wait after it. */
  predicate CallTimesOut(env: CallEnv, deadline: nat, trace: seq<AttemptRecord>) {
    var n := |trace|;
    if n == 0 then
      && !env.overflow && !env.cancelled
      && (env.now >= deadline || (env.requestValid && !env.attempts(0).cancelled && env.attempts(0).now >= deadline))
    else
      && trace[n - 1].failure.Some?
      && var e := env.attempts(n - 1);
         if trace[n - 1].delay.None? then e.start.StartDeadline? || StoppedAt(e.start, trace[n - 1].accepted, SeenDeadline)
         else e.wait.WaitDeadline? || (e.wait.WaitDone? && !env.attempts(n).cancelled && env.attempts(n).now >= deadline)
  }

  /** The error of a failed call: its last attempt's, unless no further attempt could start. */
  predicate CallErrorMeans(env: CallEnv, deadline: nat, trace: seq<AttemptRecord>, error: ModelError) {
    var n := |trace|;
    if n > 0 && (trace[n - 1].delay.None? || !env.attempts(n - 1).wait.WaitDone?) then
      trace[n - 1].failure.Some? && error == trace[n - 1].failure.value.error
    else
      && error.delivery == NotStarted && error.hint == Never
      && (error.kind == Timeout <==> CallTimesOut(env, deadline, trace))
      && (error.kind == InvalidRequest <==> n == 0 && (env.overflow || (!env.cancelled && env.now < deadline && !env.requestValid)))
      && error.kind in {Timeout, InvalidRequest, CallCancelled}
  }

  /** A failed call names the deadline exactly when that ended it. */
  lemma CallTimesOutExactly(req: Request, policy: RetryPolicy, deadline: nat, source: DeadlineSource, env: CallEnv,
                            f: DriverFailure, progress: seq<Progress>, trace: seq<AttemptRecord>)
    requires CallContract(req, policy, deadline, source, env, Err(f), progress, trace)
    ensures f.deadlineSource.Some? <==> CallTimesOut(env, deadline, trace)
    ensures f.deadlineSource.Some? ==> f.deadlineSource == Some(source)
    ensures CallErrorMeans(env, deadline, trace, f.error)
  {
    hide AllMatch, Accepted, Assembled, ResponseFor, ProgressList, RetryAllowed, RetryDelay, AllRetriedSafely, StartsInTime, AttemptGave,
         FinishReason, StartedForGood;
    var n := |trace|;
    if n > 0 {
      assert DelayKept(trace[n - 1], n - 1, policy, deadline);
      LastAttempt(req, source, env, trace);
      hide StoppedAt;
    }
  }

  /** The last attempt's failure, by its own script. */
  lemma LastAttempt(req: Request, source: DeadlineSource, env: CallEnv, trace: seq<AttemptRecord>)
    requires trace != [] && AllMatch(trace, env, req, source)
    ensures var last := trace[|trace| - 1];
            var start := env.attempts(|trace| - 1).start;
            last.failure.Some? ==>
              && (last.failure.value.deadlineSource.Some? <==> start.StartDeadline? || StoppedAt(start, last.accepted, SeenDeadline))
              && last.failure.value.deadlineSource in {None, Some(source)}
  {
    hide AttemptGave, AcceptsLongest, StoppedAt, DeliveryMeans, Accepted, FinishReason, Assembled;
    var n := |trace| - 1;
    assert AttemptMatches(trace[n], env.attempts(n), req, source);
    if trace[n].failure.Some? {
      AttemptIsMeant(req, env.attempts(n).start, source, trace[n].accepted, Err(trace[n].failure.value));
    }
  }

  /**
   * An attempt is followed by another one exactly when attempts remain, it
   * failed before an event was seen with a retryable error, the hint is in
   * bounds, the delay (the longer of hint and backoff) ends before the
   * deadline, the wait runs to its end and the next start is not cut off.
   */
  lemma RetriesExactly(req: Request, policy: RetryPolicy, deadline: nat, source: DeadlineSource, env: CallEnv,
                       r: Result<ModelResponse, DriverFailure>, progress: seq<Progress>, trace: seq<AttemptRecord>, i: nat)
    requires CallContract(req, policy, deadline, source, env, r, progress, trace) && i < |trace|
    ensures var record := trace[i];
            && (record.delay.Some? <==>
                  && i + 1 < policy.maxAttempts && record.failure.Some? && !record.failure.value.observedEvent
                  && record.failure.value.error.delivery == NotStarted
                  && record.failure.value.error.hint.Retryable?
                  && var hint := if record.failure.value.error.hint.retryAfter.Some? then record.failure.value.error.hint.retryAfter.value else 0;
                     hint <= MAX_MODEL_RETRY_DELAY && record.evaluatedAt + Max(hint, Backoff(policy.baseDelay, i)) < deadline)
            && (record.delay.Some? ==>
                  record.delay.value == Max(if record.failure.value.error.hint.retryAfter.Some? then record.failure.value.error.hint.retryAfter.value
                                            else 0, Backoff(policy.baseDelay, i)))
    ensures i + 1 < |trace| <==>
      trace[i].delay.Some? && env.attempts(i).wait.WaitDone? && !env.attempts(i + 1).cancelled && env.attempts(i + 1).now < deadline
  {
    hide AllMatch, ResultKept, AllRetriedSafely, StartsInTime, Backoff;
    assert DelayKept(trace[i], i, policy, deadline);
    assert i < |trace| - 1 ==> GoesOn(trace[i], i, policy, deadline, env);
  }

  // ---- The environment decides the call -------------------------------------------------------

  /** What the environment did at an attempt decides its record. */
  lemma RecordIsDecided(a: AttemptRecord, b: AttemptRecord, i: nat, e: AttemptEnv, req: Request, policy: RetryPolicy, deadline: nat, source: DeadlineSource)
    requires AttemptMatches(a, e, req, source) && AttemptMatches(b, e, req, source)
    requires DelayKept(a, i, policy, deadline) && DelayKept(b, i, policy, deadline)
    ensures a == b
  {
    hide AttemptGave, Assembled, RetryAllowed, RetryDelay;
    var ra := if a.failure.Some? then Err(a.failure.value) else Ok(Assembled(a.accepted, req));
    var rb := if b.failure.Some? then Err(b.failure.value) else Ok(Assembled(b.accepted, req));
    AttemptIsDecided(req, e.start, source, a.accepted, ra, b.accepted, rb);
  }

  /** And the attempts as a whole. */
  lemma AttemptsAreDecided(req: Request, policy: RetryPolicy, deadline: nat, source: DeadlineSource, env: CallEnv,
                           trace: seq<AttemptRecord>, attempts: seq<AttemptRecord>)
    requires TraceKept(req, policy, deadline, source, env, trace) && TraceKept(req, policy, deadline, source, env, attempts)
    ensures |trace| <= |attempts| && forall i | 0 <= i < |trace| :: trace[i] == attempts[i]
  {
    hide AttemptMatches, DelayKept, GoesOn, Admitted, MayStart, RetriedSafely;
    forall i | 0 <= i < |trace| && i < |attempts| ensures trace[i] == attempts[i] {
      RecordIsDecided(trace[i], attempts[i], i, env.attempts(i), req, policy, deadline, source);
    }
  }

  /**
   * The environment decides the whole call: no two results, deltas or lists of
   * attempts keep the contract, so nothing is left to the driver.
   */
  lemma CallIsDecided(req: Request, policy: RetryPolicy, deadline: nat, source: DeadlineSource, env: CallEnv,
                      r: Result<ModelResponse, DriverFailure>, progress: seq<Progress>, trace: seq<AttemptRecord>,
                      s: Result<ModelResponse, DriverFailure>, others: seq<Progress>, attempts: seq<AttemptRecord>)
    requires CallContract(req, policy, deadline, source, env, r, progress, trace)
    requires CallContract(req, policy, deadline, source, env, s, others, attempts)
    ensures r == s && progress == others && trace == attempts
  {
    hide TraceKept, Accepted, ProgressList, ResponseFor, Assembled, CallFailure, StartedForGood, FinishReason;
    AttemptsAreDecided(req, policy, deadline, source, env, trace, attempts);
    AttemptsAreDecided(req, policy, deadline, source, env, attempts, trace);
    assert trace == attempts;
  }

  lemma EmptyProgress()
    ensures ProgressList([]) == []
  {
  }
}
