/**
 * One tool call (src/agent_loop/runner/tools.rs) and the bounded host call it
 * shares with prompt preparation (src/port_call.rs). The environment is a
 * script: what other threads do at each await, and what the host code does.
 */
module ToolCalls {
  import opened Common
  import opened Text
  import opened Messages
  import opened ToolCatalog
  import opened Assembly
  import opened Interactions
  import opened History
  import opened Driver
  import opened ControlSpec
  import opened Reports
  import opened LoopControls

  type ToolOutput = s: string | ValidText(s, MAX_TEXT_BYTES, true)

  // ---- Host calls ---------------------------------------------------------------------

  datatype PortEnd<+T> = Returns(value: T) | Fails | Expires(source: DeadlineSource) | Panics

  /**
   * Other threads' operations before and during a host call, its deadline, how
   * it ends, and whether dropping the host's future panics.
   */
  datatype PortScript<+T> = PortScript(
    before: seq<Op>, overflow: bool, expired: Option<DeadlineSource>, during: seq<Op>, ends: PortEnd<T>, dropPanics: bool)

  /** `PortCancelled` says whether the host was called at all; `PortUnwinds` is a panic that nobody catches. */
  datatype PortOutcome<+T> =
    | Returned(value: T)
    | ReturnedError
    | PortCancelled(called: bool)
    | DeadlineExceeded(source: DeadlineSource)
    | InvalidDeadline
    | PortPanicked
    | PortUnwinds

  predicate PortForeign<T>(script: PortScript<T>) {
    AllForeign(script.before) && AllForeign(script.during)
  }

  /** What the runner's own steps between two takes leave alone in the control plane. */
  ghost predicate Persists(s: ControlState, t: ControlState) {
    && Evolves(s, t)
    && t.taken == s.taken && t.current == s.current
    && (t.status == Sealed <==> s.status == Sealed)
  }

  /** What a batch leaves alone: it closes nothing, either. */
  ghost predicate Keeps(s: ControlState, t: ControlState) {
    Persists(s, t) && t.accepting == s.accepting
  }

  lemma KeepsRefl(s: ControlState)
    ensures Keeps(s, s)
  {
    EvolvesRefl(s);
  }

  lemma KeepsTrans(s: ControlState, t: ControlState, u: ControlState)
    requires Keeps(s, t) && Keeps(t, u)
    ensures Keeps(s, u)
  {
    EvolvesTrans(s, t, u);
    hide Evolves;
  }

  lemma DisturbsKeeps(s: ControlState, t: ControlState)
    requires Disturbs(s, t)
    ensures Keeps(s, t)
    ensures s.slot.None? ==> t.slot.None?
  {
    hide Evolves;
  }

  /** Filling and emptying the interaction slot. */
  lemma SlotOpKeeps(s: ControlState, op: Op)
    requires Inv(s) && Fresh(s, op) && (op.SetInteraction? || op.TakeInteraction?)
    ensures Keeps(s, Apply(s, op).0)
  {
    ApplyKeepsInv(s, op);
    hide Inv, Evolves;
  }

  /** A raised token means the loop is cancelled or sealed. */
  lemma TokenMeansStopped(s: ControlState)
    requires Inv(s) && s.token
    ensures s.status != Active
  {
  }

  /** How a host call ends when no cancellation is observed. */
  function Uncancelled<T>(script: PortScript<T>): PortOutcome<T> {
    if script.overflow then InvalidDeadline
    else if script.expired.Some? then DeadlineExceeded(script.expired.value)
    else match script.ends
      case Returns(value) => Returned(value)
      case Fails => ReturnedError
      case Expires(source) => DeadlineExceeded(source)
      case Panics => PortPanicked
  }

  /** The host is called unless the deadline is invalid or already over. */
  predicate CallsHost<T>(script: PortScript<T>) {
    !script.overflow && script.expired.None?
  }

  /** The log once a host call that started at `from` is over. */
  function PortLog<T>(config: ExecutionConfig, from: seq<Op>, script: PortScript<T>): seq<Op> {
    var called := from + script.before;
    if TokenAt(config, called) || !CallsHost(script) then called else called + script.during
  }

  /**
   * How a host call ends that started at `from`: it is cancelled exactly when
   * the token is raised before the host is called or, unless the host's
   * destructor then panics, while it runs; otherwise it ends as scripted.
   */
  function PortGives<T>(config: ExecutionConfig, from: seq<Op>, script: PortScript<T>): PortOutcome<T> {
    var called := from + script.before;
    if TokenAt(config, called) then PortCancelled(false)
    else if !CallsHost(script) then Uncancelled(script)
    else if script.dropPanics then PortUnwinds
    else if TokenAt(config, called + script.during) then PortCancelled(true)
    else Uncancelled(script)
  }

  predicate PortFollows<T(==)>(config: ExecutionConfig, from: seq<Op>, script: PortScript<T>, outcome: PortOutcome<T>) {
    outcome == PortGives(config, from, script)
  }

  /**
   * The same, end by end, read off the script: `early` when the token is raised
   * before the host would be called, `late` when it is once the host is done.
   */
  predicate PortEnds<T(==)>(config: ExecutionConfig, from: seq<Op>, script: PortScript<T>, outcome: PortOutcome<T>) {
    var early := TokenAt(config, from + script.before);
    var called := !early && !script.overflow && script.expired.None?;
    var late := TokenAt(config, from + script.before + script.during);
    var heard := called && !script.dropPanics && !late;
    && (outcome.PortCancelled? <==> early || (called && !script.dropPanics && late))
    && (outcome.PortCancelled? ==> outcome.called == !early)
    && (outcome.PortUnwinds? <==> called && script.dropPanics)
    && (outcome.InvalidDeadline? <==> !early && script.overflow)
    && (outcome.DeadlineExceeded? <==> (!early && !script.overflow && script.expired.Some?) || (heard && script.ends.Expires?))
    && (outcome.DeadlineExceeded? ==>
          script.expired == Some(outcome.source) || (script.expired.None? && script.ends == Expires(outcome.source)))
    && (outcome.PortPanicked? <==> heard && script.ends.Panics?)
    && (outcome.ReturnedError? <==> heard && script.ends.Fails?)
    && (outcome.Returned? <==> heard && script.ends.Returns?)
    && (outcome.Returned? ==> outcome.value == script.ends.value)
  }

  lemma PortEndsAsScripted<T>(config: ExecutionConfig, from: seq<Op>, script: PortScript<T>, outcome: PortOutcome<T>)
    requires PortFollows(config, from, script, outcome)
    ensures PortEnds(config, from, script, outcome)
  {
    hide TokenAt;
  }

  /** A host call unwinds only by a panicking destructor. */
  lemma PortUnwindsOnly<T>(config: ExecutionConfig, from: seq<Op>, script: PortScript<T>)
    ensures PortGives(config, from, script).PortUnwinds? ==> CallsHost(script) && script.dropPanics
  {
    hide TokenAt;
  }

  /** `run_port_call`: cancellation is observed from the token alone, and before any result. */
  method RunPortCall<T(==)>(control: LoopControl, script: PortScript<T>) returns (outcome: PortOutcome<T>)
    requires control.Valid() && PortForeign(script)
    modifies control
    ensures control.Valid() && Disturbs(old(control.model), control.model)
    ensures control.published == old(control.published)
    ensures PortFollows(control.initial, old(control.log), script, outcome)
    ensures PortEnds(control.initial, old(control.log), script, outcome)
    ensures control.log == PortLog(control.initial, old(control.log), script)
    ensures outcome.PortCancelled? ==> control.token
  {
    hide Disturbs, LoopControl.Valid, TokenAt;
    control.Interfere(script.before);
    LogIsState(control);
    if control.token {
      return PortCancelled(false);
    }
    if script.overflow {
      return InvalidDeadline;
    }
    if script.expired.Some? {
      return DeadlineExceeded(script.expired.value);
    }
    ghost var mid := control.model;
    control.Interfere(script.during);
    DisturbsTrans(old(control.model), mid, control.model);
    LogIsState(control);
    if script.dropPanics {
      return PortUnwinds;
    }
    if control.token {
      return PortCancelled(true);
    }
    match script.ends {
      case Returns(value) => return Returned(value);
      case Fails => return ReturnedError;
      case Expires(source) => return DeadlineExceeded(source);
      case Panics => return PortPanicked;
    }
  }

  // ---- Result builders --------------------------------------------------------------------

  /** `static_output`. */
  function StaticOutput(message: string, maxBytes: nat): string {
    if Utf8Len(message) <= maxBytes then message else []
  }

  /** A terminal result for `call`, within the loop's output bound and valid as a tool output. */
  predicate ResultFor(item: HistoryItem, requestIndex: nat, call: ToolCall, maxBytes: nat) {
    && item.ResultItem? && item.requestIndex == requestIndex
    && item.callId == call.id && item.toolName == call.name
    && Utf8Len(item.output) <= maxBytes && ValidText(item.output, MAX_TEXT_BYTES, true)
  }

  predicate StaticMessage(message: string) {
    message in {"tool failed", "tool denied", "tool output too large", "tool batch interrupted", "tool round limit reached"}
  }

  function TerminalResult(requestIndex: nat, call: ToolCall, outcome: ToolResultOutcome, message: string, maxBytes: nat): HistoryItem {
    ResultItem(requestIndex, call.id, call.name, outcome, StaticOutput(message, maxBytes))
  }

  lemma StaticIsValid(message: string)
    requires StaticMessage(message)
    ensures AllDisplayable(message) && Utf8Len(message) <= MAX_TEXT_BYTES
  {
    hide Utf8Len, AllDisplayable;
    assert |message| <= 24 && forall i | 0 <= i < |message| :: 0x20 <= message[i] as int < 0x7F;
    hide StaticMessage;
    PrintableText(message);
  }

  /** Whatever the bound, a static message or the empty text fits. */
  lemma TerminalFits(requestIndex: nat, call: ToolCall, outcome: ToolResultOutcome, message: string, maxBytes: nat)
    requires StaticMessage(message)
    ensures ResultFor(TerminalResult(requestIndex, call, outcome, message, maxBytes), requestIndex, call, maxBytes)
  {
    hide StaticMessage;
    StaticIsValid(message);
    assert Utf8Len([]) == 0;
    hide Utf8Len;
  }

  /** The reason when it fits, the static text otherwise. */
  function DenialOutput(reason: Option<string>, maxOutput: nat): string {
    if reason.Some? && Utf8Len(reason.value) <= maxOutput then reason.value else StaticOutput("tool denied", maxOutput)
  }

  /** Within the loop's limit and valid as a tool output. */
  predicate Fits(output: string, maxOutput: nat) {
    Utf8Len(output) <= maxOutput && ValidText(output, MAX_TEXT_BYTES, true)
  }

  method CompletedResult(requestIndex: nat, call: ToolCall, output: ToolOutput, maxBytes: nat) returns (item: HistoryItem)
    ensures ResultFor(item, requestIndex, call, maxBytes)
    ensures Utf8Len(output) <= maxBytes ==> item.outcome == Success && item.output == output
    ensures Utf8Len(output) > maxBytes ==> item.outcome == Failed && item.output == StaticOutput("tool output too large", maxBytes)
  {
    if Utf8Len(output) <= maxBytes {
      return ResultItem(requestIndex, call.id, call.name, Success, output);
    }
    TerminalFits(requestIndex, call, Failed, "tool output too large", maxBytes);
    return TerminalResult(requestIndex, call, Failed, "tool output too large", maxBytes);
  }

  method ProvidedInputResult(requestIndex: nat, call: ToolCall, content: string, maxBytes: nat) returns (item: HistoryItem)
    ensures ResultFor(item, requestIndex, call, maxBytes)
    ensures if Fits(content, maxBytes) then item.outcome == InputProvided && item.output == content
            else item.outcome == Failed && item.output == StaticOutput("tool output too large", maxBytes)
  {
    if Utf8Len(content) <= maxBytes && ValidText(content, MAX_TEXT_BYTES, true) {
      return ResultItem(requestIndex, call.id, call.name, InputProvided, content);
    }
    TerminalFits(requestIndex, call, Failed, "tool output too large", maxBytes);
    return TerminalResult(requestIndex, call, Failed, "tool output too large", maxBytes);
  }

  /** `denied_result`; a validated reason is always a valid output. */
  method DeniedResult(requestIndex: nat, call: ToolCall, reason: Option<string>, maxBytes: nat) returns (item: HistoryItem)
    requires reason.Some? ==> ValidText(reason.value, MAX_POLICY_TEXT_BYTES, false)
    ensures ResultFor(item, requestIndex, call, maxBytes) && item.outcome == Denied
    ensures item.output == DenialOutput(reason, maxBytes)
  {
    if reason.Some? && Utf8Len(reason.value) <= maxBytes {
      return ResultItem(requestIndex, call.id, call.name, Denied, reason.value);
    }
    TerminalFits(requestIndex, call, Denied, "tool denied", maxBytes);
    return TerminalResult(requestIndex, call, Denied, "tool denied", maxBytes);
  }

  // ---- Interactions ---------------------------------------------------------------------------

  /** Operations of other threads while waiting, and when the deadline fires. */
  datatype WaitScript = WaitScript(ops: seq<Op>, deadlineAt: nat)

  datatype Waited = Answered(answer: InteractionAnswer) | Ended(path: FailPath) | StillWaiting

  /** The open question, unanswered in the slot or answered to fit. */
  ghost predicate Asking(s: ControlState, id: nat, kind: InteractionKind) {
    && id in s.asked && s.asked[id] == kind
    && (s.slot == Some(InteractionSlot(id, kind)) || (s.slot.None? && id in s.replies))
  }

  /**
   * One question that was put to the user: the control log before it, how
   * often the wait went on, and what came of it.
   */
  datatype Asked = Asked(id: nat, from: seq<Op>, looks: nat, waited: Waited)

  /** The log once the question is put. */
  function OpenLog(asked: Asked, kind: InteractionKind): seq<Op> {
    asked.from + [SetInteraction(InteractionSlot(asked.id, kind))]
  }

  /** What a wait sees: the token first, then the deadline, then the answer. */
  function Look(config: ExecutionConfig, log: seq<Op>, id: nat, deadline: bool): Waited {
    var s := LoggedState(config, log);
    if s.token then Ended(PathCancelled)
    else if deadline then Ended(PathDeadline)
    else if id in s.replies then Answered(s.replies[id])
    else StillWaiting
  }

  /** What the wait sees after `i` operations of other threads. */
  function LookAt(config: ExecutionConfig, asked: Asked, kind: InteractionKind, script: WaitScript, hasDeadline: bool, i: nat): Waited
    requires i <= |script.ops|
  {
    Look(config, OpenLog(asked, kind) + script.ops[..i], asked.id, hasDeadline && script.deadlineAt == i)
  }

  /**
   * The script decides the wait: it ends at the first look that sees anything,
   * with what it sees, and goes on forever exactly when no look does.
   */
  predicate WaitFollows(config: ExecutionConfig, asked: Asked, kind: InteractionKind, script: WaitScript, hasDeadline: bool) {
    && asked.looks <= |script.ops|
    && (forall i | 0 <= i < asked.looks :: LookAt(config, asked, kind, script, hasDeadline, i).StillWaiting?)
    && asked.waited == LookAt(config, asked, kind, script, hasDeadline, asked.looks)
    && (asked.waited.StillWaiting? ==> asked.looks == |script.ops|)
  }

  /** The log once the wait is over; a finished wait empties the slot. */
  function AskedLog(asked: Asked, kind: InteractionKind, script: WaitScript): seq<Op> {
    var seen := OpenLog(asked, kind) + script.ops[..Min(asked.looks, |script.ops|)];
    if asked.waited.StillWaiting? then seen else seen + [TakeInteraction]
  }

  /** The control plane after `i` operations of other threads since the question was put. */
  function Waiting(config: ExecutionConfig, asked: Asked, kind: InteractionKind, script: WaitScript, i: nat): ControlState
    requires i <= |script.ops|
  {
    LoggedState(config, asked.from + [SetInteraction(InteractionSlot(asked.id, kind))] + script.ops[..i])
  }

  /** A raised token wins over the deadline, and both win over an answer. */
  predicate WaitEndsAt(s: ControlState, id: nat, waited: Waited, deadline: bool) {
    && (waited.Ended? ==> waited.path == PathCancelled || waited.path == PathDeadline)
    && (waited == Ended(PathCancelled) <==> s.token)
    && (waited == Ended(PathDeadline) <==> !s.token && deadline)
    && (waited.Answered? <==> !s.token && !deadline && id in s.replies)
    && (waited.Answered? ==> id in s.replies && waited.answer == s.replies[id])
  }

  /** What a wait came to, on the control plane as it was at its last look; until then nothing had come. */
  lemma WaitSees(config: ExecutionConfig, asked: Asked, kind: InteractionKind, script: WaitScript, hasDeadline: bool)
    requires WaitFollows(config, asked, kind, script, hasDeadline)
    ensures asked.looks <= |script.ops| && (asked.waited.StillWaiting? ==> asked.looks == |script.ops|)
    ensures WaitEndsAt(Waiting(config, asked, kind, script, asked.looks), asked.id, asked.waited, hasDeadline && script.deadlineAt == asked.looks)
    ensures forall i | 0 <= i < asked.looks ::
              var s := Waiting(config, asked, kind, script, i);
              !s.token && !(hasDeadline && script.deadlineAt == i) && asked.id !in s.replies
    ensures asked.waited == Ended(PathDeadline) ==> hasDeadline && script.deadlineAt == asked.looks
  {
    hide LoggedState;
    forall i | 0 <= i < asked.looks
      ensures var s := Waiting(config, asked, kind, script, i);
              !s.token && !(hasDeadline && script.deadlineAt == i) && asked.id !in s.replies
    {
      assert LookAt(config, asked, kind, script, hasDeadline, i).StillWaiting?;
    }
  }

  /** Two waits on the same question, from the same log and script, end alike. */
  lemma WaitIsDecided(config: ExecutionConfig, a: Asked, b: Asked, kind: InteractionKind, script: WaitScript, hasDeadline: bool)
    requires WaitFollows(config, a, kind, script, hasDeadline) && WaitFollows(config, b, kind, script, hasDeadline)
    requires a.id == b.id && a.from == b.from
    ensures a == b
  {
    hide Look;
    if a.looks < |script.ops| {
      assert LookAt(config, a, kind, script, hasDeadline, a.looks) == LookAt(config, b, kind, script, hasDeadline, a.looks);
    }
    if b.looks < |script.ops| {
      assert LookAt(config, a, kind, script, hasDeadline, b.looks) == LookAt(config, b, kind, script, hasDeadline, b.looks);
    }
  }

  /** The question is new since `before`, and an answer to it is the one accepted for its own id. */
  ghost predicate AskedSince(before: ControlState, now: ControlState, asked: Asked, kind: InteractionKind) {
    && asked.id !in before.asked && asked.id in now.asked && now.asked[asked.id] == kind
    && (asked.waited.Answered? ==>
          && asked.id in now.replies && now.replies[asked.id] == asked.waited.answer
          && AnswerMatches(asked.waited.answer, kind))
  }

  lemma AskedWidens(start: ControlState, before: ControlState, now: ControlState, later: ControlState, asked: Asked, kind: InteractionKind)
    requires AskedSince(before, now, asked, kind) && Keeps(start, before) && Keeps(now, later)
    ensures AskedSince(start, later, asked, kind)
  {
    hide AnswerMatches, ConfigsGrow, StatusGrows;
  }

  lemma AskingBegins(s: ControlState, slot: InteractionSlot)
    requires Inv(s) && s.slot.None? && slot.id !in s.asked
    ensures Asking(Apply(s, SetInteraction(slot)).0, slot.id, slot.expected)
  {
  }

  lemma AskingGoesOn(s: ControlState, t: ControlState, id: nat, kind: InteractionKind)
    requires Asking(s, id, kind) && Disturbs(s, t)
    ensures Asking(t, id, kind)
  {
    RepliesStay(s, t);
    hide Evolves;
  }

  /** Emptying the slot. */
  method CloseSlot(control: LoopControl)
    requires control.Valid()
    modifies control
    ensures control.Valid() && Keeps(old(control.model), control.model) && control.model.slot.None?
    ensures control.published == old(control.published) && control.token == old(control.token)
    ensures control.log == old(control.log) + [TakeInteraction]
  {
    hide Inv, LoopRun, Initial, Evolves, Keeps;
    SlotOpKeeps(control.model, TakeInteraction);
    var _ := control.TakeInteraction();
  }

  /** Puts a fresh question into the free slot. */
  method OpenSlot(control: LoopControl, kind: InteractionKind) returns (id: nat)
    requires control.Valid() && control.model.slot.None?
    modifies control
    ensures control.Valid() && Keeps(old(control.model), control.model) && Asking(control.model, id, kind)
    ensures control.published == old(control.published)
    ensures id !in old(control.model).asked
    ensures control.log == old(control.log) + [SetInteraction(InteractionSlot(id, kind))]
  {
    hide Inv, LoopRun, Initial, Evolves, Keeps, Disturbs, Apply, AnswerMatches, Asking, Foreign;
    id := control.NewInteractionId();
    var slot := InteractionSlot(id, kind);
    FreshSlot(control.model, slot);
    AskingBegins(control.model, slot);
    SlotOpKeeps(control.model, SetInteraction(slot));
    var busy := control.SetInteraction(slot);
    if busy {
      assert false;
    }
  }

  /** Nothing has ended the wait before look `i`. */
  ghost predicate WaitsUntil(config: ExecutionConfig, id: nat, from: seq<Op>, kind: InteractionKind, script: WaitScript, hasDeadline: bool, i: nat) {
    && i <= |script.ops|
    && forall j | 0 <= j < i :: LookAt(config, Asked(id, from, j, StillWaiting), kind, script, hasDeadline, j).StillWaiting?
  }

  lemma LookIs(control: LoopControl, asked: Asked, kind: InteractionKind, script: WaitScript, hasDeadline: bool)
    requires control.Valid() && asked.looks <= |script.ops|
    requires control.log == OpenLog(asked, kind) + script.ops[..asked.looks]
    ensures LookAt(control.initial, asked, kind, script, hasDeadline, asked.looks)
         == if control.token then Ended(PathCancelled)
            else if hasDeadline && script.deadlineAt == asked.looks then Ended(PathDeadline)
            else if asked.id in control.replies then Answered(control.replies[asked.id])
            else StillWaiting
  {
    hide LoopControl.Valid;
    LogIsState(control);
    hide LoggedState;
  }

  /** A look decides the wait that got as far as it. */
  lemma WaitEnds(config: ExecutionConfig, asked: Asked, kind: InteractionKind, script: WaitScript, hasDeadline: bool)
    requires WaitsUntil(config, asked.id, asked.from, kind, script, hasDeadline, asked.looks)
    requires asked.waited == LookAt(config, asked, kind, script, hasDeadline, asked.looks)
    requires asked.waited.StillWaiting? ==> asked.looks == |script.ops|
    ensures WaitFollows(config, asked, kind, script, hasDeadline)
  {
    hide Look;
    forall i | 0 <= i < asked.looks ensures LookAt(config, asked, kind, script, hasDeadline, i).StillWaiting? {
      assert LookAt(config, Asked(asked.id, asked.from, i, StillWaiting), kind, script, hasDeadline, i).StillWaiting?;
    }
  }

  lemma WaitGoesOn(config: ExecutionConfig, id: nat, from: seq<Op>, kind: InteractionKind, script: WaitScript, hasDeadline: bool, i: nat)
    requires WaitsUntil(config, id, from, kind, script, hasDeadline, i) && i < |script.ops|
    requires LookAt(config, Asked(id, from, i, StillWaiting), kind, script, hasDeadline, i).StillWaiting?
    ensures WaitsUntil(config, id, from, kind, script, hasDeadline, i + 1)
    ensures var open := OpenLog(Asked(id, from, i, StillWaiting), kind);
            (open + script.ops[..i]) + [script.ops[i]] == open + script.ops[..i + 1]
  {
    hide LookAt;
  }

  /** A look depends on the question alone, not on what came of it. */
  lemma SameLook(config: ExecutionConfig, a: Asked, b: Asked, kind: InteractionKind, script: WaitScript, hasDeadline: bool, i: nat)
    requires a.id == b.id && a.from == b.from && i <= |script.ops|
    ensures LookAt(config, a, kind, script, hasDeadline, i) == LookAt(config, b, kind, script, hasDeadline, i)
  {
    hide Look;
  }

  lemma SlotOrReply(control: LoopControl, id: nat, kind: InteractionKind)
    requires control.Valid() && Asking(control.model, id, kind)
    ensures control.interaction.None? ==> id in control.replies
    ensures Inv(control.model) && control.replies == control.model.replies
  {
    hide AnswerMatches, LoopRun, Initial;
  }

  lemma AskedStays(start: ControlState, now: ControlState, later: ControlState, asked: Asked, kind: InteractionKind)
    requires AskedSince(start, now, asked, kind) && Keeps(now, later)
    ensures AskedSince(start, later, asked, kind)
  {
    hide Keeps, AskedSince;
    KeepsRefl(start);
    AskedWidens(start, start, now, later, asked, kind);
  }

  lemma WaitStarts(config: ExecutionConfig, id: nat, from: seq<Op>, kind: InteractionKind, script: WaitScript, hasDeadline: bool)
    ensures WaitsUntil(config, id, from, kind, script, hasDeadline, 0)
    ensures OpenLog(Asked(id, from, 0, StillWaiting), kind) + script.ops[..0] == OpenLog(Asked(id, from, 0, StillWaiting), kind)
  {
  }

  /**
   * `wait_interaction`, decided by its script. The slot is free on entry and on
   * every return, an answer always fits the question, and neither the busy
   * error nor a closed reply channel can occur.
   */
  method WaitInteraction(control: LoopControl, kind: InteractionKind, script: WaitScript, hasDeadline: bool)
    returns (waited: Waited, ghost asked: Asked)
    requires control.Valid() && control.model.slot.None? && AllForeign(script.ops)
    modifies control
    ensures control.Valid() && Keeps(old(control.model), control.model)
    ensures control.published == old(control.published)
    ensures asked.waited == waited
    ensures asked.from == old(control.log) && WaitFollows(control.initial, asked, kind, script, hasDeadline)
    ensures control.log == AskedLog(asked, kind, script)
    ensures !asked.waited.StillWaiting? ==> control.model.slot.None?
    ensures AskedSince(old(control.model), control.model, asked, kind)
    ensures asked.waited.Ended? ==> asked.waited.path in {PathCancelled, PathDeadline}
    ensures asked.waited == Ended(PathCancelled) ==> control.token
  {
    hide LoopControl.Valid, Inv, Keeps, Disturbs, AnswerMatches, Asking, Foreign, AskedSince, WaitsUntil, WaitFollows, LookAt;
    ghost var start, from, config := control.model, control.log, control.initial;
    KeepsRefl(start);
    var id := OpenSlot(control, kind);
    WaitStarts(config, id, from, kind, script, hasDeadline);
    var i := 0;
    while true
      invariant 0 <= i <= |script.ops|
      invariant control.Valid() && Keeps(start, control.model)
      invariant Asking(control.model, id, kind)
      invariant control.published == old(control.published)
      invariant control.log == OpenLog(Asked(id, from, i, StillWaiting), kind) + script.ops[..i]
      invariant WaitsUntil(config, id, from, kind, script, hasDeadline, i)
      decreases |script.ops| - i
    {
      ghost var now := control.model;
      SlotOrReply(control, id, kind);
      waited := StillWaiting;
      if control.token {
        waited := Ended(PathCancelled);
      } else if hasDeadline && script.deadlineAt == i {
        waited := Ended(PathDeadline);
      } else if id in control.replies {
        waited := Answered(control.replies[id]);
      } else if control.interaction.None? {
        // The reply sender was dropped without an answer.
        assert false;
      }
      asked := Asked(id, from, i, waited);
      AskingIsAsked(start, now, asked, kind);
      LookIs(control, asked, kind, script, hasDeadline);
      SameLook(config, asked, Asked(id, from, i, StillWaiting), kind, script, hasDeadline, i);
      if !waited.StillWaiting? {
        WaitEnds(config, asked, kind, script, hasDeadline);
        CloseSlot(control);
        AskedStays(start, now, control.model, asked, kind);
        KeepsTrans(start, now, control.model);
        return;
      }
      if i == |script.ops| {
        WaitEnds(config, asked, kind, script, hasDeadline);
        return;
      }
      WaitGoesOn(config, id, from, kind, script, hasDeadline, i);
      control.ForeignStep(script.ops[i]);
      DisturbsKeeps(now, control.model);
      KeepsTrans(start, now, control.model);
      AskingGoesOn(now, control.model, id, kind);
      i := i + 1;
    }
  }

  lemma AskingIsAsked(start: ControlState, now: ControlState, asked: Asked, kind: InteractionKind)
    requires Inv(now) && Asking(now, asked.id, kind) && asked.id !in start.asked
    requires asked.waited.Answered? ==> asked.id in now.replies && asked.waited.answer == now.replies[asked.id]
    ensures AskedSince(start, now, asked, kind)
  {
    hide AnswerMatches, ConfigInv, StatusInv;
  }

  lemma FreshSlot(s: ControlState, slot: InteractionSlot)
    ensures Fresh(s, SetInteraction(slot)) <==> slot.id !in s.asked
  {
  }

  // ---- One tool call ---------------------------------------------------------------------------

  datatype ToolExecution = CompletedWith(output: ToolOutput) | RequestInput(request: ToolInputRequest)

  /** Everything the environment decides during one tool call. */
  datatype CallScript = CallScript(
    policy: PortScript<ToolDecision>, approvalIdFails: bool, approval: WaitScript,
    tool: PortScript<ToolExecution>, inputIdFails: bool, input: WaitScript)

  predicate CallForeign(script: CallScript) {
    && PortForeign(script.policy) && AllForeign(script.approval.ops)
    && PortForeign(script.tool) && AllForeign(script.input.ops)
  }

  /** The parts of the loop options a batch depends on, and the JSON library's renderer. */
  datatype BatchOptions = BatchOptions(hasDeadline: bool, maxOutput: nat, render: CanonicalResult -> string)

  datatype ToolStep = StepResult(item: HistoryItem) | StepEnd(path: FailPath) | StepSuspended | StepUnwinds

  datatype PolicyStep =
    | PolicyAllows
    | PolicyDenies(reason: Option<string>)
    | PolicyAsks(prompt: string)
    | PolicyCancelled
    | PolicyDeadline
    | PolicyInvalid
    | PolicyUnwinds

  /** What happened during one call, in order: policy, approval, tool, input, and the control log before the call. */
  datatype ToolTrace = ToolTrace(
    from: seq<Op>, policy: Option<PortOutcome<ToolDecision>>, approval: Option<Asked>,
    tool: Option<PortOutcome<ToolExecution>>, input: Option<Asked>)

  /** The policy validly asked for an approval. */
  predicate WantsApproval(tr: ToolTrace) {
    && tr.policy.Some? && tr.policy.value.Returned?
    && tr.policy.value.value.RequireApproval? && DecisionValid(tr.policy.value.value)
  }

  /** The policy let the call run, or its own question was answered with `AllowOnce`. */
  predicate Authorized(tr: ToolTrace, hasPolicy: bool) {
    || !hasPolicy
    || tr.policy == Some(Returned(AllowCall))
    || (WantsApproval(tr) && tr.approval.Some? && tr.approval.value.waited == Answered(ApprovalAnswer(AllowOnce)))
  }

  /** The tool validly asked for user input. */
  predicate WantsInput(tr: ToolTrace) {
    && tr.tool.Some? && tr.tool.value.Returned?
    && tr.tool.value.value.RequestInput? && InputRequestValid(tr.tool.value.value.request)
  }

  /** The approval a call asks for, and the input its tool asks for. */
  function ApprovalKind(tr: ToolTrace): InteractionKind
    requires WantsApproval(tr)
  {
    Approval(tr.policy.value.value.prompt)
  }

  function InputKind(tr: ToolTrace): InteractionKind
    requires WantsInput(tr)
  {
    ToolInput(tr.tool.value.value.request)
  }

  /** The control log after each stage of a call. */
  function PolicyLog(tr: ToolTrace, script: CallScript, config: ExecutionConfig): seq<Op> {
    if tr.policy.Some? then PortLog(config, tr.from, script.policy) else tr.from
  }

  function ApprovalLog(tr: ToolTrace, script: CallScript, config: ExecutionConfig): seq<Op> {
    if tr.approval.Some? && WantsApproval(tr) then AskedLog(tr.approval.value, ApprovalKind(tr), script.approval)
    else PolicyLog(tr, script, config)
  }

  function ToolLog(tr: ToolTrace, script: CallScript, config: ExecutionConfig): seq<Op> {
    var log := ApprovalLog(tr, script, config);
    if tr.tool.Some? then PortLog(config, log, script.tool) else log
  }

  function CallLog(tr: ToolTrace, script: CallScript, config: ExecutionConfig): seq<Op> {
    if tr.input.Some? && WantsInput(tr) then AskedLog(tr.input.value, InputKind(tr), script.input)
    else ToolLog(tr, script, config)
  }

  /**
   * Each stage runs exactly when the earlier ones lead to it, starts from the
   * log they left, and is decided by its own script.
   */
  predicate TraceFollows(tr: ToolTrace, hasPolicy: bool, script: CallScript, o: BatchOptions, config: ExecutionConfig) {
    && (tr.policy.Some? <==> hasPolicy) && (tr.policy.Some? ==> PortFollows(config, tr.from, script.policy, tr.policy.value))
    && (tr.approval.Some? <==> WantsApproval(tr) && !script.approvalIdFails)
    && (tr.approval.Some? ==>
          && tr.approval.value.from == PolicyLog(tr, script, config)
          && WaitFollows(config, tr.approval.value, ApprovalKind(tr), script.approval, o.hasDeadline))
    && (tr.tool.Some? <==> Authorized(tr, hasPolicy))
    && (tr.tool.Some? ==> PortFollows(config, ApprovalLog(tr, script, config), script.tool, tr.tool.value))
    && (tr.input.Some? <==> WantsInput(tr) && !script.inputIdFails)
    && (tr.input.Some? ==>
          && tr.input.value.from == ToolLog(tr, script, config)
          && WaitFollows(config, tr.input.value, InputKind(tr), script.input, o.hasDeadline))
  }

  /** The questions of a call: each put during it, each with its own id. */
  ghost predicate TraceAsks(tr: ToolTrace, before: ControlState, now: ControlState) {
    && (tr.approval.Some? ==>
          WantsApproval(tr) && AskedSince(before, now, tr.approval.value, ApprovalKind(tr)))
    && (tr.input.Some? ==>
          WantsInput(tr) && AskedSince(before, now, tr.input.value, InputKind(tr)))
    && (tr.approval.Some? && tr.input.Some? ==> tr.approval.value.id != tr.input.value.id)
  }

  lemma TraceAsksWidens(tr: ToolTrace, start: ControlState, before: ControlState, now: ControlState, later: ControlState)
    requires TraceAsks(tr, before, now) && Keeps(start, before) && Keeps(now, later)
    ensures TraceAsks(tr, start, later)
  {
    hide Keeps, AskedSince, DecisionValid, InputRequestValid;
    if tr.approval.Some? {
      AskedWidens(start, before, now, later, tr.approval.value, ApprovalKind(tr));
    }
    if tr.input.Some? {
      AskedWidens(start, before, now, later, tr.input.value, InputKind(tr));
    }
  }

  /** Questions and answers last as long as the control plane does. */
  lemma TraceAsksLasts(tr: ToolTrace, start: ControlState, before: ControlState, now: ControlState, later: ControlState)
    requires TraceAsks(tr, before, now) && Evolves(start, before) && Evolves(now, later)
    ensures TraceAsks(tr, start, later)
  {
    hide DecisionValid, InputRequestValid, AnswerMatches, ConfigsGrow, StatusGrows;
  }

  // ---- What justifies the end of a call ----------------------------------------------------------

  /** A policy that errs, times out or panics; only a turn deadline is not the policy's failure. */
  predicate FailsClosed<T>(outcome: PortOutcome<T>) {
    outcome.ReturnedError? || outcome.InvalidDeadline? || outcome.PortPanicked?
    || (outcome.DeadlineExceeded? && outcome.source == PortDeadline)
  }

  /** The policy denied, failed closed, or the user answered this call's own question with `Deny`. */
  predicate DeniedBy(tr: ToolTrace, output: string, maxOutput: nat) {
    && tr.policy.Some?
    && (|| (tr.policy.value.Returned? && tr.policy.value.value.DenyCall? && DecisionValid(tr.policy.value.value)
            && output == DenialOutput(Some(tr.policy.value.value.reason), maxOutput))
        || (FailsClosed(tr.policy.value) && output == DenialOutput(None, maxOutput))
        || (WantsApproval(tr) && tr.approval.Some? && tr.approval.value.waited == Answered(ApprovalAnswer(Deny))
            && output == DenialOutput(None, maxOutput)))
  }

  /** The encoded answer to the tool's own request, when there is one. */
  function GivenInput(tr: ToolTrace, render: CanonicalResult -> string): Option<string> {
    if WantsInput(tr) && tr.input.Some? && tr.input.value.waited.Answered? && tr.input.value.waited.answer.InputAnswer?
       && InputAnswerValid(tr.input.value.waited.answer.answer, tr.tool.value.value.request)
    then Some(render(EncodeResult(tr.input.value.waited.answer.answer, tr.tool.value.value.request)))
    else None
  }

  /** The tool failed, asked for invalid input, or what it or the user gave is too large. */
  predicate FailedBy(tr: ToolTrace, output: string, o: BatchOptions) {
    && tr.tool.Some?
    && var tool := tr.tool.value;
       || ((tool.ReturnedError? || tool.PortPanicked? || tool == DeadlineExceeded(PortDeadline)
            || (tool.Returned? && tool.value.RequestInput? && !InputRequestValid(tool.value.request)))
           && output == StaticOutput("tool failed", o.maxOutput))
       || (((tool.Returned? && tool.value.CompletedWith? && Utf8Len(tool.value.output) > o.maxOutput)
            || (GivenInput(tr, o.render).Some? && !Fits(GivenInput(tr, o.render).value, o.maxOutput)))
           && output == StaticOutput("tool output too large", o.maxOutput))
  }

  /** A result and the one thing that can have caused it. */
  predicate ResultJustified(item: HistoryItem, tr: ToolTrace, o: BatchOptions) {
    && item.ResultItem?
    && match item.outcome
       case Success =>
         && tr.tool.Some? && tr.tool.value.Returned? && tr.tool.value.value.CompletedWith?
         && tr.tool.value.value.output == item.output && Utf8Len(item.output) <= o.maxOutput
       case InputProvided => GivenInput(tr, o.render) == Some(item.output) && Fits(item.output, o.maxOutput)
       case Failed => FailedBy(tr, item.output, o)
       case Denied => DeniedBy(tr, item.output, o.maxOutput)
       case Cancelled => false
  }

  predicate PolicyEnd(path: FailPath, tr: ToolTrace) {
    tr.policy.Some? &&
    match path
    case PathCancelled => tr.policy.value.PortCancelled?
    case PathDeadline => tr.policy.value == DeadlineExceeded(TurnDeadline)
    case PathPolicy => tr.policy.value.Returned? && !DecisionValid(tr.policy.value.value)
    case _ => false
  }

  predicate ApprovalEnd(path: FailPath, tr: ToolTrace, script: CallScript) {
    || (path == PathInternal && WantsApproval(tr) && script.approvalIdFails)
    || (tr.approval.Some? && tr.approval.value.waited == Ended(path))
  }

  predicate ToolEnd(path: FailPath, tr: ToolTrace, script: CallScript) {
    && tr.tool.Some?
    && (|| (path == PathCancelled && tr.tool.value.PortCancelled?)
        || (path == PathDeadline && tr.tool.value == DeadlineExceeded(TurnDeadline))
        || (path == PathInternal && tr.tool.value.InvalidDeadline?)
        || (path == PathInternal && WantsInput(tr) && script.inputIdFails)
        || (tr.input.Some? && tr.input.value.waited == Ended(path)))
  }

  /** A host destructor panicked during the call. */
  predicate Unwinds(tr: ToolTrace) {
    tr.policy == Some(PortUnwinds) || tr.tool == Some(PortUnwinds)
  }

  /** A question of the call is never answered, cancelled or timed out. */
  predicate Waits(tr: ToolTrace) {
    || (tr.approval.Some? && tr.approval.value.waited.StillWaiting?)
    || (tr.input.Some? && tr.input.value.waited.StillWaiting?)
  }

  /** How a call ends, by what happened during it. */
  predicate Justified(step: ToolStep, tr: ToolTrace, script: CallScript, o: BatchOptions) {
    match step
    case StepResult(item) => ResultJustified(item, tr, o)
    case StepEnd(path) => PolicyEnd(path, tr) || ApprovalEnd(path, tr, script) || ToolEnd(path, tr, script)
    case StepSuspended => Waits(tr)
    case StepUnwinds => Unwinds(tr)
  }

  /** What happened decides the step: no two different steps are justified by one trace. */
  lemma StepIsDecided(a: ToolStep, b: ToolStep, tr: ToolTrace, hasPolicy: bool, script: CallScript, o: BatchOptions, config: ExecutionConfig)
    requires TraceFollows(tr, hasPolicy, script, o, config)
    requires Justified(a, tr, script, o) && Justified(b, tr, script, o)
    ensures a.StepResult? <==> b.StepResult?
    ensures a.StepEnd? <==> b.StepEnd?
    ensures a.StepUnwinds? <==> b.StepUnwinds?
    ensures a.StepResult? ==> a.item.outcome == b.item.outcome && a.item.output == b.item.output
    ensures a.StepEnd? ==> a.path == b.path
  {
    AllowIsValid();
    hide PortFollows, WaitFollows, PolicyLog, ApprovalLog, ToolLog, DecisionValid, InputRequestValid, InputAnswerValid, ValidText, Utf8Len,
         StaticOutput, Fits, DenialOutput;
  }

  // ---- What a script makes of a call ---------------------------------------------------------------

  /** A text is carried when it fits, and nothing is otherwise. */
  predicate Carries(output: string, text: string, maxOutput: nat) {
    output == if Utf8Len(text) <= maxOutput then text else []
  }

  predicate GivesResult(step: ToolStep, outcome: ToolResultOutcome, text: string, maxOutput: nat) {
    step.StepResult? && step.item.ResultItem? && step.item.outcome == outcome && Carries(step.item.output, text, maxOutput)
  }

  /** Where a wait for the user leads when no answer comes of it. */
  predicate EndsUnanswered(step: ToolStep, waited: Waited) {
    && (waited.Ended? ==> step == StepEnd(waited.path))
    && (waited.StillWaiting? ==> step == StepSuspended)
  }

  /** What an answer of the policy leads to. */
  predicate PolicyLeads(step: ToolStep, tr: ToolTrace, decision: ToolDecision, script: CallScript, maxOutput: nat) {
    match decision
    case AllowCall => tr.tool.Some?
    case DenyCall(reason) =>
      if !ValidText(reason, MAX_POLICY_TEXT_BYTES, false) then step == StepEnd(PathPolicy)
      else GivesResult(step, Denied, if Utf8Len(reason) <= maxOutput then reason else "tool denied", maxOutput)
    case RequireApproval(prompt) =>
      if !ValidText(prompt, MAX_POLICY_TEXT_BYTES, false) then step == StepEnd(PathPolicy)
      else if script.approvalIdFails then step == StepEnd(PathInternal)
      else
        && tr.approval.Some?
        && (tr.approval.value.waited == Answered(ApprovalAnswer(AllowOnce)) ==> tr.tool.Some?)
        && (tr.approval.value.waited == Answered(ApprovalAnswer(Deny)) ==> GivesResult(step, Denied, "tool denied", maxOutput))
        && EndsUnanswered(step, tr.approval.value.waited)
  }

  /** The policy's own call, end by end: whatever it fails by denies the tool. */
  predicate PolicyDecides(step: ToolStep, tr: ToolTrace, script: CallScript, maxOutput: nat, config: ExecutionConfig) {
    var p := script.policy;
    var early := TokenAt(config, tr.from + p.before);
    var late := TokenAt(config, tr.from + p.before + p.during);
    if early then step == StepEnd(PathCancelled)
    else if p.overflow then GivesResult(step, Denied, "tool denied", maxOutput)
    else if p.expired.Some? then
      if p.expired.value == TurnDeadline then step == StepEnd(PathDeadline) else GivesResult(step, Denied, "tool denied", maxOutput)
    else if p.dropPanics then step == StepUnwinds
    else if late then step == StepEnd(PathCancelled)
    else
      match p.ends
      case Returns(decision) => PolicyLeads(step, tr, decision, script, maxOutput)
      case Expires(source) =>
        if source == TurnDeadline then step == StepEnd(PathDeadline) else GivesResult(step, Denied, "tool denied", maxOutput)
      case _ => GivesResult(step, Denied, "tool denied", maxOutput)
  }

  /** The tool runs only without a policy, or once the policy or the user allowed it. */
  predicate RunsOnlyIfAllowed(tr: ToolTrace, hasPolicy: bool, script: CallScript) {
    tr.tool.Some? ==>
      || !hasPolicy
      || script.policy.ends == Returns(AllowCall)
      || (script.policy.ends.Returns? && script.policy.ends.value.RequireApproval? && tr.approval.Some?
          && tr.approval.value.waited == Answered(ApprovalAnswer(AllowOnce)))
  }

  /** What the user's answer to the tool's request leads to. */
  predicate AnswerLeads(step: ToolStep, answer: InteractionAnswer, request: ToolInputRequest, o: BatchOptions) {
    answer.InputAnswer? && InputAnswerValid(answer.answer, request) ==>
      var content := o.render(if answer.answer.InputText? then AnswerResult(answer.answer.text)
                              else ChoiceResult(answer.answer.index, request.choices[answer.answer.index]));
      if Utf8Len(content) <= o.maxOutput && ValidText(content, MAX_TEXT_BYTES, true)
      then GivesResult(step, InputProvided, content, o.maxOutput)
      else GivesResult(step, Failed, "tool output too large", o.maxOutput)
  }

  /** What the tool's own answer leads to. */
  predicate ExecutionLeads(step: ToolStep, tr: ToolTrace, execution: ToolExecution, script: CallScript, o: BatchOptions) {
    match execution
    case CompletedWith(output) =>
      if Utf8Len(output) <= o.maxOutput then GivesResult(step, Success, output, o.maxOutput)
      else GivesResult(step, Failed, "tool output too large", o.maxOutput)
    case RequestInput(request) =>
      if !InputRequestValid(request) then GivesResult(step, Failed, "tool failed", o.maxOutput)
      else if script.inputIdFails then step == StepEnd(PathInternal)
      else
        && tr.input.Some?
        && (tr.input.value.waited.Answered? ==> AnswerLeads(step, tr.input.value.waited.answer, request, o))
        && EndsUnanswered(step, tr.input.value.waited)
  }

  /** The tool's own call, end by end: an error or a panic of the tool is a failed result, not the end of the loop. */
  predicate ToolDecides(step: ToolStep, tr: ToolTrace, script: CallScript, o: BatchOptions, config: ExecutionConfig) {
    var p := script.tool;
    var from := ApprovalLog(tr, script, config);
    var early := TokenAt(config, from + p.before);
    var late := TokenAt(config, from + p.before + p.during);
    if early then step == StepEnd(PathCancelled)
    else if p.overflow then step == StepEnd(PathInternal)
    else if p.expired.Some? then
      if p.expired.value == TurnDeadline then step == StepEnd(PathDeadline) else GivesResult(step, Failed, "tool failed", o.maxOutput)
    else if p.dropPanics then step == StepUnwinds
    else if late then step == StepEnd(PathCancelled)
    else
      match p.ends
      case Returns(execution) => ExecutionLeads(step, tr, execution, script, o)
      case Expires(source) =>
        if source == TurnDeadline then step == StepEnd(PathDeadline) else GivesResult(step, Failed, "tool failed", o.maxOutput)
      case _ => GivesResult(step, Failed, "tool failed", o.maxOutput)
  }

  lemma PolicyDoesAsScripted(step: ToolStep, tr: ToolTrace, script: CallScript, o: BatchOptions, config: ExecutionConfig)
    requires tr.policy.Some? && PortEnds(config, tr.from, script.policy, tr.policy.value)
    requires tr.approval.Some? <==> WantsApproval(tr) && !script.approvalIdFails
    requires tr.tool.Some? <==> Authorized(tr, true)
    requires tr.input.Some? ==> WantsInput(tr)
    requires Justified(step, tr, script, o)
    ensures PolicyDecides(step, tr, script, o.maxOutput, config)
    ensures RunsOnlyIfAllowed(tr, true, script)
  {
    AllowIsValid();
    hide TokenAt, ValidText, Utf8Len, InputRequestValid, InputAnswerValid, Fits, EncodeResult;
  }

  lemma ToolDoesAsScripted(step: ToolStep, tr: ToolTrace, hasPolicy: bool, script: CallScript, o: BatchOptions, config: ExecutionConfig)
    requires tr.tool.Some? && PortEnds(config, ApprovalLog(tr, script, config), script.tool, tr.tool.value)
    requires Authorized(tr, hasPolicy) && (tr.policy.Some? <==> hasPolicy)
    requires tr.approval.Some? <==> WantsApproval(tr) && !script.approvalIdFails
    requires tr.input.Some? <==> WantsInput(tr) && !script.inputIdFails
    requires Justified(step, tr, script, o)
    ensures ToolDecides(step, tr, script, o, config)
  {
    AllowIsValid();
    hide TokenAt, ValidText, Utf8Len, InputRequestValid, InputAnswerValid, DecisionValid, ApprovalLog;
  }

  /** Every call does what its script says, stage by stage. */
  lemma CallDoesAsScripted(step: ToolStep, tr: ToolTrace, hasPolicy: bool, script: CallScript, o: BatchOptions, config: ExecutionConfig)
    requires TraceFollows(tr, hasPolicy, script, o, config) && Justified(step, tr, script, o)
    ensures RunsOnlyIfAllowed(tr, hasPolicy, script) && (!hasPolicy ==> tr.tool.Some?)
    ensures hasPolicy ==> PolicyDecides(step, tr, script, o.maxOutput, config)
    ensures tr.tool.Some? ==> ToolDecides(step, tr, script, o, config)
  {
    hide PortFollows, WaitFollows, PolicyDecides, ToolDecides, ApprovalLog, PolicyLog, ToolLog, Justified;
    if hasPolicy {
      PortEndsAsScripted(config, tr.from, script.policy, tr.policy.value);
      PolicyDoesAsScripted(step, tr, script, o, config);
    }
    if tr.tool.Some? {
      PortEndsAsScripted(config, ApprovalLog(tr, script, config), script.tool, tr.tool.value);
      ToolDoesAsScripted(step, tr, hasPolicy, script, o, config);
    }
  }

  /** A call ends for the turn's deadline only when a script names it, or the loop's own passed during a wait. */
  lemma DeadlineHasCause(tr: ToolTrace, hasPolicy: bool, script: CallScript, o: BatchOptions, config: ExecutionConfig)
    requires TraceFollows(tr, hasPolicy, script, o, config) && Justified(StepEnd(PathDeadline), tr, script, o)
    ensures || script.policy.expired == Some(TurnDeadline) || script.policy.ends == Expires(TurnDeadline)
            || script.tool.expired == Some(TurnDeadline) || script.tool.ends == Expires(TurnDeadline)
            || (o.hasDeadline && tr.approval.Some? && script.approval.deadlineAt == tr.approval.value.looks)
            || (o.hasDeadline && tr.input.Some? && script.input.deadlineAt == tr.input.value.looks)
  {
    hide PortFollows, WaitFollows, ApprovalLog, PolicyLog, ToolLog, DecisionValid, InputRequestValid;
    if tr.policy.Some? {
      PortEndsAsScripted(config, tr.from, script.policy, tr.policy.value);
    }
    if tr.tool.Some? {
      PortEndsAsScripted(config, ApprovalLog(tr, script, config), script.tool, tr.tool.value);
    }
    if tr.approval.Some? {
      WaitSees(config, tr.approval.value, ApprovalKind(tr), script.approval, o.hasDeadline);
    }
    if tr.input.Some? {
      WaitSees(config, tr.input.value, InputKind(tr), script.input, o.hasDeadline);
    }
    hide WaitEndsAt, TokenAt;
  }

  // ---- The methods of one call --------------------------------------------------------------------

  /** What the policy's answer means. */
  predicate PolicyRead(step: PolicyStep, outcome: Option<PortOutcome<ToolDecision>>) {
    match step
    case PolicyAllows => outcome.None? || outcome == Some(Returned(AllowCall))
    case PolicyAsks(prompt) => outcome == Some(Returned(RequireApproval(prompt))) && DecisionValid(RequireApproval(prompt))
    case PolicyDenies(Some(reason)) => outcome == Some(Returned(DenyCall(reason))) && DecisionValid(DenyCall(reason))
    case PolicyDenies(None) => outcome.Some? && FailsClosed(outcome.value)
    case PolicyInvalid => outcome.Some? && outcome.value.Returned? && !DecisionValid(outcome.value.value)
    case PolicyCancelled => outcome.Some? && outcome.value.PortCancelled?
    case PolicyDeadline => outcome == Some(DeadlineExceeded(TurnDeadline))
    case PolicyUnwinds => outcome == Some(PortUnwinds)
  }

  /** `decide_policy`: anything but a valid decision denies, cancels, or ends the batch. */
  method DecidePolicy(control: LoopControl, hasPolicy: bool, script: PortScript<ToolDecision>)
    returns (step: PolicyStep, outcome: Option<PortOutcome<ToolDecision>>)
    requires control.Valid() && PortForeign(script)
    modifies control
    ensures control.Valid() && Disturbs(old(control.model), control.model)
    ensures control.published == old(control.published)
    ensures outcome.Some? <==> hasPolicy
    ensures outcome.Some? ==> PortFollows(control.initial, old(control.log), script, outcome.value)
    ensures control.log == if hasPolicy then PortLog(control.initial, old(control.log), script) else old(control.log)
    ensures PolicyRead(step, outcome) && (step.PolicyCancelled? ==> control.token)
  {
    hide Disturbs, Inv, LoopRun, Initial, LoopControl.Valid, PortFollows, DecisionValid;
    if !hasPolicy {
      DisturbsRefl(control.model);
      return PolicyAllows, None;
    }
    AllowIsValid();
    var answer := RunPortCall(control, script);
    outcome := Some(answer);
    match answer {
      case Returned(decision) =>
        if !DecisionValid(decision) {
          return PolicyInvalid, outcome;
        }
        match decision {
          case AllowCall => return PolicyAllows, outcome;
          case DenyCall(reason) => return PolicyDenies(Some(reason)), outcome;
          case RequireApproval(prompt) => return PolicyAsks(prompt), outcome;
        }
      case PortCancelled(_) => return PolicyCancelled, outcome;
      case DeadlineExceeded(source) => return if source.TurnDeadline? then PolicyDeadline else PolicyDenies(None), outcome;
      case ReturnedError => return PolicyDenies(None), outcome;
      case InvalidDeadline => return PolicyDenies(None), outcome;
      case PortPanicked => return PolicyDenies(None), outcome;
      case PortUnwinds => return PolicyUnwinds, outcome;
    }
  }

  lemma AllowIsValid()
    ensures DecisionValid(AllowCall)
  {
  }

  /** The shape of every step: results fit the call, and only four paths end a batch. */
  predicate StepOk(step: ToolStep, requestIndex: nat, call: ToolCall, maxOutput: nat, token: bool) {
    match step
    case StepResult(item) =>
      ResultFor(item, requestIndex, call, maxOutput) && item.outcome != ToolResultOutcome.Cancelled
    case StepEnd(path) =>
      path in {PathCancelled, PathDeadline, PathPolicy, PathInternal} && (path == PathCancelled ==> token)
    case _ => true
  }

  /** A question that was put is decided by its own script. */
  predicate AskedFrom(asked: Option<Asked>, from: seq<Op>, kind: InteractionKind, script: WaitScript, o: BatchOptions, config: ExecutionConfig) {
    asked.Some? ==> asked.value.from == from && WaitFollows(config, asked.value, kind, script, o.hasDeadline)
  }

  /** What the approval came to; `None` means the call may run. */
  predicate ApprovalRead(early: Option<ToolStep>, approval: Option<Asked>, script: CallScript, maxOutput: nat) {
    && (approval.Some? <==> !script.approvalIdFails)
    && (early.None? ==> approval.Some? && approval.value.waited == Answered(ApprovalAnswer(AllowOnce)))
    && (early.Some? ==>
          match early.value
          case StepResult(item) =>
            && item.ResultItem? && item.outcome == Denied && item.output == DenialOutput(None, maxOutput)
            && approval.Some? && approval.value.waited == Answered(ApprovalAnswer(Deny))
          case StepEnd(path) =>
            (path == PathInternal && script.approvalIdFails) || (approval.Some? && approval.value.waited == Ended(path))
          case StepSuspended => approval.Some? && approval.value.waited.StillWaiting?
          case StepUnwinds => false)
  }

  /** The approval branch of `run_tool_call`. */
  method AskApproval(control: LoopControl, requestIndex: nat, call: ToolCall, prompt: string, script: CallScript, options: BatchOptions)
    returns (early: Option<ToolStep>, ghost approval: Option<Asked>)
    requires control.Valid() && control.model.slot.None? && CallForeign(script)
    modifies control
    ensures control.Valid() && Keeps(old(control.model), control.model)
    ensures control.published == old(control.published)
    ensures AskedFrom(approval, old(control.log), Approval(prompt), script.approval, options, control.initial)
    ensures control.log == if approval.Some? then AskedLog(approval.value, Approval(prompt), script.approval) else old(control.log)
    ensures early.None? || !early.value.StepSuspended? ==> control.model.slot.None?
    ensures approval.Some? ==> AskedSince(old(control.model), control.model, approval.value, Approval(prompt))
    ensures ApprovalRead(early, approval, script, options.maxOutput)
    ensures early.Some? ==> StepOk(early.value, requestIndex, call, options.maxOutput, control.token)
  {
    hide Inv, LoopRun, Initial, Evolves, Keeps, ResultFor, Foreign, LoopControl.Valid, AskedSince, DenialOutput, ValidText, WaitFollows, AskedLog;
    KeepsRefl(control.model);
    if script.approvalIdFails {
      return Some(StepEnd(PathInternal)), None;
    }
    var waited;
    ghost var asked;
    waited, asked := WaitInteraction(control, Approval(prompt), script.approval, options.hasDeadline);
    approval := Some(asked);
    AnswerFits(old(control.model), control.model, asked, Approval(prompt));
    match waited {
      case StillWaiting => return Some(StepSuspended), approval;
      case Ended(path) => return Some(StepEnd(path)), approval;
      case Answered(answer) =>
        match answer {
          case ApprovalAnswer(decision) =>
            if decision == AllowOnce {
              return None, approval;
            }
            var denied := DeniedResult(requestIndex, call, None, options.maxOutput);
            return Some(StepResult(denied)), approval;
          case InputAnswer(_) =>
            assert false;
        }
    }
  }

  lemma AnswerFits(before: ControlState, now: ControlState, asked: Asked, kind: InteractionKind)
    requires AskedSince(before, now, asked, kind)
    ensures asked.waited.Answered? ==> AnswerMatches(asked.waited.answer, kind)
  {
  }

  /** The tool's part of a trace. */
  function ToolOnly(tool: PortOutcome<ToolExecution>, input: Option<Asked>): ToolTrace {
    ToolTrace([], None, None, Some(tool), input)
  }

  /** What the tool came to: a step justified by the tool's part of the trace alone. */
  predicate ToolRead(step: ToolStep, tool: PortOutcome<ToolExecution>, input: Option<Asked>, script: CallScript, o: BatchOptions) {
    var tr := ToolOnly(tool, input);
    && (input.Some? <==> WantsInput(tr) && !script.inputIdFails)
    && match step
       case StepResult(item) => ResultJustified(item, tr, o)
       case StepEnd(path) => ToolEnd(path, tr, script)
       case StepSuspended => Waits(tr)
       case StepUnwinds => tool == PortUnwinds
  }

  /** The tool port, and the input request it may make. */
  method ExecuteTool(control: LoopControl, requestIndex: nat, call: ToolCall, script: CallScript, options: BatchOptions)
    returns (step: ToolStep, tool: PortOutcome<ToolExecution>, ghost input: Option<Asked>)
    requires control.Valid() && control.model.slot.None? && CallForeign(script)
    modifies control
    ensures control.Valid() && Keeps(old(control.model), control.model)
    ensures control.published == old(control.published)
    ensures !step.StepSuspended? ==> control.model.slot.None?
    ensures StepOk(step, requestIndex, call, options.maxOutput, control.token)
    ensures ToolRead(step, tool, input, script, options)
    ensures PortFollows(control.initial, old(control.log), script.tool, tool)
    ensures input.None? ==> control.log == PortLog(control.initial, old(control.log), script.tool)
    ensures input.Some? ==>
      && WantsInput(ToolOnly(tool, input))
      && AskedFrom(input, PortLog(control.initial, old(control.log), script.tool), ToolInput(tool.value.request), script.input, options,
                   control.initial)
      && control.log == AskedLog(input.value, ToolInput(tool.value.request), script.input)
      && AskedSince(old(control.model), control.model, input.value, ToolInput(tool.value.request))
  {
    hide Inv, LoopRun, Initial, Evolves, Keeps, Disturbs, ResultFor, Foreign, LoopControl.Valid, ToolRead, PortFollows, StepOk,
         ValidText, Utf8Len, InputRequestValid, TerminalResult, AskedSince, AskedFrom, AskedLog, PortLog;
    ghost var start := control.model;
    tool := RunPortCall(control, script.tool);
    input := None;
    DisturbsKeeps(start, control.model);
    match tool {
      case Returned(execution) =>
        match execution {
          case CompletedWith(output) =>
            var completed := CompletedResult(requestIndex, call, output, options.maxOutput);
            CompletedStep(completed, output, requestIndex, call, tool, script, options, control.token);
            return StepResult(completed), tool, input;
          case RequestInput(request) =>
            if InputRequestValid(request) {
              ghost var mid := control.model;
              step, input := AskInput(control, requestIndex, call, request, script, options);
              if input.Some? {
                KeepsRefl(control.model);
                AskedWidens(start, mid, control.model, control.model, input.value, ToolInput(request));
              }
              KeepsTrans(start, mid, control.model);
              return;
            }
        }
      case PortCancelled(_) =>
        EndingStep(tool, PathCancelled, requestIndex, call, script, options, control.token);
        return StepEnd(PathCancelled), tool, input;
      case DeadlineExceeded(source) =>
        if source.TurnDeadline? {
          EndingStep(tool, PathDeadline, requestIndex, call, script, options, control.token);
          return StepEnd(PathDeadline), tool, input;
        }
      case InvalidDeadline =>
        EndingStep(tool, PathInternal, requestIndex, call, script, options, control.token);
        return StepEnd(PathInternal), tool, input;
      case PortUnwinds =>
        UnwindingStep(requestIndex, call, script, options, control.token);
        return StepUnwinds, tool, input;
      case ReturnedError =>
      case PortPanicked =>
    }
    FailedStep(tool, requestIndex, call, script, options, control.token);
    return StepResult(TerminalResult(requestIndex, call, Failed, "tool failed", options.maxOutput)), tool, input;
  }

  /** The tool port failed: an ordinary tool failure. */
  lemma FailedStep(tool: PortOutcome<ToolExecution>, requestIndex: nat, call: ToolCall, script: CallScript, o: BatchOptions, token: bool)
    requires || tool.ReturnedError? || tool.PortPanicked? || tool == DeadlineExceeded(PortDeadline)
             || (tool.Returned? && tool.value.RequestInput? && !InputRequestValid(tool.value.request))
    ensures var failed := StepResult(TerminalResult(requestIndex, call, Failed, "tool failed", o.maxOutput));
            StepOk(failed, requestIndex, call, o.maxOutput, token) && ToolRead(failed, tool, None, script, o)
  {
    hide ResultFor, StaticOutput, ValidText, Utf8Len, StaticMessage, PortFollows, InputRequestValid, DeniedBy;
    FailureIsStatic();
    TerminalFits(requestIndex, call, Failed, "tool failed", o.maxOutput);
  }

  lemma FailureIsStatic()
    ensures StaticMessage("tool failed")
  {
  }

  /** Cancellation, the turn deadline and a deadline overflow end the batch. */
  lemma EndingStep(tool: PortOutcome<ToolExecution>, path: FailPath, requestIndex: nat, call: ToolCall, script: CallScript,
                   o: BatchOptions, token: bool)
    requires match path
             case PathCancelled => tool.PortCancelled? && token
             case PathDeadline => tool == DeadlineExceeded(TurnDeadline)
             case PathInternal => tool == InvalidDeadline
             case _ => false
    ensures StepOk(StepEnd(path), requestIndex, call, o.maxOutput, token) && ToolRead(StepEnd(path), tool, None, script, o)
  {
    hide PortFollows;
  }

  lemma UnwindingStep(requestIndex: nat, call: ToolCall, script: CallScript, o: BatchOptions, token: bool)
    ensures StepOk(StepUnwinds, requestIndex, call, o.maxOutput, token) && ToolRead(StepUnwinds, PortUnwinds, None, script, o)
  {
    hide PortFollows;
  }

  lemma CompletedStep(item: HistoryItem, output: ToolOutput, requestIndex: nat, call: ToolCall, tool: PortOutcome<ToolExecution>,
                      script: CallScript, o: BatchOptions, token: bool)
    requires ResultFor(item, requestIndex, call, o.maxOutput)
    requires tool == Returned(CompletedWith(output))
    requires Utf8Len(output) <= o.maxOutput ==> item.outcome == Success && item.output == output
    requires Utf8Len(output) > o.maxOutput ==> item.outcome == Failed && item.output == StaticOutput("tool output too large", o.maxOutput)
    ensures StepOk(StepResult(item), requestIndex, call, o.maxOutput, token) && ToolRead(StepResult(item), tool, None, script, o)
  {
    hide ValidText, Utf8Len, PortFollows, StaticOutput, InputRequestValid, DeniedBy;
  }

  /** What the answer to an input request came to. */
  lemma InputStep(item: HistoryItem, asked: Asked, request: ToolInputRequest, requestIndex: nat, call: ToolCall,
                  tool: PortOutcome<ToolExecution>, script: CallScript, o: BatchOptions, token: bool)
    requires ResultFor(item, requestIndex, call, o.maxOutput)
    requires tool == Returned(RequestInput(request)) && InputRequestValid(request)
    requires !script.inputIdFails
    requires asked.waited.Answered? && asked.waited.answer.InputAnswer? && InputAnswerValid(asked.waited.answer.answer, request)
    requires var content := o.render(EncodeResult(asked.waited.answer.answer, request));
             if Fits(content, o.maxOutput) then item.outcome == InputProvided && item.output == content
             else item.outcome == Failed && item.output == StaticOutput("tool output too large", o.maxOutput)
    ensures StepOk(StepResult(item), requestIndex, call, o.maxOutput, token) && ToolRead(StepResult(item), tool, Some(asked), script, o)
  {
    hide PortFollows, StaticOutput, InputRequestValid, InputAnswerValid, DeniedBy, Fits, EncodeResult;
  }

  lemma UnansweredInput(step: ToolStep, input: Option<Asked>, request: ToolInputRequest, requestIndex: nat, call: ToolCall,
                        tool: PortOutcome<ToolExecution>, script: CallScript, o: BatchOptions, token: bool)
    requires tool == Returned(RequestInput(request)) && InputRequestValid(request)
    requires input.Some? <==> !script.inputIdFails
    requires match step
             case StepEnd(PathInternal) => input.None?
             case StepEnd(path) =>
               input.Some? && input.value.waited == Ended(path) && path in {PathCancelled, PathDeadline} && (path == PathCancelled ==> token)
             case StepSuspended => input.Some? && input.value.waited.StillWaiting?
             case _ => false
    ensures StepOk(step, requestIndex, call, o.maxOutput, token) && ToolRead(step, tool, input, script, o)
  {
    hide PortFollows, InputRequestValid;
  }

  /** A tool's request for user input: the choice index of any accepted answer is in range. */
  method AskInput(control: LoopControl, requestIndex: nat, call: ToolCall, request: ToolInputRequest, script: CallScript, options: BatchOptions)
    returns (step: ToolStep, ghost input: Option<Asked>)
    requires control.Valid() && control.model.slot.None? && CallForeign(script)
    requires InputRequestValid(request)
    modifies control
    ensures control.Valid() && Keeps(old(control.model), control.model)
    ensures control.published == old(control.published)
    ensures AskedFrom(input, old(control.log), ToolInput(request), script.input, options, control.initial)
    ensures control.log == if input.Some? then AskedLog(input.value, ToolInput(request), script.input) else old(control.log)
    ensures !step.StepSuspended? ==> control.model.slot.None?
    ensures StepOk(step, requestIndex, call, options.maxOutput, control.token)
    ensures ToolRead(step, Returned(RequestInput(request)), input, script, options)
    ensures input.Some? ==> AskedSince(old(control.model), control.model, input.value, ToolInput(request))
  {
    hide Inv, LoopRun, Initial, Evolves, Keeps, ResultFor, Foreign, LoopControl.Valid, InputAnswerValid, AskedSince, StepOk, ToolRead,
         PortFollows, InputRequestValid, Fits, ValidText, StaticOutput, WaitFollows, AskedLog;
    ghost var tool: PortOutcome<ToolExecution> := Returned(RequestInput(request));
    KeepsRefl(control.model);
    input := None;
    if script.inputIdFails {
      step := StepEnd(PathInternal);
      UnansweredInput(step, input, request, requestIndex, call, tool, script, options, control.token);
      return;
    }
    var waited;
    ghost var asked;
    waited, asked := WaitInteraction(control, ToolInput(request), script.input, options.hasDeadline);
    input := Some(asked);
    AnswerFits(old(control.model), control.model, asked, ToolInput(request));
    match waited {
      case StillWaiting =>
        step := StepSuspended;
        UnansweredInput(step, input, request, requestIndex, call, tool, script, options, control.token);
      case Ended(path) =>
        step := StepEnd(path);
        UnansweredInput(step, input, request, requestIndex, call, tool, script, options, control.token);
      case Answered(answer) =>
        match answer {
          case InputAnswer(value) =>
            var content := options.render(EncodeResult(value, request));
            var provided := ProvidedInputResult(requestIndex, call, content, options.maxOutput);
            InputStep(provided, asked, request, requestIndex, call, tool, script, options, control.token);
            step := StepResult(provided);
          case ApprovalAnswer(_) =>
            assert false;
        }
    }
  }

  /** The policy's part of a trace is there exactly with a policy, and follows its script. */
  predicate PolicyFollows(tr: ToolTrace, hasPolicy: bool, script: CallScript, config: ExecutionConfig) {
    (tr.policy.Some? <==> hasPolicy) && (tr.policy.Some? ==> PortFollows(config, tr.from, script.policy, tr.policy.value))
  }

  /** So is the approval's part: there exactly when the policy asks for it and an id can be had. */
  predicate ApprovalFollows(tr: ToolTrace, script: CallScript, o: BatchOptions, config: ExecutionConfig) {
    && (tr.approval.Some? <==> WantsApproval(tr) && !script.approvalIdFails)
    && (tr.approval.Some? ==>
          AskedFrom(tr.approval, PolicyLog(tr, script, config), ApprovalKind(tr), script.approval, o, config))
  }

  /** A call that stops at its policy. */
  lemma PolicyStops(step: ToolStep, read: PolicyStep, tr: ToolTrace, hasPolicy: bool, script: CallScript, o: BatchOptions, config: ExecutionConfig)
    requires tr.approval.None? && tr.tool.None? && tr.input.None?
    requires PolicyFollows(tr, hasPolicy, script, config) && PolicyRead(read, tr.policy)
    requires match read
             case PolicyDenies(reason) =>
               && step.StepResult? && step.item.ResultItem? && step.item.outcome == Denied
               && step.item.output == DenialOutput(reason, o.maxOutput)
             case PolicyCancelled => step == StepEnd(PathCancelled)
             case PolicyDeadline => step == StepEnd(PathDeadline)
             case PolicyInvalid => step == StepEnd(PathPolicy)
             case PolicyUnwinds => step == StepUnwinds
             case _ => false
    ensures TraceFollows(tr, hasPolicy, script, o, config) && Justified(step, tr, script, o)
    ensures CallLog(tr, script, config) == PolicyLog(tr, script, config)
  {
    AllowIsValid();
    hide PortFollows, DecisionValid, ValidText, Utf8Len, StaticOutput, InputRequestValid, DenialOutput, PolicyLog;
  }

  /** A call that stops at its approval. */
  lemma ApprovalStops(step: ToolStep, prompt: string, tr: ToolTrace, hasPolicy: bool, script: CallScript, o: BatchOptions, config: ExecutionConfig)
    requires tr.tool.None? && tr.input.None? && PolicyFollows(tr, hasPolicy, script, config)
    requires tr.policy == Some(Returned(RequireApproval(prompt))) && DecisionValid(RequireApproval(prompt))
    requires ApprovalRead(Some(step), tr.approval, script, o.maxOutput) && ApprovalFollows(tr, script, o, config)
    ensures TraceFollows(tr, hasPolicy, script, o, config) && Justified(step, tr, script, o)
    ensures CallLog(tr, script, config) == ApprovalLog(tr, script, config)
  {
    hide PortFollows, WaitFollows, DecisionValid, ValidText, Utf8Len, StaticOutput, InputRequestValid, DenialOutput, PolicyLog, ApprovalLog;
  }

  /** A call whose tool ran: the tool's part justifies it, the policy's part authorizes it. */
  lemma RunsTool(step: ToolStep, early: ToolTrace, tool: PortOutcome<ToolExecution>, input: Option<Asked>, hasPolicy: bool, script: CallScript,
                 o: BatchOptions, config: ExecutionConfig)
    requires early.tool.None? && early.input.None? && PolicyFollows(early, hasPolicy, script, config)
    requires ApprovalFollows(early, script, o, config) && Authorized(early, hasPolicy)
    requires PortFollows(config, ApprovalLog(early, script, config), script.tool, tool)
    requires ToolRead(step, tool, input, script, o)
    requires input.Some? ==>
      && WantsInput(ToolOnly(tool, input))
      && AskedFrom(input, PortLog(config, ApprovalLog(early, script, config), script.tool), ToolInput(tool.value.request), script.input, o, config)
    ensures var tr := early.(tool := Some(tool), input := input);
            && TraceFollows(tr, hasPolicy, script, o, config) && Justified(step, tr, script, o)
            && CallLog(tr, script, config)
               == if input.Some? then AskedLog(input.value, ToolInput(tool.value.request), script.input)
                  else PortLog(config, ApprovalLog(early, script, config), script.tool)
  {
    hide PortFollows, WaitFollows, DecisionValid, InputRequestValid, ValidText, Utf8Len, StaticOutput, InputAnswerValid, Fits, AskedLog, PortLog;
    var tr := early.(tool := Some(tool), input := input);
    assert PolicyLog(tr, script, config) == PolicyLog(early, script, config);
    assert ApprovalLog(tr, script, config) == ApprovalLog(early, script, config);
    hide PolicyLog, ApprovalLog;
  }

  lemma PolicyRuns(read: PolicyStep, tr: ToolTrace, hasPolicy: bool, script: CallScript, o: BatchOptions, config: ExecutionConfig)
    requires PolicyFollows(tr, hasPolicy, script, config) && PolicyRead(read, tr.policy)
    requires match read
             case PolicyAllows => tr.approval.None?
             case PolicyAsks(_) => ApprovalRead(None, tr.approval, script, o.maxOutput)
             case _ => false
    ensures Authorized(tr, hasPolicy) && (tr.approval.Some? <==> WantsApproval(tr) && !script.approvalIdFails)
    ensures read.PolicyAllows? ==> ApprovalFollows(tr, script, o, config) && ApprovalLog(tr, script, config) == PolicyLog(tr, script, config)
  {
    hide DecisionValid, PortFollows, PolicyLog;
  }

  /** Questions put one after the other have different ids. */
  lemma LaterQuestionDiffers(start: ControlState, mid: ControlState, later: ControlState, now: ControlState,
                             first: Asked, firstKind: InteractionKind, second: Asked, secondKind: InteractionKind)
    requires AskedSince(start, mid, first, firstKind) && Keeps(mid, later) && AskedSince(later, now, second, secondKind)
    ensures first.id != second.id
  {
    hide AnswerMatches, ConfigsGrow, StatusGrows;
  }

  /** `run_tool_call`: the step, with the trace that justifies it. */
  method RunToolCall(control: LoopControl, requestIndex: nat, call: ToolCall, hasPolicy: bool, script: CallScript, options: BatchOptions)
    returns (step: ToolStep, ghost tr: ToolTrace)
    requires control.Valid() && control.model.slot.None? && CallForeign(script)
    modifies control
    ensures control.Valid() && Keeps(old(control.model), control.model)
    ensures control.published == old(control.published)
    ensures !step.StepSuspended? ==> control.model.slot.None?
    ensures StepOk(step, requestIndex, call, options.maxOutput, control.token)
    ensures TraceFollows(tr, hasPolicy, script, options, control.initial) && Justified(step, tr, script, options)
    ensures tr.from == old(control.log) && control.log == CallLog(tr, script, control.initial)
    ensures TraceAsks(tr, old(control.model), control.model)
  {
    hide Inv, LoopRun, Initial, Evolves, Keeps, Disturbs, Foreign, ResultFor, LoopControl.Valid, PortFollows, DecisionValid,
         TraceFollows, Justified, ToolRead, AskedSince, ApprovalRead, PolicyRead, DenialOutput, ValidText, WantsInput, ApprovalFollows,
         CallLog, ApprovalLog, PortLog, AskedLog, AskedFrom;
    ghost var start, config := control.model, control.initial;
    ghost var from := control.log;
    var read, policy := DecidePolicy(control, hasPolicy, script.policy);
    DisturbsKeeps(start, control.model);
    tr := ToolTrace(from, policy, None, None, None);
    ghost var asking, asked := control.model, control.model;
    match read {
      case PolicyDenies(reason) =>
        ReasonIsValid(read, policy);
        var denied := DeniedResult(requestIndex, call, reason, options.maxOutput);
        step := StepResult(denied);
        PolicyStops(step, read, tr, hasPolicy, script, options, config);
        return;
      case PolicyCancelled =>
        step := StepEnd(PathCancelled);
        PolicyStops(step, read, tr, hasPolicy, script, options, config);
        return;
      case PolicyDeadline =>
        step := StepEnd(PathDeadline);
        PolicyStops(step, read, tr, hasPolicy, script, options, config);
        return;
      case PolicyInvalid =>
        step := StepEnd(PathPolicy);
        PolicyStops(step, read, tr, hasPolicy, script, options, config);
        return;
      case PolicyUnwinds =>
        step := StepUnwinds;
        PolicyStops(step, read, tr, hasPolicy, script, options, config);
        return;
      case PolicyAsks(prompt) =>
        AskedByPolicy(read, policy);
        var early;
        ghost var approval;
        ghost var log := control.log;
        early, approval := AskApproval(control, requestIndex, call, prompt, script, options);
        asked := control.model;
        tr := tr.(approval := approval);
        KeepsTrans(start, asking, asked);
        ApprovalAsks(tr, prompt, start, asking, asked);
        ApprovalIsFollowed(tr, prompt, early, script, options, config);
        if early.Some? {
          step := early.value;
          ApprovalStops(step, prompt, tr, hasPolicy, script, options, config);
          return;
        }
      case PolicyAllows =>
    }
    PolicyRuns(read, tr, hasPolicy, script, options, config);
    var tool;
    ghost var input;
    step, tool, input := ExecuteTool(control, requestIndex, call, script, options);
    RunsTool(step, tr, tool, input, hasPolicy, script, options, config);
    ToolAsks(tr, tool, input, start, asked, control.model);
    tr := tr.(tool := Some(tool), input := input);
    KeepsTrans(start, asked, control.model);
  }

  /** The approval that was asked for is the one the policy wanted, from the log the policy left. */
  lemma ApprovalIsFollowed(tr: ToolTrace, prompt: string, early: Option<ToolStep>, script: CallScript, o: BatchOptions, config: ExecutionConfig)
    requires tr.policy == Some(Returned(RequireApproval(prompt))) && DecisionValid(RequireApproval(prompt))
    requires ApprovalRead(early, tr.approval, script, o.maxOutput)
    requires AskedFrom(tr.approval, PolicyLog(tr, script, config), Approval(prompt), script.approval, o, config)
    ensures ApprovalFollows(tr, script, o, config)
    ensures ApprovalLog(tr, script, config)
         == if tr.approval.Some? then AskedLog(tr.approval.value, Approval(prompt), script.approval) else PolicyLog(tr, script, config)
  {
    hide DecisionValid, AskedFrom, PolicyLog, AskedLog;
  }

  lemma ReasonIsValid(read: PolicyStep, policy: Option<PortOutcome<ToolDecision>>)
    requires PolicyRead(read, policy) && read.PolicyDenies?
    ensures read.reason.Some? ==> ValidText(read.reason.value, MAX_POLICY_TEXT_BYTES, false)
  {
  }

  lemma AskedByPolicy(read: PolicyStep, policy: Option<PortOutcome<ToolDecision>>)
    requires PolicyRead(read, policy) && read.PolicyAsks?
    ensures policy == Some(Returned(RequireApproval(read.prompt))) && DecisionValid(RequireApproval(read.prompt))
  {
  }

  lemma ApprovalAsks(tr: ToolTrace, prompt: string, start: ControlState, asking: ControlState, asked: ControlState)
    requires Keeps(start, asking) && Keeps(start, asked)
    requires tr.input.None? && tr.policy == Some(Returned(RequireApproval(prompt))) && DecisionValid(RequireApproval(prompt))
    requires tr.approval.Some? ==> AskedSince(asking, asked, tr.approval.value, Approval(prompt))
    ensures TraceAsks(tr, start, asked)
  {
    hide DecisionValid, AskedSince, Keeps;
    KeepsRefl(asked);
    if tr.approval.Some? {
      AskedWidens(start, asking, asked, asked, tr.approval.value, Approval(prompt));
    }
  }

  lemma ToolAsks(early: ToolTrace, tool: PortOutcome<ToolExecution>, input: Option<Asked>,
                 start: ControlState, asked: ControlState, now: ControlState)
    requires TraceAsks(early, start, asked) && Keeps(start, asked) && Keeps(asked, now)
    requires early.tool.None? && early.input.None?
    requires input.Some? ==> WantsInput(ToolOnly(tool, input)) && AskedSince(asked, now, input.value, ToolInput(tool.value.request))
    ensures TraceAsks(early.(tool := Some(tool), input := input), start, now)
  {
    hide DecisionValid, InputRequestValid, AskedSince, Keeps;
    KeepsRefl(start);
    KeepsRefl(asked);
    KeepsRefl(now);
    TraceAsksWidens(early, start, start, asked, now);
    if input.Some? {
      AskedWidens(start, asked, now, now, input.value, ToolInput(tool.value.request));
      if early.approval.Some? {
        LaterQuestionDiffers(start, asked, asked, now, early.approval.value, ApprovalKind(early), input.value, ToolInput(tool.value.request));
      }
    }
  }
}
