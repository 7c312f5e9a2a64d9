/**
 * The control plane of one loop (src/agent_loop/control.rs) as a sequential
 * object: one atomic operation per method call, and what any sequence of them
 * keeps.
 */
module ControlSpec {
  import opened Common
  import opened ToolCatalog
  import opened Interactions

  /** Prompt projection of a config: the default provider, or a host provider. */
  datatype PromptProvider = DefaultProvider(system: Option<string>) | HostProvider(name: string)

  /** A tool set can only come from the builder, so it is frozen. */
  type FrozenTools = t: ToolSet | Frozen(t)
    witness ToolSet([], map[])

  datatype ExecutionConfig = ExecutionConfig(model: string, tools: FrozenTools, hasPolicy: bool, prompt: PromptProvider)

  datatype CancelSource = ByUser | ByOwnerDropped | ByShutdown

  datatype Status = Active | CancelledBy(source: CancelSource) | Sealed

  datatype FinishSeal = Clean | CancelledPrior(source: CancelSource) | AlreadyFinished

  datatype PendingConfig = PendingConfig(revision: nat, config: ExecutionConfig)

  datatype InteractionSlot = InteractionSlot(id: nat, expected: InteractionKind)

  /** What became of one accepted config. */
  datatype Fate = StillPending | Taken | Replaced | Discarded

  /**
   * The shared fields, then bookkeeping: `accepted[k]` is the k-th accepted
   * config (0 the initial one), `fates[k]` what became of it, `taken` the last
   * one handed to the runner, `asked` and `replies` the interactions so far.
   */
  datatype ControlState = ControlState(
    status: Status,
    token: bool,
    slot: Option<InteractionSlot>,
    accepting: bool,
    current: nat,
    next: nat,
    pending: Option<PendingConfig>,
    replies: map<nat, InteractionAnswer>,
    accepted: seq<ExecutionConfig>,
    fates: seq<Fate>,
    taken: nat,
    asked: map<nat, InteractionKind>,
    winner: Option<CancelSource>)

  datatype Op =
    | Cancel(source: CancelSource)
    | RaiseToken
    | Update(config: ExecutionConfig, fits: bool)
    | Answer(id: nat, answer: InteractionAnswer)
    | TakeConfig
    | BeginFinal
    | CommitRevision(revision: nat)
    | AppliedRevision
    | FinishOnce
    | SetInteraction(slot: InteractionSlot)
    | TakeInteraction
    | IsFinished

  datatype Res =
    | Done
    | Flag(flag: bool)
    | Handed(revision: nat)
    | NotActive
    | InvalidConfig
    | InteractionNotFound
    | WrongInteraction
    | Busy
    | Config(pending: Option<PendingConfig>)
    | Slot(slot: Option<InteractionSlot>)
    | Revision(current: nat)
    | Seal(seal: FinishSeal, discarded: Option<PendingConfig>)

  /** The revision of the k-th accepted config; the counter saturates. */
  function RevisionOf(k: nat): nat {
    Min(k, U64_MAX)
  }

  function Initial(config: ExecutionConfig): ControlState {
    ControlState(Active, false, None, true, 0, RevisionOf(1), None, map[], [config], [Taken], 0, map[], None)
  }

  function Settle(s: ControlState, fate: Fate): (fates: seq<Fate>)
    ensures |fates| == |s.fates|
  {
    if s.pending.Some? && s.fates != [] then s.fates[|s.fates| - 1 := fate] else s.fates
  }

  /** Accepting a config: it becomes the only pending one. */
  function Accept(s: ControlState, config: ExecutionConfig): ControlState
  {
    s.(next := Min(s.next + 1, U64_MAX),
       pending := Some(PendingConfig(s.next, config)),
       accepted := s.accepted + [config],
       fates := Settle(s, Replaced) + [StillPending])
  }

  /** Closing: nothing is accepted any more and nothing stays pending. */
  function Close(s: ControlState): ControlState
  {
    s.(accepting := false, pending := None, fates := Settle(s, Discarded))
  }

  function Apply(s: ControlState, op: Op): (ControlState, Res)
  {
    match op
    case Cancel(source) =>
      if s.status == Active then (s.(status := CancelledBy(source), winner := Some(source)), Flag(true))
      else (s, Flag(false))
    case RaiseToken => (if s.status == Active then s else s.(token := true), Done)
    case Update(config, fits) =>
      if s.status != Active then (s, NotActive)
      else if !fits then (s, InvalidConfig)
      else if !s.accepting then (s, NotActive)
      else (Accept(s, config), Handed(s.next))
    case Answer(id, answer) =>
      if !s.accepting || s.status != Active then (s, NotActive)
      else if s.slot.None? then (s, InteractionNotFound)
      else if s.slot.value.id != id || !AnswerMatches(answer, s.slot.value.expected) then (s, WrongInteraction)
      else (s.(slot := None, replies := s.replies[id := answer]), Done)
    case TakeConfig =>
      if s.pending.None? then (s, Config(None))
      else (s.(pending := None, fates := Settle(s, Taken), taken := if s.fates == [] then 0 else |s.fates| - 1), Config(s.pending))
    case BeginFinal => (Close(s), Config(s.pending))
    case CommitRevision(revision) => (s.(current := revision), Done)
    case AppliedRevision => (s, Revision(s.current))
    case FinishOnce =>
      var seal := match s.status
        case Active => Clean
        case CancelledBy(source) => CancelledPrior(source)
        case Sealed => AlreadyFinished;
      (Close(s).(status := Sealed), Seal(seal, s.pending))
    case SetInteraction(slot) =>
      if s.slot.Some? then (s, Busy)
      else (s.(slot := Some(slot), asked := s.asked[slot.id := slot.expected]), Done)
    case TakeInteraction => (s.(slot := None), Slot(s.slot))
    case IsFinished => (s, Flag(s.status == Sealed))
  }

  // ---- The invariant ------------------------------------------------------------

  /** Configs: at most the latest accepted one is pending, and it is pending unchanged. */
  ghost predicate ConfigInv(s: ControlState) {
    var last := |s.accepted| - 1;
    && |s.accepted| >= 1 && |s.fates| == |s.accepted|
    && s.next == RevisionOf(|s.accepted|)
    && s.taken <= last && s.fates[s.taken] == Taken
    && (forall k | s.taken < k <= last :: s.fates[k] != Taken)
    && (forall k | 0 <= k < last :: s.fates[k] in {Taken, Replaced})
    && (s.pending.Some? <==> s.fates[last] == StillPending)
    && (s.pending.Some? ==> s.pending.value == PendingConfig(RevisionOf(last), s.accepted[last]))
    && s.fates[last] != Replaced
    && (s.fates[last] == Discarded || !s.accepting ==> !s.accepting && s.pending.None?)
  }

  ghost predicate StatusInv(s: ControlState) {
    && (s.status == Sealed ==> !s.accepting)
    && (s.token ==> s.status != Active)
    && (s.status == Active ==> s.winner.None?)
    && (s.status.CancelledBy? ==> s.winner == Some(s.status.source))
  }

  /** Interactions: an open slot is unanswered, and every accepted answer fits its question. */
  ghost predicate SlotInv(s: ControlState) {
    && (s.slot.Some? ==> s.slot.value.id in s.asked && s.asked[s.slot.value.id] == s.slot.value.expected)
    && (s.slot.Some? ==> s.slot.value.id !in s.replies)
    && (forall id | id in s.replies :: id in s.asked && AnswerMatches(s.replies[id], s.asked[id]))
  }

  ghost predicate Inv(s: ControlState) {
    ConfigInv(s) && StatusInv(s) && SlotInv(s)
  }

  /** Interaction ids are fresh whenever a slot is filled. */
  predicate Fresh(s: ControlState, op: Op) {
    op.SetInteraction? ==> op.slot.id !in s.asked
  }

  lemma InitialInv(config: ExecutionConfig)
    ensures Inv(Initial(config))
  {
  }

  // ---- What can never be undone, from any state to any later one ----------------------

  ghost predicate ConfigsGrow(s: ControlState, t: ControlState) {
    && s.accepted <= t.accepted && |s.fates| <= |t.fates|
    && s.taken <= t.taken
    && (forall k | 0 <= k < |s.fates| && s.fates[k] != StillPending :: t.fates[k] == s.fates[k])
    && (!s.accepting ==> !t.accepting && t.accepted == s.accepted)
  }

  ghost predicate StatusGrows(s: ControlState, t: ControlState) {
    && (s.status != Active ==> t.status in {s.status, Sealed} && t.winner == s.winner && t.accepted == s.accepted)
    && (s.token ==> t.token)
  }

  ghost predicate InteractionsGrow(s: ControlState, t: ControlState) {
    && s.asked.Keys <= t.asked.Keys && (forall id | id in s.asked :: t.asked[id] == s.asked[id])
    && s.replies.Keys <= t.replies.Keys && (forall id | id in s.replies :: t.replies[id] == s.replies[id])
  }

  ghost predicate Evolves(s: ControlState, t: ControlState) {
    ConfigsGrow(s, t) && StatusGrows(s, t) && InteractionsGrow(s, t)
  }

  lemma AcceptStep(s: ControlState, config: ExecutionConfig)
    requires ConfigInv(s) && s.accepting
    ensures ConfigInv(Accept(s, config)) && ConfigsGrow(s, Accept(s, config))
  {
    var t := Accept(s, config);
    var last := |s.accepted|;
    assert |t.fates| == last + 1 && t.fates[last] == StillPending;
    assert forall k | 0 <= k < last :: t.fates[k] == Settle(s, Replaced)[k];
    assert forall k | 0 <= k < last - 1 :: t.fates[k] == s.fates[k];
  }

  lemma CloseStep(s: ControlState)
    requires ConfigInv(s)
    ensures ConfigInv(Close(s)) && ConfigsGrow(s, Close(s))
  {
    assert forall k | 0 <= k < |s.fates| - 1 :: Close(s).fates[k] == s.fates[k];
  }

  lemma TakeStep(s: ControlState)
    requires ConfigInv(s)
    ensures var (t, r) := Apply(s, TakeConfig);
            && ConfigInv(t) && ConfigsGrow(s, t)
            && r == Config(s.pending)
            && (s.pending.Some? ==> s.taken < |s.accepted| - 1 == t.taken)
  {
  }

  /** The config fields, which only four operations touch. */
  function ConfigFields(s: ControlState): (bool, nat, Option<PendingConfig>, seq<ExecutionConfig>, seq<Fate>, nat) {
    (s.accepting, s.next, s.pending, s.accepted, s.fates, s.taken)
  }

  lemma ConfigFrame(s: ControlState, op: Op)
    ensures !op.Update? && !op.TakeConfig? && !op.BeginFinal? && !op.FinishOnce? ==>
      ConfigFields(Apply(s, op).0) == ConfigFields(s)
    ensures op.Update? ==> ConfigFields(Apply(s, op).0) in {ConfigFields(s), ConfigFields(Accept(s, op.config))}
    ensures op.Update? && !s.accepting ==> Apply(s, op).0 == s
    ensures op.BeginFinal? || op.FinishOnce? ==> ConfigFields(Apply(s, op).0) == ConfigFields(Close(s))
  {
    hide AnswerMatches, Settle;
  }

  lemma ConfigStep(s: ControlState, op: Op)
    requires ConfigInv(s)
    ensures ConfigInv(Apply(s, op).0) && ConfigsGrow(s, Apply(s, op).0)
  {
    ConfigFrame(s, op);
    TakeStep(s);
    CloseStep(s);
    if op.Update? && s.accepting {
      AcceptStep(s, op.config);
    }
    hide Apply, Close, Accept, RevisionOf;
  }

  lemma StatusStep(s: ControlState, op: Op)
    requires StatusInv(s)
    ensures StatusInv(Apply(s, op).0) && StatusGrows(s, Apply(s, op).0)
  {
  }

  lemma SlotStep(s: ControlState, op: Op)
    requires SlotInv(s) && Fresh(s, op)
    requires forall id | id in s.replies :: id in s.asked
    ensures SlotInv(Apply(s, op).0) && InteractionsGrow(s, Apply(s, op).0)
  {
    if !op.Answer? && !op.SetInteraction? && !op.TakeInteraction? {
      SlotFrame(s, op);
      hide Apply, AnswerMatches;
    } else {
      hide AnswerMatches, Accept, Close;
    }
  }

  /** The interaction fields, which only three operations touch. */
  lemma SlotFrame(s: ControlState, op: Op)
    requires !op.Answer? && !op.SetInteraction? && !op.TakeInteraction?
    ensures Apply(s, op).0.slot == s.slot && Apply(s, op).0.asked == s.asked && Apply(s, op).0.replies == s.replies
  {
    hide Settle;
  }

  lemma ApplyKeepsInv(s: ControlState, op: Op)
    requires Inv(s) && Fresh(s, op)
    ensures Inv(Apply(s, op).0) && Evolves(s, Apply(s, op).0)
  {
    ConfigStep(s, op);
    StatusStep(s, op);
    SlotStep(s, op);
  }

  // ---- Whole runs -----------------------------------------------------------------------

  /** The state after the first `i` operations of a run. */
  function At(s: ControlState, ops: seq<Op>, i: nat): ControlState
    requires i <= |ops|
  {
    if i == 0 then s else Apply(At(s, ops, i - 1), ops[i - 1]).0
  }

  function ResultOf(s: ControlState, ops: seq<Op>, i: nat): Res
    requires i < |ops|
  {
    Apply(At(s, ops, i), ops[i]).1
  }

  /** A run from a fresh loop in which interaction ids are never reused. */
  ghost predicate LoopRun(config: ExecutionConfig, ops: seq<Op>) {
    forall i | 0 <= i < |ops| :: Fresh(At(Initial(config), ops, i), ops[i])
  }

  lemma EvolvesTrans(s: ControlState, t: ControlState, u: ControlState)
    requires Evolves(s, t) && Evolves(t, u)
    ensures Evolves(s, u)
  {
    forall k | 0 <= k < |s.fates| && s.fates[k] != StillPending ensures u.fates[k] == s.fates[k] {
      assert t.fates[k] == s.fates[k];
    }
  }

  /** The invariant holds throughout, and from any point to a later one the state only evolves. */
  lemma {:induction false} RunEvolves(config: ExecutionConfig, ops: seq<Op>, i: nat, j: nat)
    requires LoopRun(config, ops) && i <= j <= |ops|
    ensures var s := Initial(config);
            Inv(At(s, ops, i)) && Inv(At(s, ops, j)) && Evolves(At(s, ops, i), At(s, ops, j))
    decreases j
  {
    hide Inv, Evolves, Apply, Initial;
    var s := Initial(config);
    if j == 0 {
      InitialInv(config);
      EvolvesRefl(s);
    } else if i < j {
      RunEvolves(config, ops, i, j - 1);
      var mid := At(s, ops, j - 1);
      assert Fresh(mid, ops[j - 1]);
      ApplyKeepsInv(mid, ops[j - 1]);
      EvolvesTrans(At(s, ops, i), mid, At(s, ops, j));
    } else {
      RunEvolves(config, ops, i - 1, i - 1);
      assert Fresh(At(s, ops, i - 1), ops[i - 1]);
      ApplyKeepsInv(At(s, ops, i - 1), ops[i - 1]);
      EvolvesRefl(At(s, ops, i));
    }
  }

  lemma EvolvesRefl(s: ControlState)
    ensures Evolves(s, s)
  {
  }

  // ---- Runs grow one operation at a time ----------------------------------------------------

  lemma {:induction false} AtPrefix(s: ControlState, log: seq<Op>, op: Op, i: nat)
    requires i <= |log|
    ensures At(s, log + [op], i) == At(s, log, i)
  {
    hide Apply;
    if i > 0 {
      AtPrefix(s, log, op, i - 1);
    }
  }

  /** The state a log leads to. */
  function LoggedState(config: ExecutionConfig, log: seq<Op>): ControlState {
    At(Initial(config), log, |log|)
  }

  predicate TokenAt(config: ExecutionConfig, log: seq<Op>) {
    LoggedState(config, log).token
  }

  lemma LogStep(config: ExecutionConfig, log: seq<Op>, op: Op)
    ensures LoggedState(config, log + [op]) == Apply(LoggedState(config, log), op).0
  {
    hide Apply, Initial;
    AtPrefix(Initial(config), log, op, |log|);
  }

  /** Appending an operation extends the run by one step. */
  lemma LogGrows(config: ExecutionConfig, log: seq<Op>, op: Op)
    requires LoopRun(config, log)
    requires Fresh(At(Initial(config), log, |log|), op)
    ensures LoopRun(config, log + [op])
    ensures var s := At(Initial(config), log, |log|);
            && At(Initial(config), log + [op], |log| + 1) == Apply(s, op).0
            && ResultOf(Initial(config), log + [op], |log|) == Apply(s, op).1
  {
    hide Apply, Initial, Fresh;
    forall i | 0 <= i <= |log|
      ensures At(Initial(config), log + [op], i) == At(Initial(config), log, i)
    {
      AtPrefix(Initial(config), log, op, i);
    }
  }

  // ---- Theorems about every run ------------------------------------------------------------

  predicate WinsCancel(config: ExecutionConfig, ops: seq<Op>, i: nat)
    requires i < |ops|
  {
    ops[i].Cancel? && ResultOf(Initial(config), ops, i) == Flag(true)
  }

  predicate WinsSeal(config: ExecutionConfig, ops: seq<Op>, i: nat)
    requires i < |ops|
  {
    ops[i].FinishOnce? && var r := ResultOf(Initial(config), ops, i); r.Seal? && r.seal != AlreadyFinished
  }

  /** The status at `i`, as the operations decide it. */
  lemma Decisions(config: ExecutionConfig, ops: seq<Op>, i: nat)
    requires i < |ops|
    ensures var s := At(Initial(config), ops, i);
            var t := At(Initial(config), ops, i + 1);
            && (WinsCancel(config, ops, i) <==> ops[i].Cancel? && s.status == Active)
            && (WinsSeal(config, ops, i) <==> ops[i].FinishOnce? && s.status != Sealed)
            && (WinsCancel(config, ops, i) ==> t.status == CancelledBy(ops[i].source))
            && (ops[i].FinishOnce? ==> t.status == Sealed)
            && (!WinsCancel(config, ops, i) && !ops[i].FinishOnce? ==> t.status == s.status)
  {
    hide Initial, At, Apply;
    StatusAfter(At(Initial(config), ops, i), ops[i]);
    StateAfter(Initial(config), ops, i);
  }

  lemma StateAfter(s: ControlState, ops: seq<Op>, i: nat)
    requires i < |ops|
    ensures At(s, ops, i + 1) == Apply(At(s, ops, i), ops[i]).0
  {
    hide Apply;
  }

  /** Who decides the status. */
  lemma StatusAfter(s: ControlState, op: Op)
    ensures var (t, r) := Apply(s, op);
            && (op.Cancel? && r == Flag(true) <==> op.Cancel? && s.status == Active)
            && (op.FinishOnce? && r.Seal? && r.seal != AlreadyFinished <==> op.FinishOnce? && s.status != Sealed)
            && (op.Cancel? && s.status == Active ==> t.status == CancelledBy(op.source))
            && (op.FinishOnce? ==> t.status == Sealed)
            && (!op.FinishOnce? && !(op.Cancel? && s.status == Active) ==> t.status == s.status)
  {
    hide AnswerMatches, Settle;
  }

  /** At most one cancellation wins, only the first seal wins, and a seal ends both races. */
  lemma AtMostOneWinner(config: ExecutionConfig, ops: seq<Op>, i: nat, j: nat)
    requires LoopRun(config, ops) && i < j < |ops|
    ensures !(WinsCancel(config, ops, i) && WinsCancel(config, ops, j))
    ensures !(ops[i].FinishOnce? && WinsSeal(config, ops, j))
    ensures !(ops[i].FinishOnce? && WinsCancel(config, ops, j))
  {
    hide WinsCancel, WinsSeal, At, Apply, Inv, ConfigsGrow, InteractionsGrow, Initial;
    Decisions(config, ops, i);
    Decisions(config, ops, j);
    RunEvolves(config, ops, i + 1, j);
  }

  /** A cancellation by `source` won before position `at`. */
  predicate CancelledBefore(config: ExecutionConfig, log: seq<Op>, at: nat, source: CancelSource) {
    exists k | 0 <= k < |log| && k < at :: WinsCancel(config, log, k) && log[k] == Cancel(source)
  }

  /** The first seal always wins, and reports a cancellation exactly when that one won before it. */
  lemma SealReportsCancellation(config: ExecutionConfig, ops: seq<Op>, i: nat, source: CancelSource)
    requires LoopRun(config, ops) && i < |ops| && ops[i].FinishOnce?
    requires forall k | 0 <= k < i :: !ops[k].FinishOnce?
    ensures WinsSeal(config, ops, i)
    ensures (ResultOf(Initial(config), ops, i).seal == CancelledPrior(source)) == CancelledBefore(config, ops, i, source)
  {
    hide At, Apply, Initial, WinsCancel;
    CancellationTraced(config, ops, i, source);
    Decisions(config, ops, i);
    SealResult(At(Initial(config), ops, i), source);
  }

  lemma SealResult(s: ControlState, source: CancelSource)
    ensures var r := Apply(s, FinishOnce).1;
            r.Seal? && (r.seal == CancelledPrior(source) <==> s.status == CancelledBy(source))
  {
    hide Close;
  }

  lemma {:induction false} CancellationTraced(config: ExecutionConfig, ops: seq<Op>, i: nat, source: CancelSource)
    requires LoopRun(config, ops) && i <= |ops|
    requires forall k | 0 <= k < i :: !ops[k].FinishOnce?
    ensures var status := At(Initial(config), ops, i).status;
            && status != Sealed
            && (status == CancelledBy(source) <==> exists k | 0 <= k < i :: WinsCancel(config, ops, k) && ops[k] == Cancel(source))
    decreases i
  {
    hide WinsCancel, WinsSeal, Apply, LoopRun;
    if i > 0 {
      CancellationTraced(config, ops, i - 1, source);
      Decisions(config, ops, i - 1);
      if WinsCancel(config, ops, i - 1) {
        forall k | 0 <= k < i - 1 ensures !WinsCancel(config, ops, k) {
          AtMostOneWinner(config, ops, k, i - 1);
        }
      }
    }
  }

  /** Closing for the final seal does not decide the race: a later cancellation wins exactly as before. */
  lemma BeginFinalLeavesTheRace(s: ControlState, source: CancelSource)
    ensures var closed := Apply(s, BeginFinal).0;
            && Apply(closed, Cancel(source)).1 == Apply(s, Cancel(source)).1
            && (s.status == Active ==>
                  Apply(Apply(closed, Cancel(source)).0, FinishOnce).1 == Seal(CancelledPrior(source), None))
  {
  }

  lemma InactiveRefuses(s: ControlState, op: Op)
    requires s.status != Active && (op.Update? || op.Answer?)
    ensures Apply(s, op) == (s, NotActive)
  {
  }

  /** Every update or answer after a winning cancellation or a seal is `NotActive`. */
  lemma NothingAcceptedAfterwards(config: ExecutionConfig, ops: seq<Op>, i: nat, j: nat)
    requires LoopRun(config, ops) && i < j < |ops|
    requires WinsCancel(config, ops, i) || ops[i].FinishOnce?
    requires ops[j].Update? || ops[j].Answer?
    ensures ResultOf(Initial(config), ops, j) == NotActive
  {
    hide WinsCancel, WinsSeal, At, Apply, Inv, ConfigsGrow, InteractionsGrow, Initial;
    Decisions(config, ops, i);
    RunEvolves(config, ops, i + 1, j);
    InactiveRefuses(At(Initial(config), ops, j), ops[j]);
  }

  predicate HandsOut(config: ExecutionConfig, ops: seq<Op>, i: nat)
    requires i < |ops|
  {
    ops[i].Update? && ResultOf(Initial(config), ops, i).Handed?
  }

  /** Handed-out revisions grow in acceptance order, strictly exactly until the counter saturates. */
  lemma RevisionsIncrease(config: ExecutionConfig, ops: seq<Op>, i: nat, j: nat)
    requires LoopRun(config, ops) && i < j < |ops|
    requires HandsOut(config, ops, i) && HandsOut(config, ops, j)
    ensures var first := ResultOf(Initial(config), ops, i).revision;
            var second := ResultOf(Initial(config), ops, j).revision;
            1 <= first <= second && (first < second <==> first < U64_MAX)
  {
    hide At, Apply, ResultOf, Inv, StatusGrows, InteractionsGrow, HandsOut, Initial, Evolves;
    HandedFacts(config, ops, i);
    HandedFacts(config, ops, j);
    RunEvolves(config, ops, i + 1, j);
    AcceptedGrow(At(Initial(config), ops, i + 1), At(Initial(config), ops, j));
  }

  lemma AcceptedGrow(s: ControlState, t: ControlState)
    requires Evolves(s, t)
    ensures s.accepted <= t.accepted
  {
  }

  /** An accepted update is handed the revision of its place in acceptance order. */
  lemma HandedFacts(config: ExecutionConfig, ops: seq<Op>, i: nat)
    requires LoopRun(config, ops) && i < |ops| && HandsOut(config, ops, i)
    ensures var before := At(Initial(config), ops, i).accepted;
            && |before| >= 1
            && ResultOf(Initial(config), ops, i).revision == RevisionOf(|before|)
            && At(Initial(config), ops, i + 1).accepted == before + [ops[i].config]
  {
    RunEvolves(config, ops, i, i);
    hide Initial, Evolves, StatusInv, SlotInv, Settle;
  }

  /** `take_config` hands over the latest accepted config, unchanged, under its own revision. */
  lemma TakeYieldsLatest(config: ExecutionConfig, ops: seq<Op>, i: nat)
    requires LoopRun(config, ops) && i < |ops| && ops[i].TakeConfig?
    ensures var s := At(Initial(config), ops, i);
            var r := ResultOf(Initial(config), ops, i);
            r.Config? && (r.pending.Some? ==>
              && s.taken < |s.accepted| - 1
              && r.pending.value == PendingConfig(RevisionOf(|s.accepted| - 1), s.accepted[|s.accepted| - 1]))
  {
    hide At, Apply, Evolves, StatusInv, SlotInv, Initial;
    RunEvolves(config, ops, i, i);
    TakeStep(At(Initial(config), ops, i));
  }

  /**
   * All but the latest accepted config are taken or replaced, the latest is
   * taken, discarded or pending, and nothing stays pending once closed.
   */
  predicate FatesSettled(t: ControlState) {
    var last := |t.accepted| - 1;
    && |t.fates| == |t.accepted| >= 1
    && (forall k | 0 <= k < last :: t.fates[k] in {Taken, Replaced})
    && t.fates[last] in {Taken, Discarded, StillPending}
    && (t.fates[last] == StillPending <==> t.pending.Some?)
    && (t.fates[last] == Discarded ==> !t.accepting)
    && (t.status == Sealed || !t.accepting ==> t.pending.None?)
    && t.taken <= last && t.fates[t.taken] == Taken
    && (forall k | t.taken < k <= last :: t.fates[k] != Taken)
  }

  lemma InvSettlesFates(t: ControlState)
    requires Inv(t)
    ensures FatesSettled(t)
  {
    hide SlotInv;
  }

  /** The fate of every accepted config after any run; a settled fate never changes. */
  lemma EveryConfigSettles(config: ExecutionConfig, ops: seq<Op>, i: nat)
    requires LoopRun(config, ops) && i <= |ops|
    ensures FatesSettled(At(Initial(config), ops, |ops|))
    ensures ConfigsGrow(At(Initial(config), ops, i), At(Initial(config), ops, |ops|))
  {
    hide At, Apply, Initial, Inv, ConfigsGrow, StatusGrows, InteractionsGrow, FatesSettled;
    RunEvolves(config, ops, i, |ops|);
    InvSettlesFates(At(Initial(config), ops, |ops|));
  }

  predicate AcceptsAnswer(config: ExecutionConfig, ops: seq<Op>, i: nat)
    requires i < |ops| && ops[i].Answer?
  {
    ResultOf(Initial(config), ops, i) == Done
  }

  /** Each interaction accepts at most one answer, and only one that fits its question. */
  lemma OneAnswerPerInteraction(config: ExecutionConfig, ops: seq<Op>, i: nat)
    requires LoopRun(config, ops) && i < |ops| && ops[i].Answer? && AcceptsAnswer(config, ops, i)
    ensures var s := At(Initial(config), ops, i);
            ops[i].id in s.asked && AnswerMatches(ops[i].answer, s.asked[ops[i].id])
    ensures forall j | i < j < |ops| && ops[j].Answer? && AcceptsAnswer(config, ops, j) :: ops[j].id != ops[i].id
  {
    hide At, Apply, ResultOf, ConfigInv, StatusInv, ConfigsGrow, StatusGrows, AcceptsAnswer, Initial, AnswerMatches;
    RunEvolves(config, ops, i, i);
    AnswerFacts(config, ops, i);
    forall j | i < j < |ops| && ops[j].Answer? && AcceptsAnswer(config, ops, j) ensures ops[j].id != ops[i].id {
      RunEvolves(config, ops, i + 1, j);
      AnswerFacts(config, ops, j);
    }
  }

  /** An accepted answer goes to the open slot it names, and closes it. */
  lemma AnswerFacts(config: ExecutionConfig, ops: seq<Op>, i: nat)
    requires i < |ops| && ops[i].Answer? && AcceptsAnswer(config, ops, i)
    ensures var s := At(Initial(config), ops, i);
            var t := At(Initial(config), ops, i + 1);
            && s.slot.Some? && s.slot.value.id == ops[i].id && AnswerMatches(ops[i].answer, s.slot.value.expected)
            && t == s.(slot := None, replies := s.replies[ops[i].id := ops[i].answer])
  {
    hide Initial, AnswerMatches, Accept, Close, Settle;
  }
}
