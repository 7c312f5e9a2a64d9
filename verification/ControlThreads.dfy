/**
 * The control plane at the granularity of its shared accesses
 * (src/agent_loop/control.rs:148-358): compare-and-swaps and loads of the
 * atomic status byte, the mutex around the plain fields, and the separate
 * cancellation token. Any number of threads run in any interleaving; the
 * machine is proved linearizable to the sequential object of `ControlSpec`.
 */
module ControlThreads {
  import opened Common
  import opened Interactions
  import opened ControlSpec

  /**
   * Where a call is. `Second` is between the two CASes of `finish_once`;
   * `Effect` is past the atomic point, with plain fields still to write. A
   * result carries the log position where the call took effect.
   */
  datatype Stage =
    | Entry
    | Locking
    | Held
    | Checked
    | Second(source: CancelSource)
    | Effect(res: Res, at: nat)
    | Unlocking(res: Res, at: nat)
    | RaisingToken(at: nat)
    | Returned(res: Res, at: nat)

  /** `since` is the log length at the invocation. */
  datatype Thread = Idle | Running(op: Op, since: nat, stage: Stage)

  /** A completed call; `until` is the log length when it returned. */
  datatype Call = Call(op: Op, since: nat, res: Res, at: nat, until: nat)

  /** The shared memory and the threads, then bookkeeping: the order of effect, and the completed calls. */
  datatype Machine = Machine(
    state: ControlState,
    owner: Option<nat>,
    threads: seq<Thread>,
    log: seq<Op>,
    calls: seq<Call>)

  /** A thread invokes an operation, or takes its next shared access. */
  datatype Move = Invoke(thread: nat, op: Op) | Go(thread: nat)

  function Boot(config: ExecutionConfig, n: nat): Machine {
    Machine(Initial(config), None, seq(n, _ => Idle), [], [])
  }

  function At(m: Machine, t: nat, stage: Stage): Machine
    requires t < |m.threads| && m.threads[t].Running?
  {
    m.(threads := m.threads[t := m.threads[t].(stage := stage)])
  }

  /** `op` takes effect now. */
  function Linearize(m: Machine, op: Op): Machine {
    m.(log := m.log + [op])
  }

  predicate TakesLock(op: Op) {
    !op.Cancel? && !op.RaiseToken? && !op.IsFinished?
  }

  /** One mutex-protected access without atomics: the whole operation under the lock. */
  predicate PlainOp(op: Op) {
    TakesLock(op) && !op.Update? && !op.Answer? && !op.FinishOnce?
  }

  /** The plain writes that an operation at `Effect` still has to make. */
  function WriteBack(s: ControlState, op: Op): ControlState {
    match op
    case Update(config, _) => Accept(s, config)
    case Answer(id, answer) => s.(slot := None, replies := s.replies[id := answer])
    case FinishOnce => Close(s)
    case _ => s
  }

  /** The next shared access of thread `t`; a blocked thread stutters. */
  function StepEntry(m: Machine, t: nat): Machine
    requires t < |m.threads| && m.threads[t].Running?
  {
    var op := m.threads[t].op;
    var k := |m.log|;
    match op
    case Cancel(source) =>
      if m.state.status == Active then
        At(Linearize(m.(state := m.state.(status := CancelledBy(source), winner := Some(source))), op), t, RaisingToken(k))
      else At(Linearize(m, op), t, Returned(Flag(false), k))
    case RaiseToken => At(Linearize(m.(state := m.state.(token := true)), op), t, Returned(Done, k))
    case IsFinished => At(Linearize(m, op), t, Returned(Flag(m.state.status == Sealed), k))
    case Update(_, fits) =>
      if m.state.status != Active then At(Linearize(m, op), t, Returned(NotActive, k))
      else if !fits then At(Linearize(m, op), t, Returned(InvalidConfig, k))
      else At(m, t, Locking)
    case _ => At(m, t, Locking)
  }

  function StepHeld(m: Machine, t: nat): Machine
    requires t < |m.threads| && m.threads[t].Running?
  {
    var op := m.threads[t].op;
    var k := |m.log|;
    match op
    case Update(_, _) =>
      if !m.state.accepting then At(Linearize(m, op), t, Unlocking(NotActive, k)) else At(m, t, Checked)
    case Answer(_, _) =>
      if !m.state.accepting then At(Linearize(m, op), t, Unlocking(NotActive, k)) else At(m, t, Checked)
    case FinishOnce =>
      (match m.state.status
       case Active =>
         At(Linearize(m.(state := m.state.(status := Sealed)), op), t, Effect(Seal(Clean, m.state.pending), k))
       case CancelledBy(source) => At(m, t, Second(source))
       case Sealed => At(Linearize(m, op), t, Effect(Seal(AlreadyFinished, m.state.pending), k)))
    case _ =>
      if !Fresh(m.state, op) then m
      else
        var (next, res) := Apply(m.state, op);
        At(Linearize(m.(state := next), op), t, Unlocking(res, k))
  }

  function StepChecked(m: Machine, t: nat): Machine
    requires t < |m.threads| && m.threads[t].Running?
  {
    var op := m.threads[t].op;
    var k := |m.log|;
    if m.state.status != Active then At(Linearize(m, op), t, Unlocking(NotActive, k))
    else
      match op
      case Update(_, _) => At(Linearize(m, op), t, Effect(Handed(m.state.next), k))
      case Answer(id, answer) =>
        if m.state.slot.None? then At(Linearize(m, op), t, Unlocking(InteractionNotFound, k))
        else if m.state.slot.value.id != id || !AnswerMatches(answer, m.state.slot.value.expected) then
          At(Linearize(m, op), t, Unlocking(WrongInteraction, k))
        else At(Linearize(m, op), t, Effect(Done, k))
      case _ => m
  }

  function Step(m: Machine, t: nat): Machine
    requires t < |m.threads|
  {
    var th := m.threads[t];
    if th.Idle? then m
    else match th.stage
      case Entry => StepEntry(m, t)
      case Locking => if m.owner.None? then At(m.(owner := Some(t)), t, Held) else m
      case Held => StepHeld(m, t)
      case Checked => StepChecked(m, t)
      case Second(source) =>
        // The second CAS; its result is ignored by the source.
        var s := if m.state.status == CancelledBy(source) then m.state.(status := Sealed) else m.state;
        At(Linearize(m.(state := s), th.op), t, Effect(Seal(CancelledPrior(source), s.pending), |m.log|))
      case Effect(res, at) => At(m.(state := WriteBack(m.state, th.op)), t, Unlocking(res, at))
      case Unlocking(res, at) => At(m.(owner := None), t, Returned(res, at))
      case RaisingToken(at) => At(Linearize(m.(state := m.state.(token := true)), RaiseToken), t, Returned(Flag(true), at))
      case Returned(res, at) =>
        m.(threads := m.threads[t := Idle], calls := m.calls + [Call(th.op, th.since, res, at, |m.log|)])
  }

  /** The runner raises the token itself only after its own `finish_once` has returned. */
  predicate MayInvoke(m: Machine, t: nat, op: Op) {
    t < |m.threads| && m.threads[t].Idle? && (op.RaiseToken? ==> m.state.status == Sealed)
  }

  function Perform(m: Machine, move: Move): Machine {
    match move
    case Invoke(t, op) =>
      if MayInvoke(m, t, op) then m.(threads := m.threads[t := Running(op, |m.log|, Entry)]) else m
    case Go(t) => if t < |m.threads| then Step(m, t) else m
  }

  function Execute(config: ExecutionConfig, n: nat, moves: seq<Move>): Machine {
    if moves == [] then Boot(config, n)
    else Perform(Execute(config, n, moves[..|moves| - 1]), moves[|moves| - 1])
  }

  // ---- Abstraction ---------------------------------------------------------------

  predicate InCritical(th: Thread) {
    th.Running? && (th.stage.Held? || th.stage.Checked? || th.stage.Second? || th.stage.Effect? || th.stage.Unlocking?)
  }

  /** The sequential state the machine stands for: pending plain writes count as done. */
  function Abs(m: Machine): ControlState {
    if m.owner.Some? && m.owner.value < |m.threads| && m.threads[m.owner.value].Running?
       && m.threads[m.owner.value].stage.Effect?
    then WriteBack(m.state, m.threads[m.owner.value].op)
    else m.state
  }

  /** `op` took effect at log position `k` with result `res`. */
  ghost predicate TookEffect(config: ExecutionConfig, log: seq<Op>, op: Op, since: nat, res: Res, k: nat) {
    since <= k < |log| && log[k] == op && ResultOf(Initial(config), log, k) == res
  }

  /** The result a stage carries, and where in the log it was decided. */
  function Decided(stage: Stage): Option<(Res, nat)> {
    match stage
    case Effect(res, at) => Some((res, at))
    case Unlocking(res, at) => Some((res, at))
    case RaisingToken(at) => Some((Flag(true), at))
    case Returned(res, at) => Some((res, at))
    case _ => None
  }

  /** What the stage of a running call says about the shared state. */
  predicate StageOk(s: ControlState, op: Op, stage: Stage) {
    match stage
    case Entry => op.RaiseToken? ==> s.status == Sealed
    case Locking => TakesLock(op) && (op.Update? ==> op.fits)
    case Held => TakesLock(op) && (op.Update? ==> op.fits)
    case Checked => (op.Answer? || (op.Update? && op.fits)) && s.accepting
    case Second(source) => op.FinishOnce? && s.status == CancelledBy(source)
    case RaisingToken(_) => op.Cancel? && s.status != Active
    case _ => true
  }

  predicate LockOk(m: Machine) {
    forall t | 0 <= t < |m.threads| :: InCritical(m.threads[t]) <==> m.owner == Some(t)
  }

  predicate StagesOk(m: Machine) {
    forall t | 0 <= t < |m.threads| && m.threads[t].Running? :: StageOk(m.state, m.threads[t].op, m.threads[t].stage)
  }

  /** Every decided call took effect, with its result, after it was invoked. */
  ghost predicate CallsOk(config: ExecutionConfig, m: Machine) {
    && (forall t | 0 <= t < |m.threads| && m.threads[t].Running? :: CallOk(config, m.log, m.threads[t]))
    && (forall i | 0 <= i < |m.calls| :: CompletedOk(config, m.log, m.calls[i]))
  }

  ghost predicate CompletedOk(config: ExecutionConfig, log: seq<Op>, c: Call) {
    c.at < c.until <= |log| && TookEffect(config, log, c.op, c.since, c.res, c.at)
  }

  function PositionOf(th: Thread): Option<nat> {
    if th.Running? && Decided(th.stage).Some? then Some(Decided(th.stage).value.1) else None
  }

  /** No two calls took effect at the same position. */
  predicate DistinctOk(m: Machine) {
    && (forall i, j | 0 <= i < j < |m.calls| :: m.calls[i].at != m.calls[j].at)
    && (forall t, i | 0 <= t < |m.threads| && 0 <= i < |m.calls| :: PositionOf(m.threads[t]) != Some(m.calls[i].at))
    && (forall t, u | 0 <= t < u < |m.threads| && PositionOf(m.threads[t]).Some? ::
          PositionOf(m.threads[t]) != PositionOf(m.threads[u]))
  }

  ghost predicate CallOk(config: ExecutionConfig, log: seq<Op>, th: Thread)
    requires th.Running?
  {
    && th.since <= |log|
    && var d := Decided(th.stage);
       d.Some? ==> TookEffect(config, log, th.op, th.since, d.value.0, d.value.1)
  }

  /** A call that took effect: completed, or still running. */
  datatype Author = Completed(index: nat) | Pending(thread: nat)

  /** What the author's call was, with which result, and where it took effect. */
  function EffectOf(m: Machine, who: Author): Option<(Op, Res, nat)> {
    match who
    case Completed(i) => if i < |m.calls| then Some((m.calls[i].op, m.calls[i].res, m.calls[i].at)) else None
    case Pending(t) =>
      if t < |m.threads| && m.threads[t].Running? && Decided(m.threads[t].stage).Some? then
        var d := Decided(m.threads[t].stage).value;
        Some((m.threads[t].op, d.0, d.1))
      else None
  }

  predicate WroteAt(m: Machine, who: Author, k: nat) {
    k < |m.log| && EffectOf(m, who).Some? && EffectOf(m, who).value.0 == m.log[k] && EffectOf(m, who).value.2 == k
  }

  /** Every operation of the log belongs to a call; only a cancellation logs a second one, its token. */
  ghost predicate Attributed(m: Machine) {
    forall k | 0 <= k < |m.log| && !m.log[k].RaiseToken? :: exists who :: WroteAt(m, who, k)
  }

  /** The log is a legal sequential run that ends in the abstract state. */
  ghost predicate Refines(config: ExecutionConfig, m: Machine) {
    LoopRun(config, m.log) && Abs(m) == ControlSpec.At(Initial(config), m.log, |m.log|)
  }

  ghost predicate MachineInv(config: ExecutionConfig, m: Machine) {
    LockOk(m) && StagesOk(m) && CallsOk(config, m) && DistinctOk(m) && Attributed(m) && Refines(config, m)
  }

  lemma EffectStays(config: ExecutionConfig, log: seq<Op>, next: Op, op: Op, since: nat, res: Res, k: nat)
    requires TookEffect(config, log, op, since, res, k)
    ensures TookEffect(config, log + [next], op, since, res, k)
  {
    hide Apply, Initial;
    AtPrefix(Initial(config), log, next, k);
  }

  // ---- One shared access ----------------------------------------------------------------

  /** The access is silent, or it is one atomic operation on the abstract state. */
  predicate Simulates(m: Machine, n: Machine) {
    || (n.log == m.log && Abs(n) == Abs(m))
    || (|n.log| > 0 && n.log == m.log + [n.log[|n.log| - 1]]
        && var op := n.log[|n.log| - 1]; Fresh(Abs(m), op) && Abs(n) == Apply(Abs(m), op).0)
  }

  /** A result is decided by the operation the access logs, and never changes afterwards. */
  predicate Decides(m: Machine, n: Machine, op: Op, before: Stage, after: Stage) {
    var d := Decided(after);
    if Decided(before).Some? then d == Decided(before) && n.log in {m.log, m.log + [RaiseToken]}
    else if d.Some? then n.log == m.log + [op] && d.value == (Apply(Abs(m), op).1, |m.log|)
    else n.log == m.log
  }

  /**
   * What the other threads can rely on: the status only leaves `Active` and
   * only the lock owner seals or writes the plain fields.
   */
  predicate Frame(m: Machine, n: Machine, t: nat) {
    && (m.state.status != Active ==> n.state.status in {m.state.status, Sealed})
    && (m.owner in {None, Some(t)} ==> n.owner in {None, Some(t)})
    && (m.owner !in {None, Some(t)} ==>
          && n.owner == m.owner && n.state.accepting == m.state.accepting
          && (m.state.status != Active ==> n.state.status == m.state.status))
  }

  predicate GoodStep(m: Machine, n: Machine, t: nat)
    requires t < |m.threads| && m.threads[t].Running?
  {
    var th := m.threads[t];
    && |n.threads| == |m.threads| && n.threads[t].Running?
    && n.threads == m.threads[t := th.(stage := n.threads[t].stage)] && n.calls == m.calls
    && Simulates(m, n) && Frame(m, n, t)
    && Decides(m, n, th.op, th.stage, n.threads[t].stage)
    && StageOk(n.state, th.op, n.threads[t].stage)
    && (InCritical(n.threads[t]) <==> n.owner == Some(t))
  }

  /** A call in the right state for its stage, holding the lock exactly when critical. */
  predicate Ready(m: Machine, t: nat) {
    && t < |m.threads| && m.threads[t].Running?
    && StageOk(m.state, m.threads[t].op, m.threads[t].stage)
    && (InCritical(m.threads[t]) <==> m.owner == Some(t))
  }

  /** Pending plain writes do not depend on the status or the token. */
  lemma WriteBackCommutes(s: ControlState, op: Op, status: Status, winner: Option<CancelSource>, token: bool)
    ensures var u := WriteBack(s.(status := status, winner := winner, token := token), op);
            u == WriteBack(s, op).(status := status, winner := winner, token := token)
  {
  }

  /** The operation whose plain writes are outstanding. */
  function Writing(m: Machine): Option<Op> {
    if m.owner.Some? && m.owner.value < |m.threads| && m.threads[m.owner.value].Running?
       && m.threads[m.owner.value].stage.Effect?
    then Some(m.threads[m.owner.value].op)
    else None
  }

  /** A status or token write by `t` reads and writes the abstract state too. */
  lemma AtomicWrite(m: Machine, t: nat, s: ControlState, op: Op, stage: Stage)
    requires t < |m.threads| && m.threads[t].Running? && !InCritical(m.threads[t]) && m.owner != Some(t) && !stage.Effect?
    requires s == m.state.(status := s.status, winner := s.winner, token := s.token)
    ensures Abs(At(Linearize(m.(state := s), op), t, stage)) == Abs(m).(status := s.status, winner := s.winner, token := s.token)
    ensures Abs(m).status == m.state.status && Abs(m).winner == m.state.winner && Abs(m).token == m.state.token
  {
    if Writing(m).Some? {
      WriteBackCommutes(m.state, Writing(m).value, s.status, s.winner, s.token);
      WriteBackCommutes(m.state, Writing(m).value, m.state.status, m.state.winner, m.state.token);
      assert m.state.(status := m.state.status) == m.state;
    }
    hide WriteBack;
  }

  lemma EntryIsGood(m: Machine, t: nat)
    requires Ready(m, t) && m.threads[t].stage == Entry
    ensures GoodStep(m, StepEntry(m, t), t)
  {
    match m.threads[t].op {
      case Cancel(_) => EntryStatusIsGood(m, t);
      case RaiseToken => EntryStatusIsGood(m, t);
      case IsFinished => EntryReadIsGood(m, t);
      case Update(_, _) => EntryReadIsGood(m, t);
      case _ => EntryLocksIsGood(m, t);
    }
    hide StepEntry, GoodStep;
  }

  lemma EntryStatusIsGood(m: Machine, t: nat)
    requires Ready(m, t) && m.threads[t].stage == Entry && (m.threads[t].op.Cancel? || m.threads[t].op.RaiseToken?)
    ensures GoodStep(m, StepEntry(m, t), t)
  {
    var n := StepEntry(m, t);
    AtomicWrite(m, t, n.state, m.threads[t].op, n.threads[t].stage);
    hide Accept, Close, AnswerMatches, WriteBack, Abs;
  }

  lemma EntryReadIsGood(m: Machine, t: nat)
    requires Ready(m, t) && m.threads[t].stage == Entry && (m.threads[t].op.IsFinished? || m.threads[t].op.Update?)
    ensures GoodStep(m, StepEntry(m, t), t)
  {
    var n := StepEntry(m, t);
    AtomicWrite(m, t, n.state, m.threads[t].op, n.threads[t].stage);
    hide Accept, Close, AnswerMatches, WriteBack;
  }

  lemma EntryLocksIsGood(m: Machine, t: nat)
    requires Ready(m, t) && m.threads[t].stage == Entry
    requires TakesLock(m.threads[t].op) && !m.threads[t].op.Update?
    ensures GoodStep(m, StepEntry(m, t), t)
  {
    hide Accept, Close, AnswerMatches, WriteBack, Apply;
  }

  lemma PlainKeepsStatus(s: ControlState, op: Op)
    requires PlainOp(op)
    ensures Apply(s, op).0.status == s.status
  {
  }

  lemma HeldPlainIsGood(m: Machine, t: nat)
    requires Ready(m, t) && m.threads[t].stage == Held && PlainOp(m.threads[t].op)
    ensures GoodStep(m, StepHeld(m, t), t)
  {
    hide Apply, Fresh;
    PlainKeepsStatus(m.state, m.threads[t].op);
  }

  lemma HeldIsGood(m: Machine, t: nat)
    requires Ready(m, t) && m.threads[t].stage == Held
    ensures GoodStep(m, StepHeld(m, t), t)
  {
    if PlainOp(m.threads[t].op) {
      HeldPlainIsGood(m, t);
    } else {
      HeldLockedIsGood(m, t);
    }
    hide StepHeld, GoodStep;
  }

  lemma HeldLockedIsGood(m: Machine, t: nat)
    requires Ready(m, t) && m.threads[t].stage == Held && !PlainOp(m.threads[t].op)
    ensures GoodStep(m, StepHeld(m, t), t)
  {
    hide Accept, AnswerMatches;
  }

  lemma CheckedIsGood(m: Machine, t: nat)
    requires Ready(m, t) && m.threads[t].stage == Checked
    ensures GoodStep(m, StepChecked(m, t), t)
  {
    hide Accept, Close, AnswerMatches;
  }

  lemma RestIsGood(m: Machine, t: nat)
    requires Ready(m, t)
    requires m.threads[t].stage.Locking? || m.threads[t].stage.Second? || m.threads[t].stage.Effect?
          || m.threads[t].stage.Unlocking? || m.threads[t].stage.RaisingToken?
    ensures GoodStep(m, Step(m, t), t)
  {
    if m.threads[t].stage.RaisingToken? {
      var n := Step(m, t);
      AtomicWrite(m, t, n.state, RaiseToken, n.threads[t].stage);
    }
    hide Accept, AnswerMatches;
  }

  // ---- Every reachable machine ---------------------------------------------------------------

  lemma GoodKeepsLock(m: Machine, n: Machine, t: nat)
    requires t < |m.threads| && m.threads[t].Running? && GoodStep(m, n, t)
    requires LockOk(m) && StagesOk(m)
    ensures LockOk(n) && StagesOk(n)
  {
    hide Abs, Simulates, Decides;
    forall u | 0 <= u < |n.threads| && u != t
      ensures n.threads[u] == m.threads[u]
      ensures InCritical(n.threads[u]) <==> n.owner == Some(u)
      ensures n.threads[u].Running? ==> StageOk(n.state, n.threads[u].op, n.threads[u].stage)
    {
      assert InCritical(m.threads[u]) <==> m.owner == Some(u);
    }
  }

  /** The log grows by at most one operation, and the abstract state follows it. */
  lemma GoodKeepsRefines(config: ExecutionConfig, m: Machine, n: Machine, t: nat)
    requires t < |m.threads| && m.threads[t].Running? && GoodStep(m, n, t)
    requires Refines(config, m)
    ensures Refines(config, n)
    ensures n.log == m.log || exists op :: n.log == m.log + [op]
    ensures n.log != m.log ==>
      |n.log| == |m.log| + 1 && ResultOf(Initial(config), n.log, |m.log|) == Apply(Abs(m), n.log[|m.log|]).1
  {
    hide Abs, Apply, Initial, Decides, Frame, StageOk, InCritical, LoopRun, Fresh;
    if n.log != m.log {
      LogGrows(config, m.log, n.log[|m.log|]);
    }
  }

  lemma GoodKeepsCalls(config: ExecutionConfig, m: Machine, n: Machine, t: nat)
    requires t < |m.threads| && m.threads[t].Running? && GoodStep(m, n, t)
    requires Refines(config, m) && CallsOk(config, m)
    ensures CallsOk(config, n)
  {
    hide Abs, Apply, Initial, Frame, StageOk, InCritical, LoopRun, Fresh, Refines, Simulates, ResultOf;
    GoodKeepsRefines(config, m, n, t);
    forall op, since, res, k | TookEffect(config, m.log, op, since, res, k)
      ensures TookEffect(config, n.log, op, since, res, k)
    {
      if n.log != m.log {
        EffectStays(config, m.log, n.log[|m.log|], op, since, res, k);
      }
    }
    assert CallOk(config, m.log, m.threads[t]);
    forall u | 0 <= u < |n.threads| && n.threads[u].Running? ensures CallOk(config, n.log, n.threads[u]) {
      if u != t {
        assert CallOk(config, m.log, m.threads[u]);
      }
    }
    forall i | 0 <= i < |n.calls| ensures CompletedOk(config, n.log, n.calls[i]) {
      assert CompletedOk(config, m.log, m.calls[i]);
    }
  }

  lemma GoodKeepsDistinct(config: ExecutionConfig, m: Machine, n: Machine, t: nat)
    requires t < |m.threads| && m.threads[t].Running? && GoodStep(m, n, t)
    requires CallsOk(config, m) && DistinctOk(m)
    ensures DistinctOk(n)
  {
    hide Abs, Apply, Initial, Frame, StageOk, InCritical, Simulates, ResultOf, Decided;
    assert PositionOf(n.threads[t]) == PositionOf(m.threads[t]) || PositionOf(n.threads[t]) in {None, Some(|m.log|)};
    forall u | 0 <= u < |m.threads| && PositionOf(m.threads[u]).Some? ensures PositionOf(m.threads[u]).value < |m.log| {
      assert CallOk(config, m.log, m.threads[u]);
    }
    forall i | 0 <= i < |m.calls| ensures m.calls[i].at < |m.log| {
      assert CompletedOk(config, m.log, m.calls[i]);
    }
  }

  lemma {:induction false} GoodKeepsAttributed(m: Machine, n: Machine, t: nat)
    requires t < |m.threads| && m.threads[t].Running? && GoodStep(m, n, t)
    requires Attributed(m)
    ensures Attributed(n)
  {
    hide Abs, Apply, Initial, Frame, StageOk, InCritical, Simulates, ResultOf, Decided;
    forall k | 0 <= k < |n.log| && !n.log[k].RaiseToken? ensures exists who :: WroteAt(n, who, k) {
      if k < |m.log| {
        assert n.log[k] == m.log[k];
        var who :| WroteAt(m, who, k);
        assert WroteAt(n, who, k);
      } else {
        assert WroteAt(n, Pending(t), k);
      }
    }
  }

  /** A returning call keeps what it wrote. */
  lemma {:induction false} ReturnKeepsAttributed(m: Machine, n: Machine, t: nat)
    requires t < |m.threads| && m.threads[t].Running? && Decided(m.threads[t].stage).Some?
    requires var d := Decided(m.threads[t].stage).value;
             n.calls == m.calls + [Call(m.threads[t].op, m.threads[t].since, d.0, d.1, |m.log|)]
    requires n.threads == m.threads[t := Idle] && n.log == m.log
    requires Attributed(m)
    ensures Attributed(n)
  {
    hide Decided;
    forall k | 0 <= k < |n.log| && !n.log[k].RaiseToken? ensures exists who :: WroteAt(n, who, k) {
      var who :| WroteAt(m, who, k);
      assert WroteAt(n, if who == Pending(t) then Completed(|m.calls|) else who, k);
    }
  }

  lemma {:induction false} InvokeKeepsAttributed(m: Machine, n: Machine, t: nat, op: Op)
    requires t < |m.threads| && m.threads[t].Idle?
    requires n == m.(threads := m.threads[t := Running(op, |m.log|, Entry)])
    requires Attributed(m)
    ensures Attributed(n)
  {
    forall k | 0 <= k < |n.log| && !n.log[k].RaiseToken? ensures exists who :: WroteAt(n, who, k) {
      var who :| WroteAt(m, who, k);
      assert WroteAt(n, who, k);
    }
  }

  lemma StepIsGood(m: Machine, t: nat)
    requires Ready(m, t) && !m.threads[t].stage.Returned?
    requires Step(m, t) != m
    ensures GoodStep(m, Step(m, t), t)
  {
    match m.threads[t].stage {
      case Entry => EntryIsGood(m, t);
      case Held => HeldIsGood(m, t);
      case Checked => CheckedIsGood(m, t);
      case _ => RestIsGood(m, t);
    }
    hide GoodStep, Ready, StepEntry, StepHeld, StepChecked;
  }

  /** Invocations and returns touch nothing shared. */
  lemma InvokeKeepsInv(config: ExecutionConfig, m: Machine, t: nat, op: Op)
    requires MachineInv(config, m)
    ensures MachineInv(config, Perform(m, Invoke(t, op)))
  {
    hide Apply, Initial, ResultOf, LoopRun, WriteBack, TookEffect, Attributed;
    var n := Perform(m, Invoke(t, op));
    if n != m {
      InvokeKeepsAttributed(m, n, t, op);
      assert !InCritical(m.threads[t]) && !InCritical(n.threads[t]);
      assert forall u | 0 <= u < |m.threads| && u != t :: n.threads[u] == m.threads[u];
      assert Abs(n) == Abs(m);
    }
  }

  lemma ReturnKeepsInv(config: ExecutionConfig, m: Machine, t: nat)
    requires MachineInv(config, m) && t < |m.threads| && m.threads[t].Running? && m.threads[t].stage.Returned?
    ensures MachineInv(config, Perform(m, Go(t)))
  {
    hide Apply, Initial, ResultOf, LoopRun, WriteBack, Attributed;
    var n := Perform(m, Go(t));
    ReturnKeepsAttributed(m, n, t);
    assert CallOk(config, m.log, m.threads[t]);
    assert !InCritical(m.threads[t]) && !InCritical(n.threads[t]);
    assert n.owner == m.owner && n.state == m.state && n.log == m.log;
    assert forall u | 0 <= u < |m.threads| && u != t :: n.threads[u] == m.threads[u];
    assert Abs(n) == Abs(m);
    assert n.calls[..|m.calls|] == m.calls && CompletedOk(config, n.log, n.calls[|m.calls|]);
    assert PositionOf(m.threads[t]) == Some(n.calls[|m.calls|].at);
    hide TookEffect;
  }

  lemma PerformKeepsInv(config: ExecutionConfig, m: Machine, move: Move)
    requires MachineInv(config, m)
    ensures MachineInv(config, Perform(m, move))
  {
    hide LockOk, StagesOk, CallsOk, DistinctOk, Attributed, Refines, GoodStep;
    var t := move.thread;
    if move.Invoke? {
      InvokeKeepsInv(config, m, t, move.op);
    } else if t < |m.threads| && m.threads[t].Running? && m.threads[t].stage.Returned? {
      ReturnKeepsInv(config, m, t);
    } else if Perform(m, move) != m {
      ReadyInInv(config, m, t);
      var n := Step(m, t);
      StepIsGood(m, t);
      GoodKeepsLock(m, n, t);
      GoodKeepsRefines(config, m, n, t);
      GoodKeepsCalls(config, m, n, t);
      GoodKeepsDistinct(config, m, n, t);
      GoodKeepsAttributed(m, n, t);
    }
  }

  lemma ReadyInInv(config: ExecutionConfig, m: Machine, t: nat)
    requires MachineInv(config, m) && t < |m.threads| && m.threads[t].Running?
    ensures Ready(m, t)
  {
  }

  /**
   * Linearizability, for any number of threads and any interleaving: the log
   * is a legal run of the sequential object ending in the abstract state, and
   * every call took effect exactly where it says, between its invocation and
   * its return, with the result the sequential object gives there.
   */
  lemma {:induction false} Linearizable(config: ExecutionConfig, n: nat, moves: seq<Move>)
    ensures MachineInv(config, Execute(config, n, moves))
  {
    if moves == [] {
    } else {
      Linearizable(config, n, moves[..|moves| - 1]);
      PerformKeepsInv(config, Execute(config, n, moves[..|moves| - 1]), moves[|moves| - 1]);
      hide MachineInv, Perform;
    }
  }

  // ---- What callers observe -----------------------------------------------------------------------

  predicate CancelWon(c: Call) {
    c.op.Cancel? && c.res == Flag(true)
  }

  predicate SealWon(c: Call) {
    c.op.FinishOnce? && c.res.Seal? && c.res.seal != AlreadyFinished
  }

  /** A completed call is an operation of the log. */
  lemma CallInLog(config: ExecutionConfig, n: nat, moves: seq<Move>, i: nat)
    requires i < |Execute(config, n, moves).calls|
    ensures var m := Execute(config, n, moves);
            var c := m.calls[i];
            && LoopRun(config, m.log)
            && c.since <= c.at < c.until <= |m.log| && m.log[c.at] == c.op
            && ResultOf(Initial(config), m.log, c.at) == c.res
            && (CancelWon(c) <==> WinsCancel(config, m.log, c.at))
            && (SealWon(c) <==> WinsSeal(config, m.log, c.at))
  {
    Linearizable(config, n, moves);
    hide Execute, ResultOf, Initial, LoopRun, LockOk, StagesOk, DistinctOk;
    var m := Execute(config, n, moves);
    assert CompletedOk(config, m.log, m.calls[i]);
  }

  /** Of all completed calls, at most one cancellation and at most one seal win. */
  lemma OneCallWins(config: ExecutionConfig, n: nat, moves: seq<Move>, i: nat, j: nat)
    requires i < j < |Execute(config, n, moves).calls|
    ensures var c := Execute(config, n, moves).calls;
            && !(CancelWon(c[i]) && CancelWon(c[j]))
            && !(SealWon(c[i]) && SealWon(c[j]))
  {
    Linearizable(config, n, moves);
    CallInLog(config, n, moves, i);
    CallInLog(config, n, moves, j);
    var m := Execute(config, n, moves);
    assert m.calls[i].at != m.calls[j].at;
    hide Execute, ResultOf, Initial, WinsCancel, WinsSeal, LockOk, StagesOk, CallsOk, DistinctOk, Refines, LoopRun;
    if m.calls[i].at < m.calls[j].at {
      AtMostOneWinner(config, m.log, m.calls[i].at, m.calls[j].at);
    } else {
      AtMostOneWinner(config, m.log, m.calls[j].at, m.calls[i].at);
    }
  }

  /** A call, completed or still running, whose seal won. */
  predicate SealedBy(m: Machine, who: Author) {
    var e := EffectOf(m, who);
    e.Some? && e.value.0.FinishOnce? && e.value.1.Seal? && e.value.1.seal != AlreadyFinished
  }

  /** Where an author's call took effect, its result is the log's. */
  lemma AuthorInLog(config: ExecutionConfig, m: Machine, who: Author)
    requires MachineInv(config, m) && EffectOf(m, who).Some?
    ensures var (op, res, at) := EffectOf(m, who).value;
            at < |m.log| && m.log[at] == op && ResultOf(Initial(config), m.log, at) == res
  {
    hide Refines, LockOk, StagesOk, DistinctOk, Attributed, ResultOf, Decided;
    match who {
      case Completed(i) => assert CompletedOk(config, m.log, m.calls[i]);
      case Pending(t) => assert CallOk(config, m.log, m.threads[t]);
    }
  }

  /** Two authors never share a position. */
  lemma AuthorsDiffer(m: Machine, who: Author, other: Author)
    requires DistinctOk(m) && who != other && EffectOf(m, who).Some? && EffectOf(m, other).Some?
    ensures EffectOf(m, who).value.2 != EffectOf(m, other).value.2
  {
    hide Decided;
    if who.Pending? {
      assert PositionOf(m.threads[who.thread]) == Some(EffectOf(m, who).value.2);
    }
    if other.Pending? {
      assert PositionOf(m.threads[other.thread]) == Some(EffectOf(m, other).value.2);
    }
  }

  predicate IsFirstSeal(log: seq<Op>, k: nat) {
    k < |log| && log[k].FinishOnce? && forall i | 0 <= i < k :: !log[i].FinishOnce?
  }

  lemma {:induction false} FirstSeal(log: seq<Op>, k: nat)
    requires k < |log| && log[k].FinishOnce?
    ensures exists first :: IsFirstSeal(log, first)
    decreases k
  {
    if i :| 0 <= i < k && log[i].FinishOnce? {
      FirstSeal(log, i);
    } else {
      assert IsFirstSeal(log, k);
    }
  }

  lemma SealedMeansWins(config: ExecutionConfig, m: Machine, who: Author)
    requires MachineInv(config, m) && EffectOf(m, who).Some?
    ensures var at := EffectOf(m, who).value.2;
            at < |m.log| && (SealedBy(m, who) <==> WinsSeal(config, m.log, at))
  {
    AuthorInLog(config, m, who);
    hide MachineInv, ResultOf, EffectOf;
  }

  /** Once some `finish_once` has completed, exactly one call has won the seal. */
  lemma ExactlyOneSealWins(config: ExecutionConfig, n: nat, moves: seq<Move>, i: nat)
    requires i < |Execute(config, n, moves).calls| && Execute(config, n, moves).calls[i].op.FinishOnce?
    ensures var m := Execute(config, n, moves);
            exists who :: SealedBy(m, who) && forall other :: SealedBy(m, other) ==> other == who
  {
    var m := Execute(config, n, moves);
    Linearizable(config, n, moves);
    CallInLog(config, n, moves, i);
    FirstSeal(m.log, m.calls[i].at);
    var first :| IsFirstSeal(m.log, first);
    assert LoopRun(config, m.log);
    SealReportsCancellation(config, m.log, first, ByUser);
    var who :| WroteAt(m, who, first);
    hide Execute, LockOk, StagesOk, CallsOk, Refines, LoopRun, WinsSeal, ResultOf, Initial, DistinctOk, EffectOf, Attributed, CancelledBefore;
    SealedMeansWins(config, m, who);
    forall other | SealedBy(m, other) ensures other == who {
      SealedMeansWins(config, m, other);
      SealsAtFirst(config, m.log, first, EffectOf(m, other).value.2);
      if other != who {
        AuthorsDiffer(m, who, other);
      }
    }
  }

  /** A winning seal is the first one. */
  lemma SealsAtFirst(config: ExecutionConfig, log: seq<Op>, first: nat, at: nat)
    requires LoopRun(config, log) && IsFirstSeal(log, first) && at < |log| && WinsSeal(config, log, at)
    ensures at == first
  {
    hide LoopRun, ResultOf, Initial;
    if first < at {
      AtMostOneWinner(config, log, first, at);
    }
  }

  /**
   * Between the two CASes of `finish_once` the status is the marker the first
   * one read, so the second, whose result the source ignores, never fails.
   */
  lemma SecondCasSucceeds(config: ExecutionConfig, n: nat, moves: seq<Move>, t: nat)
    requires t < |Execute(config, n, moves).threads|
    requires var th := Execute(config, n, moves).threads[t]; th.Running? && th.stage.Second?
    ensures var m := Execute(config, n, moves);
            && m.state.status == CancelledBy(m.threads[t].stage.source)
            && Perform(m, Go(t)).state.status == Sealed
  {
    Linearizable(config, n, moves);
    hide Execute, Refines, CallsOk, DistinctOk, LockOk;
  }

  /** An update or answer invoked after a winning cancellation or any seal has returned is `NotActive`. */
  lemma NothingAfterwards(config: ExecutionConfig, n: nat, moves: seq<Move>, i: nat, j: nat)
    requires i < |Execute(config, n, moves).calls| && j < |Execute(config, n, moves).calls|
    requires var c := Execute(config, n, moves).calls;
             && (CancelWon(c[i]) || c[i].op.FinishOnce?)
             && c[i].until <= c[j].since && (c[j].op.Update? || c[j].op.Answer?)
    ensures Execute(config, n, moves).calls[j].res == NotActive
  {
    CallInLog(config, n, moves, i);
    CallInLog(config, n, moves, j);
    var m := Execute(config, n, moves);
    NothingAcceptedAfterwards(config, m.log, m.calls[i].at, m.calls[j].at);
  }

  /** The winning seal of a run reports a cancellation exactly when that cancellation took effect before it. */
  lemma WinningSealIsExact(config: ExecutionConfig, n: nat, moves: seq<Move>, i: nat, source: CancelSource)
    requires i < |Execute(config, n, moves).calls| && SealWon(Execute(config, n, moves).calls[i])
    ensures var m := Execute(config, n, moves);
            (m.calls[i].res.seal == CancelledPrior(source)) == CancelledBefore(config, m.log, m.calls[i].at, source)
  {
    CallInLog(config, n, moves, i);
    var m := Execute(config, n, moves);
    hide Execute, WinsSeal, WinsCancel;
    forall k | 0 <= k < m.calls[i].at ensures !m.log[k].FinishOnce? {
      AtMostOneWinner(config, m.log, k, m.calls[i].at);
    }
    SealReportsCancellation(config, m.log, m.calls[i].at, source);
  }

  /** Updates that do not overlap are handed increasing revisions, in the order their callers saw. */
  lemma RevisionsFollowRealTime(config: ExecutionConfig, n: nat, moves: seq<Move>, i: nat, j: nat)
    requires i < |Execute(config, n, moves).calls| && j < |Execute(config, n, moves).calls|
    requires var c := Execute(config, n, moves).calls;
             && c[i].op.Update? && c[j].op.Update? && c[i].res.Handed? && c[j].res.Handed?
             && c[i].until <= c[j].since
    ensures var first := Execute(config, n, moves).calls[i].res.revision;
            var second := Execute(config, n, moves).calls[j].res.revision;
            1 <= first <= second && (first < second <==> first < U64_MAX)
  {
    CallInLog(config, n, moves, i);
    CallInLog(config, n, moves, j);
    var m := Execute(config, n, moves);
    RevisionsIncrease(config, m.log, m.calls[i].at, m.calls[j].at);
  }
}
