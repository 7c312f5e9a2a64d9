/**
 * What the operations of src/agent_loop/control.rs answer, read off the list of
 * operations before them: when each of them succeeds, and with what.
 */
module ControlHistory {
  import opened Common
  import opened Interactions
  import opened ControlSpec

  // ---- Reading a list of operations --------------------------------------------------------

  /** Some cancellation or seal came before position `i`. */
  predicate Decided(ops: seq<Op>, i: nat)
    requires i <= |ops|
  {
    exists k | 0 <= k < i :: ops[k].Cancel? || ops[k].FinishOnce?
  }

  predicate SealedBefore(ops: seq<Op>, i: nat)
    requires i <= |ops|
  {
    exists k | 0 <= k < i :: ops[k].FinishOnce?
  }

  /** Acceptance was closed before position `i`. */
  predicate ClosedBefore(ops: seq<Op>, i: nat)
    requires i <= |ops|
  {
    exists k | 0 <= k < i :: ops[k].BeginFinal? || ops[k].FinishOnce?
  }

  /** A cancellation by `source` came first, and no seal since. */
  predicate CancelledFirst(ops: seq<Op>, i: nat, source: CancelSource)
    requires i <= |ops|
  {
    !SealedBefore(ops, i) && exists k | 0 <= k < i :: ops[k] == Cancel(source) && !Decided(ops, k)
  }

  /** The token is raised once the loop is decided. */
  predicate TokenRaised(ops: seq<Op>, i: nat)
    requires i <= |ops|
  {
    exists k | 0 <= k < i :: ops[k].RaiseToken? && Decided(ops, k)
  }

  /** Status, acceptance and token at `i`. */
  ghost predicate StatusAt(ops: seq<Op>, i: nat, status: Status, accepting: bool, token: bool)
    requires i <= |ops|
  {
    && (status == Active <==> !Decided(ops, i))
    && (status == Sealed <==> SealedBefore(ops, i))
    && (forall source :: status == CancelledBy(source) <==> CancelledFirst(ops, i, source))
    && (accepting <==> !ClosedBefore(ops, i))
    && (token <==> TokenRaised(ops, i))
  }

  /** An update whose config fits, before anything decided or closed the loop. */
  predicate Accepts(ops: seq<Op>, k: nat)
    requires k < |ops|
  {
    ops[k].Update? && ops[k].fits && !Decided(ops, k) && !ClosedBefore(ops, k)
  }

  function AcceptedUpdates(ops: seq<Op>, i: nat): set<nat>
    requires i <= |ops|
  {
    set k: nat | k < i && Accepts(ops, k)
  }

  /** The update at `k` is still pending at `i`: nothing took, replaced or discarded it. */
  predicate PendingSince(ops: seq<Op>, i: nat, k: nat)
    requires i <= |ops|
  {
    && k < i && Accepts(ops, k)
    && forall j: nat | k < j < i :: !ops[j].TakeConfig? && !ops[j].BeginFinal? && !ops[j].FinishOnce? && !Accepts(ops, j)
  }

  /** What is pending at `i`, as `pending` says. */
  ghost predicate PendingAt(ops: seq<Op>, i: nat, pending: Option<PendingConfig>)
    requires i <= |ops|
  {
    && (pending.Some? <==> exists k: nat :: PendingSince(ops, i, k))
    && (forall k: nat | PendingSince(ops, i, k) ::
          pending == Some(PendingConfig(Min(1 + |AcceptedUpdates(ops, k)|, U64_MAX), ops[k].config)))
  }

  /** The question put at `k` is still open at `i`: it was neither withdrawn nor answered. */
  ghost predicate OpenSince(config: ExecutionConfig, ops: seq<Op>, i: nat, k: nat)
    requires i <= |ops|
  {
    && k < i && ops[k].SetInteraction? && ResultOf(Initial(config), ops, k) == Done
    && forall j: nat | k < j < i :: !ops[j].TakeInteraction? && !(ops[j].Answer? && ResultOf(Initial(config), ops, j) == Done)
  }

  /** The open question at `i`, as `slot` says. */
  ghost predicate SlotAt(config: ExecutionConfig, ops: seq<Op>, i: nat, slot: Option<InteractionSlot>)
    requires i <= |ops|
  {
    && (slot.Some? <==> exists k: nat :: OpenSince(config, ops, i, k))
    && (forall k: nat | OpenSince(config, ops, i, k) :: slot == Some(ops[k].slot))
  }

  /** The revision committed last before `i`, or the initial one. */
  predicate CommittedAt(ops: seq<Op>, i: nat, revision: nat)
    requires i <= |ops|
  {
    && ((forall k: nat | k < i :: !ops[k].CommitRevision?) ==> revision == 0)
    && (forall k: nat | k < i && ops[k].CommitRevision? && (forall j: nat | k < j < i :: !ops[j].CommitRevision?) ::
          revision == ops[k].revision)
  }

  // ---- The state is what the operations made it ------------------------------------------------

  lemma {:induction false} StatusByHistory(config: ExecutionConfig, ops: seq<Op>, i: nat)
    requires i <= |ops|
    ensures var s := At(Initial(config), ops, i); StatusAt(ops, i, s.status, s.accepting, s.token)
  {
    hide StatusAt, Apply, Decided, SealedBefore, ClosedBefore, CancelledFirst, TokenRaised;
    if i == 0 {
      NothingDecided(ops);
    } else {
      hide Initial;
      StatusByHistory(config, ops, i - 1);
      StateAfter(Initial(config), ops, i - 1);
      var s := At(Initial(config), ops, i - 1);
      StatusMoves(s, ops[i - 1]);
      StatusStays(ops, i - 1, s.status, s.accepting, s.token);
    }
  }

  lemma NothingDecided(ops: seq<Op>)
    ensures StatusAt(ops, 0, Active, true, false)
  {
  }

  lemma StatusStays(ops: seq<Op>, i: nat, status: Status, accepting: bool, token: bool)
    requires i < |ops| && StatusAt(ops, i, status, accepting, token)
    ensures var op := ops[i];
            StatusAt(ops, i + 1,
                     if op.FinishOnce? then Sealed else if op.Cancel? && status == Active then CancelledBy(op.source) else status,
                     accepting && !op.FinishOnce? && !op.BeginFinal?,
                     token || (op.RaiseToken? && status != Active))
  {
    var n := i + 1;
    OneMore(ops, i, n);
    hide Decided, SealedBefore, ClosedBefore, CancelledFirst, TokenRaised;
  }

  lemma OneMore(ops: seq<Op>, i: nat, n: nat)
    requires i < |ops| && n == i + 1
    ensures Decided(ops, n) <==> Decided(ops, i) || ops[i].Cancel? || ops[i].FinishOnce?
    ensures SealedBefore(ops, n) <==> SealedBefore(ops, i) || ops[i].FinishOnce?
    ensures SealedBefore(ops, i) ==> Decided(ops, i)
    ensures ClosedBefore(ops, n) <==> ClosedBefore(ops, i) || ops[i].BeginFinal? || ops[i].FinishOnce?
    ensures TokenRaised(ops, n) <==> TokenRaised(ops, i) || (ops[i].RaiseToken? && Decided(ops, i))
    ensures forall source :: CancelledFirst(ops, n, source) <==>
              !ops[i].FinishOnce? && (CancelledFirst(ops, i, source) || (ops[i] == Cancel(source) && !Decided(ops, i)))
  {
    assert SealedBefore(ops, i) ==> Decided(ops, i);
    assert Decided(ops, n) <==> Decided(ops, i) || ops[i].Cancel? || ops[i].FinishOnce?;
    assert SealedBefore(ops, n) <==> SealedBefore(ops, i) || ops[i].FinishOnce?;
    hide Decided, SealedBefore;
    forall source: CancelSource
      ensures CancelledFirst(ops, n, source) <==>
                !ops[i].FinishOnce? && (CancelledFirst(ops, i, source) || (ops[i] == Cancel(source) && !Decided(ops, i)))
    {
      FirstStays(ops, i, source);
    }
    hide CancelledFirst;
  }

  lemma FirstStays(ops: seq<Op>, i: nat, source: CancelSource)
    requires i < |ops| && (SealedBefore(ops, i) ==> Decided(ops, i))
    requires SealedBefore(ops, i + 1) <==> SealedBefore(ops, i) || ops[i].FinishOnce?
    ensures CancelledFirst(ops, i + 1, source) <==>
              !ops[i].FinishOnce? && (CancelledFirst(ops, i, source) || (ops[i] == Cancel(source) && !Decided(ops, i)))
  {
    hide Decided, SealedBefore;
    if ops[i] == Cancel(source) && !Decided(ops, i) && !ops[i].FinishOnce? {
      assert CancelledFirst(ops, i + 1, source);
    }
  }

  /** What an operation does to status, token and acceptance. */
  lemma StatusMoves(s: ControlState, op: Op)
    ensures var t := Apply(s, op).0;
            && t.status == (if op.FinishOnce? then Sealed else if op.Cancel? && s.status == Active then CancelledBy(op.source) else s.status)
            && t.accepting == (s.accepting && !op.FinishOnce? && !op.BeginFinal?)
            && t.token == (s.token || (op.RaiseToken? && s.status != Active))
  {
    hide AnswerMatches, Settle;
  }

  lemma CountStep(ops: seq<Op>, i: nat)
    requires i < |ops|
    ensures |AcceptedUpdates(ops, i + 1)| == |AcceptedUpdates(ops, i)| + if Accepts(ops, i) then 1 else 0
  {
    hide Accepts;
    assert AcceptedUpdates(ops, i + 1) == if Accepts(ops, i) then AcceptedUpdates(ops, i) + {i} else AcceptedUpdates(ops, i);
  }

  lemma {:induction false} ConfigByHistory(config: ExecutionConfig, ops: seq<Op>, i: nat)
    requires i <= |ops|
    ensures var s := At(Initial(config), ops, i);
            && s.next == Min(1 + |AcceptedUpdates(ops, i)|, U64_MAX)
            && PendingAt(ops, i, s.pending)
            && CommittedAt(ops, i, s.current)
  {
    hide Apply, PendingAt, CommittedAt, Decided, ClosedBefore, SealedBefore, CancelledFirst, TokenRaised;
    if i == 0 {
      NothingPending(ops);
    } else {
      var s, op := At(Initial(config), ops, i - 1), ops[i - 1];
      StateAfter(Initial(config), ops, i - 1);
      ConfigByHistory(config, ops, i - 1);
      StatusByHistory(config, ops, i - 1);
      assert Accepts(ops, i - 1) <==> op.Update? && op.fits && s.status == Active && s.accepting;
      hide At, Initial, AcceptedUpdates, Accepts;
      CountStep(ops, i - 1);
      ConfigMoves(s, op);
      PendingMoves(ops, i - 1, s.pending);
      CommitMoves(ops, i - 1, s.current);
    }
  }

  lemma NothingPending(ops: seq<Op>)
    ensures AcceptedUpdates(ops, 0) == {} && PendingAt(ops, 0, None) && CommittedAt(ops, 0, 0)
  {
  }

  lemma CommitMoves(ops: seq<Op>, i: nat, current: nat)
    requires i < |ops| && CommittedAt(ops, i, current)
    ensures CommittedAt(ops, i + 1, if ops[i].CommitRevision? then ops[i].revision else current)
  {
  }

  /** What an operation does to the pending config and the revisions. */
  lemma ConfigMoves(s: ControlState, op: Op)
    ensures var t := Apply(s, op).0;
            var accepted := op.Update? && op.fits && s.status == Active && s.accepting;
            && t.next == (if accepted then Min(s.next + 1, U64_MAX) else s.next)
            && t.pending == (if accepted then Some(PendingConfig(s.next, op.config))
                             else if op.TakeConfig? || op.BeginFinal? || op.FinishOnce? then None else s.pending)
            && t.current == (if op.CommitRevision? then op.revision else s.current)
  {
    hide AnswerMatches, Settle;
  }

  lemma PendingMoves(ops: seq<Op>, i: nat, before: Option<PendingConfig>)
    requires i < |ops| && PendingAt(ops, i, before)
    ensures PendingAt(ops, i + 1,
                      if Accepts(ops, i) then Some(PendingConfig(Min(1 + |AcceptedUpdates(ops, i)|, U64_MAX), ops[i].config))
                      else if ops[i].TakeConfig? || ops[i].BeginFinal? || ops[i].FinishOnce? then None else before)
  {
    hide Accepts, AcceptedUpdates;
    var n := i + 1;
    var cleared := Accepts(ops, i) || ops[i].TakeConfig? || ops[i].BeginFinal? || ops[i].FinishOnce?;
    forall k: nat | k < i ensures PendingSince(ops, n, k) <==> PendingSince(ops, i, k) && !cleared {
      if PendingSince(ops, n, k) {
        assert k < i < n;
      }
    }
    assert PendingSince(ops, n, i) <==> Accepts(ops, i);
    assert forall k: nat | PendingSince(ops, n, k) :: k <= i;
    if cleared {
      assert forall k: nat | PendingSince(ops, n, k) :: k == i;
    }
  }

  lemma {:induction false} SlotByHistory(config: ExecutionConfig, ops: seq<Op>, i: nat)
    requires i <= |ops|
    ensures SlotAt(config, ops, i, At(Initial(config), ops, i).slot)
  {
    hide Apply, SlotAt;
    if i == 0 {
      NothingOpen(config, ops);
    } else {
      var s := At(Initial(config), ops, i - 1);
      StateAfter(Initial(config), ops, i - 1);
      SlotByHistory(config, ops, i - 1);
      SlotMoves(s, ops[i - 1]);
      assert ResultOf(Initial(config), ops, i - 1) == Apply(s, ops[i - 1]).1;
      hide At, Initial;
      SlotStays(config, ops, i - 1, s.slot);
    }
  }

  lemma NothingOpen(config: ExecutionConfig, ops: seq<Op>)
    ensures SlotAt(config, ops, 0, None)
  {
  }

  lemma SlotStays(config: ExecutionConfig, ops: seq<Op>, i: nat, before: Option<InteractionSlot>)
    requires i < |ops| && SlotAt(config, ops, i, before)
    requires ops[i].SetInteraction? ==> (ResultOf(Initial(config), ops, i) == Done <==> before.None?)
    ensures var done := ResultOf(Initial(config), ops, i) == Done;
            SlotAt(config, ops, i + 1,
                   if ops[i].SetInteraction? && done then Some(ops[i].slot)
                   else if ops[i].TakeInteraction? || (ops[i].Answer? && done) then None else before)
  {
    hide ResultOf, Initial;
    var done := ResultOf(Initial(config), ops, i) == Done;
    var n := i + 1;
    var cleared := ops[i].TakeInteraction? || (ops[i].Answer? && done);
    forall k: nat | k < i ensures OpenSince(config, ops, n, k) <==> OpenSince(config, ops, i, k) && !cleared {
      if OpenSince(config, ops, n, k) {
        assert k < i < n;
      }
    }
    assert OpenSince(config, ops, n, i) <==> ops[i].SetInteraction? && done;
    assert forall k: nat | OpenSince(config, ops, n, k) :: k <= i;
  }

  /** What an operation does to the interaction slot. */
  lemma SlotMoves(s: ControlState, op: Op)
    ensures var (t, r) := Apply(s, op);
            && (op.SetInteraction? ==> (r == Done <==> s.slot.None?))
            && t.slot == (if op.SetInteraction? && r == Done then Some(op.slot)
                          else if op.TakeInteraction? || (op.Answer? && r == Done) then None else s.slot)
  {
    hide AnswerMatches, Settle;
  }

  // ---- Every answer is what the operations before it make it -----------------------------------

  /** A seal names the cancellation that came first, if one did before any other seal. */
  ghost predicate SealByHistory(ops: seq<Op>, i: nat, seal: FinishSeal)
    requires i < |ops|
  {
    && (seal == Clean <==> !Decided(ops, i))
    && (seal == AlreadyFinished <==> SealedBefore(ops, i))
    && (forall source :: seal == CancelledPrior(source) <==> CancelledFirst(ops, i, source))
  }

  /** What an answer to a question gets. */
  ghost predicate AnswerByHistory(config: ExecutionConfig, ops: seq<Op>, i: nat, r: Res)
    requires i < |ops| && ops[i].Answer?
  {
    && (r == NotActive <==> Decided(ops, i) || ClosedBefore(ops, i))
    && (r == InteractionNotFound <==> !Decided(ops, i) && !ClosedBefore(ops, i) && forall k: nat :: !OpenSince(config, ops, i, k))
    && (r == Done <==>
          && !Decided(ops, i) && !ClosedBefore(ops, i)
          && exists k: nat :: OpenSince(config, ops, i, k) && ops[k].slot.id == ops[i].id && AnswerMatches(ops[i].answer, ops[k].slot.expected))
    && r in {NotActive, InteractionNotFound, Done, WrongInteraction}
  }

  /** What an operation answers, by the operations before it. */
  ghost predicate ByHistory(config: ExecutionConfig, ops: seq<Op>, i: nat, r: Res)
    requires i < |ops|
  {
    match ops[i]
    case Cancel(_) => r == Flag(!Decided(ops, i))
    case Update(_, fits) =>
      r == if Decided(ops, i) then NotActive else if !fits then InvalidConfig else if ClosedBefore(ops, i) then NotActive
           else Handed(Min(1 + |AcceptedUpdates(ops, i)|, U64_MAX))
    case Answer(_, _) => AnswerByHistory(config, ops, i, r)
    case TakeConfig => r.Config? && PendingAt(ops, i, r.pending)
    case BeginFinal => r.Config? && PendingAt(ops, i, r.pending)
    case AppliedRevision => r.Revision? && CommittedAt(ops, i, r.current)
    case FinishOnce => r.Seal? && SealByHistory(ops, i, r.seal) && PendingAt(ops, i, r.discarded)
    case SetInteraction(_) => r == if exists k: nat :: OpenSince(config, ops, i, k) then Busy else Done
    case TakeInteraction => r.Slot? && SlotAt(config, ops, i, r.slot)
    case IsFinished => r == Flag(SealedBefore(ops, i))
    case _ => r == Done
  }

  /** Every answer of the control plane, in every list of operations, is what the operations before it make it. */
  lemma AnswersByHistory(config: ExecutionConfig, ops: seq<Op>, i: nat)
    requires i < |ops|
    ensures ByHistory(config, ops, i, ResultOf(Initial(config), ops, i))
  {
    StatusByHistory(config, ops, i);
    ConfigByHistory(config, ops, i);
    SlotByHistory(config, ops, i);
    var s := At(Initial(config), ops, i);
    hide At, Initial, Apply, StatusAt, PendingAt, CommittedAt, SlotAt, AcceptedUpdates, AnswerByHistory, SealByHistory;
    if ops[i].Answer? {
      AnswerMeans(config, ops, i, s);
    } else if ops[i].FinishOnce? {
      SealMeans(ops, i, s);
    } else {
      hide ByHistory;
      OtherMeans(config, ops, i, s);
    }
  }

  lemma OtherMeans(config: ExecutionConfig, ops: seq<Op>, i: nat, s: ControlState)
    requires i < |ops| && !ops[i].Answer? && !ops[i].FinishOnce?
    requires StatusAt(ops, i, s.status, s.accepting, s.token) && SlotAt(config, ops, i, s.slot)
    requires PendingAt(ops, i, s.pending) && CommittedAt(ops, i, s.current) && s.next == Min(1 + |AcceptedUpdates(ops, i)|, U64_MAX)
    ensures ByHistory(config, ops, i, Apply(s, ops[i]).1)
  {
    hide Decided, SealedBefore, ClosedBefore, CancelledFirst, TokenRaised, PendingAt, CommittedAt, OpenSince, AcceptedUpdates, Accept, Close, Settle;
  }

  /** The token is raised exactly by a `RaiseToken` after the loop was decided. */
  lemma TokenByHistory(config: ExecutionConfig, log: seq<Op>)
    ensures TokenAt(config, log) <==> TokenRaised(log, |log|)
  {
    hide At, Initial, TokenRaised, Decided, SealedBefore, ClosedBefore, CancelledFirst;
    StatusByHistory(config, log, |log|);
  }

  lemma SealMeans(ops: seq<Op>, i: nat, s: ControlState)
    requires i < |ops| && ops[i].FinishOnce? && StatusAt(ops, i, s.status, s.accepting, s.token) && PendingAt(ops, i, s.pending)
    ensures var r := Apply(s, ops[i]).1;
            r.Seal? && SealByHistory(ops, i, r.seal) && PendingAt(ops, i, r.discarded)
  {
    hide Decided, SealedBefore, ClosedBefore, CancelledFirst, TokenRaised, PendingAt, Close;
  }

  lemma AnswerMeans(config: ExecutionConfig, ops: seq<Op>, i: nat, s: ControlState)
    requires i < |ops| && ops[i].Answer?
    requires StatusAt(ops, i, s.status, s.accepting, s.token) && SlotAt(config, ops, i, s.slot)
    ensures AnswerByHistory(config, ops, i, Apply(s, ops[i]).1)
  {
    hide Decided, SealedBefore, ClosedBefore, CancelledFirst, TokenRaised, AnswerMatches, Accept, Close;
    if s.slot.Some? {
      OpenIs(config, ops, i, s.slot.value);
    }
  }

  lemma OpenIs(config: ExecutionConfig, ops: seq<Op>, i: nat, slot: InteractionSlot)
    requires i <= |ops| && SlotAt(config, ops, i, Some(slot))
    ensures exists k: nat :: OpenSince(config, ops, i, k) && ops[k].slot == slot
    ensures forall k: nat | OpenSince(config, ops, i, k) :: ops[k].slot == slot
  {
    var k: nat :| OpenSince(config, ops, i, k);
    assert Some(slot) == Some(ops[k].slot);
  }
}
