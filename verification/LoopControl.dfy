/**
 * `LoopControl` as the runner uses it (src/agent_loop/control.rs): the shared
 * fields updated in place, one critical section per method, each method
 * proved against the sequential object of `ControlSpec`.
 */
module LoopControls {
  import opened Common
  import opened Interactions
  import opened ControlSpec
  import opened Reports

  /** Operations of other threads: handles, the owner's drop, the shutdown group. */
  predicate Foreign(op: Op) {
    op.Cancel? || op.RaiseToken? || op.Update? || op.Answer? || op.IsFinished?
  }

  predicate AllForeign(ops: seq<Op>) {
    forall i | 0 <= i < |ops| :: Foreign(ops[i])
  }

  /** What other threads may change between two steps of the runner. */
  ghost predicate Disturbs(s: ControlState, t: ControlState) {
    && Evolves(s, t)
    && t.taken == s.taken && t.current == s.current && t.asked == s.asked
    && (t.slot == s.slot || t.slot == None)
    && (t.status == Sealed <==> s.status == Sealed)
    && (s.slot.Some? && t.slot.None? ==> s.slot.value.id in t.replies)
    && t.accepting == s.accepting
  }

  lemma ForeignDisturbs(s: ControlState, op: Op)
    requires Inv(s) && Foreign(op)
    ensures Inv(Apply(s, op).0) && Disturbs(s, Apply(s, op).0)
  {
    ApplyKeepsInv(s, op);
    hide Inv, Evolves, Settle;
  }

  lemma {:induction false} DisturbsTrans(s: ControlState, t: ControlState, u: ControlState)
    requires Disturbs(s, t) && Disturbs(t, u)
    ensures Disturbs(s, u)
  {
    EvolvesTrans(s, t, u);
    RepliesStay(t, u);
    hide Evolves;
  }

  lemma RepliesStay(s: ControlState, t: ControlState)
    requires Evolves(s, t)
    ensures forall id | id in s.replies :: id in t.replies && t.replies[id] == s.replies[id]
    ensures s.token ==> t.token
  {
  }

  lemma DisturbsRefl(s: ControlState)
    ensures Disturbs(s, s)
  {
    EvolvesRefl(s);
  }

  class LoopControl {
    const initial: ExecutionConfig
    // The atomic status byte and the cancellation token.
    var status: Status
    var token: bool
    // Fields behind the mutex.
    var interaction: Option<InteractionSlot>
    var acceptingUpdates: bool
    var currentRevision: nat
    var nextRevision: nat
    var pendingConfig: Option<PendingConfig>
    // Reply channels of the interactions asked so far, and the completion channel.
    var replies: map<nat, InteractionAnswer>
    var nextId: nat
    var completion: Option<LoopReport>
    // The sequential object and the operations performed so far.
    ghost var model: ControlState
    ghost var log: seq<Op>
    ghost var published: seq<LoopReport>

    /** The real fields are those of the sequential object. */
    ghost predicate Mirrors()
      reads this
    {
      && status == model.status && token == model.token && interaction == model.slot
      && acceptingUpdates == model.accepting && currentRevision == model.current
      && nextRevision == model.next && pendingConfig == model.pending && replies == model.replies
    }

    ghost predicate Valid()
      reads this
    {
      && Mirrors()
      && Inv(model)
      && LoopRun(initial, log) && model == At(Initial(initial), log, |log|)
      && (forall id | id in model.asked :: id < nextId)
      && |published| <= 1
      && (completion == if published == [] then None else Some(published[0]))
      && (published != [] ==> model.status == Sealed)
    }

    /** Exactly the operation `op` was performed on `before`. */
    ghost predicate Performed(before: ControlState, done: seq<Op>, op: Op)
      reads this
    {
      Valid() && model == Apply(before, op).0 && log == done + [op]
    }

    constructor (config: ExecutionConfig)
      ensures Valid() && initial == config && log == [] && model == Initial(config)
      ensures completion == None && published == []
    {
      initial := config;
      status, token, interaction, acceptingUpdates := Active, false, None, true;
      currentRevision, nextRevision, pendingConfig := 0, 1, None;
      replies, nextId, completion := map[], 0, None;
      model, log, published := Initial(config), [], [];
      new;
      InitialInv(config);
    }

    /** Bookkeeping for one performed operation. */
    ghost method Record(op: Op)
      requires Inv(model) && LoopRun(initial, log) && model == At(Initial(initial), log, |log|)
      requires Fresh(model, op)
      modifies `model, `log
      ensures model == Apply(old(model), op).0 && log == old(log) + [op]
      ensures Inv(model) && Evolves(old(model), model)
      ensures LoopRun(initial, log) && model == At(Initial(initial), log, |log|)
    {
      hide Apply, Inv, Evolves, Fresh, Initial, LoopRun;
      ApplyKeepsInv(model, op);
      LogGrows(initial, log, op);
      model := Apply(model, op).0;
      log := log + [op];
    }

    /** The CAS of `mark_cancel`; the token is raised by a separate step. */
    method CompareAndCancel(source: CancelSource) returns (won: bool)
      requires Valid()
      modifies this`status, `model, `log
      ensures Performed(old(model), old(log), Cancel(source))
      ensures Apply(old(model), Cancel(source)).1 == Flag(won)
    {
      hide Inv, LoopRun, Initial, Evolves;
      Record(Cancel(source));
      won := status == Active;
      if won {
        status := CancelledBy(source);
      }
    }

    /** `cancel.cancel()`: after a winning CAS, or at the end of the loop. */
    method CancelToken()
      requires Valid() && status != Active
      modifies this`token, `model, `log
      ensures Performed(old(model), old(log), RaiseToken)
      ensures token
    {
      hide Inv, LoopRun, Initial, Evolves;
      Record(RaiseToken);
      token := true;
    }

    method Update(config: ExecutionConfig, fits: bool) returns (r: Res)
      requires Valid()
      modifies this`nextRevision, `pendingConfig, `model, `log
      ensures Performed(old(model), old(log), Op.Update(config, fits))
      ensures r == Apply(old(model), Op.Update(config, fits)).1
    {
      hide Inv, LoopRun, Initial, Evolves, Settle;
      Record(Op.Update(config, fits));
      if status != Active {
        return NotActive;
      }
      if !fits {
        return InvalidConfig;
      }
      if !acceptingUpdates || status != Active {
        return NotActive;
      }
      var revision := nextRevision;
      nextRevision := Min(revision + 1, U64_MAX);
      pendingConfig := Some(PendingConfig(revision, config));
      return Handed(revision);
    }

    method Answer(id: nat, answer: InteractionAnswer) returns (r: Res)
      requires Valid()
      modifies this`interaction, `replies, `model, `log
      ensures Performed(old(model), old(log), Op.Answer(id, answer))
      ensures r == Apply(old(model), Op.Answer(id, answer)).1
    {
      hide Inv, LoopRun, Initial, Evolves, AnswerMatches;
      Record(Op.Answer(id, answer));
      if !acceptingUpdates || status != Active {
        return NotActive;
      }
      if interaction.None? {
        return InteractionNotFound;
      }
      if interaction.value.id != id || !AnswerMatches(answer, interaction.value.expected) {
        return WrongInteraction;
      }
      interaction := None;
      replies := replies[id := answer];
      return Done;
    }

    method TakeConfig() returns (taken: Option<PendingConfig>)
      requires Valid()
      modifies this`pendingConfig, `model, `log
      ensures Performed(old(model), old(log), Op.TakeConfig)
      ensures taken == old(model).pending
    {
      hide Inv, LoopRun, Initial, Evolves, Settle;
      Record(Op.TakeConfig);
      taken := pendingConfig;
      pendingConfig := None;
    }

    method BeginFinal() returns (discarded: Option<PendingConfig>)
      requires Valid()
      modifies this`acceptingUpdates, `pendingConfig, `model, `log
      ensures Performed(old(model), old(log), Op.BeginFinal)
      ensures discarded == old(model).pending
    {
      hide Inv, LoopRun, Initial, Evolves, Settle;
      Record(Op.BeginFinal);
      acceptingUpdates := false;
      discarded := pendingConfig;
      pendingConfig := None;
    }

    method CommitRevision(revision: nat)
      requires Valid()
      modifies this`currentRevision, `model, `log
      ensures Performed(old(model), old(log), Op.CommitRevision(revision))
    {
      hide Inv, LoopRun, Initial, Evolves;
      Record(Op.CommitRevision(revision));
      currentRevision := revision;
    }

    method AppliedRevision() returns (revision: nat)
      requires Valid()
      modifies `model, `log
      ensures Performed(old(model), old(log), Op.AppliedRevision)
      ensures revision == old(model).current
    {
      hide Inv, LoopRun, Initial, Evolves;
      Record(Op.AppliedRevision);
      revision := currentRevision;
    }

    /** `finish_once`: seals, closes accepting and discards the pending config. */
    method FinishOnce() returns (seal: FinishSeal, discarded: Option<PendingConfig>)
      requires Valid()
      modifies this`status, `acceptingUpdates, `pendingConfig, `model, `log
      ensures Performed(old(model), old(log), Op.FinishOnce)
      ensures Apply(old(model), Op.FinishOnce).1 == Seal(seal, discarded)
    {
      hide Inv, LoopRun, Initial, Evolves, Settle;
      Record(Op.FinishOnce);
      match status {
        case Active =>
          status, seal := Sealed, Clean;
        case CancelledBy(source) =>
          status, seal := Sealed, CancelledPrior(source);
        case Sealed =>
          seal := AlreadyFinished;
      }
      acceptingUpdates := false;
      discarded := pendingConfig;
      pendingConfig := None;
    }

    /** A fresh interaction id; ids are random in the source and assumed distinct. */
    method NewInteractionId() returns (id: nat)
      requires Valid()
      modifies this`nextId
      ensures Valid() && id !in model.asked && nextId > id
    {
      id := nextId;
      nextId := nextId + 1;
    }

    method SetInteraction(slot: InteractionSlot) returns (busy: bool)
      requires Valid() && slot.id !in model.asked && slot.id < nextId
      modifies this`interaction, `model, `log
      ensures Performed(old(model), old(log), Op.SetInteraction(slot))
      ensures busy <==> old(model).slot.Some?
    {
      hide Inv, LoopRun, Initial, Evolves;
      Record(Op.SetInteraction(slot));
      if interaction.Some? {
        return true;
      }
      interaction := Some(slot);
      return false;
    }

    method TakeInteraction() returns (slot: Option<InteractionSlot>)
      requires Valid()
      modifies this`interaction, `model, `log
      ensures Performed(old(model), old(log), Op.TakeInteraction)
      ensures slot == old(model).slot
    {
      hide Inv, LoopRun, Initial, Evolves;
      Record(Op.TakeInteraction);
      slot := interaction;
      interaction := None;
    }

    /** `send_replace` on the completion channel. */
    method Publish(report: LoopReport)
      requires Valid() && published == [] && status == Sealed
      modifies this`completion, `published
      ensures Valid() && completion == Some(report) && published == [report]
    {
      hide Inv, LoopRun, Initial;
      completion := Some(report);
      published := [report];
    }

    /** One operation of another thread. */
    method ForeignStep(op: Op)
      requires Valid() && Foreign(op)
      modifies this`status, `token, `interaction, `nextRevision, `pendingConfig, `replies, `model, `log
      ensures Valid() && log == old(log) + [op] && Disturbs(old(model), model)
    {
      ForeignDisturbs(model, op);
      hide Inv, LoopRun, Initial, Evolves, Disturbs, Apply;
      if op.Cancel? {
        var _ := CompareAndCancel(op.source);
      } else if op.Update? {
        var _ := Update(op.config, op.fits);
      } else if op.Answer? {
        var _ := Answer(op.id, op.answer);
      } else if op.RaiseToken? && status != Active {
        CancelToken();
      } else {
        // A read, or a thread that has not won its CAS and so raises nothing.
        Record(op);
      }
    }

    /** Other threads run between two steps of the runner. */
    method Interfere(ops: seq<Op>)
      requires Valid() && AllForeign(ops)
      modifies this`status, `token, `interaction, `nextRevision, `pendingConfig, `replies, `model, `log
      ensures Valid() && log == old(log) + ops && Disturbs(old(model), model)
    {
      hide Disturbs, Foreign, Valid;
      DisturbsRefl(model);
      assert old(log) + ops[..0] == log;
      for i := 0 to |ops|
        invariant Valid() && log == old(log) + ops[..i] && Disturbs(old(model), model)
      {
        assert ops[..i + 1] == ops[..i] + [ops[i]];
        ghost var before := model;
        ForeignStep(ops[i]);
        DisturbsTrans(old(model), before, model);
      }
      assert ops[..|ops|] == ops;
    }
  }

  /** The log leads to the state the object is in. */
  lemma LogIsState(control: LoopControl)
    requires control.Valid()
    ensures LoggedState(control.initial, control.log) == control.model
    ensures control.token == TokenAt(control.initial, control.log) && control.replies == control.model.replies
  {
    hide Inv, LoopRun, Initial;
  }
}
