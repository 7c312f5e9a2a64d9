/**
 * Best-effort events and loss accounting: src/agent_loop/event.rs and the
 * progress pump of src/agent_loop/runner/model.rs.
 */
module LoopEvents {
  import opened Common
  import opened Assembly

  const MAX_EVENT_CAPACITY: nat := 4096
  const MODEL_PROGRESS_CAPACITY: nat := 64

  datatype LoopEvent = OutputDelta(requestIndex: nat, progress: Progress) | OtherEvent(name: string)

  datatype Envelope = Envelope(droppedBefore: nat, event: LoopEvent)

  function Saturate(n: nat): nat {
    Min(n, U64_MAX)
  }

  function Sum(s: seq<nat>): nat {
    if s == [] then 0 else Sum(s[..|s| - 1]) + s[|s| - 1]
  }

  function ReportedLosses(envelopes: seq<Envelope>): (s: seq<nat>)
    ensures |s| == |envelopes|
  {
    seq(|envelopes|, i requires 0 <= i < |envelopes| => envelopes[i].droppedBefore)
  }

  lemma SumSnoc(s: seq<nat>, x: nat)
    ensures Sum(s + [x]) == Sum(s) + x
  {
    assert (s + [x])[..|s|] == s;
  }

  /** Pointwise smaller sequences have equal sums only if they are equal. */
  lemma {:induction false} SumBelow(small: seq<nat>, large: seq<nat>)
    requires |small| == |large|
    requires forall i | 0 <= i < |small| :: small[i] <= large[i]
    ensures Sum(small) <= Sum(large)
    ensures Sum(small) == Sum(large) <==> small == large
  {
    if small != [] {
      var n := |small| - 1;
      SumBelow(small[..n], large[..n]);
      assert small == small[..n] + [small[n]] && large == large[..n] + [large[n]];
    }
  }

  function EventsIn(envelopes: seq<Envelope>): (s: seq<LoopEvent>)
    ensures |s| == |envelopes|
  {
    seq(|envelopes|, i requires 0 <= i < |envelopes| => envelopes[i].event)
  }

  /** `kept` picks positions of `produced` in increasing order, giving `picked`. */
  predicate Picks<T(==)>(kept: seq<nat>, produced: seq<T>, picked: seq<T>) {
    && |kept| == |picked|
    && (forall i | 0 <= i < |kept| :: kept[i] < |produced| && produced[kept[i]] == picked[i])
    && (forall i, j | 0 <= i < j < |kept| :: kept[i] < kept[j])
  }

  lemma PicksOneMore<T>(kept: seq<nat>, produced: seq<T>, picked: seq<T>, x: T)
    requires Picks(kept, produced, picked)
    ensures Picks(kept, produced + [x], picked)
    ensures Picks(kept + [|produced|], produced + [x], picked + [x])
  {
  }

  predicate IsSuffix(queue: seq<Envelope>, delivered: seq<Envelope>) {
    |queue| <= |delivered| && queue == delivered[|delivered| - |queue|..]
  }

  /** Each envelope reports its true gap, saturated at the counter's range. */
  predicate Reports(delivered: seq<Envelope>, losses: seq<nat>) {
    && |losses| == |delivered|
    && forall i | 0 <= i < |losses| :: delivered[i].droppedBefore == Saturate(losses[i])
  }

  lemma DeliverOne(queue: seq<Envelope>, delivered: seq<Envelope>, losses: seq<nat>, e: Envelope, loss: nat)
    requires IsSuffix(queue, delivered)
    requires e.droppedBefore == Saturate(loss)
    ensures IsSuffix(queue + [e], delivered + [e])
    ensures Reports(delivered, losses) ==> Reports(delivered + [e], losses + [loss])
    ensures Sum(losses + [loss]) == Sum(losses) + loss
  {
    SumSnoc(losses, loss);
    assert (delivered + [e])[|delivered| - |queue|..] == delivered[|delivered| - |queue|..] + [e];
  }

  /**
   * The runner's event sink over a bounded channel. `emitted` is every event
   * it was given, `recorded` the number of events reported to it as lost
   * elsewhere, `delivered` everything that ever entered the channel and `kept`
   * where it stands in `emitted`; `losses[i]` is the true number of events lost
   * between deliveries and `missing` those lost since the last one.
   */
  class LoopEventSink {
    const capacity: nat
    var queue: seq<Envelope>
    var receiverOpen: bool
    var dropped: nat
    var closed: bool
    ghost var delivered: seq<Envelope>
    ghost var losses: seq<nat>
    ghost var missing: nat
    ghost var emitted: seq<LoopEvent>
    ghost var recorded: nat
    ghost var kept: seq<nat>

    ghost predicate Valid()
      reads this
    {
      && 1 <= capacity <= MAX_EVENT_CAPACITY
      && |queue| <= capacity
      && IsSuffix(queue, delivered)
      && Picks(kept, emitted, EventsIn(delivered))
      && (closed ==> !receiverOpen)
      && (!closed ==>
            && dropped == Saturate(missing)
            && Reports(delivered, losses)
            && Offered() == |delivered| + Sum(losses) + missing)
    }

    /** Every event emitted or recorded as lost. */
    ghost function Offered(): nat
      reads this
    {
      |emitted| + recorded
    }

    constructor (capacity: nat)
      requires 1 <= capacity <= MAX_EVENT_CAPACITY
      ensures Valid() && receiverOpen && !closed && delivered == [] && dropped == 0 && emitted == [] && recorded == 0
    {
      this.capacity := capacity;
      queue, receiverOpen, dropped, closed := [], true, 0, false;
      delivered, losses, missing, emitted, recorded, kept := [], [], 0, [], 0, [];
    }

    method RecordDropped(count: nat)
      requires Valid()
      modifies this
      ensures Valid() && emitted == old(emitted) && recorded == old(recorded) + count
      ensures dropped == Saturate(old(dropped) + count)
      ensures queue == old(queue) && delivered == old(delivered)
      ensures closed == old(closed) && receiverOpen == old(receiverOpen)
    {
      dropped := Saturate(dropped + count);
      missing, recorded := missing + count, recorded + count;
    }

    method TryEmit(event: LoopEvent)
      requires Valid()
      modifies this
      ensures Valid() && emitted == old(emitted) + [event] && recorded == old(recorded)
      ensures closed == (old(closed) || !receiverOpen) && receiverOpen == old(receiverOpen)
      ensures var sent := receiverOpen && !old(closed) && old(|queue|) < capacity;
              delivered == if sent then old(delivered) + [Envelope(old(dropped), event)] else old(delivered)
      ensures old(closed) || !receiverOpen ==> dropped == old(dropped)
      ensures !closed ==> dropped == if old(|queue|) < capacity then 0 else Saturate(old(dropped) + 1)
    {
      hide Sum, Reports, IsSuffix, Picks;
      PicksOneMore(kept, emitted, EventsIn(delivered), event);
      emitted := emitted + [event];
      if closed {
        return;
      }
      if !receiverOpen {
        closed := true;
      } else if |queue| < capacity {
        var envelope := Envelope(dropped, event);
        DeliverOne(queue, delivered, losses, envelope, missing);
        assert EventsIn(delivered + [envelope]) == EventsIn(delivered) + [event];
        kept := kept + [|emitted| - 1];
        queue, delivered := queue + [envelope], delivered + [envelope];
        losses, missing := losses + [missing], 0;
        dropped := 0;
      } else {
        dropped := Saturate(dropped + 1);
        missing := missing + 1;
      }
    }

    /** The host takes up to `n` envelopes; loss accounting is untouched. */
    method Receive(n: nat)
      requires Valid()
      modifies `queue
      ensures Valid() && |queue| == (if n <= old(|queue|) then old(|queue|) - n else 0)
    {
      queue := queue[Min(n, |queue|)..];
    }

    method CloseReceiver()
      requires Valid()
      modifies `receiverOpen, `queue
      ensures Valid() && !receiverOpen
    {
      receiverOpen, queue := false, [];
    }
  }

  /**
   * While the stream is observed, what was emitted or recorded equals what was
   * delivered plus the reported losses plus the pending count, exactly when no
   * gap between two deliveries exceeded the counter's range.
   */
  lemma LossConserved(sink: LoopEventSink)
    requires sink.Valid() && !sink.closed
    ensures sink.Offered() == |sink.delivered| + Sum(ReportedLosses(sink.delivered)) + sink.dropped
       <==> sink.missing <= U64_MAX && forall i | 0 <= i < |sink.losses| :: sink.losses[i] <= U64_MAX
    ensures sink.Offered() <= U64_MAX ==>
      sink.Offered() == |sink.delivered| + Sum(ReportedLosses(sink.delivered)) + sink.dropped
  {
    var reported := ReportedLosses(sink.delivered);
    SumBelow(reported, sink.losses);
    forall i | 0 <= i < |sink.losses| ensures sink.losses[i] <= Sum(sink.losses) {
      TermBelowSum(sink.losses, i);
    }
    if forall i | 0 <= i < |sink.losses| :: sink.losses[i] <= U64_MAX {
      assert reported == sink.losses;
    }
    if reported == sink.losses {
      forall i | 0 <= i < |sink.losses| ensures sink.losses[i] <= U64_MAX {
        assert reported[i] == sink.losses[i];
      }
    }
  }

  lemma {:induction false} TermBelowSum(s: seq<nat>, i: nat)
    requires i < |s|
    ensures s[i] <= Sum(s)
  {
    if i < |s| - 1 {
      TermBelowSum(s[..|s| - 1], i);
    }
  }

  // ---- The inner queue of one model call --------------------------------------------

  /** The output events of some deltas of one request. */
  function Deltas(requestIndex: nat, deltas: seq<Progress>): (s: seq<LoopEvent>)
    ensures |s| == |deltas|
  {
    seq(|deltas|, i requires 0 <= i < |deltas| => OutputDelta(requestIndex, deltas[i]))
  }

  method ForwardProgress(sink: LoopEventSink, requestIndex: nat, value: Progress, dropped: nat)
    requires sink.Valid()
    modifies sink
    ensures sink.Valid()
    ensures sink.emitted == old(sink.emitted) + [OutputDelta(requestIndex, value)]
    ensures sink.recorded == old(sink.recorded) + dropped
  {
    hide LoopEventSink.Valid;
    sink.RecordDropped(dropped);
    sink.TryEmit(OutputDelta(requestIndex, value));
  }

  /** The pump after `done` deltas: each was forwarded, queued, recorded or counted as dropped. */
  datatype Pump = Pump(queue: seq<Progress>, forwarded: seq<Progress>, dropped: nat, recorded: nat)

  ghost predicate Pumping(p: Pump, done: seq<Progress>, kept: seq<nat>) {
    && |p.queue| <= MODEL_PROGRESS_CAPACITY
    && |p.forwarded| + |p.queue| + p.recorded + p.dropped == |done|
    && Picks(kept, done, p.forwarded + p.queue)
    && (|done| <= MODEL_PROGRESS_CAPACITY ==> p.dropped == 0 && p.recorded == 0 && p.forwarded + p.queue == done)
  }

  /** The driver's `try_send`; the drop counter is a wrapping `fetch_add`. */
  function Offer(p: Pump, value: Progress): Pump {
    if |p.queue| < MODEL_PROGRESS_CAPACITY then p.(queue := p.queue + [value])
    else p.(dropped := if p.dropped == U64_MAX then 0 else p.dropped + 1)
  }

  /** The runner's side of `forward_progress`: take the head and swap the counter out. */
  function Forward(p: Pump): Pump
    requires p.queue != []
  {
    Pump(p.queue[1..], p.forwarded + [p.queue[0]], 0, p.recorded + p.dropped)
  }

  /** Forwarding at most `budget` queued deltas. */
  function ForwardUpTo(p: Pump, budget: nat): Pump
    decreases budget
  {
    if budget == 0 || p.queue == [] then p else ForwardUpTo(Forward(p), budget - 1)
  }

  /** The pump after the first `k` deltas, forwarding up to `pumps(i)` after the i-th. */
  function Pumped(produced: seq<Progress>, pumps: nat -> nat, k: nat): Pump
    requires k <= |produced|
  {
    if k == 0 then Pump([], [], 0, 0)
    else ForwardUpTo(Offer(Pumped(produced, pumps, k - 1), produced[k - 1]), pumps(k - 1))
  }

  /** What is still counted as dropped when the driver returns is recorded. */
  function RecordRest(p: Pump): Pump {
    p.(recorded := p.recorded + p.dropped, dropped := 0)
  }

  /** The pump at the end of a call: drained, or left as it is by a panic. */
  function PumpEnd(produced: seq<Progress>, pumps: nat -> nat, unwinds: bool): Pump {
    var p := Pumped(produced, pumps, |produced|);
    if unwinds then p else ForwardUpTo(RecordRest(p), |p.queue|)
  }

  /** `picked` are some of `produced`, in order. */
  ghost predicate InOrder(produced: seq<Progress>, picked: seq<Progress>) {
    exists kept :: Picks(kept, produced, picked)
  }

  ghost predicate Accounts(p: Pump, done: seq<Progress>) {
    exists kept :: Pumping(p, done, kept)
  }

  lemma OfferKept(p: Pump, done: seq<Progress>, kept: seq<nat>, value: Progress)
    requires Pumping(p, done, kept) && |done| < U64_MAX
    ensures Pumping(Offer(p, value), done + [value],
                    if |p.queue| < MODEL_PROGRESS_CAPACITY then kept + [|done|] else kept)
  {
    assert (p.forwarded + p.queue) + [value] == p.forwarded + (p.queue + [value]);
  }

  lemma OfferStep(p: Pump, done: seq<Progress>, value: Progress)
    requires Accounts(p, done) && |done| < U64_MAX
    ensures Accounts(Offer(p, value), done + [value])
  {
    hide Pumping;
    var kept :| Pumping(p, done, kept);
    OfferKept(p, done, kept, value);
  }

  lemma ForwardStep(p: Pump, done: seq<Progress>)
    requires Accounts(p, done) && p.queue != []
    ensures Accounts(Forward(p), done)
  {
    var kept :| Pumping(p, done, kept);
    assert (p.forwarded + [p.queue[0]]) + p.queue[1..] == p.forwarded + p.queue;
    assert Pumping(Forward(p), done, kept);
  }

  lemma {:induction false} ForwardUpToAccounts(p: Pump, budget: nat, done: seq<Progress>)
    requires Accounts(p, done)
    ensures Accounts(ForwardUpTo(p, budget), done)
    ensures budget >= |p.queue| ==> ForwardUpTo(p, budget).queue == []
    ensures p.dropped == 0 ==> ForwardUpTo(p, budget).dropped == 0
    decreases budget
  {
    hide Accounts;
    if budget > 0 && p.queue != [] {
      ForwardStep(p, done);
      ForwardUpToAccounts(Forward(p), budget - 1, done);
    }
  }

  lemma {:induction false} PumpedAccounts(produced: seq<Progress>, pumps: nat -> nat, k: nat)
    requires k <= |produced| <= U64_MAX
    ensures Accounts(Pumped(produced, pumps, k), produced[..k])
  {
    if k == 0 {
      assert Pumping(Pump([], [], 0, 0), produced[..0], []);
    } else {
      hide Accounts;
      PumpedAccounts(produced, pumps, k - 1);
      OfferStep(Pumped(produced, pumps, k - 1), produced[..k - 1], produced[k - 1]);
      assert produced[..k - 1] + [produced[k - 1]] == produced[..k];
      ForwardUpToAccounts(Offer(Pumped(produced, pumps, k - 1), produced[k - 1]), pumps(k - 1), produced[..k]);
    }
  }

  /**
   * Whatever the schedule, each delta is forwarded in order or counted once as
   * lost; only a panic leaves some unaccounted for, and no more deltas than the
   * queue holds are never lost.
   */
  lemma PumpConserves(produced: seq<Progress>, pumps: nat -> nat, unwinds: bool)
    requires |produced| <= U64_MAX
    ensures var p := PumpEnd(produced, pumps, unwinds);
            && InOrder(produced, p.forwarded)
            && |p.forwarded| + p.recorded <= |produced|
            && (!unwinds ==> |p.forwarded| + p.recorded == |produced|)
            && (!unwinds && |produced| <= MODEL_PROGRESS_CAPACITY ==> p.forwarded == produced)
  {
    hide Accounts, Pumping, InOrder;
    var p := Pumped(produced, pumps, |produced|);
    PumpedAccounts(produced, pumps, |produced|);
    assert produced[..|produced|] == produced;
    if !unwinds {
      RestStep(p, produced);
      ForwardUpToAccounts(RecordRest(p), |p.queue|, produced);
    }
    PumpSettles(PumpEnd(produced, pumps, unwinds), produced);
  }

  lemma RestStep(p: Pump, done: seq<Progress>)
    requires Accounts(p, done)
    ensures Accounts(RecordRest(p), done)
  {
    var kept :| Pumping(p, done, kept);
    assert Pumping(RecordRest(p), done, kept);
  }

  /** What was forwarded comes first among the picked deltas. */
  lemma PumpSettles(p: Pump, done: seq<Progress>)
    requires Accounts(p, done)
    ensures InOrder(done, p.forwarded) && |p.forwarded| + p.recorded <= |done|
    ensures p.queue == [] && p.dropped == 0 ==> |p.forwarded| + p.recorded == |done|
    ensures p.queue == [] && |done| <= MODEL_PROGRESS_CAPACITY ==> p.forwarded == done
  {
    var kept :| Pumping(p, done, kept);
    assert Picks(kept[..|p.forwarded|], done, p.forwarded);
    if p.queue == [] {
      assert p.forwarded + p.queue == p.forwarded;
    }
  }

  /** What the host does with its stream between two deltas. */
  datatype HostStep = HostStep(receives: nat, closes: bool)

  method HostActs(sink: LoopEventSink, step: HostStep)
    requires sink.Valid()
    modifies sink`queue, sink`receiverOpen
    ensures sink.Valid()
  {
    hide LoopEventSink.Valid;
    sink.Receive(step.receives);
    if step.closes {
      sink.CloseReceiver();
    }
  }

  /** What the pump forwarded and recorded has reached the sink, in order. */
  ghost predicate Reached(emitted: seq<LoopEvent>, recorded: nat, start: seq<LoopEvent>, before: nat, requestIndex: nat, p: Pump) {
    emitted == start + Deltas(requestIndex, p.forwarded) && recorded == before + p.recorded
  }

  lemma ReachedMore(emitted: seq<LoopEvent>, recorded: nat, start: seq<LoopEvent>, before: nat, requestIndex: nat, p: Pump)
    requires Reached(emitted, recorded, start, before, requestIndex, p) && p.queue != []
    ensures Reached(emitted + [OutputDelta(requestIndex, p.queue[0])], recorded + p.dropped, start, before, requestIndex, Forward(p))
  {
    assert Deltas(requestIndex, p.forwarded + [p.queue[0]]) == Deltas(requestIndex, p.forwarded) + [OutputDelta(requestIndex, p.queue[0])];
  }

  /** Forwards at most `budget` queued deltas into the sink. */
  method ForwardSome(sink: LoopEventSink, requestIndex: nat, start: Pump, budget: nat, ghost first: seq<LoopEvent>, ghost before: nat)
    returns (p: Pump)
    requires sink.Valid() && Reached(sink.emitted, sink.recorded, first, before, requestIndex, start)
    modifies sink
    ensures sink.Valid() && Reached(sink.emitted, sink.recorded, first, before, requestIndex, p)
    ensures p == ForwardUpTo(start, budget)
  {
    hide LoopEventSink.Valid, Reached;
    p := start;
    var left := budget;
    while left > 0 && p.queue != []
      invariant sink.Valid() && Reached(sink.emitted, sink.recorded, first, before, requestIndex, p)
      invariant ForwardUpTo(p, left) == ForwardUpTo(start, budget)
      decreases left
    {
      ReachedMore(sink.emitted, sink.recorded, first, before, requestIndex, p);
      ForwardProgress(sink, requestIndex, p.queue[0], p.dropped);
      p := Forward(p);
      left := left - 1;
    }
  }

  /**
   * `run_model`'s pump: the driver offers each delta to a bounded queue, the
   * runner forwards some whenever it runs (`pumps`), and drains at the end.
   * Exactly what the schedule says reaches the sink, in order. A call that
   * unwinds leaves before the drain.
   */
  method PumpProgress(sink: LoopEventSink, requestIndex: nat, produced: seq<Progress>, pumps: nat -> nat,
                      host: nat -> HostStep, unwinds: bool)
    returns (forwarded: seq<Progress>, recorded: nat)
    requires sink.Valid()
    modifies sink
    ensures sink.Valid()
    ensures forwarded == PumpEnd(produced, pumps, unwinds).forwarded && recorded == PumpEnd(produced, pumps, unwinds).recorded
    ensures sink.emitted == old(sink.emitted) + Deltas(requestIndex, forwarded)
    ensures sink.recorded == old(sink.recorded) + recorded
  {
    hide LoopEventSink.Valid, Reached, ForwardUpTo;
    ghost var first, before := sink.emitted, sink.recorded;
    var p := Pump([], [], 0, 0);
    PumpStart(first, before, requestIndex);
    for k := 0 to |produced|
      invariant sink.Valid() && Reached(sink.emitted, sink.recorded, first, before, requestIndex, p)
      invariant p == Pumped(produced, pumps, k)
    {
      OfferReaches(p, sink.emitted, sink.recorded, first, before, requestIndex, produced[k]);
      HostActs(sink, host(k));
      p := ForwardSome(sink, requestIndex, Offer(p, produced[k]), pumps(k), first, before);
    }
    if !unwinds {
      SettleReaches(p, sink.emitted, sink.recorded, first, before, requestIndex);
      sink.RecordDropped(p.dropped);
      p := p.(recorded := p.recorded + p.dropped, dropped := 0);
      p := ForwardSome(sink, requestIndex, p, |p.queue|, first, before);
    }
    ReachedIs(p, sink.emitted, sink.recorded, first, before, requestIndex);
    return p.forwarded, p.recorded;
  }

  lemma PumpStart(emitted: seq<LoopEvent>, recorded: nat, requestIndex: nat)
    ensures Reached(emitted, recorded, emitted, recorded, requestIndex, Pump([], [], 0, 0))
  {
  }

  lemma OfferReaches(p: Pump, emitted: seq<LoopEvent>, recorded: nat, start: seq<LoopEvent>, before: nat, requestIndex: nat, value: Progress)
    requires Reached(emitted, recorded, start, before, requestIndex, p)
    ensures Reached(emitted, recorded, start, before, requestIndex, Offer(p, value))
  {
  }

  lemma SettleReaches(p: Pump, emitted: seq<LoopEvent>, recorded: nat, start: seq<LoopEvent>, before: nat, requestIndex: nat)
    requires Reached(emitted, recorded, start, before, requestIndex, p)
    ensures Reached(emitted, recorded + p.dropped, start, before, requestIndex, RecordRest(p))
  {
  }

  lemma ReachedIs(p: Pump, emitted: seq<LoopEvent>, recorded: nat, start: seq<LoopEvent>, before: nat, requestIndex: nat)
    requires Reached(emitted, recorded, start, before, requestIndex, p)
    ensures emitted == start + Deltas(requestIndex, p.forwarded) && recorded == before + p.recorded
  {
  }
}
