/** The one-pass tool-exchange validator of src/model/request.rs against its block grammar. */
module Exchange {
  import opened Common
  import opened Messages
  import opened ToolCatalog

  predicate IsAssistant(m: ModelMessage) {
    m.Assistant? || m.AssistantWithReplay?
  }

  predicate IsPlain(m: ModelMessage) {
    m.System? || m.User?
  }

  function MessageCallIds(m: ModelMessage): seq<CallId>
    requires IsAssistant(m)
  {
    CallIds(Calls(m.parts))
  }

  // ---- The grammar ----------------------------------------------------------

  predicate AllTools(ms: seq<ModelMessage>) {
    forall i | 0 <= i < |ms| :: ms[i].Tool?
  }

  function AnswerIds(answers: seq<ModelMessage>): (ids: seq<CallId>)
    requires AllTools(answers)
    ensures |ids| == |answers|
  {
    seq(|answers|, i requires 0 <= i < |answers| => answers[i].callId)
  }

  /** `answers` are tool messages whose ids are a permutation of `ids`. */
  predicate Answers(ids: multiset<CallId>, answers: seq<ModelMessage>) {
    AllTools(answers) && multiset(AnswerIds(answers)) == ids
  }

  /**
   * A sequence of valid plain messages and blocks, each block one valid
   * assistant message followed by exactly one tool message per call, in any order.
   */
  predicate WellFormed(ms: seq<ModelMessage>)
    decreases |ms|
  {
    ms == []
    || (IsPlain(ms[0]) && MessageValid(ms[0]) && WellFormed(ms[1..]))
    || (IsAssistant(ms[0]) && MessageValid(ms[0])
        && var ids := MessageCallIds(ms[0]);
           1 + |ids| <= |ms| && Answers(multiset(ids), ms[1..1 + |ids|]) && WellFormed(ms[1 + |ids|..]))
  }

  /** Length of the block or plain message that starts with `m`. */
  function BlockLen(m: ModelMessage): (n: nat)
    ensures n >= 1
  {
    if IsAssistant(m) then 1 + |MessageCallIds(m)| else 1
  }

  /** Accepted sequences are closed under concatenation ... */
  lemma {:induction false} WellFormedConcat(a: seq<ModelMessage>, b: seq<ModelMessage>)
    requires WellFormed(a) && WellFormed(b)
    ensures WellFormed(a + b)
    decreases |a|
  {
    if a == [] {
      assert a + b == b;
    } else {
      hide MessageValid, Answers, WellFormed;
      var n := BlockLen(a[0]);
      WellFormedHead(a);
      ConcatSlices(a, b, n);
      WellFormedConcat(a[n..], b);
      WellFormedHead(a + b);
    }
  }

  lemma ConcatSlices(a: seq<ModelMessage>, b: seq<ModelMessage>, n: nat)
    requires 1 <= n <= |a|
    ensures (a + b)[0] == a[0] && (a + b)[1..n] == a[1..n] && (a + b)[n..] == a[n..] + b
  {
  }

  /** The first block of a non-empty sequence, and the rest. */
  lemma WellFormedHead(ms: seq<ModelMessage>)
    requires ms != []
    ensures WellFormed(ms)
       <==> (IsPlain(ms[0]) || IsAssistant(ms[0])) && MessageValid(ms[0]) && BlockLen(ms[0]) <= |ms|
            && (IsAssistant(ms[0]) ==> Answers(multiset(MessageCallIds(ms[0])), ms[1..BlockLen(ms[0])]))
            && WellFormed(ms[BlockLen(ms[0])..])
  {
    hide MessageValid, Answers, Calls;
  }

  /** ... and cancel on the left, so acceptance of an extension is decided by the extension. */
  lemma {:induction false} WellFormedCancel(a: seq<ModelMessage>, b: seq<ModelMessage>)
    requires WellFormed(a) && WellFormed(a + b)
    ensures WellFormed(b)
    decreases |a|
  {
    if a == [] {
      assert a + b == b;
    } else {
      hide MessageValid, Answers, WellFormed;
      var n := BlockLen(a[0]);
      WellFormedHead(a);
      WellFormedHead(a + b);
      ConcatSlices(a, b, n);
      WellFormedCancel(a[n..], b);
    }
  }

  // ---- The scanner --------------------------------------------------------------

  /** What the validator reports from a given scanner state. */
  function Verdict(ms: seq<ModelMessage>, pending: set<CallId>, completed: set<CallId>): Option<ModelValueError> {
    if ms == [] then
      if pending == {} then None else Some(IncompleteToolExchange)
    else if ms[0].Tool? then
      var id := ms[0].callId;
      if id in completed then Some(DuplicateToolResult)
      else if id !in pending then Some(OrphanToolResult)
      else Verdict(ms[1..], pending - {id}, completed + {id})
    else if pending != {} then Some(IncompleteToolExchange)
    else if MessageFault(ms[0]).Some? then MessageFault(ms[0])
    else if IsPlain(ms[0]) then Verdict(ms[1..], {}, {})
    else Verdict(ms[1..], IdSet(MessageCallIds(ms[0])), {})
  }

  function IdSet(ids: seq<CallId>): set<CallId> {
    set id | id in ids
  }

  lemma {:induction false} DistinctAsSet(ids: seq<CallId>)
    requires Distinct(ids)
    ensures multiset(IdSet(ids)) == multiset(ids) && |IdSet(ids)| == |ids|
  {
    if ids != [] {
      var first, rest := ids[0], ids[1..];
      DistinctTail(ids);
      DistinctAsSet(rest);
      hide Distinct, IdSet;
      assert ids == [first] + rest;
      SetGrows(first, IdSet(rest));
    }
  }

  lemma {:induction false} DistinctTail(ids: seq<CallId>)
    requires Distinct(ids) && ids != []
    ensures Distinct(ids[1..]) && ids[0] !in IdSet(ids[1..])
    ensures IdSet(ids) == {ids[0]} + IdSet(ids[1..])
  {
    assert ids == [ids[0]] + ids[1..];
  }

  lemma {:induction false} SetGrows(x: CallId, s: set<CallId>)
    requires x !in s
    ensures multiset({x} + s) == multiset{x} + multiset(s) && |{x} + s| == 1 + |s|
  {
  }

  lemma AnswersStep(pending: set<CallId>, answers: seq<ModelMessage>)
    requires answers != [] && answers[0].Tool? && answers[0].callId in pending
    ensures Answers(multiset(pending), answers)
       <==> Answers(multiset(pending - {answers[0].callId}), answers[1..])
  {
    var id, rest := answers[0].callId, answers[1..];
    assert answers == [answers[0]] + rest;
    if AllTools(rest) {
      assert AnswerIds(answers) == [id] + AnswerIds(rest);
      assert multiset(AnswerIds(answers)) == multiset{id} + multiset(AnswerIds(rest));
      assert multiset(pending) == multiset{id} + multiset(pending - {id});
      CancelOne(id, multiset(AnswerIds(rest)), multiset(pending - {id}));
    } else {
      var i :| 0 <= i < |rest| && !rest[i].Tool?;
      assert !answers[i + 1].Tool?;
    }
  }

  lemma CancelOne<T>(x: T, a: multiset<T>, b: multiset<T>)
    ensures multiset{x} + a == multiset{x} + b <==> a == b
  {
    if multiset{x} + a == multiset{x} + b {
      assert a == (multiset{x} + a) - multiset{x};
      assert b == (multiset{x} + b) - multiset{x};
    }
  }

  /** From any scanner state, acceptance is: the missing answers first, then a well-formed rest. */
  lemma {:induction false} VerdictExact(ms: seq<ModelMessage>, pending: set<CallId>, completed: set<CallId>)
    requires pending !! completed
    ensures Verdict(ms, pending, completed).None?
       <==> |pending| <= |ms| && Answers(multiset(pending), ms[..|pending|]) && WellFormed(ms[|pending|..])
    decreases |ms|
  {
    if pending == {} {
      assert ms[..0] == [] && ms[0..] == ms;
      if ms != [] && !ms[0].Tool? {
        VerdictAtStart(ms);
      }
    } else if ms != [] {
      if ms[0].Tool? && ms[0].callId in pending {
        var id := ms[0].callId;
        var rest := pending - {id};
        VerdictExact(ms[1..], rest, completed + {id});
        assert |rest| == |pending| - 1;
        if |pending| <= |ms| {
          hide WellFormed, Answers, Verdict;
          var answers := ms[..|pending|];
          assert answers[1..] == ms[1..][..|rest|];
          assert ms[|pending|..] == ms[1..][|rest|..];
          AnswersStep(pending, answers);
        }
      } else if |pending| <= |ms| && AllTools(ms[..|pending|]) {
        assert AnswerIds(ms[..|pending|])[0] == ms[0].callId;
        assert ms[0].callId in multiset(AnswerIds(ms[..|pending|]));
      } else if |pending| <= |ms| {
        assert ms[..|pending|][0] == ms[0];
      }
    }
  }

  lemma VerdictAtStart(ms: seq<ModelMessage>)
    requires ms != [] && !ms[0].Tool?
    ensures forall completed :: Verdict(ms, {}, completed).None? <==> WellFormed(ms)
    decreases |ms|, 0
  {
    MessageFaultExact(ms[0]);
    if IsPlain(ms[0]) {
      VerdictExact(ms[1..], {}, {});
      assert ms[1..][..0] == [] && ms[1..][0..] == ms[1..];
    } else if MessageValid(ms[0]) {
      var ids := MessageCallIds(ms[0]);
      DistinctAsSet(ids);
      VerdictExact(ms[1..], IdSet(ids), {});
      if 1 + |ids| <= |ms| {
        assert ms[1..][..|ids|] == ms[1..1 + |ids|];
        assert ms[1..][|ids|..] == ms[1 + |ids|..];
      }
    }
  }

  /** `validate_tool_exchange`: accepts exactly the grammar, and reports the first violation. */
  method ValidateToolExchange(messages: seq<ModelMessage>) returns (error: Option<ModelValueError>)
    ensures error == Verdict(messages, {}, {})
    ensures error.None? <==> WellFormed(messages)
  {
    VerdictExact(messages, {}, {});
    assert messages[..0] == [] && messages[0..] == messages;
    var pending: set<CallId> := {};
    var completed: set<CallId> := {};
    for i := 0 to |messages|
      invariant Verdict(messages[i..], pending, completed) == Verdict(messages, {}, {})
    {
      var message := messages[i];
      assert messages[i..][0] == message && messages[i..][1..] == messages[i + 1..];
      if IsAssistant(message) {
        if pending != {} {
          return Some(IncompleteToolExchange);
        }
        var fault := ValidateMessage(message);
        if fault.Some? {
          return fault;
        }
        completed := {};
        pending := IdSet(MessageCallIds(message));
      } else if message.Tool? {
        if message.callId in completed {
          return Some(DuplicateToolResult);
        }
        if message.callId !in pending {
          return Some(OrphanToolResult);
        }
        pending := pending - {message.callId};
        completed := completed + {message.callId};
      } else {
        if pending != {} {
          return Some(IncompleteToolExchange);
        }
        var fault := ValidateMessage(message);
        if fault.Some? {
          return fault;
        }
        completed := {};
      }
    }
    return if pending == {} then None else Some(IncompleteToolExchange);
  }

  // ---- Requests -------------------------------------------------------------------

  datatype ModelRequest = ModelRequest(messages: seq<ModelMessage>, tools: seq<ToolSpec>)

  /** `ModelRequest::with_validated_tools`. */
  method RequestWithValidatedTools(messages: seq<ModelMessage>, tools: seq<ToolSpec>)
    returns (r: Result<ModelRequest, ModelValueError>)
    ensures r.Ok? <==> messages != [] && WellFormed(messages)
    ensures r.Ok? ==> r.value == ModelRequest(messages, tools)
    ensures r.Err? ==> Some(r.error) == if messages == [] then Some(EmptyMessages) else Verdict(messages, {}, {})
  {
    if messages == [] {
      return Err(EmptyMessages);
    }
    var error := ValidateToolExchange(messages);
    return if error.Some? then Err(error.value) else Ok(ModelRequest(messages, tools));
  }

  /** `ModelRequest::new`: the neighbour test on names, then the same checks. */
  method NewRequest(messages: seq<ModelMessage>, tools: seq<ToolSpec>)
    returns (r: Result<ModelRequest, ModelValueError>)
    ensures r.Ok? <==> Sorted(tools) && messages != [] && WellFormed(messages)
    ensures r.Ok? ==> r.value == ModelRequest(messages, tools)
    ensures !Sorted(tools) ==> r == Err(InvalidTools)
    ensures Sorted(tools) && r.Err? ==> Some(r.error) == if messages == [] then Some(EmptyMessages) else Verdict(messages, {}, {})
  {
    NeighboursDecideSorted(tools);
    var i := 0;
    while i + 1 < |tools|
      invariant forall k | 0 <= k < i && k + 1 < |tools| :: Less(tools[k].name, tools[k + 1].name)
    {
      if !Less(tools[i].name, tools[i + 1].name) {
        return Err(InvalidTools);
      }
      i := i + 1;
    }
    r := RequestWithValidatedTools(messages, tools);
  }

  /**
   * For a frozen catalog the order check never fires, so skipping it - as the
   * runner does - gives the same answer on every message list.
   */
  method FrozenCatalogNeedsNoOrderCheck(messages: seq<ModelMessage>, tools: ToolSet)
    returns (checked: Result<ModelRequest, ModelValueError>, skipped: Result<ModelRequest, ModelValueError>)
    requires Frozen(tools)
    ensures checked == skipped
    ensures skipped.Ok? <==> messages != [] && WellFormed(messages)
  {
    checked := NewRequest(messages, tools.specs);
    skipped := RequestWithValidatedTools(messages, tools.specs);
  }
}
