/**
 * How a loop ends: `finish_loop`, `panic_report` and the whole run of
 * src/agent_loop/runner.rs, with the exactly-once publication its waiters see
 * (src/agent_loop/handle.rs).
 */
module LoopRuns {
  import opened Common
  import opened Messages
  import opened Exchange
  import opened Assembly
  import opened History
  import opened Driver
  import opened ModelCall
  import opened LoopEvents
  import opened ControlSpec
  import opened Reports
  import opened LoopControls
  import opened ToolCalls
  import opened RunStates
  import opened Chronicles
  import opened Runner

  /** Other threads at each step of the ending; dropping locals after publication is host code. */
  datatype FinishScript = FinishScript(
    beforeRead: seq<Op>, beforeSeal: seq<Op>, beforePublish: seq<Op>, after: seq<Op>, panicsAfter: bool)

  predicate FinishForeign(f: FinishScript) {
    AllForeign(f.beforeRead) && AllForeign(f.beforeSeal) && AllForeign(f.beforePublish) && AllForeign(f.after)
  }

  /** The log at the seal of a loop that breaks at `log`, and the one its ending leaves. */
  function SealedLog(log: seq<Op>, f: FinishScript): seq<Op> {
    ((log + f.beforeRead) + [AppliedRevision]) + f.beforeSeal + [FinishOnce]
  }

  function PublishedLog(sealed: seq<Op>, ops: seq<Op>): seq<Op> {
    sealed + ops + [RaiseToken]
  }

  // ---- The seal ------------------------------------------------------------------------------

  /** `log` ends with the first seal of its run. */
  ghost predicate SealsRun(config: ExecutionConfig, log: seq<Op>) {
    && log != [] && LoopRun(config, log)
    && log[|log| - 1].FinishOnce?
    && forall k | 0 <= k < |log| - 1 :: !log[k].FinishOnce?
  }

  lemma {:induction false} UnsealedHasNoSeal(config: ExecutionConfig, log: seq<Op>)
    requires LoopRun(config, log) && At(Initial(config), log, |log|).status != Sealed
    ensures forall k | 0 <= k < |log| :: !log[k].FinishOnce?
  {
    hide At, Apply, Initial, Inv, ConfigsGrow, InteractionsGrow, WinsCancel, WinsSeal;
    forall k | 0 <= k < |log| ensures !log[k].FinishOnce? {
      Decisions(config, log, k);
      RunEvolves(config, log, k + 1, |log|);
    }
  }

  /** The seal's result names exactly the cancellation that won before it. */
  lemma SealDecides(config: ExecutionConfig, log: seq<Op>, seal: FinishSeal, discarded: Option<PendingConfig>, source: CancelSource)
    requires LoopRun(config, log)
    requires var s := At(Initial(config), log, |log|);
             s.status != Sealed && Apply(s, FinishOnce).1 == Seal(seal, discarded)
    ensures SealsRun(config, log + [FinishOnce])
    ensures (seal == CancelledPrior(source)) == CancelledBefore(config, log + [FinishOnce], |log|, source)
  {
    hide At, Apply, Initial, Inv, CancelledBefore, WinsSeal, ResultOf;
    var s := At(Initial(config), log, |log|);
    UnsealedHasNoSeal(config, log);
    LogGrows(config, log, FinishOnce);
    SealReportsCancellation(config, log + [FinishOnce], |log|, source);
  }

  lemma SealCases(s: ControlState)
    requires s.status != Sealed
    ensures var (t, r) := Apply(s, FinishOnce);
            && t.status == Sealed && r.Seal? && r.seal != AlreadyFinished
            && (r.seal == Clean <==> s.status == Active)
            && (r.seal.CancelledPrior? ==> s.status == CancelledBy(r.seal.source))
  {
  }

  /** What a path reports when no cancellation won. */
  function PathOutcome(path: FailPath): LoopOutcome {
    OutcomeFor(path, Active)
  }

  /** An outcome names the path that led to it, and no other. */
  ghost predicate NamesPath(outcome: LoopOutcome, path: FailPath) {
    && (outcome == Completed <==> path == PathCompleted)
    && (outcome == CancelledFor(DeadlineReached) <==> path == PathDeadline)
    && (outcome == FailedWith(PromptFailure, None) <==> path == PathPrompt)
    && (forall e: ModelError :: outcome == FailedWith(ModelFailure, Some(e)) <==> path == PathModel(e))
    && (forall e: ModelError :: outcome == FailedWith(InvalidModelResponse, Some(e)) <==> path == PathInvalidModelResponse(e))
    && (outcome == FailedWith(OutputLimit, None) <==> path == PathOutputLimit)
    && (outcome == FailedWith(RefusedByModel, None) <==> path == PathRefused)
    && (outcome == FailedWith(Filtered, None) <==> path == PathContentFiltered)
    && (outcome == FailedWith(PolicyFailure, None) <==> path == PathPolicy)
    && (outcome == FailedWith(InteractionFailure, None) <==> path == PathInteraction)
    && (outcome == FailedWith(MaxToolRounds, None) <==> path == PathMaxToolRounds)
    && (outcome == FailedWith(InternalFailure, None) <==> path == PathInternal)
  }

  lemma PathIsNamed(path: FailPath)
    requires path != PathCancelled
    ensures NamesPath(PathOutcome(path), path)
  {
  }

  /**
   * The outcome of a sealed run: `Cancelled` with the reason of the one
   * cancellation that won before the seal, exactly when there is one, and the
   * path's own outcome otherwise.
   */
  ghost predicate OutcomeDecided(config: ExecutionConfig, sealed: seq<Op>, at: nat, path: FailPath, outcome: LoopOutcome) {
    && |sealed| == at + 1 && SealsRun(config, sealed)
    && (forall source: CancelSource ::
          (outcome == CancelledFor(ReasonOf(source))) == CancelledBefore(config, sealed, at, source))
    && ((forall source: CancelSource :: !CancelledBefore(config, sealed, at, source)) ==>
          outcome == PathOutcome(path) && path != PathCancelled)
  }

  /** `outcome_for` followed by the seal, on the status each of them reads. */
  lemma OutcomeIsDecided(config: ExecutionConfig, log: seq<Op>, path: FailPath, read: Status, seal: FinishSeal, discarded: Option<PendingConfig>)
    requires LoopRun(config, log)
    requires var s := At(Initial(config), log, |log|);
             && s.status != Sealed && Apply(s, FinishOnce).1 == Seal(seal, discarded)
             && (s.status == Active ==> read == Active)
             && (path == PathCancelled ==> read != Active)
    ensures seal != AlreadyFinished
    ensures OutcomeDecided(config, log + [FinishOnce], |log|, path,
                           if seal.CancelledPrior? then CancelledFor(ReasonOf(seal.source)) else OutcomeFor(path, read))
  {
    hide At, Apply, Initial, CancelledBefore, SealsRun;
    SealCases(At(Initial(config), log, |log|));
    forall source: CancelSource
      ensures (seal == CancelledPrior(source)) == CancelledBefore(config, log + [FinishOnce], |log|, source)
      ensures SealsRun(config, log + [FinishOnce])
    {
      SealDecides(config, log, seal, discarded, source);
    }
    SealDecides(config, log, seal, discarded, ByUser);
    if seal.CancelledPrior? {
      assert CancelledBefore(config, log + [FinishOnce], |log|, seal.source);
    } else {
      assert read == Active;
    }
  }

  // ---- finish_loop ---------------------------------------------------------------------------------

  /** What a report on the `finish_loop` path carries. */
  ghost predicate ReportOk(report: LoopReport, run: RunState, s: ControlState, path: FailPath, sealed: seq<Op>, req: LoopRequest, o: LoopOptions) {
    && sealed != [] && OutcomeDecided(req.config, sealed, |sealed| - 1, path, report.outcome)
    && path != PathInteraction && PathExplained(path, run, report.appended, o)
    && Settled(report.appended)
    && Stopped(run, report.appended, s, req, o)
    && report.usage == run.usage && report.requests == run.requests && report.toolRounds == run.toolRounds
    && report.finalRevision == (if run.issues == [] then 0 else run.issues[|run.issues| - 1].revision)
  }

  lemma StoppedFacts(run: RunState, items: seq<HistoryItem>, s: ControlState, req: LoopRequest, o: LoopOptions)
    requires Stopped(run, items, s, req, o)
    ensures s.current == run.issued == (if run.issues == [] then 0 else run.issues[|run.issues| - 1].revision)
    ensures s.status != Sealed
  {
    hide HistoryOk, IssueOk, Counted;
  }

  lemma StoppedKept(run: RunState, items: seq<HistoryItem>, s: ControlState, t: ControlState, req: LoopRequest, o: LoopOptions)
    requires Stopped(run, items, s, req, o) && Disturbs(s, t)
    ensures Stopped(run, items, t, req, o)
    ensures s.status != Active ==> t.status != Active
  {
    DisturbsKeeps(s, t);
    StatusStays(s, t);
    hide RunInv, Keeps, Disturbs;
    if RunInv(run, items, s, 0, req, o) {
      RunKept(run, items, s, t, 0, req, o);
    } else {
      RunKept(run, items, s, t, 1, req, o);
    }
  }

  lemma StatusStays(s: ControlState, t: ControlState)
    requires Disturbs(s, t)
    ensures s.status != Active ==> t.status != Active
    ensures s.status == Sealed <==> t.status == Sealed
  {
  }

  lemma ReadingChangesNothing(s: ControlState)
    ensures Apply(s, AppliedRevision).0 == s
  {
  }

  /** What `finish_loop` reads before it seals, and what may still happen until then. */
  method ReadEnding(control: LoopControl, working: WorkingHistory, run: RunState, path: FailPath, script: FinishScript,
                    ghost req: LoopRequest, ghost o: LoopOptions)
    returns (revision: nat, read: Status)
    requires Broken(control, working, run, path, req, o) && FinishForeign(script)
    modifies control
    ensures Unsealed(control, req) && Stopped(run, working.appended, control.model, req, o)
    ensures control.log == ((old(control.log) + script.beforeRead) + [AppliedRevision]) + script.beforeSeal
    ensures revision == run.issued == (if run.issues == [] then 0 else run.issues[|run.issues| - 1].revision)
    ensures control.status == Active ==> read == Active
    ensures path == PathCancelled ==> read != Active
  {
    hide Inv, LoopRun, Initial, Disturbs, Stopped, Settled, Apply, PathExplained;
    ghost var start := control.model;
    control.Interfere(script.beforeRead);
    StoppedKept(run, working.appended, start, control.model, req, o);
    ReadingChangesNothing(control.model);
    StoppedFacts(run, working.appended, control.model, req, o);
    revision := control.AppliedRevision();
    ghost var reading := control.model;
    read := control.status;
    control.Interfere(script.beforeSeal);
    StoppedKept(run, working.appended, reading, control.model, req, o);
    StoppedFacts(run, working.appended, control.model, req, o);
  }

  /** The first half of `finish_loop`: what is read, and the seal. */
  method SealLoop(control: LoopControl, working: WorkingHistory, run: RunState, path: FailPath, script: FinishScript,
                  ghost req: LoopRequest, ghost o: LoopOptions)
    returns (report: LoopReport, ghost before: ControlState)
    requires Broken(control, working, run, path, req, o) && FinishForeign(script)
    modifies control
    ensures control.Valid() && control.published == [] && control.status == Sealed && control.initial == req.config
    ensures control.log == SealedLog(old(control.log), script)
    ensures report.appended == working.appended
    ensures ReportOk(report, run, before, path, control.log, req, o)
  {
    hide Inv, LoopRun, Initial, Disturbs, Stopped, Settled, OutcomeDecided, Apply, OutcomeFor, PathExplained;
    var revision, read := ReadEnding(control, working, run, path, script, req, o);
    before := control.model;
    ghost var log := control.log;
    var seal, discarded := control.FinishOnce();
    OutcomeIsDecided(req.config, log, path, read, seal, discarded);
    SealCases(before);
    var outcome := OutcomeFor(path, read);
    match seal {
      case Clean =>
      case CancelledPrior(source) => outcome := CancelledFor(ReasonOf(source));
      case AlreadyFinished => assert false;
    }
    return LoopReport(outcome, working.appended, run.usage, run.requests, run.toolRounds, revision), before;
  }

  /** Publication: the completion channel goes from none to this report. */
  method PublishReport(control: LoopControl, report: LoopReport, ops: seq<Op>)
    requires control.Valid() && control.published == [] && control.status == Sealed && AllForeign(ops)
    modifies control
    ensures control.Valid() && control.published == [report] && control.completion == Some(report)
    ensures control.status == Sealed && control.token && control.log == PublishedLog(old(control.log), ops)
  {
    hide Inv, LoopRun, Initial, Evolves, Disturbs, Apply;
    ghost var before := control.model;
    control.Interfere(ops);
    StatusStays(before, control.model);
    control.Publish(report);
    SealStays(control.model);
    control.CancelToken();
  }

  /** `finish_loop`: seal once, then publish once. */
  method FinishLoop(control: LoopControl, working: WorkingHistory, run: RunState, path: FailPath, script: FinishScript,
                    ghost req: LoopRequest, ghost o: LoopOptions)
    returns (report: LoopReport, ghost before: ControlState, ghost sealed: seq<Op>)
    requires Broken(control, working, run, path, req, o) && FinishForeign(script)
    modifies control
    ensures control.Valid() && control.published == [report] && control.completion == Some(report)
    ensures control.status == Sealed && control.token
    ensures sealed == SealedLog(old(control.log), script) && control.log == PublishedLog(sealed, script.beforePublish)
    ensures report.appended == working.appended
    ensures ReportOk(report, run, before, path, sealed, req, o)
    ensures sealed != [] && (!SomeCancelled(req.config, sealed, |sealed| - 1) ==> NamesPath(report.outcome, path) && path != PathCancelled)
  {
    hide LoopControl.Valid, ReportOk, Broken;
    report, before := SealLoop(control, working, run, path, script, req, o);
    sealed := control.log;
    ReportNamesPath(report, run, before, path, sealed, req, o);
    PublishReport(control, report, script.beforePublish);
  }

  /** Unless a cancellation won, a report names its path. */
  lemma ReportNamesPath(report: LoopReport, run: RunState, s: ControlState, path: FailPath, sealed: seq<Op>, req: LoopRequest, o: LoopOptions)
    requires ReportOk(report, run, s, path, sealed, req, o)
    ensures sealed != []
    ensures !SomeCancelled(req.config, sealed, |sealed| - 1) ==> NamesPath(report.outcome, path) && path != PathCancelled && path != PathInteraction
  {
    hide PathExplained, Settled, Stopped, CancelledBefore, SealsRun, PathOutcome, NamesPath;
    if !SomeCancelled(req.config, sealed, |sealed| - 1) {
      PathIsNamed(path);
    }
  }

  lemma SealStays(s: ControlState)
    ensures s.status == Sealed ==> Apply(s, RaiseToken).0.status == Sealed
  {
  }

  // ---- Panics ----------------------------------------------------------------------------------------

  lemma SealAgain(s: ControlState)
    ensures var (t, r) := Apply(s, FinishOnce);
            t.status == Sealed && r.Seal? && (r.seal == AlreadyFinished <==> s.status == Sealed)
  {
  }

  /** Sealing an unsealed run ends its log with the first seal. */
  lemma FirstSealEnds(config: ExecutionConfig, log: seq<Op>)
    requires LoopRun(config, log) && At(Initial(config), log, |log|).status != Sealed
    ensures SealsRun(config, log + [FinishOnce])
  {
    hide At, Apply, Initial;
    UnsealedHasNoSeal(config, log);
    LogGrows(config, log, FinishOnce);
  }

  /** `panic_report`: the first seal publishes the panic report; a later one returns what was published. */
  method PanicReport(control: LoopControl, ops: seq<Op>) returns (report: LoopReport, ghost sealed: seq<Op>)
    requires control.Valid() && AllForeign(ops)
    requires control.status == Sealed ==> control.published != []
    modifies control
    ensures control.Valid() && control.published == [report] && control.completion == Some(report)
    ensures sealed == old(control.log) + [FinishOnce]
    ensures old(control.published) == [] ==>
      && report == LoopReport(FailedWith(InternalFailure, None), [], NO_USAGE, 0, 0, 0)
      && control.log == PublishedLog(sealed, ops) && SealsRun(control.initial, sealed)
    ensures old(control.published) != [] ==> control.published == old(control.published) && control.log == sealed
  {
    hide Inv, LoopRun, Initial, Evolves, Disturbs, Apply, SealsRun;
    SealAgain(control.model);
    ghost var log := control.log;
    if control.status != Sealed {
      FirstSealEnds(control.initial, log);
    }
    var seal, discarded := control.FinishOnce();
    sealed := control.log;
    if seal == AlreadyFinished {
      return control.completion.value, sealed;
    }
    PublishReport(control, PANIC_REPORT, ops);
    return PANIC_REPORT, sealed;
  }

  /** `LoopHandle::wait` once the channel holds a value. */
  method Wait(control: LoopControl) returns (report: Option<LoopReport>)
    requires control.Valid()
    ensures report.Some? <==> control.published != []
    ensures report.Some? ==> control.published == [report.value]
  {
    return control.completion;
  }

  // ---- The whole loop -------------------------------------------------------------------------------

  datatype LoopEnd = Finished(path: FailPath) | Panicked | Unfinished

  function LastRound(end: LoopEnd): RoundEnd {
    match end
    case Finished(path) => Break(path)
    case Panicked => RoundPanics
    case Unfinished => RoundSuspended
  }

  /** The log a whole loop leaves after rounds that left `log`. */
  function LoopLog(log: seq<Op>, end: LoopEnd, f: FinishScript): seq<Op> {
    match end
    case Unfinished => log
    case Panicked => PublishedLog(log + [FinishOnce], f.beforePublish)
    case Finished(_) => (PublishedLog(SealedLog(log, f), f.beforePublish) + f.after) + (if f.panicsAfter then [FinishOnce] else [])
  }

  /** What a whole run did: its rounds, the state they reached, the state at the seal and the log up to it. */
  datatype RunRecord = RunRecord(rounds: seq<RoundRecord>, reached: ControlState, before: ControlState, sealed: seq<Op>)

  /** The report names a cancellation exactly when that one won before the seal. */
  ghost predicate Reflects(config: ExecutionConfig, sealed: seq<Op>, at: nat, outcome: LoopOutcome) {
    forall source: CancelSource ::
      (outcome == CancelledFor(ReasonOf(source))) == CancelledBefore(config, sealed, at, source)
  }

  ghost predicate SomeCancelled(config: ExecutionConfig, sealed: seq<Op>, at: nat) {
    exists source: CancelSource :: CancelledBefore(config, sealed, at, source)
  }

  /** The panic report reflects the run's cancellations exactly when there were none. */
  lemma PanicReflects(config: ExecutionConfig, sealed: seq<Op>, at: nat)
    ensures Reflects(config, sealed, at, PANIC_REPORT.outcome) <==> !SomeCancelled(config, sealed, at)
  {
    hide CancelledBefore;
    if Reflects(config, sealed, at, PANIC_REPORT.outcome) {
      forall source: CancelSource ensures !CancelledBefore(config, sealed, at, source) {
        assert (PANIC_REPORT.outcome == CancelledFor(ReasonOf(source))) == CancelledBefore(config, sealed, at, source);
      }
    }
  }

  /** What holds of every ended run, by a panic or not. */
  ghost predicate RunSealed(report: LoopReport, g: RunRecord, script: seq<RoundScript>, config: ExecutionConfig, log: seq<Op>)
    requires |g.rounds| <= |script|
  {
    && g.sealed != [] && SealsRun(config, g.sealed) && g.sealed <= log
    && (Reflects(config, g.sealed, |g.sealed| - 1, report.outcome)
        <==> !(HostPanicked(g.rounds, script) && SomeCancelled(config, g.sealed, |g.sealed| - 1)))
  }

  /**
   * `run_loop`, over every script. The rounds it executed are exactly those of
   * the script, their inputs, requests, responses and results are exactly the
   * run's, it stops only for their last round's reason or at the script's end,
   * and it panics exactly when host code it reached does. A loop that ends has
   * published exactly one report, the one it returns, and that report reflects
   * the winning cancellation exactly unless a host panic hides one.
   */
  method RunLoop(control: LoopControl, sink: LoopEventSink, working: WorkingHistory,
                 script: seq<RoundScript>, finish: FinishScript, req: LoopRequest, o: LoopOptions)
    returns (report: Option<LoopReport>, run: RunState, end: LoopEnd, ghost g: RunRecord)
    requires OptionsValid(o) && sink.Valid() && FinishForeign(finish)
    requires forall i | 0 <= i < |script| :: RoundForeign(script[i])
    requires control.Valid() && control.initial == req.config && control.published == [] && control.log == []
    requires working.base == req.history && working.appended == []
    modifies control, working, sink
    ensures control.Valid() && sink.Valid()
    ensures control.published == if report.Some? then [report.value] else []
    ensures report.None? <==> end.Unfinished?
    ensures |g.rounds| <= |script|
    ensures Chronicle(g.rounds, script, run, working.appended, req, o)
    ensures StopsBecause(g.rounds, script, LastRound(end))
    ensures control.log == LoopLog(RunLog(g.rounds, script, req), end, finish)
    ensures end.Panicked? ==> g.sealed == RunLog(g.rounds, script, req) + [FinishOnce]
    ensures end.Finished? ==> g.sealed == SealedLog(RunLog(g.rounds, script, req), finish)
    ensures sink.emitted == old(sink.emitted) + EventsOfRun(g.rounds) && sink.recorded == old(sink.recorded) + LostOfRun(g.rounds)
    ensures RunAsks(g.rounds, Initial(req.config), g.reached)
    ensures end.Panicked? <==> HostPanicked(g.rounds, script)
    ensures !end.Panicked? ==> TraceMeans(run, working.appended, g.reached, req, o)
    ensures report.Some? ==> RunSealed(report.value, g, script, req.config, control.log)
    ensures end.Panicked? ==> report.value == LoopReport(FailedWith(InternalFailure, None), [], NO_USAGE, 0, 0, 0)
    ensures end.Finished? ==>
      report.value.appended == working.appended && ReportOk(report.value, run, g.before, end.path, g.sealed, req, o)
  {
    hide LoopControl.Valid, LoopEventSink.Valid, ReportOk, Broken, Stopped, RoundForeign, Disturbs, Evolves, Chronicle, RunAsks, TraceMeans,
         RunSealed, SealsRun, HostPanicked, Initial, RunLog, SealedLog, PublishedLog;
    var rounds;
    ghost var records;
    run, rounds, records := RunRounds(control, sink, working, script, req, o);
    g := RunRecord(records, control.model, control.model, []);
    ChroniclePanics(records, script, run, working.appended, rounds, req, o);
    match rounds {
      case RoundSuspended =>
        return None, run, Unfinished, g;
      case RoundPanics =>
        UnsealedStatus(control, req);
        var panicked;
        ghost var sealed;
        panicked, sealed := PanicReport(control, finish.beforePublish);
        g := g.(sealed := sealed);
        SealedFirst(sealed, finish.beforePublish, []);
        PanickedIsSealed(g, script, req.config, control.log);
        return Some(panicked), run, Panicked, g;
      case Break(path) =>
        var published;
        ghost var before, sealed;
        published, before, sealed := FinishLoop(control, working, run, path, finish, req, o);
        g := g.(before := before, sealed := sealed);
        control.Interfere(finish.after);
        if finish.panicsAfter {
          // Dropping the loop's locals panics after publication.
          ghost var again;
          published, again := PanicReport(control, []);
        }
        SealedFirst(sealed, finish.beforePublish, finish.after + (if finish.panicsAfter then [FinishOnce] else []));
        EndingJoins(PublishedLog(sealed, finish.beforePublish), finish.after, if finish.panicsAfter then [FinishOnce] else []);
        FinishedIsSealed(published, g, script, run, path, control.log, req, o);
        return Some(published), run, Finished(path), g;
    }
  }

  lemma SealedFirst(sealed: seq<Op>, ops: seq<Op>, rest: seq<Op>)
    ensures sealed <= PublishedLog(sealed, ops) && sealed <= PublishedLog(sealed, ops) + rest
  {
  }

  lemma EndingJoins(published: seq<Op>, after: seq<Op>, last: seq<Op>)
    ensures (published + after) + last == published + (after + last)
    ensures published + after + [] == published + after
  {
  }

  lemma ChroniclePanics(records: seq<RoundRecord>, script: seq<RoundScript>, run: RunState, items: seq<HistoryItem>, end: RoundEnd,
                        req: LoopRequest, o: LoopOptions)
    requires Chronicle(records, script, run, items, req, o) && StopsBecause(records, script, end)
    ensures |records| <= |script| && (HostPanicked(records, script) <==> end == RoundPanics)
  {
    hide HostPanicked, RoundFollows;
    RunPanicsExactly(records, script, req, o);
  }

  lemma PanickedIsSealed(g: RunRecord, script: seq<RoundScript>, config: ExecutionConfig, log: seq<Op>)
    requires |g.rounds| <= |script| && HostPanicked(g.rounds, script)
    requires g.sealed != [] && SealsRun(config, g.sealed) && g.sealed <= log
    ensures RunSealed(PANIC_REPORT, g, script, config, log)
  {
    hide HostPanicked, SealsRun, Reflects, SomeCancelled;
    PanicReflects(config, g.sealed, |g.sealed| - 1);
  }

  lemma FinishedIsSealed(report: LoopReport, g: RunRecord, script: seq<RoundScript>, run: RunState, path: FailPath, log: seq<Op>,
                         req: LoopRequest, o: LoopOptions)
    requires |g.rounds| <= |script| && !HostPanicked(g.rounds, script)
    requires ReportOk(report, run, g.before, path, g.sealed, req, o) && g.sealed <= log
    ensures RunSealed(report, g, script, req.config, log)
  {
    hide HostPanicked, SealsRun, CancelledBefore, Stopped, Settled, PathExplained;
  }

  lemma UnsealedStatus(control: LoopControl, req: LoopRequest)
    requires Unsealed(control, req)
    ensures control.status != Sealed && control.Valid() && control.published == []
  {
  }

  // ---- A panic hides a cancellation ------------------------------------------------------------------

  /** One round whose first take sees a winning cancellation and then panics. */
  function CancelThenPanic(source: CancelSource): RoundScript {
    var quiet: PortScript<seq<ModelMessage>> := PortScript([], false, None, [], PortEnd.Fails, false);
    var calls := CallEnv(false, false, 0, true, (i: nat) => AttemptEnv(false, 0, StartPanics, 0, WaitDone));
    RoundScript([], false, BoundaryScript([Cancel(source)], false, None), PromptScript(quiet, false),
                BoundaryScript([], false, Some([])),
                ModelScript((m: ModelRequest) => calls, 1, PortDeadline, (i: nat) => 0, (i: nat) => HostStep(0, false), false), [], [])
  }

  /**
   * The concrete run: the cancellation wins, the host's `take` panics, and the
   * report says `Failed(Internal)` with nothing appended.
   */
  method PanicHidesCancellation(req: LoopRequest, o: LoopOptions, source: CancelSource)
    returns (report: Option<LoopReport>, ghost log: seq<Op>)
    requires OptionsValid(o)
    ensures report == Some(LoopReport(FailedWith(InternalFailure, None), [], NO_USAGE, 0, 0, 0))
    ensures log == [Cancel(source), Op.TakeConfig, FinishOnce, RaiseToken] && WinsCancel(req.config, log, 0)
  {
    hide Chronicle, RunAsks, TraceMeans, RunSealed, ReportOk, Initial, WinsCancel, RunLog, StopsBecause, EventsOfRun, LostOfRun, HostPanicked,
         LoopControl.Valid, LoopEventSink.Valid, CancelThenPanic, RoundForeign;
    var control := new LoopControl(req.config);
    var sink := new LoopEventSink(1);
    var working := new WorkingHistory(req.history);
    var script := [CancelThenPanic(source)];
    ScriptIsForeign(source);
    var finish := FinishScript([], [], [], [], false);
    var run, end;
    ghost var g;
    report, run, end, g := RunLoop(control, sink, working, script, finish, req, o);
    log := control.log;
    FirstTakePanics(g.rounds, script, run, working.appended, LastRound(end), source, req, o);
    FirstWins(req.config, source, log);
  }

  lemma FirstTakePanics(records: seq<RoundRecord>, script: seq<RoundScript>, run: RunState, items: seq<HistoryItem>, end: RoundEnd,
                        source: CancelSource, req: LoopRequest, o: LoopOptions)
    requires script == [CancelThenPanic(source)] && Chronicle(records, script, run, items, req, o)
    requires StopsBecause(records, script, end)
    ensures HostPanicked(records, script)
    ensures RunLog(records, script, req) == [Cancel(source), Op.TakeConfig]
  {
    hide TurnFollows, CallFollows, PortFollows, PromptPort, PromptLog, AppendedBy, TakenOf;
    assert records != [] && RoundFollows(records[0], script[0], req, o);
    assert RoundSeesAll(records, script, 0, req, o);
    assert records[0].topLog == [] && !TokenAt(req.config, []);
    assert HostPanics(records[0], script[0]);
    assert records[0].first.value.log == [] + [Cancel(source)];
    assert records[0].prompt.None? && |records| == 1;
  }

  lemma ScriptIsForeign(source: CancelSource)
    ensures RoundForeign(CancelThenPanic(source))
  {
  }

  lemma FirstWins(config: ExecutionConfig, source: CancelSource, log: seq<Op>)
    requires log != [] && log[0] == Cancel(source)
    ensures WinsCancel(config, log, 0)
  {
    assert At(Initial(config), log, 0).status == Active;
  }

  // ---- What a report means ---------------------------------------------------------------------------

  /** A run that ended without a host panic, with the rounds it executed. */
  ghost predicate FinishedRun(report: LoopReport, run: RunState, path: FailPath, g: RunRecord, script: seq<RoundScript>,
                              req: LoopRequest, o: LoopOptions) {
    && Chronicle(g.rounds, script, run, report.appended, req, o)
    && ReportOk(report, run, g.before, path, g.sealed, req, o)
  }

  lemma FinishedFacts(report: LoopReport, run: RunState, path: FailPath, g: RunRecord, script: seq<RoundScript>, req: LoopRequest, o: LoopOptions)
    requires FinishedRun(report, run, path, g, script, req, o)
    ensures |g.rounds| <= |script| && run.taken == TakenOf(g.rounds, script)
    ensures run.issues == IssuesOf(g.rounds) && run.responses == ResponsesOf(g.rounds) && run.batches == BatchCount(g.rounds)
    ensures report.appended == [UserItem(PromptInput, req.input)] + AppendedBy(g.rounds, script)
    ensures TraceMeans(run, report.appended, g.before, req, o)
    ensures Settled(report.appended) && report.usage == run.usage && report.requests == run.requests && report.toolRounds == run.toolRounds
    ensures report.finalRevision == if run.issues == [] then 0 else run.issues[|run.issues| - 1].revision
  {
    hide RoundFollows, RoundSeesAll, Settled, OutcomeDecided, PathExplained, TraceMeans, Stopped;
    StoppedMeans(run, report.appended, g.before, req, o);
  }

  /**
   * Every report of a run that no host panic cut short: its history is what
   * its rounds did; each assistant item's calls are answered exactly once, in
   * order, before anything else; its steering items are the concatenation of
   * all take results, in order; every tool output respects the limit; and it
   * names the revision of the last request its rounds issued.
   */
  lemma ReportIsSettled(report: LoopReport, run: RunState, path: FailPath, g: RunRecord, script: seq<RoundScript>, req: LoopRequest, o: LoopOptions)
    requires FinishedRun(report, run, path, g, script, req, o)
    ensures |g.rounds| <= |script|
    ensures report.appended == [UserItem(PromptInput, req.input)] + AppendedBy(g.rounds, script)
    ensures Settled(report.appended) && LoopItems(report.appended)
    ensures SteeringTexts(report.appended) == TakenOf(g.rounds, script)
    ensures OutputsBounded(report.appended, o.limits.maxToolOutput)
    ensures report.outcome != FailedWith(InteractionFailure, None)
    ensures report.finalRevision == if IssuesOf(g.rounds) == [] then 0 else IssuesOf(g.rounds)[|IssuesOf(g.rounds)| - 1].revision
  {
    hide OutcomeDecided, Settled, LoopItems, OutputsBounded, SteeringTexts, Stopped, PathExplained, ResponsesFit, Responded,
         RequestsNumbered, RoundsBounded, RevisionsServe, PromptsFresh, Chronicle;
    FinishedFacts(report, run, path, g, script, req, o);
    NeverInteraction(req.config, g.sealed, path, report.outcome);
  }

  /**
   * Requests are numbered 0, 1, 2, ... over the rounds that issued one, batches
   * and requests are in step, and a round limit m allows m batches and m + 1
   * requests.
   */
  lemma RequestsAreCounted(report: LoopReport, run: RunState, path: FailPath, g: RunRecord, script: seq<RoundScript>, req: LoopRequest, o: LoopOptions)
    requires FinishedRun(report, run, path, g, script, req, o)
    ensures var issues := IssuesOf(g.rounds);
            var batches := BatchCount(g.rounds);
            && (forall k | 0 <= k < |issues| :: issues[k].requestIndex == Min(k, U32_MAX))
            && batches <= |issues| <= batches + 1
            && report.requests == Min(|issues|, U32_MAX) && report.toolRounds == Min(batches, U64_MAX)
            && (o.maxToolRounds != 0 ==> batches <= o.maxToolRounds && |issues| <= o.maxToolRounds + 1)
  {
    hide Settled, HistoryOk, Responded, ResponsesFit, RevisionsServe, PromptsFresh, FinishedRun, AppendedBy, TakenOf;
    FinishedFacts(report, run, path, g, script, req, o);
  }

  lemma NeverInteraction(config: ExecutionConfig, sealed: seq<Op>, path: FailPath, outcome: LoopOutcome)
    requires sealed != [] && OutcomeDecided(config, sealed, |sealed| - 1, path, outcome) && path != PathInteraction
    ensures outcome != FailedWith(InteractionFailure, None)
  {
    hide CancelledBefore, SealsRun;
  }

  /**
   * The report says `Cancelled` by the user, the dropped owner or the
   * shutdown group exactly when a `mark_cancel` with that reason won before
   * the seal; otherwise it reports its path.
   */
  lemma CancellationIsExact(report: LoopReport, run: RunState, s: ControlState, path: FailPath, sealed: seq<Op>,
                            req: LoopRequest, o: LoopOptions, source: CancelSource)
    requires ReportOk(report, run, s, path, sealed, req, o)
    ensures SealsRun(req.config, sealed)
    ensures report.outcome == CancelledFor(if source == ByUser then UserCancelled else if source == ByOwnerDropped then OwnerDropped else Shutdown)
       <==> exists k | 0 <= k < |sealed| - 1 :: WinsCancel(req.config, sealed, k) && sealed[k] == Cancel(source)
    ensures report.outcome == CancelledFor(DeadlineReached) ==> path == PathDeadline
  {
    hide WinsCancel, SealsRun, Stopped, Settled, PathExplained;
    var at := |sealed| - 1;
    assert (report.outcome == CancelledFor(ReasonOf(source))) == CancelledBefore(req.config, sealed, at, source);
    if report.outcome == CancelledFor(DeadlineReached) {
      forall other: CancelSource ensures !CancelledBefore(req.config, sealed, at, other) {
        assert (report.outcome == CancelledFor(ReasonOf(other))) == CancelledBefore(req.config, sealed, at, other);
      }
    }
  }

  /** A host may extend its history with the report exactly when the base is acceptable and every text the rounds took is. */
  lemma ReportExtendsBase(report: LoopReport, run: RunState, path: FailPath, g: RunRecord, script: seq<RoundScript>, req: LoopRequest, o: LoopOptions)
    requires FinishedRun(report, run, path, g, script, req, o)
    ensures |g.rounds| <= |script|
    ensures BaseAccepted(req.history + report.appended)
       <==> BaseAccepted(req.history) && UserText(req.input) && forall t | t in TakenOf(g.rounds, script) :: UserText(t)
  {
    hide BaseAccepted, UserText, Settled, SteeringTexts, OutputsBounded, FinishedRun, Responded, ResponsesFit, RequestsNumbered,
         RoundsBounded, RevisionsServe, PromptsFresh, TakenOf, AppendedBy, LoopItems;
    FinishedFacts(report, run, path, g, script, req, o);
    TextsAreInputs(report.appended, run.taken, req.input, o.limits.maxToolOutput);
    BaseExtends(req.history, report.appended);
  }

  /**
   * The report's assistant items are the driver's responses, verbatim and in
   * order, each valid for its own request's catalog, and its usage is their sum.
   */
  lemma ResponsesAreReported(report: LoopReport, run: RunState, path: FailPath, g: RunRecord, script: seq<RoundScript>, req: LoopRequest, o: LoopOptions)
    requires FinishedRun(report, run, path, g, script, req, o)
    ensures var responses := ResponsesOf(g.rounds);
            && TotalUsage(responses) == Some(report.usage)
            && |AssistantItems(report.appended)| <= |responses| <= |AssistantItems(report.appended)| + 1
            && (forall k | 0 <= k < |AssistantItems(report.appended)| ::
                  var r := responses[k];
                  AssistantItems(report.appended)[k]
                  == AssistantItem(Min(k, U32_MAX), r.parts, r.replay, r.finishReason, if r.usage.Some? then r.usage.value else NO_USAGE))
            && |responses| <= |IssuesOf(g.rounds)|
            && (forall k | 0 <= k < |responses| :: ResponseFor(responses[k], RequestOf(IssuesOf(g.rounds)[k], o)))
  {
    hide Settled, HistoryOk, TotalUsage, RequestsNumbered, RoundsBounded, RevisionsServe, PromptsFresh, FinishedRun, AssistantItems,
         ResponseFor, ResponsesOf, IssuesOf, TakenOf, AppendedBy, BatchCount, RequestOf;
    FinishedFacts(report, run, path, g, script, req, o);
  }

  /**
   * A completed, over-long, refused, filtered or round-limited outcome is what
   * the last response's finish, or the round limit, demands.
   */
  lemma OutcomeIsEarned(report: LoopReport, run: RunState, path: FailPath, g: RunRecord, script: seq<RoundScript>, req: LoopRequest, o: LoopOptions)
    requires FinishedRun(report, run, path, g, script, req, o)
    ensures report.outcome == Completed ==> LastFinish(g.rounds, report.appended, Stop)
    ensures report.outcome == FailedWith(OutputLimit, None) ==> LastFinish(g.rounds, report.appended, Length)
    ensures report.outcome == FailedWith(RefusedByModel, None) ==> LastFinish(g.rounds, report.appended, Refused)
    ensures report.outcome == FailedWith(Filtered, None) ==> LastFinish(g.rounds, report.appended, ContentFiltered)
    ensures report.outcome == FailedWith(MaxToolRounds, None) ==> o.maxToolRounds != 0 && BatchCount(g.rounds) == o.maxToolRounds
  {
    hide Settled, TraceMeans, FinishedRun, AssistantItems, OutcomeDecided, ResponsesOf, IssuesOf, TakenOf, AppendedBy, BatchCount, Calls,
         PathExplained, LastFinish, OutcomeFor;
    FinishedFacts(report, run, path, g, script, req, o);
    FinishedPath(report, run, path, g, script, req, o);
    if !report.outcome.CancelledFor? {
      FailureIsPath(req.config, g.sealed, path, report.outcome);
      PathIsNamed(path);
    }
    ExplainedFinish(path, run, g.rounds, report.appended, o);
  }

  lemma FinishedPath(report: LoopReport, run: RunState, path: FailPath, g: RunRecord, script: seq<RoundScript>, req: LoopRequest, o: LoopOptions)
    requires FinishedRun(report, run, path, g, script, req, o)
    ensures PathExplained(path, run, report.appended, o)
    ensures g.sealed != [] && OutcomeDecided(req.config, g.sealed, |g.sealed| - 1, path, report.outcome)
  {
    hide Chronicle, OutcomeDecided, PathExplained, Stopped, Settled;
  }

  lemma ExplainedFinish(path: FailPath, run: RunState, records: seq<RoundRecord>, items: seq<HistoryItem>, o: LoopOptions)
    requires PathExplained(path, run, items, o) && run.responses == ResponsesOf(records) && run.batches == BatchCount(records)
    ensures path == PathCompleted ==> LastFinish(records, items, Stop)
    ensures path == PathOutputLimit ==> LastFinish(records, items, Length)
    ensures path == PathRefused ==> LastFinish(records, items, Refused)
    ensures path == PathContentFiltered ==> LastFinish(records, items, ContentFiltered)
    ensures path == PathMaxToolRounds ==> o.maxToolRounds != 0 && BatchCount(records) == o.maxToolRounds
  {
    hide AssistantItems, Calls, ResponsesOf, BatchCount;
  }

  /** The last response is in the history, made no calls, and finished for `reason`. */
  ghost predicate LastFinish(records: seq<RoundRecord>, items: seq<HistoryItem>, reason: ModelFinishReason) {
    var responses := ResponsesOf(records);
    && responses != [] && |AssistantItems(items)| == |responses|
    && Calls(responses[|responses| - 1].parts) == [] && responses[|responses| - 1].finishReason == reason
  }

  /** An outcome that is not a cancellation is its path's own. */
  lemma FailureIsPath(config: ExecutionConfig, sealed: seq<Op>, path: FailPath, outcome: LoopOutcome)
    requires sealed != [] && OutcomeDecided(config, sealed, |sealed| - 1, path, outcome) && !outcome.CancelledFor?
    ensures outcome == PathOutcome(path) && path != PathCancelled
  {
    hide CancelledBefore, SealsRun;
    var at := |sealed| - 1;
    forall source: CancelSource ensures !CancelledBefore(config, sealed, at, source) {
      assert (outcome == CancelledFor(ReasonOf(source))) == CancelledBefore(config, sealed, at, source);
    }
  }
}
