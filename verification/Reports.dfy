/** How a loop ends: src/agent_loop/mod.rs and the path table of src/agent_loop/runner.rs. */
module Reports {
  import opened Common
  import opened Messages
  import opened History
  import opened Driver
  import opened ControlSpec

  datatype CancelReason = UserCancelled | OwnerDropped | Shutdown | DeadlineReached

  datatype LoopFailureKind =
    | PromptFailure | ModelFailure | InvalidModelResponse | OutputLimit | RefusedByModel | Filtered
    | PolicyFailure | InteractionFailure | MaxToolRounds | InternalFailure

  datatype LoopOutcome =
    | Completed
    | CancelledFor(reason: CancelReason)
    | FailedWith(kind: LoopFailureKind, error: Option<ModelError>)

  datatype FailPath =
    | PathCompleted
    | PathCancelled
    | PathDeadline
    | PathPrompt
    | PathModel(error: ModelError)
    | PathInvalidModelResponse(error: ModelError)
    | PathOutputLimit
    | PathRefused
    | PathContentFiltered
    | PathPolicy
    | PathInteraction
    | PathMaxToolRounds
    | PathInternal

  datatype LoopReport = LoopReport(
    outcome: LoopOutcome,
    appended: seq<HistoryItem>,
    usage: Usage,
    requests: nat,
    toolRounds: nat,
    finalRevision: nat)

  function ReasonOf(source: CancelSource): CancelReason {
    match source
    case ByUser => UserCancelled
    case ByOwnerDropped => OwnerDropped
    case ByShutdown => Shutdown
  }

  /** `cancel_reason_value`: every status that is not a cancel marker reads as `User`. */
  function StatusReason(status: Status): CancelReason {
    match status
    case CancelledBy(source) => ReasonOf(source)
    case _ => UserCancelled
  }

  function OutcomeFor(path: FailPath, status: Status): LoopOutcome {
    match path
    case PathCompleted => Completed
    case PathCancelled => CancelledFor(StatusReason(status))
    case PathDeadline => CancelledFor(DeadlineReached)
    case PathPrompt => FailedWith(PromptFailure, None)
    case PathModel(error) => FailedWith(ModelFailure, Some(error))
    case PathInvalidModelResponse(error) => FailedWith(InvalidModelResponse, Some(error))
    case PathOutputLimit => FailedWith(OutputLimit, None)
    case PathRefused => FailedWith(RefusedByModel, None)
    case PathContentFiltered => FailedWith(Filtered, None)
    case PathPolicy => FailedWith(PolicyFailure, None)
    case PathInteraction => FailedWith(InteractionFailure, None)
    case PathMaxToolRounds => FailedWith(MaxToolRounds, None)
    case PathInternal => FailedWith(InternalFailure, None)
  }

  /** What a panicking runner reports. */
  const PANIC_REPORT := LoopReport(FailedWith(InternalFailure, None), [], NO_USAGE, 0, 0, 0)

  // ---- Usage -----------------------------------------------------------------------------

  /** `sum_field`: a missing count adds nothing; an overflow fails. */
  function SumField(a: Option<nat>, b: Option<nat>): Option<Option<nat>> {
    if a.Some? && b.Some? then
      if a.value + b.value > U64_MAX then None else Some(Some(a.value + b.value))
    else Some(if a.Some? then a else b)
  }

  function SumUsage(a: Usage, b: Usage): Option<Usage> {
    var input := SumField(a.input, b.input);
    var output := SumField(a.output, b.output);
    var reasoning := SumField(a.reasoning, b.reasoning);
    var read := SumField(a.cacheRead, b.cacheRead);
    var write := SumField(a.cacheWrite, b.cacheWrite);
    var total := SumField(a.providerTotal, b.providerTotal);
    if input.Some? && output.Some? && reasoning.Some? && read.Some? && write.Some? && total.Some? then
      Some(Usage(input.value, output.value, reasoning.value, read.value, write.value, total.value))
    else None
  }
}
