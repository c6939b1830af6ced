/** The ledger row of a triggered job and the read-time status derived from it. */
module ExecutionStatus {
  import opened Wrappers

  /** Terminal codes of jobworkerp's `ResultStatus`; every other code is a failure. */
  const RESULT_STATUS_SUCCESS: int := 0
  const RESULT_STATUS_CANCELLED: int := 6

  type RefId = int
  type JobId = int

  /** A row of `execution_ref`; timestamps and the trigger context are left out. */
  datatype ExecutionRef = ExecutionRef(
    sourceType: int,
    sourceId: int,
    sourceName: string,
    serverId: int,
    jobId: Option<JobId>,
    resultStatus: Option<int>,
    enqueueError: Option<string>)

  datatype ProcessingStatus = Unknown | Pending | Running | WaitResult | Cancelling

  datatype ResolvedStatus =
    | Unspecified
    | Pending
    | Running
    | WaitResult
    | Cancelling
    | Succeeded
    | Failed
    | Cancelled
    | Unknown
    | Unavailable
    | EnqueueFailed

  /** A stored job result with its status as the client library decodes it; it may come without its data part. */
  datatype StoredResult = StoredResult(status: Option<int>)

  /** The outcome of one remote query. */
  datatype Answer<+T> = Answered(value: T) | QueryFailed

  /** What one resolution observes of jobworkerp: a client, then two queries in this order. */
  datatype JobView = JobView(
    reachable: bool,
    processing: Answer<Option<ProcessingStatus>>,
    stored: Answer<Option<StoredResult>>)

  predicate IsTerminal(status: ResolvedStatus) {
    status in {ResolvedStatus.Succeeded, ResolvedStatus.Failed, ResolvedStatus.Cancelled, ResolvedStatus.EnqueueFailed}
  }

  function MapProcessingStatus(status: ProcessingStatus): ResolvedStatus {
    match status
    case Pending => ResolvedStatus.Pending
    case Running => ResolvedStatus.Running
    case WaitResult => ResolvedStatus.WaitResult
    case Cancelling => ResolvedStatus.Cancelling
    case Unknown => ResolvedStatus.Unknown
  }

  function MapResultStatus(status: int): ResolvedStatus {
    if status == RESULT_STATUS_SUCCESS then ResolvedStatus.Succeeded
    else if status == RESULT_STATUS_CANCELLED then ResolvedStatus.Cancelled
    else ResolvedStatus.Failed
  }

  function ResolveStatusWithoutStoredResult(recorded: Option<int>): ResolvedStatus {
    match recorded
    case Some(status) => MapResultStatus(status)
    case None => ResolvedStatus.Succeeded
  }

  function ResolveJobidlessStatus(enqueueError: Option<string>, resultStatus: Option<int>): ResolvedStatus {
    if enqueueError.Some? then ResolvedStatus.EnqueueFailed
    else if resultStatus.Some? then ResolveStatusWithoutStoredResult(resultStatus)
    else ResolvedStatus.Running
  }

  function ResolveStatus(ref: ExecutionRef, view: JobView): ResolvedStatus {
    if ref.jobId.None? then
      ResolveJobidlessStatus(ref.enqueueError, ref.resultStatus)
    else if !view.reachable then
      ResolvedStatus.Unavailable
    else
      match view.processing
      case QueryFailed => ResolvedStatus.Unavailable
      case Answered(Some(status)) => MapProcessingStatus(status)
      case Answered(None) =>
        match view.stored
        case QueryFailed => ResolvedStatus.Unavailable
        case Answered(Some(result)) =>
          if result.status.Some? then MapResultStatus(result.status.value) else ResolvedStatus.Failed
        case Answered(None) => ResolveStatusWithoutStoredResult(ref.resultStatus)
  }

  /** The ledger knows how the execution ended. */
  predicate HasOutcome(ref: ExecutionRef) {
    ref.resultStatus.Some? || ref.enqueueError.Some?
  }

  /** The job was queried successfully and is no longer processed. */
  predicate SeenGone(view: JobView) {
    view.reachable && view.processing == Answered(None) && view.stored.Answered?
  }

  /**
   * A ref is deletable exactly when the ledger carries an outcome and no job, or
   * jobworkerp answered both queries and no longer processes the recorded job.
   */
  lemma TerminalExactly(ref: ExecutionRef, view: JobView)
    ensures IsTerminal(ResolveStatus(ref, view)) <==>
            if ref.jobId.None? then HasOutcome(ref) else SeenGone(view)
  {
  }

  /**
   * A terminal status can be resolved for a ref whose ledger row carries no outcome:
   * exactly when a recorded job is gone, in which case success is inferred unless
   * jobworkerp still stores a result.
   */
  lemma TerminalWithoutOutcome(ref: ExecutionRef, view: JobView)
    requires !HasOutcome(ref)
    ensures IsTerminal(ResolveStatus(ref, view)) <==> ref.jobId.Some? && SeenGone(view)
    ensures ref.jobId.Some? && SeenGone(view) && view.stored == Answered(None) ==>
            ResolveStatus(ref, view) == ResolvedStatus.Succeeded
  {
  }

  /** The processing status jobworkerp reported for the recorded job. */
  function Reported(ref: ExecutionRef, view: JobView): Option<ProcessingStatus> {
    if ref.jobId.Some? && view.reachable && view.processing.Answered? then view.processing.value else None
  }

  /** The code that ends the execution: jobworkerp's stored one before the ledger's. */
  function FinalCode(ref: ExecutionRef, view: JobView): Option<int> {
    if ref.jobId.Some? && view.stored.Answered? && view.stored.value.Some? then view.stored.value.value.status else ref.resultStatus
  }

  predicate Decided(ref: ExecutionRef, view: JobView) {
    if ref.jobId.None? then HasOutcome(ref) && ref.enqueueError.None? else SeenGone(view)
  }

  predicate ReadsAsSuccess(ref: ExecutionRef, view: JobView) {
    FinalCode(ref, view) == Some(0) || (ref.resultStatus.None? && view.stored == Answered(None))
  }

  /** From the status shown back to what must have been recorded and observed. */
  lemma ShownStatusMeans(ref: ExecutionRef, view: JobView)
    ensures var shown := ResolveStatus(ref, view);
            && (shown == ResolvedStatus.EnqueueFailed <==> ref.jobId.None? && ref.enqueueError.Some?)
            && (shown == ResolvedStatus.Pending <==> Reported(ref, view) == Some(ProcessingStatus.Pending))
            && (shown == ResolvedStatus.WaitResult <==> Reported(ref, view) == Some(ProcessingStatus.WaitResult))
            && (shown == ResolvedStatus.Cancelling <==> Reported(ref, view) == Some(ProcessingStatus.Cancelling))
            && (shown == ResolvedStatus.Unknown <==> Reported(ref, view) == Some(ProcessingStatus.Unknown))
            && (shown == ResolvedStatus.Running <==>
                  Reported(ref, view) == Some(ProcessingStatus.Running) || (ref.jobId.None? && !HasOutcome(ref)))
            && (shown == ResolvedStatus.Cancelled <==> Decided(ref, view) && FinalCode(ref, view) == Some(6))
            && (shown == ResolvedStatus.Succeeded <==> Decided(ref, view) && ReadsAsSuccess(ref, view))
            && (shown == ResolvedStatus.Unavailable <==> ref.jobId.Some? && Reported(ref, view).None? && !SeenGone(view))
            && shown != ResolvedStatus.Unspecified
  {
  }
}
