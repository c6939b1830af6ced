/** Cancelling and deleting refs, each call run to its end over the table. */
module ExecutionApp {
  import opened Wrappers
  import opened ExecutionStatus
  import opened ExecutionRefRepository

  datatype DeleteResult = Deleted | NotFound | NotTerminal

  datatype CancelError = RefNotFound | JobIdMissing | RemoteFailed

  /** The refs of a source that resolve to a terminal status, each under its own view of jobworkerp. */
  function TerminalOfSource(rows: Ledger, sourceType: int, sourceId: int, views: RefId -> JobView): set<RefId> {
    set id | id in rows && OfSource(rows[id], sourceType, sourceId) && IsTerminal(ResolveStatus(rows[id], views(id)))
  }

  function WithCancellation(rows: Ledger, id: RefId, job: JobId): Ledger {
    ResultUpdated(rows, id, Some(job), RESULT_STATUS_CANCELLED)
  }

  /** Resolves the refs of a source one by one, in the order they are listed. */
  method CollectTerminal(rows: Ledger, sourceType: int, sourceId: int, views: RefId -> JobView) returns (terminalIds: seq<RefId>)
    ensures IdsOf(terminalIds) == TerminalOfSource(rows, sourceType, sourceId, views)
  {
    var todo := set id | id in rows && OfSource(rows[id], sourceType, sourceId);
    ghost var listed := todo;
    terminalIds := [];
    while todo != {}
      invariant todo <= listed
      invariant forall id :: id in terminalIds <==> id in listed - todo && IsTerminal(ResolveStatus(rows[id], views(id)))
      decreases |todo|
    {
      var id := AnyOf(todo);
      todo := todo - {id};
      if IsTerminal(ResolveStatus(rows[id], views(id))) {
        terminalIds := terminalIds + [id];
      }
    }
    forall id
      ensures id in IdsOf(terminalIds) <==> id in TerminalOfSource(rows, sourceType, sourceId, views)
    {
      assert id in IdsOf(terminalIds) <==> id in terminalIds;
    }
  }

  class ExecutionStatusApp {
    const repository: Repository

    constructor (repository: Repository)
      ensures this.repository == repository
    {
      this.repository := repository;
    }

    /** `remote` is jobworkerp's answer to the deletion of the job, `recorded` whether the database takes the write. */
    method CancelExecution(id: RefId, remote: Answer<bool>, recorded: bool) returns (result: Result<bool, CancelError>)
      modifies repository`rows
      ensures var before := old(repository.rows);
              if id !in before then result == Err(RefNotFound)
              else if before[id].jobId.None? then result == Err(JobIdMissing)
              else if remote.QueryFailed? then result == Err(RemoteFailed)
              else result == Ok(remote.value)
      ensures var before := old(repository.rows);
              repository.rows == if result == Ok(true) && recorded then WithCancellation(before, id, before[id].jobId.value) else before
      ensures var before, after := old(repository.rows), repository.rows;
              result == Ok(true) && recorded && before[id].resultStatus != Some(6) ==>
                ChangesOnly(before, after, id) && after[id] == before[id].(resultStatus := Some(6))
    {
      if id !in repository.rows {
        return Err(RefNotFound);
      }
      var jobId := repository.rows[id].jobId;
      if jobId.None? {
        return Err(JobIdMissing);
      }
      if remote.QueryFailed? {
        return Err(RemoteFailed);
      }
      if remote.value && recorded {
        var _ := repository.UpdateResult(id, jobId, RESULT_STATUS_CANCELLED);
      }
      return Ok(remote.value);
    }

    method DeleteExecutionRef(id: RefId, view: JobView) returns (result: DeleteResult)
      modifies repository`rows
      ensures result == Deleted <==> id in old(repository.rows) && IsTerminal(ResolveStatus(old(repository.rows)[id], view))
      ensures result == NotFound <==> id !in old(repository.rows)
      ensures repository.rows == if result == Deleted then old(repository.rows) - {id} else old(repository.rows)
    {
      if id !in repository.rows {
        return NotFound;
      }
      if !IsTerminal(ResolveStatus(repository.rows[id], view)) {
        return NotTerminal;
      }
      var removed := repository.Delete(id);
      return if removed then Deleted else NotFound;
    }

    /** Force skips resolution; otherwise the refs are resolved one by one and then deleted in batches. */
    method DeleteExecutionRefsBySource(sourceType: int, sourceId: int, includeActive: bool, views: RefId -> JobView) returns (deleted: nat)
      modifies repository`rows
      ensures includeActive ==>
                var before := old(repository.rows);
                repository.rows == map id | id in before && (before[id].sourceType != sourceType || before[id].sourceId != sourceId) :: before[id]
      ensures !includeActive ==> repository.rows == old(repository.rows) - TerminalOfSource(old(repository.rows), sourceType, sourceId, views)
      ensures forall id :: id in old(repository.rows) ==>
                var ref := old(repository.rows)[id];
                (id !in repository.rows <==>
                   ref.sourceType == sourceType && ref.sourceId == sourceId && (includeActive || IsTerminal(ResolveStatus(ref, views(id)))))
      ensures deleted == |old(repository.rows)| - |repository.rows|
    {
      if includeActive {
        deleted := repository.DeleteAllBySource(sourceType, sourceId);
        return;
      }
      var terminalIds := CollectTerminal(repository.rows, sourceType, sourceId, views);
      deleted := repository.DeleteByIds(terminalIds);
      RowsRemoved(old(repository.rows), IdsOf(terminalIds));
    }
  }

  lemma RowsRemoved(rows: Ledger, gone: set<RefId>)
    ensures |rows.Keys * gone| == |rows| - |rows - gone|
  {
  }

  /** A resolution that finds the job gone and no result stored, as after the cancellation of a pending job. */
  predicate DiscardedJob(view: JobView) {
    view.reachable && view.processing == Answered(None) && view.stored == Answered(None)
  }

  /**
   * Why a cancellation writes to the ledger: jobworkerp discards a cancelled pending job, and the ref
   * then resolves to Cancelled exactly when the ledger says so; without the write success is inferred.
   */
  lemma CancellationMustBeRecorded(rows: Ledger, id: RefId, view: JobView)
    requires id in rows && rows[id].jobId.Some? && DiscardedJob(view)
    ensures ResolveStatus(WithCancellation(rows, id, rows[id].jobId.value)[id], view) == ResolvedStatus.Cancelled
    ensures ResolveStatus(rows[id], view) == ResolvedStatus.Cancelled <==> IsCancelled(rows[id])
    ensures rows[id].resultStatus.None? ==> ResolveStatus(rows[id], view) == ResolvedStatus.Succeeded
  {
  }

  /** With a job id recorded, a terminal error of the run alone does not show: the ref may still resolve to the inferred success. */
  lemma EnqueueErrorHiddenExactlyByJobId(ref: ExecutionRef, view: JobView)
    requires ref.enqueueError.Some? && DiscardedJob(view)
    ensures ResolveStatus(ref, view) == ResolvedStatus.EnqueueFailed <==> ref.jobId.None?
    ensures ref.jobId.Some? && ref.resultStatus.None? ==> ResolveStatus(ref, view) == ResolvedStatus.Succeeded
  {
  }
}
