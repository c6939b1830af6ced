/** The `execution_ref` table and the single-statement updates the writers race with. */
module ExecutionRefRepository {
  import opened Wrappers
  import opened ExecutionStatus

  const DELETE_CHUNK_SIZE: nat := 900

  type Ledger = map<RefId, ExecutionRef>

  predicate IsCancelled(ref: ExecutionRef) {
    ref.resultStatus == Some(RESULT_STATUS_CANCELLED)
  }

  /** The effect of `update_result` on a row, including the guard in its WHERE clause. */
  function WithResult(ref: ExecutionRef, jobId: Option<JobId>, status: int): ExecutionRef {
    if IsCancelled(ref) then ref else ref.(jobId := jobId, resultStatus := Some(status))
  }

  function ResultUpdated(rows: Ledger, id: RefId, jobId: Option<JobId>, status: int): Ledger {
    if id in rows then rows[id := WithResult(rows[id], jobId, status)] else rows
  }

  function JobIdUpdated(rows: Ledger, id: RefId, jobId: JobId): Ledger {
    if id in rows then rows[id := rows[id].(jobId := Some(jobId))] else rows
  }

  function EnqueueErrorUpdated(rows: Ledger, id: RefId, error: string): Ledger {
    if id in rows then rows[id := rows[id].(enqueueError := Some(error))] else rows
  }

  function IdsOf(ids: seq<RefId>): set<RefId> {
    set id | id in ids
  }

  /** One call of `update_result`. */
  datatype ResultCall = ResultCall(jobId: Option<JobId>, status: int)

  function ApplyResults(ref: ExecutionRef, calls: seq<ResultCall>): ExecutionRef
    decreases |calls|
  {
    if calls == [] then ref
    else ApplyResults(WithResult(ref, calls[0].jobId, calls[0].status), calls[1..])
  }

  predicate SomeCancelled(calls: seq<ResultCall>) {
    exists call :: call in calls && call.status == RESULT_STATUS_CANCELLED
  }

  /** `k` is the position of the first call that reports Cancelled. */
  predicate FirstCancelledAt(calls: seq<ResultCall>, k: nat) {
    && k < |calls|
    && calls[k].status == RESULT_STATUS_CANCELLED
    && forall i :: 0 <= i < k ==> calls[i].status != RESULT_STATUS_CANCELLED
  }

  lemma {:induction false} CancelledRowIsFrozen(ref: ExecutionRef, calls: seq<ResultCall>)
    requires IsCancelled(ref)
    ensures ApplyResults(ref, calls) == ref
  {
    if calls != [] {
      CancelledRowIsFrozen(ref, calls[1..]);
    }
  }

  /** The first Cancelled call applied decides the row, whatever is applied around it. */
  lemma {:induction false} FirstCancelledWins(ref: ExecutionRef, calls: seq<ResultCall>, k: nat)
    requires !IsCancelled(ref)
    requires FirstCancelledAt(calls, k)
    decreases |calls|
    ensures ApplyResults(ref, calls)
         == ref.(jobId := calls[k].jobId, resultStatus := Some(RESULT_STATUS_CANCELLED))
  {
    var next := WithResult(ref, calls[0].jobId, calls[0].status);
    if k == 0 {
      CancelledRowIsFrozen(next, calls[1..]);
    } else {
      assert calls[0].status != RESULT_STATUS_CANCELLED;
      FirstCancelledWins(next, calls[1..], k - 1);
    }
  }

  lemma {:induction false} LastResultWins(ref: ExecutionRef, calls: seq<ResultCall>)
    requires !IsCancelled(ref)
    requires !SomeCancelled(calls)
    decreases |calls|
    ensures ApplyResults(ref, calls)
         == if calls == [] then ref
            else ref.(jobId := calls[|calls| - 1].jobId, resultStatus := Some(calls[|calls| - 1].status))
  {
    if calls != [] {
      assert calls[0] in calls;
      assert forall call :: call in calls[1..] ==> call in calls;
      LastResultWins(WithResult(ref, calls[0].jobId, calls[0].status), calls[1..]);
    }
  }

  lemma {:induction false} FindFirstCancelled(calls: seq<ResultCall>) returns (k: nat)
    requires SomeCancelled(calls)
    ensures FirstCancelledAt(calls, k)
  {
    if calls[0].status == RESULT_STATUS_CANCELLED {
      k := 0;
    } else {
      var call :| call in calls && call.status == RESULT_STATUS_CANCELLED;
      assert call in calls[1..];
      k := FindFirstCancelled(calls[1..]);
      k := k + 1;
    }
  }

  /**
   * Whether a row ends Cancelled does not depend on the order in which the updates land;
   * the order only selects which Cancelled call supplies the job id.
   */
  lemma CancellationIsOrderIndependent(ref: ExecutionRef, calls: seq<ResultCall>, reordered: seq<ResultCall>)
    requires !IsCancelled(ref)
    requires multiset(calls) == multiset(reordered)
    ensures IsCancelled(ApplyResults(ref, calls)) <==> SomeCancelled(calls)
    ensures IsCancelled(ApplyResults(ref, reordered)) <==> SomeCancelled(calls)
    ensures SomeCancelled(calls) ==>
              exists k: nat :: FirstCancelledAt(reordered, k) && ApplyResults(ref, reordered).jobId == reordered[k].jobId
  {
    assert forall call :: call in calls <==> call in multiset(calls);
    assert forall call :: call in reordered <==> call in multiset(reordered);
    assert SomeCancelled(calls) <==> SomeCancelled(reordered);
    if SomeCancelled(calls) {
      var k := FindFirstCancelled(calls);
      FirstCancelledWins(ref, calls, k);
      var m := FindFirstCancelled(reordered);
      FirstCancelledWins(ref, reordered, m);
    } else {
      LastResultWins(ref, calls);
      LastResultWins(ref, reordered);
      if calls != [] {
        assert calls[|calls| - 1] in calls && reordered[|reordered| - 1] in reordered;
      }
    }
  }

  /** Deleting a list of chunks one statement after the other, with the accumulated row count. */
  function DeleteChunks(rows: Ledger, chunks: seq<seq<RefId>>): (Ledger, nat) {
    if chunks == [] then (rows, 0)
    else
      var here := IdsOf(chunks[0]);
      var (rest, count) := DeleteChunks(rows - here, chunks[1..]);
      (rest, |rows.Keys * here| + count)
  }

  function Flatten(chunks: seq<seq<RefId>>): seq<RefId> {
    if chunks == [] then [] else chunks[0] + Flatten(chunks[1..])
  }

  lemma IdsOfConcat(left: seq<RefId>, right: seq<RefId>)
    ensures IdsOf(left + right) == IdsOf(left) + IdsOf(right)
  {
  }

  /** Two deletes in sequence remove what one delete of both id sets removes, each row counted once. */
  lemma DeletesCompose(rows: Ledger, left: set<RefId>, right: set<RefId>)
    ensures rows - left - right == rows - (left + right)
    ensures |rows.Keys * (left + right)| == |rows.Keys * left| + |(rows - left).Keys * right|
  {
    var first, second := rows.Keys * left, (rows - left).Keys * right;
    assert rows.Keys * (left + right) == first + second;
    assert first !! second;
  }

  /**
   * Where the chunks split is not observable: the surviving rows and the returned count
   * are those of one delete of the whole list, with duplicates counted once.
   */
  lemma {:induction false} ChunkingIsUnobservable(rows: Ledger, chunks: seq<seq<RefId>>)
    ensures DeleteChunks(rows, chunks).0 == rows - IdsOf(Flatten(chunks))
    ensures DeleteChunks(rows, chunks).1 == |rows.Keys * IdsOf(Flatten(chunks))|
    decreases |chunks|
  {
    if chunks != [] {
      var here, rest := IdsOf(chunks[0]), Flatten(chunks[1..]);
      ChunkingIsUnobservable(rows - here, chunks[1..]);
      calc {
        IdsOf(Flatten(chunks));
        { assert Flatten(chunks) == chunks[0] + rest; }
        IdsOf(chunks[0] + rest);
        { IdsOfConcat(chunks[0], rest); }
        here + IdsOf(rest);
      }
      DeletesCompose(rows, here, IdsOf(rest));
    } else {
      NothingDeleted(rows);
    }
  }

  lemma NothingDeleted(rows: Ledger)
    ensures rows - IdsOf([]) == rows
    ensures |rows.Keys * IdsOf([])| == 0
  {
  }

  /** What is deleted after one more chunk. */
  lemma NextChunk(rows: Ledger, ids: seq<RefId>, done: nat, end: nat)
    requires done <= end <= |ids|
    ensures rows - IdsOf(ids[..end]) == rows - IdsOf(ids[..done]) - IdsOf(ids[done..end])
    ensures |rows.Keys * IdsOf(ids[..end])| ==
            |rows.Keys * IdsOf(ids[..done])| + |(rows - IdsOf(ids[..done])).Keys * IdsOf(ids[done..end])|
  {
    assert ids[..end] == ids[..done] + ids[done..end];
    IdsOfConcat(ids[..done], ids[done..end]);
    DeletesCompose(rows, IdsOf(ids[..done]), IdsOf(ids[done..end]));
  }

  /** No other row is touched, and none appears or goes. */
  ghost predicate ChangesOnly(before: Ledger, after: Ledger, id: RefId) {
    after.Keys == before.Keys && forall other :: other in before && other != id ==> after[other] == before[other]
  }

  /** The repository over the table; a statement that fails in the database changes nothing and is left out here. */
  class Repository {
    var rows: Ledger
    var nextId: RefId

    ghost predicate Valid()
      reads this
    {
      forall id :: id in rows ==> id < nextId
    }

    constructor ()
      ensures Valid() && rows == map[]
    {
      rows := map[];
      nextId := 0;
    }

    method Create(ref: ExecutionRef) returns (id: RefId)
      requires Valid()
      modifies this
      ensures Valid() && id !in old(rows) && old(nextId) <= id < nextId
      ensures rows == old(rows)[id := ref]
    {
      id := nextId;
      nextId := nextId + 1;
      rows := rows[id := ref];
    }

    method UpdateResult(id: RefId, jobId: Option<JobId>, status: int) returns (affected: nat)
      modifies this`rows
      ensures rows == ResultUpdated(old(rows), id, jobId, status)
      ensures ChangesOnly(old(rows), rows, id)
      ensures id in rows ==>
                var ref := old(rows)[id];
                rows[id] == if ref.resultStatus == Some(6) then ref else ref.(jobId := jobId, resultStatus := Some(status))
      ensures affected == if id in old(rows) && old(rows)[id].resultStatus != Some(6) then 1 else 0
    {
      affected := 0;
      if id in rows && (rows[id].resultStatus.None? || rows[id].resultStatus.value != RESULT_STATUS_CANCELLED) {
        rows := rows[id := rows[id].(jobId := jobId, resultStatus := Some(status))];
        affected := 1;
      }
    }

    method UpdateJobId(id: RefId, jobId: JobId) returns (affected: nat)
      modifies this`rows
      ensures rows == JobIdUpdated(old(rows), id, jobId)
      ensures ChangesOnly(old(rows), rows, id)
      ensures id in rows ==> rows[id] == old(rows)[id].(jobId := Some(jobId))
      ensures affected == if id in old(rows) then 1 else 0
    {
      affected := 0;
      if id in rows {
        rows := rows[id := rows[id].(jobId := Some(jobId))];
        affected := 1;
      }
    }

    method UpdateEnqueueError(id: RefId, error: string) returns (affected: nat)
      modifies this`rows
      ensures rows == EnqueueErrorUpdated(old(rows), id, error)
      ensures ChangesOnly(old(rows), rows, id)
      ensures id in rows ==> rows[id] == old(rows)[id].(enqueueError := Some(error))
      ensures affected == if id in old(rows) then 1 else 0
    {
      affected := 0;
      if id in rows {
        rows := rows[id := rows[id].(enqueueError := Some(error))];
        affected := 1;
      }
    }

    method Delete(id: RefId) returns (removed: bool)
      modifies this`rows
      ensures removed == (id in old(rows))
      ensures rows == old(rows) - {id}
    {
      removed := id in rows;
      rows := rows - {id};
    }

    /** One `DELETE … WHERE id IN (…)` statement; the bound is the bind-parameter limit. */
    method DeleteIn(ids: seq<RefId>) returns (affected: nat)
      requires 0 < |ids| <= DELETE_CHUNK_SIZE
      modifies this`rows
      ensures rows == old(rows) - IdsOf(ids)
      ensures affected == |old(rows).Keys * IdsOf(ids)|
    {
      affected := |rows.Keys * IdsOf(ids)|;
      rows := rows - IdsOf(ids);
    }

    /** Deletes every listed row in statements of at most `DELETE_CHUNK_SIZE` parameters. */
    method DeleteByIds(ids: seq<RefId>) returns (deleted: nat)
      modifies this`rows
      ensures rows == old(rows) - IdsOf(ids)
      ensures forall id :: id in rows <==> id in old(rows) && id !in ids
      ensures deleted == |old(rows).Keys * IdsOf(ids)|
    {
      deleted := 0;
      var done := 0;
      while done < |ids|
        invariant 0 <= done <= |ids|
        invariant rows == old(rows) - IdsOf(ids[..done])
        invariant deleted == |old(rows).Keys * IdsOf(ids[..done])|
      {
        var end := if |ids| - done < DELETE_CHUNK_SIZE then |ids| else done + DELETE_CHUNK_SIZE;
        NextChunk(old(rows), ids, done, end);
        var affected := DeleteIn(ids[done..end]);
        deleted := deleted + affected;
        done := end;
      }
      assert ids[..done] == ids;
    }

    method DeleteAllBySource(sourceType: int, sourceId: int) returns (deleted: nat)
      modifies this`rows
      ensures rows == map id | id in old(rows) && !OfSource(old(rows)[id], sourceType, sourceId) :: old(rows)[id]
      ensures forall id :: id in rows <==>
                id in old(rows) && (old(rows)[id].sourceType != sourceType || old(rows)[id].sourceId != sourceId)
      ensures forall id :: id in rows ==> rows[id] == old(rows)[id]
      ensures deleted == |old(rows)| - |rows|
    {
      var gone := set id | id in rows && OfSource(rows[id], sourceType, sourceId);
      deleted := |gone|;
      assert rows.Keys - gone == (rows - gone).Keys;
      assert |rows.Keys - gone| == |rows.Keys| - |gone|;
      rows := rows - gone;
    }
  }

  predicate OfSource(ref: ExecutionRef, sourceType: int, sourceId: int) {
    ref.sourceType == sourceType && ref.sourceId == sourceId
  }
}
