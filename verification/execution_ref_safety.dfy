/** Safety of the ledger over every interleaving of drivers, cancellers and deleters. */
module ExecutionRefSafety {
  import opened Wrappers
  import opened ExecutionStatus
  import opened ExecutionRefRepository
  import opened ExecutionRefLifecycle

  /** `t` is `s` up to the tasks that only read the ledger, and keeps every promise made about `s`. */
  ghost predicate Kept(s: State, t: State) {
    LedgerInv(t) && Evolves(s, t)
  }

  lemma StartKeeps(s: State, task: TaskId, detached: bool)
    requires LedgerInv(s) && task !in s.drivers
    ensures Kept(s, WithDriver(s, task, Driver(detached, None, None, Starting)))
  {
  }

  lemma RecordPendingKeeps(s: State, task: TaskId, id: RefId, ref: ExecutionRef)
    requires LedgerInv(s) && DriverAt(s, task, Starting) && id !in s.owners && IsPending(ref)
    ensures Kept(s, AfterRecordPending(s, task, id, ref))
  {
  }

  lemma RecordFailsKeeps(s: State, task: TaskId)
    requires LedgerInv(s) && DriverAt(s, task, Starting)
    ensures Kept(s, WithPc(s, task, if s.drivers[task].detached then Aborted else Prepared))
  {
  }

  lemma EnqueueKeeps(s: State, task: TaskId, job: JobId, started: Job, known: bool)
    requires LedgerInv(s) && DriverAt(s, task, Prepared) && !IsKnown(s, job)
    ensures Kept(s, AfterEnqueue(s, task, job, started, known))
  {
  }

  lemma EndingKeeps(s: State, task: TaskId, outcome: Outcome)
    requires LedgerInv(s) && (DriverAt(s, task, Prepared) || DriverAt(s, task, Awaiting))
    requires outcome.Completed? ==>
               && s.drivers[task].job.Some? && !IsLive(s, s.drivers[task].job.value)
               && (outcome.jobId.Some? ==> outcome.jobId == s.drivers[task].job)
    ensures Kept(s, WithPc(s, task, Ending(outcome)))
  {
  }

  lemma UpdateJobIdKeeps(s: State, task: TaskId, ok: bool)
    requires LedgerInv(s) && task in s.drivers && s.drivers[task].pc.Enqueued?
    ensures Kept(s, AfterUpdateJobId(s, task, ok))
  {
  }

  lemma DoneWithoutWriteKeeps(s: State, task: TaskId)
    requires LedgerInv(s) && task in s.drivers && s.drivers[task].pc.Ending?
    ensures Kept(s, WithPc(s, task, Done(s.drivers[task].pc.outcome)))
  {
  }

  lemma DoneCompletedKeeps(s: State, task: TaskId)
    requires LedgerInv(s) && task in s.drivers && s.drivers[task].pc.Ending? && s.drivers[task].pc.outcome.Completed?
    requires s.drivers[task].ref.Some? && s.drivers[task].ref.value in s.refs
    ensures Kept(s, AfterRecordOutcome(s, task, true))
  {
  }

  lemma DoneErroredKeeps(s: State, task: TaskId)
    requires LedgerInv(s) && task in s.drivers && s.drivers[task].pc.Ending? && s.drivers[task].pc.outcome.Errored?
    requires s.drivers[task].ref.Some? && s.drivers[task].ref.value in s.refs
    ensures Kept(s, AfterRecordOutcome(s, task, true))
  {
  }

  lemma RecordOutcomeKeeps(s: State, task: TaskId, ok: bool)
    requires LedgerInv(s) && task in s.drivers && s.drivers[task].pc.Ending?
    ensures Kept(s, AfterRecordOutcome(s, task, ok))
  {
    var driver := s.drivers[task];
    if driver.ref.None? || !ok || driver.ref.value !in s.refs {
      DoneWithoutWriteKeeps(s, task);
    } else if driver.pc.outcome.Completed? {
      DoneCompletedKeeps(s, task);
    } else {
      DoneErroredKeeps(s, task);
    }
  }

  lemma JobsKeep(s: State, job: JobId, after: Job)
    requires LedgerInv(s) && (IsKnown(s, job) ==> LegalChange(s.jobs[job], after))
    ensures Kept(s, s.(jobs := s.jobs[job := after]))
  {
  }

  lemma CancelWriteKeepsLedger(s: State, id: RefId, job: JobId)
    requires LedgerInv(s) && WasRecorded(s, id, job) && id in s.refs && !IsCancelled(s.refs[id])
    ensures LedgerInv(s.(refs := ResultUpdated(s.refs, id, Some(job), RESULT_STATUS_CANCELLED)))
  {
  }

  lemma CancelWriteKeepsFacts(s: State, id: RefId, job: JobId)
    requires LedgerInv(s) && WasRecorded(s, id, job) && id in s.refs && !IsCancelled(s.refs[id])
    ensures Evolves(s, s.(refs := ResultUpdated(s.refs, id, Some(job), RESULT_STATUS_CANCELLED)))
  {
  }

  lemma CancelWriteKeeps(s: State, id: RefId, job: JobId)
    requires LedgerInv(s) && WasRecorded(s, id, job)
    ensures Kept(s, s.(refs := ResultUpdated(s.refs, id, Some(job), RESULT_STATUS_CANCELLED)))
  {
    if id in s.refs && !IsCancelled(s.refs[id]) {
      CancelWriteKeepsLedger(s, id, job);
      CancelWriteKeepsFacts(s, id, job);
    } else {
      assert ResultUpdated(s.refs, id, Some(job), RESULT_STATUS_CANCELLED) == s.refs;
    }
  }

  lemma DeletingKeeps(s: State, doomed: set<RefId>)
    requires LedgerInv(s)
    ensures Kept(s, s.(refs := s.refs - doomed))
  {
  }

  lemma CreateExternalKeeps(s: State, id: RefId, ref: ExecutionRef)
    requires LedgerInv(s) && id !in s.owners && (ref.jobId.Some? ==> IsKnown(s, ref.jobId.value))
    ensures Kept(s, s.(refs := s.refs[id := ref], owners := s.owners[id := External]))
  {
  }

  // ------------------------------------------------- readers: cancellers and deleters

  /** Whatever a canceller or deleter has read stays true while the ledger evolves. */
  lemma ReadersKeep(s: State, t: State)
    requires Inv(s) && Kept(s, t)
    ensures forall task :: task in s.cancellers ==> WasRecorded(t, s.cancellers[task].ref, s.cancellers[task].job)
    ensures forall task :: task in s.deleters ==> DeleterFits(t, s.deleters[task])
  {
  }

  lemma ReadNow(s: State, listed: Listed)
    requires LedgerInv(s) && listed.id in s.refs && s.refs[listed.id] == listed.ref
    ensures ReadEarlier(s, listed)
  {
  }

  lemma {:induction false} ListingReadsNow(s: State, ids: seq<RefId>)
    requires LedgerInv(s) && AllIn(s.refs, ids)
    ensures |Listing(s.refs, ids)| == |ids|
    ensures forall k :: 0 <= k < |ids| ==> ReadEarlier(s, Listing(s.refs, ids)[k])
  {
    if ids != [] {
      ReadNow(s, Listed(ids[0], s.refs[ids[0]]));
      ListingReadsNow(s, ids[1..]);
    }
  }

  lemma DecisionFits(s: State, deleter: Deleter, stored: Answer<Option<StoredResult>>)
    requires LedgerInv(s) && DeleterFits(s, deleter) && HeadDecidable(deleter)
    ensures DeleterFits(s, DecideOn(deleter, stored))
  {
  }

  // ---------------------------------------------------------------- every step, every run

  lemma SameLedgerKeeps(s: State, t: State)
    requires LedgerInv(s)
    requires t.refs == s.refs && t.owners == s.owners && t.jobs == s.jobs && t.drivers == s.drivers
    ensures Kept(s, t)
  {
  }

  /** Two states that agree on everything but their readers make the same promises. */
  lemma KeptIgnoresReaders(s: State, t: State, u: State)
    requires Kept(s, t)
    requires u.refs == t.refs && u.owners == t.owners && u.jobs == t.jobs && u.drivers == t.drivers
    ensures Kept(s, u)
  {
  }

  lemma DriveKeeps(s: State, task: TaskId, step: DriverStep)
    requires LedgerInv(s) && CanDrive(s, task, step)
    ensures Kept(s, DriveStep(s, task, step))
  {
    match step
    case Start(detached) => StartKeeps(s, task, detached);
    case RecordPending(id, ref) => RecordPendingKeeps(s, task, id, ref);
    case RecordFails => RecordFailsKeeps(s, task);
    case Enqueue(job, started, known) => EnqueueKeeps(s, task, job, started, known);
    case EnqueueFails(error) => EndingKeeps(s, task, Errored(error));
    case UpdateJobId(ok) => UpdateJobIdKeeps(s, task, ok);
    case AwaitCompletes(reported, status) =>
      EndingKeeps(s, task, Completed(if reported then s.drivers[task].job else None, status));
    case AwaitErrs(error) => EndingKeeps(s, task, Errored(error));
    case RecordOutcome(ok) => RecordOutcomeKeeps(s, task, ok);
  }

  lemma CancelKeeps(s: State, task: TaskId, step: CancelStep)
    requires LedgerInv(s) && CancellersFit(s) && CanCancel(s, task, step)
    ensures Kept(s, CancellerStep(s, task, step))
  {
    var t := CancellerStep(s, task, step);
    match step
    case CancelRead(id) => SameLedgerKeeps(s, t);
    case CancelRemote(success, after) =>
      var job := s.cancellers[task].job;
      JobsKeep(s, job, after);
      KeptIgnoresReaders(s, s.(jobs := s.jobs[job := after]), t);
    case CancelWrite(ok) =>
      if ok {
        var canceller := s.cancellers[task];
        CancelWriteKeeps(s, canceller.ref, canceller.job);
        var written := ResultUpdated(s.refs, canceller.ref, Some(canceller.job), RESULT_STATUS_CANCELLED);
        KeptIgnoresReaders(s, s.(refs := written), t);
      } else {
        SameLedgerKeeps(s, t);
      }
  }

  lemma DeleteKeeps(s: State, task: TaskId, step: DeleteStep)
    requires LedgerInv(s) && CanDelete(s, task, step)
    ensures Kept(s, DeleterStep(s, task, step))
  {
    var t := DeleterStep(s, task, step);
    if step.DeleteChunk? {
      var doomed := IdsOf(s.deleters[task].ids[..step.count]);
      DeletingKeeps(s, doomed);
      KeptIgnoresReaders(s, s.(refs := s.refs - doomed), t);
    } else {
      SameLedgerKeeps(s, t);
    }
  }

  lemma OtherKeeps(s: State, step: OtherStep)
    requires LedgerInv(s) && CanHappen(s, step)
    ensures Kept(s, OtherEffect(s, step))
  {
    match step
    case ForceDelete(doomed) => DeletingKeeps(s, doomed);
    case CreateExternal(id, ref) => CreateExternalKeeps(s, id, ref);
    case ForeignJob(job, started) => JobsKeep(s, job, started);
    case JobChanges(job, after) => JobsKeep(s, job, after);
  }

  lemma ReadersStayFit(s: State, t: State)
    requires Inv(s) && Kept(s, t) && t.cancellers == s.cancellers && t.deleters == s.deleters
    ensures Inv(t)
  {
  }

  lemma DriveKeepsInv(s: State, task: TaskId, step: DriverStep)
    requires Inv(s) && CanDrive(s, task, step)
    ensures InvStep(s, DriveStep(s, task, step))
  {
    DriveKeeps(s, task, step);
    ReadersStayFit(s, DriveStep(s, task, step));
  }

  lemma CancelKeepsInv(s: State, task: TaskId, step: CancelStep)
    requires Inv(s) && CanCancel(s, task, step)
    ensures InvStep(s, CancellerStep(s, task, step))
  {
    var t := CancellerStep(s, task, step);
    CancelKeeps(s, task, step);
    ReadersKeep(s, t);
    if step.CancelRead? {
      ReadNow(t, Listed(step.id, t.refs[step.id]));
    }
  }

  lemma DeleteKeepsInv(s: State, task: TaskId, step: DeleteStep)
    requires Inv(s) && CanDelete(s, task, step)
    ensures InvStep(s, DeleterStep(s, task, step))
  {
    var t := DeleterStep(s, task, step);
    DeleteKeeps(s, task, step);
    ReadersKeep(s, t);
    if step.ListRefs? {
      ListingReadsNow(t, step.ids);
    } else if step.DecideHead? {
      DecisionFits(t, s.deleters[task], step.stored);
    }
  }

  lemma OtherKeepsInv(s: State, step: OtherStep)
    requires Inv(s) && CanHappen(s, step)
    ensures InvStep(s, OtherEffect(s, step))
  {
    OtherKeeps(s, step);
    ReadersStayFit(s, OtherEffect(s, step));
  }

  ghost predicate InvStep(s: State, t: State) {
    Inv(t) && Evolves(s, t)
  }

  lemma StepKeepsInv(s: State, step: Step)
    requires Inv(s) && Enabled(s, step)
    ensures InvStep(s, Apply(s, step))
  {
    match step
    case Drive(task, drive) => DriveKeepsInv(s, task, drive);
    case Cancel(task, cancel) => CancelKeepsInv(s, task, cancel);
    case Delete(task, delete) => DeleteKeepsInv(s, task, delete);
    case Elsewhere(other) => OtherKeepsInv(s, other);
  }

  lemma EvolvesTransitive(s: State, t: State, u: State)
    requires LedgerInv(s) && LedgerInv(t) && Evolves(s, t) && Evolves(t, u)
    ensures Evolves(s, u)
  {
  }

  lemma {:induction false} RunKeepsInv(s: State, steps: seq<Step>, t: State)
    requires Inv(s) && Execution(s, steps, t)
    ensures Inv(t) && Evolves(s, t)
    decreases |steps|
  {
    if steps == [] {
      SameLedgerKeeps(s, t);
    } else {
      var next := Apply(s, steps[0]);
      StepKeepsInv(s, steps[0]);
      RunKeepsInv(next, steps[1..], t);
      EvolvesTransitive(s, next, t);
    }
  }

  predicate Reachable(steps: seq<Step>, s: State) {
    Execution(INITIAL, steps, s)
  }

  lemma ReachableInv(steps: seq<Step>, s: State)
    requires Reachable(steps, s)
    ensures Inv(s)
  {
    RunKeepsInv(INITIAL, steps, s);
  }

  // ---------------------------------------------------------------- main results

  /** A resolution that finds neither a processing status nor a stored result. */
  predicate NothingLeft(view: JobView) {
    view.reachable && view.processing == Answered(None) && view.stored == Answered(None)
  }

  /**
   * Once Cancelled, always Cancelled with the same job, in every continuation of every run
   * and as long as the row exists. If a driver created the ref it also resolves to Cancelled
   * whenever jobworkerp has nothing left to say, even after a late enqueue error.
   */
  lemma CancelledIsFinal(before: seq<Step>, s: State, after: seq<Step>, t: State, id: RefId, view: JobView)
    requires Reachable(before, s) && Execution(s, after, t)
    requires id in s.refs && IsCancelled(s.refs[id]) && id in t.refs
    ensures IsCancelled(t.refs[id]) && t.refs[id].jobId == s.refs[id].jobId
    ensures DriverOf(s, id).Some? && NothingLeft(view) ==>
              ResolveStatus(t.refs[id], view) == ResolvedStatus.Cancelled
  {
    ReachableInv(before, s);
    RunKeepsInv(s, after, t);
    var owner := t.owners[id];
    if owner.DrivenBy? {
      assert RowFits(t.refs[id], t.drivers[owner.task]);
    }
  }

  /**
   * A canceller whose remote delete succeeded and whose write is applied leaves the row Cancelled
   * with a job id: its own, unless the row was Cancelled before.
   */
  lemma CancelWriteRecordsItsJob(steps: seq<Step>, s: State, task: TaskId)
    requires Reachable(steps, s) && CanCancel(s, task, CancelWrite(true))
    ensures var canceller := s.cancellers[task];
            canceller.ref in s.refs ==>
              var row := CancellerStep(s, task, CancelWrite(true)).refs[canceller.ref];
              && IsCancelled(row)
              && (IsCancelled(s.refs[canceller.ref]) || row.jobId == Some(canceller.job))
  {
  }

  /** What the ledger and jobworkerp would answer if no query failed. */
  function TrueView(s: State, ref: ExecutionRef, stored: Option<StoredResult>): JobView {
    JobView(true, Answered(if ref.jobId.Some? then ProcessingOf(s, ref.jobId.value) else None), Answered(stored))
  }

  /** Being settled is exactly resolving to a terminal status when every query succeeds. */
  lemma SettledExactlyTerminal(steps: seq<Step>, s: State, id: RefId, stored: Option<StoredResult>)
    requires Reachable(steps, s) && id in s.refs
    ensures Settled(s, id) <==> IsTerminal(ResolveStatus(s.refs[id], TrueView(s, s.refs[id], stored)))
  {
    ReachableInv(steps, s);
    TerminalExactly(s.refs[id], TrueView(s, s.refs[id], stored));
  }

  /** A status seen as terminal never becomes active again, in any continuation of any run. */
  lemma TerminalIsForever(before: seq<Step>, s: State, after: seq<Step>, t: State, id: RefId,
                          seen: Option<StoredResult>, later: Option<StoredResult>)
    requires Reachable(before, s) && Execution(s, after, t)
    requires id in s.refs && id in t.refs
    requires IsTerminal(ResolveStatus(s.refs[id], TrueView(s, s.refs[id], seen)))
    ensures IsTerminal(ResolveStatus(t.refs[id], TrueView(t, t.refs[id], later)))
  {
    ReachableInv(before, s);
    SettledExactlyTerminal(before, s, id, seen);
    RunKeepsInv(s, after, t);
    TerminalExactly(t.refs[id], TrueView(t, t.refs[id], later));
  }

  /**
   * A non-forced delete, single or by source, only removes refs whose recorded job is no
   * longer live or, when no job is recorded, whose driver has recorded its outcome. The
   * statuses were resolved one by one from rows read earlier still.
   */
  lemma DeleteRemovesOnlyFinished(steps: seq<Step>, s: State, task: TaskId, count: nat, id: RefId)
    requires Reachable(steps, s) && CanDelete(s, task, DeleteChunk(count))
    requires id in s.refs && id !in DeleterStep(s, task, DeleteChunk(count)).refs
    ensures s.refs[id].jobId.Some? ==> !IsLive(s, s.refs[id].jobId.value)
    ensures s.refs[id].jobId.None? ==> HasOutcome(s.refs[id])
    ensures s.refs[id].jobId.None? && DriverOf(s, id).Some? ==> DriverOf(s, id).value.pc.Done?
  {
    ReachableInv(steps, s);
    var ids := s.deleters[task].ids;
    var k :| 0 <= k < count && ids[k] == id;
    assert Settled(s, ids[k]);
    var owner := s.owners[id];
    if owner.DrivenBy? {
      assert RowFits(s.refs[id], s.drivers[owner.task]);
    }
  }

  /** A detached driver (manual trigger) never has a job without a stored ref. */
  lemma DetachedNeverEnqueuesUnrecorded(steps: seq<Step>, s: State, task: TaskId)
    requires Reachable(steps, s) && task in s.drivers && s.drivers[task].detached && s.drivers[task].job.Some?
    ensures s.drivers[task].ref.Some? && OwnerIs(s, s.drivers[task].ref.value, DrivenBy(task))
  {
    ReachableInv(steps, s);
    assert DriverFits(s, s.drivers[task]);
  }

  // ---------------------------------------------------------------- the limit of the guarantee

  lemma {:induction false} ExecutionExtends(s: State, steps: seq<Step>, t: State, step: Step)
    requires Execution(s, steps, t) && Enabled(t, step)
    ensures Execution(s, steps + [step], Apply(t, step))
    decreases |steps|
  {
    if steps == [] {
      assert Execution(Apply(t, step), [], Apply(t, step));
      assert (steps + [step])[1..] == [];
    } else {
      ExecutionExtends(Apply(s, steps[0]), steps[1..], t, step);
      assert (steps + [step])[1..] == steps[1..] + [step];
    }
  }

  lemma PendingRecorded(ref: ExecutionRef) returns (steps: seq<Step>, s: State)
    requires IsPending(ref)
    ensures Reachable(steps, s)
    ensures s == State(map[0 := ref], map[0 := DrivenBy(1)], map[], map[1 := Driver(false, Some(0), None, Prepared)], map[], map[])
  {
    var started := Apply(INITIAL, Drive(1, Start(false)));
    assert started == State(map[], map[], map[], map[1 := Driver(false, None, None, Starting)], map[], map[]);
    s := Apply(started, Drive(1, RecordPending(0, ref)));
    ExecutionExtends(INITIAL, [], INITIAL, Drive(1, Start(false)));
    steps := [] + [Drive(1, Start(false))];
    ExecutionExtends(INITIAL, steps, started, Drive(1, RecordPending(0, ref)));
    steps := steps + [Drive(1, RecordPending(0, ref))];
  }

  lemma JobIdRecorded(ref: ExecutionRef) returns (steps: seq<Step>, s: State)
    requires IsPending(ref)
    ensures Reachable(steps, s)
    ensures s == State(map[0 := ref.(jobId := Some(7))], map[0 := DrivenBy(1)], map[7 := Live(ProcessingStatus.Running)],
                       map[1 := Driver(false, Some(0), Some(7), Awaiting)], map[], map[])
  {
    var s0;
    steps, s0 := PendingRecorded(ref);
    var enqueue := Drive(1, Enqueue(7, Live(ProcessingStatus.Running), true));
    var s1 := Apply(s0, enqueue);
    ExecutionExtends(INITIAL, steps, s0, enqueue);
    steps := steps + [enqueue];
    ExecutionExtends(INITIAL, steps, s1, Drive(1, UpdateJobId(true)));
    steps := steps + [Drive(1, UpdateJobId(true))];
    s := Apply(s1, Drive(1, UpdateJobId(true)));
  }

  /** A streaming run whose job has finished while its driver still awaits the outcome. */
  lemma FinishedBeforeItsDriver(ref: ExecutionRef) returns (steps: seq<Step>, s: State)
    requires IsPending(ref)
    ensures Reachable(steps, s)
    ensures s == State(map[0 := ref.(jobId := Some(7))], map[0 := DrivenBy(1)], map[7 := Finished(None)],
                       map[1 := Driver(false, Some(0), Some(7), Awaiting)], map[], map[])
  {
    var s0;
    steps, s0 := JobIdRecorded(ref);
    ExecutionExtends(INITIAL, steps, s0, Elsewhere(JobChanges(7, Finished(None))));
    steps := steps + [Elsewhere(JobChanges(7, Finished(None)))];
    s := Apply(s0, Elsewhere(JobChanges(7, Finished(None))));
  }

  /**
   * A non-forced delete does not wait for the driver: success is inferred for the run of
   * `FinishedBeforeItsDriver`, and the ref is removed while its ledger row has no outcome.
   * By `DeleteRemovesOnlyFinished` this needs a recorded job that is gone.
   */
  lemma OutcomelessRefCanBeDeleted(ref: ExecutionRef) returns (steps: seq<Step>, s: State)
    requires IsPending(ref)
    ensures Reachable(steps, s) && CanDelete(s, 2, DeleteChunk(1))
    ensures 0 in s.refs && !HasOutcome(s.refs[0]) && DriverAt(s, 1, Awaiting)
    ensures 0 !in DeleterStep(s, 2, DeleteChunk(1)).refs
  {
    var s0;
    steps, s0 := FinishedBeforeItsDriver(ref);
    var row := s0.refs[0];
    var s1 := Apply(s0, Delete(2, ListRefs([0])));
    assert Listing(s0.refs, [0]) == [Listed(0, row)];
    var s2 := Apply(s1, Delete(2, ProbeHead(true, false)));
    var s3 := Apply(s2, Delete(2, DecideHead(Answered(None))));
    s := Apply(s3, Delete(2, StartDeleting));
    TerminalExactly(row, JobView(true, Answered(None), Answered(None)));
    ExecutionExtends(INITIAL, steps, s0, Delete(2, ListRefs([0])));
    steps := steps + [Delete(2, ListRefs([0]))];
    ExecutionExtends(INITIAL, steps, s1, Delete(2, ProbeHead(true, false)));
    steps := steps + [Delete(2, ProbeHead(true, false))];
    ExecutionExtends(INITIAL, steps, s2, Delete(2, DecideHead(Answered(None))));
    steps := steps + [Delete(2, DecideHead(Answered(None)))];
    ExecutionExtends(INITIAL, steps, s3, Delete(2, StartDeleting));
    steps := steps + [Delete(2, StartDeleting)];
    assert s.deleters[2] == Deleting([0]);
    assert 0 in IdsOf([0][..1]);
  }
}
