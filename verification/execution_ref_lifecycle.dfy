/**
 * The execution ledger as a transition system. Any number of blocking drivers
 * (`record_pending_then_update`), detached drivers (`spawn_and_record`), cancellers and
 * deleters interleave their single database statements and remote calls; nothing is
 * locked between two steps, any statement or query may fail, and a task that is never
 * scheduled again has crashed.
 *
 * Assumptions about jobworkerp: a live job has a processing status and a finished one has
 * none; finished is absorbing; an awaited job that yields an outcome is finished (an awaited
 * job that yields an error need not be); job ids are fresh.
 */
module ExecutionRefLifecycle {
  import opened Wrappers
  import opened ExecutionStatus
  import opened ExecutionRefRepository

  type TaskId = int

  datatype Job = Live(status: ProcessingStatus) | Finished(stored: Option<StoredResult>)

  datatype Outcome = Completed(jobId: Option<JobId>, status: int) | Errored(error: string)

  datatype DriverPc =
    | Starting
    | Prepared
    | Enqueued(known: bool)
    | Awaiting
    | Ending(outcome: Outcome)
    | Done(outcome: Outcome)
    | Aborted

  /** `job` is the job jobworkerp runs for the driver, whether or not the driver was told its id. */
  datatype Driver = Driver(detached: bool, ref: Option<RefId>, job: Option<JobId>, pc: DriverPc)

  datatype Canceller = Canceller(ref: RefId, job: JobId, deleted: bool)

  datatype Listed = Listed(id: RefId, ref: ExecutionRef)

  datatype Probe = Probe(reachable: bool, processing: Answer<Option<ProcessingStatus>>)

  /** A non-forced delete: first resolve what was listed one by one, then delete what was selected. */
  datatype Deleter =
    | Resolving(todo: seq<Listed>, probe: Option<Probe>, selected: seq<RefId>)
    | Deleting(ids: seq<RefId>)

  /** Who created a ref: a driver, or a caller of the ledger's own create operation. */
  datatype Owner = DrivenBy(task: TaskId) | External

  /** `owners` remembers every ref ever created, also after its row was deleted. */
  datatype State = State(
    refs: Ledger,
    owners: map<RefId, Owner>,
    jobs: map<JobId, Job>,
    drivers: map<TaskId, Driver>,
    cancellers: map<TaskId, Canceller>,
    deleters: map<TaskId, Deleter>)

  const INITIAL: State := State(map[], map[], map[], map[], map[], map[])

  datatype DriverStep =
    | Start(detached: bool)
    | RecordPending(id: RefId, ref: ExecutionRef)
    | RecordFails
    | Enqueue(job: JobId, started: Job, known: bool)
    | EnqueueFails(error: string)
    | UpdateJobId(ok: bool)
    | AwaitCompletes(reported: bool, status: int)
    | AwaitErrs(error: string)
    | RecordOutcome(ok: bool)

  datatype CancelStep =
    | CancelRead(id: RefId)
    | CancelRemote(success: bool, after: Job)
    | CancelWrite(ok: bool)

  datatype DeleteStep =
    | ListRefs(ids: seq<RefId>)
    | ProbeHead(reachable: bool, failed: bool)
    | DecideHead(stored: Answer<Option<StoredResult>>)
    | StartDeleting
    | DeleteChunk(count: nat)

  datatype OtherStep =
    | ForceDelete(doomed: set<RefId>)
    | CreateExternal(id: RefId, ref: ExecutionRef)
    | ForeignJob(job: JobId, started: Job)
    | JobChanges(job: JobId, after: Job)

  datatype Step =
    | Drive(task: TaskId, drive: DriverStep)
    | Cancel(task: TaskId, cancel: CancelStep)
    | Delete(task: TaskId, delete: DeleteStep)
    | Elsewhere(other: OtherStep)

  predicate IsKnown(s: State, job: JobId) {
    job in s.jobs
  }

  predicate IsLive(s: State, job: JobId) {
    IsKnown(s, job) && s.jobs[job].Live?
  }

  predicate LegalChange(before: Job, after: Job) {
    before.Finished? ==> after.Finished?
  }

  predicate IsPending(ref: ExecutionRef) {
    ref.jobId.None? && !HasOutcome(ref)
  }

  predicate DriverAt(s: State, task: TaskId, pc: DriverPc) {
    task in s.drivers && s.drivers[task].pc == pc
  }

  function ProcessingOf(s: State, job: JobId): Option<ProcessingStatus> {
    if IsLive(s, job) then Some(s.jobs[job].status) else None
  }

  predicate CanDrive(s: State, task: TaskId, step: DriverStep) {
    match step
    case Start(_) => task !in s.drivers
    case RecordPending(id, ref) => DriverAt(s, task, Starting) && id !in s.owners && IsPending(ref)
    case RecordFails => DriverAt(s, task, Starting)
    case Enqueue(job, _, _) => DriverAt(s, task, Prepared) && !IsKnown(s, job)
    case EnqueueFails(_) => DriverAt(s, task, Prepared)
    case UpdateJobId(_) => task in s.drivers && s.drivers[task].pc.Enqueued?
    case AwaitCompletes(_, _) =>
      DriverAt(s, task, Awaiting) && s.drivers[task].job.Some? && !IsLive(s, s.drivers[task].job.value)
    case AwaitErrs(_) => DriverAt(s, task, Awaiting)
    case RecordOutcome(_) => task in s.drivers && s.drivers[task].pc.Ending?
  }

  predicate CanCancel(s: State, task: TaskId, step: CancelStep) {
    match step
    case CancelRead(id) => task !in s.cancellers && id in s.refs && s.refs[id].jobId.Some?
    case CancelRemote(_, after) =>
      && task in s.cancellers && !s.cancellers[task].deleted
      && IsKnown(s, s.cancellers[task].job) && LegalChange(s.jobs[s.cancellers[task].job], after)
    case CancelWrite(_) => task in s.cancellers && s.cancellers[task].deleted
  }

  predicate CanDelete(s: State, task: TaskId, step: DeleteStep) {
    match step
    case ListRefs(ids) => task !in s.deleters && AllIn(s.refs, ids)
    case ProbeHead(_, _) => task in s.deleters && HeadNeedsProbe(s.deleters[task])
    case DecideHead(_) => task in s.deleters && HeadDecidable(s.deleters[task])
    case StartDeleting => task in s.deleters && s.deleters[task].Resolving? && s.deleters[task].todo == []
    case DeleteChunk(count) =>
      task in s.deleters && s.deleters[task].Deleting? && count <= |s.deleters[task].ids| && count <= DELETE_CHUNK_SIZE
  }

  predicate CanHappen(s: State, step: OtherStep) {
    match step
    case ForceDelete(_) => true
    case CreateExternal(id, ref) => id !in s.owners && (ref.jobId.Some? ==> IsKnown(s, ref.jobId.value))
    case ForeignJob(job, _) => !IsKnown(s, job)
    case JobChanges(job, after) => IsKnown(s, job) && LegalChange(s.jobs[job], after)
  }

  predicate Enabled(s: State, step: Step) {
    match step
    case Drive(task, drive) => CanDrive(s, task, drive)
    case Cancel(task, cancel) => CanCancel(s, task, cancel)
    case Delete(task, delete) => CanDelete(s, task, delete)
    case Elsewhere(other) => CanHappen(s, other)
  }

  predicate HeadNeedsProbe(deleter: Deleter) {
    deleter.Resolving? && deleter.todo != [] && deleter.todo[0].ref.jobId.Some? && deleter.probe.None?
  }

  predicate HeadDecidable(deleter: Deleter) {
    deleter.Resolving? && deleter.todo != [] && (deleter.todo[0].ref.jobId.None? || deleter.probe.Some?)
  }

  function WithDriver(s: State, task: TaskId, driver: Driver): State {
    s.(drivers := s.drivers[task := driver])
  }

  function WithPc(s: State, task: TaskId, pc: DriverPc): State
    requires task in s.drivers
  {
    WithDriver(s, task, s.drivers[task].(pc := pc))
  }

  function AfterRecordPending(s: State, task: TaskId, id: RefId, ref: ExecutionRef): State
    requires task in s.drivers
  {
    WithDriver(s, task, s.drivers[task].(ref := Some(id), pc := Prepared))
      .(refs := s.refs[id := ref], owners := s.owners[id := DrivenBy(task)])
  }

  function AfterEnqueue(s: State, task: TaskId, job: JobId, started: Job, known: bool): State
    requires task in s.drivers
  {
    WithDriver(s, task, s.drivers[task].(job := Some(job), pc := Enqueued(known))).(jobs := s.jobs[job := started])
  }

  function AfterUpdateJobId(s: State, task: TaskId, ok: bool): State
    requires task in s.drivers && s.drivers[task].pc.Enqueued?
  {
    var driver := s.drivers[task];
    var writes := driver.pc.known && driver.ref.Some? && driver.job.Some? && ok;
    WithPc(s, task, Awaiting)
      .(refs := if writes then JobIdUpdated(s.refs, driver.ref.value, driver.job.value) else s.refs)
  }

  function OutcomeRecorded(rows: Ledger, ref: Option<RefId>, outcome: Outcome): Ledger {
    match (ref, outcome)
    case (Some(id), Completed(jobId, status)) => ResultUpdated(rows, id, jobId, status)
    case (Some(id), Errored(error)) => EnqueueErrorUpdated(rows, id, error)
    case (None, _) => rows
  }

  function AfterRecordOutcome(s: State, task: TaskId, ok: bool): State
    requires task in s.drivers && s.drivers[task].pc.Ending?
  {
    var driver := s.drivers[task];
    WithPc(s, task, Done(driver.pc.outcome))
      .(refs := if ok then OutcomeRecorded(s.refs, driver.ref, driver.pc.outcome) else s.refs)
  }

  function AfterCancelRemote(s: State, task: TaskId, success: bool, after: Job): State
    requires task in s.cancellers
  {
    var canceller := s.cancellers[task];
    s.(jobs := s.jobs[canceller.job := after],
       cancellers := if success then s.cancellers[task := canceller.(deleted := true)] else s.cancellers - {task})
  }

  function AfterCancelWrite(s: State, task: TaskId, ok: bool): State
    requires task in s.cancellers
  {
    var canceller := s.cancellers[task];
    var written := ResultUpdated(s.refs, canceller.ref, Some(canceller.job), RESULT_STATUS_CANCELLED);
    s.(refs := if ok then written else s.refs, cancellers := s.cancellers - {task})
  }

  predicate AllIn(rows: Ledger, ids: seq<RefId>) {
    forall k :: 0 <= k < |ids| ==> ids[k] in rows
  }

  /** One SELECT: the rows as they are now, in the order of `ids`. */
  function Listing(rows: Ledger, ids: seq<RefId>): (listed: seq<Listed>)
    requires AllIn(rows, ids)
  {
    if ids == [] then [] else [Listed(ids[0], rows[ids[0]])] + Listing(rows, ids[1..])
  }

  function DecideOn(deleter: Deleter, stored: Answer<Option<StoredResult>>): Deleter
    requires HeadDecidable(deleter)
  {
    var head := deleter.todo[0];
    var probe := if deleter.probe.Some? then deleter.probe.value else Probe(false, QueryFailed);
    var status := ResolveStatus(head.ref, JobView(probe.reachable, probe.processing, stored));
    Resolving(deleter.todo[1..], None, if IsTerminal(status) then deleter.selected + [head.id] else deleter.selected)
  }

  function WithDeleter(s: State, task: TaskId, deleter: Deleter): State {
    s.(deleters := s.deleters[task := deleter])
  }

  function AfterProbe(s: State, task: TaskId, reachable: bool, failed: bool): State
    requires task in s.deleters && HeadNeedsProbe(s.deleters[task])
  {
    var deleter := s.deleters[task];
    var answer := if failed then QueryFailed else Answered(ProcessingOf(s, deleter.todo[0].ref.jobId.value));
    WithDeleter(s, task, deleter.(probe := Some(Probe(reachable, answer))))
  }

  function AfterDeleteChunk(s: State, task: TaskId, count: nat): State
    requires task in s.deleters && s.deleters[task].Deleting? && count <= |s.deleters[task].ids|
  {
    var ids := s.deleters[task].ids;
    WithDeleter(s, task, Deleting(ids[count..])).(refs := s.refs - IdsOf(ids[..count]))
  }

  function DriveStep(s: State, task: TaskId, step: DriverStep): State
    requires CanDrive(s, task, step)
  {
    match step
    case Start(detached) => WithDriver(s, task, Driver(detached, None, None, Starting))
    case RecordPending(id, ref) => AfterRecordPending(s, task, id, ref)
    case RecordFails => WithPc(s, task, if s.drivers[task].detached then Aborted else Prepared)
    case Enqueue(job, started, known) => AfterEnqueue(s, task, job, started, known)
    case EnqueueFails(error) => WithPc(s, task, Ending(Errored(error)))
    case UpdateJobId(ok) => AfterUpdateJobId(s, task, ok)
    case AwaitCompletes(reported, status) =>
      WithPc(s, task, Ending(Completed(if reported then s.drivers[task].job else None, status)))
    case AwaitErrs(error) => WithPc(s, task, Ending(Errored(error)))
    case RecordOutcome(ok) => AfterRecordOutcome(s, task, ok)
  }

  function CancellerStep(s: State, task: TaskId, step: CancelStep): State
    requires CanCancel(s, task, step)
  {
    match step
    case CancelRead(id) => s.(cancellers := s.cancellers[task := Canceller(id, s.refs[id].jobId.value, false)])
    case CancelRemote(success, after) => AfterCancelRemote(s, task, success, after)
    case CancelWrite(ok) => AfterCancelWrite(s, task, ok)
  }

  function DeleterStep(s: State, task: TaskId, step: DeleteStep): State
    requires CanDelete(s, task, step)
  {
    match step
    case ListRefs(ids) => WithDeleter(s, task, Resolving(Listing(s.refs, ids), None, []))
    case ProbeHead(reachable, failed) => AfterProbe(s, task, reachable, failed)
    case DecideHead(stored) => WithDeleter(s, task, DecideOn(s.deleters[task], stored))
    case StartDeleting => WithDeleter(s, task, Deleting(s.deleters[task].selected))
    case DeleteChunk(count) => AfterDeleteChunk(s, task, count)
  }

  function OtherEffect(s: State, step: OtherStep): State
    requires CanHappen(s, step)
  {
    match step
    case ForceDelete(doomed) => s.(refs := s.refs - doomed)
    case CreateExternal(id, ref) => s.(refs := s.refs[id := ref], owners := s.owners[id := External])
    case ForeignJob(job, started) => s.(jobs := s.jobs[job := started])
    case JobChanges(job, after) => s.(jobs := s.jobs[job := after])
  }

  function Apply(s: State, step: Step): State
    requires Enabled(s, step)
  {
    match step
    case Drive(task, drive) => DriveStep(s, task, drive)
    case Cancel(task, cancel) => CancellerStep(s, task, cancel)
    case Delete(task, delete) => DeleterStep(s, task, delete)
    case Elsewhere(other) => OtherEffect(s, other)
  }

  /**
   * Nothing but the stated assumptions holds the surroundings back: any refs can be deleted by force, any
   * ref can be created by hand, any new job can appear, a live job can take any turn, and a finished one stays finished.
   */
  lemma SurroundingsAreFree(s: State, doomed: set<RefId>, id: RefId, ref: ExecutionRef, job: JobId, turn: Job)
    ensures var step := Elsewhere(ForceDelete(doomed)); Enabled(s, step) && Apply(s, step) == s.(refs := s.refs - doomed)
    ensures id !in s.owners && (ref.jobId.Some? ==> ref.jobId.value in s.jobs) ==>
              var step := Elsewhere(CreateExternal(id, ref)); Enabled(s, step) && Apply(s, step).refs == s.refs[id := ref]
    ensures job !in s.jobs ==>
              var step := Elsewhere(ForeignJob(job, turn)); Enabled(s, step) && Apply(s, step).jobs == s.jobs[job := turn]
    ensures job in s.jobs ==>
              var step := Elsewhere(JobChanges(job, turn));
              && (Enabled(s, step) <==> s.jobs[job].Live? || turn.Finished?)
              && (Enabled(s, step) ==> Apply(s, step).jobs == s.jobs[job := turn])
  {
  }

  /** `steps` can be taken one after the other from `s` and lead to `t`. */
  predicate Execution(s: State, steps: seq<Step>, t: State)
    decreases |steps|
  {
    if steps == [] then t == s
    else Enabled(s, steps[0]) && Execution(Apply(s, steps[0]), steps[1..], t)
  }

  // ---------------------------------------------------------------- invariant

  function DriverOf(s: State, id: RefId): Option<Driver> {
    if id in s.owners && s.owners[id].DrivenBy? && s.owners[id].task in s.drivers
    then Some(s.drivers[s.owners[id].task]) else None
  }

  /** What the writer protocol allows a row to hold while its driver is at `driver.pc`. */
  predicate RowFits(row: ExecutionRef, driver: Driver) {
    && (row.jobId.Some? ==> row.jobId == driver.job)
    && match driver.pc
       case Starting => false
       case Aborted => false
       case Prepared => IsPending(row)
       case Enqueued(_) => IsPending(row)
       case Awaiting => row.enqueueError.None? && UntouchedOrCancelled(row)
       case Ending(_) => row.enqueueError.None? && UntouchedOrCancelled(row)
       case Done(Completed(_, _)) => row.enqueueError.None?
       case Done(Errored(_)) => UntouchedOrCancelled(row)
  }

  predicate UntouchedOrCancelled(row: ExecutionRef) {
    row.resultStatus.None? || (IsCancelled(row) && row.jobId.Some?)
  }

  predicate DriverFits(s: State, driver: Driver) {
    && (driver.pc.Starting? || driver.pc.Aborted? ==> driver.ref.None? && driver.job.None?)
    && (driver.pc.Prepared? ==> driver.job.None?)
    && (driver.pc.Enqueued? || driver.pc.Awaiting? ==> driver.job.Some?)
    && (driver.job.Some? ==> IsKnown(s, driver.job.value))
    && (driver.detached && !driver.pc.Starting? && !driver.pc.Aborted? ==> driver.ref.Some?)
    && ((driver.pc.Ending? || driver.pc.Done?) && driver.pc.outcome.Completed? ==>
          && driver.job.Some? && !IsLive(s, driver.job.value)
          && (driver.pc.outcome.jobId.Some? ==> driver.pc.outcome.jobId == driver.job))
  }

  predicate CompletedDriver(driver: Option<Driver>, job: JobId) {
    driver.Some? && driver.value.job == Some(job) && driver.value.pc.Done? && driver.value.pc.outcome.Completed?
  }

  /** `job` was once the recorded job of `id`; it still is, unless the driver's outcome replaced it. */
  predicate WasRecorded(s: State, id: RefId, job: JobId) {
    && id in s.owners && IsKnown(s, job)
    && (id in s.refs ==>
          s.refs[id].jobId == Some(job) || (CompletedDriver(DriverOf(s, id), job) && HasOutcome(s.refs[id])))
  }

  /** If the ref still exists, nothing is running for it that the ledger knows of. */
  predicate Settled(s: State, id: RefId) {
    && id in s.owners
    && (id in s.refs ==>
          if s.refs[id].jobId.Some?
          then IsKnown(s, s.refs[id].jobId.value) && !IsLive(s, s.refs[id].jobId.value)
          else HasOutcome(s.refs[id]))
  }

  /** What remains true of a row after it was read. */
  predicate ReadEarlier(s: State, listed: Listed) {
    if listed.ref.jobId.Some? then WasRecorded(s, listed.id, listed.ref.jobId.value)
    else listed.id in s.owners && (HasOutcome(listed.ref) ==> Settled(s, listed.id))
  }

  predicate DeleterFits(s: State, deleter: Deleter) {
    match deleter
    case Resolving(todo, probe, selected) =>
      && (forall k :: 0 <= k < |todo| ==> ReadEarlier(s, todo[k]))
      && (forall k :: 0 <= k < |selected| ==> Settled(s, selected[k]))
      && (probe.Some? && probe.value.processing == Answered(None) && todo != [] && todo[0].ref.jobId.Some? ==>
            !IsLive(s, todo[0].ref.jobId.value))
    case Deleting(ids) =>
      forall k :: 0 <= k < |ids| ==> Settled(s, ids[k])
  }

  predicate OwnerIs(s: State, id: RefId, owner: Owner) {
    id in s.owners && s.owners[id] == owner
  }

  predicate OwnersFit(s: State) {
    && (forall id :: id in s.refs ==> id in s.owners)
    && (forall id :: id in s.owners && s.owners[id].DrivenBy? ==>
          s.owners[id].task in s.drivers && s.drivers[s.owners[id].task].ref == Some(id))
    && (forall task :: task in s.drivers && s.drivers[task].ref.Some? ==>
          OwnerIs(s, s.drivers[task].ref.value, DrivenBy(task)))
  }

  predicate RowsFit(s: State) {
    forall id :: id in s.refs ==>
      && (s.refs[id].jobId.Some? ==> IsKnown(s, s.refs[id].jobId.value))
      && (DriverOf(s, id).Some? ==> RowFits(s.refs[id], DriverOf(s, id).value))
  }

  predicate DriversFit(s: State) {
    forall task :: task in s.drivers ==> DriverFits(s, s.drivers[task])
  }

  predicate CancellersFit(s: State) {
    forall task :: task in s.cancellers ==> WasRecorded(s, s.cancellers[task].ref, s.cancellers[task].job)
  }

  predicate DeletersFit(s: State) {
    forall task :: task in s.deleters ==> DeleterFits(s, s.deleters[task])
  }

  /** The part of the invariant that speaks of the ledger and its drivers only. */
  predicate LedgerInv(s: State) {
    OwnersFit(s) && RowsFit(s) && DriversFit(s)
  }

  predicate Inv(s: State) {
    LedgerInv(s) && CancellersFit(s) && DeletersFit(s)
  }

  // ---------------------------------------------------------------- stability

  ghost predicate JobsEvolve(s: State, t: State) {
    forall job :: IsKnown(s, job) ==> IsKnown(t, job) && (IsLive(t, job) ==> IsLive(s, job))
  }

  /** A ref is never resurrected, and a Cancelled row keeps its status and its job. */
  predicate RowsEvolve(s: State, t: State) {
    forall id :: id in s.owners ==>
      && id in t.owners && t.owners[id] == s.owners[id]
      && (id in t.refs ==> id in s.refs)
      && (id in t.refs && IsCancelled(s.refs[id]) ==>
            IsCancelled(t.refs[id]) && t.refs[id].jobId == s.refs[id].jobId)
  }

  ghost predicate FactsEvolve(s: State, t: State) {
    && (forall id, job :: WasRecorded(s, id, job) ==> WasRecorded(t, id, job))
    && (forall id :: Settled(s, id) ==> Settled(t, id))
  }

  ghost predicate Evolves(s: State, t: State) {
    JobsEvolve(s, t) && RowsEvolve(s, t) && FactsEvolve(s, t)
  }
}
