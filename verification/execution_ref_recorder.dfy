/**
 * The two drivers of an execution ref: the blocking one shared by the automatic paths and the
 * detached one of the manual trigger. A `World` logs what they do, in order; its replies are
 * arbitrary, so every call of the recorder may fail.
 */
module ExecutionRefRecorder {
  import opened Wrappers
  import opened ExecutionStatus
  import opened ExecutionRefRepository

  datatype WorkflowOutcome = WorkflowOutcome(jobId: Option<JobId>, success: bool, status: int, output: string)

  type Terminal = Result<WorkflowOutcome, string>

  /** The immediate job id, if the runner streams, and what the terminal future resolves to. */
  datatype EnqueuedJob = EnqueuedJob(jobId: Option<JobId>, terminal: Terminal)

  type EnqueueReply = Result<EnqueuedJob, string>

  datatype Event =
    | PendingRecorded(pending: ExecutionRef, reply: Option<RefId>)
    | JobEnqueued
    | JobIdUpdate(id: RefId, jobId: JobId, ok: bool)
    | TerminalAwaited
    | ResultUpdate(id: RefId, outcomeJobId: Option<JobId>, status: int, ok: bool)
    | EnqueueErrorUpdate(id: RefId, error: string, ok: bool)
    | Slept(seconds: nat)

  /** Recorder, jobworkerp and clock; a reply may depend on everything logged before it through its position. */
  class World {
    const recordReply: nat -> Option<RefId>
    const updateReply: nat -> bool
    const enqueueReply: nat -> EnqueueReply
    var trace: seq<Event>

    constructor (recordReply: nat -> Option<RefId>, updateReply: nat -> bool, enqueueReply: nat -> EnqueueReply)
      ensures trace == []
      ensures this.recordReply == recordReply && this.updateReply == updateReply && this.enqueueReply == enqueueReply
    {
      this.recordReply := recordReply;
      this.updateReply := updateReply;
      this.enqueueReply := enqueueReply;
      trace := [];
    }

    method RecordExecutionRef(pending: ExecutionRef) returns (reply: Option<RefId>)
      modifies this
      ensures reply == recordReply(|old(trace)|)
      ensures trace == old(trace) + [PendingRecorded(pending, reply)]
    {
      reply := recordReply(|trace|);
      trace := trace + [PendingRecorded(pending, reply)];
    }

    method Enqueue() returns (reply: EnqueueReply)
      modifies this
      ensures reply == enqueueReply(|old(trace)|)
      ensures trace == old(trace) + [JobEnqueued]
    {
      reply := enqueueReply(|trace|);
      trace := trace + [JobEnqueued];
    }

    method UpdateJobId(id: RefId, jobId: JobId) returns (ok: bool)
      modifies this
      ensures ok == updateReply(|old(trace)|) && trace == old(trace) + [JobIdUpdate(id, jobId, ok)]
    {
      ok := updateReply(|trace|);
      trace := trace + [JobIdUpdate(id, jobId, ok)];
    }

    method AwaitTerminal(terminal: Terminal) returns (result: Terminal)
      modifies this
      ensures result == terminal && trace == old(trace) + [TerminalAwaited]
    {
      result := terminal;
      trace := trace + [TerminalAwaited];
    }

    method UpdateResult(id: RefId, jobId: Option<JobId>, status: int) returns (ok: bool)
      modifies this
      ensures ok == updateReply(|old(trace)|) && trace == old(trace) + [ResultUpdate(id, jobId, status, ok)]
    {
      ok := updateReply(|trace|);
      trace := trace + [ResultUpdate(id, jobId, status, ok)];
    }

    method UpdateEnqueueError(id: RefId, error: string) returns (ok: bool)
      modifies this
      ensures ok == updateReply(|old(trace)|) && trace == old(trace) + [EnqueueErrorUpdate(id, error, ok)]
    {
      ok := updateReply(|trace|);
      trace := trace + [EnqueueErrorUpdate(id, error, ok)];
    }

    method Sleep(seconds: nat)
      modifies this
      ensures trace == old(trace) + [Slept(seconds)]
    {
      trace := trace + [Slept(seconds)];
    }
  }

  /** What awaiting an enqueue without any recorder yields: a setup error is the terminal error. */
  function Awaited(reply: EnqueueReply): Terminal {
    match reply
    case Ok(enqueued) => enqueued.terminal
    case Err(e) => Err(e)
  }

  function EnqueueFailure(error: string): EnqueuedJob {
    EnqueuedJob(None, Err(error))
  }

  function ImmediateJob(reply: EnqueueReply): Option<JobId> {
    if reply.Ok? then reply.value.jobId else None
  }

  function OutcomeUpdate(id: RefId, result: Terminal, ok: bool): Event {
    match result
    case Ok(outcome) => ResultUpdate(id, outcome.jobId, outcome.status, ok)
    case Err(e) => EnqueueErrorUpdate(id, e, ok)
  }

  function JobIdTrace(ref: Option<RefId>, job: Option<JobId>, ok: bool): seq<Event> {
    if ref.Some? && job.Some? then [JobIdUpdate(ref.value, job.value, ok)] else []
  }

  function OutcomeTrace(ref: Option<RefId>, result: Terminal, ok: bool): seq<Event> {
    if ref.Some? then [OutcomeUpdate(ref.value, result, ok)] else []
  }

  /** What a blocking run logs; the two flags are the recorder's replies to the updates. */
  function BlockingTrace(pending: ExecutionRef, ref: Option<RefId>, reply: EnqueueReply, jobOk: bool, outcomeOk: bool): seq<Event> {
    [PendingRecorded(pending, ref), JobEnqueued] + JobIdTrace(ref, ImmediateJob(reply), jobOk)
    + [TerminalAwaited] + OutcomeTrace(ref, Awaited(reply), outcomeOk)
  }

  /** What a detached run logs once its spawned task has ended. */
  function DetachedTrace(id: RefId, reply: EnqueueReply, jobOk: bool, outcomeOk: bool): seq<Event> {
    match reply
    case Err(e) => [JobEnqueued, EnqueueErrorUpdate(id, e, outcomeOk)]
    case Ok(enqueued) =>
      [JobEnqueued] + JobIdTrace(Some(id), enqueued.jobId, jobOk)
      + [TerminalAwaited, OutcomeUpdate(id, enqueued.terminal, outcomeOk)]
  }

  /** The recorder call that ends a run: the outcome of a completed job, or the error. */
  method RecordOutcome(world: World, id: RefId, result: Terminal) returns (ok: bool)
    modifies world
    ensures ok == world.updateReply(|old(world.trace)|) && world.trace == old(world.trace) + [OutcomeUpdate(id, result, ok)]
  {
    match result {
      case Ok(outcome) => ok := world.UpdateResult(id, outcome.jobId, outcome.status);
      case Err(e) => ok := world.UpdateEnqueueError(id, e);
    }
  }

  /** The blocking run that starts at position `at` of the log, with the replies given there. */
  function BlockingRunAt(world: World, at: nat, pending: ExecutionRef): seq<Event> {
    var ref, reply := world.recordReply(at), world.enqueueReply(at + 1);
    var tracking := JobIdTrace(ref, ImmediateJob(reply), world.updateReply(at + 2));
    BlockingTrace(pending, ref, reply, world.updateReply(at + 2), world.updateReply(at + 3 + |tracking|))
  }

  /** The result is the job's own, or the error with which it could not be enqueued. */
  predicate IsResultOf(result: Terminal, reply: EnqueueReply) {
    (reply.Ok? ==> result == reply.value.terminal) && (reply.Err? ==> result == Err(reply.error))
  }

  /** `record_pending_then_update`: whatever the recorder replies, the result is that of the job. */
  method RecordPendingThenUpdate(world: World, pending: ExecutionRef) returns (result: Terminal)
    modifies world
    ensures IsResultOf(result, world.enqueueReply(|old(world.trace)| + 1))
    ensures result == Awaited(world.enqueueReply(|old(world.trace)| + 1))
    ensures world.trace == old(world.trace) + BlockingRunAt(world, |old(world.trace)|, pending)
  {
    ghost var log := world.trace;
    var id, reply := StartRun(world, pending);
    var terminal := match reply case Ok(job) => job.terminal case Err(e) => EnqueueFailure(e).terminal;
    result := FinishRun(world, id, terminal);
    BlockingParts(world, log, pending);
  }

  /** What comes before the await: the pending ref, the enqueue and, if it is known by then, the job id. */
  method StartRun(world: World, pending: ExecutionRef) returns (id: Option<RefId>, reply: EnqueueReply)
    modifies world
    ensures id == world.recordReply(|old(world.trace)|) && reply == world.enqueueReply(|old(world.trace)| + 1)
    ensures world.trace == old(world.trace) + Opening(world, |old(world.trace)|, pending)
  {
    ghost var log := world.trace;
    id := world.RecordExecutionRef(pending);
    reply := world.Enqueue();
    var job := match reply case Ok(job) => job.jobId case Err(e) => EnqueueFailure(e).jobId;
    assert job == ImmediateJob(reply);
    if id.Some? && job.Some? {
      var _ := world.UpdateJobId(id.value, job.value);
    }
  }

  function Opening(world: World, at: nat, pending: ExecutionRef): seq<Event> {
    var ref, reply := world.recordReply(at), world.enqueueReply(at + 1);
    [PendingRecorded(pending, ref), JobEnqueued] + JobIdTrace(ref, ImmediateJob(reply), world.updateReply(at + 2))
  }

  /** The await and what is recorded after it. */
  method FinishRun(world: World, id: Option<RefId>, terminal: Terminal) returns (result: Terminal)
    modifies world
    ensures result == terminal
    ensures world.trace == old(world.trace) + [TerminalAwaited] + OutcomeTrace(id, terminal, world.updateReply(|old(world.trace)| + 1))
  {
    result := world.AwaitTerminal(terminal);
    if id.Some? {
      var _ := RecordOutcome(world, id.value, result);
    }
  }

  lemma BlockingParts(world: World, log: seq<Event>, pending: ExecutionRef)
    ensures var begun := log + Opening(world, |log|, pending);
            var terminal := Awaited(world.enqueueReply(|log| + 1));
            begun + [TerminalAwaited] + OutcomeTrace(world.recordReply(|log|), terminal, world.updateReply(|begun| + 1))
              == log + BlockingRunAt(world, |log|, pending)
  {
    var begun := log + Opening(world, |log|, pending);
    assert |begun| + 1 == |log| + 3 + |JobIdTrace(world.recordReply(|log|), ImmediateJob(world.enqueueReply(|log| + 1)), true)|;
  }

  /** The branch a handler takes when no server id is configured: nothing is recorded. */
  method RunWithoutRef(world: World) returns (result: Terminal)
    modifies world
    ensures IsResultOf(result, world.enqueueReply(|old(world.trace)|))
    ensures var reply := world.enqueueReply(|old(world.trace)|);
            world.trace == old(world.trace) + if reply.Ok? then [JobEnqueued, TerminalAwaited] else [JobEnqueued]
  {
    var reply := world.Enqueue();
    match reply {
      case Ok(enqueued) => result := world.AwaitTerminal(enqueued.terminal);
      case Err(e) => result := Err(e);
    }
  }

  /** `spawn_and_record`; `task` is what the spawned task still has to await. */
  method SpawnAndRecord(world: World, id: RefId)
    returns (result: Result<Option<JobId>, string>, task: Option<Terminal>)
    modifies world
    ensures var reply := world.enqueueReply(|old(world.trace)|);
            exists ok ::
              && world.trace == old(world.trace) + SpawnTrace(id, reply, ok)
              && result == (match reply case Ok(enqueued) => Ok(enqueued.jobId) case Err(e) => Err(e))
              && task == (if reply.Ok? then Some(reply.value.terminal) else None)
  {
    ghost var before, updated := world.trace, true;
    var reply := world.Enqueue();
    match reply {
      case Err(e) =>
        var ok := world.UpdateEnqueueError(id, e);
        updated := ok;
        result, task := Err(e), None;
      case Ok(enqueued) =>
        if enqueued.jobId.Some? {
          var ok := world.UpdateJobId(id, enqueued.jobId.value);
          updated := ok;
        }
        result, task := Ok(enqueued.jobId), Some(enqueued.terminal);
    }
    assert world.trace == before + SpawnTrace(id, reply, updated);
  }

  /** The part of a detached run that happens before the request returns. */
  function SpawnTrace(id: RefId, reply: EnqueueReply, ok: bool): seq<Event> {
    match reply
    case Err(e) => [JobEnqueued, EnqueueErrorUpdate(id, e, ok)]
    case Ok(enqueued) => [JobEnqueued] + JobIdTrace(Some(id), enqueued.jobId, ok)
  }

  /** The spawned task: await the terminal outcome and record it. */
  method MonitorTerminal(world: World, id: RefId, terminal: Terminal) returns (ghost ok: bool)
    modifies world
    ensures world.trace == old(world.trace) + [TerminalAwaited, OutcomeUpdate(id, terminal, ok)]
  {
    var result := world.AwaitTerminal(terminal);
    ok := RecordOutcome(world, id, result);
  }

  /** A manual trigger followed to the end of its spawned task. */
  method SpawnAndRunToCompletion(world: World, id: RefId)
    modifies world
    ensures exists jobOk, outcomeOk ::
              world.trace == old(world.trace)
                + DetachedTrace(id, world.enqueueReply(|old(world.trace)|), jobOk, outcomeOk)
  {
    ghost var before := world.trace;
    ghost var reply := world.enqueueReply(|before|);
    var _, task := SpawnAndRecord(world, id);
    ghost var ok :| world.trace == before + SpawnTrace(id, reply, ok);
    if task.Some? {
      ghost var done := MonitorTerminal(world, id, task.value);
      assert world.trace == before + DetachedTrace(id, reply, ok, done);
    } else {
      assert world.trace == before + DetachedTrace(id, reply, true, ok);
    }
  }

  // ---------------------------------------------------------------- the calls of a run

  predicate IsUpdate(event: Event) {
    event.JobIdUpdate? || event.ResultUpdate? || event.EnqueueErrorUpdate?
  }

  predicate IsOutcome(event: Event) {
    event.ResultUpdate? || event.EnqueueErrorUpdate?
  }

  /**
   * A blocking run records first and enqueues second. Without a recorded ref it updates nothing;
   * with one, every update names it, at most one job id update comes before the await, and
   * exactly one outcome update, of the awaited result, comes last.
   */
  lemma BlockingRunFollowsProtocol(pending: ExecutionRef, ref: Option<RefId>, reply: EnqueueReply, jobOk: bool, outcomeOk: bool)
    ensures var run := BlockingTrace(pending, ref, reply, jobOk, outcomeOk);
            && run[0] == PendingRecorded(pending, ref) && run[1] == JobEnqueued
            && (forall i :: 1 <= i < |run| ==> !run[i].PendingRecorded?)
            && (forall i :: 0 <= i < |run| && IsUpdate(run[i]) ==> ref == Some(run[i].id))
            && (forall i, k :: 0 <= i < |run| && 0 <= k < |run| && run[i].JobIdUpdate? && run[k].JobIdUpdate? ==> i == k)
            && (forall i, k :: 0 <= i < |run| && 0 <= k < |run| && run[i].JobIdUpdate? && run[k].TerminalAwaited? ==> i < k)
            && (forall i :: 0 <= i < |run| && IsOutcome(run[i]) ==>
                  i == |run| - 1 && ref.Some? && run[i] == OutcomeUpdate(ref.value, Awaited(reply), outcomeOk))
            && (ref.Some? <==> IsOutcome(run[|run| - 1]))
  {
  }

  // ---------------------------------------------------------------- effect on the ledger

  /** The effect of one logged call on the ledger; a failed call changes nothing. */
  function Replayed(rows: Ledger, event: Event): Ledger {
    match event
    case PendingRecorded(pending, Some(id)) => rows[id := pending]
    case JobIdUpdate(id, jobId, true) => JobIdUpdated(rows, id, jobId)
    case ResultUpdate(id, jobId, status, true) => ResultUpdated(rows, id, jobId, status)
    case EnqueueErrorUpdate(id, error, true) => EnqueueErrorUpdated(rows, id, error)
    case _ => rows
  }

  function Replay(rows: Ledger, run: seq<Event>): Ledger
    decreases |run|
  {
    if run == [] then rows else Replay(Replayed(rows, run[0]), run[1..])
  }

  lemma {:induction false} ReplayOfConcat(rows: Ledger, left: seq<Event>, right: seq<Event>)
    ensures Replay(rows, left + right) == Replay(Replay(rows, left), right)
    decreases |left|
  {
    if left == [] {
      assert left + right == right;
    } else {
      assert (left + right)[1..] == left[1..] + right;
      ReplayOfConcat(Replayed(rows, left[0]), left[1..], right);
    }
  }

  lemma ReplayOne(rows: Ledger, event: Event)
    ensures Replay(rows, [event]) == Replayed(rows, event)
  {
  }

  /** The two updates a run applies, in order; this is all the ledger sees of either path. */
  function RunEffect(rows: Ledger, id: RefId, reply: EnqueueReply, jobOk: bool, outcomeOk: bool): Ledger {
    var job := ImmediateJob(reply);
    var tracked := if job.Some? then Replayed(rows, JobIdUpdate(id, job.value, jobOk)) else rows;
    Replayed(tracked, OutcomeUpdate(id, Awaited(reply), outcomeOk))
  }

  lemma BlockingEffect(rows: Ledger, pending: ExecutionRef, id: RefId, reply: EnqueueReply, jobOk: bool, outcomeOk: bool)
    ensures Replay(rows, BlockingTrace(pending, Some(id), reply, jobOk, outcomeOk))
         == RunEffect(rows[id := pending], id, reply, jobOk, outcomeOk)
  {
    var opening := [PendingRecorded(pending, Some(id)), JobEnqueued];
    var tracking := JobIdTrace(Some(id), ImmediateJob(reply), jobOk);
    var outcome := OutcomeUpdate(id, Awaited(reply), outcomeOk);
    ReplayOfConcat(rows, opening + tracking + [TerminalAwaited], [outcome]);
    ReplayOfConcat(rows, opening + tracking, [TerminalAwaited]);
    ReplayOfConcat(rows, opening, tracking);
    ReplayOfConcat(rows, [opening[0]], [opening[1]]);
    assert [opening[0]] + [opening[1]] == opening;
    ReplayOne(rows, opening[0]);
    ReplayOne(rows[id := pending], opening[1]);
    var tracked := Replay(rows[id := pending], tracking);
    if tracking != [] {
      ReplayOne(rows[id := pending], tracking[0]);
    }
    ReplayOne(tracked, TerminalAwaited);
    ReplayOne(tracked, outcome);
  }

  lemma DetachedEffect(rows: Ledger, id: RefId, reply: EnqueueReply, jobOk: bool, outcomeOk: bool)
    ensures Replay(rows, DetachedTrace(id, reply, jobOk, outcomeOk)) == RunEffect(rows, id, reply, jobOk, outcomeOk)
  {
    var outcome := OutcomeUpdate(id, Awaited(reply), outcomeOk);
    var tracking := JobIdTrace(Some(id), ImmediateJob(reply), jobOk);
    var rest := if reply.Ok? then [TerminalAwaited] else [];
    assert DetachedTrace(id, reply, jobOk, outcomeOk) == [JobEnqueued] + tracking + rest + [outcome];
    ReplayOfConcat(rows, [JobEnqueued] + tracking + rest, [outcome]);
    ReplayOfConcat(rows, [JobEnqueued] + tracking, rest);
    ReplayOfConcat(rows, [JobEnqueued], tracking);
    ReplayOne(rows, JobEnqueued);
    var tracked := Replay(rows, tracking);
    if tracking != [] {
      ReplayOne(rows, tracking[0]);
    }
    if rest != [] {
      ReplayOne(tracked, TerminalAwaited);
    }
    ReplayOne(tracked, outcome);
  }

  /**
   * Once the pending ref exists, the manual path run to completion changes the ledger exactly as
   * the automatic path does, for every enqueue and terminal outcome and every failing update.
   */
  lemma ManualPathMatchesAutomatic(rows: Ledger, pending: ExecutionRef, id: RefId, reply: EnqueueReply, jobOk: bool, outcomeOk: bool)
    ensures Replay(rows[id := pending], DetachedTrace(id, reply, jobOk, outcomeOk))
         == Replay(rows, BlockingTrace(pending, Some(id), reply, jobOk, outcomeOk))
  {
    BlockingEffect(rows, pending, id, reply, jobOk, outcomeOk);
    DetachedEffect(rows[id := pending], id, reply, jobOk, outcomeOk);
  }

  /** What an undisturbed run leaves in the row of a pending ref. */
  lemma UndisturbedRun(rows: Ledger, id: RefId, reply: EnqueueReply)
    requires id in rows && rows[id].jobId.None? && !HasOutcome(rows[id])
    ensures var after := RunEffect(rows, id, reply, true, true);
            && after.Keys == rows.Keys
            && (forall other :: other in rows && other != id ==> after[other] == rows[other])
            && match reply
               case Err(e) => after[id] == rows[id].(enqueueError := Some(e))
               case Ok(EnqueuedJob(_, Ok(outcome))) =>
                 after[id] == rows[id].(jobId := outcome.jobId, resultStatus := Some(outcome.status))
               case Ok(EnqueuedJob(job, Err(e))) =>
                 after[id] == rows[id].(jobId := job, enqueueError := Some(e))
  {
  }

  /** While the job of either path runs, a job id known at the enqueue stands in the ref's row, so the job can be cancelled. */
  lemma RunningJobIsTracked(rows: Ledger, world: World, at: nat, pending: ExecutionRef, id: RefId, enqueued: EnqueuedJob)
    requires world.recordReply(at) == Some(id) && world.enqueueReply(at + 1) == Ok(enqueued) && world.updateReply(at + 2)
    requires pending.jobId.None?
    ensures Replay(rows, Opening(world, at, pending)) == rows[id := pending.(jobId := enqueued.jobId)]
    ensures Replay(rows[id := pending], SpawnTrace(id, Ok(enqueued), true)) == rows[id := pending.(jobId := enqueued.jobId)]
  {
    var recorded := PendingRecorded(pending, Some(id));
    var tracking := JobIdTrace(Some(id), enqueued.jobId, true);
    ReplayOfConcat(rows, [recorded, JobEnqueued], tracking);
    ReplayOfConcat(rows, [recorded], [JobEnqueued]);
    assert [recorded] + [JobEnqueued] == [recorded, JobEnqueued];
    ReplayOne(rows, recorded);
    ReplayOne(rows[id := pending], JobEnqueued);
    ReplayOfConcat(rows[id := pending], [JobEnqueued], tracking);
    if tracking != [] {
      ReplayOne(rows[id := pending], tracking[0]);
    }
  }

  // ---------------------------------------------------------------- manual trigger

  datatype TriggerError = SourceUnresolved | RefNotCreated | StatusUnreadable

  datatype TriggerOutcome = TriggerOutcome(id: RefId, status: ResolvedStatus)

  /** `live` is what `find_runtime_status` yields right after the enqueue: an error, no ref, or a status. */
  method TriggerExecution(world: World, source: Result<ExecutionRef, TriggerError>, live: Result<Option<ResolvedStatus>, TriggerError>)
    returns (result: Result<TriggerOutcome, TriggerError>, task: Option<Terminal>)
    modifies world
    ensures source.Err? ==> world.trace == old(world.trace) && result == Err(source.error) && task == None
    ensures var at := |old(world.trace)|;
            source.Ok? && world.recordReply(at).None? ==>
              && result == Err(RefNotCreated) && task == None
              && world.trace == old(world.trace) + [PendingRecorded(source.value, None)]
    ensures var at := |old(world.trace)|;
            source.Ok? && world.recordReply(at).Some? ==>
              var id, reply := world.recordReply(at).value, world.enqueueReply(at + 1);
              && (exists ok :: world.trace == old(world.trace) + [PendingRecorded(source.value, Some(id))] + SpawnTrace(id, reply, ok))
              && task == (if reply.Ok? then Some(reply.value.terminal) else None)
              && result == Triggered(id, reply, live)
              && (result.Err? <==> reply.Ok? && reply.value.jobId.Some? && live.Err?)
              && (result.Err? ==> result.error == live.error)
              && (result.Ok? ==> result.value.id == id)
              && (reply.Ok? && live in {Ok(None), Ok(Some(ResolvedStatus.Running))} ==> result == Ok(TriggerOutcome(id, ResolvedStatus.Running)))
  {
    ghost var before := world.trace;
    match source {
      case Err(e) => result, task := Err(e), None;
      case Ok(pending) =>
        var id := world.RecordExecutionRef(pending);
        if id.None? {
          result, task := Err(RefNotCreated), None;
        } else {
          var spawned;
          spawned, task := SpawnAndRecord(world, id.value);
          match spawned {
            case Ok(Some(_)) =>
              match live {
                case Err(e) => result := Err(e);
                case Ok(status) =>
                  result := Ok(TriggerOutcome(id.value, if status.Some? then status.value else ResolvedStatus.Running));
              }
            case Ok(None) => result := Ok(TriggerOutcome(id.value, ResolvedStatus.Running));
            case Err(_) => result := Ok(TriggerOutcome(id.value, ResolvedStatus.EnqueueFailed));
          }
        }
    }
  }

  /** What the caller of a manual trigger is told once the ref exists. */
  function Triggered(id: RefId, reply: EnqueueReply, live: Result<Option<ResolvedStatus>, TriggerError>): Result<TriggerOutcome, TriggerError> {
    if reply.Err? then Ok(TriggerOutcome(id, ResolvedStatus.EnqueueFailed))
    else if reply.value.jobId.None? then Ok(TriggerOutcome(id, ResolvedStatus.Running))
    else
      match live
      case Err(e) => Err(e)
      case Ok(Some(status)) => Ok(TriggerOutcome(id, status))
      case Ok(None) => Ok(TriggerOutcome(id, ResolvedStatus.Running))
  }

  /**
   * The reported status is what the ledger row resolves to at that moment. Only where a job id is
   * known is jobworkerp asked, and then `live` is the answer.
   */
  lemma TriggerReportsTheLedger(before: Ledger, pending: ExecutionRef, id: RefId, reply: EnqueueReply, updated: bool, view: JobView,
                                live: Result<Option<ResolvedStatus>, TriggerError>)
    requires pending.jobId.None? && !HasOutcome(pending)
    requires reply.Err? ==> updated
    ensures var rows := Replay(before, [PendingRecorded(pending, Some(id))] + SpawnTrace(id, reply, updated));
            && id in rows
            && (reply.Ok? && reply.value.jobId.Some? && updated ==> rows[id].jobId == reply.value.jobId)
            && ((reply.Ok? && reply.value.jobId.Some? ==> live == Ok(Some(ResolveStatus(rows[id], view)))) ==>
                  Triggered(id, reply, live) == Ok(TriggerOutcome(id, ResolveStatus(rows[id], view))))
  {
    var recorded := PendingRecorded(pending, Some(id));
    var rows := before[id := pending];
    ReplayOfConcat(before, [recorded], SpawnTrace(id, reply, updated));
    ReplayOne(before, recorded);
    ReplayOne(rows, JobEnqueued);
    match reply {
      case Err(e) =>
        ReplayOfConcat(rows, [JobEnqueued], [EnqueueErrorUpdate(id, e, true)]);
        assert [JobEnqueued] + [EnqueueErrorUpdate(id, e, true)] == SpawnTrace(id, reply, true);
        ReplayOne(rows, EnqueueErrorUpdate(id, e, true));
      case Ok(enqueued) =>
        var tracking := JobIdTrace(Some(id), enqueued.jobId, updated);
        ReplayOfConcat(rows, [JobEnqueued], tracking);
        if tracking != [] {
          ReplayOne(rows, tracking[0]);
        } else {
          assert SpawnTrace(id, reply, updated) == [JobEnqueued];
        }
    }
  }
}
