/**
 * The drivers as they are written, call by call, against the driver steps of the transition system;
 * and cancel and delete, run undisturbed, against its canceller and deleter steps.
 */
module ExecutionRefRefinement {
  import opened Wrappers
  import opened ExecutionStatus
  import opened ExecutionRefRepository
  import opened ExecutionRefLifecycle
  import opened ExecutionRefRecorder
  import opened ExecutionApp

  /** One run of a driver: what is recorded and replied, and the job jobworkerp runs for it. */
  datatype Script = Script(
    detached: bool,
    pending: ExecutionRef,
    ref: Option<RefId>,
    reply: EnqueueReply,
    job: JobId,
    started: Job,
    jobOk: bool,
    outcomeOk: bool)

  /** An outcome, and a job id told early, name the job they belong to. */
  predicate Plausible(script: Script) {
    script.reply.Ok? ==>
      var enqueued := script.reply.value;
      && (enqueued.jobId.Some? ==> enqueued.jobId == Some(script.job))
      && (enqueued.terminal.Ok? && enqueued.terminal.value.jobId.Some? ==> enqueued.terminal.value.jobId == Some(script.job))
  }

  /** A manual trigger whose ref was not stored ends there. */
  predicate StopsEarly(script: Script) {
    script.detached && script.ref.None?
  }

  function RecordStep(script: Script): DriverStep {
    if script.ref.Some? then RecordPending(script.ref.value, script.pending) else RecordFails
  }

  function AwaitStep(terminal: Terminal): DriverStep {
    match terminal
    case Ok(outcome) => AwaitCompletes(outcome.jobId.Some?, outcome.status)
    case Err(e) => AwaitErrs(e)
  }

  function MoveCount(script: Script): nat {
    if StopsEarly(script) then 1 else if script.reply.Err? then 3 else 5
  }

  /** The driver's own steps, by number. */
  function MoveAt(script: Script, k: nat): DriverStep
    requires k < MoveCount(script)
  {
    if k == 0 then RecordStep(script)
    else if k == MoveCount(script) - 1 then DriverStep.RecordOutcome(script.outcomeOk)
    else
      match script.reply
      case Err(e) => EnqueueFails(e)
      case Ok(enqueued) =>
        if k == 1 then DriverStep.Enqueue(script.job, script.started, enqueued.jobId.Some?)
        else if k == 2 then DriverStep.UpdateJobId(script.jobOk)
        else AwaitStep(enqueued.terminal)
  }

  /** What the driver's code logs at each of its steps. */
  function LoggedAt(script: Script, k: nat): seq<Event>
    requires k < MoveCount(script)
  {
    if k == 0 then [PendingRecorded(script.pending, script.ref)]
    else if k == MoveCount(script) - 1 then OutcomeTrace(script.ref, Awaited(script.reply), script.outcomeOk)
    else
      match script.reply
      case Err(_) => if script.detached then [JobEnqueued] else [JobEnqueued] + [TerminalAwaited]
      case Ok(enqueued) =>
        if k == 1 then [JobEnqueued] else if k == 2 then JobIdTrace(script.ref, enqueued.jobId, script.jobOk) else [TerminalAwaited]
  }

  function LoggedUpTo(script: Script, k: nat): seq<Event>
    requires k <= MoveCount(script)
  {
    if k == 0 then [] else LoggedUpTo(script, k - 1) + LoggedAt(script, k - 1)
  }

  function RunOf(script: Script): seq<Event> {
    if !script.detached then BlockingTrace(script.pending, script.ref, script.reply, script.jobOk, script.outcomeOk)
    else
      [PendingRecorded(script.pending, script.ref)]
      + if script.ref.Some? then DetachedTrace(script.ref.value, script.reply, script.jobOk, script.outcomeOk) else []
  }

  lemma ThreeParts(script: Script)
    requires MoveCount(script) == 3
    ensures LoggedUpTo(script, 3) == LoggedAt(script, 0) + LoggedAt(script, 1) + LoggedAt(script, 2)
  {
    assert LoggedUpTo(script, 1) == LoggedAt(script, 0);
    assert LoggedUpTo(script, 2) == LoggedUpTo(script, 1) + LoggedAt(script, 1);
  }

  lemma FiveParts(script: Script)
    requires MoveCount(script) == 5
    ensures LoggedUpTo(script, 5) ==
            LoggedAt(script, 0) + LoggedAt(script, 1) + LoggedAt(script, 2) + LoggedAt(script, 3) + LoggedAt(script, 4)
  {
    assert LoggedUpTo(script, 1) == LoggedAt(script, 0);
    assert LoggedUpTo(script, 2) == LoggedUpTo(script, 1) + LoggedAt(script, 1);
    assert LoggedUpTo(script, 3) == LoggedUpTo(script, 2) + LoggedAt(script, 2);
    assert LoggedUpTo(script, 4) == LoggedUpTo(script, 3) + LoggedAt(script, 3);
  }

  /** The parts a run of either kind consists of, by its trace. */
  lemma RunParts(script: Script)
    requires !StopsEarly(script)
    ensures var recorded := [PendingRecorded(script.pending, script.ref)];
            var outcome := OutcomeTrace(script.ref, Awaited(script.reply), script.outcomeOk);
            RunOf(script) ==
              if script.reply.Err? then recorded + (if script.detached then [JobEnqueued] else [JobEnqueued] + [TerminalAwaited]) + outcome
              else recorded + [JobEnqueued] + JobIdTrace(script.ref, script.reply.value.jobId, script.jobOk) + [TerminalAwaited] + outcome
  {
  }

  /** Put together, these are the runs of `record_pending_then_update` and of a manual trigger. */
  lemma LoggedIsTheRun(script: Script)
    ensures LoggedUpTo(script, MoveCount(script)) == RunOf(script)
  {
    if StopsEarly(script) {
      assert LoggedUpTo(script, 1) == [] + [PendingRecorded(script.pending, script.ref)];
    } else {
      RunParts(script);
      if script.reply.Err? {
        ThreeParts(script);
      } else {
        FiveParts(script);
      }
    }
  }

  function OutcomeOf(terminal: Terminal): Outcome {
    match terminal
    case Ok(outcome) => Completed(outcome.jobId, outcome.status)
    case Err(e) => Errored(e)
  }

  /** The driver after k of its steps. */
  function DriverAfter(script: Script, k: nat): Driver
    requires k <= MoveCount(script)
  {
    var outcome := OutcomeOf(Awaited(script.reply));
    if k == 0 then Driver(script.detached, None, None, Starting)
    else if StopsEarly(script) then Driver(true, None, None, Aborted)
    else if k == 1 then Driver(script.detached, script.ref, None, Prepared)
    else if script.reply.Err? then Driver(script.detached, script.ref, None, if k == 2 then Ending(outcome) else Done(outcome))
    else
      Driver(script.detached, script.ref, Some(script.job),
             if k == 2 then Enqueued(script.reply.value.jobId.Some?) else if k == 3 then Awaiting
             else if k == 4 then Ending(outcome) else Done(outcome))
  }

  /** What step k needs of its surroundings: fresh ids, and a job that has ended before its outcome arrives. */
  predicate SurroundingsReady(s: State, script: Script, k: nat) {
    && (k == 0 && script.ref.Some? ==> script.ref.value !in s.owners && IsPending(script.pending))
    && (k == 1 && script.reply.Ok? ==> !IsKnown(s, script.job))
    && (k == 3 && script.reply.Ok? && script.reply.value.terminal.Ok? ==> !IsLive(s, script.job))
  }

  predicate IsAfter(s: State, task: TaskId, script: Script, k: nat)
    requires k <= MoveCount(script)
  {
    task in s.drivers && s.drivers[task] == DriverAfter(script, k)
  }

  lemma MoveCanBeTaken(s: State, task: TaskId, script: Script, k: nat)
    requires Plausible(script) && k < MoveCount(script) && IsAfter(s, task, script, k)
    ensures CanDrive(s, task, MoveAt(script, k)) <==> SurroundingsReady(s, script, k)
  {
  }

  /** The driver moves on, and the table changes as the log says. */
  predicate MoveFits(s: State, task: TaskId, script: Script, k: nat)
    requires k < MoveCount(script) && CanDrive(s, task, MoveAt(script, k))
  {
    var t := DriveStep(s, task, MoveAt(script, k));
    IsAfter(t, task, script, k + 1) && t.refs == Replay(s.refs, LoggedAt(script, k))
  }

  lemma ReplayParts(rows: Ledger, events: seq<Event>)
    requires |events| <= 2
    ensures Replay(rows, events) ==
            if events == [] then rows
            else if |events| == 1 then Replayed(rows, events[0]) else Replayed(Replayed(rows, events[0]), events[1])
  {
    if |events| == 1 {
      assert events == [events[0]];
      ReplayOne(rows, events[0]);
    } else if |events| == 2 {
      assert events == [events[0]] + [events[1]];
      ReplayOfConcat(rows, [events[0]], [events[1]]);
      ReplayOne(rows, events[0]);
      ReplayOne(Replayed(rows, events[0]), events[1]);
    }
  }

  lemma RecordMoveFits(s: State, task: TaskId, script: Script)
    requires IsAfter(s, task, script, 0) && CanDrive(s, task, MoveAt(script, 0))
    ensures MoveFits(s, task, script, 0)
  {
    ReplayParts(s.refs, LoggedAt(script, 0));
  }

  lemma RefusedMoveFits(s: State, task: TaskId, script: Script)
    requires MoveCount(script) == 3 && IsAfter(s, task, script, 1) && CanDrive(s, task, MoveAt(script, 1))
    ensures MoveFits(s, task, script, 1)
  {
    ReplayParts(s.refs, LoggedAt(script, 1));
  }

  lemma RefusalRecordedFits(s: State, task: TaskId, script: Script)
    requires MoveCount(script) == 3 && IsAfter(s, task, script, 2) && CanDrive(s, task, MoveAt(script, 2))
    ensures MoveFits(s, task, script, 2)
  {
    ReplayParts(s.refs, LoggedAt(script, 2));
  }

  lemma EnqueueMoveFits(s: State, task: TaskId, script: Script)
    requires MoveCount(script) == 5 && IsAfter(s, task, script, 1) && CanDrive(s, task, MoveAt(script, 1))
    ensures MoveFits(s, task, script, 1)
  {
    ReplayParts(s.refs, LoggedAt(script, 1));
  }

  lemma JobIdMoveFits(s: State, task: TaskId, script: Script)
    requires MoveCount(script) == 5 && Plausible(script) && IsAfter(s, task, script, 2) && CanDrive(s, task, MoveAt(script, 2))
    ensures MoveFits(s, task, script, 2)
  {
    ReplayParts(s.refs, LoggedAt(script, 2));
  }

  lemma AwaitMoveFits(s: State, task: TaskId, script: Script)
    requires MoveCount(script) == 5 && Plausible(script) && IsAfter(s, task, script, 3) && CanDrive(s, task, MoveAt(script, 3))
    ensures MoveFits(s, task, script, 3)
  {
    ReplayParts(s.refs, LoggedAt(script, 3));
  }

  lemma OutcomeMoveFits(s: State, task: TaskId, script: Script)
    requires MoveCount(script) == 5 && IsAfter(s, task, script, 4) && CanDrive(s, task, MoveAt(script, 4))
    ensures MoveFits(s, task, script, 4)
  {
    ReplayParts(s.refs, LoggedAt(script, 4));
  }

  lemma MoveAdvances(s: State, task: TaskId, script: Script, k: nat)
    requires Plausible(script) && k < MoveCount(script) && IsAfter(s, task, script, k) && CanDrive(s, task, MoveAt(script, k))
    ensures MoveFits(s, task, script, k)
  {
    if k == 0 {
      RecordMoveFits(s, task, script);
    } else if MoveCount(script) == 3 {
      if k == 1 {
        RefusedMoveFits(s, task, script);
      } else {
        RefusalRecordedFits(s, task, script);
      }
    } else if k == 1 {
      EnqueueMoveFits(s, task, script);
    } else if k == 2 {
      JobIdMoveFits(s, task, script);
    } else if k == 3 {
      AwaitMoveFits(s, task, script);
    } else {
      OutcomeMoveFits(s, task, script);
    }
  }

  /**
   * In any state, with whatever the other tasks are doing, a driver that has taken k steps can take
   * the next one exactly if its surroundings are ready, and the table then changes as replaying what
   * the code logs at that step.
   */
  lemma MoveMatchesLog(s: State, task: TaskId, script: Script, k: nat)
    requires Plausible(script) && k < MoveCount(script) && IsAfter(s, task, script, k)
    ensures CanDrive(s, task, MoveAt(script, k)) <==> SurroundingsReady(s, script, k)
    ensures SurroundingsReady(s, script, k) ==> MoveFits(s, task, script, k)
  {
    MoveCanBeTaken(s, task, script, k);
    if SurroundingsReady(s, script, k) {
      MoveAdvances(s, task, script, k);
    }
  }

  lemma OtherDriversStay(s: State, other: TaskId, step: DriverStep, task: TaskId)
    requires CanDrive(s, other, step) && task in s.drivers && other != task
    ensures task in DriveStep(s, other, step).drivers && DriveStep(s, other, step).drivers[task] == s.drivers[task]
  {
  }

  lemma CancellersLeaveDrivers(s: State, task: TaskId, step: CancelStep)
    requires CanCancel(s, task, step)
    ensures CancellerStep(s, task, step).drivers == s.drivers
  {
  }

  lemma DeletersLeaveDrivers(s: State, task: TaskId, step: DeleteStep)
    requires CanDelete(s, task, step)
    ensures DeleterStep(s, task, step).drivers == s.drivers
  {
  }

  /** No step of another task, nor of the surroundings, changes a driver. */
  lemma OthersLeaveTheDriver(s: State, step: Step, task: TaskId)
    requires Enabled(s, step) && task in s.drivers && !(step.Drive? && step.task == task)
    ensures task in Apply(s, step).drivers && Apply(s, step).drivers[task] == s.drivers[task]
  {
    match step {
      case Drive(other, drive) => OtherDriversStay(s, other, drive, task);
      case Cancel(other, cancel) => CancellersLeaveDrivers(s, other, cancel);
      case Delete(other, delete) => DeletersLeaveDrivers(s, other, delete);
      case Elsewhere(_) =>
    }
  }

  /** The steps of one driver within an interleaving. */
  function Own(steps: seq<Step>, task: TaskId): seq<DriverStep> {
    if steps == [] then []
    else if steps[0].Drive? && steps[0].task == task then [steps[0].drive] + Own(steps[1..], task)
    else Own(steps[1..], task)
  }

  /** These are steps k, k + 1, … of the script. */
  predicate FollowsScript(own: seq<DriverStep>, script: Script, k: nat) {
    k + |own| <= MoveCount(script) && forall i :: 0 <= i < |own| ==> own[i] == MoveAt(script, k + i)
  }

  lemma ScriptGoesOn(own: seq<DriverStep>, script: Script, k: nat)
    requires FollowsScript(own, script, k) && own != []
    ensures k < MoveCount(script) && own[0] == MoveAt(script, k) && FollowsScript(own[1..], script, k + 1)
  {
  }

  /**
   * In every interleaving, a driver whose own steps are those of its code is where its code is; so
   * each of them changed the table by `MoveMatchesLog`.
   */
  lemma {:induction false} DriverStaysWithItsCode(s: State, steps: seq<Step>, t: State, task: TaskId, script: Script, k: nat)
    requires Plausible(script) && Execution(s, steps, t)
    requires FollowsScript(Own(steps, task), script, k) && IsAfter(s, task, script, k)
    decreases |steps|
    ensures IsAfter(t, task, script, k + |Own(steps, task)|)
  {
    if steps != [] {
      var next := Apply(s, steps[0]);
      if steps[0].Drive? && steps[0].task == task {
        ScriptGoesOn(Own(steps, task), script, k);
        assert Own(steps, task)[1..] == Own(steps[1..], task);
        MoveAdvances(s, task, script, k);
        DriverStaysWithItsCode(next, steps[1..], t, task, script, k + 1);
      } else {
        OthersLeaveTheDriver(s, steps[0], task);
        DriverStaysWithItsCode(next, steps[1..], t, task, script, k);
      }
    }
  }

  // ---------------------------------------------------------------- cancel and delete

  lemma OneMore(s: State, step: Step, rest: seq<Step>, t: State)
    requires Enabled(s, step) && Execution(Apply(s, step), rest, t)
    ensures Execution(s, [step] + rest, t)
  {
  }

  lemma {:induction false} ExecutionsCompose(s: State, first: seq<Step>, m: State, second: seq<Step>, t: State)
    requires Execution(s, first, m) && Execution(m, second, t)
    decreases |first|
    ensures Execution(s, first + second, t)
  {
    if first == [] {
      assert first + second == second;
    } else {
      ExecutionsCompose(Apply(s, first[0]), first[1..], m, second, t);
      assert (first + second)[1..] == first[1..] + second;
    }
  }

  lemma TwoSteps(s: State, a: Step, b: Step)
    requires Enabled(s, a) && Enabled(Apply(s, a), b)
    ensures Execution(s, [a] + [b], Apply(Apply(s, a), b))
  {
  }

  /** The three steps of a cancellation whose remote deletion was answered. */
  function CancelSteps(task: TaskId, id: RefId, success: bool, after: Job, recorded: bool): seq<Step> {
    [Cancel(task, CancelRead(id)), Cancel(task, CancelRemote(success, after))]
    + if success then [Cancel(task, CancelWrite(recorded))] else []
  }

  /** Undisturbed, they change the table as `cancel_execution` does. */
  lemma CancellerTakesTheAppsSteps(s: State, task: TaskId, id: RefId, success: bool, after: Job, recorded: bool) returns (t: State)
    requires task !in s.cancellers && id in s.refs && s.refs[id].jobId.Some?
    requires IsKnown(s, s.refs[id].jobId.value) && LegalChange(s.jobs[s.refs[id].jobId.value], after)
    ensures Execution(s, CancelSteps(task, id, success, after, recorded), t)
    ensures t.refs == if success && recorded then WithCancellation(s.refs, id, s.refs[id].jobId.value) else s.refs
  {
    var read, remote := Cancel(task, CancelRead(id)), Cancel(task, CancelRemote(success, after));
    TwoSteps(s, read, remote);
    t := Apply(Apply(s, read), remote);
    if success {
      var write := Cancel(task, CancelWrite(recorded));
      OneMore(t, write, [], Apply(t, write));
      ExecutionsCompose(s, [read] + [remote], t, [write] + [], Apply(t, write));
      assert [read] + [remote] + ([write] + []) == CancelSteps(task, id, success, after, recorded);
      t := Apply(t, write);
    } else {
      assert [read] + [remote] == CancelSteps(task, id, success, after, recorded);
    }
  }

  predicate LeavesCanceller(steps: seq<Step>, task: TaskId) {
    forall i :: 0 <= i < |steps| ==> !(steps[i].Cancel? && steps[i].task == task)
  }

  lemma OthersLeaveTheCanceller(s: State, step: Step, task: TaskId)
    requires Enabled(s, step) && task in s.cancellers && !(step.Cancel? && step.task == task)
    ensures task in Apply(s, step).cancellers && Apply(s, step).cancellers[task] == s.cancellers[task]
  {
    match step {
      case Drive(other, drive) => DriversLeaveCancellers(s, other, drive);
      case Cancel(other, cancel) => OtherCancellersStay(s, other, cancel, task);
      case Delete(other, delete) => DeletersLeaveCancellers(s, other, delete);
      case Elsewhere(_) =>
    }
  }

  lemma DriversLeaveCancellers(s: State, task: TaskId, step: DriverStep)
    requires CanDrive(s, task, step)
    ensures DriveStep(s, task, step).cancellers == s.cancellers
  {
  }

  lemma OtherCancellersStay(s: State, other: TaskId, step: CancelStep, task: TaskId)
    requires CanCancel(s, other, step) && task in s.cancellers && other != task
    ensures task in CancellerStep(s, other, step).cancellers && CancellerStep(s, other, step).cancellers[task] == s.cancellers[task]
  {
  }

  lemma DeletersLeaveCancellers(s: State, task: TaskId, step: DeleteStep)
    requires CanDelete(s, task, step)
    ensures DeleterStep(s, task, step).cancellers == s.cancellers
  {
  }

  lemma {:induction false} CancellerWaits(s: State, steps: seq<Step>, t: State, task: TaskId)
    requires Execution(s, steps, t) && task in s.cancellers && LeavesCanceller(steps, task)
    decreases |steps|
    ensures task in t.cancellers && t.cancellers[task] == s.cancellers[task]
  {
    if steps != [] {
      OthersLeaveTheCanceller(s, steps[0], task);
      CancellerWaits(Apply(s, steps[0]), steps[1..], t, task);
    }
  }

  /**
   * Whatever happens between its calls, a canceller deletes the job it read at first and, if that
   * succeeded, writes the cancellation of that job into the table as it is by then.
   */
  lemma InterleavedCancel(s: State, task: TaskId, id: RefId, before: seq<Step>, m: State, success: bool, left: Job, after: seq<Step>, n: State)
    requires CanCancel(s, task, CancelRead(id))
    requires Execution(CancellerStep(s, task, CancelRead(id)), before, m) && LeavesCanceller(before, task)
    requires CanCancel(m, task, CancelRemote(success, left))
    requires Execution(CancellerStep(m, task, CancelRemote(success, left)), after, n) && LeavesCanceller(after, task)
    ensures var job := s.refs[id].jobId.value;
            && CancellerStep(m, task, CancelRemote(success, left)).jobs == m.jobs[job := left]
            && CancellerStep(m, task, CancelRemote(success, left)).refs == m.refs
    ensures success ==> forall recorded ::
              && CanCancel(n, task, CancelWrite(recorded))
              && CancellerStep(n, task, CancelWrite(recorded)).refs ==
                   if recorded then WithCancellation(n.refs, id, s.refs[id].jobId.value) else n.refs
  {
    CancellerWaits(CancellerStep(s, task, CancelRead(id)), before, m, task);
    if success {
      CancellerWaits(CancellerStep(m, task, CancelRemote(success, left)), after, n, task);
    }
  }

  /** Listing one ref, resolving it, and deleting what was selected. */
  function DeleteSteps(task: TaskId, id: RefId, tracked: bool, reachable: bool, failed: bool,
                       stored: Answer<Option<StoredResult>>, count: nat): seq<Step>
  {
    [Delete(task, ListRefs([id]))] + (if tracked then [Delete(task, ProbeHead(reachable, failed))] else [])
    + ([Delete(task, DecideHead(stored))] + ([Delete(task, StartDeleting)] + [Delete(task, DeleteChunk(count))]))
  }

  function ViewNow(s: State, ref: ExecutionRef, reachable: bool, failed: bool, stored: Answer<Option<StoredResult>>): JobView {
    JobView(reachable, if failed || ref.jobId.None? then QueryFailed else Answered(ProcessingOf(s, ref.jobId.value)), stored)
  }

  lemma ResolvedOne(s: State, task: TaskId, id: RefId, reachable: bool, failed: bool) returns (t: State)
    requires task !in s.deleters && id in s.refs
    ensures var opening := [Delete(task, ListRefs([id]))] + (if s.refs[id].jobId.Some? then [Delete(task, ProbeHead(reachable, failed))] else []);
            Execution(s, opening, t)
    ensures t.refs == s.refs && CanDelete(t, task, DecideHead(QueryFailed))
    ensures t.deleters[task].todo == [Listed(id, s.refs[id])] && t.deleters[task].selected == []
    ensures s.refs[id].jobId.Some? ==>
              t.deleters[task].probe == Some(Probe(reachable, if failed then QueryFailed else Answered(ProcessingOf(s, s.refs[id].jobId.value))))
  {
    var list, probe := Delete(task, ListRefs([id])), Delete(task, ProbeHead(reachable, failed));
    var s1 := Apply(s, list);
    assert Listing(s.refs, [id]) == [Listed(id, s.refs[id])];
    if s.refs[id].jobId.Some? {
      TwoSteps(s, list, probe);
      t := Apply(s1, probe);
    } else {
      OneMore(s, list, [], s1);
      assert [list] + [] == [list];
      t := s1;
    }
  }

  lemma DecidedOne(s: State, task: TaskId, stored: Answer<Option<StoredResult>>, selected: seq<RefId>) returns (t: State)
    requires CanDelete(s, task, DecideHead(stored)) && |s.deleters[task].todo| == 1
    requires DecideOn(s.deleters[task], stored) == Resolving([], None, selected) && |selected| <= 1
    ensures Execution(s, [Delete(task, DecideHead(stored))] + ([Delete(task, StartDeleting)] + [Delete(task, DeleteChunk(|selected|))]), t)
    ensures t.refs == s.refs - IdsOf(selected)
  {
    var decide, start, chunk := Delete(task, DecideHead(stored)), Delete(task, StartDeleting), Delete(task, DeleteChunk(|selected|));
    var s1 := Apply(s, decide);
    TwoSteps(s1, start, chunk);
    t := Apply(Apply(s1, start), chunk);
    OneMore(s, decide, [start] + [chunk], t);
    assert selected[..|selected|] == selected;
  }

  /** Undisturbed, the steps of a single deletion change the table as `delete_execution_ref` does. */
  lemma DeleterTakesTheAppsSteps(s: State, task: TaskId, id: RefId, reachable: bool, failed: bool, stored: Answer<Option<StoredResult>>)
    returns (count: nat, t: State)
    requires task !in s.deleters && id in s.refs
    ensures Execution(s, DeleteSteps(task, id, s.refs[id].jobId.Some?, reachable, failed, stored, count), t)
    ensures t.refs == if IsTerminal(ResolveStatus(s.refs[id], ViewNow(s, s.refs[id], reachable, failed, stored))) then s.refs - {id} else s.refs
  {
    var m := ResolvedOne(s, task, id, reachable, failed);
    var selected := DecideOn(m.deleters[task], stored).selected;
    assert m.deleters[task].todo[1..] == [];
    t := DecidedOne(m, task, stored, selected);
    count := |selected|;
    var opening := [Delete(task, ListRefs([id]))] + (if s.refs[id].jobId.Some? then [Delete(task, ProbeHead(reachable, failed))] else []);
    ExecutionsCompose(s, opening, m, [Delete(task, DecideHead(stored))] + ([Delete(task, StartDeleting)] + [Delete(task, DeleteChunk(count))]), t);
    assert IdsOf([id]) == {id} && IdsOf([]) == {};
  }

  // ---------------------------------------------------------------- deletion by source, interleaved

  /** The view of jobworkerp a decision is made on: the earlier probe and the answer just given. */
  function ViewOf(deleter: Deleter, stored: Answer<Option<StoredResult>>): JobView
    requires HeadDecidable(deleter)
  {
    var probe := if deleter.probe.Some? then deleter.probe.value else Probe(false, QueryFailed);
    JobView(probe.reachable, probe.processing, stored)
  }

  /** The views on which a deleter decided in a run, in order. */
  function Observed(s: State, steps: seq<Step>, task: TaskId): seq<JobView>
    decreases |steps|
  {
    if steps == [] || !Enabled(s, steps[0]) then []
    else
      var rest := Observed(Apply(s, steps[0]), steps[1..], task);
      if steps[0].Delete? && steps[0].task == task && steps[0].delete.DecideHead?
      then [ViewOf(s.deleters[task], steps[0].delete.stored)] + rest else rest
  }

  /** The listed refs, as they were read, that resolve to a terminal status under these views. */
  function TerminalIds(todo: seq<Listed>, views: seq<JobView>): seq<RefId>
    requires |views| <= |todo|
    decreases |views|
  {
    if views == [] then []
    else
      (if IsTerminal(ResolveStatus(todo[0].ref, views[0])) then [todo[0].id] else []) + TerminalIds(todo[1..], views[1..])
  }

  predicate OnlyResolves(steps: seq<Step>, task: TaskId) {
    forall i :: 0 <= i < |steps| && steps[i].Delete? && steps[i].task == task ==> steps[i].delete.ProbeHead? || steps[i].delete.DecideHead?
  }

  lemma DriversLeaveDeleters(s: State, task: TaskId, step: DriverStep)
    requires CanDrive(s, task, step)
    ensures DriveStep(s, task, step).deleters == s.deleters
  {
  }

  lemma CancellersLeaveDeleters(s: State, task: TaskId, step: CancelStep)
    requires CanCancel(s, task, step)
    ensures CancellerStep(s, task, step).deleters == s.deleters
  {
  }

  lemma OtherDeletersStay(s: State, other: TaskId, step: DeleteStep, task: TaskId)
    requires CanDelete(s, other, step) && task in s.deleters && other != task
    ensures task in DeleterStep(s, other, step).deleters && DeleterStep(s, other, step).deleters[task] == s.deleters[task]
  {
  }

  lemma OthersLeaveTheDeleter(s: State, step: Step, task: TaskId)
    requires Enabled(s, step) && task in s.deleters && !(step.Delete? && step.task == task)
    ensures task in Apply(s, step).deleters && Apply(s, step).deleters[task] == s.deleters[task]
  {
    match step {
      case Drive(other, drive) => DriversLeaveDeleters(s, other, drive);
      case Cancel(other, cancel) => CancellersLeaveDeleters(s, other, cancel);
      case Delete(other, delete) => OtherDeletersStay(s, other, delete, task);
      case Elsewhere(_) =>
    }
  }

  predicate IsResolving(s: State, task: TaskId) {
    task in s.deleters && s.deleters[task].Resolving?
  }

  /** From `before` to `after` the deleter has dealt with as many refs as there are views, and kept the terminal ones. */
  predicate HasResolved(before: Deleter, after: Deleter, views: seq<JobView>) {
    && before.Resolving? && after.Resolving? && |views| <= |before.todo|
    && after.todo == before.todo[|views|..]
    && after.selected == before.selected + TerminalIds(before.todo, views)
  }

  lemma OneDecision(before: Deleter, stored: Answer<Option<StoredResult>>, after: Deleter, views: seq<JobView>)
    requires HeadDecidable(before) && HasResolved(DecideOn(before, stored), after, views)
    ensures HasResolved(before, after, [ViewOf(before, stored)] + views)
  {
    var all := [ViewOf(before, stored)] + views;
    assert all[1..] == views;
    var next := DecideOn(before, stored);
    assert next.selected == before.selected + TerminalIds(before.todo[..1], all[..1]) by {
      assert all[..1][1..] == [];
    }
    assert TerminalIds(before.todo, all) == TerminalIds(before.todo[..1], all[..1]) + TerminalIds(before.todo[1..], views) by {
      assert all[..1][1..] == [];
    }
  }

  /**
   * However its queries interleave with other tasks, a deletion by source selects exactly the listed
   * refs that resolved to a terminal status, each under the view observed for it.
   */
  lemma {:induction false} InterleavedResolution(s: State, steps: seq<Step>, t: State, task: TaskId)
    requires Execution(s, steps, t) && IsResolving(s, task) && OnlyResolves(steps, task)
    decreases |steps|
    ensures task in t.deleters && HasResolved(s.deleters[task], t.deleters[task], Observed(s, steps, task))
  {
    if steps != [] {
      var next := Apply(s, steps[0]);
      var views := Observed(next, steps[1..], task);
      if steps[0].Delete? && steps[0].task == task {
        assert steps[0].delete.ProbeHead? || steps[0].delete.DecideHead?;
        InterleavedResolution(next, steps[1..], t, task);
        if steps[0].delete.DecideHead? {
          OneDecision(s.deleters[task], steps[0].delete.stored, t.deleters[task], views);
        }
      } else {
        OthersLeaveTheDeleter(s, steps[0], task);
        InterleavedResolution(next, steps[1..], t, task);
      }
    } else {
      assert s.deleters[task].selected + [] == s.deleters[task].selected;
    }
  }
}
