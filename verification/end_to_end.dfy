/** From the database table to the jobs the cron library fires. */
module EndToEnd {
  import opened Wrappers
  import opened ConfigEntities
  import opened ExecutionTargets
  import opened NameIndex
  import opened ConfigHistory
  import opened SchedulerManager
  import opened SlackMatching
  import opened Conductor
  import R = ConfigReplication

  /** What the consumer of a run took from the queue, in order. */
  function Consumed(s: R.State, steps: seq<R.Step>): seq<R.CronChange>
    decreases |steps|
  {
    if steps == [] || !R.Enabled(s, steps[0]) then []
    else (if steps[0].Consume? then [s.queue[0]] else []) + Consumed(R.Next(s, steps[0]), steps[1..])
  }

  /** The changes of schedulers among the events a conductor received. */
  function CronChanges(events: seq<ConfigChangeEvent>): seq<R.CronChange> {
    if events == [] then []
    else CronChanges(events[..|events|-1]) + (if events[|events|-1].CronEvent? then [events[|events|-1].cron] else [])
  }

  function AppliedAll(store: R.Store, changes: seq<R.CronChange>): R.Store {
    if changes == [] then store else R.Applied(AppliedAll(store, changes[..|changes|-1]), changes[|changes|-1])
  }

  lemma {:induction false} AppliedFirst(store: R.Store, first: R.CronChange, rest: seq<R.CronChange>)
    decreases |rest|
    ensures AppliedAll(store, [first] + rest) == AppliedAll(R.Applied(store, first), rest)
  {
    if rest == [] {
      assert [first] + rest == [first] && [first][..0] == [];
    } else {
      AppliedFirst(store, first, rest[..|rest|-1]);
      assert ([first] + rest)[..|rest|] == [first] + rest[..|rest|-1];
    }
  }

  /** The replica's store is what the consumed changes make of the loaded one. */
  lemma {:induction false} StoreIsWhatWasConsumed(s: R.State, steps: seq<R.Step>)
    requires R.OrderlyRun(s, steps)
    decreases |steps|
    ensures R.After(s, steps).store == AppliedAll(s.store, Consumed(s, steps))
  {
    if steps != [] {
      var next := R.Next(s, steps[0]);
      StoreIsWhatWasConsumed(next, steps[1..]);
      if steps[0].Consume? {
        AppliedFirst(s.store, s.queue[0], Consumed(next, steps[1..]));
      } else {
        assert next.store == s.store;
        assert [] + Consumed(next, steps[1..]) == Consumed(next, steps[1..]);
      }
    }
  }

  /** The conductor's schedulers are what the received changes make of the loaded ones. */
  lemma {:induction false} SchedulersAreWhatWasReceived(s: Store, events: seq<ConfigChangeEvent>)
    decreases |events|
    ensures StateAfter(s, AllOps(events)).config.crons == AppliedAll(s.config.crons, CronChanges(events))
  {
    if events != [] {
      var front, last := events[..|events|-1], events[|events|-1];
      SchedulersAreWhatWasReceived(s, front);
      RunInTwo(s, AllOps(front), EventOps(last));
      R.ConductorApplies(StateAfter(s, AllOps(front)), last);
      if last.CronEvent? {
        assert (CronChanges(front) + [last.cron])[..|CronChanges(front)|] == CronChanges(front);
      } else {
        assert CronChanges(front) + [] == CronChanges(front);
      }
    }
  }

  /** The job fires what the row says, the target up to normalisation. */
  predicate FiresRow(job: CronJob, row: CronRow) {
    && (job.name, job.serverId, job.crontab, job.args) == (row.name, row.fields.serverId, row.fields.crontab, row.fields.args)
    && Plain(job.target) == Plain(FiredByCron(CronFromRow(row).fields)) && FiresColumns(job.target, row.fields.columns)
  }

  /** What fires the same as a row's own target up to empty texts fires the row's columns. */
  lemma PlainFiresColumns(fired: Option<ExecutionTarget>, row: CronRow)
    requires Plain(fired) == Plain(FiredByCron(CronFromRow(row).fields))
    ensures FiresColumns(fired, row.fields.columns)
  {
  }

  /** The row's server was stored with data when the scheduler was last tried, and the crontab parses. */
  predicate LackedNothing(row: CronRow, servers: Servers, parses: string -> bool) {
    row.fields.serverId in servers && servers[row.fields.serverId].data.Some? && parses(row.fields.crontab)
  }

  /**
   * Exactly the enabled rows that lacked nothing when last tried have a job, one each; it fires the
   * row, at the address its server had then.
   */
  ghost predicate JobsFireTheTable(manager: EventHandlerServerManager, seen: Seen, rows: R.Rows)
    reads manager.schedulers, manager.schedulers.library
  {
    var registered, active := manager.schedulers.library.registered, manager.schedulers.activeJobs;
    && (forall id :: id in rows && rows[id].fields.enabled ==> id in seen)
    && (forall id :: id in active <==>
          id in rows && rows[id].fields.enabled && LackedNothing(rows[id], seen[id], manager.schedulers.parses))
    && (forall id :: id in active ==>
          && active[id].jobId in registered && FiresRow(registered[active[id].jobId], rows[id])
          && Reaches(registered[active[id].jobId], seen[id]))
    && (forall uuid :: uuid in registered ==> registered[uuid].schedulerId in active && active[registered[uuid].schedulerId].jobId == uuid)
  }

  lemma RowIsFired(manager: EventHandlerServerManager, seen: Seen, rows: R.Rows, id: EntityId)
    requires manager.Valid(seen) && id in manager.schedulers.activeJobs
    requires R.Mirrors(id, R.EntryAt(manager.store.crons.entities, id), R.RowAt(rows, id))
    ensures var m := manager.schedulers;
            && id in rows && id in seen && m.activeJobs[id].jobId in m.library.registered
            && FiresRow(m.library.registered[m.activeJobs[id].jobId], rows[id])
            && Reaches(m.library.registered[m.activeJobs[id].jobId], seen[id])
  {
    assert manager.schedulers.UpToDate(id, seen);
    PlainFiresColumns(manager.schedulers.library.registered[manager.schedulers.activeJobs[id].jobId].target, rows[id]);
  }

  lemma RowIsEnabled(manager: EventHandlerServerManager, rows: R.Rows, servers: Servers, id: EntityId)
    requires R.Mirrors(id, R.EntryAt(manager.store.crons.entities, id), R.RowAt(rows, id)) && manager.schedulers.store == manager.store
    ensures manager.schedulers.IsEnabled(id) <==> id in rows && rows[id].fields.enabled
    ensures manager.schedulers.IsEnabled(id) ==>
              (AddableIn(manager.store.crons.entities, servers, manager.schedulers.parses, id) <==>
               LackedNothing(rows[id], servers, manager.schedulers.parses))
  {
  }

  /** With a library that refused nothing, a conductor in step with the table fires the table. */
  lemma InStepFires(manager: EventHandlerServerManager, seen: Seen, rows: R.Rows)
    requires manager.Valid(seen) && manager.schedulers.library.refusals == 0
    requires R.InStep(rows, manager.store.crons.entities)
    ensures JobsFireTheTable(manager, seen, rows)
  {
    manager.WithoutRefusals(seen);
    forall id
      ensures manager.schedulers.IsEnabled(id) <==> id in rows && rows[id].fields.enabled
      ensures manager.schedulers.IsEnabled(id) ==>
                (AddableIn(manager.store.crons.entities, seen[id], manager.schedulers.parses, id) <==>
                 LackedNothing(rows[id], seen[id], manager.schedulers.parses))
    {
      assert R.Mirrors(id, R.EntryAt(manager.store.crons.entities, id), R.RowAt(rows, id));
      RowIsEnabled(manager, rows, if id in seen then seen[id] else map[], id);
    }
    forall id | id in manager.schedulers.activeJobs
      ensures id in rows && manager.schedulers.activeJobs[id].jobId in manager.schedulers.library.registered
      ensures FiresRow(manager.schedulers.library.registered[manager.schedulers.activeJobs[id].jobId], rows[id])
      ensures Reaches(manager.schedulers.library.registered[manager.schedulers.activeJobs[id].jobId], seen[id])
    {
      assert R.Mirrors(id, R.EntryAt(manager.store.crons.entities, id), R.RowAt(rows, id));
      RowIsFired(manager, seen, rows, id);
    }
    assert forall uuid :: uuid in manager.schedulers.library.registered ==> manager.schedulers.AllBooks().IsTracked(uuid);
  }

  /** What the conductor holds after receiving what a drained replica run consumed. */
  lemma ReceivedIsInStep(started: Store, events: seq<ConfigChangeEvent>, s: R.State, steps: seq<R.Step>)
    requires R.Initial(s) && R.OrderlyRun(s, steps) && R.Drained(R.After(s, steps))
    requires started.config.crons == s.store && CronChanges(events) == Consumed(s, steps)
    ensures R.InStep(R.After(s, steps).rows, StateAfter(started, AllOps(events)).config.crons)
  {
    R.DrainedReplicaEqualsTable(s, steps);
    StoreIsWhatWasConsumed(s, steps);
    SchedulersAreWhatWasReceived(started, events);
  }

  /**
   * The whole way: any orderly interleaving of writers that ends drained, and a conductor that loaded
   * the table and received what was consumed. Unless the library refused a call, the registered jobs
   * are then exactly those of the enabled rows, and fire what the rows say.
   */
  method ServeTheTable(crons: seq<CronScheduler>, listeners: seq<WorkerResultHandler>, servers: seq<JobworkerpServer>, slacks: seq<SlackEventHandler>,
                       parses: string -> bool, engine: Engine, events: seq<ConfigChangeEvent>, ghost s: R.State, ghost steps: seq<R.Step>)
    returns (manager: EventHandlerServerManager)
    requires s.store == Loaded(Table(map[], map[]), crons).entities
    requires R.Initial(s) && R.OrderlyRun(s, steps) && R.Drained(R.After(s, steps)) && CronChanges(events) == Consumed(s, steps)
    ensures manager.schedulers.library.refusals == 0 ==>
              JobsFireTheTable(manager, SeenInService(Started(crons, listeners, servers, slacks), events), R.After(s, steps).rows)
  {
    ghost var started := Started(crons, listeners, servers, slacks);
    ReceivedIsInStep(started, events, s, steps);
    manager := Serve(crons, listeners, servers, slacks, parses, engine, events);
    assert manager.store.Contents().config == manager.store.Config();
    if manager.schedulers.library.refusals == 0 {
      InStepFires(manager, SeenInService(started, events), R.After(s, steps).rows);
    }
  }
}
