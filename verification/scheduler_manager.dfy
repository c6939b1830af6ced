/** Jobs registered in the cron library, kept in step with the stored schedulers although the library may fail. */
module SchedulerManager {
  import opened Wrappers
  import opened ConfigEntities
  import opened ExecutionTargets
  import opened NameIndex
  import opened LocalConfigStore

  type JobUuid = int

  datatype Endpoint = Endpoint(ssl: bool, host: string, port: string)

  /** What a registered job captured when it was added. */
  datatype CronJob = CronJob(
    schedulerId: EntityId,
    serverId: EntityId,
    name: string,
    crontab: string,
    args: Option<string>,
    target: Option<ExecutionTarget>,
    endpoint: Endpoint)

  /** The job fires what the scheduler's stored data says. */
  predicate Captures(job: CronJob, id: EntityId, data: Named<CronFields>) {
    && job.schedulerId == id && Some(job.serverId) == data.fields.serverId && job.name == data.name
    && job.crontab == data.fields.crontab && job.args == data.fields.args && job.target == FiredByCron(data.fields)
  }

  type Crons = map<EntityId, CronScheduler>
  type Servers = map<EntityId, JobworkerpServer>

  predicate EnabledIn(crons: Crons, id: EntityId) {
    id in crons && crons[id].data.Some? && crons[id].data.value.fields.enabled
  }

  /** Whether an enabled scheduler has all that `add_scheduler_from_local` needs besides the library. */
  predicate AddableIn(crons: Crons, servers: Servers, parses: string -> bool, id: EntityId)
    requires EnabledIn(crons, id)
  {
    var f := crons[id].data.value.fields;
    && f.serverId.Some? && f.serverId.value in servers
    && servers[f.serverId.value].data.Some? && parses(f.crontab)
  }

  /** The scheduler is enabled but lacks something besides the library. */
  predicate HinderedIn(crons: Crons, servers: Servers, parses: string -> bool, id: EntityId) {
    EnabledIn(crons, id) && !AddableIn(crons, servers, parses, id)
  }

  /** The servers as they were stored when each scheduler was last tried; a later change does not reach its job. */
  type Seen = map<EntityId, Servers>

  function AllSeen(crons: Crons, servers: Servers): Seen {
    map id | id in crons :: servers
  }

  /** The job runs at the address these servers give for its server. */
  predicate Reaches(job: CronJob, servers: Servers) {
    && job.serverId in servers && servers[job.serverId].data.Some?
    && var server := servers[job.serverId].data.value.fields;
       job.endpoint.ssl == server.sslEnabled && job.endpoint.host == server.host && job.endpoint.port == server.port
  }

  /**
   * The cron library: it hands out fresh ids, may refuse any call, and a refused call changes
   * nothing. It keeps account of what it refused; nothing else writes these fields.
   */
  class CronLibrary {
    var registered: map<JobUuid, CronJob>
    var next: JobUuid
    /** How many calls were refused, which removals, and for which schedulers the latest call was. */
    ghost var refusals: nat
    ghost var refusedRemovals: set<JobUuid>
    ghost var lastRefused: set<EntityId>

    ghost predicate Valid()
      reads this
    {
      && (forall uuid :: uuid in registered ==> uuid < next)
      && (refusals == 0 ==> refusedRemovals == {} && lastRefused == {})
    }

    constructor ()
      ensures Valid() && registered == map[] && refusals == 0
    {
      registered, next := map[], 0;
      refusals, refusedRemovals, lastRefused := 0, {}, {};
    }

    method Add(job: CronJob) returns (uuid: Option<JobUuid>)
      requires Valid()
      modifies this
      ensures Valid() && refusedRemovals == old(refusedRemovals)
      ensures uuid.None? ==> registered == old(registered)
      ensures uuid.Some? ==> uuid.value !in old(registered) && registered == old(registered)[uuid.value := job]
      ensures refusals == old(refusals) + (if uuid.Some? then 0 else 1)
      ensures lastRefused == if uuid.Some? then old(lastRefused) - {job.schedulerId} else old(lastRefused) + {job.schedulerId}
    {
      var fails := *;
      if fails {
        refusals, lastRefused := refusals + 1, lastRefused + {job.schedulerId};
        return None;
      }
      registered := registered[next := job];
      uuid := Some(next);
      next := next + 1;
      lastRefused := lastRefused - {job.schedulerId};
    }

    method Remove(uuid: JobUuid) returns (ok: bool)
      requires Valid()
      modifies this
      ensures Valid()
      ensures registered == if ok then old(registered) - {uuid} else old(registered)
      ensures refusals == old(refusals) + (if ok then 0 else 1)
      ensures refusedRemovals == if ok then old(refusedRemovals) - {uuid} else old(refusedRemovals) + {uuid}
      ensures var who := SchedulerOf(old(registered), uuid);
              lastRefused == if ok then old(lastRefused) - who else old(lastRefused) + who
    {
      ghost var who := SchedulerOf(registered, uuid);
      ok := *;
      if ok {
        registered := registered - {uuid};
        refusedRemovals, lastRefused := refusedRemovals - {uuid}, lastRefused - who;
      } else {
        refusals, refusedRemovals, lastRefused := refusals + 1, refusedRemovals + {uuid}, lastRefused + who;
      }
    }
  }

  function SchedulerOf(registered: map<JobUuid, CronJob>, uuid: JobUuid): set<EntityId> {
    if uuid in registered then {registered[uuid].schedulerId} else {}
  }

  datatype Prepared = Skipped | Impossible | Job(job: CronJob)

  datatype JobHandle = JobHandle(name: string, jobId: JobUuid)

  /** The manager's handles beside the library's account, and the jobs whose handle another one replaced. */
  datatype Books = Books(
    active: map<EntityId, JobHandle>,
    registered: map<JobUuid, CronJob>,
    refusedRemovals: set<JobUuid>,
    replaced: set<JobUuid>)
  {
    /** The job is the one its scheduler's handle leads to. */
    predicate IsTracked(uuid: JobUuid)
      requires uuid in registered
    {
      var id := registered[uuid].schedulerId;
      id in active && active[id].jobId == uuid
    }

    predicate HandleFits(id: EntityId)
      requires id in active
    {
      active[id].jobId in registered && registered[active[id].jobId].schedulerId == id
    }

    /** The registered jobs are exactly the tracked ones, those whose removal was refused, and those replaced. */
    predicate Exact() {
      && (forall id :: id in active ==> HandleFits(id))
      && (forall uuid :: uuid in registered ==> IsTracked(uuid) || uuid in refusedRemovals || uuid in replaced)
      && (forall uuid :: uuid in refusedRemovals + replaced ==> uuid in registered && !IsTracked(uuid))
    }

    function Added(id: EntityId, name: string, uuid: JobUuid, job: CronJob): Books {
      Books(active[id := JobHandle(name, uuid)], registered[uuid := job], refusedRemovals,
            if id in active then replaced + {active[id].jobId} else replaced)
    }

    function Removed(id: EntityId, ok: bool): Books {
      if id !in active then this
      else if ok then this.(active := active - {id}, registered := registered - {active[id].jobId})
      else this.(active := active - {id}, refusedRemovals := refusedRemovals + {active[id].jobId})
    }

    lemma AddedKeepsExact(id: EntityId, name: string, uuid: JobUuid, job: CronJob)
      requires Exact() && uuid !in registered && job.schedulerId == id
      ensures Added(id, name, uuid, job).Exact()
    {
    }

    lemma RemovedKeepsExact(id: EntityId, ok: bool)
      requires Exact()
      ensures Removed(id, ok).Exact()
    {
    }
  }

  class DynamicSchedulerManager {
    const library: CronLibrary
    const store: LocalConfigStore
    /** Whether the library can parse a crontab expression. */
    const parses: string -> bool
    var activeJobs: map<EntityId, JobHandle>
    /** Jobs whose handle another one replaced; they stay registered. */
    ghost var replaced: set<JobUuid>

    constructor (library: CronLibrary, store: LocalConfigStore, parses: string -> bool)
      requires library.Valid() && library.registered == map[] && library.refusals == 0
      ensures this.library == library && this.store == store && this.parses == parses
      ensures activeJobs == map[] && Exact() && replaced == {}
    {
      this.library, this.store, this.parses := library, store, parses;
      activeJobs, replaced := map[], {};
    }

    ghost function AllBooks(): Books
      reads this, library
    {
      Books(activeJobs, library.registered, library.refusedRemovals, replaced)
    }

    ghost predicate Exact()
      reads this, library
    {
      library.Valid() && AllBooks().Exact()
    }

    ghost predicate IsEnabled(id: EntityId)
      reads store`crons
    {
      EnabledIn(store.crons.entities, id)
    }

    ghost predicate IsHindered(id: EntityId)
      reads store`crons, store`servers
    {
      HinderedIn(store.crons.entities, store.servers.entities, parses, id)
    }

    /** Stored with data, and if enabled then not hindered: an addition can then only fail in the library. */
    ghost predicate CanPrepare(id: EntityId)
      reads store`crons, store`servers
    {
      id in store.crons.entities && store.crons.entities[id].data.Some? && !IsHindered(id)
    }

    /** The job of a tracked scheduler captures the stored data, and runs at the address these servers give. */
    ghost predicate CapturedWith(id: EntityId, servers: Servers)
      reads this, library, store`crons
    {
      && id in activeJobs && IsEnabled(id) && activeJobs[id].jobId in library.registered
      && Captures(library.registered[activeJobs[id].jobId], id, store.crons.entities[id].data.value)
      && Reaches(library.registered[activeJobs[id].jobId], servers)
    }

    /** A tracked scheduler is enabled in the store, and its job is the one its last addition captured. */
    ghost predicate UpToDate(id: EntityId, seen: Seen)
      reads this, library, store`crons
    {
      id in activeJobs ==> id in seen && CapturedWith(id, seen[id])
    }

    /**
     * A scheduler is tracked exactly if it is enabled, lacked nothing when last tried, and the latest
     * call of the library about it was not refused.
     */
    ghost predicate Accounted(id: EntityId, seen: Seen)
      reads this, library, store`crons
    {
      && (IsEnabled(id) ==> id in seen)
      && (id in activeJobs <==>
            IsEnabled(id) && AddableIn(store.crons.entities, seen[id], parses, id) && id !in library.lastRefused)
    }

    /** The invariant, with a set of schedulers still to be brought in step. */
    ghost predicate SyncedExcept(pending: set<EntityId>, seen: Seen)
      reads this, library, store`crons
    {
      Exact() && forall id :: id !in pending ==> UpToDate(id, seen) && Accounted(id, seen)
    }

    ghost function NowSeen(seen: Seen, id: EntityId): Seen
      reads store`servers
    {
      seen[id := store.servers.entities]
    }

    /** The checks `add_scheduler_from_local` makes before it turns to the library. */
    method PrepareJob(id: EntityId) returns (prepared: Prepared)
      ensures prepared.Job? <==> IsEnabled(id) && !IsHindered(id)
      ensures prepared.Job? ==> Captures(prepared.job, id, store.crons.entities[id].data.value)
      ensures prepared.Job? ==> Reaches(prepared.job, store.servers.entities)
      ensures prepared.Impossible? <==> !CanPrepare(id)
    {
      if id !in store.crons.entities || store.crons.entities[id].data.None? {
        return Impossible;
      }
      var data := store.crons.entities[id].data.value;
      if !data.fields.enabled {
        return Skipped;
      }
      if data.fields.serverId.None? || data.fields.serverId.value !in store.servers.entities {
        return Impossible;
      }
      var serverId := data.fields.serverId.value;
      var server := store.servers.entities[serverId].data;
      if server.None? || !parses(data.fields.crontab) {
        return Impossible;
      }
      var endpoint := Endpoint(server.value.fields.sslEnabled, server.value.fields.host, server.value.fields.port);
      return Job(CronJob(id, serverId, data.name, data.fields.crontab, data.fields.args, FiredByCron(data.fields), endpoint));
    }

    /** Fails exactly if the job cannot be prepared or the library refuses it. */
    method AddSchedulerFromLocal(id: EntityId) returns (ok: bool)
      requires Exact()
      modifies this, library
      ensures Exact()
      ensures ok <==> CanPrepare(id) && library.refusals == old(library.refusals)
      ensures !IsEnabled(id) || IsHindered(id) ==> unchanged(this, library)
      ensures IsEnabled(id) && !IsHindered(id) ==>
                && library.refusals == old(library.refusals) + (if ok then 0 else 1)
                && (id in library.lastRefused <==> !ok)
                && if ok then CapturedWith(id, store.servers.entities)
                   else activeJobs == old(activeJobs) && library.registered == old(library.registered)
      ensures OnlyConcerns(id) && library.refusedRemovals == old(library.refusedRemovals)
      ensures replaced == if ok && IsEnabled(id) && id in old(activeJobs) then old(replaced) + {old(activeJobs)[id].jobId} else old(replaced)
    {
      var prepared := PrepareJob(id);
      if prepared.Skipped? {
        return true;
      }
      if prepared.Impossible? {
        return false;
      }
      ghost var before := AllBooks();
      var uuid := library.Add(prepared.job);
      if uuid.None? {
        return false;
      }
      before.AddedKeepsExact(id, prepared.job.name, uuid.value, prepared.job);
      if id in activeJobs {
        replaced := replaced + {activeJobs[id].jobId};
      }
      activeJobs := activeJobs[id := JobHandle(prepared.job.name, uuid.value)];
      assert AllBooks() == before.Added(id, prepared.job.name, uuid.value, prepared.job);
      ok := true;
    }

    /** The step leaves every other scheduler's handle, jobs and refusals alone. */
    twostate predicate OnlyConcerns(id: EntityId)
      reads this, library
    {
      && (forall other :: other != id ==>
            (other in activeJobs <==> other in old(activeJobs)) && (other in library.lastRefused <==> other in old(library.lastRefused)))
      && (forall other :: other != id && other in activeJobs ==> activeJobs[other] == old(activeJobs)[other])
      && (forall uuid :: uuid in old(library.registered) && old(library.registered)[uuid].schedulerId != id ==>
            uuid in library.registered && library.registered[uuid] == old(library.registered)[uuid])
    }

    /** The handle goes first; a refusal of the library leaves its job registered and untracked. */
    method RemoveSchedulerById(id: EntityId) returns (ok: bool)
      requires Exact()
      modifies this, library
      ensures Exact() && AllBooks() == old(AllBooks()).Removed(id, ok)
      ensures library.refusals == old(library.refusals) + (if ok then 0 else 1)
      ensures if id in old(activeJobs) then (id in library.lastRefused <==> !ok) else ok && unchanged(this, library)
      ensures OnlyConcerns(id)
    {
      ok := true;
      ghost var before := AllBooks();
      before.RemovedKeepsExact(id, true);
      before.RemovedKeepsExact(id, false);
      if id in activeJobs {
        assert AllBooks().HandleFits(id);
        var handle := activeJobs[id];
        activeJobs := activeJobs - {id};
        ok := library.Remove(handle.jobId);
        if ok {
          assert handle.jobId !in before.refusedRemovals;
        }
        assert AllBooks() == before.Removed(id, ok);
      }
    }

    /** Removes and re-adds; a refused removal stops before the addition. */
    method ReplaceScheduler(id: EntityId, ghost seen: Seen) returns (ok: bool)
      requires SyncedExcept({id}, seen)
      modifies this, library
      ensures SyncedExcept({}, NowSeen(seen, id)) && replaced == old(replaced)
      ensures OnlyConcerns(id) && old(library.refusals) <= library.refusals
      ensures ok <==> CanPrepare(id) && library.refusals == old(library.refusals)
    {
      ok := RemoveSchedulerById(id);
      if ok {
        ok := AddSchedulerFromLocal(id);
      }
      forall other | other != id
        ensures UpToDate(other, NowSeen(seen, id)) && Accounted(other, NowSeen(seen, id))
      {
        assert old(UpToDate(other, seen) && Accounted(other, seen));
      }
    }

    method DropScheduler(id: EntityId, ghost seen: Seen) returns (ok: bool)
      requires SyncedExcept({id}, seen) && !IsEnabled(id)
      modifies this, library
      ensures SyncedExcept({}, NowSeen(seen, id)) && replaced == old(replaced)
      ensures OnlyConcerns(id) && old(library.refusals) <= library.refusals
      ensures ok <==> library.refusals == old(library.refusals)
    {
      ok := RemoveSchedulerById(id);
      forall other | other != id
        ensures UpToDate(other, NowSeen(seen, id)) && Accounted(other, NowSeen(seen, id))
      {
        assert old(UpToDate(other, seen) && Accounted(other, seen));
      }
    }

    /** Brings the scheduler an event is about back in step. */
    method UpdateSchedulerFromEvent(change: Change<CronFields>, ghost seen: Seen) returns (ok: bool)
      requires Concerned(change).Some? ==> SyncedExcept({change.id.value}, seen)
      requires Concerned(change).None? ==> SyncedExcept({}, seen)
      requires change.action.Deleted? && change.id.Some? ==> !IsEnabled(change.id.value)
      modifies this, library
      ensures SyncedExcept({}, if Concerned(change).Some? then NowSeen(seen, change.id.value) else seen)
      ensures replaced == old(replaced) && old(library.refusals) <= library.refusals
      ensures Concerned(change).None? ==> unchanged(this, library)
      ensures change.id.Some? ==> OnlyConcerns(change.id.value)
      ensures Concerned(change).Some? ==>
                (ok <==> library.refusals == old(library.refusals) && (change.action.Deleted? || CanPrepare(change.id.value)))
    {
      if change.id.None? {
        return false;
      }
      ok := true;
      if change.action.Created? || change.action.Updated? {
        ok := ReplaceScheduler(change.id.value, seen);
      } else if change.action.Deleted? {
        ok := DropScheduler(change.id.value, seen);
      }
    }

    /** Drains the handles; the library may refuse any removal. */
    method StopAll()
      requires Exact()
      modifies this, library
      ensures Exact() && activeJobs == map[] && replaced == old(replaced)
      ensures forall uuid :: uuid in library.registered <==> uuid in library.refusedRemovals || uuid in replaced
      ensures old(library.refusals) <= library.refusals
      ensures library.refusals == old(library.refusals) ==> library.refusedRemovals == old(library.refusedRemovals)
    {
      var todo := activeJobs.Keys;
      while todo != {}
        invariant Exact() && activeJobs.Keys == todo && replaced == old(replaced)
        invariant old(library.refusals) <= library.refusals
        invariant library.refusals == old(library.refusals) ==> library.refusedRemovals == old(library.refusedRemovals)
        decreases |todo|
      {
        var id := AnyOf(todo);
        todo := todo - {id};
        var _ := RemoveSchedulerById(id);
      }
    }

    /** Stops everything, then adds the listed schedulers up to the first failure. */
    method SafeReload(schedulers: seq<CronScheduler>) returns (ok: bool)
      requires Exact()
      modifies this, library
      ensures Exact() && forall id :: id in activeJobs ==> CapturedWith(id, store.servers.entities)
      ensures ok ==> forall i :: 0 <= i < |schedulers| && schedulers[i].id.Some? ==> Reloaded(schedulers[i].id.value)
      ensures !ok ==> library.refusals > old(library.refusals)
                      || exists i :: 0 <= i < |schedulers| && schedulers[i].id.Some? && !CanPrepare(schedulers[i].id.value)
    {
      StopAll();
      for i := 0 to |schedulers|
        invariant Exact() && forall id :: id in activeJobs ==> CapturedWith(id, store.servers.entities)
        invariant old(library.refusals) <= library.refusals
        invariant forall k :: 0 <= k < i && schedulers[k].id.Some? ==> Reloaded(schedulers[k].id.value)
      {
        if schedulers[i].id.Some? {
          var id := schedulers[i].id.value;
          ok := AddOneMore(id);
          if !ok {
            return;
          }
        }
      }
      ok := true;
    }

    ghost predicate Reloaded(id: EntityId)
      reads this, store`crons, store`servers
    {
      CanPrepare(id) && (IsEnabled(id) ==> id in activeJobs)
    }

    /** One addition of a reload; what was reloaded before stays so. */
    method AddOneMore(id: EntityId) returns (ok: bool)
      requires Exact() && forall other :: other in activeJobs ==> CapturedWith(other, store.servers.entities)
      modifies this, library
      ensures Exact() && forall other :: other in activeJobs ==> CapturedWith(other, store.servers.entities)
      ensures ok ==> Reloaded(id) && library.refusals == old(library.refusals)
      ensures !ok ==> library.refusals > old(library.refusals) || !CanPrepare(id)
      ensures old(library.refusals) <= library.refusals
      ensures forall other :: old(Reloaded(other)) ==> Reloaded(other)
    {
      ok := AddSchedulerFromLocal(id);
      forall other | other != id && other in activeJobs
        ensures CapturedWith(other, store.servers.entities)
      {
        assert old(other in activeJobs && CapturedWith(other, store.servers.entities));
      }
    }

    /** The start-up loop over the stored schedulers; one that fails is skipped. */
    method StartInitialSchedulers()
      requires Exact() && activeJobs == map[] && replaced == {}
      requires forall id :: id in store.crons.entities ==> store.crons.entities[id].id == Some(id)
      modifies this, library
      ensures SyncedExcept({}, AllSeen(store.crons.entities, store.servers.entities)) && replaced == {}
      ensures old(library.refusals) <= library.refusals
    {
      var schedulers := store.crons.entities;
      var todo := schedulers.Keys;
      ghost var seen := AllSeen(store.crons.entities, store.servers.entities);
      while todo != {}
        invariant todo <= schedulers.Keys
        invariant SyncedExcept(todo, seen) && forall id :: id in todo ==> id !in activeJobs
        invariant replaced == {} && old(library.refusals) <= library.refusals
        decreases |todo|
      {
        var key := AnyOf(todo);
        todo := todo - {key};
        var scheduler := schedulers[key];
        if scheduler.id.Some? && scheduler.data.Some? && scheduler.data.value.fields.enabled {
          label Before:
          var _ := AddSchedulerFromLocal(scheduler.id.value);
          forall id | id !in todo && id != key
            ensures UpToDate(id, seen) && Accounted(id, seen)
          {
            assert old@Before(UpToDate(id, seen) && Accounted(id, seen));
          }
        }
      }
    }

    /**
     * If the library refused nothing, the tracked schedulers are exactly the enabled ones that lacked
     * nothing when last tried, and every registered job is tracked.
     */
    lemma NothingRefused(seen: Seen)
      requires SyncedExcept({}, seen) && replaced == {} && library.refusals == 0
      ensures forall id :: IsEnabled(id) ==> id in seen
      ensures forall id :: id in activeJobs <==> IsEnabled(id) && AddableIn(store.crons.entities, seen[id], parses, id)
      ensures forall uuid :: uuid in library.registered ==> AllBooks().IsTracked(uuid)
    {
      forall id
        ensures IsEnabled(id) ==> id in seen
        ensures id in activeJobs <==> IsEnabled(id) && AddableIn(store.crons.entities, seen[id], parses, id)
      {
        assert UpToDate(id, seen) && Accounted(id, seen);
      }
    }
  }

  /** What "lacks nothing" means: a stored server with data, and a crontab that parses. */
  lemma AddableExactly(crons: Crons, servers: Servers, parses: string -> bool, id: EntityId)
    requires id in crons && crons[id].data.Some?
    ensures var f := crons[id].data.value.fields;
            && (EnabledIn(crons, id) <==> f.enabled)
            && (f.enabled ==>
                  (HinderedIn(crons, servers, parses, id) <==>
                     f.serverId.None? || f.serverId.value !in servers || servers[f.serverId.value].data.None? || !parses(f.crontab)))
  {
  }

  /** The scheduler an event makes the manager act on. */
  function Concerned(change: Change<CronFields>): Option<EntityId> {
    if change.action in {Created, Updated, Deleted} then change.id else None
  }
}
