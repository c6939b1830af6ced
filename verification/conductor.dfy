/** The event loop: each configuration change goes to the store first and then to what is derived from it. */
module Conductor {
  import opened Wrappers
  import opened ConfigEntities
  import opened NameIndex
  import opened ConfigHistory
  import opened LocalConfigStore
  import opened SchedulerManager
  import opened SlackMatching

  predicate IsUpsert(action: ChangeAction) {
    action.Created? || action.Updated?
  }

  /** The entity part of an event's effect on the store. */
  function EntityOps(event: ConfigChangeEvent): seq<StoreOp> {
    match event
    case CronEvent(c) =>
      if IsUpsert(c.action) && c.data.Some? then [UpsertCron(Entity(c.id, c.data))]
      else if c.action.Deleted? && c.id.Some? then [RemoveEntity(CronKind, c.id.value)] else []
    case ListenerEvent(c) =>
      if IsUpsert(c.action) && c.data.Some? then [UpsertListener(Entity(c.id, c.data))]
      else if c.action.Deleted? && c.id.Some? then [RemoveEntity(ListenerKind, c.id.value)] else []
    case ServerEvent(c) =>
      if IsUpsert(c.action) && c.data.Some? then [UpsertServer(Entity(c.id, c.data))]
      else if c.action.Deleted? && c.id.Some? then [RemoveEntity(ServerKind, c.id.value)] else []
    case SlackEvent(c) =>
      if IsUpsert(c.action) && c.data.Some? then [UpsertSlack(Entity(c.id, c.data))]
      else if c.action.Deleted? && c.id.Some? then [RemoveEntity(SlackKind, c.id.value)] else []
    case NoEvent => []
  }

  /** Every event is preceded by a snapshot, even one that then fails. */
  function EventOps(event: ConfigChangeEvent): seq<StoreOp> {
    [TakeSnapshot] + EntityOps(event)
  }

  function AllOps(events: seq<ConfigChangeEvent>): seq<StoreOp> {
    if events == [] then [] else AllOps(events[..|events|-1]) + EventOps(events[|events|-1])
  }

  lemma {:induction false} EventsOnlyEdit(events: seq<ConfigChangeEvent>)
    ensures OnlyEdits(AllOps(events))
  {
    if events != [] {
      EventsOnlyEdit(events[..|events|-1]);
    }
  }

  lemma StepAfterStep(s: Store, ops: seq<StoreOp>, op: StoreOp)
    ensures StateAfter(s, ops + [op]) == Step(StateAfter(s, ops), op)
  {
  }

  /**
   * What every run of the conductor inherits from the store's history: a version names one
   * configuration, and every retained snapshot can be reinstated by its version.
   */
  lemma RunsAreReproducible(start: Store, events: seq<ConfigChangeEvent>, i: nat, j: nat, k: nat)
    requires start.snapshots == []
    requires var ops := [TakeSnapshot] + AllOps(events);
             i <= j <= |ops| && k < |StateAfter(start, ops).snapshots|
    ensures var ops := [TakeSnapshot] + AllOps(events);
            StateAfter(start, ops[..i]).version == StateAfter(start, ops[..j]).version ==>
              StateAfter(start, ops[..i]).config == StateAfter(start, ops[..j]).config
    ensures var s := StateAfter(start, [TakeSnapshot] + AllOps(events));
            Current(Step(s, Restore(s.snapshots[k].version))) == s.snapshots[k]
  {
    EventsOnlyEdit(events);
    var ops := [TakeSnapshot] + AllOps(events);
    VersionDeterminesConfiguration(start, ops, i, j);
    RestoreReinstates(start, ops, k);
  }

  /** The two maps agree but for the entry of one id, if one is given. */
  ghost predicate SameBut<D>(before: map<EntityId, Entity<D>>, after: map<EntityId, Entity<D>>, id: Option<EntityId>) {
    && (forall other :: other in before && id != Some(other) ==> other in after && after[other] == before[other])
    && (forall other :: other in after && id != Some(other) ==> other in before)
  }

  /** A deletion removes the entity, a complete creation or update stores it, and anything else changes nothing. */
  ghost predicate Follows<D>(before: map<EntityId, Entity<D>>, after: map<EntityId, Entity<D>>, c: Change<D>) {
    after ==
      if c.id.None? then before
      else if c.action == Deleted then before - {c.id.value}
      else if c.action in {Created, Updated} && c.data.Some? then before[c.id.value := Entity(c.id, c.data)]
      else before
  }

  /** An event changes what it says of the one kind it is about. */
  ghost predicate Obeys(before: Configuration, after: Configuration, event: ConfigChangeEvent) {
    match event
    case CronEvent(c) => Follows(before.crons, after.crons, c) && after == before.(crons := after.crons)
    case ListenerEvent(c) => Follows(before.listeners, after.listeners, c) && after == before.(listeners := after.listeners)
    case ServerEvent(c) => Follows(before.servers, after.servers, c) && after == before.(servers := after.servers)
    case SlackEvent(c) => Follows(before.slacks, after.slacks, c) && after == before.(slacks := after.slacks)
    case NoEvent => after == before
  }

  class EventHandlerServerManager {
    const store: LocalConfigStore
    const schedulers: DynamicSchedulerManager
    const slack: DynamicSlackHandlerManager
    var isRunning: bool

    /** Entities are stored under their own ids, as upserts store them. */
    ghost predicate Keyed()
      reads store
    {
      && (forall id :: id in store.crons.entities ==> store.crons.entities[id].id == Some(id))
      && (forall id :: id in store.slacks.entities ==> store.slacks.entities[id].id == Some(id) && store.slacks.entities[id].data.Some?)
    }

    /** At every event boundary the cron jobs and the Slack cache are in step with the store; `seen` are the servers as each scheduler was last tried. */
    ghost predicate Valid(seen: Seen)
      reads this, store, schedulers, schedulers.library, slack, slack.cache
    {
      && isRunning && store.Valid() && Keyed()
      && schedulers.store == store && slack.store == store
      && schedulers.SyncedExcept({}, seen) && schedulers.replaced == {}
      && slack.SyncedExcept({})
    }

    constructor (store: LocalConfigStore, library: CronLibrary, parses: string -> bool, engine: Engine)
      requires library.Valid() && library.registered == map[] && library.refusals == 0
      ensures this.store == store && fresh(schedulers) && fresh(slack) && fresh(slack.cache) && !isRunning
      ensures schedulers.store == store && schedulers.library == library && schedulers.parses == parses
      ensures slack.store == store && slack.cache.engine == engine
      ensures schedulers.Exact() && schedulers.activeJobs == map[] && schedulers.replaced == {}
      ensures !slack.isRunning && slack.cache.Contents() == Cache(map[], map[], map[])
    {
      this.store, isRunning := store, false;
      schedulers := new DynamicSchedulerManager(library, store, parses);
      slack := new DynamicSlackHandlerManager(store, engine);
    }

    /** Snapshot, cron jobs, Slack cache; a second start is refused. */
    method Start() returns (ok: bool)
      requires store.Valid() && Keyed() && schedulers.store == store && slack.store == store
      requires !isRunning ==> schedulers.Exact() && schedulers.activeJobs == map[] && schedulers.replaced == {}
      requires !isRunning ==> !slack.isRunning && slack.cache.Contents() == Cache(map[], map[], map[])
      modifies this, store`snapshots, schedulers, schedulers.library, slack, slack.cache
      ensures ok == !old(isRunning)
      ensures ok ==> Valid(AllSeen(store.crons.entities, store.servers.entities)) && store.Contents() == Step(old(store.Contents()), TakeSnapshot)
      ensures !ok ==> unchanged(this, store, schedulers, schedulers.library, slack, slack.cache)
    {
      if isRunning {
        return false;
      }
      isRunning := true;
      store.CreateSnapshot();
      schedulers.StartInitialSchedulers();
      slack.Start();
      ok := true;
    }

    /** The store's part of a cron scheduler change. */
    method StoreCronChange(c: Change<CronFields>) returns (ok: bool)
      requires store.Valid() && Keyed()
      modifies store`crons, store`version
      ensures store.Valid() && Keyed()
      ensures store.Contents() == StateAfter(old(store.Contents()), EntityOps(CronEvent(c)))
      ensures Follows(old(store.crons).entities, store.crons.entities, c)
      ensures !ok <==> IsUpsert(c.action) && c.data.Some? && c.id.None?
      ensures SameBut(old(store.crons).entities, store.crons.entities, c.id)
      ensures !ok || c.action !in {Created, Updated, Deleted} ==> store.crons == old(store.crons)
      ensures c.action.Deleted? && c.id.Some? ==> c.id.value !in store.crons.entities
    {
      StepAfterStep(store.Contents(), [], UpsertCron(Entity(c.id, c.data)));
      ok := true;
      if IsUpsert(c.action) {
        if c.data.Some? {
          ok := store.UpsertCronScheduler(Entity(c.id, c.data));
        }
      } else if c.action.Deleted? {
        if c.id.Some? {
          StepAfterStep(store.Contents(), [], RemoveEntity(CronKind, c.id.value));
          var _ := store.RemoveCronScheduler(c.id.value);
        }
      }
    }

    /** After the store's part the jobs of all other schedulers are still in step. */
    method StoreCronChangeInStep(c: Change<CronFields>, ghost seen: Seen) returns (ok: bool)
      requires Valid(seen)
      modifies store`crons, store`version
      ensures store.Valid() && Keyed()
      ensures store.Contents() == StateAfter(old(store.Contents()), EntityOps(CronEvent(c)))
      ensures Follows(old(store.crons).entities, store.crons.entities, c)
      ensures !ok <==> IsUpsert(c.action) && c.data.Some? && c.id.None?
      ensures !ok || Concerned(c).None? ==> schedulers.SyncedExcept({}, seen)
      ensures ok && Concerned(c).Some? ==> schedulers.SyncedExcept({c.id.value}, seen)
      ensures c.action.Deleted? && c.id.Some? ==> !schedulers.IsEnabled(c.id.value)
    {
      ok := StoreCronChange(c);
      forall other | c.id != Some(other) || store.crons == old(store.crons)
        ensures schedulers.UpToDate(other, seen) && schedulers.Accounted(other, seen)
      {
        assert old(schedulers.UpToDate(other, seen) && schedulers.Accounted(other, seen));
      }
    }

    method HandleCronSchedulerChange(c: Change<CronFields>, ghost seen: Seen) returns (ok: bool)
      requires Valid(seen)
      modifies store`crons, store`version, schedulers, schedulers.library
      ensures Valid(if Concerned(c).Some? then schedulers.NowSeen(seen, c.id.value) else seen)
      ensures store.Contents() == StateAfter(old(store.Contents()), EntityOps(CronEvent(c)))
      ensures Follows(old(store.crons).entities, store.crons.entities, c)
      ensures !ok <==> IsUpsert(c.action) && c.data.Some? && c.id.None?
      ensures c.id.Some? ==> schedulers.OnlyConcerns(c.id.value)
    {
      ok := StoreCronChangeInStep(c, seen);
      if ok {
        var _ := schedulers.UpdateSchedulerFromEvent(c, seen);
      }
    }

    /** The store's part of a Slack handler change. */
    method StoreSlackChange(c: Change<SlackFields>) returns (ok: bool)
      requires store.Valid() && Keyed()
      modifies store`slacks, store`version
      ensures store.Valid() && Keyed()
      ensures store.Contents() == StateAfter(old(store.Contents()), EntityOps(SlackEvent(c)))
      ensures Follows(old(store.slacks).entities, store.slacks.entities, c)
      ensures !ok <==> IsUpsert(c.action) && c.data.Some? && c.id.None?
      ensures SameBut(old(store.slacks).entities, store.slacks.entities, c.id)
      ensures EntityOps(SlackEvent(c)) == [] || !ok ==> store.slacks == old(store.slacks)
      ensures ok && IsUpsert(c.action) && c.data.Some? ==> store.slacks.entities == old(store.slacks).entities[c.id.value := Entity(c.id, c.data)]
      ensures c.action.Deleted? && c.id.Some? ==> c.id.value !in store.slacks.entities
    {
      StepAfterStep(store.Contents(), [], UpsertSlack(Entity(c.id, c.data)));
      ok := true;
      if IsUpsert(c.action) {
        if c.data.Some? {
          ok := store.UpsertSlackEventHandler(Entity(c.id, c.data));
        }
      } else if c.action.Deleted? {
        if c.id.Some? {
          StepAfterStep(store.Contents(), [], RemoveEntity(SlackKind, c.id.value));
          var _ := store.RemoveSlackEventHandler(c.id.value);
        }
      }
    }

    method HandleSlackEventHandlerChange(c: Change<SlackFields>, ghost seen: Seen) returns (ok: bool)
      requires Valid(seen)
      modifies store`slacks, store`version, slack.cache
      ensures Valid(seen)
      ensures store.Contents() == StateAfter(old(store.Contents()), EntityOps(SlackEvent(c)))
      ensures Follows(old(store.slacks).entities, store.slacks.entities, c)
      ensures !ok <==> IsUpsert(c.action) && c.data.Some? && c.id.None?
    {
      ok := StoreSlackChange(c);
      if !ok {
        return;
      }
      forall other | c.id != Some(other) || store.slacks == old(store.slacks)
        ensures slack.Fits(other)
      {
        assert old(slack.Fits(other));
      }
      var _ := slack.UpdateHandlerCacheFromEvent(c);
    }

    method HandleJobworkerpServerChange(c: Change<ServerFields>, ghost seen: Seen) returns (ok: bool)
      requires Valid(seen)
      modifies store`servers, store`version
      ensures Valid(seen)
      ensures store.Contents() == StateAfter(old(store.Contents()), EntityOps(ServerEvent(c)))
      ensures Follows(old(store.servers).entities, store.servers.entities, c)
      ensures !ok <==> IsUpsert(c.action) && c.data.Some? && c.id.None?
    {
      StepAfterStep(store.Contents(), [], UpsertServer(Entity(c.id, c.data)));
      ok := true;
      if IsUpsert(c.action) {
        if c.data.Some? {
          ok := store.UpsertJobworkerpServer(Entity(c.id, c.data));
        }
      } else if c.action.Deleted? {
        if c.id.Some? {
          StepAfterStep(store.Contents(), [], RemoveEntity(ServerKind, c.id.value));
          var _ := store.RemoveJobworkerpServer(c.id.value);
        }
      }
    }

    /** The store's part of a listener change; the listener manager is not part of this model. */
    method HandleWorkerResultHandlerChange(c: Change<ListenerFields>, ghost seen: Seen) returns (ok: bool)
      requires Valid(seen)
      modifies store`listeners, store`version
      ensures Valid(seen)
      ensures store.Contents() == StateAfter(old(store.Contents()), EntityOps(ListenerEvent(c)))
      ensures Follows(old(store.listeners).entities, store.listeners.entities, c)
      ensures !ok <==> IsUpsert(c.action) && c.data.Some? && c.id.None?
    {
      StepAfterStep(store.Contents(), [], UpsertListener(Entity(c.id, c.data)));
      ok := true;
      if IsUpsert(c.action) {
        if c.data.Some? {
          ok := store.UpsertWorkerResultHandler(Entity(c.id, c.data));
        }
      } else if c.action.Deleted? {
        if c.id.Some? {
          StepAfterStep(store.Contents(), [], RemoveEntity(ListenerKind, c.id.value));
          var _ := store.RemoveWorkerResultHandler(c.id.value);
        }
      }
    }

    /** The handler of the event's kind. */
    method HandleEntityChange(event: ConfigChangeEvent, ghost seen: Seen) returns (ok: bool)
      requires Valid(seen)
      modifies store`crons, store`listeners, store`servers, store`slacks, store`version, schedulers, schedulers.library, slack.cache
      ensures Valid(SeenOnce(seen, store.Config(), event))
      ensures store.Contents() == StateAfter(old(store.Contents()), EntityOps(event))
      ensures Obeys(old(store.Config()), store.Config(), event)
    {
      match event {
        case CronEvent(c) => ok := HandleCronSchedulerChange(c, seen);
        case ListenerEvent(c) => ok := HandleWorkerResultHandlerChange(c, seen);
        case ServerEvent(c) => ok := HandleJobworkerpServerChange(c, seen);
        case SlackEvent(c) => ok := HandleSlackEventHandlerChange(c, seen);
        case NoEvent => ok := false;
      }
    }

    /** Whatever becomes of the event, the state before it is kept as the newest snapshot. */
    method HandleConfigChangeEvent(event: ConfigChangeEvent, ghost seen: Seen) returns (ok: bool)
      requires Valid(seen)
      modifies store, schedulers, schedulers.library, slack.cache
      ensures Valid(SeenOnce(seen, store.Config(), event))
      ensures store.Contents() == StateAfter(old(store.Contents()), EventOps(event))
      ensures Obeys(old(store.Config()), store.Config(), event)
      ensures store.snapshots != [] && store.snapshots[|store.snapshots|-1] == old(Snapshot(store.version, store.Config()))
    {
      ghost var before := store.Contents();
      store.CreateSnapshot();
      RunInTwo(before, [TakeSnapshot], EntityOps(event));
      StepAfterStep(before, [], TakeSnapshot);
      ok := HandleEntityChange(event, seen);
    }

    /** The notification loop: an event that fails is logged and the loop goes on. */
    method ReceiveAll(events: seq<ConfigChangeEvent>, ghost seen: Seen)
      requires Valid(seen)
      modifies store, schedulers, schedulers.library, slack.cache
      ensures Valid(SeenAfter(seen, old(store.Contents()), events))
      ensures store.Contents() == StateAfter(old(store.Contents()), AllOps(events))
    {
      ghost var start := store.Contents();
      for i := 0 to |events|
        invariant Valid(SeenAfter(seen, start, events[..i]))
        invariant store.Contents() == StateAfter(start, AllOps(events[..i]))
      {
        ghost var front := events[..i];
        var _ := HandleConfigChangeEvent(events[i], SeenAfter(seen, start, front));
        RunInTwo(start, AllOps(front), EventOps(events[i]));
        assert events[..i+1][..i] == front;
      }
      assert events[..|events|] == events;
    }

    /**
     * If the library refused nothing, the tracked schedulers are exactly the enabled ones that lacked
     * nothing when last tried, and every registered job is tracked.
     */
    lemma WithoutRefusals(seen: Seen)
      requires Valid(seen) && schedulers.library.refusals == 0
      ensures forall id :: schedulers.IsEnabled(id) ==> id in seen
      ensures forall id :: id in schedulers.activeJobs <==>
                schedulers.IsEnabled(id) && AddableIn(store.crons.entities, seen[id], schedulers.parses, id)
      ensures forall uuid :: uuid in schedulers.library.registered ==> schedulers.AllBooks().IsTracked(uuid)
    {
      schedulers.NothingRefused(seen);
    }
  }

  /** What was seen once an event led to the configuration. */
  function SeenOnce(seen: Seen, config: Configuration, event: ConfigChangeEvent): Seen {
    if event.CronEvent? && Concerned(event.cron).Some? then seen[event.cron.id.value := config.servers] else seen
  }

  /** The servers as they were stored when each scheduler was last tried by an event. */
  function SeenAfter(seen: Seen, start: Store, events: seq<ConfigChangeEvent>): Seen {
    if events == [] then seen
    else SeenOnce(SeenAfter(seen, start, events[..|events|-1]), StateAfter(start, AllOps(events)).config, events[|events|-1])
  }

  /** The store right after loading the database and the start-up snapshot. */
  function Started(crons: seq<CronScheduler>, listeners: seq<WorkerResultHandler>, servers: seq<JobworkerpServer>, slacks: seq<SlackEventHandler>): Store {
    var version := INITIAL_VERSION + CompleteCount(crons) + CompleteCount(listeners) + CompleteCount(servers) + CompleteCount(slacks);
    Step(Store(LoadedConfig(crons, listeners, servers, slacks), version, []), TakeSnapshot)
  }

  function LoadedConfig(crons: seq<CronScheduler>, listeners: seq<WorkerResultHandler>, servers: seq<JobworkerpServer>, slacks: seq<SlackEventHandler>): Configuration {
    Configuration(Loaded(Table(map[], map[]), crons).entities, Loaded(Table(map[], map[]), listeners).entities,
                  Loaded(Table(map[], map[]), servers).entities, Loaded(Table(map[], map[]), slacks).entities)
  }

  /** The map holds exactly the complete entries of the list, each under its own id. */
  ghost predicate Holds<D>(entities: map<EntityId, Entity<D>>, list: seq<Entity<D>>) {
    && (forall i :: 0 <= i < |list| && list[i].id.Some? && list[i].data.Some? ==>
          list[i].id.value in entities && entities[list[i].id.value] == list[i])
    && (forall id :: id in entities ==> exists i :: 0 <= i < |list| && list[i].data.Some? && list[i].id == Some(id))
  }

  lemma LoadedHolds<D>(list: seq<Entity<D>>)
    requires IdsDistinct(list)
    ensures Holds(Loaded(Table(map[], map[]), list).entities, list)
  {
    forall id: EntityId
      ensures var t := Loaded(Table(map[], map[]), list);
              && (id in t.entities <==> exists i :: 0 <= i < |list| && Complete(list[i]) && list[i].id == Some(id))
              && forall i :: 0 <= i < |list| && Complete(list[i]) && list[i].id == Some(id) ==> id in t.entities && t.entities[id] == list[i]
    {
      LoadedExactly(list, id);
    }
  }

  /** A conductor starts with what it fetched, and one snapshot of it. */
  lemma StartsWithWhatWasFetched(crons: seq<CronScheduler>, listeners: seq<WorkerResultHandler>, servers: seq<JobworkerpServer>, slacks: seq<SlackEventHandler>)
    requires IdsDistinct(crons) && IdsDistinct(listeners) && IdsDistinct(servers) && IdsDistinct(slacks)
    ensures var started := Started(crons, listeners, servers, slacks);
            && Holds(started.config.crons, crons) && Holds(started.config.listeners, listeners)
            && Holds(started.config.servers, servers) && Holds(started.config.slacks, slacks)
            && started.snapshots == [Snapshot(started.version, started.config)]
  {
    LoadedHolds(crons);
    LoadedHolds(listeners);
    LoadedHolds(servers);
    LoadedHolds(slacks);
  }

  /** Each further event changes the configuration by what it says, after a snapshot. */
  lemma NextEventIsObeyed(s: Store, events: seq<ConfigChangeEvent>, event: ConfigChangeEvent)
    ensures Obeys(StateAfter(s, AllOps(events)).config, StateAfter(s, AllOps(events + [event])).config, event)
    ensures StateAfter(s, AllOps([])).config == s.config
  {
    assert (events + [event])[..|events|] == events;
    RunInTwo(s, AllOps(events), EventOps(event));
    OneEventIsObeyed(StateAfter(s, AllOps(events)), event);
  }

  lemma OneEventIsObeyed(s: Store, event: ConfigChangeEvent)
    ensures Obeys(s.config, StateAfter(s, EventOps(event)).config, event)
  {
    StepAfterStep(s, [], TakeSnapshot);
    if EntityOps(event) != [] {
      var op := EntityOps(event)[0];
      assert EventOps(event) == [TakeSnapshot] + [op];
      StepAfterStep(s, [TakeSnapshot], op);
      OneOpIsObeyed(Step(s, TakeSnapshot), event);
    } else {
      assert EventOps(event) == [] + [TakeSnapshot];
    }
  }

  lemma OneOpIsObeyed(s: Store, event: ConfigChangeEvent)
    requires EntityOps(event) != []
    ensures Obeys(s.config, Step(s, EntityOps(event)[0]).config, event)
  {
    match event {
      case CronEvent(c) => AbsentIsGone(s.config.crons, c);
      case ListenerEvent(c) => AbsentIsGone(s.config.listeners, c);
      case ServerEvent(c) => AbsentIsGone(s.config.servers, c);
      case SlackEvent(c) => AbsentIsGone(s.config.slacks, c);
      case NoEvent =>
    }
  }

  lemma AbsentIsGone<D>(entities: map<EntityId, Entity<D>>, c: Change<D>)
    ensures c.id.Some? && c.id.value !in entities ==> entities - {c.id.value} == entities
  {
  }

  /** Start-up tries every scheduler, and each event the one it is about. */
  function SeenInService(started: Store, events: seq<ConfigChangeEvent>): Seen {
    SeenAfter(AllSeen(started.config.crons, started.config.servers), started, events)
  }

  method LoadStore(crons: seq<CronScheduler>, listeners: seq<WorkerResultHandler>, servers: seq<JobworkerpServer>, slacks: seq<SlackEventHandler>)
    returns (store: LocalConfigStore)
    ensures fresh(store) && store.Valid() && Step(store.Contents(), TakeSnapshot) == Started(crons, listeners, servers, slacks)
    ensures forall id :: id in store.crons.entities ==> store.crons.entities[id].id == Some(id)
    ensures forall id :: id in store.slacks.entities ==> store.slacks.entities[id].id == Some(id) && store.slacks.entities[id].data.Some?
  {
    store := new LocalConfigStore();
    store.LoadFromInitialConfig(crons, listeners, servers, slacks);
    LoadedIsKeyed(crons);
    LoadedIsKeyed(slacks);
    assert store.Config() == LoadedConfig(crons, listeners, servers, slacks);
  }

  method StartManager(store: LocalConfigStore, parses: string -> bool, engine: Engine) returns (manager: EventHandlerServerManager)
    requires store.Valid()
    requires forall id :: id in store.crons.entities ==> store.crons.entities[id].id == Some(id)
    requires forall id :: id in store.slacks.entities ==> store.slacks.entities[id].id == Some(id) && store.slacks.entities[id].data.Some?
    modifies store`snapshots
    ensures fresh(manager) && fresh(manager.schedulers) && fresh(manager.schedulers.library) && fresh(manager.slack) && fresh(manager.slack.cache)
    ensures manager.store == store && manager.slack.cache.engine == engine && manager.schedulers.parses == parses
    ensures store.Contents() == Step(old(store.Contents()), TakeSnapshot)
    ensures manager.Valid(AllSeen(store.crons.entities, store.servers.entities))
  {
    var library := new CronLibrary();
    manager := new EventHandlerServerManager(store, library, parses, engine);
    var _ := manager.Start();
  }

  /** One whole life of the conductor: load what the database held, start, and follow the events. */
  method Serve(crons: seq<CronScheduler>, listeners: seq<WorkerResultHandler>, servers: seq<JobworkerpServer>, slacks: seq<SlackEventHandler>,
               parses: string -> bool, engine: Engine, events: seq<ConfigChangeEvent>) returns (manager: EventHandlerServerManager)
    ensures var started := Started(crons, listeners, servers, slacks);
            && manager.Valid(SeenInService(started, events))
            && manager.store.Contents() == StateAfter(started, AllOps(events))
    ensures manager.slack.cache.engine == engine && manager.schedulers.parses == parses
  {
    var store := LoadStore(crons, listeners, servers, slacks);
    manager := StartManager(store, parses, engine);
    manager.ReceiveAll(events, AllSeen(store.crons.entities, store.servers.entities));
  }

  /** At every event boundary, two jobs of one scheduler can both be registered only where the library refused a removal. */
  lemma NoTwoJobsWithoutARefusal(manager: EventHandlerServerManager, seen: Seen, one: JobUuid, other: JobUuid)
    requires manager.Valid(seen) && one != other
    requires one in manager.schedulers.library.registered && other in manager.schedulers.library.registered
    requires manager.schedulers.library.registered[one].schedulerId == manager.schedulers.library.registered[other].schedulerId
    ensures one in manager.schedulers.library.refusedRemovals || other in manager.schedulers.library.refusedRemovals
  {
  }

  lemma {:induction false} RunInTwo(s: Store, first: seq<StoreOp>, second: seq<StoreOp>)
    ensures StateAfter(s, first + second) == StateAfter(StateAfter(s, first), second)
  {
    if second == [] {
      assert first + second == first;
    } else {
      RunInTwo(s, first, second[..|second|-1]);
      assert (first + second)[..|first + second|-1] == first + second[..|second|-1];
    }
  }
}
