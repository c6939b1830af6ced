/** The in-memory store every handler shares: four forward maps, four name indices, a version and a snapshot ring. */
module LocalConfigStore {
  import opened Wrappers
  import opened ConfigEntities
  import opened NameIndex
  import opened ConfigHistory

  /** What an upsert leaves: the entity under its id and its name leading there; an incomplete one changes nothing. */
  ghost predicate Wrote<D>(before: Table<D>, after: Table<D>, e: Entity<D>) {
    if e.id.None? || e.data.None? then after == before
    else
      var id, name := e.id.value, e.data.value.name;
      && after.entities == before.entities[id := e]
      && name in after.index && after.index[name] == id
      && (forall other :: other in after.index && other != name ==> other in before.index && after.index[other] == before.index[other])
      && (forall other :: other in before.index && other != name ==> (other !in after.index <==> Bears(before.entities, id, other)))
  }

  /** What a removal leaves: neither the entity nor its name. */
  ghost predicate Erased<D>(before: Table<D>, after: Table<D>, id: EntityId) {
    && after.entities == before.entities - {id}
    && (forall name :: name in after.index ==> name in before.index && after.index[name] == before.index[name])
    && (forall name :: name in before.index ==> (name !in after.index <==> Bears(before.entities, id, name)))
  }

  /** `upsert_*` on the maps of one kind. */
  method UpsertInto<D>(t: Table<D>, e: Entity<D>) returns (after: Table<D>, ok: bool)
    ensures ok == Complete(e) && after == Upserted(t, e)
    ensures Wrote(t, after, e)
  {
    if e.id.None? || e.data.None? {
      return t, false;
    }
    var id, name := e.id.value, e.data.value.name;
    after := t;
    if id in t.entities && t.entities[id].data.Some? {
      var oldName := t.entities[id].data.value.name;
      if oldName != name {
        after := after.(index := after.index - {oldName});
      }
    }
    after := after.(entities := after.entities[id := e]);
    after := after.(index := after.index[name := id]);
    ok := true;
  }

  /** `remove_*` on the maps of one kind. */
  method RemoveFrom<D>(t: Table<D>, id: EntityId) returns (after: Table<D>, removed: Option<Entity<D>>)
    ensures after == Removed(t, id) && Erased(t, after, id)
    ensures removed == if id in t.entities then Some(t.entities[id]) else None
  {
    after := t;
    removed := None;
    if id in t.entities {
      removed := Some(t.entities[id]);
      after := after.(entities := after.entities - {id});
      if removed.value.data.Some? {
        after := after.(index := after.index - {removed.value.data.value.name});
      }
    }
  }

  /** One kind's part of `diff_with_snapshot`. */
  method DiffKind(kind: Kind, current: set<EntityId>, snapshot: set<EntityId>) returns (diffs: seq<ConfigDiff>)
    ensures NoRepeats(diffs)
    ensures forall d: ConfigDiff :: d in diffs <==> d.kind == kind && Expected(current, snapshot, d)
  {
    diffs := [];
    var todo := current;
    while todo != {}
      invariant todo <= current && NoRepeats(diffs)
      invariant forall d: ConfigDiff :: d in diffs <==> d.kind == kind && d.id in current - todo && Expected(current, snapshot, d)
      decreases |todo|
    {
      var id := AnyOf(todo);
      todo := todo - {id};
      var d := if id !in snapshot then EntityAdded(kind, id) else EntityUpdated(kind, id);
      diffs := diffs + [d];
    }
    todo := snapshot;
    while todo != {}
      invariant todo <= snapshot && NoRepeats(diffs)
      invariant forall d: ConfigDiff :: d in diffs <==> d.kind == kind && Expected(current, snapshot, d) && d.id !in todo - current
      decreases |todo|
    {
      var id := AnyOf(todo);
      todo := todo - {id};
      if id !in current {
        diffs := diffs + [EntityRemoved(kind, id)];
      }
    }
  }

  lemma FourKindsMakeADiff(a: seq<ConfigDiff>, b: seq<ConfigDiff>, c: seq<ConfigDiff>, d: seq<ConfigDiff>,
                           current: Configuration, snapshot: Configuration)
    requires KindDiff(a, CronKind, current, snapshot) && KindDiff(b, ListenerKind, current, snapshot)
    requires KindDiff(c, ServerKind, current, snapshot) && KindDiff(d, SlackKind, current, snapshot)
    ensures IsDiff(a + b + c + d, current, snapshot)
  {
  }

  ghost predicate KindDiff(diffs: seq<ConfigDiff>, kind: Kind, current: Configuration, snapshot: Configuration) {
    && NoRepeats(diffs)
    && forall d: ConfigDiff :: d in diffs <==> d.kind == kind && Expected(IdsOf(current, kind), IdsOf(snapshot, kind), d)
  }

  /** The oldest retained snapshot of a version, if there is one. */
  predicate FirstWith(snapshots: seq<Snapshot>, version: nat, found: Option<Snapshot>) {
    match found
    case None => forall i :: 0 <= i < |snapshots| ==> snapshots[i].version != version
    case Some(s) =>
      s.version == version &&
      exists k :: 0 <= k < |snapshots| && snapshots[k] == s && forall i :: 0 <= i < k ==> snapshots[i].version != version
  }

  lemma {:induction false} FindsTheFirst(snapshots: seq<Snapshot>, version: nat)
    ensures FirstWith(snapshots, version, Find(snapshots, version))
    decreases |snapshots|
  {
    if snapshots != [] && snapshots[0].version != version {
      var rest := snapshots[1..];
      FindsTheFirst(rest, version);
      if Find(rest, version).Some? {
        var k :| 0 <= k < |rest| && rest[k] == Find(rest, version).value && forall i :: 0 <= i < k ==> rest[i].version != version;
        assert snapshots[k + 1] == rest[k] && forall i :: 0 < i < k + 1 ==> snapshots[i] == rest[i - 1];
      }
    }
  }

  // ---------------------------------------------------------------- references between kinds

  /** Some stored server carries that id. */
  predicate HasServer(servers: map<EntityId, JobworkerpServer>, id: Option<EntityId>) {
    id.Some? && exists key :: key in servers && servers[key].id == id
  }

  predicate CronRefers(c: Configuration, id: EntityId) {
    id in c.crons && c.crons[id].data.Some? ==> HasServer(c.servers, c.crons[id].data.value.fields.serverId)
  }

  predicate ListenerRefers(c: Configuration, id: EntityId) {
    id in c.listeners && c.listeners[id].data.Some? ==>
      var f := c.listeners[id].data.value.fields;
      HasServer(c.servers, f.listenServerId) && HasServer(c.servers, f.processServerId)
  }

  predicate SlackRefers(c: Configuration, id: EntityId) {
    id in c.slacks && c.slacks[id].data.Some? ==> HasServer(c.servers, c.slacks[id].data.value.fields.serverId)
  }

  /** Every reference to a server is present and leads to a stored server. */
  predicate Consistent(c: Configuration) {
    && (forall id :: id in c.crons ==> CronRefers(c, id))
    && (forall id :: id in c.listeners ==> ListenerRefers(c, id))
    && (forall id :: id in c.slacks ==> SlackRefers(c, id))
  }

  /** The three loops of `validate_consistency`. */
  method ValidateCrons(c: Configuration) returns (ok: bool)
    ensures ok <==> forall id :: id in c.crons ==> CronRefers(c, id)
  {
    var todo := c.crons.Keys;
    while todo != {}
      invariant todo <= c.crons.Keys
      invariant forall id :: id in c.crons && id !in todo ==> CronRefers(c, id)
      decreases |todo|
    {
      var id := AnyOf(todo);
      todo := todo - {id};
      var data := c.crons[id].data;
      if data.Some? && !HasServer(c.servers, data.value.fields.serverId) {
        assert !CronRefers(c, id);
        return false;
      }
    }
    return true;
  }

  method ValidateListeners(c: Configuration) returns (ok: bool)
    ensures ok <==> forall id :: id in c.listeners ==> ListenerRefers(c, id)
  {
    var todo := c.listeners.Keys;
    while todo != {}
      invariant todo <= c.listeners.Keys
      invariant forall id :: id in c.listeners && id !in todo ==> ListenerRefers(c, id)
      decreases |todo|
    {
      var id := AnyOf(todo);
      todo := todo - {id};
      var data := c.listeners[id].data;
      if data.Some? && !(HasServer(c.servers, data.value.fields.listenServerId) && HasServer(c.servers, data.value.fields.processServerId)) {
        assert !ListenerRefers(c, id);
        return false;
      }
    }
    return true;
  }

  method ValidateSlacks(c: Configuration) returns (ok: bool)
    ensures ok <==> forall id :: id in c.slacks ==> SlackRefers(c, id)
  {
    var todo := c.slacks.Keys;
    while todo != {}
      invariant todo <= c.slacks.Keys
      invariant forall id :: id in c.slacks && id !in todo ==> SlackRefers(c, id)
      decreases |todo|
    {
      var id := AnyOf(todo);
      todo := todo - {id};
      var data := c.slacks[id].data;
      if data.Some? && !HasServer(c.servers, data.value.fields.serverId) {
        assert !SlackRefers(c, id);
        return false;
      }
    }
    return true;
  }

  predicate MentionsServer(c: Configuration, server: EntityId) {
    || (exists id :: id in c.crons && c.crons[id].data.Some? && c.crons[id].data.value.fields.serverId == Some(server))
    || (exists id :: id in c.listeners && c.listeners[id].data.Some?
          && Some(server) in {c.listeners[id].data.value.fields.listenServerId, c.listeners[id].data.value.fields.processServerId})
    || (exists id :: id in c.slacks && c.slacks[id].data.Some? && c.slacks[id].data.value.fields.serverId == Some(server))
  }

  /** Servers are stored under their own ids, as every upsert does. */
  predicate ServersKeyed(c: Configuration) {
    forall id :: id in c.servers ==> c.servers[id].id == Some(id)
  }

  /** Removing a server keeps the configuration consistent exactly when nothing mentions it. */
  lemma RemovingServerKeepsConsistencyIff(c: Configuration, server: EntityId)
    requires Consistent(c) && ServersKeyed(c) && server in c.servers
    ensures Consistent(WithoutEntity(c, ServerKind, server)) <==> !MentionsServer(c, server)
  {
    var after := WithoutEntity(c, ServerKind, server);
    forall other: Option<EntityId> | HasServer(c.servers, other)
      ensures HasServer(after.servers, other) <==> other != Some(server)
    {
      if other != Some(server) {
        assert other.value in after.servers && after.servers[other.value].id == other;
      }
    }
    if MentionsServer(c, server) {
      if id :| id in c.crons && c.crons[id].data.Some? && c.crons[id].data.value.fields.serverId == Some(server) {
        assert CronRefers(c, id) && !CronRefers(after, id);
      } else if id :| id in c.slacks && c.slacks[id].data.Some? && c.slacks[id].data.value.fields.serverId == Some(server) {
        assert SlackRefers(c, id) && !SlackRefers(after, id);
      } else {
        var id :| id in c.listeners && c.listeners[id].data.Some?
               && Some(server) in {c.listeners[id].data.value.fields.listenServerId, c.listeners[id].data.value.fields.processServerId};
        assert ListenerRefers(c, id) && !ListenerRefers(after, id);
      }
    } else {
      assert forall id :: id in c.crons ==> CronRefers(c, id);
      assert forall id :: id in c.listeners ==> ListenerRefers(c, id);
      assert forall id :: id in c.slacks ==> SlackRefers(c, id);
    }
  }

  // ---------------------------------------------------------------- the store

  class LocalConfigStore {
    var crons: Table<CronFields>
    var listeners: Table<ListenerFields>
    var servers: Table<ServerFields>
    var slacks: Table<SlackFields>
    var version: nat
    var snapshots: seq<Snapshot>

    ghost predicate Valid()
      reads this
    {
      NoOrphans(crons) && NoOrphans(listeners) && NoOrphans(servers) && NoOrphans(slacks) && |snapshots| <= RING_SIZE
    }

    function Config(): Configuration
      reads this
    {
      Configuration(crons.entities, listeners.entities, servers.entities, slacks.entities)
    }

    ghost function Contents(): Store
      reads this
    {
      Store(Config(), version, snapshots)
    }

    constructor ()
      ensures Valid() && Contents() == EmptyStore() && version == 1
      ensures IsInverse(crons) && IsInverse(listeners) && IsInverse(servers) && IsInverse(slacks)
    {
      crons, listeners, servers, slacks := Table(map[], map[]), Table(map[], map[]), Table(map[], map[]), Table(map[], map[]);
      version := INITIAL_VERSION;
      snapshots := [];
    }

    method UpsertCronScheduler(e: CronScheduler) returns (ok: bool)
      requires Valid()
      modifies this`crons, this`version
      ensures Valid() && ok == Complete(e)
      ensures crons == Upserted(old(crons), e) && Wrote(old(crons), crons, e)
      ensures version == if e.id.Some? && e.data.Some? then old(version) + 1 else old(version)
      ensures Contents() == Step(old(Contents()), UpsertCron(e))
    {
      UpsertKeepsNoOrphans(crons, e);
      crons, ok := UpsertInto(crons, e);
      if ok {
        version := version + 1;
      }
    }

    method UpsertWorkerResultHandler(e: WorkerResultHandler) returns (ok: bool)
      requires Valid()
      modifies this`listeners, this`version
      ensures Valid() && ok == Complete(e)
      ensures listeners == Upserted(old(listeners), e) && Wrote(old(listeners), listeners, e)
      ensures version == if e.id.Some? && e.data.Some? then old(version) + 1 else old(version)
      ensures Contents() == Step(old(Contents()), UpsertListener(e))
    {
      UpsertKeepsNoOrphans(listeners, e);
      listeners, ok := UpsertInto(listeners, e);
      if ok {
        version := version + 1;
      }
    }

    method UpsertJobworkerpServer(e: JobworkerpServer) returns (ok: bool)
      requires Valid()
      modifies this`servers, this`version
      ensures Valid() && ok == Complete(e)
      ensures servers == Upserted(old(servers), e) && Wrote(old(servers), servers, e)
      ensures version == if e.id.Some? && e.data.Some? then old(version) + 1 else old(version)
      ensures Contents() == Step(old(Contents()), UpsertServer(e))
    {
      UpsertKeepsNoOrphans(servers, e);
      servers, ok := UpsertInto(servers, e);
      if ok {
        version := version + 1;
      }
    }

    method UpsertSlackEventHandler(e: SlackEventHandler) returns (ok: bool)
      requires Valid()
      modifies this`slacks, this`version
      ensures Valid() && ok == Complete(e)
      ensures slacks == Upserted(old(slacks), e) && Wrote(old(slacks), slacks, e)
      ensures version == if e.id.Some? && e.data.Some? then old(version) + 1 else old(version)
      ensures Contents() == Step(old(Contents()), UpsertSlack(e))
    {
      UpsertKeepsNoOrphans(slacks, e);
      slacks, ok := UpsertInto(slacks, e);
      if ok {
        version := version + 1;
      }
    }

    method RemoveCronScheduler(id: EntityId) returns (removed: Option<CronScheduler>)
      requires Valid()
      modifies this`crons, this`version
      ensures Valid() && removed == if id in old(crons).entities then Some(old(crons).entities[id]) else None
      ensures crons == Removed(old(crons), id) && Erased(old(crons), crons, id)
      ensures version == if removed.Some? then old(version) + 1 else old(version)
      ensures Contents() == Step(old(Contents()), RemoveEntity(CronKind, id))
    {
      RemoveKeepsNoOrphans(crons, id);
      crons, removed := RemoveFrom(crons, id);
      if removed.Some? {
        version := version + 1;
      }
    }

    method RemoveWorkerResultHandler(id: EntityId) returns (removed: Option<WorkerResultHandler>)
      requires Valid()
      modifies this`listeners, this`version
      ensures Valid() && removed == if id in old(listeners).entities then Some(old(listeners).entities[id]) else None
      ensures listeners == Removed(old(listeners), id) && Erased(old(listeners), listeners, id)
      ensures version == if removed.Some? then old(version) + 1 else old(version)
      ensures Contents() == Step(old(Contents()), RemoveEntity(ListenerKind, id))
    {
      RemoveKeepsNoOrphans(listeners, id);
      listeners, removed := RemoveFrom(listeners, id);
      if removed.Some? {
        version := version + 1;
      }
    }

    method RemoveJobworkerpServer(id: EntityId) returns (removed: Option<JobworkerpServer>)
      requires Valid()
      modifies this`servers, this`version
      ensures Valid() && removed == if id in old(servers).entities then Some(old(servers).entities[id]) else None
      ensures servers == Removed(old(servers), id) && Erased(old(servers), servers, id)
      ensures version == if removed.Some? then old(version) + 1 else old(version)
      ensures Contents() == Step(old(Contents()), RemoveEntity(ServerKind, id))
    {
      RemoveKeepsNoOrphans(servers, id);
      servers, removed := RemoveFrom(servers, id);
      if removed.Some? {
        version := version + 1;
      }
    }

    method RemoveSlackEventHandler(id: EntityId) returns (removed: Option<SlackEventHandler>)
      requires Valid()
      modifies this`slacks, this`version
      ensures Valid() && removed == if id in old(slacks).entities then Some(old(slacks).entities[id]) else None
      ensures slacks == Removed(old(slacks), id) && Erased(old(slacks), slacks, id)
      ensures version == if removed.Some? then old(version) + 1 else old(version)
      ensures Contents() == Step(old(Contents()), RemoveEntity(SlackKind, id))
    {
      RemoveKeepsNoOrphans(slacks, id);
      slacks, removed := RemoveFrom(slacks, id);
      if removed.Some? {
        version := version + 1;
      }
    }

    method CreateSnapshot()
      requires Valid()
      modifies this`snapshots
      ensures Valid() && Contents() == Step(old(Contents()), TakeSnapshot)
      ensures snapshots == (if |old(snapshots)| < 10 then old(snapshots) else old(snapshots)[1..]) + [Snapshot(version, Config())]
    {
      snapshots := snapshots + [Snapshot(version, Config())];
      if |snapshots| > RING_SIZE {
        snapshots := snapshots[1..];
      }
    }

    /** `snapshots.iter().find(...)`. */
    method FindSnapshot(target: nat) returns (found: Option<Snapshot>)
      ensures found == Find(snapshots, target)
      ensures FirstWith(snapshots, target, found)
    {
      FindsTheFirst(snapshots, target);
      var i := 0;
      while i < |snapshots|
        invariant 0 <= i <= |snapshots|
        invariant Find(snapshots, target) == Find(snapshots[i..], target)
      {
        if snapshots[i].version == target {
          return Some(snapshots[i]);
        }
        i := i + 1;
      }
      return None;
    }

    /** Replaces the four maps and rebuilds the indices, in whatever order the maps iterate. */
    method Reinstate(c: Configuration)
      modifies this`crons, this`listeners, this`servers, this`slacks
      ensures Config() == c
      ensures RebuiltFrom(c.crons, crons.index) && RebuiltFrom(c.listeners, listeners.index)
      ensures RebuiltFrom(c.servers, servers.index) && RebuiltFrom(c.slacks, slacks.index)
    {
      var cronIndex := RebuildIndex(c.crons);
      var listenerIndex := RebuildIndex(c.listeners);
      var serverIndex := RebuildIndex(c.servers);
      var slackIndex := RebuildIndex(c.slacks);
      crons, listeners := Table(c.crons, cronIndex), Table(c.listeners, listenerIndex);
      servers, slacks := Table(c.servers, serverIndex), Table(c.slacks, slackIndex);
    }

    method RestoreFromSnapshot(target: nat) returns (ok: bool)
      requires Valid()
      modifies this
      ensures Valid() && ok == Find(old(snapshots), target).Some?
      ensures Contents() == Step(old(Contents()), Restore(target)) && snapshots == old(snapshots)
      ensures FirstWith(old(snapshots), target, if ok then Some(Snapshot(version, Config())) else None)
      ensures !ok ==> version == old(version)
      ensures !ok ==> (crons, listeners, servers, slacks) == old((crons, listeners, servers, slacks))
      ensures ok ==> RebuiltFrom(crons.entities, crons.index) && RebuiltFrom(listeners.entities, listeners.index)
      ensures ok ==> RebuiltFrom(servers.entities, servers.index) && RebuiltFrom(slacks.entities, slacks.index)
    {
      var found := FindSnapshot(target);
      if found.None? {
        return false;
      }
      Reinstate(found.value.config);
      version := found.value.version;
      ok := true;
    }

    method ImportConfig(exported: Configuration, exportedVersion: nat)
      requires Valid()
      modifies this
      ensures Valid() && Contents() == Step(old(Contents()), Import(exported, exportedVersion))
      ensures Config() == exported && version == exportedVersion
      ensures snapshots == (if |old(snapshots)| < 10 then old(snapshots) else old(snapshots)[1..]) + [old(Snapshot(version, Config()))]
      ensures RebuiltFrom(crons.entities, crons.index) && RebuiltFrom(listeners.entities, listeners.index)
      ensures RebuiltFrom(servers.entities, servers.index) && RebuiltFrom(slacks.entities, slacks.index)
    {
      CreateSnapshot();
      Reinstate(exported);
      version := exportedVersion;
    }

    method DiffWithSnapshot(target: nat) returns (diffs: Option<seq<ConfigDiff>>)
      ensures diffs.Some? <==> Find(snapshots, target).Some?
      ensures diffs.Some? ==> IsDiff(diffs.value, Config(), Find(snapshots, target).value.config)
    {
      var found := FindSnapshot(target);
      if found.None? {
        return None;
      }
      var c := found.value.config;
      var cronDiffs := DiffKind(CronKind, crons.entities.Keys, c.crons.Keys);
      var listenerDiffs := DiffKind(ListenerKind, listeners.entities.Keys, c.listeners.Keys);
      var serverDiffs := DiffKind(ServerKind, servers.entities.Keys, c.servers.Keys);
      var slackDiffs := DiffKind(SlackKind, slacks.entities.Keys, c.slacks.Keys);
      FourKindsMakeADiff(cronDiffs, listenerDiffs, serverDiffs, slackDiffs, Config(), c);
      return Some(cronDiffs + listenerDiffs + serverDiffs + slackDiffs);
    }

    method ValidateIndexConsistency() returns (ok: bool)
      requires Valid()
      ensures ok <==> IsInverse(crons) && IsInverse(listeners) && IsInverse(servers) && IsInverse(slacks)
    {
      ValidExactlyWhenInverse(crons);
      ValidExactlyWhenInverse(listeners);
      ValidExactlyWhenInverse(servers);
      ValidExactlyWhenInverse(slacks);
      ok := ValidateIndex(crons);
      if ok {
        ok := ValidateIndex(listeners);
      }
      if ok {
        ok := ValidateIndex(servers);
      }
      if ok {
        ok := ValidateIndex(slacks);
      }
    }

    method ValidateConsistency() returns (ok: bool)
      ensures ok <==> Consistent(Config())
    {
      ok := ValidateCrons(Config());
      if ok {
        ok := ValidateListeners(Config());
      }
      if ok {
        ok := ValidateSlacks(Config());
      }
    }

    // The four loops of `load_from_initial_config`; an incomplete entry is logged and skipped.

    method LoadCrons(list: seq<CronScheduler>)
      requires Valid()
      modifies this`crons, this`version
      ensures Valid() && crons == Loaded(old(crons), list)
      ensures version == old(version) + CompleteCount(list)
    {
      for i := 0 to |list|
        invariant Valid() && crons == Loaded(old(crons), list[..i])
        invariant version == old(version) + CompleteCount(list[..i])
      {
        var _ := UpsertCronScheduler(list[i]);
        assert list[..i+1][..i] == list[..i];
      }
      assert list[..|list|] == list;
    }

    method LoadListeners(list: seq<WorkerResultHandler>)
      requires Valid()
      modifies this`listeners, this`version
      ensures Valid() && listeners == Loaded(old(listeners), list)
      ensures version == old(version) + CompleteCount(list)
    {
      for i := 0 to |list|
        invariant Valid() && listeners == Loaded(old(listeners), list[..i])
        invariant version == old(version) + CompleteCount(list[..i])
      {
        var _ := UpsertWorkerResultHandler(list[i]);
        assert list[..i+1][..i] == list[..i];
      }
      assert list[..|list|] == list;
    }

    method LoadServers(list: seq<JobworkerpServer>)
      requires Valid()
      modifies this`servers, this`version
      ensures Valid() && servers == Loaded(old(servers), list)
      ensures version == old(version) + CompleteCount(list)
    {
      for i := 0 to |list|
        invariant Valid() && servers == Loaded(old(servers), list[..i])
        invariant version == old(version) + CompleteCount(list[..i])
      {
        var _ := UpsertJobworkerpServer(list[i]);
        assert list[..i+1][..i] == list[..i];
      }
      assert list[..|list|] == list;
    }

    method LoadSlacks(list: seq<SlackEventHandler>)
      requires Valid()
      modifies this`slacks, this`version
      ensures Valid() && slacks == Loaded(old(slacks), list)
      ensures version == old(version) + CompleteCount(list)
    {
      for i := 0 to |list|
        invariant Valid() && slacks == Loaded(old(slacks), list[..i])
        invariant version == old(version) + CompleteCount(list[..i])
      {
        var _ := UpsertSlackEventHandler(list[i]);
        assert list[..i+1][..i] == list[..i];
      }
      assert list[..|list|] == list;
    }

    /** Upserts the four lists the conductor fetched at start-up, each in its order. */
    method LoadFromInitialConfig(cronList: seq<CronScheduler>, listenerList: seq<WorkerResultHandler>,
                                 serverList: seq<JobworkerpServer>, slackList: seq<SlackEventHandler>)
      requires Valid()
      modifies this
      ensures Valid() && snapshots == old(snapshots)
      ensures crons == Loaded(old(crons), cronList) && listeners == Loaded(old(listeners), listenerList)
      ensures servers == Loaded(old(servers), serverList) && slacks == Loaded(old(slacks), slackList)
      ensures version == old(version) + CompleteCount(cronList) + CompleteCount(listenerList)
                         + CompleteCount(serverList) + CompleteCount(slackList)
    {
      LoadCrons(cronList);
      LoadListeners(listenerList);
      LoadServers(serverList);
      LoadSlacks(slackList);
    }
  }
}
