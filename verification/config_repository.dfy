/** `clear_all_configs`, `import_toml_config` and `export_toml_config` over the tables they change. */
module ConfigRepository {
  import opened Wrappers
  import opened ConfigEntities
  import opened ExecutionTargets
  import opened NamedRows
  import opened ConfigManagement
  import opened ConfigFileLaws

  method ValidateTomlConfig(parser: UrlParser, file: SettingsFile) returns (ok: bool)
    ensures ok == ValidFile(parser, file)
  {
    if file.servers == [] {
      return false;
    }
    var names: set<string> := {};
    for i := 0 to |file.servers|
      invariant names == set k | 0 <= k < i :: file.servers[k].name
      invariant forall j, k :: 0 <= j < k < i ==> file.servers[j].name != file.servers[k].name
      invariant forall k :: 0 <= k < i ==> ParseServerAddress(parser, file.servers[k].address).Some?
    {
      if file.servers[i].name in names {
        return false;
      }
      names := names + {file.servers[i].name};
      if ParseServerAddress(parser, file.servers[i].address).None? {
        return false;
      }
    }
    for i := 0 to |Items(file.listeners)|
      invariant forall k :: 0 <= k < i ==> HasTarget(Items(file.listeners)[k])
    {
      if !HasTarget(Items(file.listeners)[i]) {
        return false;
      }
    }
    for i := 0 to |Items(file.schedulers)|
      invariant forall k :: 0 <= k < i ==> HasTarget(Items(file.schedulers)[k])
    {
      if !HasTarget(Items(file.schedulers)[i]) {
        return false;
      }
    }
    return true;
  }

  method BuildServerMap(servers: Rows<ServerFields>) returns (serverMap: ServerMap)
    requires Unique(servers)
    ensures serverMap == NameMap(servers)
  {
    serverMap := map[];
    var todo := servers.Keys;
    while todo != {}
      invariant todo <= servers.Keys
      invariant forall name :: name in serverMap ==> serverMap[name] in servers && servers[serverMap[name]].name == name
      invariant forall id :: id in servers && id !in todo ==> servers[id].name in serverMap && serverMap[servers[id].name] == id
      decreases |todo|
    {
      var id := AnyOf(todo);
      todo := todo - {id};
      serverMap := serverMap[servers[id].name := id];
    }
    SameMap(servers, serverMap);
  }

  lemma SameMap(servers: Rows<ServerFields>, serverMap: ServerMap)
    requires Unique(servers)
    requires forall name :: name in serverMap ==> serverMap[name] in servers && servers[serverMap[name]].name == name
    requires forall id :: id in servers ==> servers[id].name in serverMap && serverMap[servers[id].name] == id
    ensures serverMap == NameMap(servers)
  {
  }

  method ImportSchedulers(crons: Rows<CronColumns>, serverMap: ServerMap, items: seq<Item>, base: EntityId)
    returns (after: Option<Rows<CronColumns>>)
    requires Unique(crons) && Below(crons, base)
    ensures after.Some? <==> CanInsertAll(crons, CronRows(serverMap, items))
    ensures after.Some? ==> after.value == CronsAfter(crons, serverMap, items, base)
    ensures after.Some? ==> Unique(after.value) && Below(after.value, base + |items|)
  {
    after := InsertAll(crons, CronRows(serverMap, items), base);
  }

  method ImportListeners(listeners: Rows<ListenerColumns>, serverMap: ServerMap, items: seq<Item>, base: EntityId)
    returns (after: Option<Rows<ListenerColumns>>)
    requires Unique(listeners) && Below(listeners, base)
    ensures after.Some? <==> CanInsertAll(listeners, ListenerRows(serverMap, items))
    ensures after.Some? ==> after.value == ListenersAfter(listeners, serverMap, items, base)
    ensures after.Some? ==> Unique(after.value) && Below(after.value, base + |items|)
  {
    after := InsertAll(listeners, ListenerRows(serverMap, items), base);
  }

  method ImportServers(parser: UrlParser, servers: Rows<ServerFields>, settings: seq<ServerSetting>, base: EntityId)
    returns (after: Option<Rows<ServerFields>>)
    requires Unique(servers) && Below(servers, base)
    ensures after.Some? <==> CanInsertAll(servers, ServerRows(parser, settings))
    ensures after.Some? ==> after.value == ServersAfter(parser, servers, settings, base)
    ensures after.Some? ==> Unique(after.value) && Below(after.value, base + |settings|)
  {
    after := InsertAll(servers, ServerRows(parser, settings), base);
  }

  /** The scheduler loop and the listener loop. */
  method ImportItems(tx: Database, serverMap: ServerMap, file: SettingsFile, ids: FreshIds) returns (after: Option<Database>)
    requires Sound(tx, ids.crons) && ids.crons <= ids.listeners
    ensures after.Some? <==> CanInsertItems(tx, serverMap, file)
    ensures after.Some? ==> after.value == WithItems(tx, serverMap, file, ids)
    ensures after.Some? ==> Unique(after.value.crons) && Below(after.value.crons, ids.crons + |Items(file.schedulers)|)
    ensures after.Some? ==> Unique(after.value.listeners) && Below(after.value.listeners, ids.listeners + |Items(file.listeners)|)
  {
    var crons := ImportSchedulers(tx.crons, serverMap, Items(file.schedulers), ids.crons);
    if crons.None? {
      return None;
    }
    var listeners := ImportListeners(tx.listeners, serverMap, Items(file.listeners), ids.listeners);
    if listeners.None? {
      return None;
    }
    return Some(Database(tx.servers, crons.value, listeners.value, tx.slacks));
  }

  /** The statements of the transaction, on a copy that is dropped when one of them fails. */
  method RunImport(parser: UrlParser, start: Database, file: SettingsFile, ids: FreshIds) returns (after: Option<Database>)
    requires Sound(start, ids.servers) && ValidFile(parser, file) && ids == IdsFor(file, ids.servers)
    ensures after.Some? <==> CanImport(parser, start, file, ids.servers)
    ensures after.Some? ==> after.value == Imported(parser, start, file, ids)
    ensures after.Some? ==> Sound(after.value, ids.listeners + |Items(file.listeners)|)
    ensures after.Some? ==> WroteTheFile(parser, start, after.value, file)
  {
    var servers := ImportServers(parser, start.servers, file.servers, ids.servers);
    if servers.None? {
      return None;
    }
    var serverMap := BuildServerMap(servers.value);
    assert serverMap == MapAfter(parser, start, file, ids.servers);
    after := ImportItems(start.(servers := servers.value), serverMap, file, ids);
    if after.Some? {
      ImportWritesTheFile(parser, start, file, ids);
    }
  }

  /** The next id after an import has used its own. */
  function NextAfter(file: SettingsFile, first: EntityId): EntityId {
    first + |file.servers| + |Items(file.schedulers)| + |Items(file.listeners)|
  }

  /** Validation and transaction together: what is committed, if anything. */
  method ValidateAndImport(parser: UrlParser, start: Database, file: SettingsFile, first: EntityId) returns (committed: Option<Database>)
    requires Sound(start, first)
    ensures committed.Some? <==> CanImport(parser, start, file, first)
    ensures committed.Some? ==> committed.value == Imported(parser, start, file, IdsFor(file, first))
    ensures committed.Some? ==> WroteTheFile(parser, start, committed.value, file)
    ensures committed.Some? ==> Sound(committed.value, NextAfter(file, first))
  {
    var valid := ValidateTomlConfig(parser, file);
    if !valid {
      return None;
    }
    committed := RunImport(parser, start, file, IdsFor(file, first));
  }

  class ConfigManagementRepository {
    const parser: UrlParser
    var db: Database
    /** The next id the generator hands out; ids are not given back when a transaction fails. */
    var nextId: EntityId

    ghost predicate Valid()
      reads this
    {
      Sound(db, nextId)
    }

    /** Slack handlers are not cleared. */
    method ClearAllConfigs()
      requires Valid()
      modifies this`db
      ensures Valid() && db == Cleared(old(db))
      ensures db.servers == map[] && db.crons == map[] && db.listeners == map[] && db.slacks == old(db).slacks
    {
      db := Database(map[], map[], map[], db.slacks);
    }

    /** One transaction: either everything is imported, or the database is as before. */
    method ImportTomlConfig(file: SettingsFile, overwriteExisting: bool) returns (counts: Option<(nat, nat, nat)>)
      requires Valid()
      modifies this
      ensures Valid()
      ensures var start := if overwriteExisting then Cleared(old(db)) else old(db);
              && (counts.Some? <==> CanImport(parser, start, file, old(nextId)))
              && (counts.Some? ==> db == Imported(parser, start, file, IdsFor(file, old(nextId))))
      ensures counts.Some? ==> WroteTheFile(parser, if overwriteExisting then Cleared(old(db)) else old(db), db, file)
      ensures counts.Some? ==> counts.value == (|file.servers|, |Items(file.schedulers)|, |Items(file.listeners)|)
      ensures counts.None? ==> db == old(db)
    {
      var start := if overwriteExisting then Cleared(db) else db;
      var committed := ValidateAndImport(parser, start, file, nextId);
      nextId := NextAfter(file, nextId);
      if committed.None? {
        return None;
      }
      db := committed.value;
      return Some((|file.servers|, |Items(file.schedulers)|, |Items(file.listeners)|));
    }

    method ExportServers(ids: seq<EntityId>, enabledOnly: bool) returns (settings: seq<ServerSetting>)
      requires forall i :: 0 <= i < |ids| ==> ids[i] in db.servers
      ensures settings == SettingsOf(db, Picked(ids, ServerChoice(db, enabledOnly)))
    {
      settings := [];
      for i := 0 to |ids|
        invariant settings == SettingsOf(db, Picked(ids[..i], ServerChoice(db, enabledOnly)))
      {
        assert ids[..i+1][..i] == ids[..i];
        if ServerSelected(db, enabledOnly, ids[i]) {
          settings := settings + [SettingOf(db, ids[i])];
        }
      }
      assert ids[..|ids|] == ids;
    }

    method ExportSchedulers(ids: seq<EntityId>, enabledOnly: bool) returns (items: seq<Item>)
      ensures items == CronItems(db, Picked(ids, CronChoice(db, enabledOnly)))
    {
      items := [];
      for i := 0 to |ids|
        invariant items == CronItems(db, Picked(ids[..i], CronChoice(db, enabledOnly)))
      {
        assert ids[..i+1][..i] == ids[..i];
        if CronSelected(db, enabledOnly, ids[i]) {
          items := items + [CronItem(db, ids[i])];
        }
      }
      assert ids[..|ids|] == ids;
    }

    method ExportListeners(ids: seq<EntityId>, enabledOnly: bool) returns (items: seq<Item>)
      ensures items == ListenerItems(db, Picked(ids, ListenerChoice(db, enabledOnly)))
    {
      items := [];
      for i := 0 to |ids|
        invariant items == ListenerItems(db, Picked(ids[..i], ListenerChoice(db, enabledOnly)))
      {
        assert ids[..i+1][..i] == ids[..i];
        if ListenerSelected(db, enabledOnly, ids[i]) {
          items := items + [ListenerItem(db, ids[i])];
        }
      }
      assert ids[..|ids|] == ids;
    }

    method ExportTomlConfig(order: RowOrder, enabledOnly: bool) returns (file: SettingsFile)
      requires OrdersRows(order, db)
      ensures file == Exported(db, order, enabledOnly)
    {
      var servers := ExportServers(order.servers, enabledOnly);
      var schedulers := ExportSchedulers(order.crons, enabledOnly);
      var listeners := ExportListeners(order.listeners, enabledOnly);
      file := SettingsFile(servers,
                           if schedulers == [] then None else Some(schedulers),
                           if listeners == [] then None else Some(listeners));
    }
  }
}
