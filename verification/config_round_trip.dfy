/** What survives an export and an import with overwrite, row by row and name by name. */
module ConfigRoundTrip {
  import opened Wrappers
  import opened ConfigEntities
  import opened ExecutionTargets
  import opened NamedRows
  import opened ConfigManagement
  import opened ConfigRepository

  datatype ServerView = ServerView(name: string, host: string, port: string, ssl: bool)

  datatype CronView = CronView(name: string, server: string, crontab: string, args: Option<string>, target: Option<ExecutionTarget>)

  datatype ListenerView = ListenerView(
    name: string,
    listenServer: string,
    listenWorker: string,
    processServer: string,
    args: Option<string>,
    target: Option<ExecutionTarget>)

  /** The rebuilt target, an empty `using` read as absent. */
  function NormalTarget(columns: TargetColumns): Option<ExecutionTarget> {
    match RebuildTarget(columns)
    case Some(Worker(name, using)) => Some(Worker(name, NonEmpty(using)))
    case Some(Workflow(url, channel)) => Some(Workflow(url, channel))
    case None => None
  }

  function ServerViewOf(row: Named<ServerFields>): ServerView {
    ServerView(row.name, row.fields.host, row.fields.port, row.fields.sslEnabled)
  }

  /** A scheduler as its name, its server's name and what it runs; ids do not appear. */
  function CronViewOf(servers: Rows<ServerFields>, row: CronRow): CronView
    requires row.fields.serverId in servers
  {
    CronView(row.name, servers[row.fields.serverId].name, row.fields.crontab, row.fields.args, NormalTarget(row.fields.columns))
  }

  function ListenerViewOf(servers: Rows<ServerFields>, row: ListenerRow): ListenerView
    requires row.fields.listenServerId in servers && row.fields.processServerId in servers
  {
    ListenerView(row.name, servers[row.fields.listenServerId].name, row.fields.listenWorkerName,
                 servers[row.fields.processServerId].name, row.fields.args, NormalTarget(row.fields.columns))
  }

  predicate CronIntact(db: Database, id: EntityId) {
    id in db.crons && db.crons[id].fields.serverId in db.servers
  }

  predicate ListenerIntact(db: Database, id: EntityId) {
    id in db.listeners && db.listeners[id].fields.listenServerId in db.servers && db.listeners[id].fields.processServerId in db.servers
  }

  predicate Intact(db: Database) {
    (forall id :: id in db.crons ==> CronIntact(db, id)) && (forall id :: id in db.listeners ==> ListenerIntact(db, id))
  }

  predicate TargetPresent(columns: TargetColumns) {
    HasWorkerName(columns) || columns.workflowUrl != ""
  }

  /** Unique names, intact references, a target on every row, and addresses that are read back. */
  ghost predicate WellKept(parser: UrlParser, db: Database) {
    && Unique(db.servers) && Unique(db.crons) && Unique(db.listeners) && Intact(db)
    && (forall id :: id in db.crons ==> TargetPresent(db.crons[id].fields.columns))
    && (forall id :: id in db.listeners ==> TargetPresent(db.listeners[id].fields.columns))
    && (forall id :: id in db.servers ==> AddressSurvives(parser, db.servers[id].fields))
  }

  /** One of these rows looks like that. */
  ghost predicate ShowsServer(db: Database, ids: set<EntityId>, v: ServerView) {
    exists id :: id in ids && id in db.servers && ServerViewOf(db.servers[id]) == v
  }

  ghost predicate ShowsCron(db: Database, ids: set<EntityId>, v: CronView) {
    exists id :: id in ids && CronIntact(db, id) && CronViewOf(db.servers, db.crons[id]) == v
  }

  ghost predicate ShowsListener(db: Database, ids: set<EntityId>, v: ListenerView) {
    exists id :: id in ids && ListenerIntact(db, id) && ListenerViewOf(db.servers, db.listeners[id]) == v
  }

  /** `after` looks, name by name, as the chosen rows of `before` do. */
  ghost predicate LooksLike(after: Database, before: Database, servers: set<EntityId>, crons: set<EntityId>, listeners: set<EntityId>) {
    && (forall v :: ShowsServer(after, after.servers.Keys, v) <==> ShowsServer(before, servers, v))
    && (forall v :: ShowsCron(after, after.crons.Keys, v) <==> ShowsCron(before, crons, v))
    && (forall v :: ShowsListener(after, after.listeners.Keys, v) <==> ShowsListener(before, listeners, v))
  }

  // ---------------------------------------------------------------- a list inserted into an empty table

  lemma EmptyTableTakesDistinctNames<D>(made: seq<Option<Named<D>>>)
    ensures CanInsertAll(map[], made) <==> AllReady(made) && forall j, k :: 0 <= j < k < |made| ==> made[j].value.name != made[k].value.name
  {
    if AllReady(made) {
      var rows := RowsOf(made);
      assert forall k :: 0 <= k < |made| ==> rows[k].name == made[k].value.name;
    }
  }

  ghost predicate Contains<D>(rows: Rows<D>, made: Option<Named<D>>) {
    exists id :: id in rows && Some(rows[id]) == made
  }

  /** The table then holds exactly the listed rows. */
  lemma InsertedRows<D>(made: seq<Option<Named<D>>>, first: EntityId)
    requires CanInsertAll(map[], made)
    ensures forall id :: id in Appended(map[], RowsOf(made), first) ==> Some(Appended(map[], RowsOf(made), first)[id]) in made
    ensures forall m :: m in made ==> Contains(Appended(map[], RowsOf(made), first), m)
  {
    var after := Appended(map[], RowsOf(made), first);
    forall id | id in after
      ensures Some(after[id]) in made
    {
      assert after[id] == AtOffset(RowsOf(made), first, id);
      assert made[id - first] == Some(after[id]);
    }
    forall m | m in made
      ensures Contains(after, m)
    {
      var k :| 0 <= k < |made| && made[k] == m;
      var id := first + k;
      assert id in after && after[id] == AtOffset(RowsOf(made), first, id);
    }
  }

  // ---------------------------------------------------------------- servers

  function ImportedServer(row: Named<ServerFields>): Named<ServerFields> {
    Named(row.name, ServerFields(row.fields.host, row.fields.port, row.fields.sslEnabled, None, true))
  }

  lemma ServerComesBack(parser: UrlParser, db: Database, id: EntityId)
    requires WellKept(parser, db) && id in db.servers
    ensures ServerRowFrom(parser, SettingOf(db, id)) == Some(ImportedServer(db.servers[id]))
  {
  }

  lemma ServersCanBeImported(parser: UrlParser, db: Database, ids: seq<EntityId>, chosen: set<EntityId>)
    requires WellKept(parser, db) && Enumerates(ids, chosen) && chosen <= db.servers.Keys
    ensures CanInsertAll(map[], ServerRows(parser, SettingsOf(db, ids)))
    ensures forall k :: 0 <= k < |ids| ==> ServerRows(parser, SettingsOf(db, ids))[k] == Some(ImportedServer(db.servers[ids[k]]))
  {
  }

  /** The new table holds exactly the copies of the exported servers. */
  lemma ServersAfterImport(parser: UrlParser, db: Database, ids: seq<EntityId>, chosen: set<EntityId>, first: EntityId)
    requires WellKept(parser, db) && Enumerates(ids, chosen) && chosen <= db.servers.Keys
    requires CanInsertAll(map[], ServerRows(parser, SettingsOf(db, ids)))
    ensures var after := ServersAfter(parser, map[], SettingsOf(db, ids), first);
            && (forall id :: id in after ==> exists was :: was in chosen && after[id] == ImportedServer(db.servers[was]))
            && (forall was :: was in chosen ==> Contains(after, Some(ImportedServer(db.servers[was]))))
  {
    var made := ServerRows(parser, SettingsOf(db, ids));
    var after := ServersAfter(parser, map[], SettingsOf(db, ids), first);
    ServersCanBeImported(parser, db, ids, chosen);
    InsertedRows(made, first);
    forall id | id in after
      ensures exists was :: was in chosen && after[id] == ImportedServer(db.servers[was])
    {
      var k :| 0 <= k < |made| && made[k] == Some(after[id]);
      assert ids[k] in chosen;
    }
    forall was | was in chosen
      ensures Contains(after, Some(ImportedServer(db.servers[was])))
    {
      var k :| 0 <= k < |ids| && ids[k] == was;
      assert made[k] in made;
    }
  }

  /** The name map after the import knows exactly the exported servers. */
  lemma NamesAfter(parser: UrlParser, db: Database, ids: seq<EntityId>, chosen: set<EntityId>, first: EntityId, id: EntityId)
    requires WellKept(parser, db) && Enumerates(ids, chosen) && chosen <= db.servers.Keys && id in db.servers
    requires CanInsertAll(map[], ServerRows(parser, SettingsOf(db, ids)))
    requires Unique(ServersAfter(parser, map[], SettingsOf(db, ids), first))
    ensures db.servers[id].name in NameMap(ServersAfter(parser, map[], SettingsOf(db, ids), first)) <==> id in chosen
  {
    var after := ServersAfter(parser, map[], SettingsOf(db, ids), first);
    ServersAfterImport(parser, db, ids, chosen, first);
    if id in chosen {
      var newId :| newId in after && Some(after[newId]) == Some(ImportedServer(db.servers[id]));
      assert after[newId].name in NameMap(after);
    }
    if db.servers[id].name in NameMap(after) {
      var newId := NameMap(after)[db.servers[id].name];
      var was :| was in chosen && after[newId] == ImportedServer(db.servers[was]);
      assert was == id;
    }
  }

  lemma ServerViewsSurvive(parser: UrlParser, db: Database, ids: seq<EntityId>, chosen: set<EntityId>, first: EntityId, after: Database)
    requires WellKept(parser, db) && Enumerates(ids, chosen) && chosen <= db.servers.Keys
    requires CanInsertAll(map[], ServerRows(parser, SettingsOf(db, ids)))
    requires after.servers == ServersAfter(parser, map[], SettingsOf(db, ids), first)
    ensures forall v :: ShowsServer(after, after.servers.Keys, v) <==> ShowsServer(db, chosen, v)
  {
    ServersAfterImport(parser, db, ids, chosen, first);
    forall id | id in after.servers
      ensures ShowsServer(db, chosen, ServerViewOf(after.servers[id]))
    {
      var was :| was in chosen && after.servers[id] == ImportedServer(db.servers[was]);
      assert ServerViewOf(db.servers[was]) == ServerViewOf(after.servers[id]);
    }
    forall was | was in chosen
      ensures ShowsServer(after, after.servers.Keys, ServerViewOf(db.servers[was]))
    {
      var id :| id in after.servers && Some(after.servers[id]) == Some(ImportedServer(db.servers[was]));
      assert id in after.servers.Keys && ServerViewOf(after.servers[id]) == ServerViewOf(db.servers[was]);
    }
  }

  // ---------------------------------------------------------------- schedulers

  /** The map leads to servers of that name. */
  predicate MapFits(serverMap: ServerMap, servers: Rows<ServerFields>) {
    forall name :: name in serverMap ==> serverMap[name] in servers && servers[serverMap[name]].name == name
  }

  predicate CronsChosen(db: Database, chosen: set<EntityId>) {
    forall id :: id in chosen ==> CronSelected(db, false, id)
  }

  lemma CronsCanBeImportedIff(db: Database, ids: seq<EntityId>, chosen: set<EntityId>, serverMap: ServerMap)
    requires Unique(db.crons) && CronsChosen(db, chosen) && Enumerates(ids, chosen)
    ensures CanInsertAll(map[], CronRows(serverMap, CronItems(db, ids))) <==>
            forall id :: id in chosen ==> CronItem(db, id).jobworkerp in serverMap
  {
    var made := CronRows(serverMap, CronItems(db, ids));
    assert forall i :: 0 <= i < |ids| ==> made[i] == CronRowFrom(serverMap, CronItem(db, ids[i]));
    EmptyTableTakesDistinctNames(made);
    if AllReady(made) {
      forall id | id in chosen
        ensures CronItem(db, id).jobworkerp in serverMap
      {
        var k :| 0 <= k < |ids| && ids[k] == id;
        assert made[k].Some?;
      }
    }
  }

  /** The table holds exactly what the chosen schedulers become. */
  ghost predicate CronCopies(db: Database, chosen: set<EntityId>, serverMap: ServerMap, rows: Rows<CronColumns>)
    requires CronsChosen(db, chosen)
  {
    && (forall id :: id in rows ==> exists was :: was in chosen && Some(rows[id]) == CronRowFrom(serverMap, CronItem(db, was)))
    && (forall was :: was in chosen ==> Contains(rows, CronRowFrom(serverMap, CronItem(db, was))))
  }

  lemma CronsAfterImport(db: Database, ids: seq<EntityId>, chosen: set<EntityId>, serverMap: ServerMap, first: EntityId)
    requires CronsChosen(db, chosen) && Enumerates(ids, chosen)
    requires CanInsertAll(map[], CronRows(serverMap, CronItems(db, ids)))
    ensures CronCopies(db, chosen, serverMap, CronsAfter(map[], serverMap, CronItems(db, ids), first))
  {
    var made := CronRows(serverMap, CronItems(db, ids));
    var after := CronsAfter(map[], serverMap, CronItems(db, ids), first);
    InsertedRows(made, first);
    forall id | id in after
      ensures exists was :: was in chosen && Some(after[id]) == CronRowFrom(serverMap, CronItem(db, was))
    {
      var k :| 0 <= k < |made| && made[k] == Some(after[id]);
      assert ids[k] in chosen;
    }
    forall was | was in chosen
      ensures Contains(after, CronRowFrom(serverMap, CronItem(db, was)))
    {
      var k :| 0 <= k < |ids| && ids[k] == was;
      assert made[k] in made;
    }
  }

  predicate CronsReady(db: Database, chosen: set<EntityId>, serverMap: ServerMap) {
    forall id :: id in chosen ==>
      CronSelected(db, false, id) && TargetPresent(db.crons[id].fields.columns) && CronItem(db, id).jobworkerp in serverMap
  }

  lemma CronArrives(db: Database, chosen: set<EntityId>, serverMap: ServerMap, after: Database, was: EntityId)
    requires CronsChosen(db, chosen) && CronsReady(db, chosen, serverMap) && MapFits(serverMap, after.servers)
    requires CronCopies(db, chosen, serverMap, after.crons) && was in chosen
    ensures ShowsCron(after, after.crons.Keys, CronViewOf(db.servers, db.crons[was]))
  {
  }

  lemma CronCameFrom(db: Database, chosen: set<EntityId>, serverMap: ServerMap, after: Database, id: EntityId)
    requires CronsChosen(db, chosen) && CronsReady(db, chosen, serverMap) && MapFits(serverMap, after.servers)
    requires CronCopies(db, chosen, serverMap, after.crons) && id in after.crons
    ensures CronIntact(after, id) && ShowsCron(db, chosen, CronViewOf(after.servers, after.crons[id]))
  {
  }

  lemma CronViewsSurvive(db: Database, ids: seq<EntityId>, chosen: set<EntityId>, serverMap: ServerMap, first: EntityId, after: Database)
    requires Unique(db.crons) && CronsChosen(db, chosen) && Enumerates(ids, chosen) && MapFits(serverMap, after.servers)
    requires forall id :: id in db.crons ==> TargetPresent(db.crons[id].fields.columns)
    requires CanInsertAll(map[], CronRows(serverMap, CronItems(db, ids)))
    requires after.crons == CronsAfter(map[], serverMap, CronItems(db, ids), first)
    ensures forall id :: id in after.crons ==> CronIntact(after, id)
    ensures forall v :: ShowsCron(after, after.crons.Keys, v) <==> ShowsCron(db, chosen, v)
  {
    CronsCanBeImportedIff(db, ids, chosen, serverMap);
    CronsAfterImport(db, ids, chosen, serverMap, first);
    assert CronsReady(db, chosen, serverMap);
    forall id | id in after.crons
      ensures CronIntact(after, id) && ShowsCron(db, chosen, CronViewOf(after.servers, after.crons[id]))
    {
      CronCameFrom(db, chosen, serverMap, after, id);
    }
    forall was | was in chosen
      ensures ShowsCron(after, after.crons.Keys, CronViewOf(db.servers, db.crons[was]))
    {
      CronArrives(db, chosen, serverMap, after, was);
    }
  }

  // ---------------------------------------------------------------- listeners

  predicate ListenersChosen(db: Database, chosen: set<EntityId>) {
    forall id :: id in chosen ==> ListenerSelected(db, false, id)
  }

  predicate BothServersKnown(db: Database, id: EntityId, serverMap: ServerMap)
    requires ListenerSelected(db, false, id)
  {
    ListenerItem(db, id).jobworkerp in serverMap && ListenerItem(db, id).listenJobworkerp.value in serverMap
  }

  lemma ListenersCanBeImportedIff(db: Database, ids: seq<EntityId>, chosen: set<EntityId>, serverMap: ServerMap)
    requires Unique(db.listeners) && ListenersChosen(db, chosen) && Enumerates(ids, chosen)
    ensures CanInsertAll(map[], ListenerRows(serverMap, ListenerItems(db, ids))) <==>
            forall id :: id in chosen ==> BothServersKnown(db, id, serverMap)
  {
    var made := ListenerRows(serverMap, ListenerItems(db, ids));
    assert forall i :: 0 <= i < |ids| ==> made[i] == ListenerRowFrom(serverMap, ListenerItem(db, ids[i]));
    EmptyTableTakesDistinctNames(made);
    if AllReady(made) {
      forall id | id in chosen
        ensures BothServersKnown(db, id, serverMap)
      {
        var k :| 0 <= k < |ids| && ids[k] == id;
        assert made[k].Some?;
      }
    }
  }

  /** The table holds exactly what the chosen listeners become. */
  ghost predicate ListenerCopies(db: Database, chosen: set<EntityId>, serverMap: ServerMap, rows: Rows<ListenerColumns>)
    requires ListenersChosen(db, chosen)
  {
    && (forall id :: id in rows ==> exists was :: was in chosen && Some(rows[id]) == ListenerRowFrom(serverMap, ListenerItem(db, was)))
    && (forall was :: was in chosen ==> Contains(rows, ListenerRowFrom(serverMap, ListenerItem(db, was))))
  }

  lemma ListenersAfterImport(db: Database, ids: seq<EntityId>, chosen: set<EntityId>, serverMap: ServerMap, first: EntityId)
    requires ListenersChosen(db, chosen) && Enumerates(ids, chosen)
    requires CanInsertAll(map[], ListenerRows(serverMap, ListenerItems(db, ids)))
    ensures ListenerCopies(db, chosen, serverMap, ListenersAfter(map[], serverMap, ListenerItems(db, ids), first))
  {
    var made := ListenerRows(serverMap, ListenerItems(db, ids));
    var after := ListenersAfter(map[], serverMap, ListenerItems(db, ids), first);
    InsertedRows(made, first);
    forall id | id in after
      ensures exists was :: was in chosen && Some(after[id]) == ListenerRowFrom(serverMap, ListenerItem(db, was))
    {
      var k :| 0 <= k < |made| && made[k] == Some(after[id]);
      assert ids[k] in chosen;
    }
    forall was | was in chosen
      ensures Contains(after, ListenerRowFrom(serverMap, ListenerItem(db, was)))
    {
      var k :| 0 <= k < |ids| && ids[k] == was;
      assert made[k] in made;
    }
  }

  predicate ListenersReady(db: Database, chosen: set<EntityId>, serverMap: ServerMap) {
    forall id :: id in chosen ==>
      ListenerSelected(db, false, id) && TargetPresent(db.listeners[id].fields.columns) && BothServersKnown(db, id, serverMap)
  }

  lemma ListenerArrives(db: Database, chosen: set<EntityId>, serverMap: ServerMap, after: Database, was: EntityId)
    requires ListenersChosen(db, chosen) && ListenersReady(db, chosen, serverMap) && MapFits(serverMap, after.servers)
    requires ListenerCopies(db, chosen, serverMap, after.listeners) && was in chosen
    ensures ShowsListener(after, after.listeners.Keys, ListenerViewOf(db.servers, db.listeners[was]))
  {
  }

  lemma ListenerCameFrom(db: Database, chosen: set<EntityId>, serverMap: ServerMap, after: Database, id: EntityId)
    requires ListenersChosen(db, chosen) && ListenersReady(db, chosen, serverMap) && MapFits(serverMap, after.servers)
    requires ListenerCopies(db, chosen, serverMap, after.listeners) && id in after.listeners
    ensures ListenerIntact(after, id) && ShowsListener(db, chosen, ListenerViewOf(after.servers, after.listeners[id]))
  {
  }

  lemma ListenerViewsSurvive(db: Database, ids: seq<EntityId>, chosen: set<EntityId>, serverMap: ServerMap, first: EntityId, after: Database)
    requires Unique(db.listeners) && ListenersChosen(db, chosen) && Enumerates(ids, chosen) && MapFits(serverMap, after.servers)
    requires forall id :: id in db.listeners ==> TargetPresent(db.listeners[id].fields.columns)
    requires CanInsertAll(map[], ListenerRows(serverMap, ListenerItems(db, ids)))
    requires after.listeners == ListenersAfter(map[], serverMap, ListenerItems(db, ids), first)
    ensures forall id :: id in after.listeners ==> ListenerIntact(after, id)
    ensures forall v :: ShowsListener(after, after.listeners.Keys, v) <==> ShowsListener(db, chosen, v)
  {
    ListenersCanBeImportedIff(db, ids, chosen, serverMap);
    ListenersAfterImport(db, ids, chosen, serverMap, first);
    assert ListenersReady(db, chosen, serverMap);
    forall id | id in after.listeners
      ensures ListenerIntact(after, id) && ShowsListener(db, chosen, ListenerViewOf(after.servers, after.listeners[id]))
    {
      ListenerCameFrom(db, chosen, serverMap, after, id);
    }
    forall was | was in chosen
      ensures ShowsListener(after, after.listeners.Keys, ListenerViewOf(db.servers, db.listeners[was]))
    {
      ListenerArrives(db, chosen, serverMap, after, was);
    }
  }

  // ---------------------------------------------------------------- the file as a whole

  /** What an administrator can check before exporting: some server is exported, and nothing exported refers to one that is not. */
  predicate Reimportable(db: Database, enabledOnly: bool) {
    && ServerChoice(db, enabledOnly) != {}
    && (forall id :: id in CronChoice(db, enabledOnly) ==> ServerSelected(db, enabledOnly, db.crons[id].fields.serverId))
    && (forall id :: id in ListenerChoice(db, enabledOnly) ==>
          && ServerSelected(db, enabledOnly, db.listeners[id].fields.listenServerId)
          && ServerSelected(db, enabledOnly, db.listeners[id].fields.processServerId))
  }

  function ServerIds(db: Database, order: RowOrder, enabledOnly: bool): seq<EntityId> {
    Picked(order.servers, ServerChoice(db, enabledOnly))
  }

  function CronIds(db: Database, order: RowOrder, enabledOnly: bool): seq<EntityId> {
    Picked(order.crons, CronChoice(db, enabledOnly))
  }

  function ListenerIds(db: Database, order: RowOrder, enabledOnly: bool): seq<EntityId> {
    Picked(order.listeners, ListenerChoice(db, enabledOnly))
  }

  lemma ExportEnumerates(db: Database, order: RowOrder, enabledOnly: bool)
    requires OrdersRows(order, db)
    ensures Enumerates(ServerIds(db, order, enabledOnly), ServerChoice(db, enabledOnly))
    ensures Enumerates(CronIds(db, order, enabledOnly), CronChoice(db, enabledOnly))
    ensures Enumerates(ListenerIds(db, order, enabledOnly), ListenerChoice(db, enabledOnly))
  {
    PickedEnumerates(order.servers, ServerChoice(db, enabledOnly), db.servers.Keys);
    PickedEnumerates(order.crons, CronChoice(db, enabledOnly), db.crons.Keys);
    PickedEnumerates(order.listeners, ListenerChoice(db, enabledOnly), db.listeners.Keys);
  }

  lemma ExportParts(db: Database, order: RowOrder, enabledOnly: bool)
    requires OrdersRows(order, db)
    ensures CronsChosen(db, CronChoice(db, enabledOnly)) && ListenersChosen(db, ListenerChoice(db, enabledOnly))
    ensures Exported(db, order, enabledOnly).servers == SettingsOf(db, ServerIds(db, order, enabledOnly))
    ensures Items(Exported(db, order, enabledOnly).schedulers) == CronItems(db, CronIds(db, order, enabledOnly))
    ensures Items(Exported(db, order, enabledOnly).listeners) == ListenerItems(db, ListenerIds(db, order, enabledOnly))
  {
  }

  lemma ExportedServersAreValid(parser: UrlParser, db: Database, ids: seq<EntityId>, chosen: set<EntityId>)
    requires WellKept(parser, db) && Enumerates(ids, chosen) && chosen <= db.servers.Keys
    ensures forall k :: 0 <= k < |ids| ==> ParseServerAddress(parser, SettingsOf(db, ids)[k].address).Some?
    ensures forall j, k :: 0 <= j < k < |ids| ==> SettingsOf(db, ids)[j].name != SettingsOf(db, ids)[k].name
    ensures ids != [] <==> chosen != {}
  {
    forall k | 0 <= k < |ids|
      ensures ParseServerAddress(parser, SettingsOf(db, ids)[k].address).Some?
    {
      ServerComesBack(parser, db, ids[k]);
    }
    if ids == [] {
      assert forall id :: id in chosen ==> id in ids;
      assert chosen == {};
    } else {
      assert ids[0] in chosen;
    }
  }

  lemma ExportedItemsHaveTargets(parser: UrlParser, db: Database, order: RowOrder, enabledOnly: bool)
    requires WellKept(parser, db) && OrdersRows(order, db)
    ensures var file := Exported(db, order, enabledOnly);
            && (forall k :: 0 <= k < |Items(file.schedulers)| ==> HasTarget(Items(file.schedulers)[k]))
            && (forall k :: 0 <= k < |Items(file.listeners)| ==> HasTarget(Items(file.listeners)[k]))
  {
  }

  lemma ExportIsValidIff(parser: UrlParser, db: Database, order: RowOrder, enabledOnly: bool)
    requires WellKept(parser, db) && OrdersRows(order, db)
    ensures ValidFile(parser, Exported(db, order, enabledOnly)) <==> ServerChoice(db, enabledOnly) != {}
  {
    ExportEnumerates(db, order, enabledOnly);
    ExportedServersAreValid(parser, db, ServerIds(db, order, enabledOnly), ServerChoice(db, enabledOnly));
    ExportedItemsHaveTargets(parser, db, order, enabledOnly);
  }

  lemma ItemsCanBeImportedIff(parser: UrlParser, db: Database, order: RowOrder, enabledOnly: bool, first: EntityId)
    requires WellKept(parser, db) && OrdersRows(order, db) && Sound(Cleared(db), first)
    requires CanInsertAll(map[], ServerRows(parser, Exported(db, order, enabledOnly).servers))
    ensures ServerChoice(db, enabledOnly) != {} ==>
              var file := Exported(db, order, enabledOnly);
              CanInsertItems(Cleared(db), MapAfter(parser, Cleared(db), file, first), file) <==> Reimportable(db, enabledOnly)
  {
    var file := Exported(db, order, enabledOnly);
    var serverMap := MapAfter(parser, Cleared(db), file, first);
    ExportEnumerates(db, order, enabledOnly);
    ExportParts(db, order, enabledOnly);
    ServersStayUnique(parser, map[], file.servers, first);
    forall id | id in db.servers
      ensures db.servers[id].name in serverMap <==> ServerSelected(db, enabledOnly, id)
    {
      NamesAfter(parser, db, ServerIds(db, order, enabledOnly), ServerChoice(db, enabledOnly), first, id);
    }
    CronsCanBeImportedIff(db, CronIds(db, order, enabledOnly), CronChoice(db, enabledOnly), serverMap);
    ListenersCanBeImportedIff(db, ListenerIds(db, order, enabledOnly), ListenerChoice(db, enabledOnly), serverMap);
  }

  /**
   * Importing an export with overwrite succeeds if and only if some server is exported and no
   * exported scheduler or listener refers to a server that is not.
   */
  lemma ReimportSucceedsIff(parser: UrlParser, db: Database, order: RowOrder, enabledOnly: bool, first: EntityId)
    requires WellKept(parser, db) && OrdersRows(order, db) && Sound(Cleared(db), first)
    ensures CanImport(parser, Cleared(db), Exported(db, order, enabledOnly), first) <==> Reimportable(db, enabledOnly)
  {
    ExportIsValidIff(parser, db, order, enabledOnly);
    ExportEnumerates(db, order, enabledOnly);
    ExportParts(db, order, enabledOnly);
    ServersCanBeImported(parser, db, ServerIds(db, order, enabledOnly), ServerChoice(db, enabledOnly));
    ItemsCanBeImportedIff(parser, db, order, enabledOnly, first);
  }

  /** For a full export of a well-kept database that means: if there is any server. */
  lemma FullExportIsReimportable(parser: UrlParser, db: Database)
    requires WellKept(parser, db)
    ensures Reimportable(db, false) <==> db.servers.Keys != {}
  {
  }

  /** What comes back is, name by name, what was exported. */
  lemma ReimportRestores(parser: UrlParser, db: Database, order: RowOrder, enabledOnly: bool, first: EntityId)
    requires WellKept(parser, db) && OrdersRows(order, db) && Sound(Cleared(db), first) && Reimportable(db, enabledOnly)
    ensures CanImport(parser, Cleared(db), Exported(db, order, enabledOnly), first)
    ensures var file := Exported(db, order, enabledOnly);
            var after := Imported(parser, Cleared(db), file, IdsFor(file, first));
            && Intact(after) && after.slacks == db.slacks
            && LooksLike(after, db, ServerChoice(db, enabledOnly), CronChoice(db, enabledOnly), ListenerChoice(db, enabledOnly))
  {
    ReimportSucceedsIff(parser, db, order, enabledOnly, first);
    var file := Exported(db, order, enabledOnly);
    var ids := IdsFor(file, first);
    var after := Imported(parser, Cleared(db), file, ids);
    var serverMap := MapAfter(parser, Cleared(db), file, first);
    ExportEnumerates(db, order, enabledOnly);
    ExportParts(db, order, enabledOnly);
    ServersStayUnique(parser, map[], file.servers, first);
    ServerViewsSurvive(parser, db, ServerIds(db, order, enabledOnly), ServerChoice(db, enabledOnly), first, after);
    CronViewsSurvive(db, CronIds(db, order, enabledOnly), CronChoice(db, enabledOnly), serverMap, ids.crons, after);
    ListenerViewsSurvive(db, ListenerIds(db, order, enabledOnly), ListenerChoice(db, enabledOnly), serverMap, ids.listeners, after);
  }

  /** With intact references a full export selects every row. */
  lemma FullChoice(db: Database)
    requires Intact(db)
    ensures ServerChoice(db, false) == db.servers.Keys
    ensures CronChoice(db, false) == db.crons.Keys
    ensures ListenerChoice(db, false) == db.listeners.Keys
  {
  }

  /** A full export of a well-kept database with a server comes back as the whole configuration it was. */
  lemma FullRoundTrip(parser: UrlParser, db: Database, order: RowOrder, first: EntityId)
    requires WellKept(parser, db) && OrdersRows(order, db) && Sound(Cleared(db), first) && db.servers.Keys != {}
    ensures CanImport(parser, Cleared(db), Exported(db, order, false), first)
    ensures var file := Exported(db, order, false);
            var after := Imported(parser, Cleared(db), file, IdsFor(file, first));
            Intact(after) && LooksLike(after, db, db.servers.Keys, db.crons.Keys, db.listeners.Keys)
  {
    FullExportIsReimportable(parser, db);
    ReimportRestores(parser, db, order, false, first);
    FullChoice(db);
  }

  /** The servers come back under fresh ids, so every Slack handler, which an import leaves as it is, then refers to none of them. */
  lemma SlackHandlersAreLeftDangling(parser: UrlParser, db: Database, file: SettingsFile, first: EntityId, slack: EntityId)
    requires Sound(db, first) && CanImport(parser, Cleared(db), file, first)
    requires slack in db.slacks && db.slacks[slack].fields.serverId in db.servers
    ensures var after := Imported(parser, Cleared(db), file, IdsFor(file, first));
            after.slacks[slack] == db.slacks[slack] && after.slacks[slack].fields.serverId !in after.servers
  {
  }

  /** Exporting and importing the result with overwrite, on one repository. */
  method ExportThenImport(repository: ConfigManagementRepository, order: RowOrder, enabledOnly: bool) returns (ok: bool)
    requires repository.Valid() && WellKept(repository.parser, repository.db) && OrdersRows(order, repository.db)
    modifies repository
    ensures repository.Valid() && (ok <==> Reimportable(old(repository.db), enabledOnly))
    ensures ok ==> var was := old(repository.db);
                   LooksLike(repository.db, was, ServerChoice(was, enabledOnly), CronChoice(was, enabledOnly), ListenerChoice(was, enabledOnly))
    ensures !ok ==> repository.db == old(repository.db)
  {
    ghost var was, first := repository.db, repository.nextId;
    var file := repository.ExportTomlConfig(order, enabledOnly);
    ReimportSucceedsIff(repository.parser, was, order, enabledOnly, first);
    if Reimportable(was, enabledOnly) {
      ReimportRestores(repository.parser, was, order, enabledOnly, first);
    }
    var counts := repository.ImportTomlConfig(file, true);
    ok := counts.Some?;
  }
}
