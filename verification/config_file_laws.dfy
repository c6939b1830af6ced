/** What files, addresses and the rows written from them mean, said without the functions that compute them. */
module ConfigFileLaws {
  import opened Wrappers
  import opened ConfigEntities
  import opened ExecutionTargets
  import opened NamedRows
  import opened ConfigManagement

  // ---------------------------------------------------------------- addresses

  function DigitValue(c: char): int {
    c as int - '0' as int
  }

  /** The number a decimal text denotes. */
  function ValueOf(text: string): int {
    if text == "" then 0 else 10 * ValueOf(text[..|text|-1]) + DigitValue(text[|text|-1])
  }

  /** A port is written as its decimal digits, without leading zeros. */
  lemma {:induction false} DecimalDenotes(n: nat)
    ensures ValueOf(Decimal(n)) == n && Decimal(n) != ""
    ensures forall i :: 0 <= i < |Decimal(n)| ==> '0' <= Decimal(n)[i] <= '9'
    ensures n > 0 ==> Decimal(n)[0] != '0'
  {
    var last := DIGITS[n % 10];
    assert last as int == '0' as int + n % 10;
    if n >= 10 {
      DecimalDenotes(n / 10);
      assert Decimal(n)[..|Decimal(n)|-1] == Decimal(n / 10);
    } else {
      assert Decimal(n) == [last] && [last][..0] == "";
      assert ValueOf("") == 0;
    }
  }

  /** An address is read as its host, its port or else the scheme's own, and whether the scheme is https. */
  lemma AddressIsReadAs(parser: UrlParser, address: string)
    ensures var url, read := parser.parse(address), ParseServerAddress(parser, address);
            && (read.Some? <==> url.Some? && url.value.host.Some?)
            && (read.Some? ==>
                  && read.value.host == url.value.host.value && read.value.ssl == (url.value.scheme == "https")
                  && ValueOf(read.value.port) ==
                       if url.value.port.Some? then url.value.port.value else if url.value.scheme == "https" then 443 else 80)
  {
    var url := parser.parse(address);
    if url.Some? && url.value.host.Some? {
      DecimalDenotes(if url.value.port.Some? then url.value.port.value else DefaultPort(url.value.scheme == "https"));
    }
  }

  // ---------------------------------------------------------------- what an import writes

  function TargetOfItem(item: Item): Option<ExecutionTarget> {
    if item.workerName.Some? && item.workerName.value != "" then
      Some(Worker(item.workerName.value, if item.using == Some("") then None else item.using))
    else if item.workflowUrl != "" then Some(Workflow(item.workflowUrl, item.channel))
    else None
  }

  predicate NamesServer(servers: Rows<ServerFields>, id: EntityId, name: string) {
    id in servers && servers[id].name == name
  }

  predicate ServerAsListed(parser: UrlParser, row: Named<ServerFields>, s: ServerSetting) {
    var f := row.fields;
    && row.name == s.name && ParseServerAddress(parser, s.address) == Some(ServerAddress(f.host, f.port, f.sslEnabled))
    && f.enabled && f.description == None
  }

  predicate CronAsListed(servers: Rows<ServerFields>, row: CronRow, item: Item) {
    var f := row.fields;
    && row.name == item.name && NamesServer(servers, f.serverId, item.jobworkerp) && Some(f.crontab) == item.crontab
    && f.args == item.args && f.enabled && f.description == None
    && TargetOfItem(item).Some? && RebuildTarget(f.columns) == TargetOfItem(item)
  }

  predicate ListenerAsListed(servers: Rows<ServerFields>, row: ListenerRow, item: Item) {
    var f := row.fields;
    && row.name == item.name && NamesServer(servers, f.processServerId, item.jobworkerp)
    && item.listenJobworkerp.Some? && NamesServer(servers, f.listenServerId, item.listenJobworkerp.value)
    && Some(f.listenWorkerName) == item.listenWorkerName && f.args == item.args && f.enabled && f.description == None
    && TargetOfItem(item).Some? && RebuildTarget(f.columns) == TargetOfItem(item)
  }

  /** Every old row is still there. */
  ghost predicate Keeps<D>(before: Rows<D>, after: Rows<D>) {
    forall id :: id in before ==> id in after && after[id] == before[id]
  }

  ghost predicate NewRow<D>(before: Rows<D>, after: Rows<D>, row: Named<D>) {
    exists id :: id in after && id !in before && after[id] == row
  }

  /** The new rows are the given ones, neither more nor fewer. */
  ghost predicate Gains<D>(before: Rows<D>, after: Rows<D>, made: seq<Option<Named<D>>>) {
    && Keeps(before, after)
    && (forall id :: id in after && id !in before ==> Some(after[id]) in made)
    && (forall k :: 0 <= k < |made| ==> made[k].Some? && NewRow(before, after, made[k].value))
  }

  lemma AppendedGains<D>(rows: Rows<D>, made: seq<Option<Named<D>>>, first: EntityId)
    requires Below(rows, first) && AllReady(made)
    ensures Gains(rows, Appended(rows, RowsOf(made), first), made)
  {
    var after := Appended(rows, RowsOf(made), first);
    forall id | id in after && id !in rows
      ensures Some(after[id]) in made
    {
      assert after[id] == AtOffset(RowsOf(made), first, id);
      assert made[id - first] == Some(after[id]);
    }
    forall k | 0 <= k < |made|
      ensures NewRow(rows, after, made[k].value)
    {
      var id := first + k;
      assert id in after && id !in rows && after[id] == AtOffset(RowsOf(made), first, id);
    }
  }

  /** Each listed server, scheduler and listener became one enabled row that says what the file says, and nothing else changed. */
  ghost predicate WroteTheFile(parser: UrlParser, before: Database, after: Database, file: SettingsFile) {
    && Keeps(before.servers, after.servers) && Keeps(before.crons, after.crons) && Keeps(before.listeners, after.listeners)
    && after.slacks == before.slacks
    && WroteServers(parser, before, after, file.servers)
    && WroteCrons(before, after, Items(file.schedulers))
    && WroteListeners(before, after, Items(file.listeners))
  }

  ghost predicate HasServerRow(parser: UrlParser, before: Rows<ServerFields>, after: Rows<ServerFields>, s: ServerSetting) {
    exists id :: id in after && id !in before && ServerAsListed(parser, after[id], s)
  }

  ghost predicate IsListedServer(parser: UrlParser, row: Named<ServerFields>, settings: seq<ServerSetting>) {
    exists k :: 0 <= k < |settings| && ServerAsListed(parser, row, settings[k])
  }

  ghost predicate WroteServers(parser: UrlParser, before: Database, after: Database, settings: seq<ServerSetting>) {
    && (forall k :: 0 <= k < |settings| ==> HasServerRow(parser, before.servers, after.servers, settings[k]))
    && (forall id :: id in after.servers && id !in before.servers ==> IsListedServer(parser, after.servers[id], settings))
  }

  ghost predicate HasCronRow(before: Database, after: Database, item: Item) {
    exists id :: id in after.crons && id !in before.crons && CronAsListed(after.servers, after.crons[id], item)
  }

  ghost predicate IsListedCron(servers: Rows<ServerFields>, row: CronRow, items: seq<Item>) {
    exists k :: 0 <= k < |items| && CronAsListed(servers, row, items[k])
  }

  ghost predicate WroteCrons(before: Database, after: Database, items: seq<Item>) {
    && (forall k :: 0 <= k < |items| ==> HasCronRow(before, after, items[k]))
    && (forall id :: id in after.crons && id !in before.crons ==> IsListedCron(after.servers, after.crons[id], items))
  }

  ghost predicate HasListenerRow(before: Database, after: Database, item: Item) {
    exists id :: id in after.listeners && id !in before.listeners && ListenerAsListed(after.servers, after.listeners[id], item)
  }

  ghost predicate IsListedListener(servers: Rows<ServerFields>, row: ListenerRow, items: seq<Item>) {
    exists k :: 0 <= k < |items| && ListenerAsListed(servers, row, items[k])
  }

  ghost predicate WroteListeners(before: Database, after: Database, items: seq<Item>) {
    && (forall k :: 0 <= k < |items| ==> HasListenerRow(before, after, items[k]))
    && (forall id :: id in after.listeners && id !in before.listeners ==> IsListedListener(after.servers, after.listeners[id], items))
  }

  lemma ServersWritten(parser: UrlParser, before: Database, after: Database, settings: seq<ServerSetting>)
    requires Gains(before.servers, after.servers, ServerRows(parser, settings))
    ensures WroteServers(parser, before, after, settings)
  {
    var made := ServerRows(parser, settings);
    forall k | 0 <= k < |settings|
      ensures HasServerRow(parser, before.servers, after.servers, settings[k])
    {
      assert made[k] == ServerRowFrom(parser, settings[k]);
      var id :| id in after.servers && id !in before.servers && after.servers[id] == made[k].value;
      assert ServerAsListed(parser, after.servers[id], settings[k]);
    }
    forall id | id in after.servers && id !in before.servers
      ensures IsListedServer(parser, after.servers[id], settings)
    {
      var k :| 0 <= k < |made| && made[k] == Some(after.servers[id]);
      assert made[k] == ServerRowFrom(parser, settings[k]);
      assert ServerAsListed(parser, after.servers[id], settings[k]);
    }
  }

  ghost predicate MapLeadsTo(serverMap: ServerMap, servers: Rows<ServerFields>) {
    forall name :: name in serverMap ==> NamesServer(servers, serverMap[name], name)
  }

  lemma CronRowAsListed(serverMap: ServerMap, servers: Rows<ServerFields>, item: Item)
    requires MapLeadsTo(serverMap, servers) && HasTarget(item) && CronRowFrom(serverMap, item).Some?
    ensures CronAsListed(servers, CronRowFrom(serverMap, item).value, item)
  {
  }

  lemma ListenerRowAsListed(serverMap: ServerMap, servers: Rows<ServerFields>, item: Item)
    requires MapLeadsTo(serverMap, servers) && HasTarget(item) && ListenerRowFrom(serverMap, item).Some?
    ensures ListenerAsListed(servers, ListenerRowFrom(serverMap, item).value, item)
  {
  }

  lemma CronsWritten(before: Database, after: Database, serverMap: ServerMap, items: seq<Item>)
    requires Gains(before.crons, after.crons, CronRows(serverMap, items)) && MapLeadsTo(serverMap, after.servers)
    requires forall k :: 0 <= k < |items| ==> HasTarget(items[k])
    ensures WroteCrons(before, after, items)
  {
    var made := CronRows(serverMap, items);
    forall k | 0 <= k < |items|
      ensures HasCronRow(before, after, items[k])
    {
      assert made[k] == CronRowFrom(serverMap, items[k]);
      CronRowAsListed(serverMap, after.servers, items[k]);
      var id :| id in after.crons && id !in before.crons && after.crons[id] == made[k].value;
      assert CronAsListed(after.servers, after.crons[id], items[k]);
    }
    forall id | id in after.crons && id !in before.crons
      ensures IsListedCron(after.servers, after.crons[id], items)
    {
      var k :| 0 <= k < |made| && made[k] == Some(after.crons[id]);
      assert made[k] == CronRowFrom(serverMap, items[k]);
      CronRowAsListed(serverMap, after.servers, items[k]);
      assert CronAsListed(after.servers, after.crons[id], items[k]);
    }
  }

  lemma ListenersWritten(before: Database, after: Database, serverMap: ServerMap, items: seq<Item>)
    requires Gains(before.listeners, after.listeners, ListenerRows(serverMap, items)) && MapLeadsTo(serverMap, after.servers)
    requires forall k :: 0 <= k < |items| ==> HasTarget(items[k])
    ensures WroteListeners(before, after, items)
  {
    var made := ListenerRows(serverMap, items);
    forall k | 0 <= k < |items|
      ensures HasListenerRow(before, after, items[k])
    {
      assert made[k] == ListenerRowFrom(serverMap, items[k]);
      ListenerRowAsListed(serverMap, after.servers, items[k]);
      var id :| id in after.listeners && id !in before.listeners && after.listeners[id] == made[k].value;
      assert ListenerAsListed(after.servers, after.listeners[id], items[k]);
    }
    forall id | id in after.listeners && id !in before.listeners
      ensures IsListedListener(after.servers, after.listeners[id], items)
    {
      var k :| 0 <= k < |made| && made[k] == Some(after.listeners[id]);
      assert made[k] == ListenerRowFrom(serverMap, items[k]);
      ListenerRowAsListed(serverMap, after.servers, items[k]);
      assert ListenerAsListed(after.servers, after.listeners[id], items[k]);
    }
  }

  lemma ImportWritesTheFile(parser: UrlParser, before: Database, file: SettingsFile, ids: FreshIds)
    requires Sound(before, ids.servers) && CanImport(parser, before, file, ids.servers) && ids == IdsFor(file, ids.servers)
    ensures WroteTheFile(parser, before, Imported(parser, before, file, ids), file)
  {
    var after := Imported(parser, before, file, ids);
    var serverMap := MapAfter(parser, before, file, ids.servers);
    ServersStayUnique(parser, before.servers, file.servers, ids.servers);
    assert MapLeadsTo(serverMap, after.servers);
    AppendedGains(before.servers, ServerRows(parser, file.servers), ids.servers);
    AppendedGains(before.crons, CronRows(serverMap, Items(file.schedulers)), ids.crons);
    AppendedGains(before.listeners, ListenerRows(serverMap, Items(file.listeners)), ids.listeners);
    ServersWritten(parser, before, after, file.servers);
    CronsWritten(before, after, serverMap, Items(file.schedulers));
    ListenersWritten(before, after, serverMap, Items(file.listeners));
  }

  // ---------------------------------------------------------------- which files are accepted

  /** A file needs a server, distinct server names, addresses with a host, and a worker or a workflow on every item. */
  lemma FileIsAcceptedIff(parser: UrlParser, file: SettingsFile)
    ensures ValidFile(parser, file) <==>
            && |file.servers| > 0
            && (forall j, k :: 0 <= j < k < |file.servers| ==> file.servers[j].name != file.servers[k].name)
            && (forall k :: 0 <= k < |file.servers| ==>
                  var url := parser.parse(file.servers[k].address); url.Some? && url.value.host.Some?)
            && (forall item :: item in Items(file.schedulers) + Items(file.listeners) ==>
                  item.workflowUrl != "" || (item.workerName.Some? && item.workerName.value != ""))
  {
    assert forall k :: 0 <= k < |Items(file.schedulers)| ==> Items(file.schedulers)[k] in Items(file.schedulers) + Items(file.listeners);
    assert forall k :: 0 <= k < |Items(file.listeners)| ==> Items(file.listeners)[k] in Items(file.schedulers) + Items(file.listeners);
  }

  predicate NameFree<D>(rows: Rows<D>, name: string) {
    forall id :: id in rows ==> rows[id].name != name
  }

  predicate DistinctItems(items: seq<Item>) {
    forall j, k :: 0 <= j < k < |items| ==> items[j].name != items[k].name
  }

  /** A server of this name is stored already or comes with the file. */
  predicate Known(servers: Rows<ServerFields>, settings: seq<ServerSetting>, name: string) {
    (exists id :: id in servers && servers[id].name == name) || (exists k :: 0 <= k < |settings| && settings[k].name == name)
  }

  predicate CronFits(db: Database, settings: seq<ServerSetting>, item: Item) {
    NameFree(db.crons, item.name) && item.crontab.Some? && Known(db.servers, settings, item.jobworkerp)
  }

  predicate ListenerFits(db: Database, settings: seq<ServerSetting>, item: Item) {
    && NameFree(db.listeners, item.name) && item.listenWorkerName.Some? && item.listenJobworkerp.Some?
    && Known(db.servers, settings, item.jobworkerp) && Known(db.servers, settings, item.listenJobworkerp.value)
  }

  predicate FileFits(db: Database, file: SettingsFile) {
    var crons, listeners := Items(file.schedulers), Items(file.listeners);
    && (forall k :: 0 <= k < |file.servers| ==> NameFree(db.servers, file.servers[k].name))
    && DistinctItems(crons) && (forall k :: 0 <= k < |crons| ==> CronFits(db, file.servers, crons[k]))
    && DistinctItems(listeners) && (forall k :: 0 <= k < |listeners| ==> ListenerFits(db, file.servers, listeners[k]))
  }

  /** An accepted file is imported exactly if its names are free and each item names known servers and has its crontab or listened worker. */
  lemma ImportSucceedsIff(parser: UrlParser, db: Database, file: SettingsFile, first: EntityId)
    requires Sound(db, first) && ValidFile(parser, file)
    ensures CanImport(parser, db, file, first) <==> FileFits(db, file)
  {
    ServersFitIff(parser, db, file);
    if CanInsertAll(db.servers, ServerRows(parser, file.servers)) {
      var serverMap := MapAfter(parser, db, file, first);
      forall name: string
        ensures name in serverMap <==> Known(db.servers, file.servers, name)
      {
        KnownIsMapped(parser, db, file, first, name);
      }
      CronsFitIff(db, serverMap, file.servers, Items(file.schedulers));
      ListenersFitIff(db, serverMap, file.servers, Items(file.listeners));
    }
  }

  lemma ServersFitIff(parser: UrlParser, db: Database, file: SettingsFile)
    requires ValidFile(parser, file)
    ensures CanInsertAll(db.servers, ServerRows(parser, file.servers)) <==>
            forall k :: 0 <= k < |file.servers| ==> NameFree(db.servers, file.servers[k].name)
  {
    var made := ServerRows(parser, file.servers);
    assert AllReady(made);
    assert forall k :: 0 <= k < |made| ==> RowsOf(made)[k].name == file.servers[k].name;
  }

  ghost predicate HasName<D>(more: seq<Named<D>>, name: string) {
    exists k :: 0 <= k < |more| && more[k].name == name
  }

  lemma NamesAppended<D>(rows: Rows<D>, more: seq<Named<D>>, base: EntityId, name: string)
    requires Below(rows, base)
    ensures Taken(Appended(rows, more, base), name) <==> Taken(rows, name) || HasName(more, name)
  {
    var after := Appended(rows, more, base);
    if Taken(rows, name) {
      var id :| id in rows && rows[id].name == name;
      assert id in after && after[id].name == name;
    } else if HasName(more, name) {
      var k :| 0 <= k < |more| && more[k].name == name;
      var id := base + k;
      assert id in after && after[id].name == name;
    }
  }

  lemma KnownIsMapped(parser: UrlParser, db: Database, file: SettingsFile, first: EntityId, name: string)
    requires Sound(db, first) && CanInsertAll(db.servers, ServerRows(parser, file.servers))
    ensures name in MapAfter(parser, db, file, first) <==> Known(db.servers, file.servers, name)
  {
    var rows := RowsOf(ServerRows(parser, file.servers));
    assert forall k :: 0 <= k < |rows| ==> rows[k].name == file.servers[k].name;
    assert HasName(rows, name) <==> exists k :: 0 <= k < |file.servers| && file.servers[k].name == name;
    NamesAppended(db.servers, rows, first, name);
    MappedExactly(parser, db, file, first, name);
  }

  lemma MappedExactly(parser: UrlParser, db: Database, file: SettingsFile, first: EntityId, name: string)
    requires Sound(db, first) && CanInsertAll(db.servers, ServerRows(parser, file.servers))
    ensures name in MapAfter(parser, db, file, first) <==> Taken(ServersAfter(parser, db.servers, file.servers, first), name)
  {
    var servers := ServersAfter(parser, db.servers, file.servers, first);
    ServersStayUnique(parser, db.servers, file.servers, first);
    assert MapAfter(parser, db, file, first) == NameMap(servers);
    NamesMapped(servers, name);
  }

  lemma NamesMapped(servers: Rows<ServerFields>, name: string)
    requires Unique(servers)
    ensures name in NameMap(servers) <==> Taken(servers, name)
  {
  }

  lemma CronsFitIff(db: Database, serverMap: ServerMap, settings: seq<ServerSetting>, items: seq<Item>)
    requires forall name :: name in serverMap <==> Known(db.servers, settings, name)
    ensures CanInsertAll(db.crons, CronRows(serverMap, items)) <==>
            DistinctItems(items) && forall k :: 0 <= k < |items| ==> CronFits(db, settings, items[k])
  {
    var made := CronRows(serverMap, items);
    assert forall k :: 0 <= k < |items| ==> made[k] == CronRowFrom(serverMap, items[k]);
    if AllReady(made) {
      assert forall k :: 0 <= k < |items| ==> RowsOf(made)[k].name == items[k].name;
    }
  }

  lemma ListenersFitIff(db: Database, serverMap: ServerMap, settings: seq<ServerSetting>, items: seq<Item>)
    requires forall name :: name in serverMap <==> Known(db.servers, settings, name)
    ensures CanInsertAll(db.listeners, ListenerRows(serverMap, items)) <==>
            DistinctItems(items) && forall k :: 0 <= k < |items| ==> ListenerFits(db, settings, items[k])
  {
    var made := ListenerRows(serverMap, items);
    assert forall k :: 0 <= k < |items| ==> made[k] == ListenerRowFrom(serverMap, items[k]);
    if AllReady(made) {
      assert forall k :: 0 <= k < |items| ==> RowsOf(made)[k].name == items[k].name;
    }
  }

  // ---------------------------------------------------------------- what an export lists

  /** The setting names a stored server, enabled if only those are wanted, and its scheme, host and port. */
  predicate SettingSays(db: Database, enabledOnly: bool, id: EntityId, s: ServerSetting) {
    && id in db.servers && s.name == db.servers[id].name
    && var f := db.servers[id].fields;
       && s.address == (if f.sslEnabled then "https" else "http") + "://" + f.host + ":" + f.port
       && (enabledOnly ==> f.enabled)
  }

  predicate CronItemSays(db: Database, enabledOnly: bool, id: EntityId, item: Item) {
    && id in db.crons
    && var row := db.crons[id];
       && NamesServer(db.servers, row.fields.serverId, item.jobworkerp) && (enabledOnly ==> row.fields.enabled)
       && item == Item(row.name, item.jobworkerp, row.fields.columns.workflowUrl, row.fields.columns.channel, None, None,
                       Some(row.fields.crontab), row.fields.args, row.fields.columns.workerName, row.fields.columns.using)
  }

  predicate ListenerItemSays(db: Database, enabledOnly: bool, id: EntityId, item: Item) {
    && id in db.listeners
    && var row := db.listeners[id];
       && NamesServer(db.servers, row.fields.processServerId, item.jobworkerp) && (enabledOnly ==> row.fields.enabled)
       && item.listenJobworkerp.Some? && NamesServer(db.servers, row.fields.listenServerId, item.listenJobworkerp.value)
       && item == Item(row.name, item.jobworkerp, row.fields.columns.workflowUrl, row.fields.columns.channel,
                       Some(row.fields.listenWorkerName), item.listenJobworkerp, None, row.fields.args,
                       row.fields.columns.workerName, row.fields.columns.using)
  }

  /** An export lists exactly the stored servers, or the enabled ones. */
  lemma ServersExported(db: Database, order: RowOrder, enabledOnly: bool)
    requires OrdersRows(order, db)
    ensures var file := Exported(db, order, enabledOnly);
            && (forall s :: s in file.servers ==> exists id :: SettingSays(db, enabledOnly, id, s))
            && (forall id :: id in db.servers && (enabledOnly ==> db.servers[id].fields.enabled) ==>
                  exists s :: s in file.servers && SettingSays(db, enabledOnly, id, s))
  {
    var ids := Picked(order.servers, ServerChoice(db, enabledOnly));
    var settings := Exported(db, order, enabledOnly).servers;
    forall s | s in settings
      ensures exists id :: SettingSays(db, enabledOnly, id, s)
    {
      var k :| 0 <= k < |settings| && settings[k] == s;
      assert SettingSays(db, enabledOnly, ids[k], s);
    }
    forall id | id in db.servers && (enabledOnly ==> db.servers[id].fields.enabled)
      ensures exists s :: s in settings && SettingSays(db, enabledOnly, id, s)
    {
      assert id in ids;
      var k :| 0 <= k < |ids| && ids[k] == id;
      assert SettingSays(db, enabledOnly, id, settings[k]);
    }
  }

  /** And exactly the schedulers, or the enabled ones, whose server is stored. */
  lemma CronsExported(db: Database, order: RowOrder, enabledOnly: bool)
    requires OrdersRows(order, db)
    ensures var items := Items(Exported(db, order, enabledOnly).schedulers);
            && (forall item :: item in items ==> exists id :: CronItemSays(db, enabledOnly, id, item))
            && (forall id :: id in db.crons && db.crons[id].fields.serverId in db.servers && (enabledOnly ==> db.crons[id].fields.enabled) ==>
                  exists item :: item in items && CronItemSays(db, enabledOnly, id, item))
  {
    var ids := Picked(order.crons, CronChoice(db, enabledOnly));
    var items := Items(Exported(db, order, enabledOnly).schedulers);
    assert items == CronItems(db, ids);
    forall item | item in items
      ensures exists id :: CronItemSays(db, enabledOnly, id, item)
    {
      var k :| 0 <= k < |items| && items[k] == item;
      assert CronItemSays(db, enabledOnly, ids[k], item);
    }
    forall id | id in db.crons && db.crons[id].fields.serverId in db.servers && (enabledOnly ==> db.crons[id].fields.enabled)
      ensures exists item :: item in items && CronItemSays(db, enabledOnly, id, item)
    {
      assert id in ids;
      var k :| 0 <= k < |ids| && ids[k] == id;
      assert CronItemSays(db, enabledOnly, id, items[k]);
    }
  }

  predicate BothServersStored(db: Database, id: EntityId)
    requires id in db.listeners
  {
    db.listeners[id].fields.listenServerId in db.servers && db.listeners[id].fields.processServerId in db.servers
  }

  /** And exactly the listeners, or the enabled ones, whose servers are stored. */
  lemma ListenersExported(db: Database, order: RowOrder, enabledOnly: bool)
    requires OrdersRows(order, db)
    ensures var items := Items(Exported(db, order, enabledOnly).listeners);
            && (forall item :: item in items ==> exists id :: ListenerItemSays(db, enabledOnly, id, item))
            && (forall id :: id in db.listeners && BothServersStored(db, id) && (enabledOnly ==> db.listeners[id].fields.enabled) ==>
                  exists item :: item in items && ListenerItemSays(db, enabledOnly, id, item))
  {
    var ids := Picked(order.listeners, ListenerChoice(db, enabledOnly));
    var items := Items(Exported(db, order, enabledOnly).listeners);
    assert items == ListenerItems(db, ids);
    forall item | item in items
      ensures exists id :: ListenerItemSays(db, enabledOnly, id, item)
    {
      var k :| 0 <= k < |items| && items[k] == item;
      assert ListenerItemSays(db, enabledOnly, ids[k], item);
    }
    forall id | id in db.listeners && BothServersStored(db, id) && (enabledOnly ==> db.listeners[id].fields.enabled)
      ensures exists item :: item in items && ListenerItemSays(db, enabledOnly, id, item)
    {
      assert id in ids;
      var k :| 0 <= k < |ids| && ids[k] == id;
      assert ListenerItemSays(db, enabledOnly, id, items[k]);
    }
  }
}
