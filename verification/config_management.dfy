/**
 * Configuration as a file: an export joins schedulers and listeners to the names of their servers,
 * an import resolves the names to fresh ids in one transaction.
 */
module ConfigManagement {
  import opened Wrappers
  import opened ConfigEntities
  import opened ExecutionTargets
  import opened NamedRows

  datatype Database = Database(
    servers: Rows<ServerFields>,
    crons: Rows<CronColumns>,
    listeners: Rows<ListenerColumns>,
    slacks: Rows<SlackColumns>)

  // ---------------------------------------------------------------- the settings file

  datatype ServerSetting = ServerSetting(name: string, address: string)

  /** One scheduler or listener of the file. */
  datatype Item = Item(
    name: string,
    jobworkerp: string,
    workflowUrl: string,
    channel: Option<string>,
    listenWorkerName: Option<string>,
    listenJobworkerp: Option<string>,
    crontab: Option<string>,
    args: Option<string>,
    workerName: Option<string>,
    using: Option<string>)

  datatype SettingsFile = SettingsFile(servers: seq<ServerSetting>, schedulers: Option<seq<Item>>, listeners: Option<seq<Item>>)

  function Items(list: Option<seq<Item>>): seq<Item> {
    if list.Some? then list.value else []
  }

  function Listed(items: seq<Item>): Option<seq<Item>> {
    if items == [] then None else Some(items)
  }

  // ---------------------------------------------------------------- server addresses

  datatype Url = Url(scheme: string, host: Option<string>, port: Option<nat>)

  /** The URL library, and the host texts it leaves as they are. */
  datatype UrlParser = UrlParser(parse: string -> Option<Url>, keepsHost: string -> bool)

  const MAX_PORT: nat := 65535

  function DefaultPort(ssl: bool): nat {
    if ssl then 443 else 80
  }

  function Decimal(n: nat): string {
    if n < 10 then [DIGITS[n]] else Decimal(n / 10) + [DIGITS[n % 10]]
  }

  const DIGITS := "0123456789"

  function Scheme(ssl: bool): string {
    if ssl then "https" else "http"
  }

  function Address(ssl: bool, host: string, port: string): string {
    Scheme(ssl) + "://" + host + ":" + port
  }

  /** A parser reads such an address back, and drops the scheme's default port (section 3.2.3 of RFC 3986). */
  ghost predicate ReadsAddresses(parser: UrlParser) {
    forall ssl: bool, host: string, n: nat :: parser.keepsHost(host) && n <= MAX_PORT ==>
      parser.parse(Address(ssl, host, Decimal(n))) == Some(Url(Scheme(ssl), Some(host), if n == DefaultPort(ssl) then None else Some(n)))
  }

  datatype ServerAddress = ServerAddress(host: string, port: string, ssl: bool)

  function ParseServerAddress(parser: UrlParser, address: string): Option<ServerAddress> {
    var url := parser.parse(address);
    if url.None? || url.value.host.None? then None
    else
      var ssl := url.value.scheme == "https";
      var port := if url.value.port.Some? then url.value.port.value else DefaultPort(ssl);
      Some(ServerAddress(url.value.host.value, Decimal(port), ssl))
  }

  function AddressOf(f: ServerFields): string {
    Address(f.sslEnabled, f.host, f.port)
  }

  /** The exported address is read back as the server it came from. */
  predicate AddressSurvives(parser: UrlParser, f: ServerFields) {
    ParseServerAddress(parser, AddressOf(f)) == Some(ServerAddress(f.host, f.port, f.sslEnabled))
  }

  lemma SchemesDiffer(ssl: bool)
    ensures Scheme(ssl) == "https" <==> ssl
  {
    assert |Scheme(ssl)| == if ssl then 5 else 4;
  }

  lemma ReadBack(parser: UrlParser, ssl: bool, host: string, n: nat, port: string)
    requires ReadsAddresses(parser) && parser.keepsHost(host) && n <= MAX_PORT && port == Decimal(n)
    ensures parser.parse(Address(ssl, host, port)) == Some(Url(Scheme(ssl), Some(host), if n == DefaultPort(ssl) then None else Some(n)))
  {
  }

  /** Canonical addresses survive; a default port is dropped on the way and restored. */
  lemma CanonicalAddressSurvives(parser: UrlParser, f: ServerFields, n: nat)
    requires ReadsAddresses(parser)
    requires parser.keepsHost(f.host) && n <= MAX_PORT && f.port == Decimal(n)
    ensures AddressSurvives(parser, f)
  {
    ReadBack(parser, f.sslEnabled, f.host, n, f.port);
    SchemesDiffer(f.sslEnabled);
  }

  // ---------------------------------------------------------------- import, as a function

  predicate HasText(text: Option<string>) {
    text.Some? && text.value != ""
  }

  predicate HasTarget(item: Item) {
    HasText(item.workerName) || item.workflowUrl != ""
  }

  /** What `validate_toml_config` accepts. */
  predicate ValidFile(parser: UrlParser, file: SettingsFile) {
    && file.servers != []
    && (forall j, k :: 0 <= j < k < |file.servers| ==> file.servers[j].name != file.servers[k].name)
    && (forall k :: 0 <= k < |file.servers| ==> ParseServerAddress(parser, file.servers[k].address).Some?)
    && (forall k :: 0 <= k < |Items(file.listeners)| ==> HasTarget(Items(file.listeners)[k]))
    && (forall k :: 0 <= k < |Items(file.schedulers)| ==> HasTarget(Items(file.schedulers)[k]))
  }

  type ServerMap = map<string, EntityId>

  function ServerRowFrom(parser: UrlParser, s: ServerSetting): Option<Named<ServerFields>> {
    var a := ParseServerAddress(parser, s.address);
    if a.None? then None else Some(Named(s.name, ServerFields(a.value.host, a.value.port, a.value.ssl, None, true)))
  }

  function CronRowFrom(serverMap: ServerMap, item: Item): Option<CronRow> {
    if item.crontab.None? || item.jobworkerp !in serverMap then None
    else
      var columns :=
        if HasText(item.workerName) then TargetColumns("", None, item.workerName, NonEmpty(item.using))
        else TargetColumns(item.workflowUrl, item.channel, item.workerName, NonEmpty(item.using));
      Some(Named(item.name, CronColumns(serverMap[item.jobworkerp], columns, item.crontab.value, true, None, item.args)))
  }

  function ListenerRowFrom(serverMap: ServerMap, item: Item): Option<ListenerRow> {
    if item.listenWorkerName.None? || item.listenJobworkerp.None? then None
    else if item.listenJobworkerp.value !in serverMap || item.jobworkerp !in serverMap then None
    else
      var columns :=
        if HasText(item.workerName) then TargetColumns("", None, item.workerName, NonEmpty(item.using))
        else TargetColumns(item.workflowUrl, item.channel, None, None);
      Some(Named(item.name, ListenerColumns(serverMap[item.listenJobworkerp.value], item.listenWorkerName.value,
                                            serverMap[item.jobworkerp], columns, true, None, item.args)))
  }

  /** The rows the three loops insert, where an item can be made one. */
  function ServerRows(parser: UrlParser, settings: seq<ServerSetting>): seq<Option<Named<ServerFields>>> {
    seq(|settings|, k requires 0 <= k < |settings| => ServerRowFrom(parser, settings[k]))
  }

  function CronRows(serverMap: ServerMap, items: seq<Item>): seq<Option<CronRow>> {
    seq(|items|, k requires 0 <= k < |items| => CronRowFrom(serverMap, items[k]))
  }

  function ListenerRows(serverMap: ServerMap, items: seq<Item>): seq<Option<ListenerRow>> {
    seq(|items|, k requires 0 <= k < |items| => ListenerRowFrom(serverMap, items[k]))
  }

  ghost predicate Sound(db: Database, base: EntityId) {
    && Unique(db.servers) && Unique(db.crons) && Unique(db.listeners)
    && Below(db.servers, base) && Below(db.crons, base) && Below(db.listeners, base) && Below(db.slacks, base)
  }

  function Cleared(db: Database): Database {
    Database(map[], map[], map[], db.slacks)
  }

  /** Ids by server name; a name is unique. */
  ghost function NameMap(servers: Rows<ServerFields>): (m: ServerMap)
    requires Unique(servers)
    ensures forall id :: id in servers ==> servers[id].name in m && m[servers[id].name] == id
    ensures forall name :: name in m ==> m[name] in servers && servers[m[name]].name == name
  {
    map id | id in servers :: servers[id].name := id
  }

  function ServersAfter(parser: UrlParser, servers: Rows<ServerFields>, settings: seq<ServerSetting>, base: EntityId): Rows<ServerFields>
    requires CanInsertAll(servers, ServerRows(parser, settings))
  {
    Appended(servers, RowsOf(ServerRows(parser, settings)), base)
  }

  lemma ServersStayUnique(parser: UrlParser, servers: Rows<ServerFields>, settings: seq<ServerSetting>, base: EntityId)
    requires CanInsertAll(servers, ServerRows(parser, settings)) && Unique(servers) && Below(servers, base)
    ensures Unique(ServersAfter(parser, servers, settings, base))
  {
  }

  /** The name map an import works with. */
  ghost function MapAfter(parser: UrlParser, db: Database, file: SettingsFile, base: EntityId): ServerMap
    requires Sound(db, base) && CanInsertAll(db.servers, ServerRows(parser, file.servers))
  {
    ServersStayUnique(parser, db.servers, file.servers, base);
    NameMap(ServersAfter(parser, db.servers, file.servers, base))
  }

  /** The schedulers and listeners of the file fit a database whose servers have these names. */
  predicate CanInsertItems(db: Database, serverMap: ServerMap, file: SettingsFile) {
    && CanInsertAll(db.crons, CronRows(serverMap, Items(file.schedulers)))
    && CanInsertAll(db.listeners, ListenerRows(serverMap, Items(file.listeners)))
  }

  function CronsAfter(crons: Rows<CronColumns>, serverMap: ServerMap, items: seq<Item>, base: EntityId): Rows<CronColumns>
    requires CanInsertAll(crons, CronRows(serverMap, items))
  {
    Appended(crons, RowsOf(CronRows(serverMap, items)), base)
  }

  function ListenersAfter(listeners: Rows<ListenerColumns>, serverMap: ServerMap, items: seq<Item>, base: EntityId): Rows<ListenerColumns>
    requires CanInsertAll(listeners, ListenerRows(serverMap, items))
  {
    Appended(listeners, RowsOf(ListenerRows(serverMap, items)), base)
  }

  /** The first id the generator hands out for each of the three loops. */
  datatype FreshIds = FreshIds(servers: EntityId, crons: EntityId, listeners: EntityId)

  function IdsFor(file: SettingsFile, first: EntityId): FreshIds {
    var crons := first + |file.servers|;
    FreshIds(first, crons, crons + |Items(file.schedulers)|)
  }

  function WithItems(db: Database, serverMap: ServerMap, file: SettingsFile, ids: FreshIds): Database
    requires CanInsertItems(db, serverMap, file)
  {
    Database(db.servers,
             CronsAfter(db.crons, serverMap, Items(file.schedulers), ids.crons),
             ListenersAfter(db.listeners, serverMap, Items(file.listeners), ids.listeners),
             db.slacks)
  }

  /** Exactly when an import into `db` succeeds. */
  ghost predicate CanImport(parser: UrlParser, db: Database, file: SettingsFile, first: EntityId)
    requires Sound(db, first)
  {
    && ValidFile(parser, file)
    && CanInsertAll(db.servers, ServerRows(parser, file.servers))
    && CanInsertItems(db, MapAfter(parser, db, file, first), file)
  }

  ghost function Imported(parser: UrlParser, db: Database, file: SettingsFile, ids: FreshIds): Database
    requires Sound(db, ids.servers) && CanImport(parser, db, file, ids.servers)
  {
    var servers := ServersAfter(parser, db.servers, file.servers, ids.servers);
    WithItems(db.(servers := servers), MapAfter(parser, db, file, ids.servers), file, ids)
  }

  // ---------------------------------------------------------------- export, as a function

  /** The order in which the database happens to return its rows. */
  datatype RowOrder = RowOrder(servers: seq<EntityId>, crons: seq<EntityId>, listeners: seq<EntityId>)

  predicate Enumerates(ids: seq<EntityId>, keys: set<EntityId>) {
    && (forall i, j :: 0 <= i < j < |ids| ==> ids[i] != ids[j])
    && (forall i :: 0 <= i < |ids| ==> ids[i] in keys)
    && (forall id :: id in keys ==> id in ids)
  }

  predicate OrdersRows(order: RowOrder, db: Database) {
    Enumerates(order.servers, db.servers.Keys) && Enumerates(order.crons, db.crons.Keys) && Enumerates(order.listeners, db.listeners.Keys)
  }

  /** The rows the queries select: an inner join drops a row whose server is gone. */
  predicate ServerSelected(db: Database, enabledOnly: bool, id: EntityId) {
    id in db.servers && (enabledOnly ==> db.servers[id].fields.enabled)
  }

  predicate CronSelected(db: Database, enabledOnly: bool, id: EntityId) {
    id in db.crons && db.crons[id].fields.serverId in db.servers && (enabledOnly ==> db.crons[id].fields.enabled)
  }

  predicate ListenerSelected(db: Database, enabledOnly: bool, id: EntityId) {
    && id in db.listeners && (enabledOnly ==> db.listeners[id].fields.enabled)
    && db.listeners[id].fields.listenServerId in db.servers && db.listeners[id].fields.processServerId in db.servers
  }

  function ServerChoice(db: Database, enabledOnly: bool): set<EntityId> {
    set id | id in db.servers && ServerSelected(db, enabledOnly, id)
  }

  function CronChoice(db: Database, enabledOnly: bool): set<EntityId> {
    set id | id in db.crons && CronSelected(db, enabledOnly, id)
  }

  function ListenerChoice(db: Database, enabledOnly: bool): set<EntityId> {
    set id | id in db.listeners && ListenerSelected(db, enabledOnly, id)
  }

  /** The chosen ids, in their order. */
  function Picked(ids: seq<EntityId>, chosen: set<EntityId>): (picked: seq<EntityId>)
    ensures forall i :: 0 <= i < |picked| ==> picked[i] in chosen && picked[i] in ids
    ensures forall id :: id in ids && id in chosen ==> id in picked
  {
    if ids == [] then []
    else Picked(ids[..|ids|-1], chosen) + (if ids[|ids|-1] in chosen then [ids[|ids|-1]] else [])
  }

  lemma {:induction false} PickedEnumerates(ids: seq<EntityId>, chosen: set<EntityId>, keys: set<EntityId>)
    requires Enumerates(ids, keys) && chosen <= keys
    ensures Enumerates(Picked(ids, chosen), chosen)
  {
    PickedDistinct(ids, chosen);
  }

  lemma {:induction false} PickedDistinct(ids: seq<EntityId>, chosen: set<EntityId>)
    requires forall i, j :: 0 <= i < j < |ids| ==> ids[i] != ids[j]
    ensures forall i, j :: 0 <= i < j < |Picked(ids, chosen)| ==> Picked(ids, chosen)[i] != Picked(ids, chosen)[j]
  {
    if ids != [] {
      var front := ids[..|ids|-1];
      PickedDistinct(front, chosen);
      assert ids[|ids|-1] !in front;
    }
  }

  function SettingOf(db: Database, id: EntityId): ServerSetting
    requires id in db.servers
  {
    ServerSetting(db.servers[id].name, AddressOf(db.servers[id].fields))
  }

  function CronItem(db: Database, id: EntityId): Item
    requires CronSelected(db, false, id)
  {
    var row := db.crons[id];
    var c := row.fields.columns;
    Item(row.name, db.servers[row.fields.serverId].name, c.workflowUrl, c.channel, None, None,
         Some(row.fields.crontab), row.fields.args, c.workerName, c.using)
  }

  function ListenerItem(db: Database, id: EntityId): Item
    requires ListenerSelected(db, false, id)
  {
    var row := db.listeners[id];
    var c := row.fields.columns;
    Item(row.name, db.servers[row.fields.processServerId].name, c.workflowUrl, c.channel, Some(row.fields.listenWorkerName),
         Some(db.servers[row.fields.listenServerId].name), None, row.fields.args, c.workerName, c.using)
  }

  function SettingsOf(db: Database, ids: seq<EntityId>): seq<ServerSetting>
    requires forall i :: 0 <= i < |ids| ==> ids[i] in db.servers
  {
    seq(|ids|, i requires 0 <= i < |ids| => SettingOf(db, ids[i]))
  }

  function CronItems(db: Database, ids: seq<EntityId>): seq<Item>
    requires forall i :: 0 <= i < |ids| ==> CronSelected(db, false, ids[i])
  {
    seq(|ids|, i requires 0 <= i < |ids| => CronItem(db, ids[i]))
  }

  function ListenerItems(db: Database, ids: seq<EntityId>): seq<Item>
    requires forall i :: 0 <= i < |ids| ==> ListenerSelected(db, false, ids[i])
  {
    seq(|ids|, i requires 0 <= i < |ids| => ListenerItem(db, ids[i]))
  }

  function Exported(db: Database, order: RowOrder, enabledOnly: bool): SettingsFile {
    SettingsFile(SettingsOf(db, Picked(order.servers, ServerChoice(db, enabledOnly))),
                 Listed(CronItems(db, Picked(order.crons, CronChoice(db, enabledOnly)))),
                 Listed(ListenerItems(db, Picked(order.listeners, ListenerChoice(db, enabledOnly)))))
  }
}
