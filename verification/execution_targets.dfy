/**
 * Execution targets on their way through the database: the `oneof` of a message is flattened to
 * columns, rebuilt from them, and normalised to what a trigger finally fires.
 */
module ExecutionTargets {
  import opened Wrappers
  import opened ConfigEntities

  /** The target columns of `cron_scheduler` and `worker_result_handler`. */
  datatype TargetColumns = TargetColumns(
    workflowUrl: string,
    channel: Option<string>,
    workerName: Option<string>,
    using: Option<string>)

  function NonEmpty(text: Option<string>): Option<string> {
    if text == Some("") then None else text
  }

  function HasWorkerName(columns: TargetColumns): bool {
    columns.workerName.Some? && columns.workerName.value != ""
  }

  /** The app-level check every create and update passes. */
  predicate ValidTarget(target: Option<ExecutionTarget>, deprecatedUrl: string) {
    match target
    case Some(Workflow(url, _)) => url != ""
    case Some(Worker(name, _)) => name != ""
    case None => deprecatedUrl != ""
  }

  /** A target as a reader understands it who takes an empty text for an absent one. */
  function Plain(target: Option<ExecutionTarget>): Option<ExecutionTarget> {
    match target
    case Some(Workflow(url, channel)) => Some(Workflow(url, NonEmpty(channel)))
    case Some(Worker(name, using)) => Some(Worker(name, NonEmpty(using)))
    case None => None
  }

  /** Equal, or both absent or empty. */
  predicate SameText(a: Option<string>, b: Option<string>) {
    a == b || (a in {None, Some("")} && b in {None, Some("")})
  }

  /** What is fired is the configured target, or the workflow of the deprecated fields when there is none. */
  predicate FiresConfigured(fired: Option<ExecutionTarget>, target: Option<ExecutionTarget>, url: string, channel: Option<string>) {
    match target
    case Some(Worker(name, using)) =>
      fired.Some? && fired.value.Worker? && fired.value.workerName == name && SameText(fired.value.using, using)
    case Some(Workflow(workflowUrl, workflowChannel)) =>
      fired.Some? && fired.value.Workflow? && fired.value.workflowUrl == workflowUrl && SameText(fired.value.channel, workflowChannel)
    case None =>
      if url == "" then fired.None?
      else fired.Some? && fired.value.Workflow? && fired.value.workflowUrl == url && SameText(fired.value.channel, channel)
  }

  /** What is fired is the worker the columns name, or else their workflow. */
  predicate FiresColumns(fired: Option<ExecutionTarget>, columns: TargetColumns) {
    if columns.workerName.Some? && columns.workerName.value != "" then
      fired.Some? && fired.value.Worker? && Some(fired.value.workerName) == columns.workerName && SameText(fired.value.using, columns.using)
    else if columns.workflowUrl == "" then fired.None?
    else fired.Some? && fired.value.Workflow? && fired.value.workflowUrl == columns.workflowUrl && SameText(fired.value.channel, columns.channel)
  }

  // ---------------------------------------------------------------- cron schedulers and listeners

  function FlattenTarget(target: Option<ExecutionTarget>, url: string, channel: Option<string>): TargetColumns {
    match target
    case Some(Workflow(workflowUrl, workflowChannel)) => TargetColumns(workflowUrl, workflowChannel, None, None)
    case Some(Worker(name, using)) => TargetColumns("", None, Some(name), NonEmpty(using))
    case None => TargetColumns(url, channel, None, None)
  }

  function RebuildTarget(columns: TargetColumns): Option<ExecutionTarget> {
    if HasWorkerName(columns) then Some(Worker(columns.workerName.value, columns.using))
    else if columns.workflowUrl != "" then Some(Workflow(columns.workflowUrl, columns.channel))
    else None
  }

  /** `ResolvedTarget::from_cron_target`. */
  function FromCronTarget(target: Option<ExecutionTarget>, urlFallback: string, channelFallback: Option<string>): Option<ExecutionTarget> {
    match target
    case Some(_) => target
    case None => if urlFallback != "" then Some(Workflow(urlFallback, NonEmpty(channelFallback))) else None
  }

  /** What a listener enqueues for its columns. */
  function FromListenerSetting(columns: TargetColumns): ExecutionTarget {
    if HasWorkerName(columns) then Worker(columns.workerName.value, columns.using)
    else Workflow(columns.workflowUrl, columns.channel)
  }

  datatype CronColumns = CronColumns(
    serverId: EntityId,
    columns: TargetColumns,
    crontab: string,
    enabled: bool,
    description: Option<string>,
    args: Option<string>)

  type CronRow = Named<CronColumns>

  /** The row written by create and update; the server id column is NOT NULL. */
  function CronToRow(data: Named<CronFields>): Option<CronRow> {
    var f := data.fields;
    if f.serverId.None? then None
    else Some(Named(data.name, CronColumns(f.serverId.value, FlattenTarget(f.target, f.workflowUrl, f.channel),
                                           f.crontab, f.enabled, f.description, f.args)))
  }

  /** `CronSchedulerRow::to_proto`. */
  function CronFromRow(row: CronRow): Named<CronFields> {
    var r := row.fields;
    Named(row.name, CronFields(Some(r.serverId), r.columns.workflowUrl, r.columns.channel, r.crontab,
                               r.enabled, r.description, r.args, RebuildTarget(r.columns)))
  }

  function FiredByCron(f: CronFields): Option<ExecutionTarget> {
    FromCronTarget(f.target, f.workflowUrl, f.channel)
  }

  predicate ValidCron(data: Named<CronFields>) {
    data.fields.serverId.Some? && ValidTarget(data.fields.target, data.fields.workflowUrl)
  }

  function ReloadCron(data: Named<CronFields>): Named<CronFields>
    requires ValidCron(data)
  {
    CronFromRow(CronToRow(data).value)
  }

  /** Everything of a scheduler but the encoding of its target. */
  function CronBasics(data: Named<CronFields>): (string, Option<EntityId>, string, bool, Option<string>, Option<string>) {
    var f := data.fields;
    (data.name, f.serverId, f.crontab, f.enabled, f.description, f.args)
  }

  /**
   * The target a scheduler fires from its event data is the one it fires after a restart or by
   * manual trigger, up to empty texts; nothing else changes, and a second reload changes nothing.
   */
  lemma CronSurvivesStorage(data: Named<CronFields>)
    requires ValidCron(data)
    ensures FiredByCron(data.fields).Some?
    ensures Plain(FiredByCron(ReloadCron(data).fields)) == Plain(FiredByCron(data.fields))
    ensures CronBasics(ReloadCron(data)) == CronBasics(data)
    ensures ValidCron(ReloadCron(data)) && ReloadCron(ReloadCron(data)) == ReloadCron(data)
  {
  }

  /** Exactly when a reload leaves the fired target as it was, empty texts included. */
  lemma CronFiresIdenticallyIff(data: Named<CronFields>)
    requires ValidCron(data)
    ensures FiredByCron(ReloadCron(data).fields) == FiredByCron(data.fields) <==>
            match data.fields.target
            case Some(Worker(_, using)) => using != Some("")
            case Some(Workflow(_, _)) => true
            case None => data.fields.channel != Some("")
  {
  }

  /** A create or update is accepted exactly if what it would fire has a name or a URL. */
  lemma AcceptedExactlyIfItFires(target: Option<ExecutionTarget>, url: string, channel: Option<string>)
    ensures ValidTarget(target, url) <==>
            var fired := FromCronTarget(target, url, channel);
            && fired.Some? && (fired.value.Workflow? ==> fired.value.workflowUrl != "")
            && (fired.value.Worker? ==> fired.value.workerName != "")
  {
  }

  /** From its event data, from its row and after any reload a scheduler fires what was configured. */
  lemma CronFiresAsConfigured(data: Named<CronFields>)
    requires data.fields.serverId.Some?
    ensures var f := data.fields; FiresConfigured(FiredByCron(f), f.target, f.workflowUrl, f.channel)
    ensures data.fields.target.Some? ==> FiredByCron(data.fields) == data.fields.target
    ensures ValidCron(data) ==>
              var f := data.fields;
              && FiresConfigured(FiredByCron(ReloadCron(data).fields), f.target, f.workflowUrl, f.channel)
              && FiresColumns(FiredByCron(f), CronToRow(data).value.fields.columns)
  {
  }

  /** A scheduler read from the database fires what its columns say. */
  lemma CronFiresItsColumns(row: CronRow)
    ensures FiresColumns(FiredByCron(CronFromRow(row).fields), row.fields.columns)
  {
  }

  datatype ListenerColumns = ListenerColumns(
    listenServerId: EntityId,
    listenWorkerName: string,
    processServerId: EntityId,
    columns: TargetColumns,
    enabled: bool,
    description: Option<string>,
    args: Option<string>)

  type ListenerRow = Named<ListenerColumns>

  function ListenerToRow(data: Named<ListenerFields>): Option<ListenerRow> {
    var f := data.fields;
    if f.listenServerId.None? || f.processServerId.None? then None
    else Some(Named(data.name, ListenerColumns(f.listenServerId.value, f.listenWorkerName, f.processServerId.value,
                                               FlattenTarget(f.target, f.workflowUrl, f.channel), f.enabled, f.description, f.args)))
  }

  /** `WorkerResultHandlerRow::to_proto`. */
  function ListenerFromRow(row: ListenerRow): Named<ListenerFields> {
    var r := row.fields;
    Named(row.name, ListenerFields(Some(r.listenServerId), r.listenWorkerName, Some(r.processServerId),
                                   r.columns.workflowUrl, r.columns.channel, r.enabled, r.description,
                                   r.args, RebuildTarget(r.columns)))
  }

  function FiredByListener(f: ListenerFields): ExecutionTarget {
    FromListenerSetting(FlattenTarget(f.target, f.workflowUrl, f.channel))
  }

  predicate ValidListener(data: Named<ListenerFields>) {
    && data.fields.listenServerId.Some? && data.fields.processServerId.Some?
    && ValidTarget(data.fields.target, data.fields.workflowUrl)
  }

  function ReloadListener(data: Named<ListenerFields>): Named<ListenerFields>
    requires ValidListener(data)
  {
    ListenerFromRow(ListenerToRow(data).value)
  }

  /** A listener flattens before it fires, so a reload never changes what it fires, empty texts included. */
  lemma ListenerSurvivesStorage(data: Named<ListenerFields>)
    requires ValidListener(data)
    ensures FiredByListener(ReloadListener(data).fields) == FiredByListener(data.fields)
    ensures var f, g := data.fields, ReloadListener(data).fields;
            && ReloadListener(data).name == data.name
            && (g.listenServerId, g.listenWorkerName, g.processServerId) == (f.listenServerId, f.listenWorkerName, f.processServerId)
            && (g.enabled, g.description, g.args) == (f.enabled, f.description, f.args)
    ensures ValidListener(ReloadListener(data)) && ReloadListener(ReloadListener(data)) == ReloadListener(data)
  {
  }

  /** A listener fires what was configured, before and after any reload. */
  lemma ListenerFiresAsConfigured(data: Named<ListenerFields>)
    requires ValidListener(data)
    ensures var f := data.fields;
            && FiresConfigured(Some(FiredByListener(f)), f.target, f.workflowUrl, f.channel)
            && FiresConfigured(Some(FiredByListener(ReloadListener(data).fields)), f.target, f.workflowUrl, f.channel)
            && FiresColumns(Some(FiredByListener(f)), ListenerToRow(data).value.fields.columns)
  {
  }

  // ---------------------------------------------------------------- Slack handlers

  const REACTION_UNSPECIFIED: int := 0
  const REACTION_ADDED: int := 1
  const REACTION_REMOVED: int := 2
  const REACTION_BOTH: int := 3

  function ReactionOperationToDb(op: int): Option<string> {
    if op == REACTION_ADDED then Some("added")
    else if op == REACTION_REMOVED then Some("removed")
    else if op == REACTION_BOTH then Some("both")
    else None
  }

  function ReactionOperationFromDb(text: Option<string>): int {
    match text
    case None => REACTION_UNSPECIFIED
    case Some(s) =>
      if s == "added" then REACTION_ADDED
      else if s == "removed" then REACTION_REMOVED
      else if s == "both" then REACTION_BOTH
      else REACTION_UNSPECIFIED
  }

  function OrEmpty(text: Option<string>): string {
    if text.Some? then text.value else ""
  }

  /** The channel column of a Slack handler is always written as a text. */
  function FlattenSlackTarget(target: Option<ExecutionTarget>, url: string, channel: string): TargetColumns {
    match target
    case Some(Workflow(workflowUrl, workflowChannel)) => TargetColumns(workflowUrl, Some(OrEmpty(workflowChannel)), None, None)
    case Some(Worker(name, using)) => TargetColumns("", Some(""), Some(name), NonEmpty(using))
    case None => TargetColumns(url, Some(channel), None, None)
  }

  /** `resolve_slack_target`. */
  function ResolveSlackTarget(target: Option<ExecutionTarget>, url: string, channel: string): Option<ExecutionTarget> {
    match target
    case Some(_) => target
    case None => if url != "" then Some(Workflow(url, if channel != "" then Some(channel) else None)) else None
  }

  datatype SlackColumns = SlackColumns(
    description: Option<string>,
    enabled: bool,
    slackChannelId: Option<string>,
    messagePattern: Option<string>,
    mentionRequired: bool,
    reactionNames: Option<string>,
    reactionOperation: Option<string>,
    reactionUserFilter: Option<string>,
    serverId: EntityId,
    columns: TargetColumns,
    timeoutSec: int,
    args: Option<string>)

  type SlackRow = Named<SlackColumns>

  /** The row written by create and update; server id and timeout columns are NOT NULL. */
  function SlackToRow(data: Named<SlackFields>): Option<SlackRow> {
    var f := data.fields;
    if f.serverId.None? || f.timeoutSec.None? then None
    else
      var columns := FlattenSlackTarget(f.target, f.workflowUrl, f.channel);
      Some(Named(data.name, SlackColumns(Some(f.description), f.enabled, f.slackChannelId, f.messagePattern, f.mentionRequired,
                                         f.reactionNames, ReactionOperationToDb(f.reactionOperation), f.reactionUserFilter,
                                         f.serverId.value, columns, f.timeoutSec.value, f.args)))
  }

  /** `SlackEventHandlerRow::to_proto`. */
  function SlackFromRow(row: SlackRow): Named<SlackFields> {
    var r := row.fields;
    Named(row.name, SlackFields(OrEmpty(r.description), r.enabled, r.slackChannelId, r.messagePattern,
                                r.mentionRequired, r.reactionNames, ReactionOperationFromDb(r.reactionOperation),
                                r.reactionUserFilter, Some(r.serverId), r.columns.workflowUrl,
                                OrEmpty(r.columns.channel), Some(r.timeoutSec), r.args, RebuildTarget(r.columns)))
  }

  function FiredBySlack(f: SlackFields): Option<ExecutionTarget> {
    ResolveSlackTarget(f.target, f.workflowUrl, f.channel)
  }

  predicate ValidSlack(data: Named<SlackFields>) {
    && data.fields.serverId.Some? && data.fields.timeoutSec.Some?
    && ValidTarget(data.fields.target, data.fields.workflowUrl)
  }

  function ReloadSlack(data: Named<SlackFields>): Named<SlackFields>
    requires ValidSlack(data)
  {
    SlackFromRow(SlackToRow(data).value)
  }

  /** The fields of a handler that select events. */
  function SlackConditions(f: SlackFields): (bool, Option<string>, Option<string>, bool, Option<string>, Option<string>) {
    (f.enabled, f.slackChannelId, f.messagePattern, f.mentionRequired, f.reactionNames, f.reactionUserFilter)
  }

  lemma SlackSurvivesStorage(data: Named<SlackFields>)
    requires ValidSlack(data)
    ensures FiredBySlack(data.fields).Some?
    ensures Plain(FiredBySlack(ReloadSlack(data).fields)) == Plain(FiredBySlack(data.fields))
    ensures var f, g := data.fields, ReloadSlack(data).fields;
            && ReloadSlack(data).name == data.name && SlackConditions(g) == SlackConditions(f)
            && (g.description, g.serverId, g.timeoutSec, g.args) == (f.description, f.serverId, f.timeoutSec, f.args)
            && (REACTION_UNSPECIFIED <= f.reactionOperation <= REACTION_BOTH ==> g.reactionOperation == f.reactionOperation)
            && (!(REACTION_UNSPECIFIED <= f.reactionOperation <= REACTION_BOTH) ==> g.reactionOperation == REACTION_UNSPECIFIED)
    ensures ValidSlack(ReloadSlack(data)) && ReloadSlack(ReloadSlack(data)) == ReloadSlack(data)
  {
  }

  /** A Slack handler fires what was configured, before and after any reload. */
  lemma SlackFiresAsConfigured(data: Named<SlackFields>)
    ensures var f := data.fields; FiresConfigured(FiredBySlack(f), f.target, f.workflowUrl, Some(f.channel))
    ensures data.fields.target.Some? ==> FiredBySlack(data.fields) == data.fields.target
    ensures ValidSlack(data) ==>
              var f := data.fields;
              && FiresConfigured(FiredBySlack(ReloadSlack(data).fields), f.target, f.workflowUrl, Some(f.channel))
              && FiresColumns(FiredBySlack(f), SlackToRow(data).value.fields.columns)
  {
  }

  /**
   * Exactly when a reload leaves the fired target as it was, empty texts included: an absent
   * channel comes back as an empty one.
   */
  lemma SlackFiresIdenticallyIff(data: Named<SlackFields>)
    requires ValidSlack(data)
    ensures FiredBySlack(ReloadSlack(data).fields) == FiredBySlack(data.fields) <==>
            match data.fields.target
            case Some(Worker(_, using)) => using != Some("")
            case Some(Workflow(_, channel)) => channel.Some?
            case None => data.fields.channel != ""
  {
  }
}
