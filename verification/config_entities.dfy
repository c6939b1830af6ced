/** The four kinds of configuration the conductor replicates; timestamps are left out. */
module ConfigEntities {
  import opened Wrappers

  type EntityId = int

  datatype ExecutionTarget =
    | Workflow(workflowUrl: string, channel: Option<string>)
    | Worker(workerName: string, using: Option<string>)

  /** The data part of an entity: its unique name and the fields of its kind. */
  datatype Named<+D> = Named(name: string, fields: D)

  /** A message as it travels: both parts are optional on the wire. */
  datatype Entity<+D> = Entity(id: Option<EntityId>, data: Option<Named<D>>)

  datatype CronFields = CronFields(
    serverId: Option<EntityId>,
    workflowUrl: string,
    channel: Option<string>,
    crontab: string,
    enabled: bool,
    description: Option<string>,
    args: Option<string>,
    target: Option<ExecutionTarget>)

  datatype ListenerFields = ListenerFields(
    listenServerId: Option<EntityId>,
    listenWorkerName: string,
    processServerId: Option<EntityId>,
    workflowUrl: string,
    channel: Option<string>,
    enabled: bool,
    description: Option<string>,
    args: Option<string>,
    target: Option<ExecutionTarget>)

  datatype ServerFields = ServerFields(
    host: string,
    port: string,
    sslEnabled: bool,
    description: Option<string>,
    enabled: bool)

  datatype SlackFields = SlackFields(
    description: string,
    enabled: bool,
    slackChannelId: Option<string>,
    messagePattern: Option<string>,
    mentionRequired: bool,
    reactionNames: Option<string>,
    reactionOperation: int,
    reactionUserFilter: Option<string>,
    serverId: Option<EntityId>,
    workflowUrl: string,
    channel: string,
    timeoutSec: Option<int>,
    args: Option<string>,
    target: Option<ExecutionTarget>)

  type CronScheduler = Entity<CronFields>
  type WorkerResultHandler = Entity<ListenerFields>
  type JobworkerpServer = Entity<ServerFields>
  type SlackEventHandler = Entity<SlackFields>

  datatype Kind = CronKind | ListenerKind | ServerKind | SlackKind

  /** The four forward maps of the store, as one value. */
  datatype Configuration = Configuration(
    crons: map<EntityId, CronScheduler>,
    listeners: map<EntityId, WorkerResultHandler>,
    servers: map<EntityId, JobworkerpServer>,
    slacks: map<EntityId, SlackEventHandler>)

  datatype ChangeAction = Unspecified | Created | Updated | Deleted | Enabled | Disabled

  /** A notification about one entity; the data part is absent for a deletion. */
  datatype Change<+D> = Change(action: ChangeAction, id: Option<EntityId>, data: Option<Named<D>>)

  datatype ConfigChangeEvent =
    | CronEvent(cron: Change<CronFields>)
    | ListenerEvent(listener: Change<ListenerFields>)
    | ServerEvent(server: Change<ServerFields>)
    | SlackEvent(slack: Change<SlackFields>)
    | NoEvent
}
