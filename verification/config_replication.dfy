/**
 * Cron schedulers from the admin API's table to the conductor's store: writers commit first and
 * publish afterwards, one consumer applies what is published, and nothing is locked in between.
 */
module ConfigReplication {
  import opened Wrappers
  import opened ConfigEntities
  import opened ExecutionTargets
  import opened NameIndex
  import opened ConfigHistory
  import opened Conductor

  type WriterId = int
  type Rows = map<EntityId, CronRow>
  type Store = map<EntityId, CronScheduler>
  type CronChange = Change<CronFields>

  /** Where a writer is between the steps of one call; an idle writer is absent from the map. */
  datatype Writer =
    | Deleting(id: EntityId, found: bool)
    | Publishing(change: CronChange)

  datatype State = State(rows: Rows, writers: map<WriterId, Writer>, queue: seq<CronChange>, store: Store)

  datatype Step =
    | CommitCreate(w: WriterId, id: EntityId, data: Named<CronFields>)
    | CommitUpdate(w: WriterId, id: EntityId, data: Named<CronFields>)
    /** The read before a deletion, and whether it succeeds. */
    | ReadBeforeDelete(w: WriterId, id: EntityId, succeeds: bool)
    | CommitDelete(w: WriterId)
    | Publish(w: WriterId)
    /** The channel refuses; the writer only logs it. */
    | PublishFails(w: WriterId)
    | Consume

  /** The name is free for this id: the column is UNIQUE. */
  predicate NameFree(rows: Rows, id: EntityId, name: string) {
    forall other :: other in rows && other != id ==> rows[other].name != name
  }

  /**
   * The app checks the target of every update. The columns and the UNIQUE index only matter if
   * there is a row: an UPDATE of no row succeeds whatever it would have written.
   */
  predicate CanUpdate(rows: Rows, id: EntityId, data: Named<CronFields>) {
    && ValidTarget(data.fields.target, data.fields.workflowUrl)
    && (id in rows ==> data.fields.serverId.Some? && NameFree(rows, id, data.name))
  }

  function CreatedChange(id: EntityId, data: Named<CronFields>): CronChange {
    Change(Created, Some(id), Some(data))
  }

  function UpdatedChange(id: EntityId, data: Named<CronFields>): CronChange {
    Change(Updated, Some(id), Some(data))
  }

  function DeletedChange(id: EntityId): CronChange {
    Change(Deleted, Some(id), None)
  }

  /** What can happen at all. */
  predicate Enabled(s: State, step: Step) {
    match step
    case CommitCreate(w, id, data) => w !in s.writers && id !in s.rows && ValidCron(data) && NameFree(s.rows, id, data.name)
    case CommitUpdate(w, id, data) => w !in s.writers && CanUpdate(s.rows, id, data)
    case ReadBeforeDelete(w, id, _) => w !in s.writers
    case CommitDelete(w) => w in s.writers && s.writers[w].Deleting?
    case Publish(w) => w in s.writers && s.writers[w].Publishing?
    case PublishFails(w) => w in s.writers && s.writers[w].Publishing?
    case Consume => s.queue != []
  }

  /** The store's part of an event, as the event loop applies it. */
  function Applied(store: Store, c: CronChange): Store {
    if IsUpsert(c.action) && c.data.Some? then With(store, Entity(c.id, c.data))
    else if c.action.Deleted? && c.id.Some? then store - {c.id.value}
    else store
  }

  function Next(s: State, step: Step): State
    requires Enabled(s, step)
  {
    match step
    case CommitCreate(w, id, data) =>
      s.(rows := s.rows[id := CronToRow(data).value], writers := s.writers[w := Publishing(CreatedChange(id, data))])
    case CommitUpdate(w, id, data) =>
      s.(rows := if id in s.rows then s.rows[id := CronToRow(data).value] else s.rows,
         writers := s.writers[w := Publishing(UpdatedChange(id, data))])
    case ReadBeforeDelete(w, id, succeeds) =>
      s.(writers := s.writers[w := Deleting(id, succeeds && id in s.rows)])
    case CommitDelete(w) =>
      var id := s.writers[w].id;
      s.(rows := s.rows - {id},
         writers := if id in s.rows && s.writers[w].found then s.writers[w := Publishing(DeletedChange(id))] else s.writers - {w})
    case Publish(w) => s.(queue := s.queue + [s.writers[w].change], writers := s.writers - {w})
    case PublishFails(w) => s.(writers := s.writers - {w})
    case Consume => s.(store := Applied(s.store, s.queue[0]), queue := s.queue[1..])
  }

  lemma OneOp(s: ConfigHistory.Store, op: StoreOp)
    ensures StateAfter(s, [TakeSnapshot] + [op]) == ConfigHistory.Step(ConfigHistory.Step(s, TakeSnapshot), op)
  {
    StepAfterStep(s, [], TakeSnapshot);
    StepAfterStep(s, [TakeSnapshot], op);
  }

  /** What an event's operation does to the schedulers. */
  lemma OpApplies(s: ConfigHistory.Store, event: ConfigChangeEvent)
    requires |EntityOps(event)| == 1
    ensures ConfigHistory.Step(s, EntityOps(event)[0]).config.crons ==
            if event.CronEvent? then Applied(s.config.crons, event.cron) else s.config.crons
  {
    if event.CronEvent? && event.cron.action.Deleted? && event.cron.id.value !in s.config.crons {
      assert s.config.crons - {event.cron.id.value} == s.config.crons;
    }
  }

  /** The conductor's event loop does exactly this to its schedulers, and other events do nothing to them. */
  lemma ConductorApplies(s: ConfigHistory.Store, event: ConfigChangeEvent)
    ensures StateAfter(s, EventOps(event)).config.crons ==
            if event.CronEvent? then Applied(s.config.crons, event.cron) else s.config.crons
  {
    var ops := EntityOps(event);
    if ops == [] {
      StepAfterStep(s, [], TakeSnapshot);
      assert EventOps(event) == [] + [TakeSnapshot];
    } else {
      assert ops == [ops[0]];
      OneOp(s, ops[0]);
      OpApplies(ConfigHistory.Step(s, TakeSnapshot), event);
    }
  }

  // ---------------------------------------------------------------- what "in step" means

  function EntryAt(store: Store, id: EntityId): Option<CronScheduler> {
    if id in store then Some(store[id]) else None
  }

  function RowAt(rows: Rows, id: EntityId): Option<CronRow> {
    if id in rows then Some(rows[id]) else None
  }

  /** The stored scheduler and the row say the same, the target up to normalisation. */
  predicate SameScheduler(data: Named<CronFields>, row: CronRow) {
    var reloaded := CronFromRow(row);
    && CronBasics(data) == CronBasics(reloaded)
    && Plain(FiredByCron(data.fields)) == Plain(FiredByCron(reloaded.fields))
  }

  predicate Mirrors(id: EntityId, entry: Option<CronScheduler>, row: Option<CronRow>) {
    (entry.None? && row.None?) ||
    (&& entry.Some? && row.Some? && entry.value.id == Some(id) && entry.value.data.Some?
     && SameScheduler(entry.value.data.value, row.value))
  }

  ghost predicate InStep(rows: Rows, store: Store) {
    forall id :: Mirrors(id, EntryAt(store, id), RowAt(rows, id))
  }

  lemma WrittenMirrors(id: EntityId, data: Named<CronFields>)
    requires ValidCron(data)
    ensures Mirrors(id, Some(Entity(Some(id), Some(data))), Some(CronToRow(data).value))
  {
  }

  /** The entry a change leaves behind for its id. */
  function Effect(c: CronChange): Option<CronScheduler> {
    if c.action.Deleted? then None else Some(Entity(c.id, c.data))
  }

  predicate WellFormed(c: CronChange) {
    c.id.Some? && (c.action.Deleted? || (IsUpsert(c.action) && c.data.Some?))
  }

  /** The entry at `id` once everything queued has been consumed. */
  function Arriving(store: Store, queue: seq<CronChange>, id: EntityId): Option<CronScheduler> {
    if queue == [] then EntryAt(store, id)
    else if queue[|queue|-1].id == Some(id) then Effect(queue[|queue|-1])
    else Arriving(store, queue[..|queue|-1], id)
  }

  function HeldId(writer: Writer): Option<EntityId> {
    if writer.Deleting? then Some(writer.id) else writer.change.id
  }

  predicate Holds(s: State, w: WriterId, id: EntityId) {
    w in s.writers && HeldId(s.writers[w]) == Some(id)
  }

  predicate IsPublishing(s: State, w: WriterId, id: EntityId) {
    Holds(s, w, id) && s.writers[w].Publishing?
  }

  /** The steps of a run in which writes to one id do not overlap and nothing is lost. */
  ghost predicate Orderly(s: State, step: Step) {
    match step
    case CommitCreate(_, id, _) => forall w :: !Holds(s, w, id)
    case CommitUpdate(_, id, _) => id in s.rows && forall w :: !Holds(s, w, id)
    case ReadBeforeDelete(_, id, succeeds) => succeeds && forall w :: !Holds(s, w, id)
    case CommitDelete(_) => true
    case Publish(_) => true
    case PublishFails(_) => false
    case Consume => true
  }

  /** No two writers are at work on one id. */
  ghost predicate Apart(s: State) {
    forall v, w, id :: Holds(s, v, id) && Holds(s, w, id) ==> v == w
  }

  /** A writer about to publish, or about to delete, still sees the table as its own write left it. */
  ghost predicate WritersFit(s: State) {
    forall w :: w in s.writers ==>
      match s.writers[w]
      case Deleting(id, found) => found <==> id in s.rows
      case Publishing(c) => WellFormed(c) && Mirrors(c.id.value, Effect(c), RowAt(s.rows, c.id.value))
  }

  /** Away from the ids still to be published, what has been published leads to the table. */
  ghost predicate PublishedFits(s: State) {
    forall id :: (exists w :: IsPublishing(s, w, id)) || Mirrors(id, Arriving(s.store, s.queue, id), RowAt(s.rows, id))
  }

  ghost predicate Inv(s: State) {
    Apart(s) && WritersFit(s) && PublishedFits(s) && forall c :: c in s.queue ==> WellFormed(c)
  }

  // ---------------------------------------------------------------- every orderly step keeps the invariant

  lemma {:induction false} ConsumingKeepsArriving(store: Store, queue: seq<CronChange>, id: EntityId)
    requires queue != [] && WellFormed(queue[0])
    ensures Arriving(Applied(store, queue[0]), queue[1..], id) == Arriving(store, queue, id)
  {
    if |queue| == 1 {
      assert queue[..0] == [];
    } else if queue[|queue|-1].id != Some(id) {
      var front := queue[..|queue|-1];
      ConsumingKeepsArriving(store, front, id);
      assert queue[1..][..|queue|-2] == front[1..];
    }
  }

  lemma ConsumeKeeps(s: State)
    requires Inv(s) && s.queue != []
    ensures Inv(Next(s, Consume))
  {
    var after := Next(s, Consume);
    forall id
      ensures (exists w :: IsPublishing(after, w, id)) || Mirrors(id, Arriving(after.store, after.queue, id), RowAt(after.rows, id))
    {
      ConsumingKeepsArriving(s.store, s.queue, id);
      if w :| IsPublishing(s, w, id) {
        assert IsPublishing(after, w, id);
      }
    }
    assert forall w, id :: Holds(after, w, id) ==> Holds(s, w, id);
  }

  /** A commit of `id` by a writer that then has `change` to publish. */
  lemma CommitKeeps(s: State, w: WriterId, id: EntityId, change: CronChange, rows: Rows)
    requires Inv(s) && forall v :: Holds(s, v, id) ==> v == w
    requires forall other :: other != id ==> RowAt(rows, other) == RowAt(s.rows, other)
    requires WellFormed(change) && change.id == Some(id) && Mirrors(id, Effect(change), RowAt(rows, id))
    requires w !in s.writers || Holds(s, w, id)
    ensures Inv(s.(rows := rows, writers := s.writers[w := Publishing(change)]))
  {
    var after := s.(rows := rows, writers := s.writers[w := Publishing(change)]);
    forall v, other | v != w
      ensures Holds(after, v, other) <==> Holds(s, v, other)
    {
    }
    forall v | v in after.writers && v != w && after.writers[v].Deleting?
      ensures after.writers[v].found <==> after.writers[v].id in after.rows
    {
      assert Holds(s, v, after.writers[v].id);
      assert RowAt(rows, after.writers[v].id) == RowAt(s.rows, after.writers[v].id);
    }
    forall v | v in after.writers && v != w && after.writers[v].Publishing?
      ensures WellFormed(after.writers[v].change)
      ensures Mirrors(after.writers[v].change.id.value, Effect(after.writers[v].change), RowAt(rows, after.writers[v].change.id.value))
    {
      assert Holds(s, v, after.writers[v].change.id.value);
    }
    forall other
      ensures (exists v :: IsPublishing(after, v, other)) || Mirrors(other, Arriving(after.store, after.queue, other), RowAt(after.rows, other))
    {
      if other == id {
        assert IsPublishing(after, w, id);
      } else if v :| IsPublishing(s, v, other) {
        assert IsPublishing(after, v, other);
      }
    }
  }

  lemma ReadBeforeDeleteKeeps(s: State, w: WriterId, id: EntityId)
    requires Inv(s) && Enabled(s, ReadBeforeDelete(w, id, true)) && Orderly(s, ReadBeforeDelete(w, id, true))
    ensures Inv(Next(s, ReadBeforeDelete(w, id, true)))
  {
    var after := Next(s, ReadBeforeDelete(w, id, true));
    assert forall v, other :: v != w ==> (Holds(after, v, other) <==> Holds(s, v, other));
    forall other
      ensures (exists v :: IsPublishing(after, v, other)) || Mirrors(other, Arriving(after.store, after.queue, other), RowAt(after.rows, other))
    {
      if v :| IsPublishing(s, v, other) {
        assert IsPublishing(after, v, other);
      }
    }
  }

  /** Deleting an absent row changes nothing and publishes nothing. */
  lemma DeleteNothingKeeps(s: State, w: WriterId)
    requires Inv(s) && Enabled(s, CommitDelete(w)) && s.writers[w].id !in s.rows
    ensures Inv(Next(s, CommitDelete(w)))
  {
    var after := Next(s, CommitDelete(w));
    assert after.rows == s.rows;
    assert forall v, other :: Holds(after, v, other) ==> Holds(s, v, other);
    forall other
      ensures (exists v :: IsPublishing(after, v, other)) || Mirrors(other, Arriving(after.store, after.queue, other), RowAt(after.rows, other))
    {
      if v :| IsPublishing(s, v, other) {
        assert IsPublishing(after, v, other);
      }
    }
  }

  lemma PublishKeeps(s: State, w: WriterId)
    requires Inv(s) && Enabled(s, Publish(w))
    ensures Inv(Next(s, Publish(w)))
  {
    var after := Next(s, Publish(w));
    var c := s.writers[w].change;
    assert after.queue[..|after.queue|-1] == s.queue;
    assert forall v, other :: Holds(after, v, other) <==> Holds(s, v, other) && v != w;
    forall other
      ensures (exists v :: IsPublishing(after, v, other)) || Mirrors(other, Arriving(after.store, after.queue, other), RowAt(after.rows, other))
    {
      if c.id != Some(other) {
        if v :| IsPublishing(s, v, other) {
          assert IsPublishing(after, v, other);
        }
      }
    }
  }

  lemma StepKeepsInv(s: State, step: Step)
    requires Inv(s) && Enabled(s, step) && Orderly(s, step)
    ensures Inv(Next(s, step))
  {
    match step {
      case CommitCreate(w, id, data) =>
        WrittenMirrors(id, data);
        CommitKeeps(s, w, id, CreatedChange(id, data), Next(s, step).rows);
      case CommitUpdate(w, id, data) =>
        WrittenMirrors(id, data);
        CommitKeeps(s, w, id, UpdatedChange(id, data), Next(s, step).rows);
      case ReadBeforeDelete(w, id, _) => ReadBeforeDeleteKeeps(s, w, id);
      case CommitDelete(w) =>
        if s.writers[w].id in s.rows {
          assert Holds(s, w, s.writers[w].id);
          CommitKeeps(s, w, s.writers[w].id, DeletedChange(s.writers[w].id), Next(s, step).rows);
        } else {
          DeleteNothingKeeps(s, w);
        }
      case Publish(w) => PublishKeeps(s, w);
      case PublishFails(_) =>
      case Consume => ConsumeKeeps(s);
    }
  }

  // ---------------------------------------------------------------- runs

  /** A run in which every step can happen and is orderly. */
  ghost predicate OrderlyRun(s: State, steps: seq<Step>)
    decreases |steps|
  {
    steps == [] || (Enabled(s, steps[0]) && Orderly(s, steps[0]) && OrderlyRun(Next(s, steps[0]), steps[1..]))
  }

  function After(s: State, steps: seq<Step>): State
    decreases |steps|
  {
    if steps == [] || !Enabled(s, steps[0]) then s else After(Next(s, steps[0]), steps[1..])
  }

  ghost predicate NamesUnique(rows: Rows) {
    forall i, j :: i in rows && j in rows && rows[i].name == rows[j].name ==> i == j
  }

  /** However the writers interleave, no two rows of the table ever bear one name. */
  lemma {:induction false} NamesStayUnique(s: State, steps: seq<Step>)
    requires NamesUnique(s.rows)
    decreases |steps|
    ensures NamesUnique(After(s, steps).rows)
  {
    if steps != [] && Enabled(s, steps[0]) {
      CommitKeepsNamesUnique(s, steps[0]);
      NamesStayUnique(Next(s, steps[0]), steps[1..]);
    }
  }

  lemma CommitKeepsNamesUnique(s: State, step: Step)
    requires NamesUnique(s.rows) && Enabled(s, step)
    ensures NamesUnique(Next(s, step).rows)
  {
  }

  /** The target of an accepted write names a URL or a worker, or the deprecated URL is there. */
  predicate Acceptable(target: Option<ExecutionTarget>, url: string) {
    match target
    case Some(Workflow(workflowUrl, _)) => workflowUrl != ""
    case Some(Worker(workerName, _)) => workerName != ""
    case None => url != ""
  }

  /** Exactly when a free writer can commit a creation or an update. */
  lemma CommitPossibleIff(s: State, w: WriterId, id: EntityId, data: Named<CronFields>)
    requires w !in s.writers
    ensures var f, taken := data.fields, (exists other :: other in s.rows && other != id && s.rows[other].name == data.name);
            && (Enabled(s, CommitCreate(w, id, data)) <==>
                  id !in s.rows && Acceptable(f.target, f.workflowUrl) && f.serverId.Some? && !taken)
            && (Enabled(s, CommitUpdate(w, id, data)) <==>
                  Acceptable(f.target, f.workflowUrl) && (id in s.rows ==> f.serverId.Some? && !taken))
  {
  }

  lemma {:induction false} RunKeepsInv(s: State, steps: seq<Step>)
    requires Inv(s) && OrderlyRun(s, steps)
    decreases |steps|
    ensures Inv(After(s, steps))
  {
    if steps != [] {
      StepKeepsInv(s, steps[0]);
      RunKeepsInv(Next(s, steps[0]), steps[1..]);
    }
  }

  predicate Drained(s: State) {
    s.queue == [] && forall w :: w in s.writers ==> !s.writers[w].Publishing?
  }

  /** The conductor loaded the table and nothing is under way. */
  ghost predicate Initial(s: State) {
    s.writers == map[] && s.queue == [] && InStep(s.rows, s.store)
  }

  /**
   * Any number of writers and one consumer, in any interleaving: if writes to one id do not overlap,
   * updates hit existing rows and the channel loses nothing, then whenever the queue is drained the
   * store equals the table up to target normalisation.
   */
  lemma DrainedReplicaEqualsTable(s: State, steps: seq<Step>)
    requires Initial(s) && OrderlyRun(s, steps) && Drained(After(s, steps))
    ensures InStep(After(s, steps).rows, After(s, steps).store)
  {
    assert forall w, id :: !Holds(s, w, id);
    assert forall id :: Arriving(s.store, s.queue, id) == EntryAt(s.store, id);
    RunKeepsInv(s, steps);
    var end := After(s, steps);
    assert forall id :: Arriving(end.store, end.queue, id) == EntryAt(end.store, id);
  }

  /** Loading the table at start-up puts the store in step with it. */
  lemma LoadedTableIsInStep(rows: Rows, listed: seq<CronScheduler>)
    requires IdsDistinct(listed)
    requires forall i :: 0 <= i < |listed| ==> exists id :: id in rows && listed[i] == Entity(Some(id), Some(CronFromRow(rows[id])))
    requires forall id :: id in rows ==> Entity(Some(id), Some(CronFromRow(rows[id]))) in listed
    ensures InStep(rows, Loaded(Table(map[], map[]), listed).entities)
  {
    var store := Loaded(Table(map[], map[]), listed).entities;
    forall id
      ensures Mirrors(id, EntryAt(store, id), RowAt(rows, id))
    {
      LoadedExactly(listed, id);
      if id in rows {
        var i :| 0 <= i < |listed| && listed[i] == Entity(Some(id), Some(CronFromRow(rows[id])));
      }
    }
  }

  // ---------------------------------------------------------------- what one write alone does

  /** `delivered` says whether the channel takes the message, if there is one. */
  datatype Write =
    | Create(id: EntityId, data: Named<CronFields>, delivered: bool)
    | Update(id: EntityId, data: Named<CronFields>, delivered: bool)
    | Delete(id: EntityId, readSucceeds: bool, delivered: bool)

  function DeliverySteps(delivered: bool): seq<Step> {
    if delivered then [Publish(0), Consume] else [PublishFails(0)]
  }

  /** The steps of one undisturbed call, up to and including its consumption. */
  function StepsOf(rows: Rows, write: Write): seq<Step> {
    match write
    case Create(id, data, delivered) => [CommitCreate(0, id, data)] + DeliverySteps(delivered)
    case Update(id, data, delivered) => [CommitUpdate(0, id, data)] + DeliverySteps(delivered)
    case Delete(id, readSucceeds, delivered) =>
      [ReadBeforeDelete(0, id, readSucceeds)]
      + ([CommitDelete(0)] + (if readSucceeds && id in rows then DeliverySteps(delivered) else []))
  }

  predicate CanWrite(rows: Rows, write: Write) {
    match write
    case Create(id, data, _) => id !in rows && ValidCron(data) && NameFree(rows, id, data.name)
    case Update(id, data, _) => CanUpdate(rows, id, data)
    case Delete(_, _, _) => true
  }

  /**
   * Delivered, a write is safe unless it updates an absent row or deletes a row that could not be
   * read before. Undelivered, it is safe exactly when the table says nothing new: an absent row, or
   * the scheduler that was there already.
   */
  predicate IsSafe(rows: Rows, write: Write) {
    match write
    case Create(_, _, delivered) => delivered
    case Update(id, data, delivered) => if delivered then id in rows else id in rows ==> SameScheduler(data, rows[id])
    case Delete(id, readSucceeds, delivered) => id in rows ==> readSucceeds && delivered
  }

  function Outcome(rows: Rows, store: Store, write: Write): State
    requires CanWrite(rows, write)
  {
    match write
    case Create(id, data, delivered) =>
      State(rows[id := CronToRow(data).value], map[], [], if delivered then Applied(store, CreatedChange(id, data)) else store)
    case Update(id, data, delivered) =>
      State(if id in rows then rows[id := CronToRow(data).value] else rows, map[], [],
            if delivered then Applied(store, UpdatedChange(id, data)) else store)
    case Delete(id, readSucceeds, delivered) =>
      State(rows - {id}, map[], [], if readSucceeds && id in rows && delivered then Applied(store, DeletedChange(id)) else store)
  }

  lemma OneStep(s: State, step: Step, rest: seq<Step>)
    requires Enabled(s, step)
    ensures After(s, [step] + rest) == After(Next(s, step), rest)
  {
  }

  /** A commit that leaves one change to publish, and what becomes of it. */
  lemma PublishAndConsume(s: State, commit: Step, change: CronChange, delivered: bool)
    requires Enabled(s, commit) && s.queue == [] && Next(s, commit).writers == map[0 := Publishing(change)]
    requires Next(s, commit).queue == [] && Next(s, commit).store == s.store
    ensures After(s, [commit] + DeliverySteps(delivered)) ==
            State(Next(s, commit).rows, map[], [], if delivered then Applied(s.store, change) else s.store)
  {
    OneStep(s, commit, DeliverySteps(delivered));
    var s1 := Next(s, commit);
    if delivered {
      assert DeliverySteps(true) == [Publish(0)] + [Consume] && [Consume] == [Consume] + [];
      OneStep(s1, Publish(0), [Consume]);
      var s2 := Next(s1, Publish(0));
      assert s2.writers == map[] && s2.queue == [change];
      OneStep(s2, Consume, []);
    } else {
      assert DeliverySteps(false) == [PublishFails(0)] + [];
      OneStep(s1, PublishFails(0), []);
      assert Next(s1, PublishFails(0)).writers == map[];
    }
  }

  lemma UndisturbedDelete(rows: Rows, store: Store, id: EntityId, readSucceeds: bool, delivered: bool)
    ensures var write := Delete(id, readSucceeds, delivered);
            After(State(rows, map[], [], store), StepsOf(rows, write)) == Outcome(rows, store, write)
  {
    var s := State(rows, map[], [], store);
    var read := ReadBeforeDelete(0, id, readSucceeds);
    var s1 := Next(s, read);
    if readSucceeds && id in rows {
      OneStep(s, read, [CommitDelete(0)] + DeliverySteps(delivered));
      PublishAndConsume(s1, CommitDelete(0), DeletedChange(id), delivered);
    } else {
      OneStep(s, read, [CommitDelete(0)] + []);
      OneStep(s1, CommitDelete(0), []);
      assert Next(s1, CommitDelete(0)).writers == map[];
    }
  }

  lemma UndisturbedWrite(rows: Rows, store: Store, write: Write)
    requires CanWrite(rows, write)
    ensures After(State(rows, map[], [], store), StepsOf(rows, write)) == Outcome(rows, store, write)
  {
    var s := State(rows, map[], [], store);
    match write {
      case Create(id, data, delivered) =>
        PublishAndConsume(s, CommitCreate(0, id, data), CreatedChange(id, data), delivered);
      case Update(id, data, delivered) =>
        PublishAndConsume(s, CommitUpdate(0, id, data), UpdatedChange(id, data), delivered);
      case Delete(id, readSucceeds, delivered) => UndisturbedDelete(rows, store, id, readSucceeds, delivered);
    }
  }

  /** The row says what was sent, and its columns name what that fires. */
  predicate SavedAs(rows: Rows, id: EntityId, data: Named<CronFields>) {
    && id in rows
    && var row, f := rows[id], data.fields;
       && row.name == data.name && Some(row.fields.serverId) == f.serverId && row.fields.crontab == f.crontab
       && row.fields.enabled == f.enabled && row.fields.description == f.description && row.fields.args == f.args
       && FiresColumns(FiredByCron(f), row.fields.columns)
  }

  /** One undisturbed write: what the table and the store hold afterwards; no other row or entry changes. */
  lemma WriteDoesWhatItSays(rows: Rows, store: Store, write: Write)
    requires CanWrite(rows, write)
    ensures var end := After(State(rows, map[], [], store), StepsOf(rows, write));
            && (forall other :: other != write.id ==> RowAt(end.rows, other) == RowAt(rows, other) && EntryAt(end.store, other) == EntryAt(store, other))
            && match write
               case Create(id, data, delivered) =>
                 SavedAs(end.rows, id, data) && EntryAt(end.store, id) == if delivered then Some(Entity(Some(id), Some(data))) else EntryAt(store, id)
               case Update(id, data, delivered) =>
                 && (if id in rows then SavedAs(end.rows, id, data) else id !in end.rows)
                 && EntryAt(end.store, id) == if delivered then Some(Entity(Some(id), Some(data))) else EntryAt(store, id)
               case Delete(id, readSucceeds, delivered) =>
                 id !in end.rows && EntryAt(end.store, id) == if readSucceeds && id in rows && delivered then None else EntryAt(store, id)
  {
    UndisturbedWrite(rows, store, write);
  }

  /** A scheduler mirrors the row of other data exactly when that data says what the mirrored row says. */
  lemma MirrorsRewritten(id: EntityId, entry: Option<CronScheduler>, row: CronRow, data: Named<CronFields>)
    requires ValidCron(data) && Mirrors(id, entry, Some(row))
    ensures Mirrors(id, entry, Some(CronToRow(data).value)) <==> SameScheduler(data, row)
  {
    WrittenMirrors(id, data);
  }

  /** Only the entry and the row of the written id can part. */
  lemma OutcomeAt(rows: Rows, store: Store, write: Write, other: EntityId)
    requires InStep(rows, store) && CanWrite(rows, write) && other != write.id
    ensures var end := Outcome(rows, store, write); Mirrors(other, EntryAt(end.store, other), RowAt(end.rows, other))
  {
    assert Mirrors(other, EntryAt(store, other), RowAt(rows, other));
  }

  lemma OutcomeAtItsId(rows: Rows, store: Store, write: Write)
    requires InStep(rows, store) && CanWrite(rows, write)
    ensures var end := Outcome(rows, store, write);
            Mirrors(write.id, EntryAt(end.store, write.id), RowAt(end.rows, write.id)) <==> IsSafe(rows, write)
  {
    var id := write.id;
    assert Mirrors(id, EntryAt(store, id), RowAt(rows, id));
    match write {
      case Create(_, data, _) => WrittenMirrors(id, data);
      case Update(_, data, delivered) =>
        if id in rows {
          WrittenMirrors(id, data);
          MirrorsRewritten(id, EntryAt(store, id), rows[id], data);
        }
      case Delete(_, _, _) =>
    }
  }

  /** One undisturbed write on a replica in step leaves it in step if and only if the write is safe. */
  lemma WriteConvergesIff(rows: Rows, store: Store, write: Write)
    requires InStep(rows, store) && CanWrite(rows, write)
    ensures var end := After(State(rows, map[], [], store), StepsOf(rows, write));
            Drained(end) && (InStep(end.rows, end.store) <==> IsSafe(rows, write))
  {
    UndisturbedWrite(rows, store, write);
    OutcomeAtItsId(rows, store, write);
    forall other | other != write.id
      ensures var end := Outcome(rows, store, write); Mirrors(other, EntryAt(end.store, other), RowAt(end.rows, other))
    {
      OutcomeAt(rows, store, write, other);
    }
  }

  /** Both commits, the newer data last; neither is published yet. */
  lemma BothCommitted(s: State, id: EntityId, older: Named<CronFields>, newer: Named<CronFields>, rest: seq<Step>)
    requires s.writers == map[] && s.queue == [] && id in s.rows
    requires ValidCron(older) && NameFree(s.rows, id, older.name) && ValidCron(newer) && NameFree(s.rows, id, newer.name)
    ensures var writers := map[1 := Publishing(UpdatedChange(id, older)), 2 := Publishing(UpdatedChange(id, newer))];
            After(s, [CommitUpdate(1, id, older)] + ([CommitUpdate(2, id, newer)] + rest)) ==
            After(State(s.rows[id := CronToRow(newer).value], writers, [], s.store), rest)
  {
    var s1 := Next(s, CommitUpdate(1, id, older));
    OneStep(s, CommitUpdate(1, id, older), [CommitUpdate(2, id, newer)] + rest);
    assert s1.rows == s.rows[id := CronToRow(older).value];
    var s2 := Next(s1, CommitUpdate(2, id, newer));
    OneStep(s1, CommitUpdate(2, id, newer), rest);
    assert s2.rows == s.rows[id := CronToRow(newer).value];
  }

  /** Two publications, of writer 2 before writer 1. */
  lemma BothPublished(rows: Rows, store: Store, one: CronChange, two: CronChange, rest: seq<Step>)
    ensures After(State(rows, map[1 := Publishing(one), 2 := Publishing(two)], [], store), [Publish(2)] + ([Publish(1)] + rest))
         == After(State(rows, map[], [two, one], store), rest)
  {
    var s2 := State(rows, map[1 := Publishing(one), 2 := Publishing(two)], [], store);
    OneStep(s2, Publish(2), [Publish(1)] + rest);
    var s3 := Next(s2, Publish(2));
    assert s3 == State(rows, map[1 := Publishing(one)], [two], store);
    OneStep(s3, Publish(1), rest);
    assert Next(s3, Publish(1)) == State(rows, map[], [two, one], store);
  }

  /** Two updates of one row that overlap, published in the other order, leave the older one in the store. */
  lemma OverlapDiverges(rows: Rows, store: Store, id: EntityId, older: Named<CronFields>, newer: Named<CronFields>)
    requires InStep(rows, store) && id in rows
    requires ValidCron(older) && NameFree(rows, id, older.name) && ValidCron(newer) && NameFree(rows, id, newer.name)
    requires !SameScheduler(older, CronToRow(newer).value)
    ensures var steps := [CommitUpdate(1, id, older)] + ([CommitUpdate(2, id, newer)] + ([Publish(2)] + ([Publish(1)] + [Consume, Consume])));
            var end := After(State(rows, map[], [], store), steps);
            Drained(end) && !InStep(end.rows, end.store)
  {
    BothCommitted(State(rows, map[], [], store), id, older, newer, [Publish(2)] + ([Publish(1)] + [Consume, Consume]));
    BothPublished(rows[id := CronToRow(newer).value], store, UpdatedChange(id, older), UpdatedChange(id, newer), [Consume, Consume]);
    var s4 := State(rows[id := CronToRow(newer).value], map[], [UpdatedChange(id, newer), UpdatedChange(id, older)], store);
    assert [Consume, Consume] == [Consume] + [Consume] && [Consume] == [Consume] + [];
    OneStep(s4, Consume, [Consume]);
    var s5 := Next(s4, Consume);
    OneStep(s5, Consume, []);
    var s6 := Next(s5, Consume);
    assert s6.store[id] == Entity(Some(id), Some(older)) && s6.rows[id] == CronToRow(newer).value;
    assert !Mirrors(id, EntryAt(s6.store, id), RowAt(s6.rows, id));
  }
}
