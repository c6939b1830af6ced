/**
 * The store as a value: configuration, version and snapshot ring. The store's methods are proved
 * to be these steps; what versions and snapshots mean over whole runs is proved here.
 */
module ConfigHistory {
  import opened Wrappers
  import opened ConfigEntities
  import opened NameIndex

  const INITIAL_VERSION: nat := 1
  const RING_SIZE: nat := 10

  datatype Snapshot = Snapshot(version: nat, config: Configuration)

  datatype Store = Store(config: Configuration, version: nat, snapshots: seq<Snapshot>)

  datatype StoreOp =
    | UpsertCron(cron: CronScheduler)
    | UpsertListener(listener: WorkerResultHandler)
    | UpsertServer(server: JobworkerpServer)
    | UpsertSlack(slack: SlackEventHandler)
    | RemoveEntity(kind: Kind, id: EntityId)
    | TakeSnapshot
    | Restore(target: nat)
    | Import(exported: Configuration, exportedVersion: nat)

  function EmptyConfiguration(): Configuration {
    Configuration(map[], map[], map[], map[])
  }

  function EmptyStore(): Store {
    Store(EmptyConfiguration(), INITIAL_VERSION, [])
  }

  function IdsOf(c: Configuration, kind: Kind): set<EntityId> {
    match kind
    case CronKind => c.crons.Keys
    case ListenerKind => c.listeners.Keys
    case ServerKind => c.servers.Keys
    case SlackKind => c.slacks.Keys
  }

  function With<D>(entities: map<EntityId, Entity<D>>, e: Entity<D>): map<EntityId, Entity<D>> {
    if Complete(e) then entities[e.id.value := e] else entities
  }

  function WithoutEntity(c: Configuration, kind: Kind, id: EntityId): Configuration {
    match kind
    case CronKind => c.(crons := c.crons - {id})
    case ListenerKind => c.(listeners := c.listeners - {id})
    case ServerKind => c.(servers := c.servers - {id})
    case SlackKind => c.(slacks := c.slacks - {id})
  }

  function Bumped(s: Store, really: bool, config: Configuration): Store {
    if really then s.(config := config, version := s.version + 1) else s
  }

  /** The last ten of a list. */
  function LastTen(snapshots: seq<Snapshot>): seq<Snapshot> {
    if |snapshots| <= RING_SIZE then snapshots else snapshots[|snapshots| - RING_SIZE..]
  }

  function Pushed(snapshots: seq<Snapshot>, s: Snapshot): seq<Snapshot> {
    var grown := snapshots + [s];
    if |grown| > RING_SIZE then grown[1..] else grown
  }

  function Current(s: Store): Snapshot {
    Snapshot(s.version, s.config)
  }

  /** The first snapshot of that version. */
  function Find(snapshots: seq<Snapshot>, version: nat): Option<Snapshot> {
    if snapshots == [] then None
    else if snapshots[0].version == version then Some(snapshots[0])
    else Find(snapshots[1..], version)
  }

  function Step(s: Store, op: StoreOp): Store {
    match op
    case UpsertCron(e) => Bumped(s, Complete(e), s.config.(crons := With(s.config.crons, e)))
    case UpsertListener(e) => Bumped(s, Complete(e), s.config.(listeners := With(s.config.listeners, e)))
    case UpsertServer(e) => Bumped(s, Complete(e), s.config.(servers := With(s.config.servers, e)))
    case UpsertSlack(e) => Bumped(s, Complete(e), s.config.(slacks := With(s.config.slacks, e)))
    case RemoveEntity(kind, id) => Bumped(s, id in IdsOf(s.config, kind), WithoutEntity(s.config, kind, id))
    case TakeSnapshot => s.(snapshots := Pushed(s.snapshots, Current(s)))
    case Restore(target) =>
      var found := Find(s.snapshots, target);
      if found.Some? then s.(config := found.value.config, version := found.value.version) else s
    case Import(exported, exportedVersion) => Store(exported, exportedVersion, Pushed(s.snapshots, Current(s)))
  }

  function StateAfter(s: Store, ops: seq<StoreOp>): Store {
    if ops == [] then s else Step(StateAfter(s, ops[..|ops|-1]), ops[|ops|-1])
  }

  /** A run before the first restore or import. */
  predicate OnlyEdits(ops: seq<StoreOp>) {
    forall i :: 0 <= i < |ops| ==> !ops[i].Restore? && !ops[i].Import?
  }

  function Snapshots(op: StoreOp): nat {
    if op.TakeSnapshot? || op.Import? then 1 else 0
  }

  /** The snapshots a run creates, in order. */
  function Taken(s: Store, ops: seq<StoreOp>): seq<Snapshot> {
    if ops == [] then []
    else
      var front := ops[..|ops|-1];
      Taken(s, front) + (if Snapshots(ops[|ops|-1]) == 1 then [Current(StateAfter(s, front))] else [])
  }

  // ---------------------------------------------------------------- versions

  lemma {:induction false} VersionsGrow(s: Store, ops: seq<StoreOp>, i: nat)
    requires OnlyEdits(ops) && i <= |ops|
    ensures StateAfter(s, ops[..i]).version <= StateAfter(s, ops).version
    ensures StateAfter(s, ops[..i]).version == StateAfter(s, ops).version ==>
              StateAfter(s, ops[..i]).config == StateAfter(s, ops).config
  {
    if i == |ops| {
      assert ops[..i] == ops;
    } else {
      var front := ops[..|ops|-1];
      assert front[..i] == ops[..i];
      VersionsGrow(s, front, i);
    }
  }

  /** Before the first restore or import, a version number determines the whole configuration. */
  lemma VersionDeterminesConfiguration(s: Store, ops: seq<StoreOp>, i: nat, j: nat)
    requires OnlyEdits(ops) && i <= j <= |ops|
    ensures StateAfter(s, ops[..i]).version == StateAfter(s, ops[..j]).version ==>
              StateAfter(s, ops[..i]).config == StateAfter(s, ops[..j]).config
  {
    assert ops[..j][..i] == ops[..i];
    VersionsGrow(s, ops[..j], i);
  }

  /** Afterwards it does not: a restore turns the version back, and the next edit reuses a number. */
  lemma VersionsAreReusedAfterRestore(server: JobworkerpServer, slack: SlackEventHandler)
    requires Complete(server) && Complete(slack)
    ensures var ops := [TakeSnapshot, UpsertServer(server), Restore(INITIAL_VERSION), UpsertSlack(slack)];
            && StateAfter(EmptyStore(), ops[..2]).version == StateAfter(EmptyStore(), ops).version
            && StateAfter(EmptyStore(), ops[..2]).config != StateAfter(EmptyStore(), ops).config
  {
    var ops := [TakeSnapshot, UpsertServer(server), Restore(INITIAL_VERSION), UpsertSlack(slack)];
    var s0 := EmptyStore();
    var s1 := Step(s0, TakeSnapshot);
    var s2 := Step(s1, UpsertServer(server));
    var s3 := Step(s2, Restore(INITIAL_VERSION));
    assert ops[..3][..2] == ops[..2] && ops[..2][..1] == ops[..1] && ops[..1][..0] == [];
    assert StateAfter(s0, ops[..1]) == s1;
    assert StateAfter(s0, ops[..2]) == s2;
    assert Find(s2.snapshots, INITIAL_VERSION) == Some(Current(s0));
    assert StateAfter(s0, ops[..3]) == s3;
    assert server.id.value in s2.config.servers && server.id.value !in s3.config.servers;
  }

  // ---------------------------------------------------------------- the ring

  lemma PushedIsLastTen(snapshots: seq<Snapshot>, s: Snapshot)
    ensures Pushed(LastTen(snapshots), s) == LastTen(snapshots + [s])
  {
  }

  /** In every run the ring holds exactly the last ten snapshots created, in creation order. */
  lemma {:induction false} RingHoldsLastTen(s: Store, ops: seq<StoreOp>)
    requires |s.snapshots| <= RING_SIZE
    ensures StateAfter(s, ops).snapshots == LastTen(s.snapshots + Taken(s, ops))
  {
    if ops == [] {
      assert s.snapshots + [] == s.snapshots;
    } else {
      var front := ops[..|ops|-1];
      RingHoldsLastTen(s, front);
      var before := StateAfter(s, front);
      if Snapshots(ops[|ops|-1]) == 1 {
        PushedIsLastTen(s.snapshots + Taken(s, front), Current(before));
        assert s.snapshots + Taken(s, ops) == s.snapshots + Taken(s, front) + [Current(before)];
      } else {
        assert Taken(s, ops) == Taken(s, front);
      }
    }
  }

  /** Snapshots of one version agree, with each other and with the current configuration. */
  predicate SnapshotsFit(s: Store) {
    && (forall p :: p in s.snapshots ==> p.version <= s.version && (p.version == s.version ==> p.config == s.config))
    && (forall p, q :: p in s.snapshots && q in s.snapshots && p.version == q.version ==> p.config == q.config)
  }

  lemma PushedMembers(snapshots: seq<Snapshot>, s: Snapshot)
    ensures forall p :: p in Pushed(snapshots, s) ==> p in snapshots || p == s
  {
  }

  lemma EditKeepsSnapshotsFit(s: Store, op: StoreOp)
    requires SnapshotsFit(s) && !op.Restore? && !op.Import?
    ensures SnapshotsFit(Step(s, op))
  {
  }

  lemma {:induction false} SnapshotsAlwaysFit(s: Store, ops: seq<StoreOp>)
    requires SnapshotsFit(s) && OnlyEdits(ops)
    ensures SnapshotsFit(StateAfter(s, ops))
  {
    if ops != [] {
      SnapshotsAlwaysFit(s, ops[..|ops|-1]);
      EditKeepsSnapshotsFit(StateAfter(s, ops[..|ops|-1]), ops[|ops|-1]);
    }
  }

  /** The search stops at the first snapshot of the version. */
  lemma {:induction false} FindStopsAtFirst(snapshots: seq<Snapshot>, k: nat)
    requires k < |snapshots|
    requires forall l :: 0 <= l < k && snapshots[l].version == snapshots[k].version ==> snapshots[l].config == snapshots[k].config
    ensures Find(snapshots, snapshots[k].version) == Some(snapshots[k])
  {
    if snapshots[0].version != snapshots[k].version {
      var tail := snapshots[1..];
      assert forall l :: 0 <= l < |tail| ==> tail[l] == snapshots[l + 1];
      FindStopsAtFirst(tail, k - 1);
    }
  }

  /** In a ring where the snapshots of a version up to `k` agree, restoring it reinstates snapshot `k`. */
  lemma RestoreFinds(s: Store, k: nat)
    requires k < |s.snapshots|
    requires forall l :: 0 <= l < k && s.snapshots[l].version == s.snapshots[k].version ==> s.snapshots[l].config == s.snapshots[k].config
    ensures Current(Step(s, Restore(s.snapshots[k].version))) == s.snapshots[k]
  {
    FindStopsAtFirst(s.snapshots, k);
  }

  /** Restoring any retained version reinstates its four maps exactly, and its version. */
  lemma RestoreReinstates(start: Store, ops: seq<StoreOp>, k: nat)
    requires start.snapshots == [] && OnlyEdits(ops) && k < |StateAfter(start, ops).snapshots|
    ensures var s := StateAfter(start, ops);
            var restored := Step(s, Restore(s.snapshots[k].version));
            Current(restored) == s.snapshots[k] && restored.snapshots == s.snapshots
  {
    SnapshotsAlwaysFit(start, ops);
    RestoreFinds(StateAfter(start, ops), k);
  }

  function SnapshotCount(ops: seq<StoreOp>): nat {
    if ops == [] then 0 else SnapshotCount(ops[..|ops|-1]) + Snapshots(ops[|ops|-1])
  }

  lemma {:induction false} TakenCount(s: Store, ops: seq<StoreOp>)
    ensures |Taken(s, ops)| == SnapshotCount(ops)
  {
    if ops != [] {
      TakenCount(s, ops[..|ops|-1]);
    }
  }

  /** Fewer than ten more snapshots leave the last entry of the ring in place, behind older ones only. */
  lemma LastEntryKept(ring: seq<Snapshot>, more: seq<Snapshot>) returns (k: nat)
    requires 0 < |ring| && |more| < RING_SIZE
    ensures k < |LastTen(ring + more)| && LastTen(ring + more)[k] == ring[|ring| - 1]
    ensures forall l :: 0 <= l < k ==> LastTen(ring + more)[l] in ring
  {
    var kept := LastTen(ring + more);
    var dropped := |ring| + |more| - |kept|;
    k := |ring| - 1 - dropped;
    assert forall l :: 0 <= l <= k ==> kept[l] == ring[l + dropped];
  }

  /**
   * The first import can be undone by restoring the version it started from, whatever happens in
   * between, for as long as at most nine more snapshots are created.
   */
  lemma ImportCanBeUndone(empty: Store, before: seq<StoreOp>, config: Configuration, version: nat, after: seq<StoreOp>)
    requires empty.snapshots == [] && OnlyEdits(before) && SnapshotCount(after) < RING_SIZE
    ensures var start := StateAfter(empty, before);
            var later := StateAfter(Step(start, Import(config, version)), after);
            Current(Step(later, Restore(start.version))) == Current(start)
  {
    var start := StateAfter(empty, before);
    var imported := Step(start, Import(config, version));
    SnapshotsAlwaysFit(empty, before);
    RingHoldsLastTen(empty, before);
    RingHoldsLastTen(imported, after);
    TakenCount(imported, after);
    PushedMembers(start.snapshots, Current(start));
    var k := LastEntryKept(imported.snapshots, Taken(imported, after));
    RestoreFinds(StateAfter(imported, after), k);
  }

  // ---------------------------------------------------------------- differences

  datatype ConfigDiff =
    | EntityAdded(kind: Kind, id: EntityId)
    | EntityUpdated(kind: Kind, id: EntityId)
    | EntityRemoved(kind: Kind, id: EntityId)

  predicate Expected(current: set<EntityId>, snapshot: set<EntityId>, d: ConfigDiff) {
    match d
    case EntityAdded(_, id) => id in current && id !in snapshot
    case EntityUpdated(_, id) => id in current && id in snapshot
    case EntityRemoved(_, id) => id !in current && id in snapshot
  }

  predicate NoRepeats(diffs: seq<ConfigDiff>) {
    forall i, j :: 0 <= i < j < |diffs| ==> diffs[i] != diffs[j]
  }

  /** `diffs` is a comparison of the two configurations, in some order. */
  ghost predicate IsDiff(diffs: seq<ConfigDiff>, current: Configuration, snapshot: Configuration) {
    && NoRepeats(diffs)
    && forall d: ConfigDiff :: d in diffs <==> Expected(IdsOf(current, d.kind), IdsOf(snapshot, d.kind), d)
  }

  predicate About(d: ConfigDiff, kind: Kind, id: EntityId) {
    d.kind == kind && d.id == id
  }

  /** Every id of either side is reported, and only once; no other id is. */
  lemma DiffReportsEachIdOnce(diffs: seq<ConfigDiff>, current: Configuration, snapshot: Configuration, kind: Kind, id: EntityId)
    requires IsDiff(diffs, current, snapshot)
    ensures (exists i :: 0 <= i < |diffs| && About(diffs[i], kind, id)) <==> id in IdsOf(current, kind) + IdsOf(snapshot, kind)
    ensures forall i, j :: 0 <= i < j < |diffs| && About(diffs[i], kind, id) ==> !About(diffs[j], kind, id)
  {
    if id in IdsOf(current, kind) + IdsOf(snapshot, kind) {
      var d := if id !in IdsOf(snapshot, kind) then EntityAdded(kind, id)
               else if id in IdsOf(current, kind) then EntityUpdated(kind, id)
               else EntityRemoved(kind, id);
      assert d in diffs;
    }
    forall i, j | 0 <= i < j < |diffs| && About(diffs[i], kind, id)
      ensures !About(diffs[j], kind, id)
    {
      assert diffs[i] in diffs && diffs[j] in diffs;
    }
  }

  function AddedIds(diffs: seq<ConfigDiff>, kind: Kind): set<EntityId> {
    set d | d in diffs && d.EntityAdded? && d.kind == kind :: d.id
  }

  function RemovedIds(diffs: seq<ConfigDiff>, kind: Kind): set<EntityId> {
    set d | d in diffs && d.EntityRemoved? && d.kind == kind :: d.id
  }

  /** For all four kinds the current ids are the snapshot's ids plus Added minus Removed. */
  lemma DiffAccountsForIds(diffs: seq<ConfigDiff>, current: Configuration, snapshot: Configuration, kind: Kind)
    requires IsDiff(diffs, current, snapshot)
    ensures IdsOf(current, kind) == IdsOf(snapshot, kind) + AddedIds(diffs, kind) - RemovedIds(diffs, kind)
  {
    var added, removed := AddedIds(diffs, kind), RemovedIds(diffs, kind);
    forall id
      ensures id in IdsOf(current, kind) <==> id in IdsOf(snapshot, kind) + added - removed
    {
      assert id in added <==> EntityAdded(kind, id) in diffs;
      assert id in removed <==> EntityRemoved(kind, id) in diffs;
    }
  }

  /** Right after restoring a version, the comparison with it reports nothing added and nothing removed. */
  lemma NothingAddedOrRemovedAfterRestore(s: Store, version: nat, diffs: seq<ConfigDiff>)
    requires Find(s.snapshots, version).Some?
    requires var restored := Step(s, Restore(version));
             IsDiff(diffs, restored.config, Find(restored.snapshots, version).value.config)
    ensures forall d :: d in diffs ==> d.EntityUpdated?
    ensures forall kind :: AddedIds(diffs, kind) == {} && RemovedIds(diffs, kind) == {}
  {
  }
}
