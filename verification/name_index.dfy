/**
 * A forward map of entities with its name index, as the store keeps one for each kind. Names
 * may collide: two ids can bear one name for a while, and the index follows the last writer.
 */
module NameIndex {
  import opened Wrappers
  import opened ConfigEntities

  datatype Table<+D> = Table(entities: map<EntityId, Entity<D>>, index: map<string, EntityId>)

  /** The entity is stored under `id` and bears `name`. */
  predicate Bears<D>(entities: map<EntityId, Entity<D>>, id: EntityId, name: string) {
    id in entities && entities[id].data.Some? && entities[id].data.value.name == name
  }

  function Unindexed<D>(t: Table<D>, id: EntityId): map<string, EntityId>
    requires id in t.entities
  {
    if t.entities[id].data.Some? then t.index - {t.entities[id].data.value.name} else t.index
  }

  predicate Complete<D>(e: Entity<D>) {
    e.id.Some? && e.data.Some?
  }

  function Upserted<D>(t: Table<D>, e: Entity<D>): Table<D> {
    if !Complete(e) then t
    else
      var id, name := e.id.value, e.data.value.name;
      var index := if id in t.entities && !Bears(t.entities, id, name) then Unindexed(t, id) else t.index;
      Table(t.entities[id := e], index[name := id])
  }

  function Removed<D>(t: Table<D>, id: EntityId): Table<D> {
    if id in t.entities then Table(t.entities - {id}, Unindexed(t, id)) else t
  }

  /** Every index entry leads to a stored entity of that name. */
  predicate NoOrphans<D>(t: Table<D>) {
    forall name :: name in t.index ==> Bears(t.entities, t.index[name], name)
  }

  predicate Indexed<D>(t: Table<D>, id: EntityId) {
    id in t.entities && t.entities[id].data.Some? ==>
      var name := t.entities[id].data.value.name;
      name in t.index && t.index[name] == id
  }

  /** The index is the exact inverse of "id bears name". */
  predicate IsInverse<D>(t: Table<D>) {
    NoOrphans(t) && forall id :: id in t.entities ==> Indexed(t, id)
  }

  predicate NamesDistinct<D>(entities: map<EntityId, Entity<D>>) {
    forall i, j :: i in entities && j in entities && i != j && entities[i].data.Some? ==> !Bears(entities, j, entities[i].data.value.name)
  }

  /** The upsert takes a name that another stored entity bears. */
  predicate Collides<D>(t: Table<D>, e: Entity<D>) {
    Complete(e) && exists id :: id in t.entities && id != e.id.value && Bears(t.entities, id, e.data.value.name)
  }

  lemma UpsertKeepsNoOrphans<D>(t: Table<D>, e: Entity<D>)
    requires NoOrphans(t)
    ensures NoOrphans(Upserted(t, e))
  {
  }

  lemma RemoveKeepsNoOrphans<D>(t: Table<D>, id: EntityId)
    requires NoOrphans(t)
    ensures NoOrphans(Removed(t, id))
  {
  }

  lemma RemoveKeepsInverse<D>(t: Table<D>, id: EntityId)
    requires IsInverse(t)
    ensures IsInverse(Removed(t, id))
  {
  }

  /** An upsert keeps the exact inverse if and only if it takes no name held by another id. */
  lemma UpsertKeepsInverseIff<D>(t: Table<D>, e: Entity<D>)
    requires IsInverse(t)
    ensures IsInverse(Upserted(t, e)) <==> !Collides(t, e)
  {
    var after := Upserted(t, e);
    UpsertKeepsNoOrphans(t, e);
    if Complete(e) {
      var id, name := e.id.value, e.data.value.name;
      if Collides(t, e) {
        var other :| other in t.entities && other != id && Bears(t.entities, other, name);
        assert !Indexed(after, other);
      } else {
        forall other | other in after.entities
          ensures Indexed(after, other)
        {
          if other != id {
            assert Indexed(t, other);
            assert !Bears(t.entities, other, name);
            if id in t.entities {
              assert Indexed(t, id);
            }
          }
        }
      }
    }
  }

  // ---------------------------------------------------------------- runs

  datatype Op<+D> = Upsert(e: Entity<D>) | Remove(id: EntityId) | Rebuild(entities: map<EntityId, Entity<D>>, index: map<string, EntityId>)

  /** What iterating over a map in some order and inserting each name can leave behind. */
  predicate RebuiltFrom<D>(entities: map<EntityId, Entity<D>>, index: map<string, EntityId>) {
    && NoOrphans(Table(entities, index))
    && forall id :: id in entities && entities[id].data.Some? ==> entities[id].data.value.name in index
  }

  predicate Possible<D>(op: Op<D>) {
    op.Rebuild? ==> RebuiltFrom(op.entities, op.index)
  }

  function Done<D>(t: Table<D>, op: Op<D>): Table<D> {
    match op
    case Upsert(e) => Upserted(t, e)
    case Remove(id) => Removed(t, id)
    case Rebuild(entities, index) => Table(entities, index)
  }

  function Run<D>(t: Table<D>, ops: seq<Op<D>>): Table<D>
    decreases |ops|
  {
    if ops == [] then t else Run(Done(t, ops[0]), ops[1..])
  }

  predicate AllPossible<D>(ops: seq<Op<D>>) {
    forall i :: 0 <= i < |ops| ==> Possible(ops[i])
  }

  /** No upsert of the run takes a name held by another id, and no rebuild starts from colliding names. */
  predicate CollisionFree<D>(t: Table<D>, ops: seq<Op<D>>)
    decreases |ops|
  {
    ops == [] ||
    (&& (ops[0].Upsert? ==> !Collides(t, ops[0].e))
     && (ops[0].Rebuild? ==> NamesDistinct(ops[0].entities))
     && CollisionFree(Done(t, ops[0]), ops[1..]))
  }

  /** In every run, name collisions included, no index entry is orphaned. */
  lemma {:induction false} RunHasNoOrphans<D>(t: Table<D>, ops: seq<Op<D>>)
    requires NoOrphans(t) && AllPossible(ops)
    decreases |ops|
    ensures NoOrphans(Run(t, ops))
  {
    if ops != [] {
      assert Possible(ops[0]);
      match ops[0] {
        case Upsert(e) => UpsertKeepsNoOrphans(t, e);
        case Remove(id) => RemoveKeepsNoOrphans(t, id);
        case Rebuild(_, _) =>
      }
      RunHasNoOrphans(Done(t, ops[0]), ops[1..]);
    }
  }

  /** A rebuilt index is the exact inverse if and only if the names are distinct; then only one index can result. */
  lemma RebuiltInverseIff<D>(entities: map<EntityId, Entity<D>>, index: map<string, EntityId>)
    requires RebuiltFrom(entities, index)
    ensures IsInverse(Table(entities, index)) <==> NamesDistinct(entities)
  {
  }

  lemma InverseIsUnique<D>(entities: map<EntityId, Entity<D>>, one: map<string, EntityId>, other: map<string, EntityId>)
    requires IsInverse(Table(entities, one)) && RebuiltFrom(entities, other)
    ensures other == one
  {
  }

  /** A run without collisions ends with the exact inverse. */
  lemma {:induction false} RunKeepsInverse<D>(t: Table<D>, ops: seq<Op<D>>)
    requires IsInverse(t) && AllPossible(ops) && CollisionFree(t, ops)
    decreases |ops|
    ensures IsInverse(Run(t, ops))
  {
    if ops != [] {
      assert Possible(ops[0]);
      match ops[0] {
        case Upsert(e) => UpsertKeepsInverseIff(t, e);
        case Remove(id) => RemoveKeepsInverse(t, id);
        case Rebuild(entities, index) => RebuiltInverseIff(entities, index);
      }
      RunKeepsInverse(Done(t, ops[0]), ops[1..]);
    }
  }

  /** A collision loses the older name for good: once the newer entity goes, the older one cannot be found by name. */
  lemma CollisionLosesAName<D>(one: Entity<D>, two: Entity<D>)
    requires Complete(one) && Complete(two) && one.id != two.id && one.data.value.name == two.data.value.name
    ensures var t := Run(Table(map[], map[]), [Upsert(one), Upsert(two), Remove(two.id.value)]);
            one.id.value in t.entities && one.data.value.name !in t.index && NoOrphans(t) && !IsInverse(t)
  {
    var empty: Table<D> := Table(map[], map[]);
    var ops := [Upsert(one), Upsert(two), Remove(two.id.value)];
    var t1 := Upserted(empty, one);
    var t2 := Upserted(t1, two);
    var t3 := Removed(t2, two.id.value);
    assert ops[1..] == [Upsert(two), Remove(two.id.value)] && ops[1..][1..] == [Remove(two.id.value)];
    assert ops[1..][1..][1..] == [];
    assert Run(t2, ops[1..][1..]) == t3;
    assert Run(t1, ops[1..]) == t3;
    assert Run(empty, ops) == t3;
    assert !Indexed(t3, one.id.value);
  }

  // ---------------------------------------------------------------- the loops over the maps

  /** One of the four loops of `rebuild_reverse_indices`; the order of the map is arbitrary. */
  method RebuildIndex<D>(entities: map<EntityId, Entity<D>>) returns (index: map<string, EntityId>)
    ensures RebuiltFrom(entities, index)
  {
    index := map[];
    var todo: set<EntityId> := entities.Keys;
    while todo != {}
      invariant todo <= entities.Keys
      invariant NoOrphans(Table(entities, index))
      invariant forall id :: id in entities && id !in todo && entities[id].data.Some? ==> entities[id].data.value.name in index
      decreases |todo|
    {
      var id := AnyOf(todo);
      todo := todo - {id};
      if entities[id].data.Some? {
        index := index[entities[id].data.value.name := id];
      }
    }
  }

  /** One kind's part of `validate_index_consistency`. */
  method ValidateIndex<D>(t: Table<D>) returns (ok: bool)
    ensures ok <==> (&& (forall id :: id in t.entities ==> Indexed(t, id))
                     && (forall name :: name in t.index ==> t.index[name] in t.entities))
  {
    var todo: set<EntityId> := t.entities.Keys;
    while todo != {}
      invariant todo <= t.entities.Keys
      invariant forall id :: id in t.entities && id !in todo ==> Indexed(t, id)
      decreases |todo|
    {
      var id := AnyOf(todo);
      todo := todo - {id};
      if t.entities[id].data.Some? {
        var name := t.entities[id].data.value.name;
        if name !in t.index || t.index[name] != id {
          assert !Indexed(t, id);
          return false;
        }
      }
    }
    var names := t.index.Keys;
    while names != {}
      invariant names <= t.index.Keys
      invariant forall name :: name in t.index && name !in names ==> t.index[name] in t.entities
      decreases |names|
    {
      var name := AnyOf(names);
      names := names - {name};
      if t.index[name] !in t.entities {
        return false;
      }
    }
    return true;
  }

  /** Because no run orphans an entry, what `ValidateIndex` checks is exactly that the index is the inverse. */
  lemma ValidExactlyWhenInverse<D>(t: Table<D>)
    requires NoOrphans(t)
    ensures IsInverse(t) <==> (&& (forall id :: id in t.entities ==> Indexed(t, id))
                               && (forall name :: name in t.index ==> t.index[name] in t.entities))
  {
  }

  /** `find_*_by_name`. */
  function FindByName<D>(t: Table<D>, name: string): Option<Entity<D>> {
    if name in t.index && t.index[name] in t.entities then Some(t.entities[t.index[name]]) else None
  }

  /** A lookup by name never returns an entity of another name, and with the exact inverse misses none. */
  lemma FindByNameFinds<D>(t: Table<D>, name: string)
    requires NoOrphans(t)
    ensures FindByName(t, name).Some? ==> FindByName(t, name).value.data.Some? && FindByName(t, name).value.data.value.name == name
    ensures IsInverse(t) ==> (FindByName(t, name).Some? <==> exists id :: id in t.entities && Bears(t.entities, id, name))
  {
  }

  // ---------------------------------------------------------------- start-up loading

  /** Upserting a list in order, skipping the incomplete entries. */
  function Loaded<D>(t: Table<D>, es: seq<Entity<D>>): Table<D> {
    if es == [] then t else Upserted(Loaded(t, es[..|es|-1]), es[|es|-1])
  }

  function CompleteCount<D>(es: seq<Entity<D>>): nat {
    if es == [] then 0 else CompleteCount(es[..|es|-1]) + (if Complete(es[|es|-1]) then 1 else 0)
  }

  predicate IdsDistinct<D>(es: seq<Entity<D>>) {
    forall i, j :: 0 <= i < j < |es| && es[i].id.Some? ==> es[i].id != es[j].id
  }

  /** Loading distinct ids stores exactly the complete entries, each under its own id. */
  lemma {:induction false} LoadedExactly<D>(es: seq<Entity<D>>, id: EntityId)
    requires IdsDistinct(es)
    ensures var t := Loaded(Table(map[], map[]), es);
            && NoOrphans(t)
            && (id in t.entities <==> exists i :: 0 <= i < |es| && Complete(es[i]) && es[i].id == Some(id))
            && forall i :: 0 <= i < |es| && Complete(es[i]) && es[i].id == Some(id) ==> id in t.entities && t.entities[id] == es[i]
  {
    if es != [] {
      var front, last := es[..|es|-1], es[|es|-1];
      LoadedExactly(front, id);
      UpsertKeepsNoOrphans(Loaded(Table(map[], map[]), front), last);
      if i :| 0 <= i < |es| && Complete(es[i]) && es[i].id == Some(id) {
        if i < |front| {
          assert front[i] == es[i];
        }
      }
      if i :| 0 <= i < |front| && Complete(front[i]) && front[i].id == Some(id) {
        assert es[i] == front[i];
      }
    }
  }

  /** Loading stores every entity complete and under its own id. */
  lemma {:induction false} LoadedIsKeyed<D>(es: seq<Entity<D>>)
    ensures var t := Loaded(Table(map[], map[]), es);
            NoOrphans(t) && forall id :: id in t.entities ==> t.entities[id].id == Some(id) && t.entities[id].data.Some?
  {
    if es != [] {
      LoadedIsKeyed(es[..|es|-1]);
      UpsertKeepsNoOrphans(Loaded(Table(map[], map[]), es[..|es|-1]), es[|es|-1]);
    }
  }
}
