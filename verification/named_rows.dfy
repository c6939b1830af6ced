/** Tables whose `name` column is UNIQUE, and the loop that inserts a list of rows under fresh ids. */
module NamedRows {
  import opened Wrappers
  import opened ConfigEntities

  type Rows<D> = map<EntityId, Named<D>>

  ghost predicate Unique<D>(rows: Rows<D>) {
    forall i, j :: i in rows && j in rows && rows[i].name == rows[j].name ==> i == j
  }

  predicate Taken<D>(rows: Rows<D>, name: string) {
    exists id :: id in rows && rows[id].name == name
  }

  /** An INSERT under a fresh id; the UNIQUE index refuses a name in use. */
  method Insert<D>(rows: Rows<D>, id: EntityId, row: Named<D>) returns (inserted: Option<Rows<D>>)
    requires id !in rows
    ensures inserted.None? <==> Taken(rows, row.name)
    ensures inserted.Some? ==> inserted.value == rows[id := row]
  {
    if Taken(rows, row.name) {
      return None;
    }
    return Some(rows[id := row]);
  }

  function AtOffset<D>(more: seq<Named<D>>, base: EntityId, id: EntityId): Named<D>
    requires base <= id < base + |more|
  {
    more[id - base]
  }

  /** The table with the list behind it, one id after the other. */
  function Appended<D>(rows: Rows<D>, more: seq<Named<D>>, base: EntityId): Rows<D> {
    rows + (map id | base <= id < base + |more| :: AtOffset(more, base, id))
  }

  /** None of the names is taken, by the table or by an earlier one. */
  predicate Insertable<D>(rows: Rows<D>, more: seq<Named<D>>) {
    && (forall k :: 0 <= k < |more| ==> !Taken(rows, more[k].name))
    && (forall j, k :: 0 <= j < k < |more| ==> more[j].name != more[k].name)
  }

  predicate Below<D>(rows: Rows<D>, base: EntityId) {
    forall id :: id in rows ==> id < base
  }

  lemma AppendedKeepsUnique<D>(rows: Rows<D>, more: seq<Named<D>>, base: EntityId)
    requires Unique(rows) && Below(rows, base) && Insertable(rows, more)
    ensures Unique(Appended(rows, more, base)) && Below(Appended(rows, more, base), base + |more|)
  {
  }

  /** One more row can be inserted exactly when its name is not taken so far. */
  lemma InsertableOneMore<D>(rows: Rows<D>, done: seq<Named<D>>, row: Named<D>, base: EntityId)
    requires Below(rows, base) && Insertable(rows, done)
    ensures Insertable(rows, done + [row]) <==> !Taken(Appended(rows, done, base), row.name)
  {
    var all := Appended(rows, done, base);
    var more := done + [row];
    if Taken(all, row.name) {
      var id :| id in all && all[id].name == row.name;
      if id >= base {
        assert more[id - base].name == more[|done|].name;
      } else {
        assert Taken(rows, more[|done|].name);
      }
    } else {
      forall id | id in rows
        ensures rows[id].name != row.name
      {
        assert id in all && all[id] == rows[id];
      }
      forall j | 0 <= j < |done|
        ensures more[j].name != row.name
      {
        assert base + j in all && all[base + j] == done[j];
      }
    }
  }

  lemma AppendedOneMore<D>(rows: Rows<D>, done: seq<Named<D>>, row: Named<D>, base: EntityId)
    ensures Appended(rows, done + [row], base) == Appended(rows, done, base)[base + |done| := row]
  {
  }

  lemma InsertablePrefix<D>(rows: Rows<D>, more: seq<Named<D>>, n: nat)
    requires n <= |more| && Insertable(rows, more)
    ensures Insertable(rows, more[..n])
  {
  }

  /** Every item of a list could be turned into a row. */
  predicate AllReady<D>(made: seq<Option<Named<D>>>) {
    forall k :: 0 <= k < |made| ==> made[k].Some?
  }

  function RowsOf<D>(made: seq<Option<Named<D>>>): (rows: seq<Named<D>>)
    requires AllReady(made)
    ensures |rows| == |made|
  {
    seq(|made|, k requires 0 <= k < |made| => made[k].value)
  }

  predicate CanInsertAll<D>(rows: Rows<D>, made: seq<Option<Named<D>>>) {
    AllReady(made) && Insertable(rows, RowsOf(made))
  }

  /** A refused item is one with which the list as a whole cannot be inserted. */
  lemma RefusedForGood<D>(rows: Rows<D>, made: seq<Option<Named<D>>>, done: seq<Named<D>>, row: Named<D>)
    requires |done| < |made| && made[|done|] == Some(row)
    requires forall k :: 0 <= k < |done| ==> made[k] == Some(done[k])
    requires !Insertable(rows, done + [row])
    ensures !CanInsertAll(rows, made)
  {
    if AllReady(made) {
      var all := RowsOf(made);
      assert all[..|done| + 1] == done + [row];
      if Insertable(rows, all) {
        InsertablePrefix(rows, all, |done| + 1);
      }
    }
  }

  /** The loop of an import: each row is inserted in turn, and the first failure ends it. */
  method InsertAll<D>(rows: Rows<D>, made: seq<Option<Named<D>>>, base: EntityId) returns (inserted: Option<Rows<D>>)
    requires Below(rows, base)
    ensures inserted.Some? <==> CanInsertAll(rows, made)
    ensures inserted.Some? ==> inserted.value == Appended(rows, RowsOf(made), base)
    ensures inserted.Some? && Unique(rows) ==> Unique(inserted.value) && Below(inserted.value, base + |made|)
  {
    var table := rows;
    ghost var done: seq<Named<D>> := [];
    var i := 0;
    while i < |made|
      invariant 0 <= i <= |made| && |done| == i
      invariant forall k :: 0 <= k < i ==> made[k] == Some(done[k])
      invariant Insertable(rows, done) && table == Appended(rows, done, base)
    {
      if made[i].None? {
        return None;
      }
      InsertableOneMore(rows, done, made[i].value, base);
      AppendedOneMore(rows, done, made[i].value, base);
      var next := Insert(table, base + i, made[i].value);
      if next.None? {
        RefusedForGood(rows, made, done, made[i].value);
        return None;
      }
      table := next.value;
      done := done + [made[i].value];
      i := i + 1;
    }
    assert AllReady(made) && RowsOf(made) == done;
    if Unique(rows) {
      AppendedKeepsUnique(rows, done, base);
    }
    return Some(table);
  }
}
