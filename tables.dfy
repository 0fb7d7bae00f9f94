/** A JPA table as the services see it through Spring Data's `JpaRepository`:
    rows in insertion order, each with a generated integer primary key, and the
    inherited `findOne`, `save`, `delete` and `deleteAll` operations. */
module Tables {
  import opened Common

  /** A stored entity: its primary key and its other columns. */
  datatype Row<T> = Row(id: int, data: T)

  /** No two rows share a key, and every key is below the next one to be generated. */
  predicate Keyed<T>(rows: seq<Row<T>>, nextId: int)
  {
    (forall i, j :: 0 <= i < j < |rows| ==> rows[i].id != rows[j].id)
    && (forall i :: 0 <= i < |rows| ==> rows[i].id < nextId)
  }

  predicate HasId<T>(rows: seq<Row<T>>, id: int)
  {
    exists i :: 0 <= i < |rows| && rows[i].id == id
  }

  /** The index of the first row with key `id`, or -1. */
  function Position<T>(rows: seq<Row<T>>, id: int): (k: int)
    ensures -1 <= k < |rows|
    ensures k >= 0 ==> rows[k].id == id
    ensures k < 0 <==> !HasId(rows, id)
  {
    if |rows| == 0 then -1
    else if rows[0].id == id then 0
    else
      var k := Position(rows[1..], id);
      assert forall i :: 1 <= i < |rows| ==> rows[i] == rows[1..][i - 1];
      if k < 0 then -1 else k + 1
  }

  /** `findOne(id)`: the entity with that key, or null. */
  function FindOne<T>(rows: seq<Row<T>>, id: int): Option<T>
  {
    var k := Position(rows, id);
    if k < 0 then None else Some(rows[k].data)
  }

  /** In a keyed table `findOne` answers exactly the stored row with that key. */
  lemma FindOneStored<T>(rows: seq<Row<T>>, nextId: int, id: int, data: T)
    requires Keyed(rows, nextId)
    ensures FindOne(rows, id) == Some(data) <==> Row(id, data) in rows
    ensures FindOne(rows, id) == None <==> !HasId(rows, id)
  {
  }

  /** What `save` leaves behind: the new table, the next key, and the stored row. */
  datatype Saved<T> = Saved(rows: seq<Row<T>>, nextId: int, row: Row<T>)

  /** `save(entity)`: an entity whose key is stored replaces that row in place
      (a merge); any other entity, also one with a key that is not stored, is
      appended under a freshly generated key (a persist). */
  function Save<T>(rows: seq<Row<T>>, nextId: int, id: Option<int>, data: T): (s: Saved<T>)
    requires Keyed(rows, nextId)
    ensures Keyed(s.rows, s.nextId)
    ensures s.row.data == data && s.row in s.rows
    ensures id.Some? && HasId(rows, id.value) ==>
      s.row.id == id.value && s.nextId == nextId && |s.rows| == |rows|
      && forall i :: 0 <= i < |rows| ==> s.rows[i] == if rows[i].id == id.value then s.row else rows[i]
    ensures !(id.Some? && HasId(rows, id.value)) ==>
      s.row.id == nextId && !HasId(rows, nextId) && s.rows == rows + [s.row] && s.nextId == nextId + 1
  {
    var k := if id.Some? then Position(rows, id.value) else -1;
    if k >= 0 then
      var row := Row(id.value, data);
      assert rows[k := row][k] == row;
      Saved(rows[k := row], nextId, row)
    else
      Saved(rows + [Row(nextId, data)], nextId + 1, Row(nextId, data))
  }

  /** After a save, `findOne` of the saved key answers the saved data and
      every other key answers what it did before. */
  lemma {:induction false} FindAfterSave<T>(rows: seq<Row<T>>, nextId: int, id: Option<int>, data: T, other: int)
    requires Keyed(rows, nextId)
    ensures FindOne(Save(rows, nextId, id, data).rows, Save(rows, nextId, id, data).row.id) == Some(data)
    ensures other != Save(rows, nextId, id, data).row.id ==>
      FindOne(Save(rows, nextId, id, data).rows, other) == FindOne(rows, other)
  {
    var s := Save(rows, nextId, id, data);
    FindOneStored(s.rows, s.nextId, s.row.id, data);
    if other != s.row.id {
      match FindOne(rows, other)
      case None =>
        FindOneStored(rows, nextId, other, data);
        forall i | 0 <= i < |s.rows| ensures s.rows[i].id != other {
          if i < |rows| {
            assert rows[i].id != other;
          }
        }
        FindOneStored(s.rows, s.nextId, other, data);
      case Some(d) =>
        FindOneStored(rows, nextId, other, d);
        var i :| 0 <= i < |rows| && rows[i] == Row(other, d);
        assert s.rows[i] == Row(other, d);
        FindOneStored(s.rows, s.nextId, other, d);
    }
  }

  /** What `findOne(id)`, replacing every column and `save` leave behind: the
      row with key `id` takes the update's columns under the same key; with
      no such row the null lookup is dereferenced. */
  function Updated<T>(rows: seq<Row<T>>, nextId: int, id: int, update: T): (r: Result<seq<Row<T>>>)
    requires Keyed(rows, nextId)
    ensures r.Failure? <==> !HasId(rows, id)
    ensures r.Failure? ==> r.error == NullPointerException
  {
    if FindOne(rows, id).None? then Failure(NullPointerException)
    else Success(Save(rows, nextId, Some(id), update).rows)
  }

  /** After an update the key answers the new columns,
      every other key answers what it did before, and no key is added. */
  lemma UpdateReplacesOnly<T>(rows: seq<Row<T>>, nextId: int, id: int, update: T, other: int)
    requires Keyed(rows, nextId) && HasId(rows, id)
    ensures Keyed(Updated(rows, nextId, id, update).value, nextId)
    ensures FindOne(Updated(rows, nextId, id, update).value, id) == Some(update)
    ensures other != id ==> FindOne(Updated(rows, nextId, id, update).value, other) == FindOne(rows, other)
    ensures |Updated(rows, nextId, id, update).value| == |rows|
  {
    FindAfterSave(rows, nextId, Some(id), update, other);
  }

  /** Keeps the rows whose key is not `id`. */
  function KeyIsNot<T>(id: int): Row<T> -> bool
  {
    (r: Row<T>) => r.id != id
  }

  /** `delete(id)`: removes the row with that key; Spring Data JPA 1.x throws
      EmptyResultDataAccessException when there is none. */
  function Delete<T>(rows: seq<Row<T>>, id: int): (r: Result<seq<Row<T>>>)
    ensures r.Success? <==> HasId(rows, id)
  {
    if Position(rows, id) < 0 then Failure(EmptyResultDataAccessException)
    else Success(Filter(rows, KeyIsNot(id)))
  }

  /** Removing rows keeps the table keyed. */
  lemma {:induction false} FilterKeyed<T>(rows: seq<Row<T>>, nextId: int, keep: Row<T> -> bool)
    requires Keyed(rows, nextId)
    ensures Keyed(Filter(rows, keep), nextId)
  {
    if |rows| > 0 {
      var init := rows[..|rows| - 1];
      FilterKeyed(init, nextId, keep);
      FilterElements(init, keep);
      var f := Filter(init, keep);
      forall i | 0 <= i < |f| ensures f[i].id != rows[|rows| - 1].id && f[i].id < nextId {
        var j :| 0 <= j < |init| && init[j] == f[i];
        assert init[j] == rows[j];
      }
    }
  }

  /** A successful delete removes exactly the row with that key: the table
      stays keyed, `findOne(id)` is null afterwards, and every other key
      answers what it did before. */
  lemma DeleteRemovesOnly<T>(rows: seq<Row<T>>, nextId: int, id: int, other: int)
    requires Keyed(rows, nextId) && HasId(rows, id)
    ensures Keyed(Delete(rows, id).value, nextId)
    ensures FindOne(Delete(rows, id).value, id) == None
    ensures other != id ==> FindOne(Delete(rows, id).value, other) == FindOne(rows, other)
  {
    var after := Delete(rows, id).value;
    FilterKeyed(rows, nextId, KeyIsNot(id));
    FilterMembers(rows, KeyIsNot(id));
    FilterElements(rows, KeyIsNot(id));
    if other != id {
      match FindOne(rows, other)
      case None =>
        forall i | 0 <= i < |after| ensures after[i].id != other {
          var j :| 0 <= j < |rows| && rows[j] == after[i];
        }
      case Some(d) =>
        FindOneStored(rows, nextId, other, d);
        FindOneStored(after, nextId, other, d);
    }
  }

  /** The rows that satisfy `keep`, gathered by one pass over the table, as a
      derived `deleteAllBy...` query leaves it. */
  method RetainWhere<T>(rows: seq<Row<T>>, keep: Row<T> -> bool) returns (kept: seq<Row<T>>)
    ensures kept == Filter(rows, keep)
  {
    kept := [];
    var i := 0;
    while i < |rows|
      invariant 0 <= i <= |rows|
      invariant kept == Filter(rows[..i], keep)
    {
      assert rows[..i + 1][..i] == rows[..i];
      if keep(rows[i]) {
        kept := kept + [rows[i]];
      }
      i := i + 1;
    }
    assert rows[..|rows|] == rows;
  }

  /** The rows whose owner column, read by `owner`, is `a` (a derived `findAllBy...` query). */
  function Owned<T>(owner: T -> Option<int>, a: Option<int>): Row<T> -> bool
  {
    (r: Row<T>) => owner(r.data) == a
  }

  function NotOwned<T>(owner: T -> Option<int>, a: Option<int>): Row<T> -> bool
  {
    (r: Row<T>) => owner(r.data) != a
  }

  /** After removing the rows owned by `a`, querying `a` finds nothing and
      querying any other owner finds exactly what it found before, in the
      same order. */
  lemma {:induction false} PurgeOwner<T>(rows: seq<Row<T>>, owner: T -> Option<int>, a: Option<int>, b: Option<int>)
    ensures Filter(Filter(rows, NotOwned(owner, a)), Owned(owner, a)) == []
    ensures b != a ==> Filter(Filter(rows, NotOwned(owner, a)), Owned(owner, b)) == Filter(rows, Owned(owner, b))
  {
    var kept := Filter(rows, NotOwned(owner, a));
    FilterElements(rows, NotOwned(owner, a));
    forall x | x in kept ensures !Owned(owner, a)(x) {
      var i :| 0 <= i < |kept| && kept[i] == x;
    }
    FilterNone(kept, Owned(owner, a));
    if b != a {
      FilterNarrow(rows, NotOwned(owner, a), Owned(owner, b));
    }
  }
}
