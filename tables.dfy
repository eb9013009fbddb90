// An in-memory stand-in for one database table: rows with integer primary
// keys, kept in insertion order, keys allocated from a counter.
module Tables {
  import opened Wrappers
  import opened Seqs

  datatype Row<R> = Row(id: int, rec: R)

  function RowId<R(!new)>(row: Row<R>): int
  {
    row.id
  }

  /** Keys are strictly increasing along the table, hence unique. */
  ghost predicate IdsIncreasing<R(!new)>(rows: seq<Row<R>>)
  {
    forall i, j :: 0 <= i < j < |rows| ==> rows[i].id < rows[j].id
  }

  /** `query.filter(Model.id == id).first()`. */
  function Lookup<R(!new)>(rows: seq<Row<R>>, id: int): (r: Option<R>)
    ensures r.Some? <==> exists i :: 0 <= i < |rows| && rows[i].id == id
    ensures r.Some? ==> Row(id, r.value) in rows
  {
    if |rows| == 0 then None
    else if rows[0].id == id then Some(rows[0].rec)
    else
      assert forall i :: 1 <= i < |rows| ==> rows[i] == rows[1..][i - 1];
      Lookup(rows[1..], id)
  }

  /** With unique keys, the lookup of a row's own key yields that row. */
  lemma {:induction false} LookupOfMember<R(!new)>(rows: seq<Row<R>>, i: int)
    requires IdsIncreasing(rows) && 0 <= i < |rows|
    ensures Lookup(rows, rows[i].id) == Some(rows[i].rec)
  {
    if i > 0 {
      assert rows[0].id < rows[i].id;
      assert rows[1..][i - 1] == rows[i];
      LookupOfMember(rows[1..], i - 1);
    }
  }

  /** A row appended under a new key is found, and other keys still find
      what they found before. */
  lemma {:induction false} LookupAppend<R(!new)>(rows: seq<Row<R>>, row: Row<R>, k: int)
    ensures Lookup(rows + [row], k) ==
      if Lookup(rows, k).Some? then Lookup(rows, k)
      else if row.id == k then Some(row.rec) else None
  {
    if |rows| > 0 {
      assert (rows + [row])[1..] == rows[1..] + [row];
      LookupAppend(rows[1..], row, k);
    }
  }

  /** Deleting a key leaves it unfindable and changes no other lookup. */
  lemma {:induction false} LookupAfterRemove<R(!new)>(rows: seq<Row<R>>, id: int, k: int)
    ensures Lookup(RemoveKey(rows, RowId, id), k) == if k == id then None else Lookup(rows, k)
  {
    if |rows| > 0 {
      LookupAfterRemove(rows[1..], id, k);
    }
  }

  /** Overwriting the row at a position keeps the key set and changes only
      the lookup of that row's key. */
  lemma {:induction false} LookupAfterReplace<R(!new)>(rows: seq<Row<R>>, i: int, rec: R, k: int)
    requires IdsIncreasing(rows) && 0 <= i < |rows|
    ensures Lookup(rows[i := Row(rows[i].id, rec)], k) ==
      if k == rows[i].id then Some(rec) else Lookup(rows, k)
  {
    var rows' := rows[i := Row(rows[i].id, rec)];
    if i == 0 {
      assert rows'[1..] == rows[1..];
    } else {
      assert rows'[1..] == rows[1..][i - 1 := Row(rows[i].id, rec)];
      assert rows[0].id < rows[i].id;
      LookupAfterReplace(rows[1..], i - 1, rec, k);
    }
  }

  /** `.offset(skip).limit(limit).all()` over the rows in key order. */
  function Page<R(!new)>(rows: seq<Row<R>>, skip: nat, limit: nat): (r: seq<R>)
    ensures |r| == if skip >= |rows| then 0 else if limit < |rows| - skip then limit else |rows| - skip
    ensures forall i :: 0 <= i < |r| ==> r[i] == rows[skip + i].rec
  {
    if skip >= |rows| then []
    else
      var n := if limit < |rows| - skip then limit else |rows| - skip;
      seq(n, i requires 0 <= i < n => rows[skip + i].rec)
  }

  class Table<R(!new)> {
    var rows: seq<Row<R>>
    var nextId: int

    ghost predicate Valid()
      reads this
    {
      nextId >= 1 && IdsIncreasing(rows)
      && forall i :: 0 <= i < |rows| ==> 1 <= rows[i].id < nextId
    }

    function Get(id: int): Option<R>
      reads this
    {
      Lookup(rows, id)
    }

    constructor ()
      ensures Valid() && rows == [] && nextId == 1
    {
      rows := [];
      nextId := 1;
    }

    /** `db.add(row); db.commit()`: the row is stored under a fresh key. */
    method Insert(rec: R) returns (id: int)
      requires Valid()
      modifies this
      ensures Valid()
      ensures id == old(nextId) && nextId == id + 1
      ensures old(Get(id)).None?
      ensures rows == old(rows) + [Row(id, rec)]
      ensures Get(id) == Some(rec)
      ensures forall k :: k != id ==> Get(k) == old(Get(k))
    {
      id := nextId;
      forall k ensures Lookup(rows + [Row(id, rec)], k) == if k == id then Some(rec) else Lookup(rows, k) {
        LookupAppend(rows, Row(id, rec), k);
      }
      rows := rows + [Row(id, rec)];
      nextId := nextId + 1;
    }

    /** Overwrite the stored record under an existing key. */
    method Replace(id: int, rec: R)
      requires Valid() && Get(id).Some?
      modifies this
      ensures Valid() && nextId == old(nextId)
      ensures Get(id) == Some(rec)
      ensures forall k :: k != id ==> Get(k) == old(Get(k))
    {
      var i := FindIndex(rows, RowId, id);
      forall k ensures Lookup(rows[i := Row(id, rec)], k) == if k == id then Some(rec) else Lookup(rows, k) {
        LookupAfterReplace(rows, i, rec, k);
      }
      rows := rows[i := Row(id, rec)];
    }

    /** `db.delete(row); db.commit()`. */
    method Delete(id: int)
      requires Valid()
      modifies this
      ensures Valid() && nextId == old(nextId)
      ensures rows == RemoveKey(old(rows), RowId, id)
      ensures Get(id) == None
      ensures forall k :: k != id ==> Get(k) == old(Get(k))
    {
      forall k ensures Lookup(RemoveKey(rows, RowId, id), k) == if k == id then None else Lookup(rows, k) {
        LookupAfterRemove(rows, id, k);
      }
      RemoveKeySubsequence(rows, id);
      var kept := RemoveKey(rows, RowId, id);
      forall i | 0 <= i < |kept| ensures 1 <= kept[i].id < nextId {
        assert kept[i] in rows;
      }
      rows := kept;
    }
  }

  /** Filtering keeps keys increasing and within their old bounds. */
  lemma {:induction false} RemoveKeySubsequence<R(!new)>(rows: seq<Row<R>>, id: int)
    requires IdsIncreasing(rows)
    ensures IdsIncreasing(RemoveKey(rows, RowId, id))
  {
    if |rows| > 0 {
      RemoveKeySubsequence(rows[1..], id);
      var tail := RemoveKey(rows[1..], RowId, id);
      forall x | x in tail ensures rows[0].id < x.id {
        assert x in rows[1..];
      }
    }
  }
}
