/** A keyed store of documents or rows, the in-memory stand-in for a Mongo
    collection (backend), a Room table (Android) and a Core Data entity set
    (iOS). Rows keep their insertion order; the first row with a given id is
    the one every lookup sees. */
module Tables {
  import opened Common

  datatype Row<T> = Row(id: Id, val: T)

  predicate HasId<T>(rows: seq<Row<T>>, id: Id) {
    exists i :: 0 <= i < |rows| && rows[i].id == id
  }

  predicate UniqueIds<T>(rows: seq<Row<T>>) {
    forall i, j :: 0 <= i < j < |rows| ==> rows[i].id != rows[j].id
  }

  /** `findById`: the value of the first row with that id. */
  function Find<T>(rows: seq<Row<T>>, id: Id): (r: Option<T>)
    ensures r.Some? <==> HasId(rows, id)
    ensures r.Some? ==> Row(id, r.value) in rows
  {
    if rows == [] then None
    else if rows[0].id == id then Some(rows[0].val)
    else
      var r := Find(rows[1..], id);
      assert forall i :: 1 <= i < |rows| ==> rows[i] == rows[1..][i - 1];
      r
  }

  /** `save(doc)` / `@Insert(onConflict = REPLACE)`: replace the row with that
      id, or append a new row when there is none. */
  function Upsert<T>(rows: seq<Row<T>>, id: Id, v: T): (r: seq<Row<T>>)
    ensures HasId(rows, id) ==> |r| == |rows| && forall i :: 0 <= i < |rows| ==> r[i].id == rows[i].id
    ensures !HasId(rows, id) ==> r == rows + [Row(id, v)]
  {
    if rows == [] then [Row(id, v)]
    else if rows[0].id == id then [Row(id, v)] + rows[1..]
    else
      var r := [rows[0]] + Upsert(rows[1..], id, v);
      assert HasId(rows, id) <==> HasId(rows[1..], id) by {
        assert forall i :: 1 <= i < |rows| ==> rows[i] == rows[1..][i - 1];
      }
      r
  }

  /** Room `@Update`: rewrite the row whose primary key is `id`; when no row
      has that key nothing changes. */
  function UpdateExisting<T>(rows: seq<Row<T>>, id: Id, v: T): (r: seq<Row<T>>)
    ensures |r| == |rows|
    ensures forall i :: 0 <= i < |rows| ==> r[i].id == rows[i].id
    ensures !HasId(rows, id) ==> r == rows
    ensures HasId(rows, id) ==> Find(r, id) == Some(v)
    ensures forall other :: other != id ==> Find(r, other) == Find(rows, other)
    ensures UniqueIds(rows) ==>
              forall i :: 0 <= i < |rows| ==> r[i] == (if rows[i].id == id then Row(id, v) else rows[i])
  {
    if HasId(rows, id) then
      FindAfterUpsertEverywhere(rows, id, v);
      if UniqueIds(rows) then UpsertRowwise(rows, id, v); Upsert(rows, id, v) else Upsert(rows, id, v)
    else rows
  }

  /** `deleteById` / `@Query("DELETE … WHERE id = :id")` */
  function Remove<T>(rows: seq<Row<T>>, id: Id): (r: seq<Row<T>>)
    ensures !HasId(r, id)
    ensures forall i :: 0 <= i < |r| ==> r[i] in rows && r[i].id != id
    ensures forall i :: 0 <= i < |rows| && rows[i].id != id ==> rows[i] in r
  {
    if rows == [] then []
    else if rows[0].id == id then Remove(rows[1..], id)
    else [rows[0]] + Remove(rows[1..], id)
  }

  /** The rows whose value satisfies `p`, in table order. */
  function Select<T>(rows: seq<Row<T>>, p: T -> bool): (r: seq<Row<T>>)
    ensures |r| <= |rows|
    ensures forall i :: 0 <= i < |r| ==> r[i] in rows && p(r[i].val)
    ensures forall i :: 0 <= i < |rows| && p(rows[i].val) ==> rows[i] in r
  {
    if rows == [] then []
    else if p(rows[0].val) then [rows[0]] + Select(rows[1..], p)
    else Select(rows[1..], p)
  }

  /** Filtering a table none of whose values satisfies `p` gives nothing. */
  lemma {:induction false} SelectNone<T>(rows: seq<Row<T>>, p: T -> bool)
    requires forall i :: 0 <= i < |rows| ==> !p(rows[i].val)
    ensures Select(rows, p) == []
  {
    if rows != [] {
      SelectNone(rows[1..], p);
    }
  }

  /** Filtering by `p` and then by `q` is filtering once by a condition `pq`
      that holds exactly when both do. */
  lemma {:induction false} SelectSelect<T>(rows: seq<Row<T>>, p: T -> bool, q: T -> bool, pq: T -> bool)
    requires forall v :: pq(v) == (p(v) && q(v))
    ensures Select(Select(rows, p), q) == Select(rows, pq)
  {
    if rows != [] {
      SelectSelect(rows[1..], p, q, pq);
      if p(rows[0].val) {
        assert Select(rows, p) == [rows[0]] + Select(rows[1..], p);
        assert Select(rows, p)[1..] == Select(rows[1..], p);
      }
    }
  }

  /** Selecting from a list extended by one row. */
  lemma {:induction false} SelectSnoc<T>(rows: seq<Row<T>>, x: Row<T>, p: T -> bool)
    ensures Select(rows + [x], p) == Select(rows, p) + (if p(x.val) then [x] else [])
  {
    if rows == [] {
      assert rows + [x] == [x];
    } else {
      assert (rows + [x])[0] == rows[0] && (rows + [x])[1..] == rows[1..] + [x];
      SelectSnoc(rows[1..], x, p);
    }
  }


  /** Selection keeps rows in order, so it keeps ids distinct. */
  lemma {:induction false} SelectKeepsUniqueIds<T>(rows: seq<Row<T>>, p: T -> bool)
    requires UniqueIds(rows)
    ensures UniqueIds(Select(rows, p))
  {
    if rows != [] {
      SelectKeepsUniqueIds(rows[1..], p);
      var t := Select(rows[1..], p);
      assert forall i :: 0 <= i < |t| ==> t[i] in rows[1..];
    }
  }

  /** Looking an id up in a selection finds the stored value exactly when it
      satisfies the condition. */
  lemma {:induction false} FindInSelect<T>(rows: seq<Row<T>>, p: T -> bool, id: Id)
    requires UniqueIds(rows)
    ensures Find(Select(rows, p), id)
         == if Find(rows, id).Some? && p(Find(rows, id).value) then Find(rows, id) else None
  {
    if rows != [] {
      FindInSelect(rows[1..], p, id);
      if rows[0].id == id {
        assert !HasId(rows[1..], id);
        assert !HasId(Select(rows[1..], p), id) by {
          var t := Select(rows[1..], p);
          assert forall i :: 0 <= i < |t| ==> t[i] in rows[1..];
        }
      }
    }
  }

  function Values<T>(rows: seq<Row<T>>): (r: seq<T>)
    ensures |r| == |rows|
    ensures forall i :: 0 <= i < |rows| ==> r[i] == rows[i].val
  {
    if rows == [] then [] else [rows[0].val] + Values(rows[1..])
  }

  lemma ValuesAppend<T>(rows: seq<Row<T>>, more: seq<Row<T>>)
    ensures Values(rows + more) == Values(rows) + Values(more)
  {
    assert forall i :: 0 <= i < |rows| ==> (rows + more)[i] == rows[i];
    assert forall i :: |rows| <= i < |rows| + |more| ==> (rows + more)[i] == more[i - |rows|];
  }

  function Count<T>(rows: seq<Row<T>>, p: T -> bool): nat {
    |Select(rows, p)|
  }

  function MaxIdLength<T>(rows: seq<Row<T>>): (n: nat)
    ensures forall i :: 0 <= i < |rows| ==> |rows[i].id| <= n
  {
    if rows == [] then 0
    else
      var n := MaxIdLength(rows[1..]);
      assert forall i :: 1 <= i < |rows| ==> rows[i] == rows[1..][i - 1];
      Max(|rows[0].id|, n)
  }

  function Padding(n: nat): (s: string)
    ensures |s| == n
  {
    if n == 0 then "" else "#" + Padding(n - 1)
  }

  /** The id the store assigns to a new document (a Mongo ObjectId, a Room or
      Core Data key): one that no existing row carries. */
  function FreshId<T>(rows: seq<Row<T>>): (id: Id)
    ensures !HasId(rows, id)
  {
    Padding(MaxIdLength(rows) + 1)
  }

  lemma {:induction false} FindAfterUpsert<T>(rows: seq<Row<T>>, id: Id, v: T, other: Id)
    ensures Find(Upsert(rows, id, v), id) == Some(v)
    ensures other != id ==> Find(Upsert(rows, id, v), other) == Find(rows, other)
  {
    if rows != [] && rows[0].id != id {
      FindAfterUpsert(rows[1..], id, v, other);
    }
  }

  /** `FindAfterUpsert` for every other id at once. */
  lemma FindAfterUpsertEverywhere<T>(rows: seq<Row<T>>, id: Id, v: T)
    ensures Find(Upsert(rows, id, v), id) == Some(v)
    ensures forall other :: other != id ==> Find(Upsert(rows, id, v), other) == Find(rows, other)
  {
    FindAfterUpsert(rows, id, v, id);
    forall other | other != id
      ensures Find(Upsert(rows, id, v), other) == Find(rows, other)
    {
      FindAfterUpsert(rows, id, v, other);
    }
  }

  /** With unique ids, an upsert rewrites the row carrying its id and no
      other. */
  lemma {:induction false} UpsertRowwise<T>(rows: seq<Row<T>>, id: Id, v: T)
    requires UniqueIds(rows)
    ensures forall i :: 0 <= i < |rows| ==>
              Upsert(rows, id, v)[i] == (if rows[i].id == id then Row(id, v) else rows[i])
  {
    if rows != [] && rows[0].id != id {
      UpsertRowwise(rows[1..], id, v);
      var r := Upsert(rows, id, v);
      assert r == [rows[0]] + Upsert(rows[1..], id, v);
      forall i | 1 <= i < |rows|
        ensures r[i] == (if rows[i].id == id then Row(id, v) else rows[i])
      {
        assert r[i] == Upsert(rows[1..], id, v)[i - 1];
        assert rows[i] == rows[1..][i - 1];
      }
    }
  }

  /** Rewriting one existing row changes a count by what the old and the new
      value contribute. */
  lemma {:induction false} CountAfterUpsert<T>(rows: seq<Row<T>>, id: Id, v: T, p: T -> bool)
    requires UniqueIds(rows) && HasId(rows, id)
    ensures Count(Upsert(rows, id, v), p)
         == Count(rows, p) - (if p(Find(rows, id).value) then 1 else 0) + (if p(v) then 1 else 0)
  {
    var r := Upsert(rows, id, v);
    if rows[0].id == id {
      assert r[1..] == rows[1..];
    } else {
      assert HasId(rows[1..], id) by {
        var k :| 0 <= k < |rows| && rows[k].id == id;
        assert rows[1..][k - 1].id == id;
      }
      CountAfterUpsert(rows[1..], id, v, p);
      assert r[0] == rows[0] && r[1..] == Upsert(rows[1..], id, v);
    }
  }

  /** A second save under the same id overwrites the first. */
  lemma {:induction false} UpsertTwice<T>(rows: seq<Row<T>>, id: Id, v: T, w: T)
    ensures Upsert(Upsert(rows, id, v), id, w) == Upsert(rows, id, w)
  {
    if rows != [] && rows[0].id != id {
      UpsertTwice(rows[1..], id, v, w);
      assert Upsert(rows, id, v)[1..] == Upsert(rows[1..], id, v);
    }
  }

  /** Saving again the row just appended under a fresh id rewrites it in
      place. */
  lemma {:induction false} UpsertAppended<T>(rows: seq<Row<T>>, id: Id, v: T, w: T)
    requires !HasId(rows, id)
    ensures Upsert(rows + [Row(id, v)], id, w) == rows + [Row(id, w)]
  {
    UpsertTwice(rows, id, v, w);
  }

  lemma {:induction false} FindAfterRemove<T>(rows: seq<Row<T>>, id: Id, other: Id)
    ensures Find(Remove(rows, id), id) == None
    ensures other != id ==> Find(Remove(rows, id), other) == Find(rows, other)
  {
    if rows != [] {
      FindAfterRemove(rows[1..], id, other);
    }
  }

  /** A save keeps every id and adds the saved one. */
  lemma UpsertIds<T>(rows: seq<Row<T>>, id: Id, v: T)
    ensures forall x :: HasId(Upsert(rows, id, v), x) <==> HasId(rows, x) || x == id
  {
    var r := Upsert(rows, id, v);
    if HasId(rows, id) {
      forall x ensures HasId(r, x) <==> HasId(rows, x) {
        if HasId(r, x) {
          var i :| 0 <= i < |r| && r[i].id == x;
          assert rows[i].id == x;
        }
        if HasId(rows, x) {
          var i :| 0 <= i < |rows| && rows[i].id == x;
          assert r[i].id == x;
        }
      }
    } else {
      forall x ensures HasId(r, x) <==> HasId(rows, x) || x == id {
        if HasId(rows, x) {
          var i :| 0 <= i < |rows| && rows[i].id == x;
          assert r[i].id == x;
        }
        if x == id {
          assert r[|rows|].id == x;
        }
      }
    }
  }

  lemma UpsertKeepsUniqueIds<T>(rows: seq<Row<T>>, id: Id, v: T)
    requires UniqueIds(rows)
    ensures UniqueIds(Upsert(rows, id, v))
    ensures forall x :: HasId(Upsert(rows, id, v), x) <==> HasId(rows, x) || x == id
  {
    var r := Upsert(rows, id, v);
    UpsertIds(rows, id, v);
    if !HasId(rows, id) {
      assert r[|rows|].id == id;
    }
  }


  lemma {:induction false} RemoveKeepsUniqueIds<T>(rows: seq<Row<T>>, id: Id)
    requires UniqueIds(rows)
    ensures UniqueIds(Remove(rows, id))
  {
    if rows != [] {
      RemoveKeepsUniqueIds(rows[1..], id);
      var t := Remove(rows[1..], id);
      assert forall i :: 0 <= i < |t| ==> t[i] in rows[1..];
    }
  }

  /** A generic store whose rows the operations replace in place. */
  class Table<T> {
    var rows: seq<Row<T>>

    ghost predicate Valid()
      reads this
    {
      UniqueIds(rows)
    }

    constructor ()
      ensures Valid() && rows == []
    {
      rows := [];
    }

    method Get(id: Id) returns (r: Option<T>)
      ensures r == Find(rows, id)
    {
      r := Find(rows, id);
    }

    method Save(id: Id, v: T)
      requires Valid()
      modifies this
      ensures Valid()
      ensures rows == Upsert(old(rows), id, v)
    {
      UpsertKeepsUniqueIds(rows, id, v);
      rows := Upsert(rows, id, v);
    }

    /** Insert a new document under an id the store chooses. */
    method Insert(v: T) returns (id: Id)
      requires Valid()
      modifies this
      ensures Valid()
      ensures id == FreshId(old(rows)) && !HasId(old(rows), id)
      ensures rows == old(rows) + [Row(id, v)]
    {
      id := FreshId(rows);
      UpsertKeepsUniqueIds(rows, id, v);
      rows := Upsert(rows, id, v);
    }

    method Update(id: Id, v: T)
      requires Valid()
      modifies this
      ensures Valid()
      ensures rows == UpdateExisting(old(rows), id, v)
    {
      UpsertKeepsUniqueIds(rows, id, v);
      rows := UpdateExisting(rows, id, v);
    }

    method Delete(id: Id)
      requires Valid()
      modifies this
      ensures Valid()
      ensures rows == Remove(old(rows), id)
    {
      RemoveKeepsUniqueIds(rows, id);
      rows := Remove(rows, id);
    }
  }
}
