/** The Android client's `OfflineBudgetRepository` and
    `OfflineCategoryRepository`. The two classes are the same state machine
    over different Room tables: create, update and delete try the server when
    the device is connected and fall back to the local table, a sync loop
    posts the rows flagged for sync, and a refresh replaces a family's rows
    by the server's list. They are modelled once, as a repository generic in
    the domain type `D`, the request type `Req` and the entity's own fields
    `E`; the conversions between them are given functions. */
module AndroidOfflineRepositories {
  import opened Common
  import opened Tables
  import Ledger = AndroidOfflineLedger

  type ApiResponse<T> = Ledger.ApiResponse<T>

  /** A row value of the budget or category table: the entity's own fields
      and its two sync flags. */
  datatype Local<E> = Local(fields: E, isOnline: bool, needsSync: bool)

  predicate IsPending<E>(v: Local<E>) {
    v.needsSync
  }

  /** The conversions the repositories call: the server object's id and its
      entity fields, a request's entity fields, the request a stored entity
      is posted as (`None` when building it throws), the domain object of a
      row, and an entity's family. */
  datatype Conversions<!D, !Req, !E> = Conversions(
    idOf: D -> Id,
    toFields: D -> E,
    requestFields: Req -> E,
    toCreateRequest: E -> Option<Req>,
    toDomain: Row<E> -> D,
    familyOf: E -> Id)

  /** The server's copy as stored locally: online and synced. */
  function Online<D, Req, E>(conv: Conversions<D, Req, E>, d: D): Local<E> {
    Local(conv.toFields(d), true, false)
  }

  /** The row written when the server cannot be used: the request's fields,
      not online, flagged for sync. */
  function Offline<D, Req, E>(conv: Conversions<D, Req, E>, request: Req): Local<E> {
    Local(conv.requestFields(request), false, true)
  }

  // ---- synchronisation ----------------------------------------------------

  /** The row was posted and the server's copy came back. */
  predicate Accepted<D, Req, E>(conv: Conversions<D, Req, E>, row: Row<Local<E>>, response: ApiResponse<D>) {
    conv.toCreateRequest(row.val.fields).Some? && Ledger.Delivered(true, response)
  }

  /** One pass of the sync loop as written: on success a primary-key
      `@Update` of the row under the server's id, which changes nothing
      unless a row with that id already exists. */
  function SyncStepAsWritten<D, Req, E>(conv: Conversions<D, Req, E>, rows: seq<Row<Local<E>>>, row: Row<Local<E>>,
                                        response: ApiResponse<D>): (r: seq<Row<Local<E>>>)
    ensures |r| == |rows| && forall i :: 0 <= i < |rows| ==> r[i].id == rows[i].id
  {
    if Accepted(conv, row, response) then
      UpdateExisting(rows, conv.idOf(response.body.value), row.val.(isOnline := true, needsSync := false))
    else rows
  }

  /** As written, a budget or category the server accepts under an id that
      names no local row stays in the table unchanged and flagged for sync,
      and the server copy is not stored: the next sync posts it again. */
  lemma SyncAsWrittenKeepsLocalRow<D, Req, E>(conv: Conversions<D, Req, E>, rows: seq<Row<Local<E>>>,
                                              row: Row<Local<E>>, response: ApiResponse<D>)
    requires Accepted(conv, row, response) && !HasId(rows, conv.idOf(response.body.value))
    ensures SyncStepAsWritten(conv, rows, row, response) == rows
    ensures !HasId(SyncStepAsWritten(conv, rows, row, response), conv.idOf(response.body.value))
  {
  }

  /** One pass of the sync loop as intended: on success the local row is
      deleted and the server copy inserted, online and synced. */
  function SyncStep<D, Req, E>(conv: Conversions<D, Req, E>, rows: seq<Row<Local<E>>>, row: Row<Local<E>>,
                               response: ApiResponse<D>): seq<Row<Local<E>>>
  {
    if Accepted(conv, row, response) then
      Upsert(Remove(rows, row.id), conv.idOf(response.body.value), row.val.(isOnline := true, needsSync := false))
    else rows
  }

  /** The intended sync loop over `pending`, the `k`-th row meeting the
      `k`-th answer. */
  function SyncAll<D, Req, E>(conv: Conversions<D, Req, E>, rows: seq<Row<Local<E>>>, pending: seq<Row<Local<E>>>,
                              respond: nat -> ApiResponse<D>): (r: seq<Row<Local<E>>>)
    ensures forall x :: x in r ==> x in rows || (x.val.isOnline && !x.val.needsSync)
  {
    if pending == [] then rows
    else
      var n := |pending| - 1;
      var before := SyncAll(conv, rows, pending[..n], respond);
      SyncStepNewRows(conv, before, pending[n], respond(n));
      SyncStep(conv, before, pending[n], respond(n))
  }

  /** A sync step adds no row but the synced server copy. */
  lemma SyncStepNewRows<D, Req, E>(conv: Conversions<D, Req, E>, rows: seq<Row<Local<E>>>, row: Row<Local<E>>,
                                   response: ApiResponse<D>)
    ensures forall x :: x in SyncStep(conv, rows, row, response) ==> x in rows || (x.val.isOnline && !x.val.needsSync)
  {
    if Accepted(conv, row, response) {
      var synced := row.val.(isOnline := true, needsSync := false);
      forall x | x in SyncStep(conv, rows, row, response) ensures x in rows || (x.val.isOnline && !x.val.needsSync) {
        Ledger.UpsertMembers(Remove(rows, row.id), conv.idOf(response.body.value), synced, x);
        if x != Row(conv.idOf(response.body.value), synced) {
          Ledger.RemoveMembers(rows, row.id, x);
        }
      }
    }
  }

  lemma SyncStepPendingRows<D, Req, E>(conv: Conversions<D, Req, E>, rows: seq<Row<Local<E>>>, row: Row<Local<E>>,
                                       response: ApiResponse<D>, r: Row<Local<E>>)
    requires r in SyncStep(conv, rows, row, response) && IsPending(r.val)
    ensures r in rows && (Accepted(conv, row, response) ==> r.id != row.id)
  {
    if Accepted(conv, row, response) {
      var synced := row.val.(isOnline := true, needsSync := false);
      Ledger.UpsertMembers(Remove(rows, row.id), conv.idOf(response.body.value), synced, r);
      Ledger.RemoveMembers(rows, row.id, r);
    }
  }

  /** A failure on one row does not stop the loop or touch other rows: every
      row still flagged for sync afterwards was in the table before, and if
      the loop visited it, the server did not accept it. */
  lemma {:induction false} SyncAllLeavesOnlyFailures<D, Req, E>(conv: Conversions<D, Req, E>, rows: seq<Row<Local<E>>>,
                                                                pending: seq<Row<Local<E>>>, respond: nat -> ApiResponse<D>)
    ensures forall r :: r in SyncAll(conv, rows, pending, respond) && IsPending(r.val) ==>
              r in rows && forall k :: 0 <= k < |pending| && pending[k].id == r.id ==> !Accepted(conv, pending[k], respond(k))
  {
    if pending != [] {
      var n := |pending| - 1;
      var before := SyncAll(conv, rows, pending[..n], respond);
      SyncAllLeavesOnlyFailures(conv, rows, pending[..n], respond);
      forall r | r in SyncStep(conv, before, pending[n], respond(n)) && IsPending(r.val)
        ensures r in rows && forall k :: 0 <= k < |pending| && pending[k].id == r.id ==> !Accepted(conv, pending[k], respond(k))
      {
        SyncStepPendingRows(conv, before, pending[n], respond(n), r);
        assert forall k :: 0 <= k < n ==> pending[..n][k] == pending[k];
      }
    }
  }

  // ---- refresh ------------------------------------------------------------

  /** `insert…s(entities)` with REPLACE: the server objects upserted one by
      one, online and synced. */
  function InsertAll<D, Req, E>(conv: Conversions<D, Req, E>, rows: seq<Row<Local<E>>>, items: seq<D>)
    : (r: seq<Row<Local<E>>>)
    ensures |rows| <= |r| <= |rows| + |items|
    ensures forall i :: 0 <= i < |rows| ==> r[i].id == rows[i].id
    ensures forall x :: x in r ==> x in rows || (x.val.isOnline && !x.val.needsSync)
  {
    if items == [] then rows
    else
      var n := |items| - 1;
      var before := InsertAll(conv, rows, items[..n]);
      var online := Online(conv, items[n]);
      assert forall x :: x in Upsert(before, conv.idOf(items[n]), online) ==> x in before || x == Row(conv.idOf(items[n]), online) by {
        forall x | x in Upsert(before, conv.idOf(items[n]), online) {
          Ledger.UpsertMembers(before, conv.idOf(items[n]), online, x);
        }
      }
      Upsert(before, conv.idOf(items[n]), online)
  }

  /** What a successful `refreshFromAPI` leaves: the rows of other families,
      then the server's list. */
  function Refreshed<D, Req, E>(conv: Conversions<D, Req, E>, rows: seq<Row<Local<E>>>, familyId: Id, items: seq<D>)
    : (r: seq<Row<Local<E>>>)
    ensures forall x :: x in r ==> (x in rows && conv.familyOf(x.val.fields) != familyId) || (x.val.isOnline && !x.val.needsSync)
  {
    InsertAll(conv, Select(rows, (v: Local<E>) => conv.familyOf(v.fields) != familyId), items)
  }

  /** Every server object is in the table afterwards, and every row is
      either a row of another family that was there before or the online,
      synced copy of a server object: the family's pending rows are gone. */
  lemma {:induction false} InsertAllShape<D, Req, E>(conv: Conversions<D, Req, E>, rows: seq<Row<Local<E>>>, items: seq<D>)
    ensures forall i :: 0 <= i < |items| ==> HasId(InsertAll(conv, rows, items), conv.idOf(items[i]))
    ensures forall r :: r in InsertAll(conv, rows, items) ==>
              r in rows || exists i :: 0 <= i < |items| && r == Row(conv.idOf(items[i]), Online(conv, items[i]))
  {
    if items != [] {
      var n := |items| - 1;
      var before := InsertAll(conv, rows, items[..n]);
      InsertAllShape(conv, rows, items[..n]);
      var after := Upsert(before, conv.idOf(items[n]), Online(conv, items[n]));
      UpsertIds(before, conv.idOf(items[n]), Online(conv, items[n]));
      forall i | 0 <= i < |items|
        ensures HasId(after, conv.idOf(items[i]))
      {
        if i < n {
          assert items[..n][i] == items[i];
        }
      }
      forall r | r in after
        ensures r in rows || exists i :: 0 <= i < |items| && r == Row(conv.idOf(items[i]), Online(conv, items[i]))
      {
        Ledger.UpsertMembers(before, conv.idOf(items[n]), Online(conv, items[n]), r);
        if r in before && r !in rows {
          var i :| 0 <= i < |items[..n]| && r == Row(conv.idOf(items[..n][i]), Online(conv, items[..n][i]));
          assert items[..n][i] == items[i];
        }
      }
    }
  }

  /** After a successful refresh, every row of the family is the online,
      synced copy of an object in the server's list, and every object of the
      list is stored. */
  lemma RefreshReplacesFamily<D, Req, E>(conv: Conversions<D, Req, E>, rows: seq<Row<Local<E>>>, familyId: Id,
                                         items: seq<D>)
    ensures forall i :: 0 <= i < |items| ==> HasId(Refreshed(conv, rows, familyId, items), conv.idOf(items[i]))
    ensures forall r :: r in Refreshed(conv, rows, familyId, items) && conv.familyOf(r.val.fields) == familyId ==>
              exists i :: 0 <= i < |items| && r == Row(conv.idOf(items[i]), Online(conv, items[i]))
  {
    var others := Select(rows, (v: Local<E>) => conv.familyOf(v.fields) != familyId);
    InsertAllShape(conv, others, items);
  }

  // ---- the repositories ---------------------------------------------------

  /** The Room row fields of `CategoryEntity`. */
  datatype CategoryFields = CategoryFields(familyId: Id, name: string, icon: string, color: string,
                                           txType: string, archived: bool)

  /** The Room row fields of `BudgetEntity`; the alert threshold is a
      `Double`, carried as a real number. */
  datatype BudgetFields = BudgetFields(familyId: Id, name: string, overallLimitMinor: int, periodType: string,
                                       periodStart: int, periodEnd: int, alertThresholdPct: real,
                                       includeRecurring: bool)

  const BudgetDeleteFailure := "Failed to delete budget: "
  const CategoryDeleteFailure := "Failed to delete category: "

  /** `getCategories`: the family's categories that are not archived. */
  function GetCategories(rows: seq<Row<Local<CategoryFields>>>, familyId: Id): (r: seq<Row<Local<CategoryFields>>>)
    ensures forall i :: 0 <= i < |r| ==> r[i] in rows && r[i].val.fields.familyId == familyId && !r[i].val.fields.archived
    ensures forall i :: 0 <= i < |rows| && rows[i].val.fields.familyId == familyId && !rows[i].val.fields.archived
              ==> rows[i] in r
  {
    Select(rows, (v: Local<CategoryFields>) => v.fields.familyId == familyId && !v.fields.archived)
  }

  /** `getBudgets`: the family's budgets. */
  function GetBudgets(rows: seq<Row<Local<BudgetFields>>>, familyId: Id): (r: seq<Row<Local<BudgetFields>>>)
    ensures forall i :: 0 <= i < |r| ==> r[i] in rows && r[i].val.fields.familyId == familyId
    ensures forall i :: 0 <= i < |rows| && rows[i].val.fields.familyId == familyId ==> rows[i] in r
  {
    Select(rows, (v: Local<BudgetFields>) => v.fields.familyId == familyId)
  }

  /** `OfflineBudgetRepository` (`E` = `BudgetFields`) and
      `OfflineCategoryRepository` (`E` = `CategoryFields`). */
  class OfflineRepository<D, Req, E> {
    const dao: Table<Local<E>>
    const conv: Conversions<D, Req, E>
    /** The prefix of the error of an unsuccessful delete. */
    const deleteFailure: string

    ghost predicate Valid()
      reads this, dao
    {
      dao.Valid()
    }

    constructor (dao: Table<Local<E>>, conv: Conversions<D, Req, E>, deleteFailure: string)
      ensures this.dao == dao && this.conv == conv && this.deleteFailure == deleteFailure
    {
      this.dao := dao;
      this.conv := conv;
      this.deleteFailure := deleteFailure;
    }

    /** `createBudget` / `createCategory`: always a success. A delivered
        server copy is stored online and synced; otherwise the request is
        stored under a fresh "local_" id, flagged for sync. */
    method Create(request: Req, connected: bool, response: ApiResponse<D>, nowMs: nat, random: int)
      returns (r: Result<D>)
      requires Valid() && 1000 <= random <= 9999
      modifies dao
      ensures Valid() && r.Ok?
      ensures Ledger.Delivered(connected, response) ==>
                r.value == response.body.value
                && dao.rows == Upsert(old(dao.rows), conv.idOf(response.body.value), Online(conv, response.body.value))
      ensures !Ledger.Delivered(connected, response) ==>
                var id := Ledger.LocalId(nowMs, random);
                dao.rows == Upsert(old(dao.rows), id, Offline(conv, request))
                && r.value == conv.toDomain(Row(id, conv.requestFields(request)))
    {
      if connected && response.Answered? && response.isSuccessful && response.body.Some? {
        var d := response.body.value;
        dao.Save(conv.idOf(d), Online(conv, d));
        return Ok(d);
      }
      var id := Ledger.LocalId(nowMs, random);
      dao.Save(id, Offline(conv, request));
      r := Ok(conv.toDomain(Row(id, conv.requestFields(request))));
    }

    /** `syncPendingBudgets` / `syncPendingCategories` as intended: every row
        flagged for sync is posted once, in table order; an accepted row is
        replaced by the server copy and a failed one is left as it was. */
    method SyncPending(respond: nat -> ApiResponse<D>)
      requires Valid()
      modifies dao
      ensures Valid()
      ensures dao.rows == SyncAll(conv, old(dao.rows), Ledger.Pending(old(dao.rows), IsPending), respond)
    {
      var pending := Ledger.Pending(dao.rows, IsPending);
      ghost var start := dao.rows;
      for k := 0 to |pending|
        invariant Valid()
        invariant dao.rows == SyncAll(conv, start, pending[..k], respond)
      {
        assert pending[..k + 1][..k] == pending[..k];
        var row := pending[k];
        var response := respond(k);
        if conv.toCreateRequest(row.val.fields).Some? && response.Answered? && response.isSuccessful
           && response.body.Some? {
          dao.Delete(row.id);
          dao.Save(conv.idOf(response.body.value), row.val.(isOnline := true, needsSync := false));
        }
      }
      assert pending[..|pending|] == pending;
    }

    /** `updateBudget` / `updateCategory`: always a success. A delivered
        server copy overwrites the row with its id; otherwise the row `id`,
        if there is one, is overwritten by the request's fields, flagged for
        sync and not online. A missing row is not inserted. */
    method Update(id: Id, request: Req, connected: bool, response: ApiResponse<D>) returns (r: Result<D>)
      requires Valid()
      modifies dao
      ensures Valid() && r.Ok?
      ensures Ledger.Delivered(connected, response) ==>
                r.value == response.body.value
                && dao.rows == UpdateExisting(old(dao.rows), conv.idOf(response.body.value), Online(conv, response.body.value))
      ensures !Ledger.Delivered(connected, response) ==>
                dao.rows == UpdateExisting(old(dao.rows), id, Offline(conv, request))
                && r.value == conv.toDomain(Row(id, conv.requestFields(request)))
    {
      if connected && response.Answered? && response.isSuccessful && response.body.Some? {
        var d := response.body.value;
        dao.Update(conv.idOf(d), Online(conv, d));
        return Ok(d);
      }
      dao.Update(id, Offline(conv, request));
      r := Ok(conv.toDomain(Row(id, conv.requestFields(request))));
    }

    /** `deleteBudget` / `deleteCategory`: offline the row is deleted and the
        call succeeds; connected, the row is deleted only when the server
        confirms, and an unsuccessful response (with its HTTP status message)
        or an exception fails with the row kept. */
    method Delete(id: Id, connected: bool, response: ApiResponse<()>, statusMessage: string) returns (r: Result<()>)
      requires Valid()
      modifies dao
      ensures Valid()
      ensures r.Ok? <==> !connected || (response.Answered? && response.isSuccessful)
      ensures r.Ok? ==> dao.rows == Remove(old(dao.rows), id)
      ensures r.Err? ==> dao.rows == old(dao.rows)
      ensures connected && response.Answered? && !response.isSuccessful ==> r == Err(deleteFailure + statusMessage)
      ensures connected && response.Threw? ==> r == Err(response.message)
    {
      if !connected {
        dao.Delete(id);
        return Ok(());
      }
      match response
      case Threw(message) =>
        r := Err(message);
      case Answered(successful, _) =>
        if successful {
          dao.Delete(id);
          r := Ok(());
        } else {
          r := Err(deleteFailure + statusMessage);
        }
    }

    /** `refreshFromAPI`: nothing offline; a successful response with a list
        deletes all the family's rows, pending ones included, and stores the
        list online and synced; an unsuccessful response, a missing body or
        an exception leaves the table alone. */
    method RefreshFromApi(familyId: Id, connected: bool, response: ApiResponse<seq<D>>)
      requires Valid()
      modifies dao
      ensures Valid()
      ensures Ledger.Delivered(connected, response) ==>
                dao.rows == Refreshed(conv, old(dao.rows), familyId, response.body.value)
      ensures !Ledger.Delivered(connected, response) ==> dao.rows == old(dao.rows)
    {
      if !connected {
        return;
      }
      if response.Answered? && response.isSuccessful && response.body.Some? {
        var items := response.body.value;
        var keep := Select(dao.rows, (v: Local<E>) => conv.familyOf(v.fields) != familyId);
        SelectKeepsUniqueIds(dao.rows, (v: Local<E>) => conv.familyOf(v.fields) != familyId);
        dao.rows := keep;
        for k := 0 to |items|
          invariant Valid()
          invariant dao.rows == InsertAll(conv, keep, items[..k])
        {
          assert items[..k + 1][..k] == items[..k];
          dao.Save(conv.idOf(items[k]), Online(conv, items[k]));
        }
        assert items[..|items|] == items;
      }
    }
  }
}
