/** The Android client's `OfflineLedgerRepository`: ledger entries kept in a
    local Room table whose rows carry `isOnline` and `needsSync` flags. An
    operation tries the server first when the device is connected and falls
    back to the local table otherwise; `syncPendingEntries` later posts the
    rows still flagged for sync. The table is a sequence of rows keyed by
    primary key, the server's answer to each call is an input, and the clock
    and the random part of a local id are parameters. */
module AndroidOfflineLedger {
  import opened Common
  import opened Tables
  import Formatting
  import LedgerEntryDomain
  import Repo = LedgerEntryRepository

  type TransactionType = LedgerEntryDomain.TransactionType
  type MoneyAmount = LedgerEntryDomain.MoneyAmount

  /** The client's ledger entry. Instants are epoch milliseconds. */
  datatype LedgerEntry = LedgerEntry(
    id: Id,
    familyId: Id,
    memberId: Id,
    txType: TransactionType,
    amount: MoneyAmount,
    categoryId: Id,
    occurredAt: Instant,
    notes: Option<string>,
    createdAt: Instant,
    updatedAt: Instant)

  datatype CreateLedgerEntryRequest = CreateLedgerEntryRequest(
    memberId: Id,
    txType: TransactionType,
    amountMinor: int,
    currency: string,
    categoryId: Id,
    occurredAt: Instant,
    notes: Option<string>)

  /** `LedgerEntryEntity` without its primary key, which is the row's id. */
  datatype LedgerEntryEntity = LedgerEntryEntity(
    familyId: Id,
    memberId: Id,
    txType: string,
    amountMinor: int,
    currency: string,
    categoryId: Id,
    occurredAt: int,
    notes: Option<string>,
    isOnline: bool,
    needsSync: bool,
    createdAt: int,
    updatedAt: int)

  // ---- conversions --------------------------------------------------------

  /** `LedgerEntry.toEntity()`: both flags take their default, false. */
  function ToEntity(e: LedgerEntry): (r: Row<LedgerEntryEntity>)
    ensures r.id == e.id && LedgerEntryDomain.ParseType(r.val.txType) == Some(e.txType)
    ensures !r.val.isOnline && !r.val.needsSync
  {
    LedgerEntryDomain.ParseTypeName(e.txType);
    Row(e.id, LedgerEntryEntity(e.familyId, e.memberId, LedgerEntryDomain.TypeName(e.txType), e.amount.minor,
      e.amount.currency, e.categoryId, e.occurredAt, e.notes, false, false, e.createdAt, e.updatedAt))
  }

  /** `LedgerEntryEntity.toDomainModel()`; `None` when `TransactionType.valueOf`
      rejects the stored type. */
  function ToDomainModel(r: Row<LedgerEntryEntity>): (d: Option<LedgerEntry>)
    ensures d.Some? <==> LedgerEntryDomain.ParseType(r.val.txType).Some?
  {
    match LedgerEntryDomain.ParseType(r.val.txType)
    case None => None
    case Some(t) =>
      var v := r.val;
      Some(LedgerEntry(r.id, v.familyId, v.memberId, t, LedgerEntryDomain.MoneyAmount(v.amountMinor, v.currency),
        v.categoryId, v.occurredAt, v.notes, v.createdAt, v.updatedAt))
  }

  /** `CreateLedgerEntryRequest.toEntity()`: no id and no family yet, both
      timestamps the current time, both flags false. */
  function RequestToEntity(req: CreateLedgerEntryRequest, now: Instant): (e: LedgerEntryEntity)
    ensures e.familyId == "" && LedgerEntryDomain.ParseType(e.txType) == Some(req.txType)
    ensures e.createdAt == now && e.updatedAt == now && !e.isOnline && !e.needsSync
  {
    LedgerEntryDomain.ParseTypeName(req.txType);
    LedgerEntryEntity("", req.memberId, LedgerEntryDomain.TypeName(req.txType), req.amountMinor, req.currency,
      req.categoryId, req.occurredAt, req.notes, false, false, now, now)
  }

  /** `LedgerEntryEntity.toCreateRequest()`; `None` when the stored type is
      not a transaction type. */
  function ToCreateRequest(e: LedgerEntryEntity): (r: Option<CreateLedgerEntryRequest>)
    ensures r.Some? <==> LedgerEntryDomain.ParseType(e.txType).Some?
  {
    match LedgerEntryDomain.ParseType(e.txType)
    case None => None
    case Some(t) => Some(CreateLedgerEntryRequest(e.memberId, t, e.amountMinor, e.currency, e.categoryId,
      e.occurredAt, e.notes))
  }

  /** Storing an entry and reading it back gives the same entry. */
  lemma DomainRoundTrip(e: LedgerEntry)
    ensures ToDomainModel(ToEntity(e)) == Some(e)
  {
    LedgerEntryDomain.ParseTypeName(e.txType);
  }

  /** Reading a row with a valid type and both flags clear and storing it
      again gives the same row. */
  lemma EntityRoundTrip(r: Row<LedgerEntryEntity>)
    requires LedgerEntryDomain.ParseType(r.val.txType).Some? && !r.val.isOnline && !r.val.needsSync
    ensures ToEntity(ToDomainModel(r).value) == r
  {
  }

  /** A request stored locally is posted later with every field it had. */
  lemma RequestRoundTrip(req: CreateLedgerEntryRequest, now: Instant)
    ensures ToCreateRequest(RequestToEntity(req, now)) == Some(req)
  {
    LedgerEntryDomain.ParseTypeName(req.txType);
  }

  // ---- server answers and local ids ---------------------------------------

  /** What a server call gives: a response (successful or not, with or
      without a body) or an exception with its message. */
  datatype ApiResponse<T> = Answered(isSuccessful: bool, body: Option<T>) | Threw(message: string)

  /** The call was made and `response.body()!!` yields a value. A successful
      response without a body throws at `!!`, which the callers catch. */
  predicate Delivered<T>(connected: bool, response: ApiResponse<T>) {
    connected && response.Answered? && response.isSuccessful && response.body.Some?
  }

  /** `generateLocalId()`: "local_", the clock in milliseconds, "_" and a
      random number from 1000 to 9999. */
  function LocalId(nowMs: nat, random: int): (id: Id)
    requires 1000 <= random <= 9999
    ensures StartsWith(id, "local_")
  {
    "local_" + Formatting.NatText(nowMs) + "_" + Formatting.NatText(random)
  }

  /** The row `saveOfflineEntry` stores: the request with no family, flagged
      for sync and not online. */
  function OfflineEntity(req: CreateLedgerEntryRequest, nowMs: Instant): LedgerEntryEntity {
    RequestToEntity(req, nowMs).(isOnline := false, needsSync := true)
  }

  /** The row `markForSync` writes: the request's fields, no family, flagged
      for sync, both timestamps the current time. */
  function MarkedEntity(req: CreateLedgerEntryRequest, nowMs: Instant): LedgerEntryEntity {
    RequestToEntity(req, nowMs).(isOnline := false, needsSync := true, updatedAt := nowMs)
  }

  /** The server's copy as stored locally: online and synced. */
  function OnlineEntity(e: LedgerEntry): LedgerEntryEntity {
    ToEntity(e).val.(isOnline := true, needsSync := false)
  }

  predicate IsPending(e: LedgerEntryEntity) {
    e.needsSync
  }

  // ---- queries ------------------------------------------------------------

  function OccurredAt(e: LedgerEntryEntity): int { e.occurredAt }

  /** `getEntries`: the family's rows, latest occurrence first. */
  function GetEntries(rows: seq<Row<LedgerEntryEntity>>, familyId: Id): (r: seq<Row<LedgerEntryEntity>>)
    ensures Repo.NewestFirst(r, OccurredAt)
    ensures multiset(r) == multiset(Select(rows, (e: LedgerEntryEntity) => e.familyId == familyId))
  {
    Repo.SortNewestFirst(Select(rows, (e: LedgerEntryEntity) => e.familyId == familyId), OccurredAt)
  }

  /** The rows of one family and one type, in table order. */
  function OfFamilyAndType(rows: seq<Row<LedgerEntryEntity>>, familyId: Id, txType: string): seq<Row<LedgerEntryEntity>> {
    Select(rows, (e: LedgerEntryEntity) => e.familyId == familyId && e.txType == txType)
  }

  /** `getRecentEntries`: the family's ten latest rows of one type. All of
      them when there are at most ten; otherwise ten, and a matching row
      left out is no later than the last one returned. */
  function GetRecentEntries(rows: seq<Row<LedgerEntryEntity>>, familyId: Id, txType: string)
    : (r: seq<Row<LedgerEntryEntity>>)
    ensures |r| == Min(10, |OfFamilyAndType(rows, familyId, txType)|) && Repo.NewestFirst(r, OccurredAt)
    ensures forall i :: 0 <= i < |r| ==> r[i] in rows && r[i].val.familyId == familyId && r[i].val.txType == txType
    ensures forall i :: (0 <= i < |rows| && rows[i].val.familyId == familyId && rows[i].val.txType == txType
                         && rows[i] !in r) ==> |r| == 10 && rows[i].val.occurredAt <= r[9].val.occurredAt
  {
    var matching := OfFamilyAndType(rows, familyId, txType);
    var r := Repo.Newest(matching, OccurredAt, 10);
    Repo.NewestShape(matching, OccurredAt, 10);
    DrawnFrom(r, matching);
    RecentLeftOut(rows, familyId, txType);
    r
  }

  /** A row of the family and type that the ten latest leave out is no later
      than the tenth. */
  lemma RecentLeftOut(rows: seq<Row<LedgerEntryEntity>>, familyId: Id, txType: string)
    ensures var r := Repo.Newest(OfFamilyAndType(rows, familyId, txType), OccurredAt, 10);
      forall i :: (0 <= i < |rows| && rows[i].val.familyId == familyId && rows[i].val.txType == txType
                   && rows[i] !in r) ==> |r| == 10 && rows[i].val.occurredAt <= r[9].val.occurredAt
  {
    var matching := OfFamilyAndType(rows, familyId, txType);
    var r := Repo.Newest(matching, OccurredAt, 10);
    forall i | 0 <= i < |rows| && rows[i].val.familyId == familyId && rows[i].val.txType == txType && rows[i] !in r
      ensures |r| == 10 && rows[i].val.occurredAt <= r[9].val.occurredAt
    {
      assert rows[i] in matching;
      assert rows[i] in multiset(matching);
      assert rows[i] !in multiset(r);
      Repo.NewestLeftOut(matching, OccurredAt, 10, rows[i]);
    }
  }

  lemma DrawnFrom<X>(r: seq<X>, s: seq<X>)
    requires multiset(r) <= multiset(s)
    ensures forall i :: 0 <= i < |r| ==> r[i] in s
  {
    forall i | 0 <= i < |r| ensures r[i] in s {
      assert r[i] in multiset(r);
    }
  }

  /** The rows a `get…NeedingSync` query returns (`WHERE needsSync = 1`):
      those whose sync flag is set, in table order. The ledger, budget and
      category tables share it. */
  function Pending<T>(rows: seq<Row<T>>, needsSync: T -> bool): (r: seq<Row<T>>)
    ensures forall i :: 0 <= i < |r| ==> r[i] in rows && needsSync(r[i].val)
    ensures forall i :: 0 <= i < |rows| && needsSync(rows[i].val) ==> rows[i] in r
  {
    Select(rows, needsSync)
  }

  // ---- synchronisation ----------------------------------------------------

  /** The server copy a successful sync of `row` records: the local row's
      data under the server's id, online and synced. */
  function Synced(row: Row<LedgerEntryEntity>, server: LedgerEntry): Row<LedgerEntryEntity> {
    Row(server.id, row.val.(isOnline := true, needsSync := false))
  }

  /** One pass of the sync loop as written: on success, a primary-key
      `@Update` of the row under the server's id, which changes nothing
      unless a row with that id already exists. */
  function SyncStepAsWritten(rows: seq<Row<LedgerEntryEntity>>, row: Row<LedgerEntryEntity>,
                             response: ApiResponse<LedgerEntry>): seq<Row<LedgerEntryEntity>>
  {
    if ToCreateRequest(row.val).Some? && Delivered(true, response) then
      UpdateExisting(rows, response.body.value.id, Synced(row, response.body.value).val)
    else rows
  }

  /** The sync loop as written over `pending`, the `k`-th row meeting the
      `k`-th answer. */
  function SyncAsWritten(rows: seq<Row<LedgerEntryEntity>>, pending: seq<Row<LedgerEntryEntity>>,
                         respond: nat -> ApiResponse<LedgerEntry>): (r: seq<Row<LedgerEntryEntity>>)
    ensures |r| == |rows| && forall i :: 0 <= i < |rows| ==> r[i].id == rows[i].id
  {
    if pending == [] then rows
    else
      var n := |pending| - 1;
      SyncStepAsWritten(SyncAsWritten(rows, pending[..n], respond), pending[n], respond(n))
  }

  /** As written, a successful sync of a row whose server id names no row of
      the table leaves the table as it was: the "local_" row stays flagged
      for sync and the server copy is never stored. */
  lemma SyncAsWrittenKeepsLocalRow(rows: seq<Row<LedgerEntryEntity>>, row: Row<LedgerEntryEntity>,
                                   response: ApiResponse<LedgerEntry>)
    requires Delivered(true, response) && !HasId(rows, response.body.value.id)
    ensures SyncStepAsWritten(rows, row, response) == rows
  {
  }

  /** The discrepancy on one pending row: the server accepts it under the id
      "srv1", and after the sync the table still holds the "local_" row,
      still flagged for sync, and no row "srv1"; the next sync posts the
      entry again. */
  lemma SyncAsWrittenRepostsForever()
    ensures var local := Row("local_1_1000", OfflineEntity(
              CreateLedgerEntryRequest("m", LedgerEntryDomain.EXPENSE, 500, "USD", "c", 0, None), 0));
            var server := LedgerEntry("srv1", "f", "m", LedgerEntryDomain.EXPENSE,
                                      LedgerEntryDomain.MoneyAmount(500, "USD"), "c", 0, None, 0, 0);
            var after := SyncAsWritten([local], [local], (k: nat) => Answered(true, Some(server)));
            after == [local] && Pending(after, IsPending) == [local] && !HasId(after, "srv1")
  {
    var local := Row("local_1_1000", OfflineEntity(
      CreateLedgerEntryRequest("m", LedgerEntryDomain.EXPENSE, 500, "USD", "c", 0, None), 0));
    var server := LedgerEntry("srv1", "f", "m", LedgerEntryDomain.EXPENSE,
                              LedgerEntryDomain.MoneyAmount(500, "USD"), "c", 0, None, 0, 0);
    var respond := (k: nat) => Answered(true, Some(server));
    assert [local][..0] == [];
    assert !HasId([local], "srv1");
    SyncAsWrittenKeepsLocalRow([local], local, respond(0));
    assert Pending([local], IsPending) == Select([local], IsPending);
    assert Select([local], IsPending) == [local] by {
      SelectSnoc([], local, IsPending);
      assert [] + [local] == [local];
    }
  }

  /** One pass of the sync loop as intended: on success the local row is
      deleted and the server copy inserted, online and synced. */
  function SyncStep(rows: seq<Row<LedgerEntryEntity>>, row: Row<LedgerEntryEntity>,
                    response: ApiResponse<LedgerEntry>): seq<Row<LedgerEntryEntity>>
  {
    if ToCreateRequest(row.val).Some? && Delivered(true, response) then
      var synced := Synced(row, response.body.value);
      Upsert(Remove(rows, row.id), synced.id, synced.val)
    else rows
  }

  /** The intended sync loop over `pending`. */
  function SyncAll(rows: seq<Row<LedgerEntryEntity>>, pending: seq<Row<LedgerEntryEntity>>,
                   respond: nat -> ApiResponse<LedgerEntry>): (r: seq<Row<LedgerEntryEntity>>)
    ensures forall x :: x in r ==> x in rows || (x.val.isOnline && !x.val.needsSync)
  {
    if pending == [] then rows
    else
      var n := |pending| - 1;
      var before := SyncAll(rows, pending[..n], respond);
      SyncStepNewRows(before, pending[n], respond(n));
      SyncStep(before, pending[n], respond(n))
  }

  /** A sync step adds no row but the synced server copy. */
  lemma SyncStepNewRows(rows: seq<Row<LedgerEntryEntity>>, row: Row<LedgerEntryEntity>,
                        response: ApiResponse<LedgerEntry>)
    ensures forall x :: x in SyncStep(rows, row, response) ==> x in rows || (x.val.isOnline && !x.val.needsSync)
  {
    if ToCreateRequest(row.val).Some? && Delivered(true, response) {
      var synced := Synced(row, response.body.value);
      forall x | x in SyncStep(rows, row, response) ensures x in rows || (x.val.isOnline && !x.val.needsSync) {
        UpsertMembers(Remove(rows, row.id), synced.id, synced.val, x);
        if x != synced {
          RemoveMembers(rows, row.id, x);
        }
      }
    }
  }

  /** One more pass of the loop: the `k`-th pending row meets the `k`-th
      answer. */
  lemma SyncAllSnoc(rows: seq<Row<LedgerEntryEntity>>, pending: seq<Row<LedgerEntryEntity>>,
                    respond: nat -> ApiResponse<LedgerEntry>, k: nat)
    requires k < |pending|
    ensures SyncAll(rows, pending[..k + 1], respond) == SyncStep(SyncAll(rows, pending[..k], respond), pending[k], respond(k))
  {
    assert pending[..k + 1][..k] == pending[..k];
  }

  /** The row was accepted by the server in its pass of the loop. */
  predicate Accepted(row: Row<LedgerEntryEntity>, response: ApiResponse<LedgerEntry>) {
    ToCreateRequest(row.val).Some? && Delivered(true, response)
  }

  /** A successful pass removes the local row (unless the server reused its
      id) and stores the server copy, online and synced; a failed pass
      changes nothing. */
  lemma SyncStepEffect(rows: seq<Row<LedgerEntryEntity>>, row: Row<LedgerEntryEntity>,
                       response: ApiResponse<LedgerEntry>)
    ensures !Accepted(row, response) ==> SyncStep(rows, row, response) == rows
    ensures Accepted(row, response) ==>
              var server := response.body.value;
              Find(SyncStep(rows, row, response), server.id) == Some(Synced(row, server).val)
              && (server.id != row.id ==> !HasId(SyncStep(rows, row, response), row.id))
  {
    if Accepted(row, response) {
      var synced := Synced(row, response.body.value);
      FindAfterUpsert(Remove(rows, row.id), synced.id, synced.val, row.id);
      FindAfterRemove(rows, row.id, row.id);
    }
  }

  /** A row flagged for sync after one pass was there before the pass, and
      does not carry the id of the row the pass had accepted. */
  lemma SyncStepPendingRows(rows: seq<Row<LedgerEntryEntity>>, row: Row<LedgerEntryEntity>,
                            response: ApiResponse<LedgerEntry>, r: Row<LedgerEntryEntity>)
    requires r in SyncStep(rows, row, response) && IsPending(r.val)
    ensures r in rows && (Accepted(row, response) ==> r.id != row.id)
  {
    if Accepted(row, response) {
      var synced := Synced(row, response.body.value);
      UpsertMembers(Remove(rows, row.id), synced.id, synced.val, r);
      RemoveMembers(rows, row.id, r);
    }
  }

  /** Every row still flagged for sync after the intended loop was already
      in the table, and if it was one of the rows the loop visited, the
      server did not accept it. */
  lemma {:induction false} SyncAllLeavesOnlyFailures(rows: seq<Row<LedgerEntryEntity>>,
                                                     pending: seq<Row<LedgerEntryEntity>>,
                                                     respond: nat -> ApiResponse<LedgerEntry>)
    ensures forall r :: r in SyncAll(rows, pending, respond) && IsPending(r.val) ==>
              r in rows && forall k :: 0 <= k < |pending| && pending[k].id == r.id ==> !Accepted(pending[k], respond(k))
  {
    if pending != [] {
      var n := |pending| - 1;
      var before := SyncAll(rows, pending[..n], respond);
      SyncAllLeavesOnlyFailures(rows, pending[..n], respond);
      forall r | r in SyncStep(before, pending[n], respond(n)) && IsPending(r.val)
        ensures r in rows && forall k :: 0 <= k < |pending| && pending[k].id == r.id ==> !Accepted(pending[k], respond(k))
      {
        SyncStepPendingRows(before, pending[n], respond(n), r);
        assert forall k :: 0 <= k < n ==> pending[..n][k] == pending[k];
      }
    }
  }

  /** A row of an upsert is the inserted one or an old row. */
  lemma {:induction false} UpsertMembers<T>(rows: seq<Row<T>>, id: Id, v: T, r: Row<T>)
    requires r in Upsert(rows, id, v)
    ensures r == Row(id, v) || r in rows
  {
    if rows != [] && rows[0].id != id {
      if r != rows[0] {
        assert r in Upsert(rows[1..], id, v);
        UpsertMembers(rows[1..], id, v, r);
      }
    }
  }

  /** A row left by a removal was there before and does not carry the
      removed id. */
  lemma RemoveMembers<T>(rows: seq<Row<T>>, id: Id, r: Row<T>)
    requires r in Remove(rows, id)
    ensures r in rows && r.id != id
  {
    var i :| 0 <= i < |Remove(rows, id)| && Remove(rows, id)[i] == r;
  }

  /** When the server accepts every row, nothing is left flagged for sync
      among the rows the loop visited, nor among any others that were not
      flagged before. */
  lemma SyncAllClearsAccepted(rows: seq<Row<LedgerEntryEntity>>, respond: nat -> ApiResponse<LedgerEntry>)
    requires forall k :: 0 <= k < |Pending(rows, IsPending)| ==> Accepted(Pending(rows, IsPending)[k], respond(k))
    ensures Pending(SyncAll(rows, Pending(rows, IsPending), respond), IsPending) == []
  {
    var pending := Pending(rows, IsPending);
    var after := SyncAll(rows, pending, respond);
    SyncAllLeavesOnlyFailures(rows, pending, respond);
    forall r | r in rows && IsPending(r.val)
      ensures exists k :: 0 <= k < |pending| && pending[k].id == r.id && Accepted(pending[k], respond(k))
    {
      var i :| 0 <= i < |rows| && rows[i] == r;
      var k :| 0 <= k < |pending| && pending[k] == r;
    }
    assert forall r :: r in after ==> !IsPending(r.val);
    NothingPending(after);
  }

  /** A table none of whose rows is flagged has nothing to sync. */
  lemma NothingPending(rows: seq<Row<LedgerEntryEntity>>)
    requires forall r :: r in rows ==> !IsPending(r.val)
    ensures Pending(rows, IsPending) == []
  {
    SelectNone(rows, IsPending);
  }

  // ---- the repository -----------------------------------------------------

  class OfflineLedgerRepository {
    const dao: Table<LedgerEntryEntity>

    ghost predicate Valid()
      reads this, dao
    {
      dao.Valid()
    }

    constructor (dao: Table<LedgerEntryEntity>)
      ensures this.dao == dao
    {
      this.dao := dao;
    }

    /** `createEntry`: always a success. A delivered server copy is stored
        online and synced and returned; otherwise (offline, an unsuccessful
        response, an exception) the request is stored under a fresh local id,
        flagged for sync, and returned. */
    method CreateEntry(request: CreateLedgerEntryRequest, connected: bool, response: ApiResponse<LedgerEntry>,
                       nowMs: nat, random: int)
      returns (r: Result<LedgerEntry>)
      requires Valid() && 1000 <= random <= 9999
      modifies dao
      ensures Valid() && r.Ok?
      ensures Delivered(connected, response) ==>
                r.value == response.body.value
                && dao.rows == Upsert(old(dao.rows), response.body.value.id, OnlineEntity(response.body.value))
      ensures !Delivered(connected, response) ==>
                var id := LocalId(nowMs, random);
                dao.rows == Upsert(old(dao.rows), id, OfflineEntity(request, nowMs))
                && Some(r.value) == ToDomainModel(Row(id, OfflineEntity(request, nowMs)))
    {
      if connected && response.Answered? && response.isSuccessful && response.body.Some? {
        var entry := response.body.value;
        dao.Save(entry.id, OnlineEntity(entry));
        return Ok(entry);
      }
      r := SaveOfflineEntry(request, nowMs, random);
    }

    /** `saveOfflineEntry` */
    method SaveOfflineEntry(request: CreateLedgerEntryRequest, nowMs: nat, random: int) returns (r: Result<LedgerEntry>)
      requires Valid() && 1000 <= random <= 9999
      modifies dao
      ensures Valid() && r.Ok?
      ensures dao.rows == Upsert(old(dao.rows), LocalId(nowMs, random), OfflineEntity(request, nowMs))
      ensures Some(r.value) == ToDomainModel(Row(LocalId(nowMs, random), OfflineEntity(request, nowMs)))
    {
      var id := LocalId(nowMs, random);
      var entity := OfflineEntity(request, nowMs);
      dao.Save(id, entity);
      LedgerEntryDomain.ParseTypeName(request.txType);
      r := Ok(ToDomainModel(Row(id, entity)).value);
    }

    /** `syncPendingEntries` as intended: every row flagged for sync is
        posted once, in table order, the `k`-th meeting the `k`-th answer; an
        accepted row is replaced by the server copy, a failed one is left as
        it was, and the loop goes on either way. */
    method SyncPendingEntries(respond: nat -> ApiResponse<LedgerEntry>)
      requires Valid()
      modifies dao
      ensures Valid()
      ensures dao.rows == SyncAll(old(dao.rows), Pending(old(dao.rows), IsPending), respond)
    {
      var pending := Pending(dao.rows, IsPending);
      ghost var start := dao.rows;
      for k := 0 to |pending|
        invariant Valid()
        invariant dao.rows == SyncAll(start, pending[..k], respond)
      {
        SyncAllSnoc(start, pending, respond, k);
        var row := pending[k];
        var response := respond(k);
        var request := ToCreateRequest(row.val);
        if request.Some? && response.Answered? && response.isSuccessful && response.body.Some? {
          var synced := Synced(row, response.body.value);
          dao.Delete(row.id);
          dao.Save(synced.id, synced.val);
        }
      }
      assert pending[..|pending|] == pending;
    }

    /** `updateEntry`: always a success. A delivered server copy overwrites
        the row with its id, online and synced; otherwise `markForSync`
        overwrites the row `entryId`, if there is one, with the request's
        fields flagged for sync. Neither inserts a missing row. */
    method UpdateEntry(entryId: Id, request: CreateLedgerEntryRequest, connected: bool,
                       response: ApiResponse<LedgerEntry>, nowMs: nat)
      returns (r: Result<LedgerEntry>)
      requires Valid()
      modifies dao
      ensures Valid() && r.Ok?
      ensures Delivered(connected, response) ==>
                r.value == response.body.value
                && dao.rows == UpdateExisting(old(dao.rows), response.body.value.id, OnlineEntity(response.body.value))
      ensures !Delivered(connected, response) ==>
                dao.rows == UpdateExisting(old(dao.rows), entryId, MarkedEntity(request, nowMs))
                && Some(r.value) == ToDomainModel(Row(entryId, MarkedEntity(request, nowMs)))
    {
      if connected && response.Answered? && response.isSuccessful && response.body.Some? {
        var entry := response.body.value;
        dao.Update(entry.id, OnlineEntity(entry));
        return Ok(entry);
      }
      var entity := MarkedEntity(request, nowMs);
      dao.Update(entryId, entity);
      LedgerEntryDomain.ParseTypeName(request.txType);
      r := Ok(ToDomainModel(Row(entryId, entity)).value);
    }

    /** `deleteEntry`: offline the row is deleted and the call succeeds;
        connected, the row is deleted only when the server confirms, and an
        unsuccessful response or an exception fails with the row kept. */
    method DeleteEntry(entryId: Id, connected: bool, response: ApiResponse<()>) returns (r: Result<()>)
      requires Valid()
      modifies dao
      ensures Valid()
      ensures r.Ok? <==> !connected || (response.Answered? && response.isSuccessful)
      ensures r.Ok? ==> dao.rows == Remove(old(dao.rows), entryId)
      ensures r.Err? ==> dao.rows == old(dao.rows)
      ensures connected && response.Answered? && !response.isSuccessful ==> r == Err("Failed to delete entry")
      ensures connected && response.Threw? ==> r == Err(response.message)
    {
      if !connected {
        dao.Delete(entryId);
        return Ok(());
      }
      match response
      case Threw(message) =>
        r := Err(message);
      case Answered(successful, _) =>
        if successful {
          dao.Delete(entryId);
          r := Ok(());
        } else {
          r := Err("Failed to delete entry");
        }
    }
  }

  /** An entry created without reaching the server is stored under a
      "local_" id with no family, not online and flagged for sync. */
  lemma OfflineCreateIsPending(rows: seq<Row<LedgerEntryEntity>>, request: CreateLedgerEntryRequest,
                               nowMs: nat, random: int)
    requires 1000 <= random <= 9999
    ensures var id := LocalId(nowMs, random);
            var after := Upsert(rows, id, OfflineEntity(request, nowMs));
            StartsWith(id, "local_") && Find(after, id) == Some(OfflineEntity(request, nowMs))
            && IsPending(Find(after, id).value) && !Find(after, id).value.isOnline && Find(after, id).value.familyId == ""
  {
    FindAfterUpsert(rows, LocalId(nowMs, random), OfflineEntity(request, nowMs), LocalId(nowMs, random));
  }

  /** A row rewritten by `markForSync` leaves its family: its family id
      becomes empty, so the family's entry list no longer shows it. */
  lemma MarkedRowLeavesFamily(rows: seq<Row<LedgerEntryEntity>>, entryId: Id, request: CreateLedgerEntryRequest,
                              nowMs: nat, familyId: Id)
    requires familyId != ""
    ensures Row(entryId, MarkedEntity(request, nowMs)) !in GetEntries(UpdateExisting(rows, entryId, MarkedEntity(request, nowMs)), familyId)
  {
    var r := Row(entryId, MarkedEntity(request, nowMs));
    var after := UpdateExisting(rows, entryId, MarkedEntity(request, nowMs));
    var fam := Select(after, (e: LedgerEntryEntity) => e.familyId == familyId);
    assert r !in fam;
    assert r !in multiset(GetEntries(after, familyId));
  }
}
