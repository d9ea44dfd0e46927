/** The iOS client's `LedgerRepository`, `CategoryRepository` and
    `BudgetRepository`. All three are one state machine over a Core Data
    entity set whose objects carry `isOnline`, `needsSync`, `createdAt` and
    `updatedAt`. The API call either returns the server's object or throws.
    A failed create stores a new object under a UUID, flagged for sync. A
    failed update only re-flags the existing object. Every delete removes the
    local object. `LedgerRepository` also has the sync loop that posts the
    flagged objects. The repositories are modelled once, generic in the
    domain type `D`, the request type `Req` and the entity's own fields `E`,
    with the conversions as given functions.

    Core Data does not keep ids unique: a fetch by id sees the first object
    that has it, and the sync loop rewrites an object's id in place. The
    model therefore assumes no unique ids and works on the first match. */
module IosOfflineRepositories {
  import opened Common
  import opened Tables

  /** A managed object: the entity's own fields plus `BaseEntity`'s flags and
      timestamps. `createdAt` is `None` on an object created by
      `save…Locally`, which never sets it. */
  datatype Managed<E> = Managed(fields: E, isOnline: bool, needsSync: bool, createdAt: Option<Instant>,
                                updatedAt: Instant)

  /** The conversions the repositories call: the server object's id, the
      fields `updateFromAPI` copies from it, the fields `saveOffline…` takes
      from a request, the domain object of a stored entity, the request the
      sync loop posts for an entity, and the predicate of the family fetch
      request. The first two take the current time because an unparseable
      date string is stored as `Date()`. */
  datatype Conversions<!D, !Req, !E> = Conversions(
    idOf: D -> Id,
    fromApi: (D, Instant) -> E,
    fromRequest: (Req, Instant) -> E,
    toDomain: Row<E> -> D,
    toCreateRequest: E -> Req,
    listed: (E, Id) -> bool)

  /** `APIError.networkUnavailable`'s description. */
  const NetworkUnavailable := "Network unavailable"

  /** `context.fetch(request).first` for the predicate `id == %@`. */
  function FirstIndex<E>(rows: seq<Row<E>>, id: Id): (r: Option<nat>)
    ensures r.None? <==> !HasId(rows, id)
    ensures r.Some? ==> r.value < |rows| && rows[r.value].id == id
                        && forall j :: 0 <= j < r.value ==> rows[j].id != id
  {
    if rows == [] then None
    else if rows[0].id == id then Some(0)
    else
      match FirstIndex(rows[1..], id)
      case None => None
      case Some(k) => Some(k + 1)
  }

  /** The object `updateFromAPI` makes of `old` (or of a new object when
      there was none): the server's fields, online, synced, stamped `now`. */
  function FromServer<D, Req, E>(conv: Conversions<D, Req, E>, d: D, createdAt: Option<Instant>, now: Instant)
    : Managed<E>
  {
    Managed(conv.fromApi(d, now), true, false, createdAt, now)
  }

  /** `save…Locally(x, isOnline: true, needsSync: false)`: the first object
      with the server's id is overwritten, or a new one is appended. */
  function SavedLocally<D, Req, E>(conv: Conversions<D, Req, E>, rows: seq<Row<Managed<E>>>, d: D, now: Instant)
    : (r: seq<Row<Managed<E>>>)
    ensures |r| >= |rows| && HasId(r, conv.idOf(d))
    ensures forall i :: 0 <= i < |rows| ==> r[i].id == rows[i].id
    ensures HasId(rows, conv.idOf(d)) ==>
              |r| == |rows| && forall i :: 0 <= i < |rows| && rows[i].id != conv.idOf(d) ==> r[i] == rows[i]
    ensures !HasId(rows, conv.idOf(d)) ==> r == rows + [Row(conv.idOf(d), FromServer(conv, d, None, now))]
  {
    var id := conv.idOf(d);
    match FirstIndex(rows, id)
    case Some(i) =>
      var r := rows[i := Row(id, FromServer(conv, d, rows[i].val.createdAt, now))];
      assert r[i].id == id;
      r
    case None =>
      var r := rows + [Row(id, FromServer(conv, d, None, now))];
      assert r[|rows|].id == id;
      r
  }

  /** The object `saveOffline…` creates: the request's fields under a new
      UUID, not online, flagged for sync, both timestamps `now`. */
  function OfflineRow<D, Req, E>(conv: Conversions<D, Req, E>, request: Req, uuid: Id, now: Instant)
    : Row<Managed<E>>
  {
    Row(uuid, Managed(conv.fromRequest(request, now), false, true, Some(now), now))
  }

  /** `markForSync` / `mark…ForSync`: the first object with the id gets
      `needsSync` and a new `updatedAt`; nothing else changes, and an
      unknown id changes nothing. */
  function MarkedForSync<E>(rows: seq<Row<Managed<E>>>, id: Id, now: Instant): (r: seq<Row<Managed<E>>>)
    ensures |r| == |rows|
    ensures forall i :: 0 <= i < |rows| ==>
              r[i] == rows[i] || (r[i] == Row(id, rows[i].val.(needsSync := true, updatedAt := now)) && rows[i].id == id)
    ensures !HasId(rows, id) ==> r == rows
  {
    match FirstIndex(rows, id)
    case Some(i) => rows[i := Row(id, rows[i].val.(needsSync := true, updatedAt := now))]
    case None => rows
  }

  /** `delete…Locally`: the first object with the id is deleted. */
  function RemovedLocally<E>(rows: seq<Row<E>>, id: Id): (r: seq<Row<E>>)
    ensures HasId(rows, id) ==> |r| == |rows| - 1 && multiset(r) + multiset{Row(id, Find(rows, id).value)} == multiset(rows)
    ensures !HasId(rows, id) ==> r == rows
  {
    match FirstIndex(rows, id)
    case Some(i) =>
      FirstIndexFinds(rows, id);
      assert rows == rows[..i] + [rows[i]] + rows[i + 1..];
      rows[..i] + rows[i + 1..]
    case None => rows
  }

  lemma {:induction false} FirstIndexFinds<E>(rows: seq<Row<E>>, id: Id)
    requires HasId(rows, id)
    ensures Find(rows, id) == Some(rows[FirstIndex(rows, id).value].val)
  {
    if rows[0].id != id {
      assert HasId(rows[1..], id) by {
        var i :| 0 <= i < |rows| && rows[i].id == id;
        assert rows[1..][i - 1].id == id;
      }
      FirstIndexFinds(rows[1..], id);
    }
  }

  /** What a failed update leaves: the object keeps its fields, its
      `isOnline` and its `createdAt`, so the edit that was asked for is not
      stored anywhere; only the sync flag and `updatedAt` change. */
  lemma OfflineUpdateKeepsFields<E>(rows: seq<Row<Managed<E>>>, id: Id, now: Instant, i: nat)
    requires i < |rows|
    ensures var r := MarkedForSync(rows, id, now)[i];
            r.id == rows[i].id && r.val.fields == rows[i].val.fields && r.val.isOnline == rows[i].val.isOnline
            && r.val.createdAt == rows[i].val.createdAt
    ensures HasId(rows, id) ==> Find(MarkedForSync(rows, id, now), id).value.needsSync
  {
    if HasId(rows, id) {
      var k := FirstIndex(rows, id).value;
      var after := MarkedForSync(rows, id, now);
      assert FirstIndex(after, id) == Some(k) by {
        FirstIndexSameIds(rows, after, id);
      }
      FirstIndexFinds(after, id);
    }
  }

  lemma {:induction false} FirstIndexSameIds<E>(rows: seq<Row<E>>, other: seq<Row<E>>, id: Id)
    requires |rows| == |other| && forall i :: 0 <= i < |rows| ==> rows[i].id == other[i].id
    ensures FirstIndex(rows, id) == FirstIndex(other, id)
  {
    if rows != [] && rows[0].id != id {
      FirstIndexSameIds(rows[1..], other[1..], id);
    }
  }

  // ---- the family fetch ---------------------------------------------------

  /** The domain objects of a list of stored objects, in order. */
  function ToDomainAll<D, Req, E>(conv: Conversions<D, Req, E>, rows: seq<Row<Managed<E>>>): (r: seq<D>)
    ensures |r| == |rows|
    ensures forall i :: 0 <= i < |rows| ==> r[i] == conv.toDomain(Row(rows[i].id, rows[i].val.fields))
  {
    if rows == [] then []
    else [conv.toDomain(Row(rows[0].id, rows[0].val.fields))] + ToDomainAll(conv, rows[1..])
  }

  /** `fetchLocal…(familyId)`: the domain objects of the stored objects the
      family fetch request matches, pending ones included. */
  function FetchLocal<D, Req, E>(conv: Conversions<D, Req, E>, rows: seq<Row<Managed<E>>>, familyId: Id)
    : (r: seq<D>)
    ensures forall k :: 0 <= k < |r| ==>
              exists i :: 0 <= i < |rows| && conv.listed(rows[i].val.fields, familyId)
                          && r[k] == conv.toDomain(Row(rows[i].id, rows[i].val.fields))
    ensures forall i :: 0 <= i < |rows| && conv.listed(rows[i].val.fields, familyId)
              ==> conv.toDomain(Row(rows[i].id, rows[i].val.fields)) in r
  {
    var sel := Select(rows, (v: Managed<E>) => conv.listed(v.fields, familyId));
    var r := ToDomainAll(conv, sel);
    assert forall k :: 0 <= k < |r| ==> sel[k] in rows;
    forall i | 0 <= i < |rows| && conv.listed(rows[i].val.fields, familyId)
      ensures conv.toDomain(Row(rows[i].id, rows[i].val.fields)) in r
    {
      var k :| 0 <= k < |sel| && sel[k] == rows[i];
      assert r[k] == conv.toDomain(Row(rows[i].id, rows[i].val.fields));
    }
    r
  }

  /** The fetch predicates of `entriesForFamily`, `categoriesForFamily` and
      `budgetsForFamily`. */
  datatype LedgerFields = LedgerFields(familyId: Id, memberId: Id, txType: string, amountMinor: int,
                                       currency: string, categoryId: Id, occurredAt: Instant, notes: Option<string>)
  datatype CategoryFields = CategoryFields(familyId: Id, name: string, icon: string, color: string,
                                           txType: string, archived: bool)
  datatype BudgetFields = BudgetFields(familyId: Id, name: string, overallLimitMinor: int, periodType: string,
                                       periodStart: Instant, periodEnd: Instant, alertThresholdPct: real,
                                       includeRecurring: bool)

  predicate EntriesForFamily(e: LedgerFields, familyId: Id) {
    e.familyId == familyId
  }

  predicate CategoriesForFamily(c: CategoryFields, familyId: Id) {
    c.familyId == familyId && !c.archived
  }

  predicate BudgetsForFamily(b: BudgetFields, familyId: Id) {
    b.familyId == familyId
  }

  // ---- refresh from the server --------------------------------------------

  /** `sync…FromAPI` on a successful fetch: every server object saved
      locally in turn. */
  function SavedAll<D, Req, E>(conv: Conversions<D, Req, E>, rows: seq<Row<Managed<E>>>, items: seq<D>, now: Instant)
    : seq<Row<Managed<E>>>
  {
    if items == [] then rows
    else
      var n := |items| - 1;
      SavedLocally(conv, SavedAll(conv, rows, items[..n], now), items[n], now)
  }

  /** Refreshing from the server stores every server object and never
      deletes: the table only grows, and every object whose id the server
      list does not name, pending ones included, is left exactly as it
      was. */
  lemma {:induction false} SavedAllKeepsOthers<D, Req, E>(conv: Conversions<D, Req, E>, rows: seq<Row<Managed<E>>>,
                                                          items: seq<D>, now: Instant)
    ensures |SavedAll(conv, rows, items, now)| >= |rows|
    ensures forall j :: 0 <= j < |items| ==> HasId(SavedAll(conv, rows, items, now), conv.idOf(items[j]))
    ensures forall i :: 0 <= i < |rows| && (forall j :: 0 <= j < |items| ==> conv.idOf(items[j]) != rows[i].id)
              ==> SavedAll(conv, rows, items, now)[i] == rows[i]
  {
    if items != [] {
      var n := |items| - 1;
      var before := SavedAll(conv, rows, items[..n], now);
      SavedAllKeepsOthers(conv, rows, items[..n], now);
      var after := SavedLocally(conv, before, items[n], now);
      forall j | 0 <= j < |items|
        ensures HasId(after, conv.idOf(items[j]))
      {
        if j < n {
          assert items[..n][j] == items[j];
          var i :| 0 <= i < |before| && before[i].id == conv.idOf(items[j]);
          assert after[i].id == conv.idOf(items[j]);
        }
      }
      forall i | 0 <= i < |rows| && (forall j :: 0 <= j < |items| ==> conv.idOf(items[j]) != rows[i].id)
        ensures after[i] == rows[i]
      {
        assert forall j :: 0 <= j < n ==> items[..n][j] == items[j];
        assert before[i] == rows[i];
        assert conv.idOf(items[n]) != rows[i].id;
      }
    }
  }

  // ---- posting pending objects -------------------------------------------

  /** The positions `entriesNeedingSync()` returns, from `i` on, in
      increasing order. */
  function PendingFrom<E>(rows: seq<Row<Managed<E>>>, i: nat): (r: seq<nat>)
    requires i <= |rows|
    ensures forall k :: 0 <= k < |r| ==> i <= r[k] < |rows| && rows[r[k]].val.needsSync
    ensures forall j :: i <= j < |rows| && rows[j].val.needsSync ==> j in r
    ensures forall a, b :: 0 <= a < b < |r| ==> r[a] < r[b]
    decreases |rows| - i
  {
    if i == |rows| then []
    else if rows[i].val.needsSync then [i] + PendingFrom(rows, i + 1)
    else PendingFrom(rows, i + 1)
  }

  function Pending<E>(rows: seq<Row<Managed<E>>>): seq<nat> {
    PendingFrom(rows, 0)
  }

  /** One pass of `syncPendingEntries`: an accepted object takes the server's
      id and fields, online and synced; a failed one is left as it was. */
  function SyncOutcome<D, Req, E>(conv: Conversions<D, Req, E>, row: Row<Managed<E>>, response: Result<D>, now: Instant)
    : Row<Managed<E>>
  {
    if response.Ok? then Row(conv.idOf(response.value), FromServer(conv, response.value, row.val.createdAt, now))
    else row
  }

  predicate Positions<E>(rows: seq<Row<E>>, pending: seq<nat>) {
    forall k :: 0 <= k < |pending| ==> pending[k] < |rows|
  }

  /** The objects after the sync loop has visited `pending`, the `k`-th
      object meeting the `k`-th outcome. */
  function SyncAll<D, Req, E>(conv: Conversions<D, Req, E>, rows: seq<Row<Managed<E>>>, pending: seq<nat>,
                              respond: nat -> Result<D>, now: Instant): (r: seq<Row<Managed<E>>>)
    requires Positions(rows, pending)
    ensures |r| == |rows|
  {
    if pending == [] then rows
    else
      var n := |pending| - 1;
      var before := SyncAll(conv, rows, pending[..n], respond, now);
      before[pending[n] := SyncOutcome(conv, before[pending[n]], respond(n), now)]
  }

  /** The requests the sync loop posts, one per visited object. */
  function Posted<D, Req, E>(conv: Conversions<D, Req, E>, rows: seq<Row<Managed<E>>>, pending: seq<nat>)
    : (r: seq<Req>)
    requires Positions(rows, pending)
    ensures |r| == |pending|
    ensures forall k :: 0 <= k < |pending| ==> r[k] == conv.toCreateRequest(rows[pending[k]].val.fields)
  {
    if pending == [] then []
    else
      var n := |pending| - 1;
      Posted(conv, rows, pending[..n]) + [conv.toCreateRequest(rows[pending[n]].val.fields)]
  }

  /** Visiting distinct positions, the loop gives each visited object its own
      outcome and leaves every other object alone. */
  lemma {:induction false} SyncAllPointwise<D, Req, E>(conv: Conversions<D, Req, E>, rows: seq<Row<Managed<E>>>,
                                                       pending: seq<nat>, respond: nat -> Result<D>, now: Instant)
    requires Positions(rows, pending)
    requires forall a, b :: 0 <= a < b < |pending| ==> pending[a] < pending[b]
    ensures forall k :: 0 <= k < |pending| ==>
              SyncAll(conv, rows, pending, respond, now)[pending[k]]
              == SyncOutcome(conv, rows[pending[k]], respond(k), now)
    ensures forall i :: 0 <= i < |rows| && i !in pending ==> SyncAll(conv, rows, pending, respond, now)[i] == rows[i]
  {
    if pending != [] {
      var n := |pending| - 1;
      var p := pending[..n];
      SyncAllPointwise(conv, rows, p, respond, now);
      assert forall k :: 0 <= k < n ==> p[k] == pending[k];
      assert pending[n] !in p;
      assert forall i :: i in pending <==> i in p || i == pending[n];
    }
  }

  /** The object the loop is about to post has not been touched yet. */
  lemma SyncAllNotYetVisited<D, Req, E>(conv: Conversions<D, Req, E>, rows: seq<Row<Managed<E>>>, pending: seq<nat>,
                                        respond: nat -> Result<D>, now: Instant, k: nat)
    requires Positions(rows, pending) && k < |pending|
    requires forall a, b :: 0 <= a < b < |pending| ==> pending[a] < pending[b]
    ensures Positions(rows, pending[..k])
    ensures SyncAll(conv, rows, pending[..k], respond, now)[pending[k]] == rows[pending[k]]
  {
    SyncAllPointwise(conv, rows, pending[..k], respond, now);
    assert pending[k] !in pending[..k];
  }

  /** One more pass of the loop: the next object meets the next outcome and
      its request is posted. */
  lemma SyncAllStep<D, Req, E>(conv: Conversions<D, Req, E>, rows: seq<Row<Managed<E>>>, pending: seq<nat>,
                               respond: nat -> Result<D>, now: Instant, k: nat)
    requires Positions(rows, pending) && k < |pending|
    ensures Positions(rows, pending[..k]) && Positions(rows, pending[..k + 1])
    ensures var before := SyncAll(conv, rows, pending[..k], respond, now);
            SyncAll(conv, rows, pending[..k + 1], respond, now)
              == before[pending[k] := SyncOutcome(conv, before[pending[k]], respond(k), now)]
    ensures Posted(conv, rows, pending[..k + 1])
              == Posted(conv, rows, pending[..k]) + [conv.toCreateRequest(rows[pending[k]].val.fields)]
  {
    assert pending[..k + 1][..k] == pending[..k];
  }

  /** After the sync loop an object still flagged for sync is one that was
      pending and whose post threw; in particular, if every post succeeds
      no object is left flagged. */
  lemma SyncLeavesOnlyFailures<D, Req, E>(conv: Conversions<D, Req, E>, rows: seq<Row<Managed<E>>>,
                                          respond: nat -> Result<D>, now: Instant)
    ensures var after := SyncAll(conv, rows, Pending(rows), respond, now);
            forall i :: 0 <= i < |after| && after[i].val.needsSync ==>
              exists k :: 0 <= k < |Pending(rows)| && Pending(rows)[k] == i && respond(k).Err?
  {
    var p := Pending(rows);
    var after := SyncAll(conv, rows, p, respond, now);
    SyncAllPointwise(conv, rows, p, respond, now);
    forall i | 0 <= i < |after| && after[i].val.needsSync
      ensures exists k :: 0 <= k < |p| && p[k] == i && respond(k).Err?
    {
      if i in p {
        var k :| 0 <= k < |p| && p[k] == i;
        assert respond(k).Err?;
      }
    }
  }

  /** An accepted object ends up under the server's id with the server's
      fields, online and synced, keeping its `createdAt`. */
  lemma SyncStoresServerCopy<D, Req, E>(conv: Conversions<D, Req, E>, rows: seq<Row<Managed<E>>>,
                                        respond: nat -> Result<D>, now: Instant, k: nat)
    requires k < |Pending(rows)| && respond(k).Ok?
    ensures var i := Pending(rows)[k];
            var after := SyncAll(conv, rows, Pending(rows), respond, now)[i];
            after.id == conv.idOf(respond(k).value) && after.val.fields == conv.fromApi(respond(k).value, now)
            && after.val.isOnline && !after.val.needsSync && after.val.createdAt == rows[i].val.createdAt
  {
    SyncAllPointwise(conv, rows, Pending(rows), respond, now);
  }

  /** `LedgerRepository`, `CategoryRepository` and `BudgetRepository`; the
      current time is a parameter and `uuid` is the `UUID().uuidString` the
      offline path would use. The shipped `NetworkConnectivity` always
      answers true, so `connected` is false only in a configuration the
      app does not build. */
  class OfflineRepository<D, Req, E> {
    /** The Core Data objects of this entity, in store order. */
    var rows: seq<Row<Managed<E>>>
    const conv: Conversions<D, Req, E>

    constructor (conv: Conversions<D, Req, E>)
      ensures this.conv == conv && rows == []
    {
      this.conv := conv;
      rows := [];
    }

    /** `create…`: never throws. The server's object is saved locally; when
        the device is offline or the call throws, the request is stored
        under `uuid` as a pending object. */
    method Create(request: Req, connected: bool, api: Result<D>, uuid: Id, now: Instant) returns (r: D)
      modifies this
      ensures connected && api.Ok? ==> r == api.value && rows == SavedLocally(conv, old(rows), api.value, now)
      ensures !(connected && api.Ok?) ==>
                rows == old(rows) + [OfflineRow(conv, request, uuid, now)]
                && r == conv.toDomain(Row(uuid, conv.fromRequest(request, now)))
    {
      if connected && api.Ok? {
        rows := SavedLocally(conv, rows, api.value, now);
        return api.value;
      }
      var row := OfflineRow(conv, request, uuid, now);
      rows := rows + [row];
      r := conv.toDomain(Row(uuid, row.val.fields));
    }

    /** `update…`: the server's object is saved locally and returned; when
        the device is offline or the call throws, the object with `id` is
        flagged for sync (`OfflineUpdateKeepsFields`) and the error is
        thrown on. */
    method Update(id: Id, request: Req, connected: bool, api: Result<D>, now: Instant) returns (r: Result<D>)
      modifies this
      ensures r.Ok? <==> connected && api.Ok?
      ensures r.Ok? ==> r.value == api.value && rows == SavedLocally(conv, old(rows), api.value, now)
      ensures r.Err? ==> rows == MarkedForSync(old(rows), id, now)
      ensures r.Err? ==> r.message == (if connected then api.message else NetworkUnavailable)
    {
      if connected {
        match api
        case Ok(d) =>
          rows := SavedLocally(conv, rows, d, now);
          r := Ok(d);
        case Err(e) =>
          rows := MarkedForSync(rows, id, now);
          r := Err(e);
      } else {
        rows := MarkedForSync(rows, id, now);
        r := Err(NetworkUnavailable);
      }
    }

    /** `delete…`: the local object is deleted on every path; the call
        succeeds only when the device is connected and the server call
        returns, and otherwise throws. */
    method Delete(id: Id, connected: bool, api: Result<()>) returns (r: Result<()>)
      modifies this
      ensures rows == RemovedLocally(old(rows), id)
      ensures r.Ok? <==> connected && api.Ok?
      ensures r.Err? ==> r.message == (if connected then api.message else NetworkUnavailable)
    {
      rows := RemovedLocally(rows, id);
      if !connected {
        return Err(NetworkUnavailable);
      }
      match api
      case Ok(_) =>
        r := Ok(());
      case Err(e) =>
        r := Err(e);
    }

    /** `sync…FromAPI`, started by `get…` when connected: on success every
        server object is saved locally (`SavedAllKeepsOthers`); a failed
        fetch changes nothing. */
    method SyncFromApi(api: Result<seq<D>>, now: Instant)
      modifies this
      ensures api.Ok? ==> rows == SavedAll(conv, old(rows), api.value, now)
      ensures api.Err? ==> rows == old(rows)
    {
      if api.Ok? {
        var items := api.value;
        ghost var start := rows;
        for k := 0 to |items|
          invariant rows == SavedAll(conv, start, items[..k], now)
        {
          assert items[..k + 1][..k] == items[..k];
          rows := SavedLocally(conv, rows, items[k], now);
        }
        assert items[..|items|] == items;
      }
    }

    /** `syncPendingEntries` (only `LedgerRepository` has it): each object
        flagged for sync is posted once, as its create request, in store
        order; the `k`-th post's outcome is `respond(k)`. An accepted object
        takes the server's id and fields (`SyncStoresServerCopy`), a failed
        one is left as it was (`SyncLeavesOnlyFailures`). */
    method SyncPending(respond: nat -> Result<D>, now: Instant) returns (posted: seq<Req>)
      modifies this
      ensures posted == Posted(conv, old(rows), Pending(old(rows)))
      ensures rows == SyncAll(conv, old(rows), Pending(old(rows)), respond, now)
    {
      var start := rows;
      var pending := Pending(start);
      var objects := start;
      posted := [];
      for k := 0 to |pending|
        invariant Positions(start, pending[..k])
        invariant posted == Posted(conv, start, pending[..k])
        invariant objects == SyncAll(conv, start, pending[..k], respond, now)
      {
        SyncAllNotYetVisited(conv, start, pending, respond, now, k);
        SyncAllStep(conv, start, pending, respond, now, k);
        var i := pending[k];
        posted := posted + [conv.toCreateRequest(objects[i].val.fields)];
        objects := objects[i := SyncOutcome(conv, objects[i], respond(k), now)];
      }
      assert pending[..|pending|] == pending;
      rows := objects;
    }
  }
}
