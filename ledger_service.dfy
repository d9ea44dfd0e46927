/** `LedgerService`: family-scoped creation, update, soft deletion and
    listing of ledger entries. Each operation is a method on the service that
    changes the ledger store in place, specified by a function that gives its
    result and the new store. */
module LedgerService {
  import opened Common
  import opened Tables
  import opened LedgerEntryDomain
  import opened AccountDomain
  import CategoryDomain
  import UserService
  import Repo = LedgerEntryRepository

  /** `CreateLedgerEntryRequest`, after its bean validation. */
  datatype CreateLedgerEntryRequest = CreateLedgerEntryRequest(
    memberId: Id,
    txType: TransactionType,
    amountMinor: int,
    currency: string,
    categoryId: Id,
    occurredAt: Instant,
    notes: Option<string>,
    attachments: Option<seq<string>>)

  datatype LedgerEntryResponse = LedgerEntryResponse(
    id: Id,
    memberId: Id,
    txType: TransactionType,
    amountMinor: int,
    currency: string,
    categoryId: Id,
    categoryName: string,
    occurredAt: Instant,
    notes: Option<string>,
    attachments: Option<seq<string>>,
    recurringId: Option<Id>,
    createdAt: Instant,
    updatedAt: Instant)

  /** `toResponse(entry, categoryName)` */
  function ToResponse(id: Id, e: LedgerEntry, categoryName: string): LedgerEntryResponse {
    LedgerEntryResponse(id, e.memberId, e.txType, e.amount.minor, e.amount.currency, e.categoryId, categoryName,
      e.occurredAt, e.notes, e.attachments, e.recurringId, e.createdAt, e.updatedAt)
  }

  /** `getCategoryName`: looked up by id alone, with no family or deletion
      filter, and "Unknown" when there is no such category. */
  function CategoryName(categories: seq<Row<CategoryDomain.Category>>, categoryId: Id): (name: string)
    ensures !HasId(categories, categoryId) ==> name == "Unknown"
    ensures HasId(categories, categoryId) ==> Row(categoryId, Find(categories, categoryId).value.(name := name)) in categories
  {
    match Find(categories, categoryId)
    case Some(c) => c.name
    case None => "Unknown"
  }

  /** The entry `createEntry` builds: the family is the caller's, never the
      request's; notes and attachments are copied; it is live and has no
      recurring rule. */
  function EntryFromRequest(familyId: Option<Id>, req: CreateLedgerEntryRequest, now: Instant): (e: LedgerEntry)
    ensures e.familyId == familyId && IsLive(e) && e.recurringId.None?
    ensures e.memberId == req.memberId && e.txType == req.txType && e.categoryId == req.categoryId
    ensures e.amount == MoneyAmount(req.amountMinor, req.currency) && e.occurredAt == req.occurredAt
    ensures e.notes == req.notes && e.attachments == req.attachments
    ensures e.createdAt == now && e.updatedAt == now
  {
    NewLedgerEntry(familyId, req.memberId, req.txType, MoneyAmount(req.amountMinor, req.currency),
      req.categoryId, req.occurredAt, now).(notes := req.notes, attachments := req.attachments)
  }

  /** The entry `updateEntry` saves: the seven request fields replace the
      old ones and updatedAt is refreshed; family, creation time, recurring
      link and deletion mark are kept. */
  function ApplyUpdate(e: LedgerEntry, req: CreateLedgerEntryRequest, now: Instant): (u: LedgerEntry)
    ensures u.familyId == e.familyId && u.createdAt == e.createdAt && u.recurringId == e.recurringId
    ensures u.deletedAt == e.deletedAt
    ensures u == EntryFromRequest(e.familyId, req, now).(createdAt := e.createdAt, recurringId := e.recurringId,
                                                         deletedAt := e.deletedAt)
  {
    e.(memberId := req.memberId, txType := req.txType, amount := MoneyAmount(req.amountMinor, req.currency),
       categoryId := req.categoryId, occurredAt := req.occurredAt, notes := req.notes,
       attachments := req.attachments, updatedAt := now)
  }

  /** `createEntry`: the result and the new ledger. */
  function CreateEntryEffect(users: seq<Row<User>>, categories: seq<Row<CategoryDomain.Category>>,
                             entries: seq<Row<LedgerEntry>>, userId: Id, req: CreateLedgerEntryRequest,
                             now: Instant): (out: (Result<LedgerEntryResponse>, seq<Row<LedgerEntry>>))
    ensures out.0.Err? ==> out.1 == entries
    ensures out.0.Err? <==> (UserService.CurrentFamilyId(users, userId).Err?
              || CategoryDomain.FindLive(categories, req.categoryId, UserService.CurrentFamilyId(users, userId).value).None?)
    ensures UserService.CurrentFamilyId(users, userId).Ok? && out.0.Err? ==> out.0.message == "Category not found"
    ensures out.0.Ok? ==>
              var e := EntryFromRequest(UserService.CurrentFamilyId(users, userId).value, req, now);
              out.1 == entries + [Row(FreshId(entries), e)] && out.0.value.id == FreshId(entries)
  {
    match UserService.CurrentFamilyId(users, userId)
    case Err(m) => (Err(m), entries)
    case Ok(familyId) =>
      match CategoryDomain.FindLive(categories, req.categoryId, familyId)
      case None => (Err("Category not found"), entries)
      case Some(category) =>
        var e := EntryFromRequest(familyId, req, now);
        var id := FreshId(entries);
        (Ok(ToResponse(id, e, category.name)), entries + [Row(id, e)])
  }

  /** `updateEntry`: the result and the new ledger. */
  function UpdateEntryEffect(users: seq<Row<User>>, categories: seq<Row<CategoryDomain.Category>>,
                             entries: seq<Row<LedgerEntry>>, userId: Id, entryId: Id,
                             req: CreateLedgerEntryRequest, now: Instant): (out: (Result<LedgerEntryResponse>, seq<Row<LedgerEntry>>))
    ensures out.0.Err? ==> out.1 == entries
    ensures UserService.CurrentFamilyId(users, userId).Ok? ==>
              var familyId := UserService.CurrentFamilyId(users, userId).value;
              (Repo.FindLive(entries, entryId, familyId).None? ==> out.0 == Err("Ledger entry not found"))
              && ((Repo.FindLive(entries, entryId, familyId).Some?
                   && CategoryDomain.FindLive(categories, req.categoryId, familyId).None?) ==> out.0 == Err("Category not found"))
              && ((Repo.FindLive(entries, entryId, familyId).Some?
                   && CategoryDomain.FindLive(categories, req.categoryId, familyId).Some?) ==>
                    out.0.Ok? && out.1 == Upsert(entries, entryId, ApplyUpdate(Find(entries, entryId).value, req, now)))
  {
    match UserService.CurrentFamilyId(users, userId)
    case Err(m) => (Err(m), entries)
    case Ok(familyId) =>
      match Repo.FindLive(entries, entryId, familyId)
      case None => (Err("Ledger entry not found"), entries)
      case Some(e) =>
        match CategoryDomain.FindLive(categories, req.categoryId, familyId)
        case None => (Err("Category not found"), entries)
        case Some(category) =>
          var u := ApplyUpdate(e, req, now);
          (Ok(ToResponse(entryId, u, category.name)), Upsert(entries, entryId, u))
  }

  /** `deleteEntry`: soft deletion, or the error it throws. */
  function DeleteEntryEffect(users: seq<Row<User>>, entries: seq<Row<LedgerEntry>>, userId: Id, entryId: Id,
                             now: Instant): (out: (Result<()>, seq<Row<LedgerEntry>>))
    ensures out.0.Err? ==> out.1 == entries
    ensures UserService.CurrentFamilyId(users, userId).Ok? ==>
              var familyId := UserService.CurrentFamilyId(users, userId).value;
              (out.0.Err? <==> Repo.FindLive(entries, entryId, familyId).None?)
              && (out.0.Err? ==> out.0.message == "Ledger entry not found")
              && (out.0.Ok? ==> out.1 == Upsert(entries, entryId, Find(entries, entryId).value.(deletedAt := Some(now))))
  {
    match UserService.CurrentFamilyId(users, userId)
    case Err(m) => (Err(m), entries)
    case Ok(familyId) =>
      match Repo.FindLive(entries, entryId, familyId)
      case None => (Err("Ledger entry not found"), entries)
      case Some(e) => (Ok(()), Upsert(entries, entryId, e.(deletedAt := Some(now))))
  }

  /** Soft deletion keeps the document but hides it: a second delete of the
      same entry fails, and so does an update. */
  lemma {:induction false} DeletedEntryIsGone(users: seq<Row<User>>, categories: seq<Row<CategoryDomain.Category>>,
                                              entries: seq<Row<LedgerEntry>>, userId: Id, entryId: Id,
                                              req: CreateLedgerEntryRequest, now: Instant, later: Instant)
    requires DeleteEntryEffect(users, entries, userId, entryId, now).0.Ok?
    ensures var after := DeleteEntryEffect(users, entries, userId, entryId, now).1;
      HasId(after, entryId) && Find(after, entryId).value.deletedAt == Some(now)
      && DeleteEntryEffect(users, after, userId, entryId, later).0 == Err("Ledger entry not found")
      && UpdateEntryEffect(users, categories, after, userId, entryId, req, later).0 == Err("Ledger entry not found")
  {
    var e := Find(entries, entryId).value;
    FindAfterUpsert(entries, entryId, e.(deletedAt := Some(now)), entryId);
  }

  /** An entry created by `createEntry` is immediately visible to the
      family-scoped lookup of its creator. */
  lemma {:induction false} CreatedEntryIsFound(users: seq<Row<User>>, categories: seq<Row<CategoryDomain.Category>>,
                                               entries: seq<Row<LedgerEntry>>, userId: Id,
                                               req: CreateLedgerEntryRequest, now: Instant)
    requires CreateEntryEffect(users, categories, entries, userId, req, now).0.Ok?
    ensures var out := CreateEntryEffect(users, categories, entries, userId, req, now);
      Repo.FindLive(out.1, out.0.value.id, UserService.CurrentFamilyId(users, userId).value)
        == Some(EntryFromRequest(UserService.CurrentFamilyId(users, userId).value, req, now))
  {
    var familyId := UserService.CurrentFamilyId(users, userId).value;
    var e := EntryFromRequest(familyId, req, now);
    FindAfterUpsert(entries, FreshId(entries), e, FreshId(entries));
  }

  function Responses(rows: seq<Row<LedgerEntry>>, categories: seq<Row<CategoryDomain.Category>>): (r: seq<LedgerEntryResponse>)
    ensures |r| == |rows|
    ensures forall i :: 0 <= i < |rows| ==> r[i] == ToResponse(rows[i].id, rows[i].val, CategoryName(categories, rows[i].val.categoryId))
  {
    if rows == [] then []
    else [ToResponse(rows[0].id, rows[0].val, CategoryName(categories, rows[0].val.categoryId))] + Responses(rows[1..], categories)
  }

  /** `getEntries`: the page of the family's live entries (of the given type,
      if any), newest first. `from`, `to`, `categoryId` and `memberId` are
      accepted and not used. */
  function GetEntries(users: seq<Row<User>>, categories: seq<Row<CategoryDomain.Category>>,
                      entries: seq<Row<LedgerEntry>>, userId: Id, t: Option<TransactionType>,
                      from: Option<Instant>, to: Option<Instant>, categoryId: Option<Id>, memberId: Option<Id>,
                      page: int, size: int): (r: Result<seq<LedgerEntryResponse>>)
    ensures r.Ok? <==> UserService.CurrentFamilyId(users, userId).Ok? && page >= 0 && size >= 1
    ensures r.Ok? ==> |r.value| <= size
    ensures r.Ok? ==>
              var live := Repo.FindLiveOfFamily(entries, UserService.CurrentFamilyId(users, userId).value, t);
              var sorted := Repo.SortNewestFirst(live, Repo.OccurredAt);
              r.value == Responses(Repo.PageOf(sorted, page, size).value, categories)
  {
    var familyId := UserService.CurrentFamilyId(users, userId);
    if familyId.Err? then Err(familyId.message)
    else
      var sorted := Repo.SortNewestFirst(Repo.FindLiveOfFamily(entries, familyId.value, t), Repo.OccurredAt);
      var rows := Repo.PageOf(sorted, page, size);
      if rows.Err? then Err(rows.message) else Ok(Responses(rows.value, categories))
  }

  /** The date-range, category and member arguments of `getEntries` never
      change its answer. */
  lemma GetEntriesIgnoresFilters(users: seq<Row<User>>, categories: seq<Row<CategoryDomain.Category>>,
                                 entries: seq<Row<LedgerEntry>>, userId: Id, t: Option<TransactionType>,
                                 from: Option<Instant>, to: Option<Instant>, categoryId: Option<Id>, memberId: Option<Id>,
                                 page: int, size: int)
    ensures GetEntries(users, categories, entries, userId, t, from, to, categoryId, memberId, page, size)
         == GetEntries(users, categories, entries, userId, t, None, None, None, None, page, size)
  {
  }

  /** `getRecentEntries`: the top-5 lookup mapped to responses. */
  function GetRecentEntries(users: seq<Row<User>>, categories: seq<Row<CategoryDomain.Category>>,
                            entries: seq<Row<LedgerEntry>>, userId: Id): (r: Result<seq<LedgerEntryResponse>>)
    ensures r.Ok? <==> UserService.CurrentFamilyId(users, userId).Ok?
    ensures r.Ok? ==> |r.value| <= 5
    ensures r.Ok? ==> r.value == Responses(Repo.FindTop5(entries, UserService.CurrentFamilyId(users, userId).value), categories)
  {
    match UserService.CurrentFamilyId(users, userId)
    case Err(m) => Err(m)
    case Ok(familyId) =>
      Repo.Top5Properties(entries, familyId);
      Ok(Responses(Repo.FindTop5(entries, familyId), categories))
  }

  class LedgerService {
    const entries: Table<LedgerEntry>
    const categories: Table<CategoryDomain.Category>
    const users: Table<User>

    ghost predicate Valid()
      reads this, entries, categories, users
    {
      entries.Valid() && categories.Valid() && users.Valid()
    }

    constructor (entries: Table<LedgerEntry>, categories: Table<CategoryDomain.Category>, users: Table<User>)
      ensures this.entries == entries && this.categories == categories && this.users == users
    {
      this.entries := entries;
      this.categories := categories;
      this.users := users;
    }

    method CreateEntry(userId: Id, req: CreateLedgerEntryRequest, now: Instant) returns (r: Result<LedgerEntryResponse>)
      requires Valid()
      modifies entries
      ensures Valid()
      ensures (r, entries.rows) == CreateEntryEffect(users.rows, categories.rows, old(entries.rows), userId, req, now)
    {
      var familyId := UserService.CurrentFamilyId(users.rows, userId);
      if familyId.Err? {
        return Err(familyId.message);
      }
      var category := CategoryDomain.FindLive(categories.rows, req.categoryId, familyId.value);
      if category.None? {
        return Err("Category not found");
      }
      var entry := EntryFromRequest(familyId.value, req, now);
      var id := entries.Insert(entry);
      r := Ok(ToResponse(id, entry, category.value.name));
    }

    method UpdateEntry(userId: Id, entryId: Id, req: CreateLedgerEntryRequest, now: Instant) returns (r: Result<LedgerEntryResponse>)
      requires Valid()
      modifies entries
      ensures Valid()
      ensures (r, entries.rows) == UpdateEntryEffect(users.rows, categories.rows, old(entries.rows), userId, entryId, req, now)
    {
      var familyId := UserService.CurrentFamilyId(users.rows, userId);
      if familyId.Err? {
        return Err(familyId.message);
      }
      var entry := Repo.FindLive(entries.rows, entryId, familyId.value);
      if entry.None? {
        return Err("Ledger entry not found");
      }
      var category := CategoryDomain.FindLive(categories.rows, req.categoryId, familyId.value);
      if category.None? {
        return Err("Category not found");
      }
      var updated := ApplyUpdate(entry.value, req, now);
      entries.Save(entryId, updated);
      r := Ok(ToResponse(entryId, updated, category.value.name));
    }

    method DeleteEntry(userId: Id, entryId: Id, now: Instant) returns (r: Result<()>)
      requires Valid()
      modifies entries
      ensures Valid()
      ensures (r, entries.rows) == DeleteEntryEffect(users.rows, old(entries.rows), userId, entryId, now)
    {
      var familyId := UserService.CurrentFamilyId(users.rows, userId);
      if familyId.Err? {
        return Err(familyId.message);
      }
      var entry := Repo.FindLive(entries.rows, entryId, familyId.value);
      if entry.None? {
        return Err("Ledger entry not found");
      }
      entries.Save(entryId, entry.value.(deletedAt := Some(now)));
      r := Ok(());
    }
  }
}
