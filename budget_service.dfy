/** `BudgetService`: family-scoped creation, listing, lookup, update and
    deletion of budgets, and the spending status of a budget over its period
    (the total of the family's live expenses in the period, and the spend of
    each category the budget limits). */
module BudgetService {
  import opened Common
  import opened Tables
  import opened Calendar
  import opened LedgerEntryDomain
  import opened BudgetDomain
  import opened AccountDomain
  import opened LedgerTotals
  import UserService
  import Repo = LedgerEntryRepository

  const NoFamily: string := "User is not associated with any family"
  const PeriodTypeEnum: string := "com.expensetracker.domain.Budget.PeriodType"

  datatype PeriodDto = PeriodDto(periodType: string, start: LocalDate, end: LocalDate)

  datatype CategoryBudgetDto = CategoryBudgetDto(categoryId: Id, limitMinor: int)

  /** `BudgetDTO` after bean validation; a missing per-category list is
      `None`. */
  datatype BudgetDto = BudgetDto(
    name: string,
    period: PeriodDto,
    overallLimitMinor: int,
    includeRecurring: bool,
    alertThresholdPct: int,
    perCategory: Option<seq<CategoryBudgetDto>>)

  // ---------------------------------------------------------------------
  // DTO conversion

  /** `convertPeriodDtoToPeriod`: `PeriodType.valueOf` throws for an
      unknown type name. */
  function ConvertPeriod(dto: PeriodDto): (r: Result<Period>)
    ensures r.Ok? <==> ParsePeriodType(dto.periodType).Some?
    ensures r.Ok? ==> PeriodTypeName(r.value.periodType) == dto.periodType
                      && r.value.start == dto.start && r.value.end == dto.end
    ensures r.Err? ==> r.message == "No enum constant " + PeriodTypeEnum + "." + dto.periodType
  {
    match ParsePeriodType(dto.periodType)
    case Some(t) => Ok(Period(t, dto.start, dto.end))
    case None => Err("No enum constant " + PeriodTypeEnum + "." + dto.periodType)
  }

  /** `convertCategoryBudgets`: null becomes the empty list; otherwise one
      limit per item, in order. */
  function ConvertCategoryBudgets(dtos: Option<seq<CategoryBudgetDto>>): (r: seq<CategoryBudget>)
    ensures dtos.None? ==> r == []
    ensures dtos.Some? ==> |r| == |dtos.value|
                           && forall i :: 0 <= i < |r| ==>
                                (r[i].categoryId == dtos.value[i].categoryId && r[i].limitMinor == dtos.value[i].limitMinor)
    decreases if dtos.Some? then |dtos.value| else 0
  {
    match dtos
    case None => []
    case Some(s) =>
      if s == [] then [] else [CategoryBudget(s[0].categoryId, s[0].limitMinor)] + ConvertCategoryBudgets(Some(s[1..]))
  }

  /** The six editable fields a DTO carries, as `convertDtoToBudget` and
      `updateBudget` set them. */
  predicate CarriesDto(b: Budget, dto: BudgetDto, period: Period) {
    b.name == dto.name && b.period == period && b.overallLimitMinor == dto.overallLimitMinor
    && b.includeRecurring == dto.includeRecurring && b.alertThresholdPct == dto.alertThresholdPct
    && b.perCategory == ConvertCategoryBudgets(dto.perCategory)
  }

  // ---------------------------------------------------------------------
  // BudgetRepository lookups

  /** `findByIdAndFamilyId` */
  function FindInFamily(budgets: seq<Row<Budget>>, id: Id, familyId: Id): (r: Option<Budget>)
    ensures r.Some? <==> Find(budgets, id).Some? && Find(budgets, id).value.familyId == familyId
    ensures r.Some? ==> r == Find(budgets, id)
  {
    match Find(budgets, id)
    case Some(b) => if b.familyId == familyId then Some(b) else None
    case None => None
  }

  /** `findByFamilyId` */
  function FindByFamily(budgets: seq<Row<Budget>>, familyId: Id): (r: seq<Row<Budget>>)
    ensures forall i :: 0 <= i < |r| ==> r[i] in budgets && r[i].val.familyId == familyId
    ensures forall i :: 0 <= i < |budgets| && budgets[i].val.familyId == familyId ==> budgets[i] in r
  {
    Select(budgets, (b: Budget) => b.familyId == familyId)
  }

  // ---------------------------------------------------------------------
  // CRUD

  /** The caller's family, with the two failures every budget operation but
      list and lookup shares. */
  function RequireFamily(users: seq<Row<User>>, userId: Id): (r: Result<Id>)
    ensures r.Ok? <==> UserService.CurrentFamilyId(users, userId).Ok? && UserService.CurrentFamilyId(users, userId).value.Some?
    ensures r.Ok? ==> UserService.CurrentFamilyId(users, userId).value == Some(r.value)
    ensures UserService.CurrentFamilyId(users, userId).Err? ==> r == Err("User not found")
    ensures UserService.CurrentFamilyId(users, userId) == Ok(None) ==> r == Err(NoFamily)
  {
    match UserService.CurrentFamilyId(users, userId)
    case Err(m) => Err(m)
    case Ok(None) => Err(NoFamily)
    case Ok(Some(familyId)) => Ok(familyId)
  }

  /** `createBudget`: the result and the new budget store. */
  function CreateBudgetEffect(users: seq<Row<User>>, budgets: seq<Row<Budget>>, userId: Id, dto: BudgetDto,
                              now: Instant): (out: (Result<Row<Budget>>, seq<Row<Budget>>))
    ensures out.0.Err? ==> out.1 == budgets
    ensures out.0.Ok? <==> RequireFamily(users, userId).Ok? && ConvertPeriod(dto.period).Ok?
    ensures RequireFamily(users, userId).Err? ==> out.0 == Err(RequireFamily(users, userId).message)
    ensures out.0.Ok? ==>
              var row := out.0.value;
              out.1 == budgets + [row] && !HasId(budgets, row.id)
              && row.val.familyId == RequireFamily(users, userId).value
              && CarriesDto(row.val, dto, ConvertPeriod(dto.period).value)
              && row.val.createdAt == now && row.val.updatedAt == now
  {
    match RequireFamily(users, userId)
    case Err(m) => (Err(m), budgets)
    case Ok(familyId) =>
      match ConvertPeriod(dto.period)
      case Err(m) => (Err(m), budgets)
      case Ok(period) =>
        var b := NewBudget(familyId, dto.name, period, dto.overallLimitMinor, now)
                   .(includeRecurring := dto.includeRecurring, alertThresholdPct := dto.alertThresholdPct,
                     perCategory := ConvertCategoryBudgets(dto.perCategory));
        var id := FreshId(budgets);
        (Ok(Row(id, b)), budgets + [Row(id, b)])
  }

  /** `getBudgetsForUser`: nothing for a user without a family. */
  function GetBudgetsForUser(users: seq<Row<User>>, budgets: seq<Row<Budget>>, userId: Id): (r: Result<seq<Row<Budget>>>)
    ensures r.Err? <==> UserService.CurrentFamilyId(users, userId).Err?
    ensures UserService.CurrentFamilyId(users, userId) == Ok(None) ==> r == Ok([])
    ensures RequireFamily(users, userId).Ok? ==> r == Ok(FindByFamily(budgets, RequireFamily(users, userId).value))
  {
    match UserService.CurrentFamilyId(users, userId)
    case Err(m) => Err(m)
    case Ok(None) => Ok([])
    case Ok(Some(familyId)) => Ok(FindByFamily(budgets, familyId))
  }

  /** `getBudgetById`: empty for a user without a family. */
  function GetBudgetById(users: seq<Row<User>>, budgets: seq<Row<Budget>>, userId: Id, budgetId: Id)
    : (r: Result<Option<Budget>>)
    ensures r.Err? <==> UserService.CurrentFamilyId(users, userId).Err?
    ensures UserService.CurrentFamilyId(users, userId) == Ok(None) ==> r == Ok(None)
    ensures RequireFamily(users, userId).Ok? ==> r == Ok(FindInFamily(budgets, budgetId, RequireFamily(users, userId).value))
  {
    match UserService.CurrentFamilyId(users, userId)
    case Err(m) => Err(m)
    case Ok(None) => Ok(None)
    case Ok(Some(familyId)) => Ok(FindInFamily(budgets, budgetId, familyId))
  }

  /** The budget `updateBudget` saves: the six DTO fields over the stored
      budget; family and both timestamps are kept (updatedAt is not
      refreshed). */
  function UpdatedBudget(b: Budget, dto: BudgetDto, period: Period): (u: Budget)
    ensures CarriesDto(u, dto, period)
    ensures u.familyId == b.familyId && u.createdAt == b.createdAt && u.updatedAt == b.updatedAt
  {
    b.(name := dto.name, period := period, overallLimitMinor := dto.overallLimitMinor,
       includeRecurring := dto.includeRecurring, alertThresholdPct := dto.alertThresholdPct,
       perCategory := ConvertCategoryBudgets(dto.perCategory))
  }

  /** `updateBudget`: the result and the new budget store. */
  function UpdateBudgetEffect(users: seq<Row<User>>, budgets: seq<Row<Budget>>, userId: Id, budgetId: Id,
                              dto: BudgetDto): (out: (Result<Row<Budget>>, seq<Row<Budget>>))
    ensures out.0.Err? ==> out.1 == budgets
    ensures out.0.Ok? <==> RequireFamily(users, userId).Ok?
                           && FindInFamily(budgets, budgetId, RequireFamily(users, userId).value).Some?
                           && ConvertPeriod(dto.period).Ok?
    ensures RequireFamily(users, userId).Err? ==> out.0 == Err(RequireFamily(users, userId).message)
    ensures (RequireFamily(users, userId).Ok? && FindInFamily(budgets, budgetId, RequireFamily(users, userId).value).None?)
              ==> out.0 == Err("Budget not found")
    ensures out.0.Ok? ==>
              var u := UpdatedBudget(Find(budgets, budgetId).value, dto, ConvertPeriod(dto.period).value);
              out.0.value == Row(budgetId, u) && out.1 == Upsert(budgets, budgetId, u)
  {
    match RequireFamily(users, userId)
    case Err(m) => (Err(m), budgets)
    case Ok(familyId) =>
      match FindInFamily(budgets, budgetId, familyId)
      case None => (Err("Budget not found"), budgets)
      case Some(b) =>
        match ConvertPeriod(dto.period)
        case Err(m) => (Err(m), budgets)
        case Ok(period) =>
          var u := UpdatedBudget(b, dto, period);
          (Ok(Row(budgetId, u)), Upsert(budgets, budgetId, u))
  }

  /** `deleteBudget`: `deleteByIdAndFamilyId` removes the budget only when it
      belongs to the caller's family, and is silent otherwise. */
  function DeleteBudgetEffect(users: seq<Row<User>>, budgets: seq<Row<Budget>>, userId: Id, budgetId: Id)
    : (out: (Result<()>, seq<Row<Budget>>))
    ensures out.0.Ok? <==> RequireFamily(users, userId).Ok?
    ensures out.0.Err? ==> out.1 == budgets && out.0.message == RequireFamily(users, userId).message
    ensures out.0.Ok? && FindInFamily(budgets, budgetId, RequireFamily(users, userId).value).None? ==> out.1 == budgets
    ensures out.0.Ok? && FindInFamily(budgets, budgetId, RequireFamily(users, userId).value).Some? ==>
              out.1 == Remove(budgets, budgetId)
  {
    match RequireFamily(users, userId)
    case Err(m) => (Err(m), budgets)
    case Ok(familyId) =>
      if FindInFamily(budgets, budgetId, familyId).Some? then (Ok(()), Remove(budgets, budgetId)) else (Ok(()), budgets)
  }

  /** Budgets of other families are out of reach: update, delete and status
      of a budget stored for another family change nothing and report the
      budget as missing (delete says nothing). */
  lemma OtherFamilyBudgetIsUntouchable(users: seq<Row<User>>, budgets: seq<Row<Budget>>, entries: seq<Row<LedgerEntry>>,
                                       userId: Id, budgetId: Id, dto: BudgetDto)
    requires RequireFamily(users, userId).Ok?
    requires Find(budgets, budgetId).Some? && Find(budgets, budgetId).value.familyId != RequireFamily(users, userId).value
    ensures UpdateBudgetEffect(users, budgets, userId, budgetId, dto) == (Err("Budget not found"), budgets)
    ensures DeleteBudgetEffect(users, budgets, userId, budgetId) == (Ok(()), budgets)
    ensures GetBudgetSpendingStatus(users, budgets, entries, userId, budgetId) == Err("Budget not found")
  {
  }

  // ---------------------------------------------------------------------
  // getBudgetSpendingStatus and buildBudgetSpendDTO

  datatype CategorySpending = CategorySpending(categoryId: Id, limitMinor: int, spentMinor: int)

  datatype BudgetSpend = BudgetSpend(
    periodStart: LocalDate,
    periodEnd: LocalDate,
    overallLimitMinor: int,
    overallSpentMinor: int,
    byCategory: seq<CategorySpending>)

  /** The entries the status counts: the family's live EXPENSE entries from
      the start of the first day (00:00:00 UTC) to 23:59:59 UTC of the last
      day, both bounds inclusive. */
  predicate Counted(e: LedgerEntry, familyId: Id, p: Period) {
    Repo.InRange(e, Some(familyId), StartOfDay(p.start, 0), EndOfDayUtc(p.end)) && e.txType == EXPENSE
  }

  function SpendingEntries(entries: seq<Row<LedgerEntry>>, familyId: Id, p: Period): (r: seq<Row<LedgerEntry>>)
    ensures forall i :: 0 <= i < |r| ==> r[i] in entries && Counted(r[i].val, familyId, p)
    ensures forall i :: 0 <= i < |entries| && Counted(entries[i].val, familyId, p) ==> entries[i] in r
  {
    Select(entries, (e: LedgerEntry) => Counted(e, familyId, p))
  }

  /** The per-category rows, one per budgeted category in the budget's own
      order, spent read from the grouped sums with a default of zero. */
  function CategoryRows(perCategory: seq<CategoryBudget>, byCategory: map<Id, int>): (r: seq<CategorySpending>)
    ensures |r| == |perCategory|
    ensures forall i :: 0 <= i < |r| ==>
              r[i] == CategorySpending(perCategory[i].categoryId, perCategory[i].limitMinor,
                                       GetOrDefault(byCategory, perCategory[i].categoryId, 0))
  {
    if perCategory == [] then []
    else
      var c := perCategory[0];
      [CategorySpending(c.categoryId, c.limitMinor, GetOrDefault(byCategory, c.categoryId, 0))]
        + CategoryRows(perCategory[1..], byCategory)
  }

  /** `buildBudgetSpendDTO(budget, totalSpent, spendingByCategory)` */
  function BuildBudgetSpend(b: Budget, totalSpent: int, byCategory: map<Id, int>): BudgetSpend {
    BudgetSpend(b.period.start, b.period.end, b.overallLimitMinor, totalSpent, CategoryRows(b.perCategory, byCategory))
  }

  /** The status of one stored budget. */
  function SpendingStatusOf(b: Budget, entries: seq<Row<LedgerEntry>>, familyId: Id): BudgetSpend {
    var counted := SpendingEntries(entries, familyId, b.period);
    BuildBudgetSpend(b, SumMinor(counted), GroupByCategory(counted))
  }

  /** `getBudgetSpendingStatus` */
  function GetBudgetSpendingStatus(users: seq<Row<User>>, budgets: seq<Row<Budget>>, entries: seq<Row<LedgerEntry>>,
                                   userId: Id, budgetId: Id): (r: Result<BudgetSpend>)
    ensures r.Ok? <==> RequireFamily(users, userId).Ok?
                       && FindInFamily(budgets, budgetId, RequireFamily(users, userId).value).Some?
    ensures RequireFamily(users, userId).Err? ==> r == Err(RequireFamily(users, userId).message)
    ensures (RequireFamily(users, userId).Ok? && FindInFamily(budgets, budgetId, RequireFamily(users, userId).value).None?)
              ==> r == Err("Budget not found")
    ensures r.Ok? ==> r.value == SpendingStatusOf(Find(budgets, budgetId).value, entries, RequireFamily(users, userId).value)
  {
    match RequireFamily(users, userId)
    case Err(m) => Err(m)
    case Ok(familyId) =>
      match FindInFamily(budgets, budgetId, familyId)
      case None => Err("Budget not found")
      case Some(b) => Ok(SpendingStatusOf(b, entries, familyId))
  }

  /** What the status means: the overall limit is the budget's, overall
      spent is the sum of the counted entries, and each budgeted category
      gets a row, in order, with its limit and the sum of its counted
      entries (zero when it has none). */
  lemma SpendingStatusMeaning(b: Budget, entries: seq<Row<LedgerEntry>>, familyId: Id)
    ensures var s := SpendingStatusOf(b, entries, familyId);
      var counted := SpendingEntries(entries, familyId, b.period);
      s.periodStart == b.period.start && s.periodEnd == b.period.end
      && s.overallLimitMinor == b.overallLimitMinor && s.overallSpentMinor == SumMinor(counted)
      && |s.byCategory| == |b.perCategory|
      && forall i :: 0 <= i < |b.perCategory| ==>
           s.byCategory[i].categoryId == b.perCategory[i].categoryId
           && s.byCategory[i].limitMinor == b.perCategory[i].limitMinor
           && s.byCategory[i].spentMinor == CategorySum(counted, b.perCategory[i].categoryId)
  {
    var counted := SpendingEntries(entries, familyId, b.period);
    forall i | 0 <= i < |b.perCategory|
      ensures GetOrDefault(GroupByCategory(counted), b.perCategory[i].categoryId, 0)
           == CategorySum(counted, b.perCategory[i].categoryId)
    {
      GroupByCategoryIsCategorySum(counted, b.perCategory[i].categoryId);
    }
  }

  function SpentTotal(rows: seq<CategorySpending>): int {
    if rows == [] then 0 else rows[0].spentMinor + SpentTotal(rows[1..])
  }

  function CategoryIds(perCategory: seq<CategoryBudget>): (r: seq<Id>)
    ensures |r| == |perCategory| && forall i :: 0 <= i < |r| ==> r[i] == perCategory[i].categoryId
  {
    if perCategory == [] then [] else [perCategory[0].categoryId] + CategoryIds(perCategory[1..])
  }

  lemma {:induction false} SpentTotalIsSumOverCategories(perCategory: seq<CategoryBudget>, counted: seq<Row<LedgerEntry>>)
    ensures SpentTotal(CategoryRows(perCategory, GroupByCategory(counted)))
         == SumOverKeys(counted, CategoryOf, CategoryIds(perCategory))
  {
    if perCategory != [] {
      SpentTotalIsSumOverCategories(perCategory[1..], counted);
      GroupByCategoryIsCategorySum(counted, perCategory[0].categoryId);
    }
  }

  /** Spend on categories the budget does not list counts toward the overall
      figure only, so with distinct budgeted categories and amounts that are
      not negative the category rows add up to at most the overall spend. */
  lemma CategorySpendWithinOverall(b: Budget, entries: seq<Row<LedgerEntry>>, familyId: Id)
    requires Distinct(CategoryIds(b.perCategory))
    requires forall i :: 0 <= i < |entries| ==> ValidAmount(entries[i].val.amount)
    ensures var s := SpendingStatusOf(b, entries, familyId);
      0 <= SpentTotal(s.byCategory) <= s.overallSpentMinor
  {
    var counted := SpendingEntries(entries, familyId, b.period);
    SpentTotalIsSumOverCategories(b.perCategory, counted);
    DistinctKeySumsBounded(counted, CategoryOf, CategoryIds(b.perCategory));
  }

  /** Neither the include-recurring flag nor the alert threshold changes the
      status. */
  lemma StatusIgnoresRecurringAndThreshold(b: Budget, entries: seq<Row<LedgerEntry>>, familyId: Id,
                                           includeRecurring: bool, alertThresholdPct: int)
    ensures SpendingStatusOf(b.(includeRecurring := includeRecurring, alertThresholdPct := alertThresholdPct), entries, familyId)
         == SpendingStatusOf(b, entries, familyId)
  {
  }

  class BudgetService {
    const budgets: Table<Budget>
    const entries: Table<LedgerEntry>
    const users: Table<User>

    ghost predicate Valid()
      reads this, budgets, entries, users
    {
      budgets.Valid() && entries.Valid() && users.Valid()
    }

    constructor (budgets: Table<Budget>, entries: Table<LedgerEntry>, users: Table<User>)
      ensures this.budgets == budgets && this.entries == entries && this.users == users
    {
      this.budgets := budgets;
      this.entries := entries;
      this.users := users;
    }

    method CreateBudget(userId: Id, dto: BudgetDto, now: Instant) returns (r: Result<Row<Budget>>)
      requires Valid()
      modifies budgets
      ensures Valid()
      ensures (r, budgets.rows) == CreateBudgetEffect(users.rows, old(budgets.rows), userId, dto, now)
    {
      var familyId := RequireFamily(users.rows, userId);
      if familyId.Err? {
        return Err(familyId.message);
      }
      var period := ConvertPeriod(dto.period);
      if period.Err? {
        return Err(period.message);
      }
      var b := NewBudget(familyId.value, dto.name, period.value, dto.overallLimitMinor, now);
      b := b.(includeRecurring := dto.includeRecurring);
      b := b.(alertThresholdPct := dto.alertThresholdPct);
      b := b.(perCategory := ConvertCategoryBudgets(dto.perCategory));
      var id := budgets.Insert(b);
      r := Ok(Row(id, b));
    }

    method UpdateBudget(userId: Id, budgetId: Id, dto: BudgetDto) returns (r: Result<Row<Budget>>)
      requires Valid()
      modifies budgets
      ensures Valid()
      ensures (r, budgets.rows) == UpdateBudgetEffect(users.rows, old(budgets.rows), userId, budgetId, dto)
    {
      var familyId := RequireFamily(users.rows, userId);
      if familyId.Err? {
        return Err(familyId.message);
      }
      var existing := FindInFamily(budgets.rows, budgetId, familyId.value);
      if existing.None? {
        return Err("Budget not found");
      }
      var period := ConvertPeriod(dto.period);
      if period.Err? {
        return Err(period.message);
      }
      var u := existing.value;
      u := u.(name := dto.name);
      u := u.(period := period.value);
      u := u.(overallLimitMinor := dto.overallLimitMinor);
      u := u.(includeRecurring := dto.includeRecurring);
      u := u.(alertThresholdPct := dto.alertThresholdPct);
      u := u.(perCategory := ConvertCategoryBudgets(dto.perCategory));
      budgets.Save(budgetId, u);
      r := Ok(Row(budgetId, u));
    }

    method DeleteBudget(userId: Id, budgetId: Id) returns (r: Result<()>)
      requires Valid()
      modifies budgets
      ensures Valid()
      ensures (r, budgets.rows) == DeleteBudgetEffect(users.rows, old(budgets.rows), userId, budgetId)
    {
      var familyId := RequireFamily(users.rows, userId);
      if familyId.Err? {
        return Err(familyId.message);
      }
      if FindInFamily(budgets.rows, budgetId, familyId.value).Some? {
        budgets.Delete(budgetId);
      }
      r := Ok(());
    }
  }
}
