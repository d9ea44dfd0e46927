/** `ReportService`: the family report over a date range (totals, spending
    per category, income and expense per month, the ten most recently
    created entries) and the CSV export. The accumulation loops of the
    source are methods proved against the sums of `LedgerTotals`; the map
    iteration order of the source is unspecified, so the per-category and
    per-month lists are specified as any duplicate-free listing of the
    accumulated maps. */
module ReportService {
  import opened Common
  import opened Tables
  import opened Calendar
  import opened Formatting
  import opened LedgerEntryDomain
  import opened LedgerTotals
  import opened UserService
  import Repo = LedgerEntryRepository

  function NoFamilyForReports(): string { "User must belong to a family to generate reports" }
  function NoFamilyForExport(): string { "User must belong to a family to export data" }
  function CsvHeader(): string { "Date,Type,Amount,Currency,Category,Member,Description\n" }
  function CsvContentType(): string { "text/csv" }
  const RecentLimit := 10

  datatype CategorySummary = CategorySummary(categoryId: Id, spentMinor: int)
  datatype MonthlySummary = MonthlySummary(month: string, incomeMinor: int, expenseMinor: int)
  datatype TransactionSummary = TransactionSummary(id: Id, categoryId: Id, amountMinor: int)
  datatype ReportSummary = ReportSummary(
    totalIncomeMinor: int,
    totalExpensesMinor: int,
    balanceMinor: int,
    perCategory: seq<CategorySummary>,
    perMonth: seq<MonthlySummary>,
    recentTransactions: seq<TransactionSummary>)
  datatype ExportResponse = ExportResponse(content: string, contentType: string, filename: string)

  /** The accumulator of one month (`MonthlyData`). */
  datatype MonthlyData = MonthlyData(income: int, expense: int)

  predicate IsIncome(e: LedgerEntry) { e.txType == INCOME }

  /** Every entry that is not income counts as an expense in the totals. */
  predicate IsExpense(e: LedgerEntry) { e.txType == EXPENSE }

  function Income(rows: seq<Row<LedgerEntry>>): int { SumMinor(Select(rows, IsIncome)) }

  function Expenses(rows: seq<Row<LedgerEntry>>): int { SumMinor(Select(rows, IsExpense)) }

  /** Income and expenses split the entries: together they are the sum of
      all amounts. */
  lemma IncomePlusExpenses(rows: seq<Row<LedgerEntry>>)
    ensures Income(rows) + Expenses(rows) == SumMinor(rows)
  {
    SumSplit(rows, IsIncome, IsExpense);
  }

  /** The entries a report covers: live entries of the family that occurred
      from `start` 00:00:00 UTC to `end` 23:59:59 UTC, both inclusive. */
  function ReportEntries(entries: seq<Row<LedgerEntry>>, familyId: Id, start: LocalDate, end: LocalDate): seq<Row<LedgerEntry>> {
    Repo.FindInRange(entries, Some(familyId), StartOfDay(start, 0), EndOfDayUtc(end))
  }

  /** The upper bound is the start of the last second of `end`: an entry in
      the final second of the end date, after 23:59:59.000, is not covered. */
  lemma LastSecondIsNotCovered(entries: seq<Row<LedgerEntry>>, familyId: Id, start: LocalDate, end: LocalDate, i: int)
    requires 0 <= i < |entries|
    requires entries[i].val.occurredAt == StartOfDay(end, 0) + DayMs - 1
    ensures DateOfEpochDay(entries[i].val.occurredAt / DayMs) == end
    ensures entries[i] !in ReportEntries(entries, familyId, start, end)
  {
    var t := entries[i].val.occurredAt;
    assert t / DayMs == EpochDay(end);
    EpochDayInjective(DateOfEpochDay(t / DayMs), end);
  }

  /** The totals loop. */
  method Totals(rows: seq<Row<LedgerEntry>>) returns (income: int, expenses: int)
    ensures income == Income(rows) && expenses == Expenses(rows)
  {
    income, expenses := 0, 0;
    var i := 0;
    while i < |rows|
      invariant 0 <= i <= |rows|
      invariant income == Income(rows[..i]) && expenses == Expenses(rows[..i])
    {
      TotalsStep(rows, i);
      if rows[i].val.txType == INCOME {
        income := income + rows[i].val.amount.minor;
      } else {
        expenses := expenses + rows[i].val.amount.minor;
      }
      i := i + 1;
    }
    assert rows[..i] == rows;
  }

  lemma TotalsStep(rows: seq<Row<LedgerEntry>>, i: int)
    requires 0 <= i < |rows|
    ensures Income(rows[..i + 1]) == Income(rows[..i]) + (if IsIncome(rows[i].val) then rows[i].val.amount.minor else 0)
    ensures Expenses(rows[..i + 1]) == Expenses(rows[..i]) + (if IsExpense(rows[i].val) then rows[i].val.amount.minor else 0)
  {
    assert rows[..i + 1] == rows[..i] + [rows[i]];
    SumSelectSnoc(rows[..i], rows[i], IsIncome);
    SumSelectSnoc(rows[..i], rows[i], IsExpense);
  }

  /** The key of the monthly summary an entry falls into. */
  function MonthOf(e: LedgerEntry): string { MonthKey(e.occurredAt) }

  /** The keys of `m` are exactly the keys the entries of `rows` have. */
  ghost predicate KeysOf<K(!new), V>(m: map<K, V>, rows: seq<Row<LedgerEntry>>, key: LedgerEntry -> K) {
    forall k :: k in m <==> HasKey(rows, key, k)
  }

  /** `m` holds, for each key that some entry of `rows` has, the sum of
      those entries. */
  ghost predicate IsSumByKey<K(!new)>(m: map<K, int>, rows: seq<Row<LedgerEntry>>, key: LedgerEntry -> K) {
    KeysOf(m, rows, key)
    && (forall k :: k in m ==> m[k] == KeySum(rows, key, k))
  }

  ghost predicate IncomeSums<K(!new)>(m: map<K, MonthlyData>, rows: seq<Row<LedgerEntry>>, key: LedgerEntry -> K) {
    forall k :: k in m ==> m[k].income == KeySum(Select(rows, IsIncome), key, k)
  }

  ghost predicate ExpenseSums<K(!new)>(m: map<K, MonthlyData>, rows: seq<Row<LedgerEntry>>, key: LedgerEntry -> K) {
    forall k :: k in m ==> m[k].expense == KeySum(Select(rows, IsExpense), key, k)
  }

  /** `m` holds, for each key that some entry of `rows` has, the income and
      the expense sums of those entries. */
  ghost predicate IsIncomeExpenseByKey<K(!new)>(m: map<K, MonthlyData>, rows: seq<Row<LedgerEntry>>, key: LedgerEntry -> K) {
    KeysOf(m, rows, key) && IncomeSums(m, rows, key) && ExpenseSums(m, rows, key)
  }

  /** `map.merge(key, amount, Long::sum)` */
  function Merge<K>(m: map<K, int>, k: K, amount: int): map<K, int> {
    m[k := GetOrDefault(m, k, 0) + amount]
  }

  /** The map the merge loop has built after the entries `rows`. */
  function MergeAll<K>(rows: seq<Row<LedgerEntry>>, p: LedgerEntry -> bool, key: LedgerEntry -> K): map<K, int> {
    if rows == [] then map[]
    else
      var x := rows[|rows| - 1];
      var m := MergeAll(rows[..|rows| - 1], p, key);
      if p(x.val) then Merge(m, key(x.val), x.val.amount.minor) else m
  }

  lemma KeysStep<K(!new), V>(m: map<K, V>, m': map<K, V>, before: seq<Row<LedgerEntry>>, x: Row<LedgerEntry>, key: LedgerEntry -> K)
    requires KeysOf(m, before, key)
    requires m'.Keys == m.Keys + {key(x.val)}
    ensures KeysOf(m', before + [x], key)
  {
    forall k ensures k in m' <==> HasKey(before + [x], key, k) {
      HasKeySnoc(before, x, key, k);
    }
  }

  /** Merging one more entry keeps the map the per-key sums. */
  lemma MergeStep<K(!new)>(m: map<K, int>, before: seq<Row<LedgerEntry>>, x: Row<LedgerEntry>, key: LedgerEntry -> K)
    requires IsSumByKey(m, before, key)
    ensures IsSumByKey(Merge(m, key(x.val), x.val.amount.minor), before + [x], key)
  {
    var c := key(x.val);
    var m' := Merge(m, c, x.val.amount.minor);
    KeysStep(m, m', before, x, key);
    if c !in m {
      KeySumAbsent(before, key, c);
    }
    forall k | k in m' ensures m'[k] == KeySum(before + [x], key, k) {
      KeySumSnoc(before, x, key, k);
    }
  }

  /** The merge loop, one entry further. */
  lemma MergeAllSnoc<K(!new)>(before: seq<Row<LedgerEntry>>, x: Row<LedgerEntry>, p: LedgerEntry -> bool, key: LedgerEntry -> K)
    requires IsSumByKey(MergeAll(before, p, key), Select(before, p), key)
    ensures IsSumByKey(MergeAll(before + [x], p, key), Select(before + [x], p), key)
  {
    var rows := before + [x];
    var m := MergeAll(before, p, key);
    var sel := Select(before, p);
    assert rows[..|rows| - 1] == before;
    SelectSnoc(before, x, p);
    if p(x.val) {
      assert MergeAll(rows, p, key) == Merge(m, key(x.val), x.val.amount.minor);
      assert Select(rows, p) == sel + [x];
      MergeStep(m, sel, x, key);
    } else {
      assert MergeAll(rows, p, key) == m;
      assert Select(rows, p) == sel;
    }
  }

  /** The merge loop's map holds the per-key sums of the entries that
      satisfy `p`. */
  lemma {:induction false} MergeAllIsSumByKey<K(!new)>(rows: seq<Row<LedgerEntry>>, p: LedgerEntry -> bool, key: LedgerEntry -> K)
    ensures IsSumByKey(MergeAll(rows, p, key), Select(rows, p), key)
  {
    if rows != [] {
      var before := rows[..|rows| - 1];
      MergeAllIsSumByKey(before, p, key);
      MergeAllSnoc(before, rows[|rows| - 1], p, key);
      assert rows == before + [rows[|rows| - 1]];
    }
  }

  /** The `categorySpending.merge(...)` loop: each entry satisfying `p` (an
      expense) adds its amount to the running sum of its key (its category). */
  method SumByKey<K(==,!new)>(rows: seq<Row<LedgerEntry>>, p: LedgerEntry -> bool, key: LedgerEntry -> K) returns (m: map<K, int>)
    ensures m == MergeAll(rows, p, key)
    ensures IsSumByKey(m, Select(rows, p), key)
  {
    m := map[];
    var i := 0;
    while i < |rows|
      invariant 0 <= i <= |rows|
      invariant m == MergeAll(rows[..i], p, key)
    {
      assert rows[..i + 1][..i] == rows[..i];
      if p(rows[i].val) {
        m := Merge(m, key(rows[i].val), rows[i].val.amount.minor);
      }
      i := i + 1;
    }
    assert rows[..i] == rows;
    MergeAllIsSumByKey(rows, p, key);
  }

  /** One month bucket updated by one entry. */
  function AddToBucket<K>(m: map<K, MonthlyData>, k: K, e: LedgerEntry): map<K, MonthlyData> {
    var data := if k in m then m[k] else MonthlyData(0, 0);
    if e.txType == INCOME then m[k := data.(income := data.income + e.amount.minor)]
    else m[k := data.(expense := data.expense + e.amount.minor)]
  }

  /** The month map the monthly loop has built after the entries `rows`. */
  function BucketAll<K>(rows: seq<Row<LedgerEntry>>, key: LedgerEntry -> K): map<K, MonthlyData> {
    if rows == [] then map[]
    else
      var x := rows[|rows| - 1];
      AddToBucket(BucketAll(rows[..|rows| - 1], key), key(x.val), x.val)
  }

  /** A key no entry has sums to zero in any selection. */
  lemma AbsentFromSelection<K>(rows: seq<Row<LedgerEntry>>, p: LedgerEntry -> bool, key: LedgerEntry -> K, k: K)
    requires !HasKey(rows, key, k)
    ensures KeySum(Select(rows, p), key, k) == 0
  {
    SelectedKeys(rows, p, key, k);
    KeySumAbsent(Select(rows, p), key, k);
  }

  /** An income entry adds its amount to the income side of its bucket. */
  lemma IncomeGrows<K(!new)>(m: map<K, MonthlyData>, before: seq<Row<LedgerEntry>>, x: Row<LedgerEntry>, key: LedgerEntry -> K)
    requires key(x.val) !in m ==> !HasKey(before, key, key(x.val))
    requires IncomeSums(m, before, key) && x.val.txType == INCOME
    ensures IncomeSums(AddToBucket(m, key(x.val), x.val), before + [x], key)
  {
    var c := key(x.val);
    var m' := AddToBucket(m, c, x.val);
    var inc := Select(before, IsIncome);
    SelectSnoc(before, x, IsIncome);
    assert Select(before + [x], IsIncome) == inc + [x];
    if c !in m {
      AbsentFromSelection(before, IsIncome, key, c);
    }
    forall k | k in m' ensures m'[k].income == KeySum(inc + [x], key, k) {
      KeySumSnoc(inc, x, key, k);
    }
  }

  /** An income entry leaves the expense side of every bucket as it was. */
  lemma ExpenseKept<K(!new)>(m: map<K, MonthlyData>, before: seq<Row<LedgerEntry>>, x: Row<LedgerEntry>, key: LedgerEntry -> K)
    requires key(x.val) !in m ==> !HasKey(before, key, key(x.val))
    requires ExpenseSums(m, before, key) && x.val.txType == INCOME
    ensures ExpenseSums(AddToBucket(m, key(x.val), x.val), before + [x], key)
  {
    var c := key(x.val);
    var sel := Select(before, IsExpense);
    assert !IsExpense(x.val);
    SelectSnoc(before, x, IsExpense);
    assert Select(before + [x], IsExpense) == sel;
    if c !in m {
      AbsentFromSelection(before, IsExpense, key, c);
    }
  }


  /** An expense entry adds its amount to the expense side of its bucket. */
  lemma ExpenseGrows<K(!new)>(m: map<K, MonthlyData>, before: seq<Row<LedgerEntry>>, x: Row<LedgerEntry>, key: LedgerEntry -> K)
    requires key(x.val) !in m ==> !HasKey(before, key, key(x.val))
    requires ExpenseSums(m, before, key) && x.val.txType == EXPENSE
    ensures ExpenseSums(AddToBucket(m, key(x.val), x.val), before + [x], key)
  {
    var c := key(x.val);
    var m' := AddToBucket(m, c, x.val);
    var exp := Select(before, IsExpense);
    SelectSnoc(before, x, IsExpense);
    assert Select(before + [x], IsExpense) == exp + [x];
    if c !in m {
      AbsentFromSelection(before, IsExpense, key, c);
    }
    forall k | k in m' ensures m'[k].expense == KeySum(exp + [x], key, k) {
      KeySumSnoc(exp, x, key, k);
    }
  }

  /** An expense entry leaves the income side of every bucket as it was. */
  lemma IncomeKept<K(!new)>(m: map<K, MonthlyData>, before: seq<Row<LedgerEntry>>, x: Row<LedgerEntry>, key: LedgerEntry -> K)
    requires key(x.val) !in m ==> !HasKey(before, key, key(x.val))
    requires IncomeSums(m, before, key) && x.val.txType == EXPENSE
    ensures IncomeSums(AddToBucket(m, key(x.val), x.val), before + [x], key)
  {
    var c := key(x.val);
    var sel := Select(before, IsIncome);
    assert !IsIncome(x.val);
    SelectSnoc(before, x, IsIncome);
    assert Select(before + [x], IsIncome) == sel;
    if c !in m {
      AbsentFromSelection(before, IsIncome, key, c);
    }
  }


  /** The monthly loop's map holds the per-key income and expense sums. */
  lemma {:induction false} BucketAllIsIncomeExpenseByKey<K(!new)>(rows: seq<Row<LedgerEntry>>, key: LedgerEntry -> K)
    ensures IsIncomeExpenseByKey(BucketAll(rows, key), rows, key)
  {
    if rows != [] {
      var i := |rows| - 1;
      var x := rows[i];
      var m := BucketAll(rows[..i], key);
      BucketAllIsIncomeExpenseByKey(rows[..i], key);
      assert rows == rows[..i] + [x];
      KeysStep(m, BucketAll(rows, key), rows[..i], x, key);
      if x.val.txType == INCOME {
        IncomeGrows(m, rows[..i], x, key);
        ExpenseKept(m, rows[..i], x, key);
      } else {
        ExpenseGrows(m, rows[..i], x, key);
        IncomeKept(m, rows[..i], x, key);
      }
    }
  }

  /** The monthly loop: each entry adds its amount to the income or the
      expense side of its key (its month). */
  method MonthlyTotals<K(==,!new)>(rows: seq<Row<LedgerEntry>>, key: LedgerEntry -> K) returns (m: map<K, MonthlyData>)
    ensures m == BucketAll(rows, key)
    ensures IsIncomeExpenseByKey(m, rows, key)
  {
    m := map[];
    var i := 0;
    while i < |rows|
      invariant 0 <= i <= |rows|
      invariant m == BucketAll(rows[..i], key)
    {
      assert rows[..i + 1][..i] == rows[..i];
      m := AddToBucket(m, key(rows[i].val), rows[i].val);
      i := i + 1;
    }
    assert rows[..i] == rows;
    BucketAllIsIncomeExpenseByKey(rows, key);
  }

  /** A key of a selection is a key of the whole list. */
  lemma SelectedKeys<K>(rows: seq<Row<LedgerEntry>>, p: LedgerEntry -> bool, key: LedgerEntry -> K, k: K)
    ensures HasKey(Select(rows, p), key, k) ==> HasKey(rows, key, k)
  {
    if HasKey(Select(rows, p), key, k) {
      var s := Select(rows, p);
      var i :| 0 <= i < |s| && key(s[i].val) == k;
      var j :| 0 <= j < |rows| && rows[j] == s[i];
    }
  }

  function CategoryIdsOf(list: seq<CategorySummary>): (r: seq<Id>)
    ensures |r| == |list| && forall i :: 0 <= i < |list| ==> r[i] == list[i].categoryId
  {
    if list == [] then [] else CategoryIdsOf(list[..|list| - 1]) + [list[|list| - 1].categoryId]
  }

  function MonthsOf(list: seq<MonthlySummary>): (r: seq<string>)
    ensures |r| == |list| && forall i :: 0 <= i < |list| ==> r[i] == list[i].month
  {
    if list == [] then [] else MonthsOf(list[..|list| - 1]) + [list[|list| - 1].month]
  }

  /** `categorySpending.entrySet().stream().map(...)`: every key once, in an
      order the map chooses. */
  /** `list` holds every key of `m` once, each with its value. */
  ghost predicate ListsSpending(list: seq<CategorySummary>, m: map<Id, int>) {
    Distinct(CategoryIdsOf(list))
    && (forall c :: c in CategoryIdsOf(list) <==> c in m)
    && (forall i :: 0 <= i < |list| ==> list[i].categoryId in m && list[i].spentMinor == m[list[i].categoryId])
  }

  method ListCategories(m: map<Id, int>) returns (list: seq<CategorySummary>)
    ensures ListsSpending(list, m)
  {
    list := [];
    var rest := m.Keys;
    while rest != {}
      invariant rest <= m.Keys
      invariant Distinct(CategoryIdsOf(list))
      invariant forall c :: c in CategoryIdsOf(list) <==> c in m && c !in rest
      invariant forall i :: 0 <= i < |list| ==> list[i].categoryId in m && list[i].spentMinor == m[list[i].categoryId]
      decreases |rest|
    {
      var c :| c in rest;
      assert CategoryIdsOf(list + [CategorySummary(c, m[c])]) == CategoryIdsOf(list) + [c];
      list := list + [CategorySummary(c, m[c])];
      rest := rest - {c};
    }
  }

  /** `monthlyData.entrySet().stream().map(...)`: every key once, in an order
      the map chooses. */
  /** `list` holds every key of `m` once, each with its income and expense. */
  ghost predicate ListsMonths(list: seq<MonthlySummary>, m: map<string, MonthlyData>) {
    Distinct(MonthsOf(list))
    && (forall k :: k in MonthsOf(list) <==> k in m)
    && (forall i :: 0 <= i < |list| ==>
          list[i].month in m
          && list[i].incomeMinor == m[list[i].month].income
          && list[i].expenseMinor == m[list[i].month].expense)
  }

  method ListMonths(m: map<string, MonthlyData>) returns (list: seq<MonthlySummary>)
    ensures ListsMonths(list, m)
  {
    list := [];
    var rest := m.Keys;
    while rest != {}
      invariant rest <= m.Keys
      invariant Distinct(MonthsOf(list))
      invariant forall k :: k in MonthsOf(list) <==> k in m && k !in rest
      invariant forall i :: 0 <= i < |list| ==>
                  list[i].month in m
                  && list[i].incomeMinor == m[list[i].month].income
                  && list[i].expenseMinor == m[list[i].month].expense
      decreases |rest|
    {
      var k :| k in rest;
      assert MonthsOf(list + [MonthlySummary(k, m[k].income, m[k].expense)]) == MonthsOf(list) + [k];
      list := list + [MonthlySummary(k, m[k].income, m[k].expense)];
      rest := rest - {k};
    }
  }

  /** The per-category part of a report over `expenses`: each category with
      an expense listed once, with its expense sum. */
  ghost predicate CategoryBreakdown(list: seq<CategorySummary>, expenses: seq<Row<LedgerEntry>>) {
    Distinct(CategoryIdsOf(list))
    && (forall c :: c in CategoryIdsOf(list) <==> HasKey(expenses, CategoryOf, c))
    && (forall i :: 0 <= i < |list| ==> list[i].spentMinor == CategorySum(expenses, list[i].categoryId))
  }

  /** The per-month part of a report over `rows`: each month with an entry
      listed once, with its income and expense sums. */
  ghost predicate MonthBreakdown(list: seq<MonthlySummary>, rows: seq<Row<LedgerEntry>>) {
    Distinct(MonthsOf(list))
    && (forall k :: k in MonthsOf(list) <==> HasKey(rows, MonthOf, k))
    && (forall i :: 0 <= i < |list| ==>
          list[i].incomeMinor == KeySum(Select(rows, IsIncome), MonthOf, list[i].month)
          && list[i].expenseMinor == KeySum(Select(rows, IsExpense), MonthOf, list[i].month))
  }

  function SpentTotal(list: seq<CategorySummary>): int {
    if list == [] then 0 else list[0].spentMinor + SpentTotal(list[1..])
  }

  function MonthlyIncomeTotal(list: seq<MonthlySummary>): int {
    if list == [] then 0 else list[0].incomeMinor + MonthlyIncomeTotal(list[1..])
  }

  function MonthlyExpenseTotal(list: seq<MonthlySummary>): int {
    if list == [] then 0 else list[0].expenseMinor + MonthlyExpenseTotal(list[1..])
  }

  lemma {:induction false} SpentTotalIsKeySums(list: seq<CategorySummary>, expenses: seq<Row<LedgerEntry>>)
    requires forall i :: 0 <= i < |list| ==> list[i].spentMinor == CategorySum(expenses, list[i].categoryId)
    ensures SpentTotal(list) == SumOverKeys(expenses, CategoryOf, CategoryIdsOf(list))
  {
    if list != [] {
      SpentTotalIsKeySums(list[1..], expenses);
      assert CategoryIdsOf(list)[1..] == CategoryIdsOf(list[1..]);
    }
  }

  lemma {:induction false} MonthlyTotalsAreKeySums(list: seq<MonthlySummary>, rows: seq<Row<LedgerEntry>>)
    requires forall i :: 0 <= i < |list| ==>
               list[i].incomeMinor == KeySum(Select(rows, IsIncome), MonthOf, list[i].month)
               && list[i].expenseMinor == KeySum(Select(rows, IsExpense), MonthOf, list[i].month)
    ensures MonthlyIncomeTotal(list) == SumOverKeys(Select(rows, IsIncome), MonthOf, MonthsOf(list))
    ensures MonthlyExpenseTotal(list) == SumOverKeys(Select(rows, IsExpense), MonthOf, MonthsOf(list))
  {
    if list != [] {
      MonthlyTotalsAreKeySums(list[1..], rows);
      assert MonthsOf(list)[1..] == MonthsOf(list[1..]);
    }
  }

  /** Listing the per-category sums gives the category breakdown. */
  lemma ListedSpendingIsBreakdown(list: seq<CategorySummary>, m: map<Id, int>, expenses: seq<Row<LedgerEntry>>)
    requires ListsSpending(list, m) && IsSumByKey(m, expenses, CategoryOf)
    ensures CategoryBreakdown(list, expenses)
  {
    forall i | 0 <= i < |list| ensures list[i].spentMinor == CategorySum(expenses, list[i].categoryId) {
      assert list[i].categoryId in m;
    }
  }

  /** Listing the per-month sums gives the month breakdown. */
  lemma ListedMonthsAreBreakdown(list: seq<MonthlySummary>, m: map<string, MonthlyData>, rows: seq<Row<LedgerEntry>>)
    requires ListsMonths(list, m) && IsIncomeExpenseByKey(m, rows, MonthOf)
    ensures MonthBreakdown(list, rows)
  {
  }

  /** The per-category spending adds up to the expense total: no expense is
      lost or counted twice, whatever order the categories come in. */
  lemma CategoryBreakdownAddsUp(list: seq<CategorySummary>, expenses: seq<Row<LedgerEntry>>)
    requires CategoryBreakdown(list, expenses)
    ensures SpentTotal(list) == SumMinor(expenses)
  {
    SpentTotalIsKeySums(list, expenses);
    forall i | 0 <= i < |expenses| ensures CategoryOf(expenses[i].val) in CategoryIdsOf(list) {
      assert HasKey(expenses, CategoryOf, CategoryOf(expenses[i].val));
    }
    SumOverCoveringKeys(expenses, CategoryOf, CategoryIdsOf(list));
  }

  /** The monthly income and expense figures add up to the totals. */
  lemma MonthBreakdownAddsUp(list: seq<MonthlySummary>, rows: seq<Row<LedgerEntry>>)
    requires MonthBreakdown(list, rows)
    ensures MonthlyIncomeTotal(list) == Income(rows)
    ensures MonthlyExpenseTotal(list) == Expenses(rows)
  {
    MonthlyTotalsAreKeySums(list, rows);
    var inc := Select(rows, IsIncome);
    var exp := Select(rows, IsExpense);
    forall i | 0 <= i < |inc| ensures MonthOf(inc[i].val) in MonthsOf(list) {
      var j :| 0 <= j < |rows| && rows[j] == inc[i];
      assert HasKey(rows, MonthOf, MonthOf(rows[j].val));
    }
    forall i | 0 <= i < |exp| ensures MonthOf(exp[i].val) in MonthsOf(list) {
      var j :| 0 <= j < |rows| && rows[j] == exp[i];
      assert HasKey(rows, MonthOf, MonthOf(rows[j].val));
    }
    SumOverCoveringKeys(inc, MonthOf, MonthsOf(list));
    SumOverCoveringKeys(exp, MonthOf, MonthsOf(list));
  }

  function CreatedAt(e: LedgerEntry): int { e.createdAt }

  /** `sorted` by `createdAt` descending, then `limit(10)`. */
  function RecentEntries(rows: seq<Row<LedgerEntry>>): (r: seq<Row<LedgerEntry>>)
    ensures |r| == Min(RecentLimit, |rows|)
    ensures Repo.NewestFirst(r, CreatedAt)
  {
    Repo.Newest(rows, CreatedAt, RecentLimit)
  }

  function Summaries(rows: seq<Row<LedgerEntry>>): (r: seq<TransactionSummary>)
    ensures |r| == |rows|
    ensures forall i :: 0 <= i < |rows| ==>
              r[i] == TransactionSummary(rows[i].id, rows[i].val.categoryId, rows[i].val.amount.minor)
  {
    if rows == [] then []
    else [TransactionSummary(rows[0].id, rows[0].val.categoryId, rows[0].val.amount.minor)] + Summaries(rows[1..])
  }

  /** The recent list holds the ten (or all, when fewer) most recently
      created entries, newest first: every entry it leaves out was created no
      later than the last one it shows. */
  lemma RecentProperties(rows: seq<Row<LedgerEntry>>)
    ensures var r := RecentEntries(rows);
      |r| == Min(RecentLimit, |rows|)
      && Repo.NewestFirst(r, CreatedAt)
      && multiset(r) <= multiset(rows)
      && (|rows| <= RecentLimit ==> multiset(r) == multiset(rows))
      && (forall x | x in multiset(rows) - multiset(r) :: |r| == RecentLimit && x.val.createdAt <= r[RecentLimit - 1].val.createdAt)
  {
    Repo.NewestShape(rows, CreatedAt, RecentLimit);
    forall x | x in multiset(rows) - multiset(RecentEntries(rows))
      ensures |RecentEntries(rows)| == RecentLimit
      ensures x.val.createdAt <= RecentEntries(rows)[RecentLimit - 1].val.createdAt
    {
      Repo.NewestLeftOut(rows, CreatedAt, RecentLimit, x);
    }
  }

  /** A report over the entries `es`. */
  ghost predicate IsReportOf(s: ReportSummary, es: seq<Row<LedgerEntry>>) {
    s.totalIncomeMinor == Income(es)
    && s.totalExpensesMinor == Expenses(es)
    && s.balanceMinor == s.totalIncomeMinor - s.totalExpensesMinor
    && CategoryBreakdown(s.perCategory, Select(es, IsExpense))
    && MonthBreakdown(s.perMonth, es)
    && s.recentTransactions == Summaries(RecentEntries(es))
  }

  /** `generateReport(userId, startDate, endDate)` */
  method GenerateReport(users: seq<Row<AccountDomain.User>>, entries: seq<Row<LedgerEntry>>, userId: Id,
                        start: LocalDate, end: LocalDate) returns (r: Result<ReportSummary>)
    ensures CurrentFamilyId(users, userId).Err? ==> r == Err("User not found")
    ensures CurrentFamilyId(users, userId) == Ok(None) ==> r == Err(NoFamilyForReports())
    ensures r.Ok? <==> CurrentFamilyId(users, userId).Ok? && CurrentFamilyId(users, userId).value.Some?
    ensures r.Ok? ==> IsReportOf(r.value, ReportEntries(entries, CurrentFamilyId(users, userId).value.value, start, end))
  {
    var fam := CurrentFamilyId(users, userId);
    if fam.Err? {
      return Err(fam.message);
    }
    if fam.value.None? {
      return Err(NoFamilyForReports());
    }
    var es := ReportEntries(entries, fam.value.value, start, end);
    var income, expenses := Totals(es);
    var byCategory := SumByKey(es, IsExpense, CategoryOf);
    var categories := ListCategories(byCategory);
    ListedSpendingIsBreakdown(categories, byCategory, Select(es, IsExpense));
    var byMonth := MonthlyTotals(es, MonthOf);
    var months := ListMonths(byMonth);
    ListedMonthsAreBreakdown(months, byMonth, es);
    var recent := Summaries(RecentEntries(es));
    r := Ok(ReportSummary(income, expenses, income - expenses, categories, months, recent));
  }

  /** Every figure of a report agrees with the others: income and expenses
      make up all entries, the categories make up the expenses, the months
      make up both totals. */
  lemma ReportAddsUp(s: ReportSummary, es: seq<Row<LedgerEntry>>)
    requires IsReportOf(s, es)
    ensures s.totalIncomeMinor + s.totalExpensesMinor == SumMinor(es)
    ensures SpentTotal(s.perCategory) == s.totalExpensesMinor
    ensures MonthlyIncomeTotal(s.perMonth) == s.totalIncomeMinor
    ensures MonthlyExpenseTotal(s.perMonth) == s.totalExpensesMinor
    ensures |s.recentTransactions| == Min(RecentLimit, |es|)
  {
    IncomePlusExpenses(es);
    CategoryBreakdownAddsUp(s.perCategory, Select(es, IsExpense));
    MonthBreakdownAddsUp(s.perMonth, es);
    RecentProperties(es);
  }

  /** `getNotes()`, null written as the empty string. */
  function Description(e: LedgerEntry): string {
    if e.notes.Some? then e.notes.value else ""
  }

  /** The first six columns of an entry's CSV line, each followed by a
      comma: the UTC date of the entry, the type, the amount in major units,
      currency, category and member. */
  function CsvFields(e: LedgerEntry): string {
    CsvColumns(DateOfEpochDay(e.occurredAt / DayMs), e)
  }

  /** The six plain columns, with the date already taken in UTC. */
  function CsvColumns(d: Date, e: LedgerEntry): string
    requires 1 <= d.month <= 12 && 1 <= d.day <= 31
  {
    DateText(d) + ","
    + TypeName(e.txType) + ","
    + AmountText(e.amount.minor) + ","
    + e.amount.currency + ","
    + e.categoryId + ","
    + e.memberId + ","
  }

  /** One CSV line: the six plain columns, then the description quoted. */
  function CsvLine(e: LedgerEntry): (line: string)
    ensures |line| > |CsvFields(e)| && line[..|CsvFields(e)|] == CsvFields(e)
    ensures line[|line| - 1] == '\n'
  {
    CsvFields(e) + QuoteField(Description(e)) + "\n"
  }

  function RowLine(r: Row<LedgerEntry>): string { CsvLine(r.val) }

  /** The lines of `rows`, in order. */
  function CsvLines(rows: seq<Row<LedgerEntry>>): (s: string)
    ensures |s| >= |rows|
    ensures rows != [] ==> s[|s| - 1] == '\n'
  {
    LinesEndInBreak(rows);
    ConcatMap(rows, RowLine)
  }

  lemma {:induction false} LinesEndInBreak(rows: seq<Row<LedgerEntry>>)
    ensures var s := ConcatMap(rows, RowLine);
      |s| >= |rows| && (rows != [] ==> s[|s| - 1] == '\n')
  {
    if rows != [] {
      LinesEndInBreak(rows[..|rows| - 1]);
    }
  }

  /** `generateCSV(entries)`: the header, then one line per entry in query
      order. */
  method GenerateCsv(rows: seq<Row<LedgerEntry>>) returns (csv: string)
    ensures csv == CsvHeader() + CsvLines(rows)
  {
    var lines := AppendAll(rows, RowLine);
    csv := CsvHeader() + lines;
  }

  /** The description column reads back as the entry's notes, whatever
      quotes or commas they hold. */
  lemma DescriptionReadsBack(e: LedgerEntry)
    ensures var line := CsvLine(e);
      var f := line[|CsvFields(e)|..|line| - 1];
      line[|line| - 1] == '\n' && UnquoteField(f) == Some(Description(e))
  {
    var line := CsvLine(e);
    assert line[|CsvFields(e)|..|line| - 1] == QuoteField(Description(e));
    QuoteFieldRoundTrip(Description(e));
  }

  predicate NoLineBreak(s: string) { '\n' !in s }

  /** When no text of an entry holds a line break, the export has exactly
      one line per entry after the header. */
  lemma OneLinePerEntry(rows: seq<Row<LedgerEntry>>)
    requires forall i :: 0 <= i < |rows| ==>
               NoLineBreak(rows[i].val.amount.currency) && NoLineBreak(rows[i].val.categoryId)
               && NoLineBreak(rows[i].val.memberId) && NoLineBreak(Description(rows[i].val))
    ensures CountChar(CsvLines(rows), '\n') == |rows|
  {
    forall i | 0 <= i < |rows| ensures CountChar(RowLine(rows[i]), '\n') == 1 {
      CsvLineHasOneBreak(rows[i].val);
    }
    ConcatMapCount(rows, RowLine, '\n');
  }

  lemma CsvLineHasOneBreak(e: LedgerEntry)
    requires NoLineBreak(e.amount.currency) && NoLineBreak(e.categoryId)
    requires NoLineBreak(e.memberId) && NoLineBreak(Description(e))
    ensures CountChar(CsvLine(e), '\n') == 1
  {
    var fields := CsvFields(e) + QuoteField(Description(e));
    NoBreakInFields(e);
    NoBreakInEscape(Description(e));
    assert NoLineBreak(fields);
    CountCharAbsent(fields, '\n');
    CountCharAppend(fields, "\n", '\n');
  }

  lemma NoBreakInFields(e: LedgerEntry)
    requires NoLineBreak(e.amount.currency) && NoLineBreak(e.categoryId) && NoLineBreak(e.memberId)
    ensures NoLineBreak(CsvFields(e))
  {
    NoBreakInColumns(DateOfEpochDay(e.occurredAt / DayMs), e);
  }

  lemma NoBreakInColumns(d: Date, e: LedgerEntry)
    requires 1 <= d.month <= 12 && 1 <= d.day <= 31
    requires NoLineBreak(e.amount.currency) && NoLineBreak(e.categoryId) && NoLineBreak(e.memberId)
    ensures NoLineBreak(CsvColumns(d, e))
  {
    NoBreakInDate(d);
    NoBreakInAmount(e.amount.minor);
    NoBreakJoin(DateText(d), TypeName(e.txType), AmountText(e.amount.minor), e.amount.currency, e.categoryId, e.memberId);
  }

  /** Six texts joined by commas, with a trailing comma, hold no line break
      when none of them does. */
  lemma NoBreakJoin(a: string, b: string, c: string, d: string, f: string, g: string)
    requires NoLineBreak(a) && NoLineBreak(b) && NoLineBreak(c)
    requires NoLineBreak(d) && NoLineBreak(f) && NoLineBreak(g)
    ensures NoLineBreak(a + "," + b + "," + c + "," + d + "," + f + "," + g + ",")
  {
  }

  lemma NoBreakInDigits(s: string)
    requires AllDigits(s)
    ensures NoLineBreak(s)
  {
  }

  lemma NoBreakInDate(d: Date)
    requires 1 <= d.month <= 12 && 1 <= d.day <= 31
    ensures NoLineBreak(DateText(d))
  {
    NoBreakInDigits(NatText(Abs(d.year)));
    NoBreakInDigits(ZeroPad(NatText(Abs(d.year)), 4));
    NoBreakInDigits(ZeroPad(NatText(d.month), 2));
    NoBreakInDigits(ZeroPad(NatText(d.day), 2));
  }

  lemma NoBreakInAmount(minor: int)
    ensures NoLineBreak(AmountText(minor))
  {
    var a := Abs(minor);
    if a < 1_000_000_000 {
      NoBreakInDigits(NatText(a / 100));
      NoBreakInDigits(FractionText(a % 100));
    } else {
      var t := NatText(a);
      var digits := StripTrailingZeros(t);
      assert digits == t[..|digits|];
      NoBreakInDigits(t);
      NoBreakInDigits(NatText(|t| - 3));
    }
    assert NoLineBreak(MagnitudeText(a));
  }

  lemma {:induction false} NoBreakInEscape(s: string)
    requires NoLineBreak(s)
    ensures NoLineBreak(EscapeQuotes(s))
  {
    if s != [] {
      NoBreakInEscape(s[1..]);
    }
  }

  /** `"CSV".equalsIgnoreCase(format)`, ASCII letters folded. */
  predicate IsCsvFormat(format: string) {
    ToLower(format) == "csv"
  }

  /** `"expense_report_" + startDate + "_to_" + endDate + ".csv"` */
  function ExportFilename(start: LocalDate, end: LocalDate): (name: string)
    ensures |name| > 19 && name[..15] == "expense_report_" && name[|name| - 4..] == ".csv"
  {
    var prefix := "expense_report_";
    var middle := DateText(start) + "_to_" + DateText(end);
    assert |prefix| == 15 && |middle| >= 4;
    var name := prefix + middle + ".csv";
    assert name[..15] == prefix;
    assert name[|name| - 4..] == ".csv";
    name
  }

  /** `exportData(userId, startDate, endDate, format)` */
  method ExportData(users: seq<Row<AccountDomain.User>>, entries: seq<Row<LedgerEntry>>, userId: Id,
                    start: LocalDate, end: LocalDate, format: string) returns (r: Result<ExportResponse>)
    ensures CurrentFamilyId(users, userId).Err? ==> r == Err("User not found")
    ensures CurrentFamilyId(users, userId) == Ok(None) ==> r == Err(NoFamilyForExport())
    ensures CurrentFamilyId(users, userId).Ok? && CurrentFamilyId(users, userId).value.Some? ==>
              if IsCsvFormat(format) then
                r == Ok(ExportResponse(
                  CsvHeader() + CsvLines(ReportEntries(entries, CurrentFamilyId(users, userId).value.value, start, end)),
                  CsvContentType(), ExportFilename(start, end)))
              else r == Err("Unsupported export format: " + format)
  {
    var fam := CurrentFamilyId(users, userId);
    if fam.Err? {
      return Err(fam.message);
    }
    if fam.value.None? {
      return Err(NoFamilyForExport());
    }
    var es := ReportEntries(entries, fam.value.value, start, end);
    if IsCsvFormat(format) {
      var content := GenerateCsv(es);
      r := Ok(ExportResponse(content, CsvContentType(), ExportFilename(start, end)));
    } else {
      r := Err("Unsupported export format: " + format);
    }
  }

  /** The format check ignores ASCII case. */
  lemma CsvFormatCaseInsensitive()
    ensures IsCsvFormat("CSV") && IsCsvFormat("csv") && IsCsvFormat("Csv")
    ensures !IsCsvFormat("PDF") && !IsCsvFormat("csv ")
  {
  }
}
