# Expense tracker — a verified model of its core

The expense tracker is a family budgeting system. A Spring Boot backend keeps
users, families, categories, ledger entries (expenses and income), budgets,
recurring rules and notifications in MongoDB. It computes budget status and
reports, runs recurring rules on a schedule, and turns spoken sentences and
receipt photos into draft expenses. An Android client and an iOS client keep
an offline copy of the ledger, the categories and the budgets, and post what
was created offline once the device is back on line.

This project models that core in Dafny and proves what it promises:

- **Backend services and repository queries.** Each Mongo collection is a
  table of rows keyed by id (`Tables`). Each service operation is a pure
  effect function from the tables to a result and the new tables. The
  service class's method is proved equal to that function. Lemmas state what
  the operation promises: family scoping, soft deletion, duplicate rules,
  the error messages and the order of the checks.
- **Calendar and arithmetic.** The proleptic Gregorian calendar of
  `java.time.LocalDate` (`Calendar`), the totals of budgets and reports
  (`LedgerTotals`), and the text formats of dates, amounts and CSV lines
  (`Formatting`).
- **Keyword tables.** Voice and receipt parsing: keyword-to-category chains
  as first-match rule tables (`Keywords`), amounts, currencies, store names,
  totals and items.
- **Mobile clients.** The offline repositories of both clients, as classes
  whose local table is a field updated by each operation and whose sync
  loops are proved against a specification function. The iOS navigation
  coordinator and the Android expense view model are classes whose fields
  the methods update.

Instants are milliseconds since the Unix epoch. Money is an integer count of
minor units. Ids are strings.

## Model

| member | source | states |
|---|---|---|
| Tables.Find | backend/src/main/java/com/expensetracker/repository/LedgerEntryRepository.java:15 | a lookup by id succeeds exactly when a row has the id, and returns a value stored under it |
| Tables.Upsert | android/app/src/main/java/com/expensetracker/data/dao/Daos.kt:21-22 | saving under a stored id keeps the ids row by row; saving under a new id appends exactly that row |
| Tables.UpdateExisting | android/app/src/main/java/com/expensetracker/data/dao/Daos.kt:27-28 | an update by primary key keeps the table's length and ids row by row, so it never adds a row; a missing id leaves the table as it was; afterwards the id finds the new value and every other id finds what it found before; with unique ids exactly the row with the id is rewritten and every other row is unchanged |
| Tables.Remove | android/app/src/main/java/com/expensetracker/data/dao/Daos.kt:33-34 | deleting by id leaves no row with the id and keeps every other row |
| Tables.Select | android/app/src/main/java/com/expensetracker/data/dao/Daos.kt:15-16 | a filtered query returns stored rows that satisfy the filter, and every such row |
| Tables.FreshId | backend/src/main/java/com/expensetracker/repository/LedgerEntryRepository.java:15 | a generated id is carried by no stored row |
| Tables.FindAfterUpsert | backend/src/main/java/com/expensetracker/repository/LedgerEntryRepository.java:15 | after a save the id reads back the saved value, and every other id reads what it did before |
| Tables.UpsertRowwise | android/app/src/main/java/com/expensetracker/data/dao/Daos.kt:21-22 | with unique ids a save rewrites exactly the row with its id |
| Tables.CountAfterUpsert | android/app/src/main/java/com/expensetracker/data/dao/Daos.kt:21-22 | rewriting a stored row changes a count by what the old and the new value contribute |
| Tables.UpsertTwice | android/app/src/main/java/com/expensetracker/data/dao/Daos.kt:21-22 | a second save under the same id overwrites the first |
| Tables.UpsertAppended | android/app/src/main/java/com/expensetracker/data/dao/Daos.kt:21-22 | saving again a row just appended under a new id rewrites it in place |
| Tables.FindAfterRemove | android/app/src/main/java/com/expensetracker/data/dao/Daos.kt:33-34 | after a delete the id reads nothing and every other id reads what it did before |
| Tables.UpsertKeepsUniqueIds | android/app/src/main/java/com/expensetracker/data/dao/Daos.kt:21-22 | a save keeps ids unique, and the stored ids become the old ones plus the saved one |
| Tables.UpsertIds | android/app/src/main/java/com/expensetracker/data/dao/Daos.kt:75-79 | a replacing insert keeps every id and adds the inserted one, whether or not ids are unique |
| Tables.RemoveKeepsUniqueIds | android/app/src/main/java/com/expensetracker/data/dao/Daos.kt:33-34 | a delete keeps ids unique |
| Tables.Table.Get | backend/src/main/java/com/expensetracker/repository/LedgerEntryRepository.java:15 | reads the value Find gives |
| Tables.Table.Save | android/app/src/main/java/com/expensetracker/data/dao/Daos.kt:21-22 | the new rows are the old rows upserted, and ids stay unique |
| Tables.Table.Insert | android/app/src/main/java/com/expensetracker/data/dao/Daos.kt:21-22 | the new document is appended under a fresh id, and ids stay unique |
| Tables.Table.Update | android/app/src/main/java/com/expensetracker/data/dao/Daos.kt:27-28 | the new rows are the old rows with the existing row rewritten, and ids stay unique |
| Tables.Table.Delete | android/app/src/main/java/com/expensetracker/data/dao/Daos.kt:33-34 | the new rows are the old rows without the id, and ids stay unique |
| LedgerEntryDomain.ParseType | backend/src/main/java/com/expensetracker/domain/LedgerEntry.java:45-47 | only the names EXPENSE and INCOME parse, each to the constant of that name |
| LedgerEntryDomain.ParseTypeName | backend/src/main/java/com/expensetracker/domain/LedgerEntry.java:45-47 | parsing a constant's name gives the constant back |
| LedgerEntryDomain.NewLedgerEntry | backend/src/main/java/com/expensetracker/domain/LedgerEntry.java:71-84 | a new entry is live, has no recurring id, notes or attachments, carries the six arguments and stamps both timestamps with the creation time |
| BudgetDomain.ParsePeriodType | backend/src/main/java/com/expensetracker/domain/Budget.java:105-107 | only MONTH, QUARTER, YEAR and CUSTOM parse, each to its constant |
| BudgetDomain.ParsePeriodTypeName | backend/src/main/java/com/expensetracker/domain/Budget.java:105-107 | parsing a period type's name gives it back |
| BudgetDomain.NewBudget | backend/src/main/java/com/expensetracker/domain/Budget.java:30-52 | a new budget includes recurring spending, alerts at 80 %, has no per-category limits, carries the four arguments and stamps both timestamps |
| BudgetDomain.PeriodMayEndBeforeStart | backend/src/main/java/com/expensetracker/domain/Budget.java:54-63 | the period's constraints only require three non-null fields, so a period may end before it starts |
| RecurringRuleDomain.ParseUnit | backend/src/main/java/com/expensetracker/domain/RecurringRule.java:40-42 | only WEEKLY, MONTHLY and YEARLY parse, each to its constant |
| RecurringRuleDomain.ParseUnitName | backend/src/main/java/com/expensetracker/domain/RecurringRule.java:40-42 | parsing a unit's name gives it back |
| CategoryDomain.NewCategory | backend/src/main/java/com/expensetracker/domain/Category.java:26-49 | a new category is live, not archived, has no icon or colour, carries family, name and type and stamps both timestamps |
| CategoryDomain.FindLive | backend/src/main/java/com/expensetracker/repository/CategoryRepository.java:16 | a category is found exactly when the id is stored, belongs to the family and is not soft-deleted, and then it is the stored one |
| CategoryDomain.ListLive | backend/src/main/java/com/expensetracker/repository/CategoryRepository.java:12-14 | the listing holds stored categories that are live in the family (and of the asked type), and every such category is listed |
| AccountDomain.NewUser | backend/src/main/java/com/expensetracker/domain/User.java:35-44 | a new user has the given email and password hash, no family membership, is not deleted and has both timestamps set |
| AccountDomain.NewFamily | backend/src/main/java/com/expensetracker/domain/Family.java:26-36 | a new family has the given name and currency, is not deleted and has both timestamps set |
| UserService.FindUser | backend/src/main/java/com/expensetracker/service/UserService.java:25-28 | succeeds exactly when the user id is stored, with the stored user; otherwise "User not found" |
| UserService.CurrentFamilyId | backend/src/main/java/com/expensetracker/service/UserService.java:16-23 | fails "User not found" exactly for an unknown user; null exactly when the user has no membership; otherwise the family of the first membership |
| UserService.CurrentFamilyIsAMembership | backend/src/main/java/com/expensetracker/service/UserService.java:16-23 | the resolved family is always one of the user's memberships |
| LedgerEntryRepository.FindLive | backend/src/main/java/com/expensetracker/repository/LedgerEntryRepository.java:16 | an entry is found exactly when stored, in the family and not soft-deleted, and then it is the stored one |
| LedgerEntryRepository.FindInRange | backend/src/main/java/com/expensetracker/repository/LedgerEntryRepository.java:22-23 | the result holds exactly the stored live entries of the family with both bounds inclusive |
| LedgerEntryRepository.FindInRangeForCategory | backend/src/main/java/com/expensetracker/repository/LedgerEntryRepository.java:25-26 | every entry returned is stored and of the asked category |
| LedgerEntryRepository.CategoryRangeWithinFamilyRange | backend/src/main/java/com/expensetracker/repository/LedgerEntryRepository.java:22-26 | the category range lookup returns exactly the family range lookup's entries of that category |
| LedgerEntryRepository.FindLiveOfFamily | backend/src/main/java/com/expensetracker/repository/LedgerEntryRepository.java:18-20 | the result holds exactly the stored live entries of the family (of the given type, if any) |
| LedgerEntryRepository.SortNewestFirst | backend/src/main/java/com/expensetracker/repository/LedgerEntryRepository.java:18-20 | ordering by occurrence descending gives a permutation of the rows whose key never increases |
| LedgerEntryRepository.NewestShape | backend/src/main/java/com/expensetracker/repository/LedgerEntryRepository.java:28 | the first n of the sorted rows number min(n, rows), are newest first, come from the rows, and are all of them when there are at most n |
| LedgerEntryRepository.NewestLeftOut | backend/src/main/java/com/expensetracker/repository/LedgerEntryRepository.java:28 | a row left out of the n newest is no newer than the last one kept |
| LedgerEntryRepository.Top5Properties | backend/src/main/java/com/expensetracker/repository/LedgerEntryRepository.java:28 | the top-5 lookup returns at most five stored live entries of the family, newest first, and all of them when it returns fewer than five |
| LedgerEntryRepository.Top5LeftOut | backend/src/main/java/com/expensetracker/repository/LedgerEntryRepository.java:28 | a live entry of the family that the top-5 lookup leaves out is no newer than the fifth one returned |
| LedgerEntryRepository.FindTop5 | backend/src/main/java/com/expensetracker/repository/LedgerEntryRepository.java:28 | the top-5 lookup holds five live entries of the family, or all of them when fewer, newest first (which entries these are is stated by Top5Properties and Top5LeftOut) |
| LedgerEntryRepository.PageOf | backend/src/main/java/com/expensetracker/service/LedgerService.java:62 | a page request fails for a negative page or a size below one; otherwise the page holds the elements from page * size on, size of them when that many remain, fewer on the last page, none past the end |
| RecurringRuleRepository.FindDueRules | backend/src/main/java/com/expensetracker/repository/RecurringRuleRepository.java:18-19 | the result holds exactly the stored unpaused rules whose next run is at or before the given time |
| RecurringRuleRepository.FindDueRulesByFamily | backend/src/main/java/com/expensetracker/repository/RecurringRuleRepository.java:21-22 | exactly the stored rules of the family that are unpaused and whose next run is at or before the given time |
| RecurringRuleRepository.FindByFamilyId | backend/src/main/java/com/expensetracker/repository/RecurringRuleRepository.java:16 | exactly the stored rules of the family, paused ones included |
| RecurringRuleRepository.FindActiveByFamilyId | backend/src/main/java/com/expensetracker/repository/RecurringRuleRepository.java:14 | exactly the stored unpaused rules of the family |
| RecurringRuleRepository.DueByFamilyIsDueRestricted | backend/src/main/java/com/expensetracker/repository/RecurringRuleRepository.java:18-22 | the family due lookup is the due lookup restricted to that family, in the same order |
| RecurringRuleRepository.ActiveIsFamilyWithoutPaused | backend/src/main/java/com/expensetracker/repository/RecurringRuleRepository.java:14-16 | the active lookup is the family lookup without its paused rules |
| LedgerService.CategoryName | backend/src/main/java/com/expensetracker/service/LedgerService.java:125-128 | "Unknown" when no category has the id; otherwise the stored category's name, whatever its family or deletion |
| LedgerService.EntryFromRequest | backend/src/main/java/com/expensetracker/service/LedgerService.java:40-52 | the new entry carries the caller's family and every request field, is live, has no recurring id and both timestamps are now |
| LedgerService.ApplyUpdate | backend/src/main/java/com/expensetracker/service/LedgerService.java:87-96 | the update replaces the seven request fields and updatedAt, and keeps family, creation time, recurring id and deletion mark |
| LedgerService.CreateEntryEffect | backend/src/main/java/com/expensetracker/service/LedgerService.java:33-56 | fails exactly for an unknown user or a category not live in the caller's family ("Category not found"), leaving the ledger as it was; otherwise appends the new entry under a fresh id and answers with that id |
| LedgerService.UpdateEntryEffect | backend/src/main/java/com/expensetracker/service/LedgerService.java:77-100 | "Ledger entry not found" when the entry is not live in the family, "Category not found" when the category is not, otherwise the entry is rewritten in place; a failure changes nothing |
| LedgerService.DeleteEntryEffect | backend/src/main/java/com/expensetracker/service/LedgerService.java:102-110 | fails "Ledger entry not found" exactly when the entry is not live in the family; otherwise only its deletedAt is set |
| LedgerService.DeletedEntryIsGone | backend/src/main/java/com/expensetracker/service/LedgerService.java:80-110 | a soft-deleted entry stays stored with its deletion time, and a later delete or update of it fails "Ledger entry not found" |
| LedgerService.CreatedEntryIsFound | backend/src/main/java/com/expensetracker/service/LedgerService.java:33-56 | an entry just created is found by the family-scoped lookup of its creator, equal to the entry built from the request |
| LedgerService.Responses | backend/src/main/java/com/expensetracker/service/LedgerService.java:117-122 | one response per entry, in order, each with the entry's category name |
| LedgerService.GetEntries | backend/src/main/java/com/expensetracker/service/LedgerService.java:58-75 | succeeds exactly for a known user with a page index of at least zero and a size of at least one; the answer is that page of the family's live entries of the type, newest first, as responses, at most size of them |
| LedgerService.GetEntriesIgnoresFilters | backend/src/main/java/com/expensetracker/service/LedgerService.java:58-75 | the date range, category and member arguments never change the answer |
| LedgerService.GetRecentEntries | backend/src/main/java/com/expensetracker/service/LedgerService.java:112-123 | succeeds exactly for a known user; the answer is the responses of the top-5 lookup of the user's family, at most five |
| LedgerService.LedgerService.CreateEntry | backend/src/main/java/com/expensetracker/service/LedgerService.java:33-56 | the answer and the new ledger are those of CreateEntryEffect, and ids stay unique |
| LedgerService.LedgerService.UpdateEntry | backend/src/main/java/com/expensetracker/service/LedgerService.java:77-100 | the answer and the new ledger are those of UpdateEntryEffect, and ids stay unique |
| LedgerService.LedgerService.DeleteEntry | backend/src/main/java/com/expensetracker/service/LedgerService.java:102-110 | the answer and the new ledger are those of DeleteEntryEffect, and ids stay unique |
| CategoryService.Responses | backend/src/main/java/com/expensetracker/service/CategoryService.java:35-37 | one response per category, in order |
| CategoryService.GetCategories | backend/src/main/java/com/expensetracker/service/CategoryService.java:25-38 | succeeds exactly for a known user; otherwise "User not found" |
| CategoryService.GetCategoriesListsLive | backend/src/main/java/com/expensetracker/service/CategoryService.java:25-38 | a category is listed exactly when it is live, in the caller's family and of the asked type |
| CategoryService.CreateCategoryEffect | backend/src/main/java/com/expensetracker/service/CategoryService.java:40-53 | fails exactly for an unknown user or when a live category of the family has that name and type ("Category with this name and type already exists"), changing nothing; otherwise appends the category under a fresh id |
| CategoryService.UpdateCategoryEffect | backend/src/main/java/com/expensetracker/service/CategoryService.java:55-68 | fails "Category not found" exactly when the category is not live in the caller's family; a failure changes nothing |
| CategoryService.DeleteCategoryEffect | backend/src/main/java/com/expensetracker/service/CategoryService.java:70-78 | fails "Category not found" exactly when the category is not live in the caller's family; a failure changes nothing |
| CategoryService.CreatedCategoryIsFound | backend/src/main/java/com/expensetracker/service/CategoryService.java:40-53 | a created category is found live in the caller's family with the request's name, type, icon and colour |
| CategoryService.UpdateRenamesOnly | backend/src/main/java/com/expensetracker/service/CategoryService.java:55-68 | an update rewrites name, icon, colour and updatedAt; type, family, creation time and archive flag stay, and every other category is untouched |
| CategoryService.DeletedCategoryIsGone | backend/src/main/java/com/expensetracker/service/CategoryService.java:70-78 | a soft-deleted category stays stored with its deletion time, and a later delete or update fails "Category not found" |
| CategoryService.CreateKeepsNamesUnique | backend/src/main/java/com/expensetracker/service/CategoryService.java:40-53 | creation keeps live (family, name, type) triples unique |
| CategoryService.DeleteKeepsNamesUnique | backend/src/main/java/com/expensetracker/service/CategoryService.java:70-78 | deletion keeps live triples unique and frees the deleted category's name and type in its family |
| CategoryService.UpdateSkipsDuplicateCheck | backend/src/main/java/com/expensetracker/service/CategoryService.java:55-68 | the update does not repeat the duplicate check: renaming one category to another's name and type succeeds and leaves two live categories that clash |
| CategoryService.CategoryService.CreateCategory | backend/src/main/java/com/expensetracker/service/CategoryService.java:40-53 | the answer and the new collection are those of CreateCategoryEffect |
| CategoryService.CategoryService.UpdateCategory | backend/src/main/java/com/expensetracker/service/CategoryService.java:55-68 | the answer and the new collection are those of UpdateCategoryEffect |
| CategoryService.CategoryService.DeleteCategory | backend/src/main/java/com/expensetracker/service/CategoryService.java:70-78 | the answer and the new collection are those of DeleteCategoryEffect |
| Calendar.DaysInMonth | backend/src/main/java/com/expensetracker/service/RecurringService.java:175-178 | a month has 28 to 31 days, and 29 exactly for February of a leap year |
| Calendar.PlusDays | backend/src/main/java/com/expensetracker/service/RecurringService.java:164-165 | moving a valid date by n days gives a valid date whose epoch day is n later |
| Calendar.PlusWeeks | backend/src/main/java/com/expensetracker/service/RecurringService.java:171-172 | moving a valid date by n weeks gives a valid date 7n days later |
| Calendar.PlusMonths | backend/src/main/java/com/expensetracker/service/RecurringService.java:174-175 | moving by n months gives a valid date n months later, its day clamped to the length of the new month |
| Calendar.PlusYears | backend/src/main/java/com/expensetracker/service/RecurringService.java:177-178 | moving by n years keeps the month and clamps the day (29 February to 28 February) |
| Calendar.LaterMonthIsLater | backend/src/main/java/com/expensetracker/service/RecurringService.java:174-178 | a date in a later month comes after, whatever the days |
| Calendar.BeforeIffEarlierEpochDay | backend/src/main/java/com/expensetracker/service/RecurringService.java:164 | the calendar order of isBefore is the order of epoch days |
| Calendar.EpochDayInjective | backend/src/main/java/com/expensetracker/service/RecurringService.java:164 | distinct valid dates have distinct epoch days |
| Calendar.DateOfEpochDay | backend/src/main/java/com/expensetracker/service/RecurringService.java:162 | every epoch day is the epoch day of a valid date |
| Calendar.TodayIn | backend/src/main/java/com/expensetracker/service/RecurringService.java:161-162 | today in a zone is a valid date |
| Calendar.ZoneOf | backend/src/main/java/com/expensetracker/service/RecurringService.java:161 | a zone id resolves exactly when the zone rules know it, to its offset; any other id fails "Unknown time-zone ID: " followed by the id |
| Calendar.TodayContainsNow | backend/src/main/java/com/expensetracker/service/RecurringService.java:161-162 | the current instant lies within the local day named as today |
| Calendar.LaterDayStartsAfterNow | backend/src/main/java/com/expensetracker/service/RecurringService.java:182-183 | a date after today starts after the current instant |
| RecurringService.RunBase | backend/src/main/java/com/expensetracker/service/RecurringService.java:160-166 | the base day is the start date or today, and not before either |
| RecurringService.NextRunDate | backend/src/main/java/com/expensetracker/service/RecurringService.java:168-180 | the base day moved by one interval: 7 times the interval days for WEEKLY, interval months with the day clamped for MONTHLY, interval years with the day clamped for YEARLY |
| RecurringService.NextRunIsLater | backend/src/main/java/com/expensetracker/service/RecurringService.java:159-184 | with a positive interval the next run date is after today and after the start date, so a future start date is itself skipped |
| RecurringService.ZeroIntervalStays | backend/src/main/java/com/expensetracker/service/RecurringService.java:168-180 | an interval of zero leaves the base day where it is |
| RecurringService.MonthEndClamping | backend/src/main/java/com/expensetracker/service/RecurringService.java:174-178 | 31 January plus a month is 28 February (29 in a leap year); 29 February plus a year is 28 February |
| RecurringService.CalculateNextRun | backend/src/main/java/com/expensetracker/service/RecurringService.java:159-184 | the next run is computed exactly when the rule's zone id is known, as the start of the next-run day at that zone's offset; an unknown id fails with the zone error before any date is computed |
| RecurringService.NextRunVersusNow | backend/src/main/java/com/expensetracker/service/RecurringService.java:159-184 | with a positive interval the next run lies after now; with a zero interval and a start date not after today it lies at or before now |
| RecurringService.WeeklyNextRun | backend/src/main/java/com/expensetracker/service/RecurringService.java:171-172 | a weekly rule runs at the start of the day 7 times the interval days after its base day |
| RecurringService.NextRunIgnoresEndDateAndMonthDays | backend/src/main/java/com/expensetracker/service/RecurringService.java:159-184 | the end date and the month-day list never change the next run or whether it fails |
| RecurringService.PostingRequest | backend/src/main/java/com/expensetracker/service/RecurringService.java:142-157 | the request copies member, type, amount, currency and category from the rule, occurs now and notes "Recurring: " followed by the rule's name |
| RecurringService.PostingOutcome | backend/src/main/java/com/expensetracker/service/RecurringService.java:142-157 | posting succeeds exactly when the rule's member resolves to a family in which the category is live; on success the ledger gains one entry of that family with the rule's amount and category and no link back to the rule; on failure nothing changes |
| RecurringService.ProcessAllRules | backend/src/main/java/com/expensetracker/service/RecurringService.java:127-140 | after the loop over distinct due rules, each rule id holds the due rule advanced to its next run when its posting succeeded and its zone id is known, and otherwise what it held |
| RecurringService.Postings | backend/src/main/java/com/expensetracker/service/RecurringService.java:127-140 | the loop posts at most one entry per due rule |
| RecurringService.ProcessAllEntries | backend/src/main/java/com/expensetracker/service/RecurringService.java:127-140 | the ledger after the loop is the old ledger followed by the postings of the due rules, in order |
| RecurringService.ProcessAllKeepsEntries | backend/src/main/java/com/expensetracker/service/RecurringService.java:127-140 | the loop only appends: every old entry stays, with its id, at its place |
| RecurringService.ProcessOneIsPosting | backend/src/main/java/com/expensetracker/service/RecurringService.java:130-138 | one turn calls createEntry and, only if it returns, computes the next run and saves the rule; a failed posting changes neither store, and an unknown zone id after a posting keeps the posted entry and leaves the rule as it was |
| RecurringService.ProcessAllStep | backend/src/main/java/com/expensetracker/service/RecurringService.java:130-139 | the loop from a due rule on is that rule's turn followed by the loop over the rest |
| RecurringService.ProcessRecurringRulesEffect | backend/src/main/java/com/expensetracker/service/RecurringService.java:127-140 | a rule that is due at now, whose posting succeeds and whose zone id is known moves to its next run; every other rule, including a due rule whose posting fails or whose zone id is unknown, keeps what it had; the ledger grows by the postings in order, whatever the zone ids |
| RecurringService.StillDueAfterRun | backend/src/main/java/com/expensetracker/service/RecurringService.java:127-140 | a rule still due after a run was due before and either failed to post, names an unknown zone id or has an interval below one |
| RecurringService.ProcessKeepsZonesKnown | backend/src/main/java/com/expensetracker/service/RecurringService.java:127-140 | a run keeps every stored rule's zone id and pause flag, so when every unpaused rule names a known zone it still does afterwards |
| RecurringService.KnownZonesAdvance | backend/src/main/java/com/expensetracker/service/RecurringService.java:130-134 | when every unpaused rule names a known zone, a due rule whose posting succeeds always moves to its next run |
| RecurringService.DtoError | backend/src/main/java/com/expensetracker/service/RecurringService.java:42-53 | the DTO is accepted exactly when both its type and its unit name enum constants |
| RecurringService.WithDto | backend/src/main/java/com/expensetracker/service/RecurringService.java:39-56 | every DTO field is written over the rule; family, next run, pause flag and timestamps are kept |
| RecurringService.CreateRuleEffect | backend/src/main/java/com/expensetracker/service/RecurringService.java:33-63 | fails for an unknown user, "User must belong to a family to create recurring rules" for a user without one, the valueOf error, or the zone error for an unknown zone id, saving nothing; otherwise appends under a fresh id a rule of the caller's family that carries the DTO, is not paused, is stamped now and runs next at the start of its next-run day in its zone |
| RecurringService.CheckAccess | backend/src/main/java/com/expensetracker/service/RecurringService.java:75-83 | succeeds exactly when the rule exists and carries the caller's family; "Recurring rule not found" for a missing rule, "Access denied to recurring rule" for another family's rule or a caller without a family |
| RecurringService.UpdatedRule | backend/src/main/java/com/expensetracker/service/RecurringService.java:85-108 | the rule carries every DTO field including the pause flag; unless paused, its next run is recomputed from the new fields in the new zone; updatedAt is now; family and creation time are kept |
| RecurringService.UpdateRuleEffect | backend/src/main/java/com/expensetracker/service/RecurringService.java:75-112 | succeeds exactly when the access check passes, the DTO parses and the rule is paused or its zone id is known, rewriting that rule in place; otherwise the access, valueOf or zone error, changing nothing |
| RecurringService.DeleteRuleEffect | backend/src/main/java/com/expensetracker/service/RecurringService.java:114-125 | a hard delete exactly when the access check passes; otherwise its error, changing nothing |
| RecurringService.DeletedRuleIsGone | backend/src/main/java/com/expensetracker/service/RecurringService.java:114-125 | after a delete, updating or deleting the rule again fails "Recurring rule not found" and no other rule changed |
| RecurringService.UnpausedUpdateIsNotDue | backend/src/main/java/com/expensetracker/service/RecurringService.java:103-106 | an update that leaves the rule unpaused with a positive interval leaves it not due at the time of the update |
| RecurringService.WritesKeepZonesKnown | backend/src/main/java/com/expensetracker/service/RecurringService.java:33-125 | creation, update and deletion keep every unpaused rule's zone id known, since creation and an unpaused update resolve it before the save |
| RecurringService.GetRecurringRules | backend/src/main/java/com/expensetracker/service/RecurringService.java:65-73 | an empty list for a user without a family; otherwise exactly the stored rules of the family, paused ones included |
| RecurringService.RecurringService.CreateRecurringRule | backend/src/main/java/com/expensetracker/service/RecurringService.java:33-63 | the answer and the new rule store are those of CreateRuleEffect |
| RecurringService.RecurringService.UpdateRecurringRule | backend/src/main/java/com/expensetracker/service/RecurringService.java:75-112 | the answer and the new rule store are those of UpdateRuleEffect |
| RecurringService.RecurringService.DeleteRecurringRule | backend/src/main/java/com/expensetracker/service/RecurringService.java:114-125 | the answer and the new rule store are those of DeleteRuleEffect |
| RecurringService.RecurringService.ProcessRecurringRules | backend/src/main/java/com/expensetracker/service/RecurringService.java:127-140 | the rule store and the ledger after the loop are those ProcessAll gives for the due rules |
| RecurringService.RecurringService.ProcessRule | backend/src/main/java/com/expensetracker/service/RecurringService.java:130-138 | one turn of the loop changes both stores as ProcessOne says |
| LedgerTotals.SumSplit | backend/src/main/java/com/expensetracker/service/ReportService.java:45-53 | the sums of the two sides of a condition add up to the total |
| LedgerTotals.SelectedSumBounded | backend/src/main/java/com/expensetracker/service/BudgetService.java:125-127 | with no negative amount a selection sums to between zero and the total |
| LedgerTotals.GroupByCategoryKeys | backend/src/main/java/com/expensetracker/service/BudgetService.java:130-134 | the grouped map has a key for exactly the categories that occur |
| LedgerTotals.GroupByCategoryIsCategorySum | backend/src/main/java/com/expensetracker/service/BudgetService.java:130-134 | reading the grouped map with a default of zero gives the category's sum, also for a category with no entry |
| LedgerTotals.SumOverDistinctKeys | backend/src/main/java/com/expensetracker/service/BudgetService.java:130-134 | over distinct keys the per-key sums add up to the sum of the entries whose key is any of them |
| LedgerTotals.SumOverCoveringKeys | backend/src/main/java/com/expensetracker/service/BudgetService.java:130-134 | when every entry's key is listed once, the per-key sums add up to the total: grouping neither loses nor double-counts |
| LedgerTotals.DistinctKeySumsBounded | backend/src/main/java/com/expensetracker/service/BudgetService.java:130-134 | with distinct keys and no negative amount the per-key sums never exceed the total |
| BudgetService.ConvertPeriod | backend/src/main/java/com/expensetracker/service/BudgetService.java:151-154 | succeeds exactly when the type names a period type, which it keeps with both dates |
| BudgetService.ConvertCategoryBudgets | backend/src/main/java/com/expensetracker/service/BudgetService.java:156-162 | null gives the empty list; otherwise one limit per item, in order, with its category and limit |
| BudgetService.FindInFamily | backend/src/main/java/com/expensetracker/repository/BudgetRepository.java:22 | found exactly when the budget is stored with that family, and then it is the stored one |
| BudgetService.FindByFamily | backend/src/main/java/com/expensetracker/repository/BudgetRepository.java:17 | exactly the stored budgets of the family |
| BudgetService.RequireFamily | backend/src/main/java/com/expensetracker/service/BudgetService.java:34-37 | the caller's family; "User not found" for an unknown user and "User is not associated with any family" for a user without one |
| BudgetService.CreateBudgetEffect | backend/src/main/java/com/expensetracker/service/BudgetService.java:33-43 | succeeds exactly when the caller has a family and the period type parses, appending under a fresh id a budget of that family carrying the DTO's six fields, stamped now; a failure changes nothing |
| BudgetService.GetBudgetsForUser | backend/src/main/java/com/expensetracker/service/BudgetService.java:48-55 | an empty list for a user without a family, otherwise the family's budgets; fails only for an unknown user |
| BudgetService.GetBudgetById | backend/src/main/java/com/expensetracker/service/BudgetService.java:60-67 | empty for a user without a family, otherwise the family-scoped lookup; fails only for an unknown user |
| BudgetService.UpdatedBudget | backend/src/main/java/com/expensetracker/service/BudgetService.java:81-87 | the six DTO fields replace the stored ones; family and both timestamps are kept, so updatedAt is not refreshed |
| BudgetService.UpdateBudgetEffect | backend/src/main/java/com/expensetracker/service/BudgetService.java:72-90 | succeeds exactly when the caller has a family, the budget is in it and the period parses, rewriting it in place; "Budget not found" for a budget not in the family; a failure changes nothing |
| BudgetService.DeleteBudgetEffect | backend/src/main/java/com/expensetracker/service/BudgetService.java:95-102 | succeeds exactly when the caller has a family; removes the budget only when it is in that family and is silent otherwise |
| BudgetService.OtherFamilyBudgetIsUntouchable | backend/src/main/java/com/expensetracker/service/BudgetService.java:72-137 | another family's budget cannot be updated ("Budget not found"), deleted (silently nothing) or read for status ("Budget not found") |
| BudgetService.SpendingEntries | backend/src/main/java/com/expensetracker/service/BudgetService.java:117-122 | exactly the stored live EXPENSE entries of the family from 00:00:00 UTC of the first day to 23:59:59 UTC of the last, bounds inclusive |
| BudgetService.CategoryRows | backend/src/main/java/com/expensetracker/service/BudgetService.java:180-188 | one row per budgeted category, in the budget's order, with its limit and the grouped spend or zero |
| BudgetService.GetBudgetSpendingStatus | backend/src/main/java/com/expensetracker/service/BudgetService.java:107-137 | succeeds exactly when the caller has a family and the budget is in it; "Budget not found" otherwise; the status is that of the stored budget |
| BudgetService.SpendingStatusMeaning | backend/src/main/java/com/expensetracker/service/BudgetService.java:107-192 | the status carries the period, the overall limit, the sum of the counted entries and, per budgeted category in order, its limit and the sum of its counted entries |
| BudgetService.SpentTotalIsSumOverCategories | backend/src/main/java/com/expensetracker/service/BudgetService.java:180-188 | the category rows' spend adds up to the per-key sums over the budgeted categories |
| BudgetService.CategorySpendWithinOverall | backend/src/main/java/com/expensetracker/service/BudgetService.java:125-134 | with distinct budgeted categories and no negative amount, the category rows add up to between zero and the overall spend |
| BudgetService.StatusIgnoresRecurringAndThreshold | backend/src/main/java/com/expensetracker/service/BudgetService.java:107-137 | neither the include-recurring flag nor the alert threshold changes the status |
| BudgetService.BudgetService.CreateBudget | backend/src/main/java/com/expensetracker/service/BudgetService.java:33-43 | the answer and the new budget store are those of CreateBudgetEffect |
| BudgetService.BudgetService.UpdateBudget | backend/src/main/java/com/expensetracker/service/BudgetService.java:72-90 | the answer and the new budget store are those of UpdateBudgetEffect |
| BudgetService.BudgetService.DeleteBudget | backend/src/main/java/com/expensetracker/service/BudgetService.java:95-102 | the answer and the new budget store are those of DeleteBudgetEffect |
| Formatting.NatText | backend/src/main/java/com/expensetracker/service/ReportService.java:152 | the decimal text of a number is a non-empty digit string without a leading zero |
| Formatting.ParseNatText | backend/src/main/java/com/expensetracker/service/ReportService.java:152 | the decimal text of a number reads back as the number |
| Formatting.ParseDigitsAppend | backend/src/main/java/com/expensetracker/service/ReceiptOCRService.java:133 | the digits of two texts side by side stand for the first shifted by the second's length plus the second, as new BigDecimal reads the unscaled value |
| Formatting.ParseZeroPad | backend/src/main/java/com/expensetracker/service/ReportService.java:150 | a zero-padded decimal text reads back as the number |
| Formatting.DateTextRoundTrip | backend/src/main/java/com/expensetracker/service/ReportService.java:150 | for years 0 to 9999 the ISO date text is ten characters whose year, month and day fields read back as the date |
| Formatting.DateText | backend/src/main/java/com/expensetracker/service/ReportService.java:150 | the ISO date text of any year has at least ten characters, ends in -MM-dd, and its month and day fields read back as the date's month and day |
| Formatting.PlainAmountRoundTrip | backend/src/main/java/com/expensetracker/service/ReportService.java:152 | the plain text of a non-negative amount in major units reads back as its minor units |
| Formatting.AmountTextRoundTrip | backend/src/main/java/com/expensetracker/service/ReportService.java:152 | below ten million major units the CSV amount column reads back as the amount in minor units |
| Formatting.EscapeQuotes | backend/src/main/java/com/expensetracker/service/ReportService.java:156 | doubling the quotes never shortens the text |
| Formatting.UnescapeEscape | backend/src/main/java/com/expensetracker/service/ReportService.java:156 | reading back a text with its quotes doubled gives the text |
| Formatting.QuoteFieldRoundTrip | backend/src/main/java/com/expensetracker/service/ReportService.java:156 | a quoted field reads back, as section 2 of RFC 4180 defines it, as the text that was quoted, whatever quotes or commas it holds |
| Formatting.CountCharAppend | backend/src/main/java/com/expensetracker/service/ReportService.java:146-160 | occurrences of a character in a concatenation add up |
| Formatting.AppendAll | backend/src/main/java/com/expensetracker/service/ReportService.java:149-158 | appending each item's text in turn builds the concatenation of the texts in order |
| Formatting.ConcatMapCount | backend/src/main/java/com/expensetracker/service/ReportService.java:149-158 | when every item's text holds a character once, the concatenation holds it once per item |
| ReportService.IncomePlusExpenses | backend/src/main/java/com/expensetracker/service/ReportService.java:45-51 | income and expenses together are the sum of all amounts |
| ReportService.LastSecondIsNotCovered | backend/src/main/java/com/expensetracker/service/ReportService.java:34-37 | an entry in the final second of the end date, after 23:59:59.000 UTC, falls on the end date yet is not covered by the report |
| ReportService.Totals | backend/src/main/java/com/expensetracker/service/ReportService.java:42-51 | the totals loop computes the income sum and the expense sum of the entries |
| ReportService.MergeAllIsSumByKey | backend/src/main/java/com/expensetracker/service/ReportService.java:58-63 | the merge loop's map holds, for each key some selected entry has, the sum of those entries |
| ReportService.SumByKey | backend/src/main/java/com/expensetracker/service/ReportService.java:58-63 | the category loop leaves each category with an expense mapped to the sum of its expenses, and no other key |
| ReportService.BucketAllIsIncomeExpenseByKey | backend/src/main/java/com/expensetracker/service/ReportService.java:76-88 | the monthly loop's map holds, for each month some entry has, the income and the expense sums of that month |
| ReportService.MonthlyTotals | backend/src/main/java/com/expensetracker/service/ReportService.java:76-88 | the monthly loop leaves each month with an entry mapped to its income and expense sums, and no other key |
| ReportService.ListCategories | backend/src/main/java/com/expensetracker/service/ReportService.java:65-73 | the per-category list holds every key of the map once, with its value |
| ReportService.ListMonths | backend/src/main/java/com/expensetracker/service/ReportService.java:90-99 | the per-month list holds every key of the map once, with its income and expense |
| ReportService.ListedSpendingIsBreakdown | backend/src/main/java/com/expensetracker/service/ReportService.java:58-73 | listing the per-category sums lists each category with an expense once, with its expense sum |
| ReportService.ListedMonthsAreBreakdown | backend/src/main/java/com/expensetracker/service/ReportService.java:76-99 | listing the per-month sums lists each month with an entry once, with its income and expense sums |
| ReportService.CategoryBreakdownAddsUp | backend/src/main/java/com/expensetracker/service/ReportService.java:58-73 | the per-category spending adds up to the expense total, whatever order the categories come in |
| ReportService.MonthBreakdownAddsUp | backend/src/main/java/com/expensetracker/service/ReportService.java:76-99 | the monthly income and expense figures add up to the income and expense totals |
| ReportService.Summaries | backend/src/main/java/com/expensetracker/service/ReportService.java:107-115 | one summary per entry, in order, with its id, category and amount |
| ReportService.RecentProperties | backend/src/main/java/com/expensetracker/service/ReportService.java:102-105 | the recent list holds the ten (or all, when fewer) most recently created entries, newest first, and every entry it leaves out was created no later than the last one shown |
| ReportService.RecentEntries | backend/src/main/java/com/expensetracker/service/ReportService.java:102-105 | ten entries, or all when fewer, ordered by creation time descending (which entries these are is stated by RecentProperties) |
| ReportService.GenerateReport | backend/src/main/java/com/expensetracker/service/ReportService.java:28-119 | "User not found" for an unknown user, "User must belong to a family to generate reports" for a user without one; otherwise a report whose totals, category and month breakdowns and recent list are those of the covered entries |
| ReportService.ReportAddsUp | backend/src/main/java/com/expensetracker/service/ReportService.java:42-119 | income plus expenses is the sum of the covered entries, the categories add up to the expenses, the months add up to both totals, and the recent list has min(10, entries) items |
| ReportService.GenerateCsv | backend/src/main/java/com/expensetracker/service/ReportService.java:145-161 | the CSV is the header followed by one line per entry in query order |
| ReportService.DescriptionReadsBack | backend/src/main/java/com/expensetracker/service/ReportService.java:156 | each line ends with a line break, and its quoted description reads back as the entry's notes (empty when null) |
| ReportService.OneLinePerEntry | backend/src/main/java/com/expensetracker/service/ReportService.java:145-161 | when no text of an entry holds a line break, the export has exactly one line per entry after the header |
| ReportService.CsvLine | backend/src/main/java/com/expensetracker/service/ReportService.java:150-157 | a line starts with the six plain columns and ends with a line break (its description column reads back by DescriptionReadsBack) |
| ReportService.CsvLines | backend/src/main/java/com/expensetracker/service/ReportService.java:149-158 | the lines of all entries are at least one character per entry and end in a line break when there is an entry |
| ReportService.CsvLineHasOneBreak | backend/src/main/java/com/expensetracker/service/ReportService.java:150-157 | a line whose texts hold no line break holds exactly one, at its end |
| ReportService.NoBreakInFields | backend/src/main/java/com/expensetracker/service/ReportService.java:150-155 | the six plain columns hold no line break when currency, category and member hold none |
| ReportService.ExportData | backend/src/main/java/com/expensetracker/service/ReportService.java:121-143 | "User not found" for an unknown user, "User must belong to a family to export data" for a user without one; for the format CSV in any ASCII case the CSV of the covered entries as text/csv named expense_report_START_to_END.csv; otherwise "Unsupported export format: " and the format |
| ReportService.ExportFilename | backend/src/main/java/com/expensetracker/service/ReportService.java:137 | the file name starts with "expense_report_" and ends with ".csv" |
| ReportService.CsvFormatCaseInsensitive | backend/src/main/java/com/expensetracker/service/ReportService.java:134 | CSV, csv and Csv are accepted; PDF and "csv " are not |
| NotificationService.NewNotification | backend/src/main/java/com/expensetracker/domain/Notification.java:19-30 | a new notification is unread, not yet mailed, created at the given instant and carries the user, family, type and data it was given |
| NotificationService.IntCast | backend/src/main/java/com/expensetracker/service/NotificationService.java:39 | Java's `(int)` of a double lies in the 32-bit range, is within one of the value toward zero when the value is in range, and is non-negative for a non-negative value |
| NotificationService.SaveThenMail | backend/src/main/java/com/expensetracker/service/NotificationService.java:46-58 | exactly one row is appended under a fresh id; its `emailSent` is set exactly when the user exists and the e-mail step completed |
| NotificationService.CreateBudgetAlertEffect | backend/src/main/java/com/expensetracker/service/NotificationService.java:31-59 | fails with "User not found", leaving the notifications untouched, exactly when the user does not exist |
| NotificationService.CreateBudgetExceededAlertEffect | backend/src/main/java/com/expensetracker/service/NotificationService.java:61-77 | fails with "User not found", leaving the notifications untouched, exactly when the user does not exist |
| NotificationService.CreateWeeklySummaryEffect | backend/src/main/java/com/expensetracker/service/NotificationService.java:79-100 | fails with "User not found", leaving the notifications untouched, exactly when the user does not exist |
| NotificationService.AlertIsKeptWhateverTheMail | backend/src/main/java/com/expensetracker/service/NotificationService.java:46-58 | for a known user one new unread BUDGET_ALERT with the budget id and percentage is appended under a new id, nothing else changes, and it records the e-mail exactly when the e-mail step completed |
| NotificationService.ExceededAlertIsNeverMailed | backend/src/main/java/com/expensetracker/service/NotificationService.java:61-77 | the exceeded alert is appended with its budget data and never records an e-mail |
| NotificationService.SummaryIsKeptWhateverTheMail | backend/src/main/java/com/expensetracker/service/NotificationService.java:89-99 | for a known user one new WEEKLY_SUMMARY without data is appended under a new id, and it records the e-mail exactly when the e-mail step completed |
| NotificationService.MarkAsReadEffect | backend/src/main/java/com/expensetracker/service/NotificationService.java:110-115 | an unknown id changes nothing; a known one becomes read with its other fields kept; every other id looks up as before |
| NotificationService.MarkAsReadIdempotent | backend/src/main/java/com/expensetracker/service/NotificationService.java:110-115 | marking a notification read twice gives the same store as marking it once |
| NotificationService.GetUserNotifications | backend/src/main/java/com/expensetracker/service/NotificationService.java:102-104 | newest first, and exactly the user's notifications (as a multiset) |
| NotificationService.GetUnreadNotifications | backend/src/main/java/com/expensetracker/service/NotificationService.java:106-108 | newest first, and exactly the user's unread notifications (as a multiset) |
| NotificationService.UnreadCountIsUnreadList | backend/src/main/java/com/expensetracker/service/NotificationService.java:106-119 | the unread count equals the length of the unread list; marking one of the user's unread notifications lowers the count by exactly one, and marking anything else leaves it |
| NotificationService.GetUnreadCount | backend/src/main/java/com/expensetracker/service/NotificationService.java:117-119 | the count is at most the number of notifications, and zero exactly when the user has no unread notification |
| NotificationService.NotificationService.CreateBudgetAlert | backend/src/main/java/com/expensetracker/service/NotificationService.java:31-59 | result and new notifications are those of `CreateBudgetAlertEffect`; ids stay unique |
| NotificationService.NotificationService.CreateBudgetExceededAlert | backend/src/main/java/com/expensetracker/service/NotificationService.java:61-77 | result and new notifications are those of `CreateBudgetExceededAlertEffect`; ids stay unique |
| NotificationService.NotificationService.CreateWeeklySummary | backend/src/main/java/com/expensetracker/service/NotificationService.java:79-100 | result and new notifications are those of `CreateWeeklySummaryEffect`; ids stay unique |
| NotificationService.NotificationService.MarkAsRead | backend/src/main/java/com/expensetracker/service/NotificationService.java:110-115 | the new notifications are those of `MarkAsReadEffect`; ids stay unique |
| FamilyService.FindLiveFamily | backend/src/main/java/com/expensetracker/repository/FamilyRepository.java:11 | a family is found exactly when it is stored and not soft-deleted, and then it is the stored one |
| FamilyService.CreateFamilyEffect | backend/src/main/java/com/expensetracker/service/FamilyService.java:25-40 | the new family is always appended under a fresh id, even when the creator is missing; the call fails with "User not found", users untouched, exactly when the creator does not exist, and otherwise returns the new family |
| FamilyService.CreatorBecomesAdmin | backend/src/main/java/com/expensetracker/service/FamilyService.java:30-37 | the creator keeps their memberships and gains exactly one, ADMIN of the new family; a creator without a family now resolves to it, one with a family keeps resolving to the first; no other user changes |
| FamilyService.JoinAsAdmin | backend/src/main/java/com/expensetracker/service/FamilyService.java:33-35 | the user keeps every membership in order, gains exactly one more, ADMIN of the family, keeps email, password hash and deletion, and is updated now |
| FamilyService.GetFamily | backend/src/main/java/com/expensetracker/service/FamilyService.java:42-58 | succeeds exactly for a known user who is a member of a live family, returning that family; otherwise "User not found", then "Access denied to family", then "Family not found", in that order |
| FamilyService.IsMember | backend/src/main/java/com/expensetracker/service/FamilyService.java:47-48 | a user is a member exactly when one of their memberships names the family |
| FamilyService.CreatorCanReadNewFamily | backend/src/main/java/com/expensetracker/service/FamilyService.java:25-58 | after a successful create the creator can read the new family and gets the same response |
| FamilyService.FamilyService.CreateFamily | backend/src/main/java/com/expensetracker/service/FamilyService.java:25-40 | result, families and users are those of `CreateFamilyEffect`; ids stay unique |
| AuthService.FindByEmail | backend/src/main/java/com/expensetracker/repository/UserRepository.java:11-13 | a user is found exactly when some live user has that email, and what is found is a stored live user with that email, and no earlier stored user is a live user with that email |
| AuthService.AuthResponseFor | backend/src/main/java/com/expensetracker/service/AuthService.java:48-55 | the response carries the user's id and email, the configured expiry, and the tokens the provider issues for that id and email |
| AuthService.SignupEffect | backend/src/main/java/com/expensetracker/service/AuthService.java:25-35 | fails with "Email already exists", users untouched, exactly when a live user has the email; otherwise appends one new user under a fresh id with the encoded password and answers with that user's tokens |
| AuthService.Login | backend/src/main/java/com/expensetracker/service/AuthService.java:37-46 | succeeds exactly when a live user has the email and the password matches that user's hash; every failure is "Invalid credentials" |
| AuthService.SignupKeepsEmailsUnique | backend/src/main/java/com/expensetracker/service/AuthService.java:25-35 | sign-up never creates a second live user with the same email |
| AuthService.SignupThenLogin | backend/src/main/java/com/expensetracker/service/AuthService.java:25-46 | with an encoder whose hashes match their passwords, logging in right after a successful sign-up gives the same response |
| AuthService.FirstLiveIsAppended | backend/src/main/java/com/expensetracker/repository/UserRepository.java:11 | when no stored user is live with an email, the lookup after appending a live user with it finds that user |
| AuthService.AuthService.Signup | backend/src/main/java/com/expensetracker/service/AuthService.java:25-35 | result and new users are those of `SignupEffect`; ids stay unique |
| AuthController.TokenFromHeader | backend/src/main/java/com/expensetracker/controller/AuthController.java:69-75 | a token is read exactly when the header is present and starts with "Bearer ", and the header is then "Bearer " followed by the token |
| AuthController.BearerRoundTrip | backend/src/main/java/com/expensetracker/controller/AuthController.java:69-75 | any token sent as "Bearer " plus the token is read back unchanged |
| AuthController.Signup | backend/src/main/java/com/expensetracker/controller/AuthController.java:36-41 | answers 201 with the service's response when sign-up succeeds, and otherwise propagates its error |
| AuthController.Login | backend/src/main/java/com/expensetracker/controller/AuthController.java:43-48 | answers 200 with the service's response when login succeeds, and otherwise propagates its error |
| AuthController.RemainingLife | backend/src/main/java/com/expensetracker/controller/AuthController.java:53-62 | a token is to be blacklisted exactly when it is present, valid, has a known expiry and that expiry is after now; the time to live is then the positive remainder |
| AuthController.AuthController.Logout | backend/src/main/java/com/expensetracker/controller/AuthController.java:50-67 | always answers 200 with no body; blacklists the token for its remaining life when it has one, and otherwise leaves the blacklist unchanged |
| FileUpload.ValidateFile | backend/src/main/java/com/expensetracker/service/FileUploadService.java:107-120 | passes exactly a non-empty file within the size limit whose content type is present and allowed; an empty file fails "File is empty", an oversized one "File size exceeds maximum allowed size", and any other with a missing or disallowed content type "File type not allowed", in that order |
| FileUpload.LastIndexOf | backend/src/main/java/com/expensetracker/service/FileUploadService.java:129-132 | the last position of the character, with none after it, or -1 when it does not occur |
| FileUpload.ExtensionShape | backend/src/main/java/com/expensetracker/service/FileUploadService.java:128-133 | the extension is empty exactly for a missing or dot-free name; otherwise it is the suffix of the name that starts at its last '.' |
| FileUpload.StoredNameKeepsExtension | backend/src/main/java/com/expensetracker/service/FileUploadService.java:41-43 | a dot-free random name followed by the original's extension has that same extension |
| FileUpload.FileUploadService.UploadFile | backend/src/main/java/com/expensetracker/service/FileUploadService.java:32-63 | a file failing validation, or an I/O error, leaves files and records untouched and reports the message ("File upload failed: " before an I/O one); otherwise the bytes are written under the upload directory with the random name and one attachment record is appended under a fresh id |
| FileUpload.FileUploadService.GetFileUrl | backend/src/main/java/com/expensetracker/service/FileUploadService.java:65-72 | "/api/v1/files/<id>/download" exactly for a stored attachment, "Attachment not found" otherwise |
| FileUpload.FileUploadService.GetFileContent | backend/src/main/java/com/expensetracker/service/FileUploadService.java:74-84 | "Attachment not found" for an unknown id; otherwise the stored bytes, or "Failed to read file: " and the I/O message when no file is behind the key |
| FileUpload.FileUploadService.GetAttachmentsByLedgerEntry | backend/src/main/java/com/expensetracker/repository/AttachmentRepository.java:11 | exactly the stored attachments of that ledger entry |
| FileUpload.FileUploadService.DeleteAttachment | backend/src/main/java/com/expensetracker/service/FileUploadService.java:90-105 | succeeds exactly for a stored attachment, removing its file and its record; an unknown id is "Attachment not found" and changes nothing |
| FileUpload.UploadThenRead | backend/src/main/java/com/expensetracker/service/FileUploadService.java:32-84 | a file that passes validation, once uploaded, reads back byte for byte |
| Keywords.ContainsAny | backend/src/main/java/com/expensetracker/service/VoiceExpenseService.java:128 | true exactly when some word of the list occurs in the text |
| Keywords.Classify | backend/src/main/java/com/expensetracker/service/VoiceExpenseService.java:182-204 | the outcome of the first rule one of whose words occurs in the text, and the fallback when none does |
| Keywords.SomeRuleFiresFirst | backend/src/main/java/com/expensetracker/service/VoiceExpenseService.java:182-204 | when any rule fires, some rule fires first |
| Keywords.ClassifyRange | backend/src/main/java/com/expensetracker/service/VoiceExpenseService.java:182-204 | a classification is one of the table's outcomes or the fallback, and (when no rule carries the fallback) it is the fallback exactly when no rule fires |
| VoiceExpense.ParseLong | backend/src/main/java/com/expensetracker/service/VoiceExpenseService.java:108-109 | a captured text parses exactly when it is a non-empty digit string whose value fits a `long`, and then to that value |
| VoiceExpense.ExtractAmountMinor | backend/src/main/java/com/expensetracker/service/VoiceExpenseService.java:92-123 | the loop over the five patterns yields the first usable match's amount, skipping a dollars-and-cents match that throws, with 64-bit wrap-around, and 0 when nothing matches |
| VoiceExpense.NoMatchIsZero | backend/src/main/java/com/expensetracker/service/VoiceExpenseService.java:122 | a sentence no pattern matches has amount 0 |
| VoiceExpense.DollarsAndCents | backend/src/main/java/com/expensetracker/service/VoiceExpenseService.java:106-110 | "X dollars and Y cents", when the earlier patterns do not match, gives X * 100 + Y minor units whenever that fits a `long` |
| VoiceExpense.AmountIsLong | backend/src/main/java/com/expensetracker/service/VoiceExpenseService.java:102-122 | when every decimal match is a `long`, so is the amount |
| VoiceExpense.CurrencyRange | backend/src/main/java/com/expensetracker/service/VoiceExpenseService.java:125-139 | the currency is USD, EUR, GBP or TRY, or the preferred one, which is used exactly when no currency keyword occurs in the lower-cased text |
| VoiceExpense.ExtractCurrency | backend/src/main/java/com/expensetracker/service/VoiceExpenseService.java:125-139 | the currency of the first keyword group found in the lower-cased text, in the order USD, EUR, GBP, TRY, and the preferred currency when none is found |
| VoiceExpense.DropSpaces | backend/src/main/java/com/expensetracker/service/VoiceExpenseService.java:163 | the result is a suffix of the text that does not start with a regex space |
| VoiceExpense.Collapse | backend/src/main/java/com/expensetracker/service/VoiceExpenseService.java:163 | empty exactly for empty text; every character is a single space or a non-space of the text, and no two regex spaces are adjacent |
| VoiceExpense.NormalizeEmpty | backend/src/main/java/com/expensetracker/service/VoiceExpenseService.java:163-164 | the trimmed, collapsed text is empty exactly when the text is all blanks and control characters |
| VoiceExpense.DescriptionShape | backend/src/main/java/com/expensetracker/service/VoiceExpenseService.java:141-165 | the description is never empty: a keyword label, or the normalised remainder when no keyword occurs and something is left, or "Expense" exactly when only blanks are left |
| VoiceExpense.ExtractDescription | backend/src/main/java/com/expensetracker/service/VoiceExpenseService.java:141-165 | the label of the first keyword group found, and otherwise the normalised remainder or "Expense" |
| VoiceExpense.SuggestedCategoryRange | backend/src/main/java/com/expensetracker/service/VoiceExpenseService.java:182-204 | the suggestion is food-dining, groceries, transportation or other, and "other" exactly when no keyword occurs in the description or the merchant |
| VoiceExpense.SuggestCategory | backend/src/main/java/com/expensetracker/service/VoiceExpenseService.java:182-204 | the category of the first keyword group found in the description and merchant, and "other" when none is found |
| VoiceExpense.ParseVoiceExpense | backend/src/main/java/com/expensetracker/service/VoiceExpenseService.java:59-90 | the parse result carries the extracted amount, currency, description, merchant, the category suggested from that description and merchant, and the current time |
| VoiceExpense.ParseSpokenText | backend/src/main/java/com/expensetracker/service/VoiceExpenseService.java:59-90 | the steps in the service's order give the same parse result |
| VoiceExpense.GenerateSuggestions | backend/src/main/java/com/expensetracker/service/VoiceExpenseService.java:232-248 | the hints are exactly those whose conditions hold (no positive amount, the "Expense" description, no merchant), each once, in that order |
| VoiceExpense.SuggestionsAreDetermined | backend/src/main/java/com/expensetracker/service/VoiceExpenseService.java:232-248 | the hints are a function of the parse result |
| VoiceExpense.HintsInOrder | backend/src/main/java/com/expensetracker/service/VoiceExpenseService.java:232-248 | the hints are the needed ones taken in the order amount, description, merchant |
| VoiceExpense.GetUserVoiceExpenseData | backend/src/main/java/com/expensetracker/service/VoiceExpenseService.java:290-292 | newest first, and exactly the user's drafts (as a multiset) |
| VoiceExpense.GetVoiceExpenseData | backend/src/main/java/com/expensetracker/service/VoiceExpenseService.java:294-303 | a draft is returned exactly to its own user; "Voice expense data not found" for an unknown id and "Access denied" for another user's |
| VoiceExpense.VoiceExpenseIsPosted | backend/src/main/java/com/expensetracker/service/VoiceExpenseService.java:273-288 | a posted draft becomes one appended expense of the caller in their family, with the confirmed amount, currency and category, the description as notes and the current time |
| VoiceExpense.VoiceLedgerRequest | backend/src/main/java/com/expensetracker/service/VoiceExpenseService.java:273-282 | the ledger request is an expense of the caller with the confirmed amount, currency and category, the description as notes, no attachments, occurring now |
| VoiceExpense.VoiceExpenseService.ProcessVoiceExpense | backend/src/main/java/com/expensetracker/service/VoiceExpenseService.java:37-57 | one draft is appended under a fresh id, for the user, with the spoken text, the parse result and hints that suggest for it |
| VoiceExpense.VoiceExpenseService.CreateExpenseFromVoice | backend/src/main/java/com/expensetracker/service/VoiceExpenseService.java:273-288 | result and new entries are those of the ledger's create for the request the draft builds |
| ReceiptOcr.Pieces | backend/src/main/java/com/expensetracker/service/ReceiptOCRService.java:116 | at least one piece, none holding a line break |
| ReceiptOcr.JoinPieces | backend/src/main/java/com/expensetracker/service/ReceiptOCRService.java:116 | splitting at line breaks loses nothing: the pieces join back to the text |
| ReceiptOcr.DropTrailingEmpty | backend/src/main/java/com/expensetracker/service/ReceiptOCRService.java:116 | a prefix of the pieces that does not end in an empty one, and only empty pieces are dropped |
| ReceiptOcr.ExtractStoreName | backend/src/main/java/com/expensetracker/service/ReceiptOCRService.java:114-124 | the first of the first three trimmed lines longer than three characters with no digit, else "Unknown Store" |
| ReceiptOcr.StoreNameIsDetermined | backend/src/main/java/com/expensetracker/service/ReceiptOCRService.java:114-124 | the store name is a function of the lines |
| ReceiptOcr.ItemsOf | backend/src/main/java/com/expensetracker/service/ReceiptOCRService.java:159-188 | no more items than lines, each with a positive price and quantity 1 |
| ReceiptOcr.PricedLinesAreKept | backend/src/main/java/com/expensetracker/service/ReceiptOCRService.java:166-180 | every line whose match has a positive price yields its item |
| ReceiptOcr.ExtractItems | backend/src/main/java/com/expensetracker/service/ReceiptOCRService.java:159-188 | the loop yields the items of the lines with a positive price, in line order |
| ReceiptOcr.ExtractTotalAmount | backend/src/main/java/com/expensetracker/service/ReceiptOCRService.java:126-151 | the "total" capture when there is one, else the first two-decimal number, each read as a plain decimal, else zero |
| ReceiptOcr.ParsePlainDecimal | backend/src/main/java/com/expensetracker/service/ReceiptOCRService.java:133-144 | a capture without a point reads as its digits at scale 0; with a point, the scale is the number of characters after the first point and the unscaled value is the digits before it shifted by that many places plus the digits after it (ParsePlainDecimalWithPoint and ParsePlainDecimalWithoutPoint restate this for digit runs `w.f` and `w`) |
| ReceiptOcr.ParsePlainDecimalWithPoint | backend/src/main/java/com/expensetracker/service/ReceiptOCRService.java:133 | a capture of digits, a point and digits reads as the digits joined, scaled by the number after the point |
| ReceiptOcr.ParsePlainDecimalWithoutPoint | backend/src/main/java/com/expensetracker/service/ReceiptOCRService.java:173 | a capture of digits alone reads as that integer at scale 0 |
| ReceiptOcr.PlainDecimalReadsBack | backend/src/main/java/com/expensetracker/service/ReceiptOCRService.java:144 | a whole number printed with a fraction reads back as the number shifted by the fraction's digits plus the fraction |
| ReceiptOcr.SetScale2 | backend/src/main/java/com/expensetracker/service/ReceiptOCRService.java:197 | the result has exactly two decimals |
| ReceiptOcr.SetScale2Exact | backend/src/main/java/com/expensetracker/service/ReceiptOCRService.java:197 | rescaling an amount with at most two decimals keeps its value |
| ReceiptOcr.SetScale2Sign | backend/src/main/java/com/expensetracker/service/ReceiptOCRService.java:197 | rescaling never changes the sign of an amount |
| ReceiptOcr.SetScale2Rounds | backend/src/main/java/com/expensetracker/service/ReceiptOCRService.java:197 | dropping digits lands within half a cent of the value |
| ReceiptOcr.SuggestCategoryByStoreName | backend/src/main/java/com/expensetracker/service/ReceiptOCRService.java:201-222 | no suggestion exactly when there is no store name; otherwise the first matching group's category in the lower-cased name, else "other" |
| ReceiptOcr.StoreCategoryRange | backend/src/main/java/com/expensetracker/service/ReceiptOCRService.java:201-222 | a named store gets food-dining, groceries, transportation, healthcare or other, and "other" exactly when no store word occurs |
| ReceiptOcr.ProcessedReceiptCategory | backend/src/main/java/com/expensetracker/service/ReceiptOCRService.java:190-199 | a processed receipt always has one of the five categories |
| ReceiptOcr.ProcessedReceiptAmounts | backend/src/main/java/com/expensetracker/service/ReceiptOCRService.java:159-199 | a processed receipt's total has two decimals and each item a positive price and quantity 1 |
| ReceiptOcr.GetUserReceiptData | backend/src/main/java/com/expensetracker/service/ReceiptOCRService.java:244-246 | newest first, and exactly the user's receipts (as a multiset) |
| ReceiptOcr.GetReceiptData | backend/src/main/java/com/expensetracker/service/ReceiptOCRService.java:248-257 | a receipt is returned exactly to its own user; "Receipt data not found" for an unknown id and "Access denied" for another user's |
| ReceiptOcr.ParseMetadata | backend/src/main/java/com/expensetracker/service/ReceiptOCRService.java:106-109 | the metadata has exactly the keys ocrText, holding the OCR text, and parseMethod, holding "basic" |
| ReceiptOcr.MinorUnits | backend/src/main/java/com/expensetracker/service/ReceiptOCRService.java:229 | `multiply(100).longValue()` is always a `long` |
| ReceiptOcr.TruncDivBounds | backend/src/main/java/com/expensetracker/service/ReceiptOCRService.java:229 | cutting off the fraction keeps the sign and drops less than one unit |
| ReceiptOcr.MinorUnitsOfCents | backend/src/main/java/com/expensetracker/service/ReceiptOCRService.java:229 | an amount of whole cents that fits a `long` is posted as exactly that many cents |
| ReceiptOcr.MinorUnitsTruncate | backend/src/main/java/com/expensetracker/service/ReceiptOCRService.java:229 | fractions of a cent are cut off toward zero on both sides of zero |
| ReceiptOcr.ReceiptExpenseIsPosted | backend/src/main/java/com/expensetracker/service/ReceiptOCRService.java:224-242 | a posted receipt becomes one appended expense of the caller in their family, in USD, with the confirmed amount in cents, the notes and the receipt's date or now |
| ReceiptOcr.ReceiptLedgerRequest | backend/src/main/java/com/expensetracker/service/ReceiptOCRService.java:226-236 | the ledger request is an expense of the caller in USD, for the amount in truncated cents, on the receipt date read in the server zone or now without one, with the description or "Receipt from" the store as notes |
| ReceiptOcr.NotesNameTheStore | backend/src/main/java/com/expensetracker/service/ReceiptOCRService.java:232-233 | the notes are the description when there is one, else "Receipt from " and the store name |
| ReceiptOcr.ReceiptOcrService.ParseReceipt | backend/src/main/java/com/expensetracker/service/ReceiptOCRService.java:96-112 | the parsed and enhanced receipt is a processed receipt for the owner, the attachment and the text |
| ReceiptOcr.ReceiptOcrService.ReadAndSave | backend/src/main/java/com/expensetracker/service/ReceiptOCRService.java:66-80 | an OCR error is passed on and saves nothing; otherwise one processed receipt is appended under a fresh id |
| ReceiptOcr.ReceiptOcrService.ProcessReceipt | backend/src/main/java/com/expensetracker/service/ReceiptOCRService.java:61-85 | every failure is "Receipt processing failed: " and its message and saves no receipt; a stored image stays stored when the OCR fails; success appends one processed receipt for the new attachment |
| ReceiptOcr.ReceiptOcrService.CreateExpenseFromReceipt | backend/src/main/java/com/expensetracker/service/ReceiptOCRService.java:224-242 | result and new entries are those of the ledger's create for the request the receipt builds |
| AndroidOfflineLedger.ToDomainModel | android/app/src/main/java/com/expensetracker/data/repository/OfflineLedgerRepository.kt:142-155 | a stored row converts exactly when its type text names a transaction type |
| AndroidOfflineLedger.ToCreateRequest | android/app/src/main/java/com/expensetracker/data/repository/OfflineLedgerRepository.kt:187-197 | a stored row converts to a request exactly when its type text names a transaction type |
| AndroidOfflineLedger.DomainRoundTrip | android/app/src/main/java/com/expensetracker/data/repository/OfflineLedgerRepository.kt:142-171 | storing an entry and reading it back gives the same entry |
| AndroidOfflineLedger.EntityRoundTrip | android/app/src/main/java/com/expensetracker/data/repository/OfflineLedgerRepository.kt:142-171 | reading a row with a valid type and both flags clear and storing it again gives the same row |
| AndroidOfflineLedger.RequestRoundTrip | android/app/src/main/java/com/expensetracker/data/repository/OfflineLedgerRepository.kt:173-197 | a request stored locally is posted later with every field it had |
| AndroidOfflineLedger.ToEntity | android/app/src/main/java/com/expensetracker/data/repository/OfflineLedgerRepository.kt:157-171 | the entity keeps the entry's id, its type text reads back as the type, and both flags are false |
| AndroidOfflineLedger.RequestToEntity | android/app/src/main/java/com/expensetracker/data/repository/OfflineLedgerRepository.kt:173-185 | the entity has no family yet, its type text reads back as the request's type, both timestamps are now and both flags are false |
| AndroidOfflineLedger.LocalId | android/app/src/main/java/com/expensetracker/data/repository/OfflineLedgerRepository.kt:138 | a local id starts with "local_" |
| AndroidOfflineLedger.GetEntries | android/app/src/main/java/com/expensetracker/data/dao/Daos.kt:12-13 | latest occurrence first, and exactly the family's rows (as a multiset) |
| AndroidOfflineLedger.GetRecentEntries | android/app/src/main/java/com/expensetracker/data/dao/Daos.kt:18-19 | the ten latest rows of the family and type, latest first: all of them when there are at most ten, otherwise ten, and every matching row left out is no later than the tenth |
| AndroidOfflineLedger.RecentLeftOut | android/app/src/main/java/com/expensetracker/data/dao/Daos.kt:18-19 | a row of the family and type that the ten latest leave out means there are ten, and it is no later than the tenth |
| AndroidOfflineLedger.Pending | android/app/src/main/java/com/expensetracker/data/dao/Daos.kt:15-16 | exactly the stored rows flagged for sync; the same query serves budgets (Daos.kt lines 72-73) and categories (lines 45-46) |
| AndroidOfflineLedger.SyncAsWrittenKeepsLocalRow | android/app/src/main/java/com/expensetracker/data/repository/OfflineLedgerRepository.kt:69-78 | as written, a sync the server accepts under an id no local row has leaves the table unchanged |
| AndroidOfflineLedger.SyncAsWrittenRepostsForever | android/app/src/main/java/com/expensetracker/data/repository/OfflineLedgerRepository.kt:61-85 | as written, a "local_" row accepted by the server as "srv1" stays flagged for sync and "srv1" is never stored |
| AndroidOfflineLedger.SyncAsWritten | android/app/src/main/java/com/expensetracker/data/repository/OfflineLedgerRepository.kt:61-85 | as written, the sync loop never adds or removes a row: the table keeps its length and the id at every position |
| AndroidOfflineLedger.SyncStepEffect | android/app/src/main/java/com/expensetracker/data/repository/OfflineLedgerRepository.kt:64-83 | an accepted pass stores the server copy, online and synced, under the server's id and removes the local row; a failed pass changes nothing |
| AndroidOfflineLedger.SyncStepPendingRows | android/app/src/main/java/com/expensetracker/data/repository/OfflineLedgerRepository.kt:64-83 | a row flagged for sync after a pass was there before, and is not the row the pass accepted |
| AndroidOfflineLedger.SyncAllSnoc | android/app/src/main/java/com/expensetracker/data/repository/OfflineLedgerRepository.kt:64-83 | the loop over one more pending row is one more pass, that row meeting its own answer |
| AndroidOfflineLedger.SyncAllLeavesOnlyFailures | android/app/src/main/java/com/expensetracker/data/repository/OfflineLedgerRepository.kt:61-85 | after the intended loop every row still flagged for sync was already stored, and the server did not accept it on any visit |
| AndroidOfflineLedger.SyncStepNewRows | android/app/src/main/java/com/expensetracker/data/repository/OfflineLedgerRepository.kt:64-83 | a pass of the intended loop adds no row but an online, synced server copy |
| AndroidOfflineLedger.SyncAll | android/app/src/main/java/com/expensetracker/data/repository/OfflineLedgerRepository.kt:61-85 | after the intended loop every row was there before or is an online, synced server copy |
| AndroidOfflineLedger.UpsertMembers | android/app/src/main/java/com/expensetracker/data/dao/Daos.kt:21-22 | a row after a replacing insert is the inserted one or an old row |
| AndroidOfflineLedger.RemoveMembers | android/app/src/main/java/com/expensetracker/data/dao/Daos.kt:33-34 | a row left after a delete by id was there before and does not carry that id |
| AndroidOfflineLedger.SyncAllClearsAccepted | android/app/src/main/java/com/expensetracker/data/repository/OfflineLedgerRepository.kt:61-85 | when the server accepts every pending row, nothing is left flagged for sync |
| AndroidOfflineLedger.OfflineLedgerRepository.CreateEntry | android/app/src/main/java/com/expensetracker/data/repository/OfflineLedgerRepository.kt:27-49 | always a success: a delivered server copy is stored online and synced and returned; otherwise the request is stored under a fresh local id, flagged for sync, and returned |
| AndroidOfflineLedger.OfflineLedgerRepository.SaveOfflineEntry | android/app/src/main/java/com/expensetracker/data/repository/OfflineLedgerRepository.kt:51-59 | the request is stored under the local id, flagged for sync, and returned as read back |
| AndroidOfflineLedger.OfflineLedgerRepository.SyncPendingEntries | android/app/src/main/java/com/expensetracker/data/repository/OfflineLedgerRepository.kt:61-85 | the table after the intended loop over the rows flagged for sync, each pass meeting its own answer |
| AndroidOfflineLedger.OfflineLedgerRepository.UpdateEntry | android/app/src/main/java/com/expensetracker/data/repository/OfflineLedgerRepository.kt:87-116 | always a success: a delivered server copy overwrites its row online and synced; otherwise the row, if it exists, is overwritten with the request flagged for sync; no missing row is inserted |
| AndroidOfflineLedger.OfflineLedgerRepository.DeleteEntry | android/app/src/main/java/com/expensetracker/data/repository/OfflineLedgerRepository.kt:118-136 | succeeds exactly offline or when the server confirms, and then deletes the row; otherwise fails with "Failed to delete entry" or the exception's message and keeps it |
| AndroidOfflineLedger.OfflineCreateIsPending | android/app/src/main/java/com/expensetracker/data/repository/OfflineLedgerRepository.kt:51-59 | an offline create stores a "local_" row with no family, not online and flagged for sync |
| AndroidOfflineLedger.MarkedRowLeavesFamily | android/app/src/main/java/com/expensetracker/data/repository/OfflineLedgerRepository.kt:107-116 | a row rewritten for sync has no family, so the family's entry list no longer shows it |
| AndroidOfflineRepositories.SyncAsWrittenKeepsLocalRow | android/app/src/main/java/com/expensetracker/data/repository/OfflineRepositories.kt:68-74 | as written, a budget or category the server accepts under an id no local row has leaves the table unchanged, and the server's id is never stored |
| AndroidOfflineRepositories.SyncStepAsWritten | android/app/src/main/java/com/expensetracker/data/repository/OfflineRepositories.kt:60-80 | as written, a pass keeps the table's length and the id at every position |
| AndroidOfflineRepositories.SyncStepPendingRows | android/app/src/main/java/com/expensetracker/data/repository/OfflineRepositories.kt:57-81 | a row flagged for sync after a pass was there before, and is not the row the pass accepted |
| AndroidOfflineRepositories.SyncAllLeavesOnlyFailures | android/app/src/main/java/com/expensetracker/data/repository/OfflineRepositories.kt:57-81 | after the intended loop every row still flagged for sync was already stored, and the server did not accept it on any visit |
| AndroidOfflineRepositories.SyncStepNewRows | android/app/src/main/java/com/expensetracker/data/repository/OfflineRepositories.kt:60-80 | a pass of the intended loop adds no row but an online, synced server copy |
| AndroidOfflineRepositories.SyncAll | android/app/src/main/java/com/expensetracker/data/repository/OfflineRepositories.kt:57-81 | after the intended loop every row was there before or is an online, synced server copy |
| AndroidOfflineRepositories.InsertAllShape | android/app/src/main/java/com/expensetracker/data/repository/OfflineRepositories.kt:146-147 | every server object is stored afterwards, and every row is an old row or the online, synced copy of a server object |
| AndroidOfflineRepositories.RefreshReplacesFamily | android/app/src/main/java/com/expensetracker/data/repository/OfflineRepositories.kt:136-152 | after a successful refresh every server object is stored and every row of the family is the online, synced copy of one of them |
| AndroidOfflineRepositories.InsertAll | android/app/src/main/java/com/expensetracker/data/repository/OfflineRepositories.kt:146-147 | REPLACE inserts rewrite in place or append: at most one row more per object, every earlier row keeps its position's id, and every new row is an online, synced server copy |
| AndroidOfflineRepositories.Refreshed | android/app/src/main/java/com/expensetracker/data/repository/OfflineRepositories.kt:136-152 | after a refresh every row is either an earlier row of another family or an online, synced server copy, so no pending row of the family survives |
| AndroidOfflineRepositories.GetCategories | android/app/src/main/java/com/expensetracker/data/dao/Daos.kt:42-43 | exactly the family's categories that are not archived |
| AndroidOfflineRepositories.GetBudgets | android/app/src/main/java/com/expensetracker/data/dao/Daos.kt:69-70 | exactly the family's budgets |
| AndroidOfflineRepositories.OfflineRepository.Create | android/app/src/main/java/com/expensetracker/data/repository/OfflineRepositories.kt:23-45 | always a success: a delivered server copy is stored online and synced and returned; otherwise the request is stored under a fresh "local_" id, flagged for sync (the category repository's 167-184 is the same) |
| AndroidOfflineRepositories.OfflineRepository.SyncPending | android/app/src/main/java/com/expensetracker/data/repository/OfflineRepositories.kt:57-81 | the table after the intended loop over the rows flagged for sync, each pass meeting its own answer (categories at 196-218) |
| AndroidOfflineRepositories.OfflineRepository.Update | android/app/src/main/java/com/expensetracker/data/repository/OfflineRepositories.kt:83-101 | always a success: a delivered server copy overwrites its row; otherwise the row, if it exists, is overwritten with the request flagged for sync; no missing row is inserted (categories at 220-237) |
| AndroidOfflineRepositories.OfflineRepository.Delete | android/app/src/main/java/com/expensetracker/data/repository/OfflineRepositories.kt:114-132 | succeeds exactly offline or when the server confirms, and then deletes the row; otherwise fails with the repository's "Failed to delete …: " message or the exception's and keeps it (categories at 249-266) |
| AndroidOfflineRepositories.OfflineRepository.RefreshFromApi | android/app/src/main/java/com/expensetracker/data/repository/OfflineRepositories.kt:136-152 | offline, or on an unsuccessful or bodiless response or an exception, nothing changes; otherwise the family's rows, pending ones included, are replaced by the server's list, online and synced (categories at 270-285) |
| IosOfflineRepositories.FirstIndex | ios/ExpenseTracker/Data/LedgerRepository.swift:120-124 | the position of the first object with the id, none before it, or none exactly when no object has it |
| IosOfflineRepositories.SavedLocally | ios/ExpenseTracker/Data/LedgerRepository.swift:116-135 | the first object with the server's id is overwritten and every other object kept, or, when there is none, a new one is appended; ids keep their places (categories at CategoryBudgetRepositories.swift:74-92, budgets at CategoryBudgetRepositories.swift:236-254) |
| IosOfflineRepositories.MarkedForSync | ios/ExpenseTracker/Data/LedgerRepository.swift:153-163 | same length; only the first object with the id changes, gaining the sync flag and a new update time; an unknown id changes nothing (categories at CategoryBudgetRepositories.swift:110-120, budgets at CategoryBudgetRepositories.swift:272-282) |
| IosOfflineRepositories.RemovedLocally | ios/ExpenseTracker/Data/LedgerRepository.swift:181-190 | the first object with the id is deleted and nothing else; an unknown id changes nothing (categories at CategoryBudgetRepositories.swift:137-150, budgets at CategoryBudgetRepositories.swift:299-312) |
| IosOfflineRepositories.FirstIndexFinds | ios/ExpenseTracker/Data/LedgerRepository.swift:120-124 | the first object with the id is the one the id looks up |
| IosOfflineRepositories.OfflineUpdateKeepsFields | ios/ExpenseTracker/Data/LedgerRepository.swift:137-163 | a failed update keeps every object's fields, online flag and creation time, so the requested edit is stored nowhere; only the sync flag and update time change |
| IosOfflineRepositories.FirstIndexSameIds | ios/ExpenseTracker/Data/LedgerRepository.swift:120-124 | two stores with the same ids in the same places find the same first position |
| IosOfflineRepositories.ToDomainAll | ios/ExpenseTracker/Data/LedgerRepository.swift:65-74 | one domain object per stored object, in order |
| IosOfflineRepositories.FetchLocal | ios/ExpenseTracker/Data/LedgerRepository.swift:65-74 | exactly the domain objects of the stored objects the family's fetch request matches, pending ones included (categories at CategoryBudgetRepositories.swift:28-37, budgets at CategoryBudgetRepositories.swift:188-197) |
| IosOfflineRepositories.SavedAllKeepsOthers | ios/ExpenseTracker/Data/LedgerRepository.swift:228-238 | refreshing stores every server object and never deletes: the store only grows and every object the server list does not name is kept as it was |
| IosOfflineRepositories.PendingFrom | ios/ExpenseTracker/Data/PersistenceController.swift:59-63 | the positions of the objects flagged for sync, each once, in increasing order |
| IosOfflineRepositories.SyncAll | ios/ExpenseTracker/Data/LedgerRepository.swift:197-226 | the sync loop keeps the number of objects |
| IosOfflineRepositories.Posted | ios/ExpenseTracker/Data/LedgerRepository.swift:203-215 | one create request per visited object, built from its fields |
| IosOfflineRepositories.SyncAllPointwise | ios/ExpenseTracker/Data/LedgerRepository.swift:201-225 | each visited object gets its own outcome and every other object is left alone |
| IosOfflineRepositories.SyncAllNotYetVisited | ios/ExpenseTracker/Data/LedgerRepository.swift:201-225 | the object the loop is about to post has not been changed by earlier passes |
| IosOfflineRepositories.SyncLeavesOnlyFailures | ios/ExpenseTracker/Data/LedgerRepository.swift:197-226 | after the loop an object still flagged for sync was pending and its post threw; if every post succeeds none is left flagged |
| IosOfflineRepositories.SyncStoresServerCopy | ios/ExpenseTracker/Data/LedgerRepository.swift:217-222 | an accepted object ends up under the server's id with the server's fields, online and synced, keeping its creation time |
| IosOfflineRepositories.OfflineRepository.Create | ios/ExpenseTracker/Data/LedgerRepository.swift:76-114 | never fails: the server's object is saved locally and returned, or, offline or on an error, the request is stored under a new UUID as a pending object (categories at CategoryBudgetRepositories.swift:39-72, budgets at CategoryBudgetRepositories.swift:199-234) |
| IosOfflineRepositories.OfflineRepository.Update | ios/ExpenseTracker/Data/LedgerRepository.swift:137-163 | succeeds exactly when connected and the server answers, saving its object; otherwise the object is flagged for sync and the error ("Network unavailable" offline) is thrown on (categories at CategoryBudgetRepositories.swift:94-120, budgets at CategoryBudgetRepositories.swift:256-282) |
| IosOfflineRepositories.OfflineRepository.Delete | ios/ExpenseTracker/Data/LedgerRepository.swift:165-190 | the local object is deleted on every path; succeeds exactly when connected and the server call returns, otherwise throws (categories at CategoryBudgetRepositories.swift:122-150, budgets at CategoryBudgetRepositories.swift:284-312) |
| IosOfflineRepositories.OfflineRepository.SyncFromApi | ios/ExpenseTracker/Data/LedgerRepository.swift:228-238 | a successful fetch saves every server object locally; a failed one changes nothing (categories at CategoryBudgetRepositories.swift:152-162, budgets at CategoryBudgetRepositories.swift:314-324) |
| IosOfflineRepositories.OfflineRepository.SyncPending | ios/ExpenseTracker/Data/LedgerRepository.swift:197-226 | posts each pending object once as its create request, in store order, and leaves the store the sync loop gives |
| Navigation.TabsAreDistinct | ios/ExpenseTracker/Navigation/NavigationCoordinator.swift:110-129 | the tab bar lists every tab, and no two tabs share a raw value (their id) or an icon |
| Navigation.Root | ios/ExpenseTracker/Navigation/NavigationCoordinator.swift:154-170 | the main tabs exactly when signed in, else the welcome screen exactly when it is flagged, else the login form |
| Navigation.Back | ios/ExpenseTracker/Navigation/NavigationCoordinator.swift:72-76 | going back from the root leaves it empty; otherwise it removes exactly the top screen |
| Navigation.BackUndoesPush | ios/ExpenseTracker/Navigation/NavigationCoordinator.swift:58-76 | pushing a screen and going back restores the stack |
| Navigation.BackTimes | ios/ExpenseTracker/Navigation/NavigationCoordinator.swift:72-76 | going back n times leaves the bottom screens, n fewer, and never goes below the root |
| Navigation.NavigationCoordinator.constructor | ios/ExpenseTracker/Navigation/NavigationCoordinator.swift:6-16 | a new coordinator shows the welcome screen on the dashboard with nothing pushed, no sheet and nothing selected |
| Navigation.NavigationCoordinator.AuthStateChanged | ios/ExpenseTracker/Navigation/NavigationCoordinator.swift:22-33 | the signed-in flag is copied; a sign-in also hides the welcome and login screens, so the main tabs show; nothing else changes |
| Navigation.NavigationCoordinator.NavigateToTab | ios/ExpenseTracker/Navigation/NavigationCoordinator.swift:37-40 | the tab is selected and the pushed screens cleared; nothing else changes |
| Navigation.NavigationCoordinator.ShowAddExpense | ios/ExpenseTracker/Navigation/NavigationCoordinator.swift:42-44 | the add-expense sheet is shown; nothing else changes |
| Navigation.NavigationCoordinator.HideAddExpense | ios/ExpenseTracker/Navigation/NavigationCoordinator.swift:46-48 | the add-expense sheet is hidden; nothing else changes |
| Navigation.NavigationCoordinator.ShowSettings | ios/ExpenseTracker/Navigation/NavigationCoordinator.swift:50-52 | the settings sheet is shown; nothing else changes |
| Navigation.NavigationCoordinator.HideSettings | ios/ExpenseTracker/Navigation/NavigationCoordinator.swift:54-56 | the settings sheet is hidden; nothing else changes |
| Navigation.NavigationCoordinator.ShowCategoryDetail | ios/ExpenseTracker/Navigation/NavigationCoordinator.swift:58-61 | the category is selected and its detail screen pushed; nothing else changes |
| Navigation.NavigationCoordinator.ShowBudgetDetail | ios/ExpenseTracker/Navigation/NavigationCoordinator.swift:63-66 | the budget is selected and its detail screen pushed; nothing else changes |
| Navigation.NavigationCoordinator.ShowExpenseDetail | ios/ExpenseTracker/Navigation/NavigationCoordinator.swift:68-70 | the entry's detail screen is pushed and nothing is selected; nothing else changes |
| Navigation.NavigationCoordinator.NavigateBack | ios/ExpenseTracker/Navigation/NavigationCoordinator.swift:72-76 | the top screen is popped, if any, and the selections are kept |
| Navigation.NavigationCoordinator.NavigateToRoot | ios/ExpenseTracker/Navigation/NavigationCoordinator.swift:78-80 | the pushed screens are cleared; nothing else changes |
| Navigation.NavigationCoordinator.ShowLogin | ios/ExpenseTracker/Navigation/NavigationCoordinator.swift:83-86 | the login form replaces the welcome screen, and shows when signed out |
| Navigation.NavigationCoordinator.ShowWelcome | ios/ExpenseTracker/Navigation/NavigationCoordinator.swift:88-91 | the welcome screen replaces the login form, and shows when signed out |
| Navigation.NavigationCoordinator.HandleAuthSuccess | ios/ExpenseTracker/Navigation/NavigationCoordinator.swift:93-98 | signed in, both auth screens hidden, the dashboard selected, so the main tabs show; the pushed screens are kept |
| Navigation.NavigationCoordinator.HandleLogout | ios/ExpenseTracker/Navigation/NavigationCoordinator.swift:100-106 | signed out onto the login form with the pushed screens cleared and the dashboard selected; sheets and selections are kept |
| ExpenseViewModel.Finished | android/app/src/main/java/com/expensetracker/ui/viewmodels/ExpenseViewModel.kt:29-57 | the coroutine ends loading; a success sets the success flag, and a failure or exception shows its message or the fallback and keeps the success flag |
| ExpenseViewModel.FailureKeepsEarlierSuccess | android/app/src/main/java/com/expensetracker/ui/viewmodels/ExpenseViewModel.kt:26-58 | a failure after an earlier success leaves the success flag set beside the error |
| ExpenseViewModel.AlertShown | android/app/src/main/java/com/expensetracker/ui/viewmodels/ExpenseViewModel.kt:126-136 | for a positive limit the alert is reached exactly when 100 * spent >= threshold * limit; for a zero limit exactly when something was spent |
| ExpenseViewModel.AlertAtThreshold | android/app/src/main/java/com/expensetracker/ui/viewmodels/ExpenseViewModel.kt:126-136 | 24.00 spent of a 30.00 limit reaches an 80 % threshold; one cent less does not |
| ExpenseViewModel.ExpenseViewModel.constructor | android/app/src/main/java/com/expensetracker/ui/viewmodels/ExpenseViewModel.kt:23-24 | a new view model starts from the default state |
| ExpenseViewModel.ExpenseViewModel.Submit | android/app/src/main/java/com/expensetracker/ui/viewmodels/ExpenseViewModel.kt:27 | loading starts and the error is cleared; the success flag is kept |
| ExpenseViewModel.ExpenseViewModel.Finish | android/app/src/main/java/com/expensetracker/ui/viewmodels/ExpenseViewModel.kt:29-57 | the state becomes the one `Finished` gives for the call's outcome |
| ExpenseViewModel.ExpenseViewModel.AddExpense | android/app/src/main/java/com/expensetracker/ui/viewmodels/ExpenseViewModel.kt:26-58 | the state after submitting and finishing with "Failed to add expense" as fallback; a success ends with no error and no loading |
| ExpenseViewModel.ExpenseViewModel.AddRecurring | android/app/src/main/java/com/expensetracker/ui/viewmodels/ExpenseViewModel.kt:60-91 | the same, with "Failed to add recurring transaction" as fallback |
| ExpenseViewModel.ExpenseViewModel.SaveBudget | android/app/src/main/java/com/expensetracker/ui/viewmodels/ExpenseViewModel.kt:93-124 | the same, with "Failed to save budget" as fallback |
| ExpenseViewModel.ExpenseViewModel.ClearState | android/app/src/main/java/com/expensetracker/ui/viewmodels/ExpenseViewModel.kt:138-140 | back to the defaults, whatever came before |
| Common.ContainsFrom | backend/src/main/java/com/expensetracker/service/VoiceExpenseService.java:128 | `contains` holds exactly when the text occurs at some position from the start position on |
| Common.ToLower | backend/src/main/java/com/expensetracker/service/VoiceExpenseService.java:126 | lower-casing keeps the length and maps each character on its own |
| Common.TrimStart | backend/src/main/java/com/expensetracker/service/ReceiptOCRService.java:118 | `trim` at the front: a suffix of the text that does not start with a character at or below U+0020 |
| Common.TrimEnd | backend/src/main/java/com/expensetracker/service/ReceiptOCRService.java:118 | `trim` at the back: a prefix of the text that does not end with a character at or below U+0020 |
| Common.Wrap64 | backend/src/main/java/com/expensetracker/service/VoiceExpenseService.java:110 | `long` arithmetic: the result is a `long`, equal to the exact value when that fits and congruent to it modulo 2^64 |

## Findings

| source | as written | input that shows it | evidently intended | confidence | as-written member | corrected member |
|---|---|---|---|---|---|---|
| android/app/src/main/java/com/expensetracker/data/repository/OfflineLedgerRepository.kt:72-78 | after the server accepts a pending entry, the loop calls the primary-key `@Update` (Daos.kt:27-28) with the row re-keyed to the server's id; no row has that id, so nothing changes and the "local_" row stays flagged for sync | one pending row "local_1_1000", accepted by the server as "srv1": afterwards the table is still that one pending row and has no "srv1", so every later sync posts the entry again | the local row is replaced by the server copy, online and no longer pending | not executed | AndroidOfflineLedger.SyncAsWrittenRepostsForever | AndroidOfflineLedger.OfflineLedgerRepository.SyncPendingEntries |
| android/app/src/main/java/com/expensetracker/data/repository/OfflineRepositories.kt:68-74 | the budget sync loop (and the category loop at lines 206-212) has the same primary-key `@Update` under the server's id, so an accepted "local_" row is neither replaced nor cleared | a pending budget accepted under an id that no local row has: the table is unchanged after the step | the local row is replaced by the server copy, online and no longer pending | not executed | AndroidOfflineRepositories.SyncAsWrittenKeepsLocalRow | AndroidOfflineRepositories.OfflineRepository.SyncPending |

The corrected loops are the ones the rest of the model uses.
`AndroidOfflineLedger.SyncAllLeavesOnlyFailures`, `AndroidOfflineLedger.SyncAllClearsAccepted`
and `AndroidOfflineRepositories.SyncAllLeavesOnlyFailures` prove what they promise: after a sync,
the only rows still pending are the ones whose post failed, and each accepted entry is stored once
under its server id.

## Where the code and its description differ (the model follows the code)

- The next run of a recurring rule is the start of day of the later of its start date and today, plus one interval. This holds even when the start date is in the future, so the start date itself is never the first run.
- A recurring posting goes through `createEntry`, so the rule's category is checked again at each run. A posting whose category is gone fails and keeps the rule's `nextRunAt`.
- `getFamily` checks membership before looking up the family. A non-member asking for a missing family is told "Access denied to family", not "Family not found".
- Budget and report periods end at 23:59:59 UTC of the end date. An entry in the last second's milliseconds (23:59:59.001 onwards) falls outside.
- A budget update does not refresh `updatedAt`.
- A category update does not re-check the duplicate-name rule, so an update can create a duplicate, unless the unique index of Category.java:12 is enforced.

## Left out

- User interfaces: the screens and widgets of both clients, and the view models other than `ExpenseViewModel`. The network clients, dependency injection and the HTTP controllers other than `AuthController` are also left out; the services they call are modelled.
- Concurrency: Android coroutines, Kotlin Flow, Combine publishers, `SyncManager` and scheduled execution. A coroutine is modelled as its synchronous part followed by its completion. The scheduler that runs recurring rules is the caller of `RecurringService.ProcessRecurringRules`.
- The clock, random UUIDs and the "local_" id's random part: each is a parameter of the operation that uses it.
- Time zones: the zone rules of the runtime are a parameter that maps each zone id `ZoneId.of` accepts to one fixed offset from UTC. Daylight saving is not modelled. Every rejected id fails with the message for an unknown region id; the different message `ZoneId.of` gives for a malformed id is not modelled.
- Persistence: the MongoDB, Room and Core Data machinery, indexes, converters and the mapping of documents. Each collection is a sequence of rows keyed by id.
- Regular expressions and OCR: the text captured by each pattern, and the text the OCR engine reads from a receipt, are inputs.
- Password hashing, JWT creation, validation and expiry lookup: given functions.
- E-mail: whether the lookups and the send of a best-effort mail complete is an input (`mailed`). The mail content is not modelled.
- File-system I/O: the store is a map from path to bytes, and whether a write fails is an input. `Path.resolve` normalisation is not modelled.
- Null fields: a nullable field is an `Option`. A null that the source would dereference and throw on is not modelled, except where a service reads it on purpose (a null family id, null notes, a null content type or file name).
- Integers are unbounded. Two exceptions are written out: the `long` results of amount parsing wrap (`Common.Wrap64`), and the `(int)` cast of a usage percentage saturates. `long` overflow of sums and counts is not modelled.
- The usage percentage of a budget alert is an exact real number, not a `double`.
- Lower-casing and the character classes of trimming and digit tests cover ASCII only; Unicode case mapping is not modelled.
- The iteration order of Java `HashMap`: the per-category and per-month report lists are specified as any listing of the accumulated maps without duplicates.
- Floating point: the confidence scores of voice and receipt parsing (`calculateConfidence`, `calculateFieldConfidences`, the receipt's confidence) are not modelled.
- Floating point: the CSV amount column prints `minor / 100.0` as `Double.toString` does (one fraction digit for whole multiples of ten minor units, such as "12.0", and scientific notation such as "1.2345E7" from ten million major units on), but the digits are computed from the exact quotient; the binary rounding of the `double` division is not modelled.
- ExpenseViewModel.AlertShown: a negative budget limit is left unspecified. The `Double` division is modelled in exact arithmetic, so rounding at the threshold is not modelled either.
- VoiceExpense.ExtractAmountMinor: the decimal patterns' `parseDouble(...) * 100` rounding is an input (the match's `rounded` value); the dollars-and-cents arithmetic is modelled.
- `extractDate` of the receipt service returns the current date, which is the `now` parameter.
- The merchant text after "at" is an input, including the trimming of its trailing words.
- AndroidOfflineRepositories.GetCategories: the Room query's `ORDER BY name` is not modelled; the result is in table order.
- AndroidOfflineRepositories.GetBudgets: the Room query's `ORDER BY name` is not modelled; the result is in table order.
- IosOfflineRepositories.FetchLocal: the sort descriptors of the Core Data fetch requests (PersistenceController.swift) are not modelled; the result is in table order.
- The conversions between the clients' domain objects, requests and stored entities are given functions. The ledger conversions of the Android client are modelled, and their round trip is proved for millisecond instants; Kotlin `Instant` nanoseconds are not modelled.
- Swift `Int64` conversions of amounts are identities.
- The iOS `NetworkConnectivity.isConnected()` always answers true. The model keeps `connected` as a parameter so that the offline paths are modelled too.
- An unparseable date string on iOS is stored as the current date; the parse itself is an input.
- The typed range query BudgetService uses (BudgetService.java:117) is not declared in LedgerEntryRepository.java. It is modelled as the declared untyped range query, with the same inclusive bounds, plus an equality on the type.
- `BudgetRepository.getBudgetByFamilyAndId`, which the budget alert's mail uses (NotificationService.java:51), is not part of this model; the `mailed` flag covers its outcome.
- The overlap queries of BudgetRepository.java:27-34 are not used by any modelled operation and are not modelled.
- FileUpload.FileUploadService.DeleteAttachment: the `IOException` path that answers "Failed to delete file" (FileUploadService.java:102-104) is not modelled.
- The no-argument constructor that ExpenseViewModelTest uses is not part of this model; the view model's repository is implicit in the outcome of each call.
- DTO classes, demo data, `EmailService`, and configuration are left out; they carry no logic the services depend on.
