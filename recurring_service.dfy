/** `RecurringService`: the next-run calculation of a recurring rule, the
    batch run that posts every due rule to the ledger, and the family-checked
    creation, update, deletion and listing of rules. The clock is the `now`
    parameter of each operation. */
module RecurringService {
  import opened Common
  import opened Tables
  import opened Calendar
  import opened LedgerEntryDomain
  import opened RecurringRuleDomain
  import opened AccountDomain
  import CategoryDomain
  import UserService
  import Ledger = LedgerService
  import RuleRepo = RecurringRuleRepository

  /** `RecurringRuleDTO.FrequencyDTO`: the unit is still a string. */
  datatype FrequencyDto = FrequencyDto(unit: string, interval: int, byMonthDay: Option<seq<int>>)

  /** The editable fields of `RecurringRuleDTO`, after bean validation. The
      time zone is a zone id that nothing has checked yet. */
  datatype RecurringRuleDto = RecurringRuleDto(
    name: string,
    txType: string,
    amountMinor: int,
    currency: string,
    categoryId: Id,
    memberId: Id,
    frequency: FrequencyDto,
    startDate: LocalDate,
    endDate: Option<LocalDate>,
    timezone: string,
    isPaused: bool)

  /** The message of `Enum.valueOf` for a name that is not a constant. */
  function NoEnumConstant(enumName: string, s: string): string {
    "No enum constant " + enumName + "." + s
  }

  const TransactionTypeEnum: string := "com.expensetracker.domain.LedgerEntry.TransactionType"
  const FrequencyUnitEnum: string := "com.expensetracker.domain.RecurringRule.Frequency.FrequencyUnit"

  // ---------------------------------------------------------------------
  // calculateNextRun

  /** The day the calculation starts from: the start date, or today when the
      start date is already past. */
  function RunBase(start: LocalDate, today: LocalDate): (b: LocalDate)
    ensures b == start || b == today
    ensures !Before(b, start) && !Before(b, today)
  {
    if Before(start, today) then today else start
  }

  /** The date `calculateNextRun` picks: the base day moved by exactly one
      `interval` of the unit, with `LocalDate.plus` semantics. */
  function NextRunDate(start: LocalDate, f: Frequency, today: LocalDate): (r: LocalDate)
    ensures f.unit == WEEKLY ==> EpochDay(r) == EpochDay(RunBase(start, today)) + 7 * f.interval
    ensures f.unit == MONTHLY ==>
              MonthIndex(r) == MonthIndex(RunBase(start, today)) + f.interval
              && r.day == Min(RunBase(start, today).day, DaysInMonth(r.year, r.month))
    ensures f.unit == YEARLY ==>
              r.year == RunBase(start, today).year + f.interval && r.month == RunBase(start, today).month
              && r.day == Min(RunBase(start, today).day, DaysInMonth(r.year, r.month))
  {
    var base := RunBase(start, today);
    match f.unit
    case WEEKLY => PlusWeeks(base, f.interval)
    case MONTHLY => PlusMonths(base, f.interval)
    case YEARLY => PlusYears(base, f.interval)
  }

  /** With a positive interval the next run falls strictly after today and
      strictly after the start date: a start date in the future is itself
      skipped. */
  lemma NextRunIsLater(start: LocalDate, f: Frequency, today: LocalDate)
    requires f.interval >= 1
    ensures Before(today, NextRunDate(start, f, today))
    ensures Before(start, NextRunDate(start, f, today))
    ensures NextRunDate(start, f, today) != start
  {
    var base := RunBase(start, today);
    var r := NextRunDate(start, f, today);
    match f.unit
    case WEEKLY =>
      BeforeIffEarlierEpochDay(base, r);
    case MONTHLY =>
      LaterMonthIsLater(base, r);
    case YEARLY =>
  }

  /** A zero interval leaves the base day where it is. */
  lemma ZeroIntervalStays(start: LocalDate, f: Frequency, today: LocalDate)
    requires f.interval == 0
    ensures NextRunDate(start, f, today) == RunBase(start, today)
  {
    var base := RunBase(start, today);
    var r := NextRunDate(start, f, today);
    if f.unit == WEEKLY {
      BeforeIffEarlierEpochDay(base, r);
      BeforeIffEarlierEpochDay(r, base);
    }
  }

  /** Month-end clamping, as `LocalDate.plus` does it. */
  lemma MonthEndClamping()
    ensures NextRunDate(Date(2023, 1, 31), Frequency(MONTHLY, 1, None), Date(2023, 1, 10)) == Date(2023, 2, 28)
    ensures NextRunDate(Date(2024, 1, 31), Frequency(MONTHLY, 1, None), Date(2024, 1, 10)) == Date(2024, 2, 29)
    ensures NextRunDate(Date(2024, 2, 29), Frequency(YEARLY, 1, None), Date(2024, 2, 1)) == Date(2025, 2, 28)
  {
  }

  /** The start of the next-run day, for a zone at `offsetMs` from UTC. */
  function StartOfNextRun(rule: RecurringRule, offsetMs: int, now: Instant): Instant {
    var today := TodayIn(now, offsetMs);
    StartOfDay(NextRunDate(rule.startDate, rule.frequency, today), offsetMs)
  }

  /** `calculateNextRun(rule)`: the rule's zone id is resolved first, so an
      id the zone rules do not know throws before any date is computed. */
  function CalculateNextRun(rule: RecurringRule, zones: ZoneRules, now: Instant): (r: Result<Instant>)
    ensures r.Ok? <==> rule.timezone in zones
    ensures r.Ok? ==> r.value == StartOfNextRun(rule, zones[rule.timezone], now)
    ensures r.Err? ==> r.message == "Unknown time-zone ID: " + rule.timezone
  {
    match ZoneOf(zones, rule.timezone)
    case Err(m) => Err(m)
    case Ok(offsetMs) => Ok(StartOfNextRun(rule, offsetMs, now))
  }

  /** With a positive interval the next run lies after `now`, so a rule that
      has just run is no longer due; with a zero interval and a start date
      not after today it lies at or before `now`, so the rule stays due. */
  lemma NextRunVersusNow(rule: RecurringRule, offsetMs: int, now: Instant)
    ensures rule.frequency.interval >= 1 ==> StartOfNextRun(rule, offsetMs, now) > now
    ensures (rule.frequency.interval == 0 && !Before(TodayIn(now, offsetMs), rule.startDate))
              ==> StartOfNextRun(rule, offsetMs, now) <= now
  {
    var today := TodayIn(now, offsetMs);
    if rule.frequency.interval >= 1 {
      NextRunIsLater(rule.startDate, rule.frequency, today);
      LaterDayStartsAfterNow(NextRunDate(rule.startDate, rule.frequency, today), now, offsetMs);
    } else if rule.frequency.interval == 0 && !Before(today, rule.startDate) {
      ZeroIntervalStays(rule.startDate, rule.frequency, today);
      if Before(rule.startDate, today) {
      } else {
        EpochDayInjective(rule.startDate, today);
      }
      TodayContainsNow(now, offsetMs);
    }
  }

  /** A weekly rule runs at the start of the day exactly `7 * interval` days
      after its base day. */
  lemma WeeklyNextRun(rule: RecurringRule, offsetMs: int, now: Instant)
    requires rule.frequency.unit == WEEKLY
    ensures StartOfNextRun(rule, offsetMs, now)
         == StartOfDay(RunBase(rule.startDate, TodayIn(now, offsetMs)), offsetMs)
            + 7 * rule.frequency.interval * DayMs
  {
  }

  /** The end date and the month-day list are never read. */
  lemma NextRunIgnoresEndDateAndMonthDays(rule: RecurringRule, zones: ZoneRules, now: Instant,
                                         endDate: Option<LocalDate>, byMonthDay: Option<seq<int>>)
    ensures CalculateNextRun(rule, zones, now)
         == CalculateNextRun(rule.(endDate := endDate, frequency := rule.frequency.(byMonthDay := byMonthDay)), zones, now)
  {
  }

  // ---------------------------------------------------------------------
  // createTransactionFromRule and processRecurringRules

  /** The request `createTransactionFromRule` hands to `createEntry`. */
  function PostingRequest(rule: RecurringRule, now: Instant): (req: Ledger.CreateLedgerEntryRequest)
    ensures req.memberId == rule.memberId && req.txType == rule.txType && req.amountMinor == rule.amountMinor
    ensures req.currency == rule.currency && req.categoryId == rule.categoryId && req.occurredAt == now
    ensures req.notes == Some("Recurring: " + rule.name) && req.attachments.None?
  {
    Ledger.CreateLedgerEntryRequest(rule.memberId, rule.txType, rule.amountMinor, rule.currency, rule.categoryId,
      now, Some("Recurring: " + rule.name), None)
  }

  /** Posting a rule succeeds when its MEMBER resolves to a family in which
      its category is live; the rule's own family plays no part. */
  predicate PostingSucceeds(users: seq<Row<User>>, categories: seq<Row<CategoryDomain.Category>>, rule: RecurringRule) {
    var familyId := UserService.CurrentFamilyId(users, rule.memberId);
    familyId.Ok? && CategoryDomain.FindLive(categories, rule.categoryId, familyId.value).Some?
  }

  /** The entry a successful posting stores. */
  function PostedEntry(users: seq<Row<User>>, rule: RecurringRule, now: Instant): LedgerEntry
    requires UserService.CurrentFamilyId(users, rule.memberId).Ok?
  {
    Ledger.EntryFromRequest(UserService.CurrentFamilyId(users, rule.memberId).value, PostingRequest(rule, now), now)
  }

  /** Whether the posting succeeds does not depend on the ledger; when it
      does, the ledger grows by one entry of the member's family, with the
      rule's amount and category, the "Recurring: " note and no link back
      to the rule. */
  lemma PostingOutcome(users: seq<Row<User>>, categories: seq<Row<CategoryDomain.Category>>,
                       entries: seq<Row<LedgerEntry>>, rule: RecurringRule, now: Instant)
    ensures var out := Ledger.CreateEntryEffect(users, categories, entries, rule.memberId, PostingRequest(rule, now), now);
      (out.0.Ok? <==> PostingSucceeds(users, categories, rule))
      && (out.0.Err? ==> out.1 == entries)
      && (out.0.Ok? ==>
            var e := PostedEntry(users, rule, now);
            out.1 == entries + [Row(FreshId(entries), e)]
            && e.familyId == UserService.CurrentFamilyId(users, rule.memberId).value
            && e.amount == MoneyAmount(rule.amountMinor, rule.currency) && e.txType == rule.txType
            && e.categoryId == rule.categoryId && e.memberId == rule.memberId
            && e.notes == Some("Recurring: " + rule.name) && e.recurringId.None? && e.occurredAt == now)
  {
  }

  /** One turn of the loop body: post, and only if that returns, compute the
      rule's next run and save it. The posting is `createEntry` as
      `PostingOutcome` describes it. Nothing is rolled back: when the rule's
      zone id is unknown the entry stays posted and the rule keeps its next
      run. */
  function ProcessOne(users: seq<Row<User>>, categories: seq<Row<CategoryDomain.Category>>,
                      rules: seq<Row<RecurringRule>>, entries: seq<Row<LedgerEntry>>, due: Row<RecurringRule>,
                      zones: ZoneRules, now: Instant): (seq<Row<RecurringRule>>, seq<Row<LedgerEntry>>)
  {
    if PostingSucceeds(users, categories, due.val) then
      var posted := entries + [Row(FreshId(entries), PostedEntry(users, due.val, now))];
      match CalculateNextRun(due.val, zones, now)
      case Ok(next) => (Upsert(rules, due.id, due.val.(nextRunAt := next)), posted)
      case Err(_) => (rules, posted)
    else
      (rules, entries)
  }

  /** The loop over the due rules, one turn per rule, a failing turn leaving
      both stores as they were and the run going on. */
  function ProcessAll(users: seq<Row<User>>, categories: seq<Row<CategoryDomain.Category>>,
                      rules: seq<Row<RecurringRule>>, entries: seq<Row<LedgerEntry>>, due: seq<Row<RecurringRule>>,
                      zones: ZoneRules, now: Instant): (seq<Row<RecurringRule>>, seq<Row<LedgerEntry>>)
    decreases |due|
  {
    if due == [] then (rules, entries)
    else
      var next := ProcessOne(users, categories, rules, entries, due[0], zones, now);
      ProcessAll(users, categories, next.0, next.1, due[1..], zones, now)
  }

  /** The loop from the `i`-th due rule on is that rule's turn followed by
      the rest. */
  lemma ProcessAllStep(users: seq<Row<User>>, categories: seq<Row<CategoryDomain.Category>>,
                       rules: seq<Row<RecurringRule>>, entries: seq<Row<LedgerEntry>>, due: seq<Row<RecurringRule>>,
                       zones: ZoneRules, now: Instant, i: nat)
    requires i < |due|
    ensures var next := ProcessOne(users, categories, rules, entries, due[i], zones, now);
      ProcessAll(users, categories, rules, entries, due[i..], zones, now)
        == ProcessAll(users, categories, next.0, next.1, due[i + 1..], zones, now)
  {
    assert due[i..][0] == due[i] && due[i..][1..] == due[i + 1..];
  }

  /** The rule stored under an id after the loop: the due rule advanced to
      its next run when its posting succeeded and its zone id is known, and
      otherwise the rule as it was. */
  function OutcomeOf(users: seq<Row<User>>, categories: seq<Row<CategoryDomain.Category>>,
                     before: Option<RecurringRule>, due: Option<RecurringRule>, zones: ZoneRules, now: Instant)
    : Option<RecurringRule>
  {
    match due
    case Some(d) =>
      if PostingSucceeds(users, categories, d) && CalculateNextRun(d, zones, now).Ok?
      then Some(d.(nextRunAt := CalculateNextRun(d, zones, now).value))
      else before
    case None => before
  }

  lemma {:induction false} ProcessAllRules(users: seq<Row<User>>, categories: seq<Row<CategoryDomain.Category>>,
                                           rules: seq<Row<RecurringRule>>, entries: seq<Row<LedgerEntry>>,
                                           due: seq<Row<RecurringRule>>, zones: ZoneRules, now: Instant, id: Id)
    requires UniqueIds(due)
    ensures Find(ProcessAll(users, categories, rules, entries, due, zones, now).0, id)
         == OutcomeOf(users, categories, Find(rules, id), Find(due, id), zones, now)
    decreases |due|
  {
    if due != [] {
      var d := due[0];
      var next := ProcessOne(users, categories, rules, entries, d, zones, now);
      ProcessAllRules(users, categories, next.0, next.1, due[1..], zones, now, id);
      if CalculateNextRun(d.val, zones, now).Ok? {
        FindAfterUpsert(rules, d.id, d.val.(nextRunAt := CalculateNextRun(d.val, zones, now).value), id);
      }
      if d.id == id {
        assert !HasId(due[1..], id);
      }
    }
  }

  /** The entries the loop posts, in the order of the due rules. */
  function Postings(users: seq<Row<User>>, categories: seq<Row<CategoryDomain.Category>>,
                    due: seq<Row<RecurringRule>>, now: Instant): (r: seq<LedgerEntry>)
    ensures |r| <= |due|
  {
    if due == [] then []
    else if PostingSucceeds(users, categories, due[0].val) then
      [PostedEntry(users, due[0].val, now)] + Postings(users, categories, due[1..], now)
    else Postings(users, categories, due[1..], now)
  }

  lemma {:induction false} ProcessAllEntries(users: seq<Row<User>>, categories: seq<Row<CategoryDomain.Category>>,
                                             rules: seq<Row<RecurringRule>>, entries: seq<Row<LedgerEntry>>,
                                             due: seq<Row<RecurringRule>>, zones: ZoneRules, now: Instant)
    ensures var after := ProcessAll(users, categories, rules, entries, due, zones, now).1;
      Values(after) == Values(entries) + Postings(users, categories, due, now)
    decreases |due|
  {
    if due != [] {
      var d := due[0];
      var next := ProcessOne(users, categories, rules, entries, d, zones, now);
      ProcessAllEntries(users, categories, next.0, next.1, due[1..], zones, now);
      var after := ProcessAll(users, categories, next.0, next.1, due[1..], zones, now).1;
      assert ProcessAll(users, categories, rules, entries, due, zones, now).1 == after;
      if PostingSucceeds(users, categories, d.val) {
        var row := Row(FreshId(entries), PostedEntry(users, d.val, now));
        assert next.1 == entries + [row];
        ValuesAppend(entries, [row]);
        assert Postings(users, categories, due, now) == [row.val] + Postings(users, categories, due[1..], now);
      } else {
        assert next.1 == entries;
        assert Postings(users, categories, due, now) == Postings(users, categories, due[1..], now);
      }
    }
  }

  /** The loop only appends: every entry already in the ledger stays, with
      its id, at its place. */
  lemma {:induction false} ProcessAllKeepsEntries(users: seq<Row<User>>, categories: seq<Row<CategoryDomain.Category>>,
                                                  rules: seq<Row<RecurringRule>>, entries: seq<Row<LedgerEntry>>,
                                                  due: seq<Row<RecurringRule>>, zones: ZoneRules, now: Instant)
    ensures var after := ProcessAll(users, categories, rules, entries, due, zones, now).1;
      |after| >= |entries| && after[..|entries|] == entries
    decreases |due|
  {
    if due != [] {
      var next := ProcessOne(users, categories, rules, entries, due[0], zones, now);
      ProcessAllKeepsEntries(users, categories, next.0, next.1, due[1..], zones, now);
      var after := ProcessAll(users, categories, next.0, next.1, due[1..], zones, now).1;
      assert after[..|entries|] == after[..|next.1|][..|entries|];
    }
  }

  /** `ProcessOne` is what the loop body does to the two stores through
      `createEntry` and `calculateNextRun`. */
  lemma ProcessOneIsPosting(users: seq<Row<User>>, categories: seq<Row<CategoryDomain.Category>>,
                            rules: seq<Row<RecurringRule>>, entries: seq<Row<LedgerEntry>>, d: Row<RecurringRule>,
                            zones: ZoneRules, now: Instant)
    ensures var posted := Ledger.CreateEntryEffect(users, categories, entries, d.val.memberId, PostingRequest(d.val, now), now);
      var next := CalculateNextRun(d.val, zones, now);
      ProcessOne(users, categories, rules, entries, d, zones, now)
        == if posted.0.Err? then (rules, entries)
           else if next.Err? then (rules, posted.1)
           else (Upsert(rules, d.id, d.val.(nextRunAt := next.value)), posted.1)
  {
    PostingOutcome(users, categories, entries, d.val, now);
  }

  /** The effect of `processRecurringRules` at `now`, on every rule id: a
      rule that is due (next run at or before `now`, not paused), whose
      posting succeeds and whose zone id is known moves to its next run;
      every other rule, including a due rule whose posting fails or whose
      zone id is unknown, keeps what it had. The ledger grows by the
      postings of the due rules, in order, whether or not their zone ids
      are known. */
  lemma ProcessRecurringRulesEffect(users: seq<Row<User>>, categories: seq<Row<CategoryDomain.Category>>,
                                    rules: seq<Row<RecurringRule>>, entries: seq<Row<LedgerEntry>>, zones: ZoneRules,
                                    now: Instant, id: Id)
    requires UniqueIds(rules)
    ensures var after := ProcessAll(users, categories, rules, entries, RuleRepo.FindDueRules(rules, now), zones, now);
      Find(after.0, id)
        == (match Find(rules, id)
            case Some(r) =>
              if RuleRepo.IsDue(r, now) && PostingSucceeds(users, categories, r) && r.timezone in zones
              then Some(r.(nextRunAt := StartOfNextRun(r, zones[r.timezone], now)))
              else Some(r)
            case None => None)
      && Values(after.1) == Values(entries) + Postings(users, categories, RuleRepo.FindDueRules(rules, now), now)
  {
    var due := RuleRepo.FindDueRules(rules, now);
    SelectKeepsUniqueIds(rules, (rule: RecurringRule) => RuleRepo.IsDue(rule, now));
    FindInSelect(rules, (rule: RecurringRule) => RuleRepo.IsDue(rule, now), id);
    ProcessAllRules(users, categories, rules, entries, due, zones, now, id);
    ProcessAllEntries(users, categories, rules, entries, due, zones, now);
  }

  /** A rule that is still due after a run at `now` either failed to post,
      names an unknown zone id or has an interval below one. */
  lemma StillDueAfterRun(users: seq<Row<User>>, categories: seq<Row<CategoryDomain.Category>>,
                         rules: seq<Row<RecurringRule>>, entries: seq<Row<LedgerEntry>>, zones: ZoneRules,
                         now: Instant, id: Id)
    requires UniqueIds(rules)
    requires var after := ProcessAll(users, categories, rules, entries, RuleRepo.FindDueRules(rules, now), zones, now).0;
      Find(after, id).Some? && RuleRepo.IsDue(Find(after, id).value, now)
    ensures Find(rules, id).Some? && RuleRepo.IsDue(Find(rules, id).value, now)
    ensures !PostingSucceeds(users, categories, Find(rules, id).value) || Find(rules, id).value.timezone !in zones
            || Find(rules, id).value.frequency.interval < 1
  {
    ProcessRecurringRulesEffect(users, categories, rules, entries, zones, now, id);
    var r := Find(rules, id).value;
    if r.timezone in zones {
      NextRunVersusNow(r, zones[r.timezone], now);
    }
  }

  /** Every rule that is not paused names a zone id the zone rules know. */
  ghost predicate UnpausedZonesKnown(rules: seq<Row<RecurringRule>>, zones: ZoneRules) {
    forall id :: Find(rules, id).Some? && !Find(rules, id).value.isPaused ==> Find(rules, id).value.timezone in zones
  }

  /** A run keeps every stored rule's zone id and pause flag, so it keeps
      the unpaused rules' zone ids known. */
  lemma ProcessKeepsZonesKnown(users: seq<Row<User>>, categories: seq<Row<CategoryDomain.Category>>,
                               rules: seq<Row<RecurringRule>>, entries: seq<Row<LedgerEntry>>, zones: ZoneRules,
                               now: Instant)
    requires UniqueIds(rules) && UnpausedZonesKnown(rules, zones)
    ensures UnpausedZonesKnown(
              ProcessAll(users, categories, rules, entries, RuleRepo.FindDueRules(rules, now), zones, now).0, zones)
  {
    var after := ProcessAll(users, categories, rules, entries, RuleRepo.FindDueRules(rules, now), zones, now).0;
    forall id | Find(after, id).Some?
      ensures Find(rules, id).Some? && Find(after, id).value.timezone == Find(rules, id).value.timezone
              && Find(after, id).value.isPaused == Find(rules, id).value.isPaused
    {
      ProcessRecurringRulesEffect(users, categories, rules, entries, zones, now, id);
    }
  }

  /** With the unpaused rules' zone ids known, a due rule whose posting
      succeeds always moves to its next run. */
  lemma KnownZonesAdvance(users: seq<Row<User>>, categories: seq<Row<CategoryDomain.Category>>,
                          rules: seq<Row<RecurringRule>>, entries: seq<Row<LedgerEntry>>, zones: ZoneRules,
                          now: Instant, id: Id)
    requires UniqueIds(rules) && UnpausedZonesKnown(rules, zones)
    requires Find(rules, id).Some? && RuleRepo.IsDue(Find(rules, id).value, now)
    requires PostingSucceeds(users, categories, Find(rules, id).value)
    ensures var r := Find(rules, id).value;
      r.timezone in zones
      && Find(ProcessAll(users, categories, rules, entries, RuleRepo.FindDueRules(rules, now), zones, now).0, id)
         == Some(r.(nextRunAt := StartOfNextRun(r, zones[r.timezone], now)))
  {
    ProcessRecurringRulesEffect(users, categories, rules, entries, zones, now, id);
  }

  // ---------------------------------------------------------------------
  // create, update, delete and list

  /** The rule a DTO describes, as create and update set it field by field. */
  predicate CarriesDto(rule: RecurringRule, dto: RecurringRuleDto) {
    rule.name == dto.name && TypeName(rule.txType) == dto.txType && rule.amountMinor == dto.amountMinor
    && rule.currency == dto.currency && rule.categoryId == dto.categoryId && rule.memberId == dto.memberId
    && UnitName(rule.frequency.unit) == dto.frequency.unit && rule.frequency.interval == dto.frequency.interval
    && rule.frequency.byMonthDay == dto.frequency.byMonthDay
    && rule.startDate == dto.startDate && rule.endDate == dto.endDate && rule.timezone == dto.timezone
  }

  /** The first `valueOf` failure of a DTO, type before unit, if any. */
  function DtoError(dto: RecurringRuleDto): (r: Option<string>)
    ensures r.None? <==> ParseType(dto.txType).Some? && ParseUnit(dto.frequency.unit).Some?
  {
    if ParseType(dto.txType).None? then Some(NoEnumConstant(TransactionTypeEnum, dto.txType))
    else if ParseUnit(dto.frequency.unit).None? then Some(NoEnumConstant(FrequencyUnitEnum, dto.frequency.unit))
    else None
  }

  /** `rule` with every DTO field written over it. */
  function WithDto(rule: RecurringRule, dto: RecurringRuleDto): (r: RecurringRule)
    requires DtoError(dto).None?
    ensures CarriesDto(r, dto)
    ensures r.familyId == rule.familyId && r.nextRunAt == rule.nextRunAt && r.isPaused == rule.isPaused
    ensures r.createdAt == rule.createdAt && r.updatedAt == rule.updatedAt
  {
    ParseTypeName(ParseType(dto.txType).value);
    ParseUnitName(ParseUnit(dto.frequency.unit).value);
    rule.(name := dto.name, txType := ParseType(dto.txType).value, amountMinor := dto.amountMinor,
          currency := dto.currency, categoryId := dto.categoryId, memberId := dto.memberId,
          startDate := dto.startDate, endDate := dto.endDate, timezone := dto.timezone,
          frequency := Frequency(ParseUnit(dto.frequency.unit).value, dto.frequency.interval, dto.frequency.byMonthDay))
  }

  /** `createRecurringRule`: the result and the new rule store. An unknown
      zone id fails in `calculateNextRun`, before the save. */
  function CreateRuleEffect(users: seq<Row<User>>, rules: seq<Row<RecurringRule>>, userId: Id,
                            dto: RecurringRuleDto, zones: ZoneRules, now: Instant)
    : (out: (Result<Row<RecurringRule>>, seq<Row<RecurringRule>>))
    ensures out.0.Err? ==> out.1 == rules
    ensures out.0.Ok? <==> (UserService.CurrentFamilyId(users, userId).Ok?
                            && UserService.CurrentFamilyId(users, userId).value.Some? && DtoError(dto).None?
                            && dto.timezone in zones)
    ensures UserService.CurrentFamilyId(users, userId) == Ok(None) ==>
              out.0 == Err("User must belong to a family to create recurring rules")
    ensures (UserService.CurrentFamilyId(users, userId).Ok? && UserService.CurrentFamilyId(users, userId).value.Some?
             && DtoError(dto).Some?) ==> out.0 == Err(DtoError(dto).value)
    ensures (UserService.CurrentFamilyId(users, userId).Ok? && UserService.CurrentFamilyId(users, userId).value.Some?
             && DtoError(dto).None? && dto.timezone !in zones) ==> out.0 == Err("Unknown time-zone ID: " + dto.timezone)
    ensures out.0.Ok? ==>
              var row := out.0.value;
              out.1 == rules + [row] && !HasId(rules, row.id)
              && row.val.familyId == UserService.CurrentFamilyId(users, userId).value.value
              && CarriesDto(row.val, dto) && !row.val.isPaused
              && row.val.createdAt == now && row.val.updatedAt == now
              && row.val.nextRunAt == StartOfNextRun(row.val, zones[dto.timezone], now)
  {
    match UserService.CurrentFamilyId(users, userId)
    case Err(m) => (Err(m), rules)
    case Ok(None) => (Err("User must belong to a family to create recurring rules"), rules)
    case Ok(Some(familyId)) =>
      match DtoError(dto)
      case Some(m) => (Err(m), rules)
      case None =>
        var blank := RecurringRule(familyId, "", EXPENSE, 0, "", "", "", Frequency(WEEKLY, DefaultInterval, None),
                                   Epoch, None, "", 0, false, now, now);
        var rule := WithDto(blank, dto);
        match CalculateNextRun(rule, zones, now)
        case Err(m) => (Err(m), rules)
        case Ok(next) =>
          var rule := rule.(nextRunAt := next);
          var id := FreshId(rules);
          (Ok(Row(id, rule)), rules + [Row(id, rule)])
  }

  /** The access check shared by update and delete: the rule must exist and
      carry the caller's family; a caller without a family is denied. */
  function CheckAccess(users: seq<Row<User>>, rules: seq<Row<RecurringRule>>, userId: Id, ruleId: Id): (r: Result<RecurringRule>)
    ensures r.Ok? <==> UserService.CurrentFamilyId(users, userId).Ok? && Find(rules, ruleId).Some?
                       && UserService.CurrentFamilyId(users, userId).value == Some(Find(rules, ruleId).value.familyId)
    ensures r.Ok? ==> Find(rules, ruleId) == Some(r.value)
    ensures UserService.CurrentFamilyId(users, userId).Ok? && Find(rules, ruleId).None? ==>
              r == Err("Recurring rule not found")
    ensures (UserService.CurrentFamilyId(users, userId).Ok? && Find(rules, ruleId).Some?
             && UserService.CurrentFamilyId(users, userId).value != Some(Find(rules, ruleId).value.familyId)) ==>
              r == Err("Access denied to recurring rule")
  {
    match UserService.CurrentFamilyId(users, userId)
    case Err(m) => Err(m)
    case Ok(familyId) =>
      match Find(rules, ruleId)
      case None => Err("Recurring rule not found")
      case Some(rule) => if Some(rule.familyId) != familyId then Err("Access denied to recurring rule") else Ok(rule)
  }

  /** The rule `updateRecurringRule` saves: all DTO fields including the
      pause flag, a next run recomputed from the NEW fields unless paused,
      and a fresh updatedAt; family and creation time are kept. The zone id
      is resolved only for an unpaused rule. */
  function UpdatedRule(rule: RecurringRule, dto: RecurringRuleDto, zones: ZoneRules, now: Instant): (u: RecurringRule)
    requires DtoError(dto).None? && (dto.isPaused || dto.timezone in zones)
    ensures CarriesDto(u, dto) && u.isPaused == dto.isPaused
    ensures u.familyId == rule.familyId && u.createdAt == rule.createdAt && u.updatedAt == now
    ensures u.isPaused ==> u.nextRunAt == rule.nextRunAt
    ensures !u.isPaused ==> u.nextRunAt == StartOfNextRun(u, zones[dto.timezone], now)
  {
    var u := WithDto(rule, dto).(isPaused := dto.isPaused);
    var u := if !u.isPaused then u.(nextRunAt := CalculateNextRun(u, zones, now).value) else u;
    u.(updatedAt := now)
  }

  /** `updateRecurringRule`: the result and the new rule store. An unpaused
      rule with an unknown zone id fails in `calculateNextRun`, before the
      save; a paused one is saved with whatever zone id it names. */
  function UpdateRuleEffect(users: seq<Row<User>>, rules: seq<Row<RecurringRule>>, userId: Id, ruleId: Id,
                            dto: RecurringRuleDto, zones: ZoneRules, now: Instant)
    : (out: (Result<Row<RecurringRule>>, seq<Row<RecurringRule>>))
    ensures out.0.Err? ==> out.1 == rules
    ensures out.0.Ok? <==> CheckAccess(users, rules, userId, ruleId).Ok? && DtoError(dto).None?
                           && (dto.isPaused || dto.timezone in zones)
    ensures CheckAccess(users, rules, userId, ruleId).Err? ==> out.0 == Err(CheckAccess(users, rules, userId, ruleId).message)
    ensures CheckAccess(users, rules, userId, ruleId).Ok? && DtoError(dto).Some? ==> out.0 == Err(DtoError(dto).value)
    ensures (CheckAccess(users, rules, userId, ruleId).Ok? && DtoError(dto).None? && !dto.isPaused
             && dto.timezone !in zones) ==> out.0 == Err("Unknown time-zone ID: " + dto.timezone)
    ensures out.0.Ok? ==>
              var u := UpdatedRule(Find(rules, ruleId).value, dto, zones, now);
              out.0.value == Row(ruleId, u) && out.1 == Upsert(rules, ruleId, u)
  {
    match CheckAccess(users, rules, userId, ruleId)
    case Err(m) => (Err(m), rules)
    case Ok(rule) =>
      match DtoError(dto)
      case Some(m) => (Err(m), rules)
      case None =>
        if !dto.isPaused && dto.timezone !in zones then (Err(ZoneOf(zones, dto.timezone).message), rules)
        else
          var u := UpdatedRule(rule, dto, zones, now);
          (Ok(Row(ruleId, u)), Upsert(rules, ruleId, u))
  }

  /** `deleteRecurringRule`: a hard delete after the access check. */
  function DeleteRuleEffect(users: seq<Row<User>>, rules: seq<Row<RecurringRule>>, userId: Id, ruleId: Id)
    : (out: (Result<()>, seq<Row<RecurringRule>>))
    ensures out.0.Err? ==> out.1 == rules && CheckAccess(users, rules, userId, ruleId) == Err(out.0.message)
    ensures out.0.Ok? <==> CheckAccess(users, rules, userId, ruleId).Ok?
    ensures out.0.Ok? ==> out.1 == Remove(rules, ruleId)
  {
    match CheckAccess(users, rules, userId, ruleId)
    case Err(m) => (Err(m), rules)
    case Ok(_) => (Ok(()), Remove(rules, ruleId))
  }

  /** After a successful delete the rule is gone for good: updating or
      deleting it again fails with "Recurring rule not found", and no other
      rule changed. */
  lemma {:induction false} DeletedRuleIsGone(users: seq<Row<User>>, rules: seq<Row<RecurringRule>>, userId: Id,
                                             ruleId: Id, dto: RecurringRuleDto, zones: ZoneRules, now: Instant,
                                             other: Id)
    requires DeleteRuleEffect(users, rules, userId, ruleId).0.Ok?
    ensures var after := DeleteRuleEffect(users, rules, userId, ruleId).1;
      UpdateRuleEffect(users, after, userId, ruleId, dto, zones, now).0 == Err("Recurring rule not found")
      && DeleteRuleEffect(users, after, userId, ruleId).0 == Err("Recurring rule not found")
      && (other != ruleId ==> Find(after, other) == Find(rules, other))
  {
    FindAfterRemove(rules, ruleId, other);
  }

  /** An update of a rule that ends up unpaused leaves it not due at `now`
      when its interval is positive. */
  lemma UnpausedUpdateIsNotDue(users: seq<Row<User>>, rules: seq<Row<RecurringRule>>, userId: Id, ruleId: Id,
                               dto: RecurringRuleDto, zones: ZoneRules, now: Instant)
    requires UpdateRuleEffect(users, rules, userId, ruleId, dto, zones, now).0.Ok?
    requires !dto.isPaused && dto.frequency.interval >= 1
    ensures !RuleRepo.IsDue(UpdateRuleEffect(users, rules, userId, ruleId, dto, zones, now).0.value.val, now)
  {
    NextRunVersusNow(UpdateRuleEffect(users, rules, userId, ruleId, dto, zones, now).0.value.val, zones[dto.timezone], now);
  }

  /** Creation, update and deletion keep every unpaused rule's zone id
      known: creation and an unpaused update resolve it before saving. */
  lemma WritesKeepZonesKnown(users: seq<Row<User>>, rules: seq<Row<RecurringRule>>, userId: Id, ruleId: Id,
                             dto: RecurringRuleDto, zones: ZoneRules, now: Instant)
    requires UnpausedZonesKnown(rules, zones)
    ensures UnpausedZonesKnown(CreateRuleEffect(users, rules, userId, dto, zones, now).1, zones)
    ensures UnpausedZonesKnown(UpdateRuleEffect(users, rules, userId, ruleId, dto, zones, now).1, zones)
    ensures UnpausedZonesKnown(DeleteRuleEffect(users, rules, userId, ruleId).1, zones)
  {
    var created := CreateRuleEffect(users, rules, userId, dto, zones, now);
    if created.0.Ok? {
      var row := created.0.value;
      assert created.1 == Upsert(rules, row.id, row.val);
      forall id | Find(created.1, id).Some? && !Find(created.1, id).value.isPaused
        ensures Find(created.1, id).value.timezone in zones
      {
        FindAfterUpsert(rules, row.id, row.val, id);
      }
    }
    var updated := UpdateRuleEffect(users, rules, userId, ruleId, dto, zones, now);
    if updated.0.Ok? {
      forall id | Find(updated.1, id).Some? && !Find(updated.1, id).value.isPaused
        ensures Find(updated.1, id).value.timezone in zones
      {
        FindAfterUpsert(rules, ruleId, updated.0.value.val, id);
      }
    }
    var deleted := DeleteRuleEffect(users, rules, userId, ruleId);
    if deleted.0.Ok? {
      forall id | Find(deleted.1, id).Some? && !Find(deleted.1, id).value.isPaused
        ensures Find(deleted.1, id).value.timezone in zones
      {
        FindAfterRemove(rules, ruleId, id);
      }
    }
  }

  /** `getRecurringRules`: the family's rules, paused ones included, or
      nothing for a user without a family. */
  function GetRecurringRules(users: seq<Row<User>>, rules: seq<Row<RecurringRule>>, userId: Id)
    : (r: Result<seq<Row<RecurringRule>>>)
    ensures r.Err? <==> UserService.CurrentFamilyId(users, userId).Err?
    ensures UserService.CurrentFamilyId(users, userId) == Ok(None) ==> r == Ok([])
    ensures r.Ok? && UserService.CurrentFamilyId(users, userId).value.Some? ==>
              var familyId := UserService.CurrentFamilyId(users, userId).value.value;
              (forall i :: 0 <= i < |r.value| ==> r.value[i] in rules && r.value[i].val.familyId == familyId)
              && (forall i :: 0 <= i < |rules| && rules[i].val.familyId == familyId ==> rules[i] in r.value)
  {
    match UserService.CurrentFamilyId(users, userId)
    case Err(m) => Err(m)
    case Ok(None) => Ok([])
    case Ok(Some(familyId)) => Ok(RuleRepo.FindByFamilyId(rules, familyId))
  }

  class RecurringService {
    const rules: Table<RecurringRule>
    const ledger: Ledger.LedgerService

    ghost predicate Valid()
      reads this, rules, ledger, ledger.entries, ledger.categories, ledger.users
    {
      rules.Valid() && ledger.Valid()
    }

    constructor (rules: Table<RecurringRule>, ledger: Ledger.LedgerService)
      ensures this.rules == rules && this.ledger == ledger
    {
      this.rules := rules;
      this.ledger := ledger;
    }

    method CreateRecurringRule(userId: Id, dto: RecurringRuleDto, zones: ZoneRules, now: Instant)
      returns (r: Result<Row<RecurringRule>>)
      requires Valid()
      modifies rules
      ensures Valid()
      ensures (r, rules.rows) == CreateRuleEffect(ledger.users.rows, old(rules.rows), userId, dto, zones, now)
    {
      var familyId := UserService.CurrentFamilyId(ledger.users.rows, userId);
      if familyId.Err? {
        return Err(familyId.message);
      }
      if familyId.value.None? {
        return Err("User must belong to a family to create recurring rules");
      }
      var err := DtoError(dto);
      if err.Some? {
        return Err(err.value);
      }
      var rule := RecurringRule(familyId.value.value, "", EXPENSE, 0, "", "", "", Frequency(WEEKLY, DefaultInterval, None),
                                Epoch, None, "", 0, false, now, now);
      rule := WithDto(rule, dto);
      var next := CalculateNextRun(rule, zones, now);
      if next.Err? {
        return Err(next.message);
      }
      rule := rule.(nextRunAt := next.value);
      var id := rules.Insert(rule);
      r := Ok(Row(id, rule));
    }

    method UpdateRecurringRule(userId: Id, ruleId: Id, dto: RecurringRuleDto, zones: ZoneRules, now: Instant)
      returns (r: Result<Row<RecurringRule>>)
      requires Valid()
      modifies rules
      ensures Valid()
      ensures (r, rules.rows) == UpdateRuleEffect(ledger.users.rows, old(rules.rows), userId, ruleId, dto, zones, now)
    {
      var rule := CheckAccess(ledger.users.rows, rules.rows, userId, ruleId);
      if rule.Err? {
        return Err(rule.message);
      }
      var err := DtoError(dto);
      if err.Some? {
        return Err(err.value);
      }
      var u := WithDto(rule.value, dto);
      u := u.(isPaused := dto.isPaused);
      if !u.isPaused {
        var next := CalculateNextRun(u, zones, now);
        if next.Err? {
          return Err(next.message);
        }
        u := u.(nextRunAt := next.value);
      }
      u := u.(updatedAt := now);
      rules.Save(ruleId, u);
      r := Ok(Row(ruleId, u));
    }

    method DeleteRecurringRule(userId: Id, ruleId: Id) returns (r: Result<()>)
      requires Valid()
      modifies rules
      ensures Valid()
      ensures (r, rules.rows) == DeleteRuleEffect(ledger.users.rows, old(rules.rows), userId, ruleId)
    {
      var rule := CheckAccess(ledger.users.rows, rules.rows, userId, ruleId);
      if rule.Err? {
        return Err(rule.message);
      }
      rules.Delete(ruleId);
      r := Ok(());
    }

    /** `processRecurringRules`: every due rule is posted once; a failed
        posting is caught and the loop goes on. */
    method ProcessRecurringRules(zones: ZoneRules, now: Instant)
      requires Valid()
      modifies rules, ledger.entries
      ensures Valid()
      ensures (rules.rows, ledger.entries.rows)
           == ProcessAll(ledger.users.rows, ledger.categories.rows, old(rules.rows), old(ledger.entries.rows),
                         RuleRepo.FindDueRules(old(rules.rows), now), zones, now)
    {
      var due := RuleRepo.FindDueRules(rules.rows, now);
      var i := 0;
      while i < |due|
        invariant 0 <= i <= |due|
        invariant Valid()
        invariant ProcessAll(ledger.users.rows, ledger.categories.rows, rules.rows, ledger.entries.rows, due[i..], zones, now)
               == ProcessAll(ledger.users.rows, ledger.categories.rows, old(rules.rows), old(ledger.entries.rows), due, zones, now)
      {
        ProcessAllStep(ledger.users.rows, ledger.categories.rows, rules.rows, ledger.entries.rows, due, zones, now, i);
        ProcessRule(due[i], zones, now);
        i := i + 1;
      }
    }

    /** One turn of the loop: post the rule's entry and, when that worked
        and the rule's zone id is known, advance the rule to its next run. */
    method ProcessRule(rule: Row<RecurringRule>, zones: ZoneRules, now: Instant)
      requires Valid()
      modifies rules, ledger.entries
      ensures Valid()
      ensures (rules.rows, ledger.entries.rows)
           == ProcessOne(ledger.users.rows, ledger.categories.rows, old(rules.rows), old(ledger.entries.rows), rule, zones, now)
    {
      ghost var users, categories := ledger.users.rows, ledger.categories.rows;
      ghost var posting := Ledger.CreateEntryEffect(users, categories, ledger.entries.rows, rule.val.memberId,
                                                    PostingRequest(rule.val, now), now);
      ProcessOneIsPosting(users, categories, rules.rows, ledger.entries.rows, rule, zones, now);
      var posted := ledger.CreateEntry(rule.val.memberId, PostingRequest(rule.val, now), now);
      assert (posted, ledger.entries.rows) == posting;
      if posted.Ok? {
        var next := CalculateNextRun(rule.val, zones, now);
        if next.Ok? {
          rules.Save(rule.id, rule.val.(nextRunAt := next.value));
        }
      }
      assert ledger.users.rows == users && ledger.categories.rows == categories;
    }
  }
}
