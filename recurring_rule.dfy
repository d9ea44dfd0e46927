/** The recurring-transaction template of the backend (`RecurringRule`) and its
    frequency. */
module RecurringRuleDomain {
  import opened Common
  import Calendar
  import opened LedgerEntryDomain

  datatype FrequencyUnit = WEEKLY | MONTHLY | YEARLY

  function UnitName(u: FrequencyUnit): string {
    match u
    case WEEKLY => "WEEKLY"
    case MONTHLY => "MONTHLY"
    case YEARLY => "YEARLY"
  }

  /** `FrequencyUnit.valueOf(s)`; `None` stands for the exception thrown for any
      other string. */
  function ParseUnit(s: string): (r: Option<FrequencyUnit>)
    ensures r.Some? <==> s == "WEEKLY" || s == "MONTHLY" || s == "YEARLY"
    ensures r.Some? ==> UnitName(r.value) == s
  {
    if s == "WEEKLY" then Some(WEEKLY)
    else if s == "MONTHLY" then Some(MONTHLY)
    else if s == "YEARLY" then Some(YEARLY)
    else None
  }

  lemma ParseUnitName(u: FrequencyUnit)
    ensures ParseUnit(UnitName(u)) == Some(u)
  {
  }

  /** `interval` is a plain int: nothing requires it to be positive. */
  datatype Frequency = Frequency(unit: FrequencyUnit, interval: int, byMonthDay: Option<seq<int>>)

  const DefaultInterval: int := 1

  /** A rule. The time zone is the zone id as stored; it is resolved
      through the zone rules only when a next run is computed. */
  datatype RecurringRule = RecurringRule(
    familyId: Id,
    name: string,
    txType: TransactionType,
    amountMinor: int,
    currency: string,
    categoryId: Id,
    memberId: Id,
    frequency: Frequency,
    startDate: Calendar.LocalDate,
    endDate: Option<Calendar.LocalDate>,
    timezone: string,
    nextRunAt: Instant,
    isPaused: bool,
    createdAt: Instant,
    updatedAt: Instant)
}
