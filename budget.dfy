/** The spending plan of the backend (`Budget`) with its period and
    per-category limits. */
module BudgetDomain {
  import opened Common
  import opened Calendar

  datatype PeriodType = MONTH | QUARTER | YEAR | CUSTOM

  function PeriodTypeName(t: PeriodType): string {
    match t
    case MONTH => "MONTH"
    case QUARTER => "QUARTER"
    case YEAR => "YEAR"
    case CUSTOM => "CUSTOM"
  }

  /** `PeriodType.valueOf(s)`; `None` stands for the exception thrown for any
      other string. */
  function ParsePeriodType(s: string): (r: Option<PeriodType>)
    ensures r.Some? <==> s in {"MONTH", "QUARTER", "YEAR", "CUSTOM"}
    ensures r.Some? ==> PeriodTypeName(r.value) == s
  {
    if s == "MONTH" then Some(MONTH)
    else if s == "QUARTER" then Some(QUARTER)
    else if s == "YEAR" then Some(YEAR)
    else if s == "CUSTOM" then Some(CUSTOM)
    else None
  }

  lemma ParsePeriodTypeName(t: PeriodType)
    ensures ParsePeriodType(PeriodTypeName(t)) == Some(t)
  {
  }

  /** Type, start and end are all required; nothing orders start and end. */
  datatype Period = Period(periodType: PeriodType, start: LocalDate, end: LocalDate)

  datatype CategoryBudget = CategoryBudget(categoryId: Id, limitMinor: int)

  datatype Budget = Budget(
    familyId: Id,
    name: string,
    period: Period,
    overallLimitMinor: int,
    includeRecurring: bool,
    alertThresholdPct: int,
    perCategory: seq<CategoryBudget>,
    createdAt: Instant,
    updatedAt: Instant)

  const DefaultAlertThresholdPct: int := 80

  /** The `@Positive` constraints on the overall and per-category limits. */
  predicate ValidLimits(b: Budget) {
    b.overallLimitMinor > 0 && forall i :: 0 <= i < |b.perCategory| ==> b.perCategory[i].limitMinor > 0
  }

  /** The four-argument constructor: the field initialisers supply
      includeRecurring, the alert threshold and an empty per-category list, and
      the no-argument constructor stamps both timestamps. */
  function NewBudget(familyId: Id, name: string, period: Period, overallLimitMinor: int, now: Instant): (b: Budget)
    ensures b.includeRecurring && b.alertThresholdPct == 80 && b.perCategory == []
    ensures b.createdAt == now && b.updatedAt == now
    ensures b.familyId == familyId && b.name == name && b.period == period
    ensures b.overallLimitMinor == overallLimitMinor
  {
    Budget(familyId, name, period, overallLimitMinor, true, DefaultAlertThresholdPct, [], now, now)
  }

  /** The period annotations do not order the two dates: a period that ends
      before it starts is a legal value. */
  lemma PeriodMayEndBeforeStart()
    ensures exists p: Period :: ValidDate(p.start) && ValidDate(p.end) && Before(p.end, p.start)
  {
    var p := Period(CUSTOM, Date(2024, 2, 1), Date(2024, 1, 1));
    assert ValidDate(p.start) && ValidDate(p.end) && Before(p.end, p.start);
  }
}
