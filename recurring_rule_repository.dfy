/** The declared queries of `RecurringRuleRepository` over the rule
    collection. */
module RecurringRuleRepository {
  import opened Common
  import opened Tables
  import opened RecurringRuleDomain

  /** The filter of `findDueRules`: next run at or before `t` (inclusive
      `$lte`) and not paused. */
  predicate IsDue(r: RecurringRule, t: Instant) {
    r.nextRunAt <= t && !r.isPaused
  }

  /** `findDueRules(t)` */
  function FindDueRules(rows: seq<Row<RecurringRule>>, t: Instant): (r: seq<Row<RecurringRule>>)
    ensures forall i :: 0 <= i < |r| ==> r[i] in rows && r[i].val.nextRunAt <= t && !r[i].val.isPaused
    ensures forall i :: 0 <= i < |rows| ==> (IsDue(rows[i].val, t) ==> rows[i] in r)
  {
    Select(rows, (rule: RecurringRule) => IsDue(rule, t))
  }

  /** `findDueRulesByFamily(f, t)` */
  function FindDueRulesByFamily(rows: seq<Row<RecurringRule>>, familyId: Id, t: Instant): (r: seq<Row<RecurringRule>>)
    ensures forall i :: 0 <= i < |r| ==> r[i] in rows && r[i].val.familyId == familyId && IsDue(r[i].val, t)
    ensures forall i :: 0 <= i < |rows| ==> (rows[i].val.familyId == familyId && IsDue(rows[i].val, t) ==> rows[i] in r)
  {
    Select(rows, (rule: RecurringRule) => rule.familyId == familyId && !rule.isPaused && rule.nextRunAt <= t)
  }

  /** `findByFamilyId(f)`: paused rules included. */
  function FindByFamilyId(rows: seq<Row<RecurringRule>>, familyId: Id): (r: seq<Row<RecurringRule>>)
    ensures forall i :: 0 <= i < |r| ==> r[i] in rows && r[i].val.familyId == familyId
    ensures forall i :: 0 <= i < |rows| ==> (rows[i].val.familyId == familyId ==> rows[i] in r)
  {
    Select(rows, (rule: RecurringRule) => rule.familyId == familyId)
  }

  /** `findByFamilyIdAndIsPausedFalse(f)` */
  function FindActiveByFamilyId(rows: seq<Row<RecurringRule>>, familyId: Id): (r: seq<Row<RecurringRule>>)
    ensures forall i :: 0 <= i < |r| ==> r[i] in rows && r[i].val.familyId == familyId && !r[i].val.isPaused
    ensures forall i :: 0 <= i < |rows| ==> (rows[i].val.familyId == familyId && !rows[i].val.isPaused ==> rows[i] in r)
  {
    Select(rows, (rule: RecurringRule) => rule.familyId == familyId && !rule.isPaused)
  }

  /** The family variant of the due lookup is the due lookup restricted to
      that family, in the same order. */
  lemma DueByFamilyIsDueRestricted(rows: seq<Row<RecurringRule>>, familyId: Id, t: Instant)
    ensures FindDueRulesByFamily(rows, familyId, t)
         == Select(FindDueRules(rows, t), (rule: RecurringRule) => rule.familyId == familyId)
  {
    SelectSelect(rows, (rule: RecurringRule) => IsDue(rule, t), (rule: RecurringRule) => rule.familyId == familyId,
                 (rule: RecurringRule) => rule.familyId == familyId && !rule.isPaused && rule.nextRunAt <= t);
  }

  /** The active lookup is the family lookup without its paused rules. */
  lemma ActiveIsFamilyWithoutPaused(rows: seq<Row<RecurringRule>>, familyId: Id)
    ensures FindActiveByFamilyId(rows, familyId)
         == Select(FindByFamilyId(rows, familyId), (rule: RecurringRule) => !rule.isPaused)
  {
    SelectSelect(rows, (rule: RecurringRule) => rule.familyId == familyId, (rule: RecurringRule) => !rule.isPaused,
                 (rule: RecurringRule) => rule.familyId == familyId && !rule.isPaused);
  }
}
