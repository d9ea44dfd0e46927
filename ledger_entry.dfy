/** The ledger record of the backend (`LedgerEntry`) with its money value and
    transaction type. */
module LedgerEntryDomain {
  import opened Common

  datatype TransactionType = EXPENSE | INCOME

  /** `TransactionType.name()` */
  function TypeName(t: TransactionType): string {
    match t
    case EXPENSE => "EXPENSE"
    case INCOME => "INCOME"
  }

  /** `TransactionType.valueOf(s)`: the constant with exactly that name;
      `None` stands for the IllegalArgumentException thrown otherwise. */
  function ParseType(s: string): (r: Option<TransactionType>)
    ensures r.Some? <==> s == "EXPENSE" || s == "INCOME"
    ensures r.Some? ==> TypeName(r.value) == s
  {
    if s == "EXPENSE" then Some(EXPENSE) else if s == "INCOME" then Some(INCOME) else None
  }

  lemma ParseTypeName(t: TransactionType)
    ensures ParseType(TypeName(t)) == Some(t)
  {
  }

  /** An amount in minor units (cents) with its ISO currency code. */
  datatype MoneyAmount = MoneyAmount(minor: int, currency: string)

  /** The bean-validation constraints of `MoneyAmount`: `@Positive minor` and
      `@NotNull currency` (a currency is always present here). */
  predicate ValidAmount(m: MoneyAmount) {
    m.minor > 0
  }

  /** A ledger entry. `familyId` is optional because the services copy the
      caller's family id, which is null for a user without a family. */
  datatype LedgerEntry = LedgerEntry(
    familyId: Option<Id>,
    memberId: Id,
    txType: TransactionType,
    amount: MoneyAmount,
    categoryId: Id,
    occurredAt: Instant,
    notes: Option<string>,
    attachments: Option<seq<string>>,
    recurringId: Option<Id>,
    createdAt: Instant,
    updatedAt: Instant,
    deletedAt: Option<Instant>)

  /** Not soft-deleted. */
  predicate IsLive(e: LedgerEntry) {
    e.deletedAt.None?
  }

  /** The six-argument constructor (after the no-argument one stamps both
      timestamps with `now`). */
  function NewLedgerEntry(familyId: Option<Id>, memberId: Id, txType: TransactionType, amount: MoneyAmount,
                          categoryId: Id, occurredAt: Instant, now: Instant): (e: LedgerEntry)
    ensures IsLive(e) && e.recurringId.None?
    ensures e.notes.None? && e.attachments.None?
    ensures e.createdAt == now && e.updatedAt == now
    ensures e.familyId == familyId && e.memberId == memberId && e.txType == txType
    ensures e.amount == amount && e.categoryId == categoryId && e.occurredAt == occurredAt
  {
    LedgerEntry(familyId, memberId, txType, amount, categoryId, occurredAt, None, None, None, now, now, None)
  }
}
