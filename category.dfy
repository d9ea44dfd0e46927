/** Expense and income categories (`Category`) and the lookups of
    `CategoryRepository` over them. */
module CategoryDomain {
  import opened Common
  import opened Tables

  datatype CategoryType = EXPENSE | INCOME

  /** `familyId` is optional: categories are created with the caller's family
      id, which is null for a user without a family. */
  datatype Category = Category(
    familyId: Option<Id>,
    name: string,
    categoryType: CategoryType,
    icon: Option<string>,
    color: Option<string>,
    isArchived: bool,
    createdAt: Instant,
    updatedAt: Instant,
    deletedAt: Option<Instant>)

  /** `new Category(familyId, name, type)` */
  function NewCategory(familyId: Option<Id>, name: string, t: CategoryType, now: Instant): (c: Category)
    ensures c.familyId == familyId && c.name == name && c.categoryType == t
    ensures !c.isArchived && c.deletedAt.None? && c.icon.None? && c.color.None?
    ensures c.createdAt == now && c.updatedAt == now
  {
    Category(familyId, name, t, None, None, false, now, now, None)
  }

  predicate LiveInFamily(c: Category, familyId: Option<Id>) {
    c.familyId == familyId && c.deletedAt.None?
  }

  /** `findByIdAndFamilyIdAndDeletedAtIsNull` */
  function FindLive(rows: seq<Row<Category>>, id: Id, familyId: Option<Id>): (r: Option<Category>)
    ensures r.Some? <==> Find(rows, id).Some? && LiveInFamily(Find(rows, id).value, familyId)
    ensures r.Some? ==> r == Find(rows, id)
  {
    match Find(rows, id)
    case Some(c) => if LiveInFamily(c, familyId) then Some(c) else None
    case None => None
  }

  /** `findByFamilyIdAndDeletedAtIsNull` and, given a type,
      `findByFamilyIdAndTypeAndDeletedAtIsNull`. */
  function ListLive(rows: seq<Row<Category>>, familyId: Option<Id>, t: Option<CategoryType>): (r: seq<Row<Category>>)
    ensures forall i :: 0 <= i < |r| ==> r[i] in rows && LiveInFamily(r[i].val, familyId)
    ensures forall i :: 0 <= i < |r| ==> t.Some? ==> r[i].val.categoryType == t.value
    ensures forall i :: 0 <= i < |rows| ==>
              (LiveInFamily(rows[i].val, familyId) && (t.None? || rows[i].val.categoryType == t.value) ==> rows[i] in r)
  {
    Select(rows, (c: Category) => LiveInFamily(c, familyId) && (t.None? || c.categoryType == t.value))
  }

  /** `existsByFamilyIdAndNameAndTypeAndDeletedAtIsNull` */
  predicate ExistsLiveNamed(rows: seq<Row<Category>>, familyId: Option<Id>, name: string, t: CategoryType) {
    exists i :: 0 <= i < |rows| && LiveInFamily(rows[i].val, familyId)
      && rows[i].val.name == name && rows[i].val.categoryType == t
  }
}
