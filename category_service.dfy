/** `CategoryService`: the family's categories, created under a
    (family, name, type) duplicate check, renamed in place and deleted softly
    by setting `deletedAt`. */
module CategoryService {
  import opened Common
  import opened Tables
  import opened CategoryDomain
  import opened AccountDomain
  import UserService

  datatype CreateCategoryRequest = CreateCategoryRequest(
    name: string,
    categoryType: CategoryType,
    icon: Option<string>,
    color: Option<string>)

  datatype CategoryResponse = CategoryResponse(
    id: Id,
    name: string,
    categoryType: CategoryType,
    icon: Option<string>,
    color: Option<string>,
    isArchived: bool,
    createdAt: Instant,
    updatedAt: Instant)

  const DuplicateCategory := "Category with this name and type already exists"

  function ToResponse(id: Id, c: Category): CategoryResponse {
    CategoryResponse(id, c.name, c.categoryType, c.icon, c.color, c.isArchived, c.createdAt, c.updatedAt)
  }

  function Responses(rows: seq<Row<Category>>): (r: seq<CategoryResponse>)
    ensures |r| == |rows|
    ensures forall i :: 0 <= i < |rows| ==> r[i] == ToResponse(rows[i].id, rows[i].val)
  {
    if rows == [] then [] else [ToResponse(rows[0].id, rows[0].val)] + Responses(rows[1..])
  }

  /** The category `createCategory` saves: the caller's family, the request's
      name, type, icon and colour. */
  function CategoryFromRequest(familyId: Option<Id>, req: CreateCategoryRequest, now: Instant): Category {
    NewCategory(familyId, req.name, req.categoryType, now).(icon := req.icon, color := req.color)
  }

  /** The fields `updateCategory` rewrites: name, icon, colour and
      `updatedAt`. */
  function Rename(c: Category, req: CreateCategoryRequest, now: Instant): Category {
    c.(name := req.name, icon := req.icon, color := req.color, updatedAt := now)
  }

  /** `getCategories`: the family's live categories, of the given type when
      there is one. */
  function GetCategories(users: seq<Row<User>>, categories: seq<Row<Category>>, userId: Id,
                         t: Option<CategoryType>): (r: Result<seq<CategoryResponse>>)
    ensures r.Ok? <==> UserService.CurrentFamilyId(users, userId).Ok?
    ensures r.Err? ==> r.message == "User not found"
  {
    match UserService.CurrentFamilyId(users, userId)
    case Err(m) => Err(m)
    case Ok(familyId) => Ok(Responses(ListLive(categories, familyId, t)))
  }

  /** The listing shows a category if and only if it is live, in the caller's
      family and of the asked type. */
  lemma GetCategoriesListsLive(users: seq<Row<User>>, categories: seq<Row<Category>>, userId: Id,
                               t: Option<CategoryType>)
    requires UserService.CurrentFamilyId(users, userId).Ok?
    ensures var familyId := UserService.CurrentFamilyId(users, userId).value;
      var listed := GetCategories(users, categories, userId, t).value;
      (forall k :: 0 <= k < |listed| ==>
         exists i :: 0 <= i < |categories| && listed[k] == ToResponse(categories[i].id, categories[i].val)
           && LiveInFamily(categories[i].val, familyId) && (t.None? || categories[i].val.categoryType == t.value))
      && (forall i :: 0 <= i < |categories| && LiveInFamily(categories[i].val, familyId)
            && (t.None? || categories[i].val.categoryType == t.value)
            ==> ToResponse(categories[i].id, categories[i].val) in listed)
  {
    var familyId := UserService.CurrentFamilyId(users, userId).value;
    var live := ListLive(categories, familyId, t);
    var listed := Responses(live);
    forall k | 0 <= k < |listed|
      ensures exists i :: 0 <= i < |categories| && listed[k] == ToResponse(categories[i].id, categories[i].val)
                && LiveInFamily(categories[i].val, familyId) && (t.None? || categories[i].val.categoryType == t.value)
    {
      var i :| 0 <= i < |categories| && categories[i] == live[k];
      assert listed[k] == ToResponse(categories[i].id, categories[i].val);
    }
    forall i | 0 <= i < |categories| && LiveInFamily(categories[i].val, familyId)
                 && (t.None? || categories[i].val.categoryType == t.value)
      ensures ToResponse(categories[i].id, categories[i].val) in listed
    {
      var k :| 0 <= k < |live| && live[k] == categories[i];
      assert listed[k] == ToResponse(categories[i].id, categories[i].val);
    }
  }

  /** `createCategory`: the result and the new collection. */
  function CreateCategoryEffect(users: seq<Row<User>>, categories: seq<Row<Category>>, userId: Id,
                                req: CreateCategoryRequest, now: Instant): (out: (Result<CategoryResponse>, seq<Row<Category>>))
    ensures out.0.Err? ==> out.1 == categories
    ensures out.0.Err? <==> (UserService.CurrentFamilyId(users, userId).Err?
              || ExistsLiveNamed(categories, UserService.CurrentFamilyId(users, userId).value, req.name, req.categoryType))
    ensures UserService.CurrentFamilyId(users, userId).Ok? && out.0.Err? ==> out.0.message == DuplicateCategory
    ensures out.0.Ok? ==>
              out.0.value.id == FreshId(categories)
              && out.1 == categories + [Row(FreshId(categories),
                                            CategoryFromRequest(UserService.CurrentFamilyId(users, userId).value, req, now))]
  {
    match UserService.CurrentFamilyId(users, userId)
    case Err(m) => (Err(m), categories)
    case Ok(familyId) =>
      if ExistsLiveNamed(categories, familyId, req.name, req.categoryType) then (Err(DuplicateCategory), categories)
      else
        var c := CategoryFromRequest(familyId, req, now);
        var id := FreshId(categories);
        (Ok(ToResponse(id, c)), categories + [Row(id, c)])
  }

  /** `updateCategory`: the result and the new collection. */
  function UpdateCategoryEffect(users: seq<Row<User>>, categories: seq<Row<Category>>, userId: Id, categoryId: Id,
                                req: CreateCategoryRequest, now: Instant): (out: (Result<CategoryResponse>, seq<Row<Category>>))
    ensures out.0.Err? ==> out.1 == categories
    ensures UserService.CurrentFamilyId(users, userId).Ok? ==>
              var familyId := UserService.CurrentFamilyId(users, userId).value;
              (out.0.Err? <==> FindLive(categories, categoryId, familyId).None?)
              && (out.0.Err? ==> out.0.message == "Category not found")
  {
    match UserService.CurrentFamilyId(users, userId)
    case Err(m) => (Err(m), categories)
    case Ok(familyId) =>
      match FindLive(categories, categoryId, familyId)
      case None => (Err("Category not found"), categories)
      case Some(c) =>
        var u := Rename(c, req, now);
        (Ok(ToResponse(categoryId, u)), Upsert(categories, categoryId, u))
  }

  /** `deleteCategory`: soft deletion, or the error it throws. */
  function DeleteCategoryEffect(users: seq<Row<User>>, categories: seq<Row<Category>>, userId: Id, categoryId: Id,
                                now: Instant): (out: (Result<()>, seq<Row<Category>>))
    ensures out.0.Err? ==> out.1 == categories
    ensures UserService.CurrentFamilyId(users, userId).Ok? ==>
              var familyId := UserService.CurrentFamilyId(users, userId).value;
              (out.0.Err? <==> FindLive(categories, categoryId, familyId).None?)
              && (out.0.Err? ==> out.0.message == "Category not found")
  {
    match UserService.CurrentFamilyId(users, userId)
    case Err(m) => (Err(m), categories)
    case Ok(familyId) =>
      match FindLive(categories, categoryId, familyId)
      case None => (Err("Category not found"), categories)
      case Some(c) => (Ok(()), Upsert(categories, categoryId, c.(deletedAt := Some(now))))
  }

  /** A created category is live in the caller's family, with the request's
      name, type, icon and colour, and immediately found by id. */
  lemma {:induction false} CreatedCategoryIsFound(users: seq<Row<User>>, categories: seq<Row<Category>>, userId: Id,
                                                  req: CreateCategoryRequest, now: Instant)
    requires CreateCategoryEffect(users, categories, userId, req, now).0.Ok?
    ensures var out := CreateCategoryEffect(users, categories, userId, req, now);
      var familyId := UserService.CurrentFamilyId(users, userId).value;
      var c := FindLive(out.1, out.0.value.id, familyId);
      c.Some? && c.value.familyId == familyId && c.value.name == req.name
      && c.value.categoryType == req.categoryType && c.value.icon == req.icon && c.value.color == req.color
  {
    var familyId := UserService.CurrentFamilyId(users, userId).value;
    FindAfterUpsert(categories, FreshId(categories), CategoryFromRequest(familyId, req, now), FreshId(categories));
  }

  /** The update rewrites name, icon, colour and `updatedAt` of that one
      category; its type, family, creation time and archive flag stay, and
      every other category is untouched. */
  lemma {:induction false} UpdateRenamesOnly(users: seq<Row<User>>, categories: seq<Row<Category>>, userId: Id,
                                             categoryId: Id, req: CreateCategoryRequest, now: Instant, other: Id)
    requires UpdateCategoryEffect(users, categories, userId, categoryId, req, now).0.Ok?
    ensures var before := Find(categories, categoryId).value;
      var after := Find(UpdateCategoryEffect(users, categories, userId, categoryId, req, now).1, categoryId);
      after.Some? && after.value.name == req.name && after.value.icon == req.icon && after.value.color == req.color
      && after.value.updatedAt == now
      && after.value.categoryType == before.categoryType && after.value.familyId == before.familyId
      && after.value.createdAt == before.createdAt && after.value.isArchived == before.isArchived
      && after.value.deletedAt.None?
    ensures other != categoryId ==>
      Find(UpdateCategoryEffect(users, categories, userId, categoryId, req, now).1, other) == Find(categories, other)
  {
    var c := Find(categories, categoryId).value;
    FindAfterUpsert(categories, categoryId, Rename(c, req, now), other);
  }

  /** Soft deletion keeps the document but hides it: a second delete and an
      update of the same id fail "Category not found". */
  lemma {:induction false} DeletedCategoryIsGone(users: seq<Row<User>>, categories: seq<Row<Category>>, userId: Id,
                                                 categoryId: Id, req: CreateCategoryRequest, now: Instant, later: Instant)
    requires DeleteCategoryEffect(users, categories, userId, categoryId, now).0.Ok?
    ensures var after := DeleteCategoryEffect(users, categories, userId, categoryId, now).1;
      HasId(after, categoryId) && Find(after, categoryId).value.deletedAt == Some(now)
      && DeleteCategoryEffect(users, after, userId, categoryId, later).0 == Err("Category not found")
      && UpdateCategoryEffect(users, after, userId, categoryId, req, later).0 == Err("Category not found")
  {
    var c := Find(categories, categoryId).value;
    FindAfterUpsert(categories, categoryId, c.(deletedAt := Some(now)), categoryId);
  }

  /** Two categories that the duplicate check treats as the same. */
  predicate Clash(a: Category, b: Category) {
    a.deletedAt.None? && b.deletedAt.None? && a.familyId == b.familyId
    && a.name == b.name && a.categoryType == b.categoryType
  }

  /** No two live categories of a family share name and type. */
  predicate LiveNamesUnique(rows: seq<Row<Category>>) {
    forall i, j :: 0 <= i < j < |rows| ==> !Clash(rows[i].val, rows[j].val)
  }

  /** `createCategory` keeps live (family, name, type) triples unique. */
  lemma CreateKeepsNamesUnique(users: seq<Row<User>>, categories: seq<Row<Category>>, userId: Id,
                               req: CreateCategoryRequest, now: Instant)
    requires LiveNamesUnique(categories)
    ensures LiveNamesUnique(CreateCategoryEffect(users, categories, userId, req, now).1)
  {
    var out := CreateCategoryEffect(users, categories, userId, req, now);
    if out.0.Ok? {
      var familyId := UserService.CurrentFamilyId(users, userId).value;
      var r := out.1;
      forall i, j | 0 <= i < j < |r|
        ensures !Clash(r[i].val, r[j].val)
      {
        if j == |categories| {
          assert r[i] == categories[i];
          assert r[j].val == CategoryFromRequest(familyId, req, now);
        } else {
          assert r[i] == categories[i] && r[j] == categories[j];
        }
      }
    }
  }

  /** `deleteCategory` keeps live (family, name, type) triples unique, and the
      deleted category's name and type are free again in its family. */
  lemma DeleteKeepsNamesUnique(users: seq<Row<User>>, categories: seq<Row<Category>>, userId: Id,
                               categoryId: Id, now: Instant)
    requires LiveNamesUnique(categories) && UniqueIds(categories)
    ensures var out := DeleteCategoryEffect(users, categories, userId, categoryId, now);
      LiveNamesUnique(out.1)
      && (out.0.Ok? ==> var c := Find(categories, categoryId).value;
            !ExistsLiveNamed(out.1, c.familyId, c.name, c.categoryType))
  {
    var out := DeleteCategoryEffect(users, categories, userId, categoryId, now);
    if out.0.Ok? {
      var c := Find(categories, categoryId).value;
      var d := c.(deletedAt := Some(now));
      var r := out.1;
      UpsertRowwise(categories, categoryId, d);
      forall i, j | 0 <= i < j < |r|
        ensures !Clash(r[i].val, r[j].val)
      {
      }
      var k :| 0 <= k < |categories| && categories[k] == Row(categoryId, c);
      forall i | 0 <= i < |r| && LiveInFamily(r[i].val, c.familyId)
        ensures !(r[i].val.name == c.name && r[i].val.categoryType == c.categoryType)
      {
        assert categories[i].id != categoryId && r[i] == categories[i];
        if i < k {
          assert !Clash(categories[i].val, categories[k].val);
        } else {
          assert !Clash(categories[k].val, categories[i].val);
        }
      }
    }
  }

  /** `updateCategory` does not repeat the duplicate check: renaming one live
      category to another's name and type succeeds and leaves two live
      categories that clash. */
  lemma UpdateSkipsDuplicateCheck()
    ensures var users := [Row("u", User("a@b.c", "h", [FamilyMembership("f", ADMIN)], 0, 0, None))];
      var food := Category(Some("f"), "Food", EXPENSE, None, None, false, 0, 0, None);
      var fun := Category(Some("f"), "Fun", EXPENSE, None, None, false, 0, 0, None);
      var categories := [Row("1", food), Row("2", fun)];
      var out := UpdateCategoryEffect(users, categories, "u", "2", CreateCategoryRequest("Food", EXPENSE, None, None), 1);
      LiveNamesUnique(categories) && out.0.Ok? && !LiveNamesUnique(out.1)
  {
    var users := [Row("u", User("a@b.c", "h", [FamilyMembership("f", ADMIN)], 0, 0, None))];
    var food := Category(Some("f"), "Food", EXPENSE, None, None, false, 0, 0, None);
    var fun := Category(Some("f"), "Fun", EXPENSE, None, None, false, 0, 0, None);
    var categories := [Row("1", food), Row("2", fun)];
    var req := CreateCategoryRequest("Food", EXPENSE, None, None);
    assert UserService.CurrentFamilyId(users, "u") == Ok(Some("f"));
    assert Find(categories, "2") == Some(fun);
    assert categories[1].id == "2";
    UpsertRowwise(categories, "2", Rename(fun, req, 1));
    var out := UpdateCategoryEffect(users, categories, "u", "2", req, 1);
    assert Clash(out.1[0].val, out.1[1].val);
  }

  class CategoryService {
    const categories: Table<Category>
    const users: Table<User>

    ghost predicate Valid()
      reads this, categories, users
    {
      categories.Valid() && users.Valid()
    }

    constructor (categories: Table<Category>, users: Table<User>)
      ensures this.categories == categories && this.users == users
    {
      this.categories := categories;
      this.users := users;
    }

    method CreateCategory(userId: Id, req: CreateCategoryRequest, now: Instant) returns (r: Result<CategoryResponse>)
      requires Valid()
      modifies categories
      ensures Valid()
      ensures (r, categories.rows) == CreateCategoryEffect(users.rows, old(categories.rows), userId, req, now)
    {
      var familyId := UserService.CurrentFamilyId(users.rows, userId);
      if familyId.Err? {
        return Err(familyId.message);
      }
      if ExistsLiveNamed(categories.rows, familyId.value, req.name, req.categoryType) {
        return Err(DuplicateCategory);
      }
      var category := CategoryFromRequest(familyId.value, req, now);
      var id := categories.Insert(category);
      r := Ok(ToResponse(id, category));
    }

    method UpdateCategory(userId: Id, categoryId: Id, req: CreateCategoryRequest, now: Instant)
      returns (r: Result<CategoryResponse>)
      requires Valid()
      modifies categories
      ensures Valid()
      ensures (r, categories.rows) == UpdateCategoryEffect(users.rows, old(categories.rows), userId, categoryId, req, now)
    {
      var familyId := UserService.CurrentFamilyId(users.rows, userId);
      if familyId.Err? {
        return Err(familyId.message);
      }
      var category := FindLive(categories.rows, categoryId, familyId.value);
      if category.None? {
        return Err("Category not found");
      }
      var updated := Rename(category.value, req, now);
      categories.Save(categoryId, updated);
      r := Ok(ToResponse(categoryId, updated));
    }

    method DeleteCategory(userId: Id, categoryId: Id, now: Instant) returns (r: Result<()>)
      requires Valid()
      modifies categories
      ensures Valid()
      ensures (r, categories.rows) == DeleteCategoryEffect(users.rows, old(categories.rows), userId, categoryId, now)
    {
      var familyId := UserService.CurrentFamilyId(users.rows, userId);
      if familyId.Err? {
        return Err(familyId.message);
      }
      var category := FindLive(categories.rows, categoryId, familyId.value);
      if category.None? {
        return Err("Category not found");
      }
      categories.Save(categoryId, category.value.(deletedAt := Some(now)));
      r := Ok(());
    }
  }
}
