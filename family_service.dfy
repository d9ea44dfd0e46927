/** `FamilyService`: creating a family (its creator becomes an ADMIN member)
    and reading one under a membership check. */
module FamilyService {
  import opened Common
  import opened Tables
  import opened AccountDomain
  import UserService

  datatype CreateFamilyRequest = CreateFamilyRequest(name: string, currency: string)

  datatype FamilyResponse = FamilyResponse(id: Id, name: string, currency: string, createdAt: Instant, updatedAt: Instant)

  function ToResponse(id: Id, f: Family): FamilyResponse {
    FamilyResponse(id, f.name, f.currency, f.createdAt, f.updatedAt)
  }

  /** `findByIdAndDeletedAtIsNull` */
  function FindLiveFamily(families: seq<Row<Family>>, id: Id): (r: Option<Family>)
    ensures r.Some? <==> Find(families, id).Some? && Find(families, id).value.deletedAt.None?
    ensures r.Some? ==> r == Find(families, id)
  {
    match Find(families, id)
    case Some(f) => if f.deletedAt.None? then Some(f) else None
    case None => None
  }

  /** The user record after `getFamilies().add(membership)` and
      `setUpdatedAt(now)`. */
  function JoinAsAdmin(u: User, familyId: Id, now: Instant): (r: User)
    ensures IsMember(r, familyId) && r.updatedAt == now
    ensures |r.families| == |u.families| + 1 && r.families[..|u.families|] == u.families
    ensures r.families[|u.families|] == FamilyMembership(familyId, ADMIN)
    ensures r.email == u.email && r.passwordHash == u.passwordHash && r.deletedAt == u.deletedAt
  {
    u.(families := u.families + [FamilyMembership(familyId, ADMIN)], updatedAt := now)
  }

  /** `createFamily`: the result, the new families and the new users. The
      family is saved before the creator is looked up, so it is kept even when
      the lookup throws. */
  function CreateFamilyEffect(families: seq<Row<Family>>, users: seq<Row<User>>, userId: Id,
                              req: CreateFamilyRequest, now: Instant)
    : (out: (Result<FamilyResponse>, seq<Row<Family>>, seq<Row<User>>))
    ensures out.1 == families + [Row(FreshId(families), NewFamily(req.name, req.currency, now))]
    ensures out.0.Err? <==> !HasId(users, userId)
    ensures out.0.Err? ==> out.0.message == "User not found" && out.2 == users
    ensures out.0.Ok? ==> out.0.value.id == FreshId(families) && out.0.value.name == req.name
  {
    var family := NewFamily(req.name, req.currency, now);
    var familyId := FreshId(families);
    var families' := families + [Row(familyId, family)];
    match UserService.FindUser(users, userId)
    case Err(m) => (Err(m), families', users)
    case Ok(u) => (Ok(ToResponse(familyId, family)), families', Upsert(users, userId, JoinAsAdmin(u, familyId, now)))
  }

  /** The creator's existing memberships are kept and exactly one is added,
      ADMIN of the new family; no other user changes. A creator without a
      family now resolves to the new one, and a creator who already had one
      keeps resolving to the old one, since the first membership decides. */
  lemma {:induction false} CreatorBecomesAdmin(families: seq<Row<Family>>, users: seq<Row<User>>, userId: Id,
                                               req: CreateFamilyRequest, now: Instant, other: Id)
    requires HasId(users, userId)
    ensures var out := CreateFamilyEffect(families, users, userId, req, now);
      var before := Find(users, userId).value;
      var after := Find(out.2, userId).value;
      HasId(out.2, userId)
      && after.families == before.families + [FamilyMembership(out.0.value.id, ADMIN)]
      && after.email == before.email && after.passwordHash == before.passwordHash
      && (before.families == [] ==> UserService.CurrentFamilyId(out.2, userId) == Ok(Some(out.0.value.id)))
      && (before.families != [] ==> UserService.CurrentFamilyId(out.2, userId) == UserService.CurrentFamilyId(users, userId))
    ensures other != userId ==> Find(CreateFamilyEffect(families, users, userId, req, now).2, other) == Find(users, other)
  {
    var u := Find(users, userId).value;
    var after := JoinAsAdmin(u, FreshId(families), now);
    FindAfterUpsert(users, userId, after, other);
    assert HasId(Upsert(users, userId, after), userId) by {
      assert Find(Upsert(users, userId, after), userId).Some?;
    }
    if u.families != [] {
      assert after.families[0] == u.families[0];
    }
  }

  /** `anyMatch(membership -> membership.getFamilyId().equals(familyId))` */
  predicate IsMember(u: User, familyId: Id)
    ensures IsMember(u, familyId) <==> exists i :: 0 <= i < |u.families| && u.families[i].familyId == familyId
  {
    exists m :: m in u.families && m.familyId == familyId
  }

  /** `getFamily`: membership is checked before the family is looked up. */
  function GetFamily(families: seq<Row<Family>>, users: seq<Row<User>>, userId: Id, familyId: Id)
    : (r: Result<FamilyResponse>)
    ensures r.Ok? <==> HasId(users, userId) && IsMember(Find(users, userId).value, familyId)
                       && FindLiveFamily(families, familyId).Some?
    ensures r.Ok? ==> r.value == ToResponse(familyId, Find(families, familyId).value)
    ensures !HasId(users, userId) ==> r == Err("User not found")
    ensures HasId(users, userId) && !IsMember(Find(users, userId).value, familyId)
            ==> r == Err("Access denied to family")
    ensures HasId(users, userId) && IsMember(Find(users, userId).value, familyId) && FindLiveFamily(families, familyId).None?
            ==> r == Err("Family not found")
  {
    match UserService.FindUser(users, userId)
    case Err(m) => Err(m)
    case Ok(u) =>
      if !IsMember(u, familyId) then Err("Access denied to family")
      else
        match FindLiveFamily(families, familyId)
        case None => Err("Family not found")
        case Some(f) => Ok(ToResponse(familyId, f))
  }

  /** The creator can read the family they have just created. */
  lemma CreatorCanReadNewFamily(families: seq<Row<Family>>, users: seq<Row<User>>, userId: Id,
                                req: CreateFamilyRequest, now: Instant)
    requires HasId(users, userId)
    ensures var out := CreateFamilyEffect(families, users, userId, req, now);
      GetFamily(out.1, out.2, userId, out.0.value.id) == Ok(out.0.value)
  {
    var out := CreateFamilyEffect(families, users, userId, req, now);
    var id := out.0.value.id;
    CreatorBecomesAdmin(families, users, userId, req, now, userId);
    var after := Find(out.2, userId).value;
    assert after.families[|after.families| - 1] == FamilyMembership(id, ADMIN);
    FindAfterUpsert(families, id, NewFamily(req.name, req.currency, now), id);
  }

  class FamilyService {
    const families: Table<Family>
    const users: Table<User>

    ghost predicate Valid()
      reads this, families, users
    {
      families.Valid() && users.Valid()
    }

    constructor (families: Table<Family>, users: Table<User>)
      ensures this.families == families && this.users == users
    {
      this.families := families;
      this.users := users;
    }

    method CreateFamily(userId: Id, req: CreateFamilyRequest, now: Instant) returns (r: Result<FamilyResponse>)
      requires Valid()
      modifies families, users
      ensures Valid()
      ensures (r, families.rows, users.rows) == CreateFamilyEffect(old(families.rows), old(users.rows), userId, req, now)
    {
      var family := NewFamily(req.name, req.currency, now);
      var familyId := families.Insert(family);
      var user := users.Get(userId);
      if user.None? {
        return Err("User not found");
      }
      users.Save(userId, JoinAsAdmin(user.value, familyId, now));
      r := Ok(ToResponse(familyId, family));
    }
  }
}
