/** `UserService`: resolving a user and the family the other services act
    on. */
module UserService {
  import opened Common
  import opened Tables
  import opened AccountDomain

  /** `findById(userId)`, throwing "User not found" for an unknown id. */
  function FindUser(users: seq<Row<User>>, userId: Id): (r: Result<User>)
    ensures r.Ok? <==> HasId(users, userId)
    ensures r.Ok? ==> Row(userId, r.value) in users
    ensures r.Err? ==> r.message == "User not found"
  {
    match Find(users, userId)
    case Some(u) => Ok(u)
    case None => Err("User not found")
  }

  /** `getCurrentUserFamilyId(userId)`: the family of the user's FIRST
      membership whatever its role, or null (`None`) when the user has no
      membership. */
  function CurrentFamilyId(users: seq<Row<User>>, userId: Id): (r: Result<Option<Id>>)
    ensures r.Err? <==> !HasId(users, userId)
    ensures r.Err? ==> r.message == "User not found"
    ensures r.Ok? ==> (r.value.None? <==> FindUser(users, userId).value.families == [])
    ensures r.Ok? && r.value.Some? ==> r.value.value == FindUser(users, userId).value.families[0].familyId
  {
    match FindUser(users, userId)
    case Err(m) => Err(m)
    case Ok(u) => if u.families == [] then Ok(None) else Ok(Some(u.families[0].familyId))
  }

  /** The resolved family always comes from one of the user's memberships. */
  lemma CurrentFamilyIsAMembership(users: seq<Row<User>>, userId: Id)
    requires CurrentFamilyId(users, userId).Ok? && CurrentFamilyId(users, userId).value.Some?
    ensures exists m :: m in FindUser(users, userId).value.families
              && m.familyId == CurrentFamilyId(users, userId).value.value
  {
    var u := FindUser(users, userId).value;
    assert u.families[0] in u.families;
  }
}
