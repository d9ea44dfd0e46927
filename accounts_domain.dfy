/** The account records the services consult: users with their family
    memberships, and families. */
module AccountDomain {
  import opened Common

  datatype Role = ADMIN | MEMBER

  datatype FamilyMembership = FamilyMembership(familyId: Id, role: Role)

  datatype User = User(
    email: string,
    passwordHash: string,
    families: seq<FamilyMembership>,
    createdAt: Instant,
    updatedAt: Instant,
    deletedAt: Option<Instant>)

  /** `new User(email, passwordHash)`: no memberships, both timestamps `now`. */
  function NewUser(email: string, passwordHash: string, now: Instant): (u: User)
    ensures u.email == email && u.passwordHash == passwordHash
    ensures u.families == [] && u.deletedAt.None?
    ensures u.createdAt == now && u.updatedAt == now
  {
    User(email, passwordHash, [], now, now, None)
  }

  datatype Family = Family(
    name: string,
    currency: string,
    createdAt: Instant,
    updatedAt: Instant,
    deletedAt: Option<Instant>)

  /** `new Family(name, currency)` */
  function NewFamily(name: string, currency: string, now: Instant): (f: Family)
    ensures f.name == name && f.currency == currency && f.deletedAt.None?
    ensures f.createdAt == now && f.updatedAt == now
  {
    Family(name, currency, now, now, None)
  }
}
