/** `AuthService`: sign-up and log-in over the user collection. Password
    hashing and token issuing are library calls whose results the model takes
    as given functions, bundled in `Crypto`. */
module AuthService {
  import opened Common
  import opened Tables
  import opened AccountDomain

  /** The password encoder and the token provider, as opaque functions. */
  datatype Crypto = Crypto(
    encode: string -> string,
    matches: (string, string) -> bool,
    accessToken: (Id, string) -> string,
    refreshToken: Id -> string,
    accessTokenExpiration: int)

  datatype SignupRequest = SignupRequest(email: string, password: string)

  datatype LoginRequest = LoginRequest(email: string, password: string)

  datatype UserInfo = UserInfo(id: Id, email: string)

  datatype AuthResponse = AuthResponse(accessToken: string, refreshToken: string, expiresIn: int, user: UserInfo)

  predicate LiveWithEmail(u: User, email: string) {
    u.email == email && u.deletedAt.None?
  }

  /** `existsByEmailAndDeletedAtIsNull` */
  predicate ExistsLiveEmail(users: seq<Row<User>>, email: string) {
    exists i :: 0 <= i < |users| && LiveWithEmail(users[i].val, email)
  }

  /** `findByEmailAndDeletedAtIsNull`: the first live user with that email. */
  function FindByEmail(users: seq<Row<User>>, email: string): (r: Option<Row<User>>)
    ensures r.Some? <==> ExistsLiveEmail(users, email)
    ensures r.Some? ==> r.value in users && LiveWithEmail(r.value.val, email)
    ensures r.Some? ==> exists k :: 0 <= k < |users| && users[k] == r.value
                                    && forall j :: 0 <= j < k ==> !LiveWithEmail(users[j].val, email)
  {
    if users == [] then None
    else if LiveWithEmail(users[0].val, email) then Some(users[0])
    else
      var r := FindByEmail(users[1..], email);
      assert ExistsLiveEmail(users, email) <==> ExistsLiveEmail(users[1..], email) by {
        assert forall i :: 1 <= i < |users| ==> users[i] == users[1..][i - 1];
      }
      assert r.Some? ==> exists k :: 0 <= k < |users| && users[k] == r.value
                                     && forall j :: 0 <= j < k ==> !LiveWithEmail(users[j].val, email) by {
        if r.Some? {
          var k :| 0 <= k < |users[1..]| && users[1..][k] == r.value
                   && forall j :: 0 <= j < k ==> !LiveWithEmail(users[1..][j].val, email);
          assert users[k + 1] == r.value;
          assert forall j :: 1 <= j < k + 1 ==> users[j] == users[1..][j - 1];
        }
      }
      r
  }

  /** `generateAuthResponse` */
  function AuthResponseFor(crypto: Crypto, id: Id, u: User): (r: AuthResponse)
    ensures r.user == UserInfo(id, u.email) && r.expiresIn == crypto.accessTokenExpiration
    ensures r.accessToken == crypto.accessToken(id, u.email) && r.refreshToken == crypto.refreshToken(id)
  {
    AuthResponse(crypto.accessToken(id, u.email), crypto.refreshToken(id), crypto.accessTokenExpiration, UserInfo(id, u.email))
  }

  /** `signup`: the result and the new users. */
  function SignupEffect(crypto: Crypto, users: seq<Row<User>>, req: SignupRequest, now: Instant)
    : (out: (Result<AuthResponse>, seq<Row<User>>))
    ensures out.0.Err? <==> ExistsLiveEmail(users, req.email)
    ensures out.0.Err? ==> out.0.message == "Email already exists" && out.1 == users
    ensures out.0.Ok? ==>
              out.1 == users + [Row(FreshId(users), NewUser(req.email, crypto.encode(req.password), now))]
              && out.0.value == AuthResponseFor(crypto, FreshId(users), out.1[|users|].val)
  {
    if ExistsLiveEmail(users, req.email) then (Err("Email already exists"), users)
    else
      var u := NewUser(req.email, crypto.encode(req.password), now);
      var id := FreshId(users);
      (Ok(AuthResponseFor(crypto, id, u)), users + [Row(id, u)])
  }

  /** `login`: an unknown email and a wrong password fail alike. */
  function Login(crypto: Crypto, users: seq<Row<User>>, req: LoginRequest): (r: Result<AuthResponse>)
    ensures r.Err? ==> r.message == "Invalid credentials"
    ensures r.Ok? <==> FindByEmail(users, req.email).Some?
                       && crypto.matches(req.password, FindByEmail(users, req.email).value.val.passwordHash)
    ensures r.Ok? ==> r.value.user.email == req.email
  {
    match FindByEmail(users, req.email)
    case None => Err("Invalid credentials")
    case Some(row) =>
      if !crypto.matches(req.password, row.val.passwordHash) then Err("Invalid credentials")
      else Ok(AuthResponseFor(crypto, row.id, row.val))
  }

  /** No two live users share an email. */
  predicate LiveEmailsUnique(users: seq<Row<User>>) {
    forall i, j :: 0 <= i < j < |users| && users[i].val.deletedAt.None? && users[j].val.deletedAt.None?
      ==> users[i].val.email != users[j].val.email
  }

  /** Sign-up keeps live emails unique. */
  lemma SignupKeepsEmailsUnique(crypto: Crypto, users: seq<Row<User>>, req: SignupRequest, now: Instant)
    requires LiveEmailsUnique(users)
    ensures LiveEmailsUnique(SignupEffect(crypto, users, req, now).1)
  {
    var out := SignupEffect(crypto, users, req, now);
    if out.0.Ok? {
      var r := out.1;
      forall i, j | 0 <= i < j < |r| && r[i].val.deletedAt.None? && r[j].val.deletedAt.None?
        ensures r[i].val.email != r[j].val.email
      {
        assert r[i] == users[i];
        if j == |users| {
          assert !LiveWithEmail(users[i].val, req.email);
        } else {
          assert r[j] == users[j];
        }
      }
    }
  }

  /** With an encoder whose hashes match their own passwords, a user who has
      just signed up can log in with the same email and password, and gets
      the same tokens. */
  lemma {:induction false} SignupThenLogin(crypto: Crypto, users: seq<Row<User>>, req: SignupRequest, now: Instant)
    requires forall p :: crypto.matches(p, crypto.encode(p))
    requires SignupEffect(crypto, users, req, now).0.Ok?
    ensures var out := SignupEffect(crypto, users, req, now);
      Login(crypto, out.1, LoginRequest(req.email, req.password)) == out.0
  {
    var out := SignupEffect(crypto, users, req, now);
    FirstLiveIsAppended(users, out.1[|users|], req.email);
    assert out.1 == users + [out.1[|users|]];
  }

  /** When no earlier user is live with that email, the lookup finds the
      appended one. */
  lemma {:induction false} FirstLiveIsAppended(users: seq<Row<User>>, x: Row<User>, email: string)
    requires !ExistsLiveEmail(users, email) && LiveWithEmail(x.val, email)
    ensures FindByEmail(users + [x], email) == Some(x)
  {
    if users == [] {
      assert users + [x] == [x];
    } else {
      assert !LiveWithEmail(users[0].val, email);
      assert !ExistsLiveEmail(users[1..], email) by {
        assert forall i :: 0 <= i < |users[1..]| ==> users[1..][i] == users[i + 1];
      }
      FirstLiveIsAppended(users[1..], x, email);
      assert (users + [x])[1..] == users[1..] + [x];
    }
  }

  class AuthService {
    const users: Table<User>
    const crypto: Crypto

    ghost predicate Valid()
      reads this, users
    {
      users.Valid()
    }

    constructor (users: Table<User>, crypto: Crypto)
      ensures this.users == users && this.crypto == crypto
    {
      this.users := users;
      this.crypto := crypto;
    }

    method Signup(req: SignupRequest, now: Instant) returns (r: Result<AuthResponse>)
      requires Valid()
      modifies users
      ensures Valid()
      ensures (r, users.rows) == SignupEffect(crypto, old(users.rows), req, now)
    {
      if ExistsLiveEmail(users.rows, req.email) {
        return Err("Email already exists");
      }
      var user := NewUser(req.email, crypto.encode(req.password), now);
      var id := users.Insert(user);
      r := Ok(AuthResponseFor(crypto, id, user));
    }
  }
}
