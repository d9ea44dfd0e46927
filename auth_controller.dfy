/** `AuthController`: the HTTP answers of sign-up, log-in and log-out, the
    bearer token of the `Authorization` header (section 2.1 of RFC 6750), and
    the token blacklist that log-out feeds. Token validation and expiry
    lookup are library calls taken as given functions. */
module AuthController {
  import opened Common
  import AuthService

  const BearerPrefix := "Bearer "

  /** `getTokenFromRequest`: the text after "Bearer " when the header is
      present and starts with it, otherwise null. */
  function TokenFromHeader(header: Option<string>): (t: Option<string>)
    ensures t.Some? <==> header.Some? && StartsWith(header.value, BearerPrefix)
    ensures t.Some? ==> header.value == BearerPrefix + t.value
  {
    if header.Some? && StartsWith(header.value, BearerPrefix) then
      assert header.value == header.value[..7] + header.value[7..];
      Some(header.value[7..])
    else None
  }

  /** Any token sent as "Bearer <token>" is read back unchanged. */
  lemma BearerRoundTrip(token: string)
    ensures TokenFromHeader(Some(BearerPrefix + token)) == Some(token)
  {
    assert (BearerPrefix + token)[..7] == BearerPrefix;
    assert (BearerPrefix + token)[7..] == token;
  }

  /** A response entity: the status code and the body. */
  datatype Answer<T> = Answer(status: int, body: Option<T>)

  /** `signup`: 201 with the service's response; a thrown error propagates. */
  function Signup(r: Result<AuthService.AuthResponse>): (a: Result<Answer<AuthService.AuthResponse>>)
    ensures a.Ok? <==> r.Ok?
    ensures a.Ok? ==> a.value.status == 201 && a.value.body == Some(r.value)
    ensures a.Err? ==> a.message == r.message
  {
    match r
    case Ok(v) => Ok(Answer(201, Some(v)))
    case Err(m) => Err(m)
  }

  /** `login`: 200 with the service's response; a thrown error propagates. */
  function Login(r: Result<AuthService.AuthResponse>): (a: Result<Answer<AuthService.AuthResponse>>)
    ensures a.Ok? <==> r.Ok?
    ensures a.Ok? ==> a.value.status == 200 && a.value.body == Some(r.value)
    ensures a.Err? ==> a.message == r.message
  {
    match r
    case Ok(v) => Ok(Answer(200, Some(v)))
    case Err(m) => Err(m)
  }

  /** The time a presented token still has to live, when log-out is to
      blacklist it: the token is present and valid, its expiry is known, and
      that expiry lies after `now`. */
  function RemainingLife(header: Option<string>, valid: string -> bool, expiration: string -> Option<Instant>,
                         now: Instant): (ttl: Option<(string, int)>)
    ensures ttl.Some? <==> TokenFromHeader(header).Some? && valid(TokenFromHeader(header).value)
                           && expiration(TokenFromHeader(header).value).Some?
                           && expiration(TokenFromHeader(header).value).value > now
    ensures ttl.Some? ==> ttl.value.0 == TokenFromHeader(header).value && ttl.value.1 > 0
                          && ttl.value.1 == expiration(ttl.value.0).value - now
  {
    match TokenFromHeader(header)
    case None => None
    case Some(token) =>
      if !valid(token) then None
      else
        match expiration(token)
        case None => None
        case Some(exp) => if exp - now > 0 then Some((token, exp - now)) else None
  }

  /** The controller, with the blacklist store (token to time-to-live in
      milliseconds) that `logout` writes to. */
  class AuthController {
    var blacklist: map<string, int>

    constructor ()
      ensures blacklist == map[]
    {
      blacklist := map[];
    }

    /** `logout`: always 200; blacklists the token only while it still has
        time to live, for exactly that time. */
    method Logout(header: Option<string>, valid: string -> bool, expiration: string -> Option<Instant>, now: Instant)
      returns (a: Answer<()>)
      modifies this
      ensures a == Answer(200, None)
      ensures RemainingLife(header, valid, expiration, now).None? ==> blacklist == old(blacklist)
      ensures RemainingLife(header, valid, expiration, now).Some? ==>
                var (token, ttl) := RemainingLife(header, valid, expiration, now).value;
                blacklist == old(blacklist)[token := ttl]
    {
      var token := TokenFromHeader(header);
      if token.Some? && valid(token.value) {
        var exp := expiration(token.value);
        if exp.Some? {
          var remaining := exp.value - now;
          if remaining > 0 {
            blacklist := blacklist[token.value := remaining];
          }
        }
      }
      a := Answer(200, None);
    }
  }
}
