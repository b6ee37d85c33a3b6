/**
 * The request-authentication middleware. A request carries its `Authorization`
 * header and, once authenticated, the identity attached as `req.user`. Each
 * middleware either calls `next()` (outcome `Next`) or answers the request.
 */
module AuthMiddleware {
  import opened Wrappers
  import opened Types
  import opened Jwt
  import opened Users
  import opened Http
  import opened Strings

  /** The identity attached to an authenticated request. */
  datatype ReqUser = ReqUser(id: UserId, email: string, role: Role)

  const BearerPrefix := "Bearer "

  /** The credential of a `Bearer ` header: the header from index 7 on. */
  function BearerToken(header: Option<string>): (t: Option<string>)
    ensures t.Some? <==> header.Some? && StartsWith(header.value, BearerPrefix)
    ensures t.Some? ==> header.value == BearerPrefix + t.value
  {
    if header.Some? && StartsWith(header.value, BearerPrefix) then Some(header.value[|BearerPrefix|..])
    else None
  }

  /** Prefixing a credential with `Bearer ` and extracting it gives it back. */
  lemma BearerRoundTrip(token: string)
    ensures BearerToken(Some(BearerPrefix + token)) == Some(token)
  {
    assert (BearerPrefix + token)[..7] == BearerPrefix;
    assert (BearerPrefix + token)[7..] == token;
  }

  /** How far a request's credential gets. */
  datatype Resolution = NoBearer | BadToken | UserNotFound | Deactivated | Resolved(user: ReqUser)

  /**
   * The checks `authenticate` and `optionalAuth` share: a `Bearer ` header, a token
   * that verifies under the access secret, a row for its id, and an active row. A
   * resolved identity is taken from the row, not from the token's claims.
   */
  function Resolve(users: Table, c: Codec, secret: string, header: Option<string>, now: nat): (r: Resolution)
    ensures r == NoBearer <==> BearerToken(header).None?
    ensures r == BadToken <==> BearerToken(header).Some? && Verify(c, BearerToken(header).value, secret, now).None?
    ensures r == UserNotFound <==>
      && BearerToken(header).Some?
      && Verify(c, BearerToken(header).value, secret, now).Some?
      && Verify(c, BearerToken(header).value, secret, now).value.id !in users
    ensures r == Deactivated <==>
      && BearerToken(header).Some?
      && Verify(c, BearerToken(header).value, secret, now).Some?
      && Verify(c, BearerToken(header).value, secret, now).value.id in users
      && !users[Verify(c, BearerToken(header).value, secret, now).value.id].isActive
    ensures r.Resolved? <==>
      && BearerToken(header).Some?
      && Verify(c, BearerToken(header).value, secret, now).Some?
      && Verify(c, BearerToken(header).value, secret, now).value.id in users
      && users[Verify(c, BearerToken(header).value, secret, now).value.id].isActive
    ensures r.Resolved? ==>
      && r.user.id == Verify(c, BearerToken(header).value, secret, now).value.id
      && r.user == ReqUser(r.user.id, users[r.user.id].email, users[r.user.id].role)
  {
    match BearerToken(header)
    case None => NoBearer
    case Some(token) =>
      match Verify(c, token, secret, now)
      case None => BadToken
      case Some(p) =>
        if p.id !in users then UserNotFound
        else if !users[p.id].isActive then Deactivated
        else Resolved(ReqUser(p.id, users[p.id].email, users[p.id].role))
  }

  /**
   * A deactivated user is refused even with an unexpired, correctly signed token:
   * their token resolves to `Deactivated`.
   */
  lemma DeactivatedUserRefused(users: Table, c: Codec, cfg: JwtConfig, id: UserId, now: nat, later: nat)
    requires Faithful(c)
    requires id in users && !users[id].isActive
    requires later < now + cfg.expiresIn
    ensures Resolve(users, c, cfg.secret, Some(BearerPrefix + Sign(c, Payload(id, users[id].email, users[id].role), cfg.secret, cfg.expiresIn, now)), later)
            == Deactivated
  {
    var p := Payload(id, users[id].email, users[id].role);
    var token := Sign(c, p, cfg.secret, cfg.expiresIn, now);
    BearerRoundTrip(token);
    SignThenVerify(c, p, cfg.secret, cfg.expiresIn, now, cfg.secret, later);
  }

  /** The header "Bearer " with nothing after it is a token that fails verification. */
  lemma EmptyBearerRefused(users: Table, c: Codec, secret: string, now: nat)
    requires Faithful(c)
    ensures Resolve(users, c, secret, Some(BearerPrefix), now) == BadToken
  {
    assert BearerPrefix[7..] == "";
  }

  /** An active user's unexpired access token resolves to the identity stored in their row. */
  lemma ActiveUserResolved(users: Table, c: Codec, cfg: JwtConfig, id: UserId, claims: Payload, now: nat, later: nat)
    requires Faithful(c)
    requires claims.id == id && id in users && users[id].isActive
    requires later < now + cfg.expiresIn
    ensures Resolve(users, c, cfg.secret, Some(BearerPrefix + Sign(c, claims, cfg.secret, cfg.expiresIn, now)), later)
            == Resolved(ReqUser(id, users[id].email, users[id].role))
  {
    var token := Sign(c, claims, cfg.secret, cfg.expiresIn, now);
    BearerRoundTrip(token);
    SignThenVerify(c, claims, cfg.secret, cfg.expiresIn, now, cfg.secret, later);
  }

  /** An incoming request: its `Authorization` header and the identity middleware attach. */
  class Request {
    const authorization: Option<string>
    var user: Option<ReqUser>

    constructor (authorization: Option<string>)
      ensures this.authorization == authorization && user.None?
    {
      this.authorization := authorization;
      this.user := None;
    }
  }

  /**
   * `authenticate`: every failed check answers 401 with its own message and leaves
   * `req.user` alone; on success `req.user` is the identity from the row and `next`
   * is called.
   */
  method Authenticate(req: Request, users: Table, c: Codec, cfg: JwtConfig, now: nat) returns (out: Outcome)
    modifies req`user
    ensures match Resolve(users, c, cfg.secret, req.authorization, now)
      case Resolved(u) => out == Next && req.user == Some(u)
      case NoBearer => out == Halt(Failure(401, "Access token required")) && req.user == old(req.user)
      case BadToken => out == Halt(Failure(401, "Invalid or expired token")) && req.user == old(req.user)
      case UserNotFound => out == Halt(Failure(401, "User not found")) && req.user == old(req.user)
      case Deactivated => out == Halt(Failure(401, "Account deactivated")) && req.user == old(req.user)
  {
    var token := BearerToken(req.authorization);
    if token.None? {
      return Halt(Failure(401, "Access token required"));
    }
    var decoded := Verify(c, token.value, cfg.secret, now);
    if decoded.None? {
      return Halt(Failure(401, "Invalid or expired token"));
    }
    var id := decoded.value.id;
    if id !in users {
      return Halt(Failure(401, "User not found"));
    }
    var row := users[id];
    if !row.isActive {
      return Halt(Failure(401, "Account deactivated"));
    }
    req.user := Some(ReqUser(id, row.email, row.role));
    out := Next;
  }

  /**
   * `authorize(roles)`: no identity answers 401, a role outside the allow-list 403,
   * and only an identity whose role is listed passes to `next`.
   */
  function Authorize(roles: seq<Role>, user: Option<ReqUser>): (out: Outcome)
    ensures out == Next <==> user.Some? && user.value.role in roles
    ensures user.None? ==> out == Halt(Failure(401, "Authentication required"))
    ensures user.Some? && user.value.role !in roles ==> out == Halt(Failure(403, "Insufficient permissions"))
  {
    if user.None? then Halt(Failure(401, "Authentication required"))
    else if user.value.role !in roles then Halt(Failure(403, "Insufficient permissions"))
    else Next
  }

  /** An empty allow-list refuses every authenticated request with 403. */
  lemma EmptyAllowListRefusesAll(u: ReqUser)
    ensures Authorize([], Some(u)) == Halt(Failure(403, "Insufficient permissions"))
  {
  }

  /**
   * `optionalAuth`: always calls `next` and never answers; `req.user` is set exactly
   * when the credential resolves to an active user.
   */
  method OptionalAuth(req: Request, users: Table, c: Codec, cfg: JwtConfig, now: nat) returns (out: Outcome)
    modifies req`user
    ensures out == Next
    ensures match Resolve(users, c, cfg.secret, req.authorization, now)
      case Resolved(u) => req.user == Some(u)
      case _ => req.user == old(req.user)
  {
    var token := BearerToken(req.authorization);
    if token.Some? {
      var decoded := Verify(c, token.value, cfg.secret, now);
      if decoded.Some? && decoded.value.id in users && users[decoded.value.id].isActive {
        var row := users[decoded.value.id];
        req.user := Some(ReqUser(decoded.value.id, row.email, row.role));
      }
    }
    out := Next;
  }
}
