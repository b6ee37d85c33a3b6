/**
 * The authentication endpoints as operations on the `users` table. The store is a
 * class whose one mutable field is the table; the hash function, the token codec
 * and the token configuration are fixed when it is created. Each fresh identifier
 * (`uuidv4()`) and the clock (`Date.now()`) are parameters of the operation.
 */
module AuthController {
  import opened Wrappers
  import opened Types
  import opened Jwt
  import opened Users
  import opened Http

  const InvalidCredentials := "Invalid email or password"
  const ResetSent := "If the email exists, a reset link has been sent"

  /** How long a password-reset token stays valid: one hour. */
  const ResetWindow: nat := 3600000

  /**
   * `generateTokens`: the same claims signed with the access secret and with the
   * refresh secret, each expiring its own lifetime after `now`.
   */
  function GenerateTokens(c: Codec, cfg: JwtConfig, p: Payload, now: nat): (pair: AuthTokens)
    ensures Faithful(c) ==> c.decode(pair.accessToken) == Some(Token(p, cfg.secret, now + cfg.expiresIn))
    ensures Faithful(c) ==> c.decode(pair.refreshToken) == Some(Token(p, cfg.refreshSecret, now + cfg.refreshExpiresIn))
  {
    AuthTokens(Sign(c, p, cfg.secret, cfg.expiresIn, now), Sign(c, p, cfg.refreshSecret, cfg.refreshExpiresIn, now))
  }

  /**
   * Both tokens carry `p`; each verifies under its own secret until its lifetime is
   * over, and when the secrets differ neither verifies under the other's secret.
   */
  lemma GeneratedTokensVerify(c: Codec, cfg: JwtConfig, p: Payload, now: nat, later: nat)
    requires Faithful(c)
    requires cfg.secret != cfg.refreshSecret
    ensures var pair := GenerateTokens(c, cfg, p, now);
      && Verify(c, pair.accessToken, cfg.secret, later) == (if later < now + cfg.expiresIn then Some(p) else None)
      && Verify(c, pair.refreshToken, cfg.refreshSecret, later) == (if later < now + cfg.refreshExpiresIn then Some(p) else None)
      && Verify(c, pair.refreshToken, cfg.secret, later) == None
      && Verify(c, pair.accessToken, cfg.refreshSecret, later) == None
  {
    SignThenVerify(c, p, cfg.secret, cfg.expiresIn, now, cfg.secret, later);
    SignThenVerify(c, p, cfg.refreshSecret, cfg.refreshExpiresIn, now, cfg.refreshSecret, later);
    SignThenVerify(c, p, cfg.refreshSecret, cfg.refreshExpiresIn, now, cfg.secret, later);
    SignThenVerify(c, p, cfg.secret, cfg.expiresIn, now, cfg.refreshSecret, later);
  }

  /** The body holds every field the insert binds to a NOT NULL column but the role. */
  predicate Complete(body: RegisterBody) {
    body.email.Some? && body.password.Some? && body.firstName.Some? && body.lastName.Some?
  }

  /** The row `register` inserts: lower-cased email, hashed password, active and verified. */
  function NewRow(hash: string -> Digest, body: RegisterBody, role: Role, now: nat): UserRow
    requires Complete(body)
  {
    UserRow(
      Lower(body.email.value), hash(body.password.value),
      Profile(body.firstName.value, body.lastName.value, body.phone, body.dateOfBirth, body.gender, body.address),
      role, true, true, None, None, None, None, now)
  }

  /** The claims of a stored user. */
  function PayloadOf(id: UserId, row: UserRow): Payload {
    Payload(id, row.email, row.role)
  }

  class Controller {
    var users: Table
    const hash: string -> Digest
    const codec: Codec
    const config: JwtConfig

    ghost predicate Valid()
      reads this
    {
      WellFormed(users)
    }

    constructor (initial: Table, hash: string -> Digest, codec: Codec, config: JwtConfig)
      requires WellFormed(initial)
      ensures Valid()
      ensures users == initial && this.hash == hash && this.codec == codec && this.config == config
    {
      this.users := initial;
      this.hash := hash;
      this.codec := codec;
      this.config := config;
    }

    /**
     * `POST /auth/register`. A body without an email fails before any query, with
     * 500 and no change. A taken (lower-cased) email answers 400 and changes
     * nothing. A missing password makes the hashing fail, again 500 with no change.
     * Otherwise the insert runs; it fails, with 500 and no change, when the new id
     * collides with a key, a name or the role is missing, or a CHECK constraint
     * rejects the role or the gender. A successful insert adds exactly the new row
     * and answers 201 with the password-free view of the row and a token pair for
     * its claims.
     */
    method Register(body: RegisterBody, newId: UserId, now: nat) returns (resp: Response)
      requires Valid()
      modifies this
      ensures Valid()
      ensures body.email.None? ==> resp == Failure(500, "Registration failed") && users == old(users)
      ensures body.email.Some? && EmailTaken(old(users), Lower(body.email.value)) ==>
        resp == Failure(400, "User already exists with this email") && users == old(users)
      ensures body.email.Some? && !EmailTaken(old(users), Lower(body.email.value))
              && (!Complete(body) || newId in old(users) || body.role.None? || ParseRole(body.role.value).None?
                  || !GenderAllowed(body.gender)) ==>
        resp == Failure(500, "Registration failed") && users == old(users)
      ensures Complete(body) && !EmailTaken(old(users), Lower(body.email.value)) && newId !in old(users)
              && GenderAllowed(body.gender) && body.role.Some? ==>
        forall role | ParseRole(body.role.value) == Some(role) ::
          var row := NewRow(hash, body, role, now);
          && users == old(users)[newId := row]
          && resp == Response(201, true, "Registration successful",
                              Session(View(newId, row), GenerateTokens(codec, config, PayloadOf(newId, row), now)))
    {
      if body.email.None? {
        resp := Failure(500, "Registration failed");
        return;
      }
      var email := Lower(body.email.value);
      if exists id :: id in users && users[id].email == email {
        resp := Failure(400, "User already exists with this email");
        return;
      }
      if !Complete(body) || newId in users || body.role.None? || ParseRole(body.role.value).None?
         || !GenderAllowed(body.gender) {
        resp := Failure(500, "Registration failed");
        return;
      }
      var row := NewRow(hash, body, ParseRole(body.role.value).value, now);
      LowerIsLower(body.email.value);
      InsertKeepsWellFormed(users, newId, row);
      users := users[newId := row];
      var tokens := GenerateTokens(codec, config, PayloadOf(newId, row), now);
      resp := Response(201, true, "Registration successful", Session(View(newId, row), tokens));
    }

    /**
     * `POST /auth/login`. A body without an email fails before the query, with 500
     * and no change. The checks then run in order: an unknown email, then an
     * inactive account (whatever the password), each 400; a missing password makes
     * the comparison fail, 500; then a wrong password, 400. None of these changes
     * anything. On success only the user's `last_login` changes, and the tokens
     * carry the stored id, email and role.
     */
    method Login(email: Option<string>, password: Option<string>, now: nat) returns (resp: Response)
      requires Valid()
      modifies this
      ensures Valid()
      ensures email.None? ==> resp == Failure(500, "Login failed") && users == old(users)
      ensures email.Some? && !EmailTaken(old(users), Lower(email.value)) ==>
        resp == Failure(400, InvalidCredentials) && users == old(users)
      ensures email.Some? ==> forall id | id in old(users) && old(users)[id].email == Lower(email.value) ::
        var row := old(users)[id];
        if !row.isActive then
          resp == Failure(400, "Account is deactivated") && users == old(users)
        else if password.None? then
          resp == Failure(500, "Login failed") && users == old(users)
        else if !Compare(hash, password.value, row.password) then
          resp == Failure(400, InvalidCredentials) && users == old(users)
        else
          && users == old(users)[id := row.(lastLogin := Some(now))]
          && resp == Response(200, true, "Login successful",
                              Session(View(id, row), GenerateTokens(codec, config, PayloadOf(id, row), now)))
    {
      if email.None? {
        resp := Failure(500, "Login failed");
        return;
      }
      var key := Lower(email.value);
      if !exists id :: id in users && users[id].email == key {
        resp := Failure(400, InvalidCredentials);
        return;
      }
      var id :| id in users && users[id].email == key;
      var row := users[id];
      if !row.isActive {
        resp := Failure(400, "Account is deactivated");
        return;
      }
      if password.None? {
        resp := Failure(500, "Login failed");
        return;
      }
      if !Compare(hash, password.value, row.password) {
        resp := Failure(400, InvalidCredentials);
        return;
      }
      var tokens := GenerateTokens(codec, config, PayloadOf(id, row), now);
      UpdateKeepsWellFormed(users, id, row.(lastLogin := Some(now)));
      users := users[id := row.(lastLogin := Some(now))];
      resp := Response(200, true, "Login successful", Session(View(id, row), tokens));
    }

    /**
     * `POST /auth/refresh`. A missing or empty token answers 400. A token that does
     * not verify under the refresh secret, or whose user is gone or inactive,
     * answers 401 with one message. Otherwise a new pair is issued for the claims
     * of the current row, not those of the presented token. Nothing changes.
     */
    method RefreshToken(token: Option<string>, now: nat) returns (resp: Response)
      ensures token.None? || token.value == "" ==> resp == Failure(400, "Refresh token required")
      ensures token.Some? && token.value != "" ==>
        match Verify(codec, token.value, config.refreshSecret, now)
        case None => resp == Failure(401, "Invalid refresh token")
        case Some(p) =>
          if p.id !in users || !users[p.id].isActive then resp == Failure(401, "Invalid refresh token")
          else resp == Response(200, true, "Token refreshed successfully",
                                Refreshed(GenerateTokens(codec, config, PayloadOf(p.id, users[p.id]), now)))
    {
      if token.None? || token.value == "" {
        resp := Failure(400, "Refresh token required");
        return;
      }
      var decoded := Verify(codec, token.value, config.refreshSecret, now);
      if decoded.None? {
        resp := Failure(401, "Invalid refresh token");
        return;
      }
      var id := decoded.value.id;
      if id !in users || !users[id].isActive {
        resp := Failure(401, "Invalid refresh token");
        return;
      }
      var tokens := GenerateTokens(codec, config, PayloadOf(id, users[id]), now);
      resp := Response(200, true, "Token refreshed successfully", Refreshed(tokens));
    }

    /** `POST /auth/logout`: always succeeds and, having no frame, changes nothing. */
    method Logout() returns (resp: Response)
      ensures resp.status == 200 && resp.success && resp.message == "Logged out successfully"
    {
      resp := Response(200, true, "Logged out successfully", NoData);
    }

    /**
     * `POST /auth/reset-password`. A body without an email string (nothing to
     * lower-case) answers 500 and changes nothing. Otherwise the answer is the same
     * whether or not the email belongs to an active user; only for such a user are
     * the reset token and its expiry, one hour ahead, stored. Nothing else changes.
     */
    method ResetPassword(email: Option<string>, resetToken: string, now: nat) returns (resp: Response)
      requires Valid()
      modifies this
      ensures Valid()
      ensures email.None? ==> resp == Failure(500, "Password reset failed") && users == old(users)
      ensures email.Some? ==> resp == Response(200, true, ResetSent, NoData)
      ensures email.Some? && (forall id | id in old(users) && old(users)[id].email == Lower(email.value) :: !old(users)[id].isActive) ==>
        users == old(users)
      ensures email.Some? ==>
        forall id | id in old(users) && old(users)[id].email == Lower(email.value) && old(users)[id].isActive ::
          users == old(users)[id := old(users)[id].(passwordResetToken := Some(resetToken),
                                                    passwordResetExpires := Some(now + ResetWindow))]
    {
      if email.None? {
        resp := Failure(500, "Password reset failed");
        return;
      }
      var key := Lower(email.value);
      if exists id :: id in users && users[id].email == key && users[id].isActive {
        var id :| id in users && users[id].email == key && users[id].isActive;
        var row := users[id].(passwordResetToken := Some(resetToken), passwordResetExpires := Some(now + ResetWindow));
        UpdateKeepsWellFormed(users, id, row);
        users := users[id := row];
      }
      resp := Response(200, true, ResetSent, NoData);
    }

    /**
     * `POST /auth/verify-email`. With no row holding the token (a missing token
     * matches nothing, as SQL NULL does) it answers 400 and changes nothing.
     * Otherwise one matching row is marked verified and its token cleared.
     */
    method VerifyEmail(token: Option<string>) returns (resp: Response)
      requires Valid()
      modifies this
      ensures Valid()
      ensures !HoldsToken(old(users), token) ==>
        resp == Failure(400, "Invalid verification token") && users == old(users)
      ensures HoldsToken(old(users), token) ==>
        && resp == Response(200, true, "Email verified successfully", NoData)
        && exists id :: id in old(users) && token.Some? && old(users)[id].emailVerificationToken == token
             && users == old(users)[id := old(users)[id].(isEmailVerified := true, emailVerificationToken := None)]
    {
      if !exists id :: id in users && token.Some? && users[id].emailVerificationToken == token {
        resp := Failure(400, "Invalid verification token");
        return;
      }
      var id :| id in users && token.Some? && users[id].emailVerificationToken == token;
      var row := users[id].(isEmailVerified := true, emailVerificationToken := None);
      UpdateKeepsWellFormed(users, id, row);
      users := users[id := row];
      resp := Response(200, true, "Email verified successfully", NoData);
    }
  }

  /** Some row holds the (present) verification token. */
  predicate HoldsToken(t: Table, token: Option<string>) {
    exists id :: id in t && token.Some? && t[id].emailVerificationToken == token
  }
}

/**
 * What a caller of the store can derive from the contracts alone: registering
 * "a@x.com" and logging in as "A@X.com" with the same password succeeds with the
 * patient claims, and registering "A@x.COM" afterwards is refused as a duplicate.
 */
module AuthScenarios {
  import opened Wrappers
  import opened Types
  import opened Users
  import opened Http
  import opened AuthController

  method CaseInsensitiveAccount(c: Controller, id: UserId, otherId: UserId, now: nat)
    returns (login: Response, again: Response)
    requires c.Valid() && !EmailTaken(c.users, "a@x.com") && id !in c.users
    modifies c
    ensures c.Valid()
    ensures login.status == 200 && login.data.Session?
    ensures login.data.tokens == GenerateTokens(c.codec, c.config, Payload(id, "a@x.com", Patient), now)
    ensures again == Failure(400, "User already exists with this email")
  {
    var body := RegisterBody(Some("a@x.com"), Some("secret1"), Some("Ann"), Some("Lee"), Some("patient"), None, None, None, None);
    LowerPointwise("a@x.com", "a@x.com");
    LowerPointwise("A@X.com", "a@x.com");
    LowerPointwise("A@x.COM", "a@x.com");
    assert ParseRole("patient") == Some(Patient);
    assert GenderAllowed(None);
    var registered := c.Register(body, id, now);
    assert c.users == old(c.users)[id := NewRow(c.hash, body, Patient, now)];
    assert c.users[id].email == "a@x.com";
    assert EmailTaken(c.users, "a@x.com");
    ghost var row := c.users[id];
    assert row.isActive && Compare(c.hash, "secret1", row.password);
    login := c.Login(Some("A@X.com"), Some("secret1"), now);
    assert login.data.tokens == GenerateTokens(c.codec, c.config, Payload(id, "a@x.com", Patient), now);
    assert c.users[id].email == "a@x.com";
    assert EmailTaken(c.users, Lower("A@x.COM"));
    again := c.Register(body.(email := Some("A@x.COM")), otherId, now);
  }
}
