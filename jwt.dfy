/**
 * Signed tokens, abstracted. A token is its claims, the secret it was signed with
 * and its expiry instant; how it is written as text is left to a codec, of which
 * the model only assumes that decoding undoes encoding. Verification succeeds
 * exactly when the text decodes, the secret matches and the token has not expired.
 * Instants and lifetimes are milliseconds.
 */
module Jwt {
  import opened Wrappers
  import opened Types

  datatype Token = Token(payload: Payload, secret: string, expiry: nat)

  /** The text form of tokens: `encode` stands for signing, `decode` for parsing and checking the signature. */
  datatype Codec = Codec(encode: Token -> string, decode: string -> Option<Token>)

  /** Decoding recovers every encoded token, and the empty text is no token. */
  ghost predicate Faithful(c: Codec) {
    && (forall t: Token :: c.decode(c.encode(t)) == Some(t))
    && c.decode("") == None
  }

  /** The secrets and lifetimes of the access and refresh tokens. */
  datatype JwtConfig = JwtConfig(secret: string, expiresIn: nat, refreshSecret: string, refreshExpiresIn: nat)

  const Day: nat := 24 * 60 * 60 * 1000

  /** The configuration used when the environment sets nothing: 7 days and 30 days. */
  const DefaultConfig: JwtConfig :=
    JwtConfig("your-super-secret-jwt-key-change-in-production", 7 * Day, "your-refresh-secret", 30 * Day)

  /** The default access and refresh secrets differ. */
  lemma DefaultSecretsDiffer()
    ensures DefaultConfig.secret != DefaultConfig.refreshSecret
    ensures DefaultConfig.expiresIn < DefaultConfig.refreshExpiresIn
  {
    assert |DefaultConfig.secret| != |DefaultConfig.refreshSecret|;
  }

  /** `jwt.sign(payload, secret, {expiresIn: ttl})` at instant `now`. */
  function Sign(c: Codec, p: Payload, secret: string, ttl: nat, now: nat): string {
    c.encode(Token(p, secret, now + ttl))
  }

  /** `jwt.verify(text, secret)` at instant `now`: the claims, or nothing when it throws. */
  function Verify(c: Codec, text: string, secret: string, now: nat): (r: Option<Payload>)
    ensures r.Some? ==> exists t: Token :: c.decode(text) == Some(t) && t.secret == secret && now < t.expiry && t.payload == r.value
  {
    match c.decode(text)
    case None => None
    case Some(t) => if t.secret == secret && now < t.expiry then Some(t.payload) else None
  }

  /** The empty text never verifies. */
  lemma EmptyTokenRejected(c: Codec, secret: string, now: nat)
    requires Faithful(c)
    ensures Verify(c, "", secret, now) == None
  {
  }

  /** A signed token verifies under its own secret until it expires, and never under another secret. */
  lemma SignThenVerify(c: Codec, p: Payload, secret: string, ttl: nat, now: nat, key: string, later: nat)
    requires Faithful(c)
    ensures Verify(c, Sign(c, p, secret, ttl, now), key, later)
            == if key == secret && later < now + ttl then Some(p) else None
  {
    var t := Token(p, secret, now + ttl);
    assert c.decode(c.encode(t)) == Some(t);
  }
}
