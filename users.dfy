/**
 * The `users` table as an abstract store: a map from the primary key `id` to the
 * row. Its constraints are the UNIQUE email, the CHECK on `role` (enforced by the
 * `Role` type) and the CHECK on `gender`; every stored email is also in lower case,
 * because every writer lower-cases it first.
 */
module Users {
  import opened Wrappers
  import opened Types

  type UserId = string

  /** A password hash as stored in the `password` column. */
  type Digest = string

  /** The descriptive columns, stored as the client sent them. */
  datatype Profile = Profile(
    firstName: string,
    lastName: string,
    phone: Option<string>,
    dateOfBirth: Option<string>,
    gender: Option<string>,
    address: Option<string>)

  /** One row; optional columns are `None` when NULL. Instants are milliseconds. */
  datatype UserRow = UserRow(
    email: string,
    password: Digest,
    profile: Profile,
    role: Role,
    isActive: bool,
    isEmailVerified: bool,
    emailVerificationToken: Option<string>,
    passwordResetToken: Option<string>,
    passwordResetExpires: Option<nat>,
    lastLogin: Option<nat>,
    createdAt: nat)

  type Table = map<UserId, UserRow>

  /** `bcrypt.compare(password, stored)` for a hash function `hash`. */
  predicate Compare(hash: string -> Digest, password: string, stored: Digest) {
    stored == hash(password)
  }

  /** The `gender` CHECK constraint; NULL passes it. */
  predicate GenderAllowed(g: Option<string>) {
    g.None? || g.value == "male" || g.value == "female" || g.value == "other"
  }

  /** `toLowerCase` on one character (the ASCII letters). */
  function LowerChar(c: char): char {
    if 'A' <= c <= 'Z' then (c as int + 32) as char else c
  }

  predicate IsUpper(c: char) {
    'A' <= c <= 'Z'
  }

  /** A string with no upper-case letter. */
  predicate IsLower(s: string) {
    forall i :: 0 <= i < |s| ==> !IsUpper(s[i])
  }

  /**
   * `String.prototype.toLowerCase` (the ASCII letters): the length is kept and
   * every character is lower-cased on its own.
   */
  function Lower(s: string): (r: string)
    ensures |r| == |s|
    ensures forall i :: 0 <= i < |s| ==> r[i] == LowerChar(s[i])
  {
    if s == [] then [] else [LowerChar(s[0])] + Lower(s[1..])
  }

  /** A string that agrees character by character with the lower case of `s` is `Lower(s)`. */
  lemma LowerPointwise(s: string, r: string)
    requires |r| == |s| && forall i :: 0 <= i < |s| ==> r[i] == LowerChar(s[i])
    ensures Lower(s) == r
  {
  }

  /** The result of lower-casing is in lower case. */
  lemma LowerIsLower(s: string)
    ensures IsLower(Lower(s))
  {
  }

  /** A string already in lower case is its own lower case. */
  lemma {:induction false} LowerOfLower(s: string)
    requires IsLower(s)
    ensures Lower(s) == s
  {
    if s != [] {
      LowerOfLower(s[1..]);
    }
  }

  /** Lower-casing twice is lower-casing once. */
  lemma LowerIdempotent(s: string)
    ensures Lower(Lower(s)) == Lower(s)
  {
    LowerIsLower(s);
    LowerOfLower(Lower(s));
  }

  /** Some row has email `e`. */
  predicate EmailTaken(t: Table, e: string) {
    exists id :: id in t && t[id].email == e
  }

  /**
   * The table's constraints and the invariants every operation keeps; the last
   * conjunct is the UNIQUE constraint: an email names at most one row.
   */
  ghost predicate WellFormed(t: Table) {
    && (forall id | id in t ::
          && IsLower(t[id].email)
          && GenderAllowed(t[id].profile.gender)
          && (t[id].passwordResetToken.Some? <==> t[id].passwordResetExpires.Some?))
    && (forall a, b | a in t && b in t && t[a].email == t[b].email :: a == b)
  }

  /** Inserting a row under a new key with a new lower-case email keeps the table well formed. */
  lemma InsertKeepsWellFormed(t: Table, id: UserId, row: UserRow)
    requires WellFormed(t)
    requires id !in t && !EmailTaken(t, row.email)
    requires IsLower(row.email) && GenderAllowed(row.profile.gender)
    requires row.passwordResetToken.Some? <==> row.passwordResetExpires.Some?
    ensures WellFormed(t[id := row])
  {
  }

  /** Changing columns of a row other than its email keeps the table well formed. */
  lemma UpdateKeepsWellFormed(t: Table, id: UserId, row: UserRow)
    requires WellFormed(t)
    requires id in t && row.email == t[id].email && row.profile == t[id].profile
    requires row.passwordResetToken.Some? <==> row.passwordResetExpires.Some?
    ensures WellFormed(t[id := row])
  {
  }

  /** The user as the API returns it: every column the client may see, and no password. */
  datatype PublicUser = PublicUser(id: UserId, email: string, profile: Profile, role: Role, isActive: bool, createdAt: nat)

  function View(id: UserId, row: UserRow): PublicUser {
    PublicUser(id, row.email, row.profile, row.role, row.isActive, row.createdAt)
  }

  /**
   * The view reveals nothing of the password hash or of the tokens: rows that
   * differ only there look the same.
   */
  lemma ViewHidesSecrets(id: UserId, row: UserRow, other: UserRow)
    requires other == row.(password := other.password, emailVerificationToken := other.emailVerificationToken,
                           passwordResetToken := other.passwordResetToken)
    ensures View(id, row) == View(id, other)
  {
  }
}
