/**
 * The shared vocabulary of server and client: the closed role enumeration and the
 * identity claims carried by a signed token.
 */
module Types {
  import opened Wrappers

  /** The four roles; the server and the client declare the same enumeration. */
  datatype Role = Patient | Doctor | Nurse | Admin

  /** The string value each role has on the wire and in the `users.role` column. */
  function RoleName(r: Role): string {
    match r
    case Patient => "patient"
    case Doctor => "doctor"
    case Nurse => "nurse"
    case Admin => "admin"
  }

  /** Reads a role string; exactly the four enumeration values are accepted. */
  function ParseRole(s: string): (r: Option<Role>)
    ensures r.Some? ==> RoleName(r.value) == s
    ensures r.None? ==> forall x: Role :: RoleName(x) != s
  {
    if s == "patient" then Some(Patient)
    else if s == "doctor" then Some(Doctor)
    else if s == "nurse" then Some(Nurse)
    else if s == "admin" then Some(Admin)
    else None
  }

  /** Printing a role and reading it back gives the same role. */
  lemma ParseRoleName(r: Role)
    ensures ParseRole(RoleName(r)) == Some(r)
  {
  }

  /** The claims signed into every token: identity and role. */
  datatype Payload = Payload(id: string, email: string, role: Role)

  /** The pair handed out by registration, login and refresh. */
  datatype AuthTokens = AuthTokens(accessToken: string, refreshToken: string)
}
