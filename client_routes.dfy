/**
 * The client's route table and its guard. Paths are the location's pathname; the
 * signed-in user is the one held in the client's session store, with the role
 * value as the server sent it.
 */
module ClientRoutes {
  import opened Wrappers
  import opened Types
  import opened Strings

  /** The signed-in user as the client holds it (only the role matters here). */
  datatype ClientUser = ClientUser(role: string)

  /** What navigating to a route shows: the route's element, or a replacing redirect. */
  datatype View = Render | RedirectTo(path: string)

  /** `allowedRoles.includes(role)`. */
  predicate Includes(allowed: seq<Role>, role: string) {
    exists r :: r in allowed && RoleName(r) == role
  }

  /**
   * `ProtectedRoute`: without a session or a user it redirects to `/login` (before
   * any role check); a user whose role is not allowed goes to `/unauthorized`;
   * anyone else sees the children.
   */
  function ProtectedRoute(isAuthenticated: bool, user: Option<ClientUser>, allowedRoles: seq<Role>): (v: View)
    ensures v == RedirectTo("/login") <==> !isAuthenticated || user.None?
    ensures v == RedirectTo("/unauthorized") <==> isAuthenticated && user.Some? && !Includes(allowedRoles, user.value.role)
    ensures v == Render <==> isAuthenticated && user.Some? && Includes(allowedRoles, user.value.role)
  {
    if !isAuthenticated || user.None? then RedirectTo("/login")
    else if !Includes(allowedRoles, user.value.role) then RedirectTo("/unauthorized")
    else Render
  }

  /** The route groups of the table. */
  datatype Area = IndexRoute | LoginPage | RegisterPage | PatientArea | ProviderArea | AdminArea | UnauthorizedPage | NotFound

  /** A section route (`patient/` and the like, with its splat) matches the section itself and everything below it. */
  predicate InSection(path: string, section: string) {
    path == "/" + section || StartsWith(path, "/" + section + "/")
  }

  /** A path in a section starts with `/` and the section's first two letters. */
  lemma SectionStart(path: string, section: string)
    requires |section| >= 2
    ensures InSection(path, section) ==> |path| > 2 && path[1] == section[0] && path[2] == section[1]
  {
    if InSection(path, section) && path != "/" + section {
      assert path[..|section| + 2] == "/" + section + "/";
      assert path[1] == path[..|section| + 2][1];
      assert path[2] == path[..|section| + 2][2];
    }
  }

  /**
   * Which route of the table a pathname matches. The table is unambiguous: each
   * group is characterised by its own paths alone.
   */
  function AreaOf(path: string): (a: Area)
    ensures a == IndexRoute <==> path == "/"
    ensures a == LoginPage <==> path == "/login"
    ensures a == RegisterPage <==> path == "/register"
    ensures a == PatientArea <==> InSection(path, "patient")
    ensures a == ProviderArea <==> InSection(path, "provider")
    ensures a == AdminArea <==> InSection(path, "admin")
    ensures a == UnauthorizedPage <==> path == "/unauthorized"
  {
    SectionStart(path, "patient");
    SectionStart(path, "provider");
    SectionStart(path, "admin");
    if path == "/" then IndexRoute
    else if path == "/login" then LoginPage
    else if path == "/register" then RegisterPage
    else if InSection(path, "patient") then PatientArea
    else if InSection(path, "provider") then ProviderArea
    else if InSection(path, "admin") then AdminArea
    else if path == "/unauthorized" then UnauthorizedPage
    else NotFound
  }

  /** The allow-list each guarded route group passes to `ProtectedRoute`. */
  function AllowedRoles(a: Area): seq<Role> {
    match a
    case PatientArea => [Patient]
    case ProviderArea => [Doctor, Nurse]
    case AdminArea => [Admin]
    case _ => []
  }

  /** The index route's target: the patient dashboard for any session, `/login` otherwise. */
  function IndexTarget(isAuthenticated: bool): string {
    if isAuthenticated then "/patient/dashboard" else "/login"
  }

  /**
   * Navigating to `path`. The public pages always render; a redirect goes to
   * `/login`, `/unauthorized` or (from the index) the patient dashboard, and
   * `/unauthorized` is reached only by a signed-in user whose role the matched
   * group does not allow.
   */
  function Visit(isAuthenticated: bool, user: Option<ClientUser>, path: string): (v: View)
    ensures AreaOf(path) in {LoginPage, RegisterPage, UnauthorizedPage, NotFound} ==> v == Render
    ensures v.RedirectTo? ==> v.path in {"/login", "/unauthorized", "/patient/dashboard"}
    ensures v == RedirectTo("/unauthorized") ==>
      isAuthenticated && user.Some? && !Includes(AllowedRoles(AreaOf(path)), user.value.role)
  {
    match AreaOf(path)
    case IndexRoute => RedirectTo(IndexTarget(isAuthenticated))
    case PatientArea => ProtectedRoute(isAuthenticated, user, AllowedRoles(PatientArea))
    case ProviderArea => ProtectedRoute(isAuthenticated, user, AllowedRoles(ProviderArea))
    case AdminArea => ProtectedRoute(isAuthenticated, user, AllowedRoles(AdminArea))
    case _ => Render
  }

  /** Each `/section/...` path falls in its own route group. */
  lemma AreaOfSection(path: string)
    ensures StartsWith(path, "/patient/") ==> AreaOf(path) == PatientArea
    ensures StartsWith(path, "/provider/") ==> AreaOf(path) == ProviderArea
    ensures StartsWith(path, "/admin/") ==> AreaOf(path) == AdminArea
  {
    if StartsWith(path, "/patient/") {
      assert path[1] == 'p' && path[2] == 'a';
      assert path[..9] == "/" + "patient" + "/";
    }
    if StartsWith(path, "/provider/") {
      assert path[1] == 'p' && path[2] == 'r';
      assert !StartsWith(path, "/" + "patient" + "/");
      assert path[..10] == "/" + "provider" + "/";
    }
    if StartsWith(path, "/admin/") {
      assert path[1] == 'a';
      assert !StartsWith(path, "/" + "patient" + "/") && !StartsWith(path, "/" + "provider" + "/");
      assert path[..7] == "/" + "admin" + "/";
    }
  }

  /** The per-prefix allow-lists: patient only, doctor and nurse, admin only. */
  lemma SectionAllowLists(r: Role, path: string)
    ensures StartsWith(path, "/patient/") ==>
      (Visit(true, Some(ClientUser(RoleName(r))), path) == Render <==> r == Patient)
    ensures StartsWith(path, "/provider/") ==>
      (Visit(true, Some(ClientUser(RoleName(r))), path) == Render <==> r == Doctor || r == Nurse)
    ensures StartsWith(path, "/admin/") ==>
      (Visit(true, Some(ClientUser(RoleName(r))), path) == Render <==> r == Admin)
  {
    AreaOfSection(path);
  }

  /** Without a session every guarded path redirects to `/login`. */
  lemma GuardedNeedsSession(user: Option<ClientUser>, path: string)
    requires StartsWith(path, "/patient/") || StartsWith(path, "/provider/") || StartsWith(path, "/admin/")
    ensures Visit(false, user, path) == RedirectTo("/login")
  {
    AreaOfSection(path);
  }

  /**
   * The index route sends every session to `/patient/dashboard` whatever the role,
   * and no session to `/login`; a signed-in user who is not a patient is then sent
   * on to `/unauthorized`.
   */
  lemma IndexRedirects(user: Option<ClientUser>, r: Role)
    ensures Visit(false, user, "/") == RedirectTo("/login")
    ensures Visit(true, user, "/") == RedirectTo("/patient/dashboard")
    ensures Visit(true, Some(ClientUser(RoleName(r))), "/patient/dashboard")
            == if r == Patient then Render else RedirectTo("/unauthorized")
  {
    SectionAllowLists(r, "/patient/dashboard");
    assert StartsWith("/patient/dashboard", "/patient/");
  }
}
