/** The navigation bar's dashboard link. */
module Navbar {
  import opened Wrappers
  import opened Types
  import opened ClientRoutes
  import opened Strings

  /**
   * `getDashboardLink`: `/login` without a user, the admin dashboard for admins,
   * the provider dashboard for doctors and nurses, and the patient dashboard for
   * patients and any other role value.
   */
  function GetDashboardLink(user: Option<ClientUser>): (link: string)
    ensures user.None? <==> link == "/login"
    ensures user.Some? ==> (link == "/admin/dashboard" <==> user.value.role == "admin")
    ensures user.Some? ==> (link == "/provider/dashboard" <==> user.value.role in {"doctor", "nurse"})
    ensures user.Some? ==> (link == "/patient/dashboard" <==> user.value.role !in {"admin", "doctor", "nurse"})
  {
    if user.None? then "/login"
    else match user.value.role
      case "admin" => "/admin/dashboard"
      case "doctor" => "/provider/dashboard"
      case "nurse" => "/provider/dashboard"
      case _ => "/patient/dashboard"
  }

  /** Every role's dashboard link is admitted by that role's route guard. */
  lemma DashboardLinkAdmitted(r: Role)
    ensures var u := Some(ClientUser(RoleName(r)));
      Visit(true, u, GetDashboardLink(u)) == Render
  {
    var link := GetDashboardLink(Some(ClientUser(RoleName(r))));
    match r
    case Patient => assert StartsWith(link, "/patient/"); SectionAllowLists(r, link);
    case Doctor => assert StartsWith(link, "/provider/"); SectionAllowLists(r, link);
    case Nurse => assert StartsWith(link, "/provider/"); SectionAllowLists(r, link);
    case Admin => assert StartsWith(link, "/admin/"); SectionAllowLists(r, link);
  }

  /** A role value outside the enumeration is linked to the patient dashboard and refused there. */
  lemma UnknownRoleLinkRefused(role: string)
    requires forall r: Role :: RoleName(r) != role
    ensures GetDashboardLink(Some(ClientUser(role))) == "/patient/dashboard"
    ensures Visit(true, Some(ClientUser(role)), "/patient/dashboard") == RedirectTo("/unauthorized")
  {
    assert RoleName(Admin) == "admin" && RoleName(Doctor) == "doctor" && RoleName(Nurse) == "nurse";
    AreaOfSection("/patient/dashboard");
    assert StartsWith("/patient/dashboard", "/patient/");
  }
}
