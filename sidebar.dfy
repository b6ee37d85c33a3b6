/**
 * The sidebar: a constant table of links, each with the roles it is shown to, and
 * the filter that keeps the links for the signed-in user's role.
 */
module Sidebar {
  import opened Wrappers
  import opened Types
  import opened ClientRoutes
  import opened Strings

  /** A link; the icon is left out. */
  datatype SidebarItem = SidebarItem(name: string, href: string, roles: seq<Role>)

  const PatientItems: seq<SidebarItem> := [
    SidebarItem("Dashboard", "/patient/dashboard", [Patient]),
    SidebarItem("Appointments", "/patient/appointments", [Patient]),
    SidebarItem("Medical Records", "/patient/records", [Patient]),
    SidebarItem("AI Health Assistant", "/patient/chatbot", [Patient]),
    SidebarItem("Mobile Clinics", "/patient/mobile-clinics", [Patient]),
    SidebarItem("Emergency Services", "/patient/emergency", [Patient])
  ]

  /** The provider links; the last one, Consultations, is for doctors only. */
  const ProviderItems: seq<SidebarItem> := [
    SidebarItem("Dashboard", "/provider/dashboard", [Doctor, Nurse]),
    SidebarItem("Patients", "/provider/patients", [Doctor, Nurse]),
    SidebarItem("Appointments", "/provider/appointments", [Doctor, Nurse]),
    SidebarItem("Medical Records", "/provider/records", [Doctor, Nurse]),
    SidebarItem("Consultations", "/provider/consultations", [Doctor])
  ]

  const AdminItems: seq<SidebarItem> := [
    SidebarItem("Dashboard", "/admin/dashboard", [Admin]),
    SidebarItem("User Management", "/admin/users", [Admin]),
    SidebarItem("System Analytics", "/admin/analytics", [Admin]),
    SidebarItem("Mobile Clinics", "/admin/mobile-clinics", [Admin]),
    SidebarItem("Emergency Services", "/admin/emergency", [Admin]),
    SidebarItem("System Settings", "/admin/settings", [Admin]),
    SidebarItem("Security & Audit", "/admin/security", [Admin])
  ]

  /** `sidebarItems`, in declaration order: patient, then provider, then admin links. */
  const SidebarItems: seq<SidebarItem> := PatientItems + ProviderItems + AdminItems

  /** `items.filter(item => item.roles.includes(role))`. */
  function FilterByRole(items: seq<SidebarItem>, role: string): (kept: seq<SidebarItem>)
    ensures |kept| <= |items|
    ensures forall x :: x in kept <==> x in items && Includes(x.roles, role)
  {
    if items == [] then []
    else if Includes(items[0].roles, role) then [items[0]] + FilterByRole(items[1..], role)
    else FilterByRole(items[1..], role)
  }

  /** Filtering distributes over concatenation, so the declared order is kept. */
  lemma {:induction false} FilterAppend(a: seq<SidebarItem>, b: seq<SidebarItem>, role: string)
    ensures FilterByRole(a + b, role) == FilterByRole(a, role) + FilterByRole(b, role)
  {
    if a != [] {
      assert (a + b)[0] == a[0];
      assert (a + b)[1..] == a[1..] + b;
      FilterAppend(a[1..], b, role);
    } else {
      assert a + b == b;
    }
  }

  /** A list whose every item admits the role is kept whole. */
  lemma {:induction false} FilterKeepsAll(items: seq<SidebarItem>, role: string)
    requires forall i :: 0 <= i < |items| ==> Includes(items[i].roles, role)
    ensures FilterByRole(items, role) == items
  {
    if items != [] {
      FilterKeepsAll(items[1..], role);
    }
  }

  /** A list none of whose items admits the role is dropped whole. */
  lemma {:induction false} FilterDropsAll(items: seq<SidebarItem>, role: string)
    requires forall i :: 0 <= i < |items| ==> !Includes(items[i].roles, role)
    ensures FilterByRole(items, role) == []
  {
    if items != [] {
      FilterDropsAll(items[1..], role);
    }
  }

  /** The sidebar of the signed-in user; empty without one. */
  function SidebarFor(user: Option<ClientUser>): (shown: seq<SidebarItem>)
    ensures user.None? ==> shown == []
    ensures forall x :: x in shown <==> user.Some? && x in SidebarItems && Includes(x.roles, user.value.role)
  {
    if user.None? then [] else FilterByRole(SidebarItems, user.value.role)
  }

  /** Names are distinct: they serve as the React keys of the rendered list. */
  predicate DistinctNames(items: seq<SidebarItem>) {
    forall i, j :: 0 <= i < j < |items| ==> items[i].name != items[j].name
  }

  predicate DistinctHrefs(items: seq<SidebarItem>) {
    forall i, j :: 0 <= i < j < |items| ==> items[i].href != items[j].href
  }

  /** Every href of the list lies below `prefix`. */
  predicate AllUnder(items: seq<SidebarItem>, prefix: string) {
    forall i :: 0 <= i < |items| ==> StartsWith(items[i].href, prefix)
  }

  /** The patient links have distinct names and hrefs, all under `/patient/`. */
  lemma PatientItemsWellFormed()
    ensures DistinctNames(PatientItems) && DistinctHrefs(PatientItems) && AllUnder(PatientItems, "/patient/")
  {
    PatientNames();
    PatientHrefs();
    PatientUnder();
  }

  lemma PatientNames() ensures DistinctNames(PatientItems) {}
  lemma PatientHrefs() ensures DistinctHrefs(PatientItems) {}
  lemma PatientUnder() ensures AllUnder(PatientItems, "/patient/") {}

  /** The provider links have distinct names and hrefs, all under `/provider/`. */
  lemma ProviderItemsWellFormed()
    ensures DistinctNames(ProviderItems) && DistinctHrefs(ProviderItems) && AllUnder(ProviderItems, "/provider/")
  {
    ProviderNames();
    ProviderHrefs();
    ProviderUnder();
  }

  lemma ProviderNames() ensures DistinctNames(ProviderItems) {}
  lemma ProviderHrefs() ensures DistinctHrefs(ProviderItems) {}
  lemma ProviderUnder() ensures AllUnder(ProviderItems, "/provider/") {}

  /** The admin links have distinct names and hrefs, all under `/admin/`. */
  lemma AdminItemsWellFormed()
    ensures DistinctNames(AdminItems) && DistinctHrefs(AdminItems) && AllUnder(AdminItems, "/admin/")
  {
    AdminNames();
    AdminHrefs();
    AdminUnder();
  }

  lemma AdminNames() ensures DistinctNames(AdminItems) {}
  lemma AdminHrefs() ensures DistinctHrefs(AdminItems) {}
  lemma AdminUnder() ensures AllUnder(AdminItems, "/admin/") {}

  /** The filter keeps the patient links for "patient" and nothing for any other role value. */
  lemma FilterPatientItems(role: string)
    ensures FilterByRole(PatientItems, role) == if role == "patient" then PatientItems else []
  {
    if role == "patient" {
      assert RoleName(Patient) == role;
      FilterKeepsAll(PatientItems, role);
    } else {
      FilterDropsAll(PatientItems, role);
    }
  }

  /** The filter keeps all provider links for "doctor", all but Consultations for "nurse", none otherwise. */
  lemma FilterProviderItems(role: string)
    ensures FilterByRole(ProviderItems, role) ==
      if role == "doctor" then ProviderItems else if role == "nurse" then ProviderItems[..4] else []
  {
    if role == "doctor" {
      assert RoleName(Doctor) == role;
      FilterKeepsAll(ProviderItems, role);
    } else if role == "nurse" {
      assert RoleName(Nurse) == role;
      assert ProviderItems == ProviderItems[..4] + [ProviderItems[4]];
      FilterAppend(ProviderItems[..4], [ProviderItems[4]], role);
      FilterKeepsAll(ProviderItems[..4], role);
      FilterDropsAll([ProviderItems[4]], role);
    } else {
      FilterDropsAll(ProviderItems, role);
    }
  }

  /** The filter keeps the admin links for "admin" and nothing for any other role value. */
  lemma FilterAdminItems(role: string)
    ensures FilterByRole(AdminItems, role) == if role == "admin" then AdminItems else []
  {
    if role == "admin" {
      assert RoleName(Admin) == role;
      FilterKeepsAll(AdminItems, role);
    } else {
      FilterDropsAll(AdminItems, role);
    }
  }

  /** The whole menu filters list by list. */
  lemma SidebarForSplits(role: string)
    ensures SidebarFor(Some(ClientUser(role))) ==
      FilterByRole(PatientItems, role) + FilterByRole(ProviderItems, role) + FilterByRole(AdminItems, role)
  {
    FilterAppend(PatientItems + ProviderItems, AdminItems, role);
    FilterAppend(PatientItems, ProviderItems, role);
  }

  /** Which links the filter keeps for any role value, in declared order. */
  lemma FilterPerRole(role: string)
    ensures SidebarFor(Some(ClientUser(role))) ==
      (if role == "patient" then PatientItems else []) +
      (if role == "doctor" then ProviderItems else if role == "nurse" then ProviderItems[..4] else []) +
      (if role == "admin" then AdminItems else [])
  {
    SidebarForSplits(role);
    FilterPatientItems(role);
    FilterProviderItems(role);
    FilterAdminItems(role);
  }

  /** The links a role is meant to see, in declared order. */
  function RoleMenu(r: Role): seq<SidebarItem> {
    match r
    case Patient => PatientItems
    case Doctor => ProviderItems
    case Nurse => ProviderItems[..4]
    case Admin => AdminItems
  }

  /** The section of the site a role's links belong to. */
  function MenuSection(r: Role): string {
    match r
    case Patient => "/patient/"
    case Doctor => "/provider/"
    case Nurse => "/provider/"
    case Admin => "/admin/"
  }

  /** Filtering the full menu by a role's name yields exactly that role's links. */
  lemma SidebarIsRoleMenu(r: Role)
    ensures SidebarFor(Some(ClientUser(RoleName(r)))) == RoleMenu(r)
  {
    FilterPerRole(RoleName(r));
    match r
    case Patient => assert PatientItems + [] + [] == PatientItems;
    case Doctor => assert [] + ProviderItems + [] == ProviderItems;
    case Nurse => assert [] + ProviderItems[..4] + [] == ProviderItems[..4];
    case Admin => assert [] + [] + AdminItems == AdminItems;
  }

  /** Each role's links have distinct names and hrefs and lie under its section. */
  lemma RoleMenuWellFormed(r: Role)
    ensures DistinctNames(RoleMenu(r)) && DistinctHrefs(RoleMenu(r)) && AllUnder(RoleMenu(r), MenuSection(r))
  {
    match r
    case Patient => PatientItemsWellFormed();
    case Doctor => ProviderItemsWellFormed();
    case Nurse => ProviderItemsWellFormed();
    case Admin => AdminItemsWellFormed();
  }

  /**
   * Each role's sidebar: the 6 patient links, the 5 provider links for a doctor,
   * the first 4 of them for a nurse, the 7 admin links; each list has distinct
   * names and hrefs and lies under the role's own section.
   */
  lemma SidebarPerRole(r: Role)
    ensures var items := SidebarFor(Some(ClientUser(RoleName(r))));
      && |items| == (match r case Patient => 6 case Doctor => 5 case Nurse => 4 case Admin => 7)
      && DistinctNames(items) && DistinctHrefs(items) && AllUnder(items, MenuSection(r))
  {
    SidebarIsRoleMenu(r);
    RoleMenuWellFormed(r);
  }

  /** A role value outside the enumeration sees no link. */
  lemma UnknownRoleSeesNothing(role: string)
    requires forall r: Role :: RoleName(r) != role
    ensures SidebarFor(Some(ClientUser(role))) == []
  {
    FilterDropsAll(SidebarItems, role);
  }

  /** Every link a role's sidebar shows is admitted by that role's route guard. */
  lemma SidebarLinksAdmitted(r: Role)
    ensures forall item | item in SidebarFor(Some(ClientUser(RoleName(r)))) ::
      Visit(true, Some(ClientUser(RoleName(r))), item.href) == Render
  {
    SidebarPerRole(r);
    forall item | item in SidebarFor(Some(ClientUser(RoleName(r))))
      ensures Visit(true, Some(ClientUser(RoleName(r))), item.href) == Render
    {
      SectionAllowLists(r, item.href);
    }
  }

  /** `location.pathname === item.href`. */
  predicate IsActive(pathname: string, item: SidebarItem) {
    pathname == item.href
  }

  /** Within a role's sidebar at most one link is marked active. */
  lemma AtMostOneActive(r: Role, pathname: string)
    ensures var items := SidebarFor(Some(ClientUser(RoleName(r))));
      forall i, j | 0 <= i < j < |items| && IsActive(pathname, items[i]) :: !IsActive(pathname, items[j])
  {
    SidebarPerRole(r);
  }
}
