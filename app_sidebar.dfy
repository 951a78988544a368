/** The sidebar of components/app/AppSidebar.tsx. It reads `userData` from a
    separate auth context whose documents use the loose roles 'professional'
    and 'organisation'; a missing role counts as 'professional' for the menu
    but not for the badge. */
module AppSidebar {
  import opened Wrappers
  import opened Backend
  import ClientDocs

  /** The fields of `userData` the sidebar reads. */
  datatype SidebarUser = SidebarUser(
    role: Option<string>,
    fullName: Option<string>,
    companyName: Option<string>,
    professionalUID: Option<string>)

  datatype MenuItem = MenuItem(href: string, title: string)

  const ProfessionalMenu: seq<MenuItem> := [
    MenuItem("/professional/dashboard", "Dashboard"),
    MenuItem("/professional/profile", "My Profile"),
    MenuItem("/professional/verification", "Verification Status"),
    MenuItem("/professional/settings", "Settings")]

  const OrganisationMenu: seq<MenuItem> := [
    MenuItem("/organisation/dashboard", "Dashboard"),
    MenuItem("/organisation/search", "Search Professionals"),
    MenuItem("/organisation/profile", "My Organisation"),
    MenuItem("/organisation/settings", "Settings")]

  /** JavaScript truthiness of an optional string. */
  predicate Truthy(s: Option<string>) {
    s.Some? && s.value != ""
  }

  /** `userData?.role || 'professional'`. */
  function EffectiveRole(userData: Option<SidebarUser>): (role: string)
    ensures role != ""
    ensures userData.Some? && Truthy(userData.value.role) ==> role == userData.value.role.value
    ensures !(userData.Some? && Truthy(userData.value.role)) ==> role == ClientDocs.Professional
  {
    if userData.Some? && Truthy(userData.value.role) then userData.value.role.value else ClientDocs.Professional
  }

  /** `userRole === 'professional' ? professionalMenu : organisationMenu`. */
  function MenuItems(userData: Option<SidebarUser>): (items: seq<MenuItem>)
    ensures |items| == 4
    ensures items == ProfessionalMenu <==> EffectiveRole(userData) == ClientDocs.Professional
    ensures items == OrganisationMenu <==> EffectiveRole(userData) != ClientDocs.Professional
  {
    if EffectiveRole(userData) == ClientDocs.Professional then ProfessionalMenu else OrganisationMenu
  }

  /** `pathname === item.href`. */
  predicate IsActive(pathname: string, item: MenuItem) {
    pathname == item.href
  }

  /** The hrefs of each menu are pairwise distinct, so at most one item is
      highlighted, and a sub-page of an item highlights none. */
  lemma ActiveIsExact(userData: Option<SidebarUser>, pathname: string, i: int, j: int)
    requires 0 <= i < 4 && 0 <= j < 4
    requires IsActive(pathname, MenuItems(userData)[i]) && IsActive(pathname, MenuItems(userData)[j])
    ensures i == j
  {
    var items := MenuItems(userData);
    if i != j {
      DistinctAt(items, i, j);
    }
  }

  /** Two items of one menu differ in their href. */
  lemma DistinctAt(items: seq<MenuItem>, i: int, j: int)
    requires items == ProfessionalMenu || items == OrganisationMenu
    requires 0 <= i < 4 && 0 <= j < 4 && i != j
    ensures items[i].href != items[j].href
  {
    var k := if items == ProfessionalMenu then |"/professional/"| else |"/organisation/"|;
    if items == ProfessionalMenu {
      assert items[0].href[k] == 'd';
      assert items[1].href[k] == 'p';
      assert items[2].href[k] == 'v';
      assert items[3].href[k] == 's';
    } else {
      assert items[0].href[k] == 'd';
      assert items[1].href[k] == 's' && items[1].href[k + 1] == 'e';
      assert items[2].href[k] == 'p';
      assert items[3].href[k] == 's' && items[3].href[k + 1] == 'e' && items[3].href[k + 2] == 't';
      assert items[1].href[k + 2] == 'a';
    }
  }

  /** `userData ? (userData.role === 'professional' ? 'P' : 'O') : 'U'`. */
  function Badge(userData: Option<SidebarUser>): (c: char)
    ensures c == 'U' <==> userData.None?
    ensures c == 'P' <==> userData.Some? && userData.value.role == Some(ClientDocs.Professional)
    ensures c == 'O' <==> userData.Some? && userData.value.role != Some(ClientDocs.Professional)
  {
    if userData.None? then 'U'
    else if userData.value.role == Some(ClientDocs.Professional) then 'P'
    else 'O'
  }

  /** Badge and menu agree except for a user whose role is missing or empty:
      the menu treats them as a professional, the badge as an organisation. */
  lemma BadgeAndMenuDisagreeWithoutRole(userData: Option<SidebarUser>)
    ensures (Badge(userData) == 'O' && MenuItems(userData) == ProfessionalMenu)
        <==> userData.Some? && !Truthy(userData.value.role)
    ensures Badge(userData) == 'P' ==> MenuItems(userData) == ProfessionalMenu
  {
  }

  /** The account name: the full name of a professional or the company name
      of anyone else, each with its fallback. */
  function AccountName(userData: Option<SidebarUser>): (name: string)
    ensures name != ""
    ensures userData.Some? && userData.value.role == Some(ClientDocs.Professional) ==>
      name == if Truthy(userData.value.fullName) then userData.value.fullName.value else "Professional"
    ensures !(userData.Some? && userData.value.role == Some(ClientDocs.Professional)) ==>
      name == if userData.Some? && Truthy(userData.value.companyName) then userData.value.companyName.value
              else "Organisation"
  {
    if userData.Some? && userData.value.role == Some(ClientDocs.Professional) then
      if Truthy(userData.value.fullName) then userData.value.fullName.value else "Professional"
    else if userData.Some? && Truthy(userData.value.companyName) then userData.value.companyName.value
    else "Organisation"
  }

  /** The ID line: shown only for a professional with a non-empty public uid. */
  function IdLine(userData: Option<SidebarUser>): (line: Option<string>)
    ensures line.Some? <==>
      userData.Some? && userData.value.role == Some(ClientDocs.Professional) && Truthy(userData.value.professionalUID)
    ensures line.Some? ==> Some(line.value) == userData.value.professionalUID
  {
    if userData.Some? && userData.value.role == Some(ClientDocs.Professional) && Truthy(userData.value.professionalUID)
    then userData.value.professionalUID
    else None
  }

  /** What `handleSignOut` does, in order. */
  datatype Effect = SignOutCall | Navigate(route: string)

  /** `await signOut(); router.push('/signin')`: the route change comes only
      after a sign-out that resolved; a rejected sign-out stops the handler. */
  function HandleSignOut(signedOut: Outcome<Error>): (trace: seq<Effect>)
    ensures |trace| >= 1 && trace[0] == SignOutCall
    ensures Navigate("/signin") in trace <==> signedOut.Pass?
    ensures forall i :: 0 <= i < |trace| && trace[i].Navigate? ==> i > 0 && trace[i - 1] == SignOutCall
  {
    if signedOut.Pass? then [SignOutCall, Navigate("/signin")] else [SignOutCall]
  }
}
