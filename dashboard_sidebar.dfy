/** The dashboard sidebar of components/dashboard/DashboardSidebar.tsx for a
    typed session user: the menu by role, the prefix test for the active
    item, the ID line, the avatar initial and the sign-out button. */
module DashboardSidebar {
  import opened Wrappers
  import opened Types
  import opened Backend
  import Strings
  import AuthProvider
  import SearchService

  datatype NavItem = NavItem(href: string, caption: string)

  const TalentPrefix: string := "/dashboard/talent/"
  const EmployerPrefix: string := "/dashboard/employer/"

  const TalentNavItems: seq<NavItem> := [
    NavItem("/dashboard/talent/profile", "Profile"),
    NavItem("/dashboard/talent/documents", "Documents"),
    NavItem("/dashboard/talent/verification", "Verification"),
    NavItem("/dashboard/talent/settings", "Settings")]

  const EmployerNavItems: seq<NavItem> := [
    NavItem("/dashboard/employer/search", "Search Talent"),
    NavItem("/dashboard/employer/history", "History"),
    NavItem("/dashboard/employer/settings", "Settings")]

  /** `isTalent ? talentNavItems : employerNavItems`. */
  function NavItems(u: AppUser): (items: seq<NavItem>)
    ensures u.Role() == Talent ==> |items| == 4
    ensures u.Role() != Talent ==> |items| == 3
    ensures forall i :: 0 <= i < |items| ==>
      Strings.StartsWith(items[i].href, if u.Role() == Talent then TalentPrefix else EmployerPrefix)
  {
    if u.Role() == Talent then TalentNavItems else EmployerNavItems
  }

  /** `pathname.startsWith(item.href)`. */
  predicate IsActive(pathname: string, item: NavItem) {
    Strings.StartsWith(pathname, item.href)
  }

  /** Two prefixes of one string are prefixes of each other. */
  lemma {:induction false} PrefixesAreComparable(a: string, b: string, s: string)
    requires a <= s && b <= s && |a| <= |b|
    ensures a <= b
  {
    assert a == s[..|a|];
    assert b[..|a|] == s[..|a|];
  }

  /** The talent hrefs differ at their first character after the prefix. */
  lemma TalentHrefsArePrefixFree(i: int, j: int)
    requires 0 <= i < 4 && 0 <= j < 4 && i != j
    ensures !(TalentNavItems[i].href <= TalentNavItems[j].href)
  {
    var k := |TalentPrefix|;
    assert TalentNavItems[0].href[k] == 'p';
    assert TalentNavItems[1].href[k] == 'd';
    assert TalentNavItems[2].href[k] == 'v';
    assert TalentNavItems[3].href[k] == 's';
    assert TalentNavItems[i].href[k] != TalentNavItems[j].href[k];
  }

  /** The employer hrefs differ at their third character after the prefix. */
  lemma EmployerHrefsArePrefixFree(i: int, j: int)
    requires 0 <= i < 3 && 0 <= j < 3 && i != j
    ensures !(EmployerNavItems[i].href <= EmployerNavItems[j].href)
  {
    var k := |EmployerPrefix| + 2;
    assert EmployerNavItems[0].href[k] == 'a';
    assert EmployerNavItems[1].href[k] == 's';
    assert EmployerNavItems[2].href[k] == 't';
    assert EmployerNavItems[i].href[k] != EmployerNavItems[j].href[k];
  }

  /** No href of a menu is a prefix of another href of the same menu. */
  lemma HrefsArePrefixFree(u: AppUser, i: int, j: int)
    requires 0 <= i < |NavItems(u)| && 0 <= j < |NavItems(u)| && i != j
    ensures !(NavItems(u)[i].href <= NavItems(u)[j].href)
  {
    if u.Role() == Talent {
      TalentHrefsArePrefixFree(i, j);
    } else {
      EmployerHrefsArePrefixFree(i, j);
    }
  }

  /** Whatever the pathname, at most one item of the menu is highlighted. */
  lemma AtMostOneActive(u: AppUser, pathname: string, i: int, j: int)
    requires 0 <= i < |NavItems(u)| && 0 <= j < |NavItems(u)|
    requires IsActive(pathname, NavItems(u)[i]) && IsActive(pathname, NavItems(u)[j])
    ensures i == j
  {
    var items := NavItems(u);
    if i != j {
      if |items[i].href| <= |items[j].href| {
        PrefixesAreComparable(items[i].href, items[j].href, pathname);
        HrefsArePrefixFree(u, i, j);
      } else {
        PrefixesAreComparable(items[j].href, items[i].href, pathname);
        HrefsArePrefixFree(u, j, i);
      }
    }
  }

  /** `isTalent ? user.talentUID : ''`, shown only when non-empty. */
  function IdLine(u: AppUser): (line: Option<string>)
    ensures line.Some? <==> u.TalentUser? && u.talentUID != ""
    ensures line.Some? ==> line.value == u.talentUID
  {
    if u.TalentUser? && u.talentUID != "" then Some(u.talentUID) else None
  }

  /** `user.displayName?.charAt(0) || user.email?.charAt(0).toUpperCase()`. */
  function Initial(u: AppUser): (c: string)
    ensures |c| <= 1
    ensures c == "" <==> (u.displayName.None? || u.displayName.value == "") && u.email == ""
    ensures u.displayName.Some? && u.displayName.value != "" ==> c == [u.displayName.value[0]]
    ensures (u.displayName.None? || u.displayName.value == "") && u.email != "" ==>
      c == [Strings.UpperChar(u.email[0])]
  {
    if u.displayName.Some? && u.displayName.value != "" then [u.displayName.value[0]]
    else if u.email != "" then [Strings.UpperChar(u.email[0])]
    else ""
  }

  /** `user.displayName || user.email`. */
  function NameLine(u: AppUser): (name: string)
    ensures name == u.email || (u.displayName == Some(name) && name != "")
    ensures u.displayName.Some? && u.displayName.value != "" ==> name == u.displayName.value
    ensures u.displayName.None? || u.displayName.value == "" ==> name == u.email
  {
    if u.displayName.Some? && u.displayName.value != "" then u.displayName.value else u.email
  }

  /** A fallback initial from the email is never a lower-case letter. */
  lemma EmailInitialIsNotLower(u: AppUser)
    requires u.displayName.None? || u.displayName.value == ""
    requires u.email != ""
    ensures |Initial(u)| == 1 && !Strings.IsLowerAscii(Initial(u)[0])
  {
  }

  /** A record made at sign-up is shown under its full name (talent) or
      company name (employer), and its initial is their first letter. */
  lemma RegisteredUsersShowTheirName(userId: string, email: string, t: AuthProvider.TalentSignUp,
                                     e: AuthProvider.EmployerSignUp, talentUID: string, now: Timestamp)
    requires t.fullName != "" && e.companyName != ""
    ensures var u := AuthProvider.CreateTalentUser(userId, email, t, talentUID, now);
      NameLine(u) == t.fullName && Initial(u) == [t.fullName[0]] && (IdLine(u).Some? <==> talentUID != "")
    ensures var u := AuthProvider.CreateEmployerUser(userId, email, e, now);
      NameLine(u) == e.companyName && Initial(u) == [e.companyName[0]] && IdLine(u).None?
  {
  }

  /** The sign-out button: `signOut()` of the auth provider and nothing
      else; the page does not navigate, and a failed sign-out is left
      unhandled. */
  method SignOutClick(session: AuthProvider.Session, signedOut: Outcome<Error>) returns (nav: Option<string>)
    requires session.Valid()
    modifies session
    ensures session.Valid() && nav.None?
    ensures session.user == if signedOut.Pass? then None else old(session.user)
  {
    var _ := session.SignOut(signedOut);
    nav := None;
  }
}
