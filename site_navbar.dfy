/** The links of components/site/SiteNavbar.tsx, for the session user of the
    auth provider: the three site pages, then either one dashboard link or the
    sign-in and registration links. The desktop and the mobile menus differ
    only in their labels. */
module SiteNavbar {
  import opened Wrappers
  import opened Types

  datatype Link = Link(href: string, caption: string)

  const TalentDashboard: string := "/dashboard/talent/profile"
  const EmployerDashboard: string := "/dashboard/employer/search"

  const SignedOutHrefs: seq<string> := ["/login", "/register/talent", "/register/employer"]

  /** `user.role === 'talent' ? ... : ...`. */
  function DashboardTarget(u: AppUser): (href: string)
    ensures href == TalentDashboard <==> u.Role() == Talent
    ensures href == EmployerDashboard <==> u.Role() != Talent
  {
    if u.Role() == Talent then TalentDashboard else EmployerDashboard
  }

  function Hrefs(links: seq<Link>): (r: seq<string>)
    ensures |r| == |links| && forall i :: 0 <= i < |links| ==> r[i] == links[i].href
  {
    seq(|links|, i requires 0 <= i < |links| => links[i].href)
  }

  function SiteLinks(): seq<Link> {
    [Link("/features", "Features"), Link("/pricing", "Pricing"), Link("/how-it-works", "How It Works")]
  }

  function DesktopLinks(user: Option<AppUser>): seq<Link> {
    SiteLinks() +
    if user.Some? then [Link(DashboardTarget(user.value), "Go to Dashboard")]
    else [Link("/login", "Sign In"), Link("/register/talent", "Join as Talent"),
          Link("/register/employer", "Join as Employer")]
  }

  function MobileLinks(user: Option<AppUser>): seq<Link> {
    SiteLinks() +
    if user.Some? then [Link(DashboardTarget(user.value), "Go to Dashboard")]
    else [Link("/login", "Sign In"), Link("/register/talent", "Talent"), Link("/register/employer", "Employer")]
  }

  /** Both menus lead to the same places for the same user. */
  lemma MenusAgree(user: Option<AppUser>)
    ensures Hrefs(DesktopLinks(user)) == Hrefs(MobileLinks(user))
  {
  }

  /** Signed out: the sign-in and both registration links, and no dashboard. */
  lemma SignedOutLinks()
    ensures Hrefs(DesktopLinks(None))[3..] == SignedOutHrefs
    ensures TalentDashboard !in Hrefs(DesktopLinks(None)) && EmployerDashboard !in Hrefs(DesktopLinks(None))
  {
    var h := Hrefs(DesktopLinks(None));
    assert h == ["/features", "/pricing", "/how-it-works"] + SignedOutHrefs;
  }

  /** Signed in: exactly one link after the site pages, to the user's
      dashboard; never the sign-in or registration links. */
  lemma SignedInLinks(u: AppUser)
    ensures Hrefs(DesktopLinks(Some(u)))[3..] == [DashboardTarget(u)]
    ensures forall h :: h in SignedOutHrefs ==> h !in Hrefs(DesktopLinks(Some(u)))
  {
    var h := Hrefs(DesktopLinks(Some(u)));
    assert h == ["/features", "/pricing", "/how-it-works", DashboardTarget(u)];
  }

  /** Every signed-in user is a talent or an employer and lands on the
      dashboard of that role. */
  lemma DashboardByRole(u: AppUser)
    ensures u.TalentUser? ==> DashboardTarget(u) == TalentDashboard
    ensures u.EmployerUser? ==> DashboardTarget(u) == EmployerDashboard
  {
  }
}
