/** The professional profile page of app/professional/profile/page.tsx: the
    auth listener that loads the `users` document, the loading / no-profile /
    content choice and the tab switch of `renderContent`. */
module ProfessionalProfilePage {
  import opened Wrappers
  import opened Backend
  import opened ClientDocs

  /** The nine sidebar tabs, in display order. */
  const TabKeys: seq<string> :=
    ["personal", "contact", "education", "experience", "projects", "skills",
     "certifications", "achievements", "others"]

  const InitialTab: string := "personal"

  const DefaultPrompt: string := "Select a section from the sidebar."

  /** What the page shows. */
  datatype View = Loading | NoProfile | Content(profile: ProfileDoc, text: string)

  /** The text `renderContent` shows for a tab key. */
  function RenderContent(tab: string): (text: string)
    ensures text == DefaultPrompt <==> tab !in TabKeys
  {
    match tab
    case "personal" => "This is personal details."
    case "contact" => "This is contact details."
    case "education" => "This is education details."
    case "experience" => "This is experience details."
    case "projects" => "This is projects details."
    case "skills" => "This is skills details."
    case "certifications" => "This is certifications details."
    case "achievements" => "This is achievements details."
    case "others" => "This is other details."
    case _ => DefaultPrompt
  }

  /** Different tabs show different texts: the switch is one-to-one on the
      nine keys. */
  lemma TabsShowDistinctContent(a: string, b: string)
    requires a in TabKeys && b in TabKeys && a != b
    ensures RenderContent(a) != RenderContent(b)
  {
  }

  class ProfilePage {
    var profile: Option<ProfileDoc>
    var loading: bool
    var activeTab: string

    /** Once loading is over there is a profile to show. */
    ghost predicate Valid()
      reads this
    {
      !loading ==> profile.Some?
    }

    constructor ()
      ensures Valid()
      ensures profile.None? && loading && activeTab == InitialTab
    {
      profile := None;
      loading := true;
      activeTab := InitialTab;
    }

    /** The auth listener. No account redirects to "/login" and a missing
        document to "/", both leaving the page loading; a document of any
        role becomes the profile and ends loading. A failed read rejects
        the listener with the state unchanged. */
    method OnAuthChange(users: seq<Doc<ProfileDoc>>, user: Option<AuthUser>, read: Outcome<Error>)
      returns (redirect: Option<string>)
      requires Valid()
      modifies this
      ensures Valid() && activeTab == old(activeTab)
      ensures user.None? ==> redirect == Some("/login") && profile == old(profile) && loading == old(loading)
      ensures user.Some? ==>
        match Read(users, user.value.uid, read)
        case Exists(d) => redirect.None? && profile == Some(d) && !loading
        case Missing => redirect == Some("/") && profile == old(profile) && loading == old(loading)
        case ReadFailed(_) => redirect.None? && profile == old(profile) && loading == old(loading)
    {
      redirect := None;
      if user.None? {
        redirect := Some("/login");
        return;
      }
      var snap := Read(users, user.value.uid, read);
      if snap.Missing? {
        redirect := Some("/");
        return;
      }
      if snap.Exists? {
        profile := Some(snap.data);
        loading := false;
      }
    }

    /** A click on a tab button. */
    method SelectTab(key: string)
      requires Valid()
      modifies this
      ensures Valid() && activeTab == key && profile == old(profile) && loading == old(loading)
    {
      activeTab := key;
    }

    /** `if (loading) ... if (!profile) ... else the page`. */
    function Render(): (v: View)
      reads this
      ensures v.Loading? <==> loading
      ensures v.Content? ==> profile == Some(v.profile) && v.text == RenderContent(activeTab)
      ensures Valid() ==> !v.NoProfile?
    {
      if loading then Loading
      else if profile.None? then NoProfile
      else Content(profile.value, RenderContent(activeTab))
    }
  }

  /** From a fresh page, a stored document of any role is shown with the
      personal tab, and a missing one leaves the page loading. */
  method FirstLoad(users: seq<Doc<ProfileDoc>>, user: AuthUser) returns (v: View, redirect: Option<string>)
    ensures Lookup(users, user.uid).Some? ==>
      v == Content(Lookup(users, user.uid).value, "This is personal details.") && redirect.None?
    ensures Lookup(users, user.uid).None? ==> v == Loading && redirect == Some("/")
  {
    var page := new ProfilePage();
    redirect := page.OnAuthChange(users, Some(user), Pass);
    v := page.Render();
  }
}
