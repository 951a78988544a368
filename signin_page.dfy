/** The login page of app/signin/page.tsx: the email and the Google login
    handlers and the role-to-route chains they end with. A thrown error is
    only logged, so every failure ends without navigation (`None`). */
module SigninPage {
  import opened Wrappers
  import opened Backend
  import opened ClientDocs

  /** The route chain of `handleLogin`. */
  function EmailLoginRoute(role: Option<string>): (route: string)
    ensures route == ProfessionalProfile <==> role == Some(Professional)
    ensures route == "/organisation/search" <==> role == Some(Organisation)
    ensures route == "/admin/dashboard" <==> role == Some(AdminRole)
    ensures route == "/" <==> role !in {Some(Professional), Some(Organisation), Some(AdminRole)}
  {
    if role == Some(Professional) then ProfessionalProfile
    else if role == Some(Organisation) then "/organisation/search"
    else if role == Some(AdminRole) then "/admin/dashboard"
    else "/"
  }

  /** The route chain of `handleGoogleLogin` as written: professionals are
      sent to "/professionals/profile", a route with no page. */
  function GoogleLoginRouteAsWritten(role: Option<string>): (route: string)
    ensures route == "/professionals/profile" <==> role == Some(Professional)
    ensures route == "/organisation/dashboard" <==> role == Some(Organisation)
    ensures route == "/admin/dashboard" <==> role == Some(AdminRole)
    ensures route == "/" <==> role !in {Some(Professional), Some(Organisation), Some(AdminRole)}
  {
    if role == Some(Professional) then "/professionals/profile"
    else if role == Some(Organisation) then "/organisation/dashboard"
    else if role == Some(AdminRole) then "/admin/dashboard"
    else "/"
  }

  /** The Google chain with the professional route spelled as the profile
      page's route: it then differs from the email chain only in sending
      organisations to their dashboard. */
  function GoogleLoginRoute(role: Option<string>): (route: string)
    ensures route == ProfessionalProfile <==> role == Some(Professional)
    ensures route == "/organisation/dashboard" <==> role == Some(Organisation)
    ensures role != Some(Organisation) ==> route == EmailLoginRoute(role)
  {
    if role == Some(Organisation) then "/organisation/dashboard" else EmailLoginRoute(role)
  }

  /** As written, a professional logging in with Google is not sent to the
      profile page, although an email login is. */
  lemma GoogleLoginMissesProfilePage()
    ensures GoogleLoginRouteAsWritten(Some(Professional)) != ProfessionalProfile
    ensures EmailLoginRoute(Some(Professional)) == ProfessionalProfile
  {
  }

  /** As written, the two login paths disagree exactly on professionals and
      organisations. */
  lemma AsWrittenPathsDisagree(role: Option<string>)
    ensures GoogleLoginRouteAsWritten(role) != EmailLoginRoute(role)
        <==> role == Some(Professional) || role == Some(Organisation)
  {
  }

  /** Corrected, the two login paths disagree only on organisations, which
      Google login sends to the dashboard and email login to the search page. */
  lemma LoginPathsDisagreeOnlyOnOrganisations(role: Option<string>)
    ensures GoogleLoginRoute(role) != EmailLoginRoute(role) <==> role == Some(Organisation)
    ensures GoogleLoginRouteAsWritten(role) != GoogleLoginRoute(role) <==> role == Some(Professional)
  {
  }

  /** `handleLogin`: sign in, read `users/{uid}` and route by its role; a
      missing document routes to "/". It writes nothing. */
  function HandleLogin(users: seq<Doc<ProfileDoc>>, signedIn: Result<AuthUser, Error>, read: Outcome<Error>)
    : (nav: Option<string>)
    ensures signedIn.Err? || read.Fail? <==> nav.None?
    ensures signedIn.Ok? && read.Pass? ==>
      nav == Some(EmailLoginRoute(StoredRole(Read(users, signedIn.value.uid, read))))
    ensures signedIn.Ok? && read.Pass? && Lookup(users, signedIn.value.uid).None? ==> nav == Some("/")
  {
    if signedIn.Err? then None
    else
      var snap := Read(users, signedIn.value.uid, read);
      if snap.ReadFailed? then None
      else Some(EmailLoginRoute(StoredRole(snap)))
  }

  /** `handleGoogleLogin`: sign in through the popup, read `users/{uid}`; with
      no document, first write `{email, role: 'professional'}`, then route.
      An existing document is never written, and a failed step routes
      nowhere. The route is the corrected chain `GoogleLoginRoute`: the code
      as written ends with `GoogleLoginRouteAsWritten`, which differs only in
      sending professionals, a first login included, to
      "/professionals/profile" instead of `ProfessionalProfile`. */
  method HandleGoogleLogin(users: Collection<ProfileDoc>, popup: Result<AuthUser, Error>,
                           read: Outcome<Error>, write: Outcome<Error>)
    returns (nav: Option<string>)
    modifies users
    ensures popup.Err? || read.Fail? ==> nav.None? && users.docs == old(users.docs)
    ensures popup.Ok? && read.Pass? ==>
      var id := popup.value.uid;
      match Lookup(old(users.docs), id)
      case Some(d) => nav == Some(GoogleLoginRoute(d.role)) && users.docs == old(users.docs)
      case None =>
        if write.Pass? then
          nav == Some(ProfessionalProfile)
          && users.docs == Upsert(old(users.docs), id, FirstLoginDoc(popup.value.email))
        else
          nav.None? && users.docs == old(users.docs)
  {
    nav := None;
    if popup.Ok? {
      var user := popup.value;
      var snap := Read(users.docs, user.uid, read);
      match snap
      case ReadFailed(_) =>
      case Exists(d) =>
        nav := Some(GoogleLoginRoute(d.role));
      case Missing =>
        var written := users.SetDoc(user.uid, FirstLoginDoc(user.email), write);
        if written.Pass? {
          nav := Some(GoogleLoginRoute(Some(Professional)));
        }
    }
  }

  /** After a first Google login the stored role is 'professional', so a
      second login, by either path, finds the document and routes as a
      professional. */
  lemma FirstGoogleLoginThenEmailLogin(users: seq<Doc<ProfileDoc>>, user: AuthUser)
    ensures HandleLogin(Upsert(users, user.uid, FirstLoginDoc(user.email)), Ok(user), Pass)
         == Some(ProfessionalProfile)
  {
    LookupUpsert(users, user.uid, FirstLoginDoc(user.email), user.uid);
  }
}
