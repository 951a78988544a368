/** The guard in the auth listener of app/organisation/search/page.tsx: no
    account goes to "/login"; an account whose `users` document does not
    carry role 'organisation' goes to "/"; an organisation stays. */
module OrganisationSearchPage {
  import opened Wrappers
  import opened Backend
  import opened ClientDocs

  /** The redirect the listener issues, if any. A failed read rejects the
      listener's promise before any redirect. */
  function Guard(users: seq<Doc<ProfileDoc>>, user: Option<AuthUser>, read: Outcome<Error>)
    : (redirect: Option<string>)
    ensures user.None? ==> redirect == Some("/login")
    ensures user.Some? && read.Fail? ==> redirect.None?
    ensures user.Some? && read.Pass? ==>
      (redirect.None? <==> Lookup(users, user.value.uid).Some?
                           && Lookup(users, user.value.uid).value.role == Some(Organisation))
    ensures redirect.Some? ==> redirect.value in {"/login", "/"}
  {
    if user.None? then Some("/login")
    else
      var snap := Read(users, user.value.uid, read);
      if snap.ReadFailed? then None
      else if StoredRole(snap) != Some(Organisation) then Some("/")
      else None
  }

  /** A signed-in account with no `users` document is sent home. */
  lemma MissingDocumentGoesHome(users: seq<Doc<ProfileDoc>>, user: AuthUser)
    requires Lookup(users, user.uid).None?
    ensures Guard(users, Some(user), Pass) == Some("/")
  {
  }

  /** Only the organisation role stays on the page: a professional, an admin
      or a document without a role is sent home. */
  lemma OnlyOrganisationsStay(users: seq<Doc<ProfileDoc>>, user: AuthUser, d: ProfileDoc)
    requires Lookup(users, user.uid) == Some(d)
    ensures Guard(users, Some(user), Pass).None? <==> d.role == Some(Organisation)
  {
  }
}
