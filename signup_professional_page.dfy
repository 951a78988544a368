/** The professional sign-up page of app/signup/professional/page.tsx: create
    the account, write `users/{uid}`, then go to the profile page. A thrown
    error ends the handler with no further step. */
module SignupProfessionalPage {
  import opened Wrappers
  import opened Backend
  import opened ClientDocs
  import opened Types
  import Uid

  /** The document the email sign-up writes: the account's email, role
      'professional', the generated public uid and the creation time. */
  function SignupDoc(email: Option<string>, professionalUID: string, now: Timestamp): (d: ProfileDoc)
    ensures d.role == Some(Professional) && d.email == email
    ensures d.uid == Some(professionalUID) && d.createdAt == Some(now) && d.name.None?
  {
    ProfileDoc(email, Some(Professional), Some(professionalUID), Some(now), None)
  }

  /** `handleSignup`. The uid is `generateUID(12)` over the given draws. */
  method HandleSignup(users: Collection<ProfileDoc>, created: Result<AuthUser, Error>,
                      draws: seq<real>, now: Timestamp, write: Outcome<Error>)
    returns (nav: Option<string>)
    requires Uid.ValidDraws(draws) && 12 <= |draws|
    modifies users
    ensures created.Err? ==> nav.None? && users.docs == old(users.docs)
    ensures created.Ok? ==>
      var stored := SignupDoc(created.value.email, Uid.UidOf(draws[..12]), now);
      if write.Pass? then
        nav == Some(ProfessionalProfile) && users.docs == Upsert(old(users.docs), created.value.uid, stored)
      else
        nav.None? && users.docs == old(users.docs)
  {
    nav := None;
    if created.Ok? {
      var user := created.value;
      var professionalUID := Uid.GenerateUID(draws, 12);
      var written := users.SetDoc(user.uid, SignupDoc(user.email, professionalUID, now), write);
      if written.Pass? {
        nav := Some(ProfessionalProfile);
      }
    }
  }

  /** `handleGoogleSignup`: the popup sign-in, then an unconditional write of
      `{email, role: 'professional'}`, then the profile page. */
  method HandleGoogleSignup(users: Collection<ProfileDoc>, popup: Result<AuthUser, Error>, write: Outcome<Error>)
    returns (nav: Option<string>)
    modifies users
    ensures popup.Err? || write.Fail? ==> nav.None? && users.docs == old(users.docs)
    ensures popup.Ok? && write.Pass? ==>
      nav == Some(ProfessionalProfile)
      && users.docs == Upsert(old(users.docs), popup.value.uid, FirstLoginDoc(popup.value.email))
  {
    nav := None;
    if popup.Ok? {
      var written := users.SetDoc(popup.value.uid, FirstLoginDoc(popup.value.email), write);
      if written.Pass? {
        nav := Some(ProfessionalProfile);
      }
    }
  }

  /** An email sign-up stores a 12-character public uid drawn from A-Z, 0-9
      under the account's id. */
  lemma SignupStoresPublicUid(users: seq<Doc<ProfileDoc>>, user: AuthUser, draws: seq<real>, now: Timestamp)
    requires Uid.ValidDraws(draws) && 12 <= |draws|
    ensures var stored := Lookup(Upsert(users, user.uid, SignupDoc(user.email, Uid.UidOf(draws[..12]), now)), user.uid);
      && stored.Some? && stored.value.role == Some(Professional)
      && stored.value.uid.Some? && |stored.value.uid.value| == 12
      && forall i :: 0 <= i < 12 ==> stored.value.uid.value[i] in Uid.Alphabet
  {
    var d := SignupDoc(user.email, Uid.UidOf(draws[..12]), now);
    LookupUpsert(users, user.uid, d, user.uid);
    Uid.UidOfLength(draws[..12]);
    Uid.UidOfInAlphabet(draws[..12]);
  }

  /** A Google sign-up replaces the whole document, so a public uid stored by
      an earlier email sign-up is lost. */
  lemma GoogleSignupDropsPublicUid(users: seq<Doc<ProfileDoc>>, user: AuthUser)
    ensures var stored := Lookup(Upsert(users, user.uid, FirstLoginDoc(user.email)), user.uid);
      stored.Some? && stored.value.uid.None? && stored.value.role == Some(Professional)
  {
    LookupUpsert(users, user.uid, FirstLoginDoc(user.email), user.uid);
  }
}
