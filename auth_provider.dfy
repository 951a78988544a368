/** `AuthProvider` of lib/auth/AuthProvider.tsx: the session store holding the
    signed-in `user` and a `loading` flag, the two record builders, the
    sign-up, sign-in and sign-out handlers and the auth-state listener. The
    auth provider's answers, the document store's read/write outcomes, the
    clock and the identifier draws are arguments. */
module AuthProvider {
  import opened Wrappers
  import opened Types
  import opened Backend
  import Uid
  import FirebaseConfig
  import SearchService

  const ProfileNotFound: string := "User profile not found"

  /** The `userData` argument of `signUpTalent`. */
  datatype TalentSignUp = TalentSignUp(fullName: string, profession: string, phone: Option<string>)

  /** The `userData` argument of `signUpEmployer`. */
  datatype EmployerSignUp = EmployerSignUp(
    companyName: string,
    industry: string,
    employeeCount: Option<string>,
    phone: Option<string>)

  /** `createTalentUser`: a talent record with nothing verified yet, shown
      under its full name, with the generated public identifier. */
  function CreateTalentUser(userId: string, email: string, input: TalentSignUp, talentUID: string,
                            now: Timestamp)
    : (u: AppUser)
    ensures u.Role() == Talent
    ensures u.uid == userId && u.email == email && u.talentUID == talentUID
    ensures u.fullName == input.fullName && u.profession == input.profession && u.phone == input.phone
    ensures u.displayName == Some(input.fullName)
    ensures !u.verified && NothingVerified(u.verificationStatus)
    ensures u.createdAt == now && u.updatedAt == now
    ensures u.photoURL.None? && u.bio.None? && u.skills.None? && u.experience.None? && u.education.None?
  {
    TalentUser(
      uid := userId,
      email := email,
      createdAt := now,
      updatedAt := now,
      displayName := Some(input.fullName),
      photoURL := None,
      talentUID := talentUID,
      fullName := input.fullName,
      profession := input.profession,
      phone := input.phone,
      verified := false,
      verificationStatus := VerificationStatus(false, false, false, false, false),
      bio := None,
      skills := None,
      experience := None,
      education := None)
  }

  /** `createEmployerUser`: an employer record on the free plan with three
      searches left and none used, shown under its company name. */
  function CreateEmployerUser(userId: string, email: string, input: EmployerSignUp, now: Timestamp)
    : (u: AppUser)
    ensures u.Role() == Employer
    ensures u.uid == userId && u.email == email
    ensures u.companyName == input.companyName && u.industry == input.industry
    ensures u.employeeCount == input.employeeCount && u.phone == input.phone
    ensures u.displayName == Some(input.companyName)
    ensures u.subscription.plan == Free && u.subscription.searchesRemaining == 3
    ensures u.subscription.searchesUsed == 0 && u.subscription.validUntil.None?
    ensures u.createdAt == now && u.updatedAt == now && u.photoURL.None?
  {
    EmployerUser(
      uid := userId,
      email := email,
      createdAt := now,
      updatedAt := now,
      displayName := Some(input.companyName),
      photoURL := None,
      companyName := input.companyName,
      industry := input.industry,
      employeeCount := input.employeeCount,
      phone := input.phone,
      subscription := Subscription(Free, 3, 0, None))
  }

  /** A talent written by `signUpTalent` is what `searchByUID` returns for its
      identifier, as long as no other talent already holds that identifier
      (the identifier's uniqueness is never checked). */
  lemma {:induction false} RegisteredTalentIsFound(users: seq<Doc<AppUser>>, userId: string, talent: AppUser)
    requires talent.TalentUser?
    requires forall i :: 0 <= i < |users| ==> !SearchService.IsTalentWithUID(users[i], talent.talentUID)
    ensures SearchService.UIDMatches(Upsert(users, userId, talent), talent.talentUID) == [Doc(userId, talent)]
    ensures SearchService.SearchByUID(Upsert(users, userId, talent), talent.talentUID, Pass) == Ok(Some(talent))
  {
    var q := talent.talentUID;
    var after := Upsert(users, userId, talent);
    if users == [] {
      assert after == [Doc(userId, talent)];
      assert after[1..] == [];
    } else if users[0].id == userId {
      assert after[1..] == users[1..];
    } else {
      assert after[1..] == Upsert(users[1..], userId, talent);
      RegisteredTalentIsFound(users[1..], userId, talent);
    }
  }

  /** The code the document store refuses a write with when a field holds
      `undefined`; the store is set up without `ignoreUndefinedProperties`. */
  const InvalidArgument: string := "invalid-argument"

  /** A record the builders above produce with a field set to `undefined`:
      an optional input left out is still copied into the record (`phone`,
      and for an employer `employeeCount`). Fields the builders never set are
      absent, not `undefined`. */
  predicate HasUndefinedField(u: AppUser) {
    if u.TalentUser? then u.phone.None? else u.employeeCount.None? || u.phone.None?
  }

  /** What `setDoc` does with a record: one holding `undefined` is refused
      before the store is reached, any other meets the store's own outcome. */
  function StoreOutcome(u: AppUser, write: Outcome<Error>): Outcome<Error> {
    if HasUndefinedField(u) then Fail(StoreError(InvalidArgument)) else write
  }

  /** The session store. `users` is the `users` collection it reads and
      writes; the session user is always the profile stored under the account
      id it was read or written with (`authUid`). */
  class Session {
    var user: Option<AppUser>
    var loading: bool
    const users: Collection<AppUser>
    ghost var authUid: string

    ghost predicate Valid()
      reads this, users
    {
      user.Some? ==> Lookup(users.docs, authUid) == user
    }

    /** `useState(null)` and `useState(true)`. */
    constructor (users: Collection<AppUser>)
      ensures Valid()
      ensures this.users == users && user.None? && loading
    {
      this.users := users;
      user := None;
      loading := true;
      authUid := "";
    }

    /** `signUpTalent`: create the account, build the talent record with a
        fresh identifier, write it to `users/{uid}`, then publish it. A failed
        step rethrows its error and publishes nothing; an account already
        created stays without a profile. A sign-up without a phone number
        builds a record whose `phone` is `undefined`, which the store refuses. */
    method SignUpTalent(email: string, input: TalentSignUp, created: Result<AuthUser, Error>,
                        draws: seq<real>, now: Timestamp, write: Outcome<Error>)
      returns (r: Outcome<Error>)
      requires Valid()
      requires Uid.ValidDraws(draws) && FirebaseConfig.UidLength <= |draws|
      modifies this, users
      ensures Valid() && !loading
      ensures created.Err? ==> r == Fail(created.error) && user == old(user) && users.docs == old(users.docs)
      ensures created.Ok? ==>
        var talent := CreateTalentUser(created.value.uid, email, input, Uid.UidOf(draws[..FirebaseConfig.UidLength]), now);
        if input.phone.None? then
          && r == Fail(StoreError(InvalidArgument))
          && user == old(user)
          && users.docs == old(users.docs)
        else if write.Pass? then
          && r == Pass
          && user == Some(talent)
          && users.docs == Upsert(old(users.docs), created.value.uid, talent)
        else
          && r == write
          && user == old(user)
          && users.docs == old(users.docs)
    {
      loading := true;
      if created.Err? {
        r := Fail(created.error);
      } else {
        var talentUID := FirebaseConfig.GenerateUID(draws);
        var talentData := CreateTalentUser(created.value.uid, email, input, talentUID, now);
        ghost var before := users.docs;
        r := users.SetDoc(created.value.uid, talentData, StoreOutcome(talentData, write));
        if r.Pass? {
          LookupUpsert(before, created.value.uid, talentData, created.value.uid);
          user := Some(talentData);
          authUid := created.value.uid;
        }
      }
      loading := false;
    }

    /** `signUpEmployer`: the same steps with the employer record, which is
        refused when either the employee count or the phone number is left out. */
    method SignUpEmployer(email: string, input: EmployerSignUp, created: Result<AuthUser, Error>,
                          now: Timestamp, write: Outcome<Error>)
      returns (r: Outcome<Error>)
      requires Valid()
      modifies this, users
      ensures Valid() && !loading
      ensures created.Err? ==> r == Fail(created.error) && user == old(user) && users.docs == old(users.docs)
      ensures created.Ok? ==>
        var employer := CreateEmployerUser(created.value.uid, email, input, now);
        if input.employeeCount.None? || input.phone.None? then
          && r == Fail(StoreError(InvalidArgument))
          && user == old(user)
          && users.docs == old(users.docs)
        else if write.Pass? then
          && r == Pass
          && user == Some(employer)
          && users.docs == Upsert(old(users.docs), created.value.uid, employer)
        else
          && r == write
          && user == old(user)
          && users.docs == old(users.docs)
    {
      loading := true;
      if created.Err? {
        r := Fail(created.error);
      } else {
        var employerData := CreateEmployerUser(created.value.uid, email, input, now);
        ghost var before := users.docs;
        r := users.SetDoc(created.value.uid, employerData, StoreOutcome(employerData, write));
        if r.Pass? {
          LookupUpsert(before, created.value.uid, employerData, created.value.uid);
          user := Some(employerData);
          authUid := created.value.uid;
        }
      }
      loading := false;
    }

    /** `signInUser`: authenticate, read `users/{uid}` and publish it; a
        missing profile throws 'User profile not found'. On every error the
        session user is left as it was. */
    method SignIn(signedIn: Result<AuthUser, Error>, read: Outcome<Error>) returns (r: Outcome<Error>)
      requires Valid()
      modifies this
      ensures Valid() && !loading
      ensures signedIn.Err? ==> r == Fail(signedIn.error) && user == old(user)
      ensures signedIn.Ok? ==>
        match Read(users.docs, signedIn.value.uid, read)
        case Exists(d) => r == Pass && user == Some(d)
        case Missing => r == Fail(Thrown(ProfileNotFound)) && user == old(user)
        case ReadFailed(e) => r == Fail(e) && user == old(user)
    {
      loading := true;
      if signedIn.Err? {
        r := Fail(signedIn.error);
      } else {
        var snap := Read(users.docs, signedIn.value.uid, read);
        match snap
        case Exists(d) =>
          user := Some(d);
          authUid := signedIn.value.uid;
          r := Pass;
        case Missing =>
          r := Fail(Thrown(ProfileNotFound));
        case ReadFailed(e) =>
          r := Fail(e);
      }
      loading := false;
    }

    /** `signOutUser`: the session user becomes null once the provider has
        signed out; a failed sign-out rethrows and keeps the user. */
    method SignOut(signedOut: Outcome<Error>) returns (r: Outcome<Error>)
      requires Valid()
      modifies this
      ensures Valid() && !loading && r == signedOut
      ensures user == if signedOut.Pass? then None else old(user)
    {
      loading := true;
      r := signedOut;
      if signedOut.Pass? {
        user := None;
      }
      loading := false;
    }

    /** The `onAuthStateChanged` callback: no account clears the user; a
        stored profile is published; a missing profile or a failed read leaves
        the user as it was. Loading ends in every case. */
    method OnAuthStateChanged(firebaseUser: Option<AuthUser>, read: Outcome<Error>)
      requires Valid()
      modifies this
      ensures Valid() && !loading
      ensures firebaseUser.None? ==> user == None
      ensures firebaseUser.Some? ==>
        user == match Read(users.docs, firebaseUser.value.uid, read)
                case Exists(d) => Some(d)
                case _ => old(user)
    {
      if firebaseUser.Some? {
        var snap := Read(users.docs, firebaseUser.value.uid, read);
        if snap.Exists? {
          user := Some(snap.data);
          authUid := firebaseUser.value.uid;
        }
      } else {
        user := None;
      }
      loading := false;
    }
  }
}
