/** The profile records of the `users` collection as the typed half of the
    application declares them: every account is a talent or an employer, and
    the role is carried by which of the two records it is. */
module Types {
  import opened Wrappers

  /** `UserRole`: exactly three values. */
  datatype UserRole = Talent | Employer | Admin

  datatype Plan = Free | Pro | Enterprise

  /** A clock reading (an ISO-8601 string in the application); only its order matters. */
  type Timestamp = nat

  /** The five named sub-checks of a talent's verification. */
  datatype VerificationStatus = VerificationStatus(
    personalInfo: bool,
    education: bool,
    experience: bool,
    documents: bool,
    overall: bool)

  datatype ExperienceEntry = ExperienceEntry(
    title: string,
    company: string,
    startDate: string,
    endDate: Option<string>,
    description: Option<string>)

  datatype EducationEntry = EducationEntry(
    degree: string,
    institution: string,
    year: int)

  /** The quota counters sit beside the plan; nothing in the core updates them. */
  datatype Subscription = Subscription(
    plan: Plan,
    searchesRemaining: int,
    searchesUsed: int,
    validUntil: Option<string>)

  /** `AppUser = TalentUser | EmployerUser`, each carrying the fields of `BaseUser`. */
  datatype AppUser =
    | TalentUser(
        uid: string,
        email: string,
        createdAt: Timestamp,
        updatedAt: Timestamp,
        displayName: Option<string>,
        photoURL: Option<string>,
        talentUID: string,
        fullName: string,
        profession: string,
        phone: Option<string>,
        verified: bool,
        verificationStatus: VerificationStatus,
        bio: Option<string>,
        skills: Option<seq<string>>,
        experience: Option<seq<ExperienceEntry>>,
        education: Option<seq<EducationEntry>>)
    | EmployerUser(
        uid: string,
        email: string,
        createdAt: Timestamp,
        updatedAt: Timestamp,
        displayName: Option<string>,
        photoURL: Option<string>,
        companyName: string,
        industry: string,
        employeeCount: Option<string>,
        phone: Option<string>,
        subscription: Subscription)
  {
    /** The `role` field, fixed by the variant. */
    function Role(): (r: UserRole)
      ensures r != Admin
      ensures r == Talent <==> this.TalentUser?
      ensures r == Employer <==> this.EmployerUser?
    {
      if TalentUser? then Talent else Employer
    }
  }

  predicate NothingVerified(s: VerificationStatus) {
    !s.personalInfo && !s.education && !s.experience && !s.documents && !s.overall
  }

  /** Although `UserRole` admits `admin`, no `AppUser` has that role. */
  lemma NoAppUserIsAdmin(u: AppUser)
    ensures u.Role() in {Talent, Employer}
    ensures u.Role() != Admin
  {
  }
}
