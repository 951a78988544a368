/** The `users` documents as the pages importing `@/lib/firebase/client` read
    and write them: every field optional and the role a free string such as
    'professional', 'organisation' or 'admin' (not the talent/employer roles
    of the typed records). */
module ClientDocs {
  import opened Wrappers
  import opened Backend
  import Types

  const Professional: string := "professional"
  const Organisation: string := "organisation"
  const AdminRole: string := "admin"

  /** The route of app/professional/profile/page.tsx. */
  const ProfessionalProfile: string := "/professional/profile"

  /** A `users/{uid}` document: `email`, `role`, the 12-character public `uid`,
      `createdAt` and the `name` the profile page shows. */
  datatype ProfileDoc = ProfileDoc(
    email: Option<string>,
    role: Option<string>,
    uid: Option<string>,
    createdAt: Option<Types.Timestamp>,
    name: Option<string>)

  /** `{ email: user.email, role: "professional" }`: the document a first
      Google login or a Google sign-up writes, with no public uid. */
  function FirstLoginDoc(email: Option<string>): (d: ProfileDoc)
    ensures d.role == Some(Professional) && d.email == email
    ensures d.uid.None? && d.createdAt.None? && d.name.None?
  {
    ProfileDoc(email, Some(Professional), None, None, None)
  }

  /** `userDoc.exists() ? userDoc.data().role : null` after a successful read. */
  function StoredRole(snap: Snapshot<ProfileDoc>): Option<string>
    requires !snap.ReadFailed?
  {
    if snap.Exists? then snap.data.role else None
  }
}
