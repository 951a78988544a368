# BackCheck core, modelled in Dafny

BackCheck is a talent-verification web application. Talents (professionals) sign up and receive a 12-character public identifier. Employers (organisations) search for talents by that identifier, by profession or by name, and each lookup is recorded as a verification. This project models the decisions the application makes over its document store and auth provider:

- the identifier generators of `lib/utils/uid.ts` and `lib/firebase/config.ts`;
- the profile records of `types/index.ts`;
- the search service over the `users` and `verifications` collections;
- the session store `AuthProvider`;
- the role-to-route and guard decisions of the login, sign-up, organisation-search and professional-profile pages, and the menus of the site navbar and the two sidebars.

Two role vocabularies coexist in the application, and the model keeps both:

- `Types.AppUser` has the roles talent and employer. The auth provider, the search service, the navbar and the dashboard sidebar use it.
- `ClientDocs.ProfileDoc` is an untyped document whose `role` is an optional string such as 'professional', 'organisation' or 'admin'. The pages that talk to the store directly use it.

The backend is abstract:

- A collection is a sequence of `Backend.Doc`. `getDoc` is `Backend.Lookup` (the first document with the id; `setDoc` keeps ids unique, so it is the only one). `setDoc` without merge is `Backend.Upsert`.
- `Backend.Collection` is a collection updated in place.
- Whether each call to the auth provider or the store succeeds is an argument: an `Outcome` for a read or write, a `Result` for an account.
- `Math.random()` is a sequence of draws in [0, 1).
- A clock read is a `nat` timestamp.
- A navigation is the returned route (`Some(route)`); `None` means no navigation.

The query pipelines are `Query.Filter`, then `Query.Sort` with a total-preorder comparator, then `Query.Take`. Three behaviours of the store's SDK are modelled:

- `limit(n)` with `n <= 0` throws.
- `orderBy(field)` drops documents that lack the field.
- `setDoc` refuses a document with a field set to `undefined`, because the store is created without `ignoreUndefinedProperties` (`lib/firebase/config.ts:19`).

Two behaviours of the code differ from what a reader of the application might expect, and the model follows the code:

- The auth listener leaves the session user unchanged when the profile document is missing or the read fails. It does not reset the user to null.
- The session store's sign-up and sign-out handlers perform no navigation.

## Model

| member | source | states |
|---|---|---|
| Types.AppUser.Role | backcheck/src/types/index.ts:14-58 | Every talent record has role talent and every employer record role employer; no record has role admin. |
| Types.NoAppUserIsAdmin | backcheck/src/types/index.ts:2-58 | `UserRole` admits admin, but every `AppUser` is talent or employer. |
| Uid.DrawIndex | backcheck/src/lib/utils/uid.ts:5 | `floor(draw * 36)` is a valid index of the alphabet for every draw in [0, 1). |
| Uid.Pick | backcheck/src/lib/utils/uid.ts:5 | Each draw contributes exactly one character, taken from the alphabet. |
| Uid.UidOfLength | backcheck/src/lib/utils/uid.ts:3-6 | The identifier has one character per draw, so no draws give "". |
| Uid.UidOfAt | backcheck/src/lib/utils/uid.ts:5 | Character i is the alphabet entry picked by draw i. |
| Uid.UidOfInAlphabet | backcheck/src/lib/utils/uid.ts:2-5 | Every character is one of A-Z, 0-9. |
| Uid.UidOfPrefix | backcheck/src/lib/utils/uid.ts:4-5 | Characters are appended in draw order: the first n draws give the first n characters. |
| Uid.GenerateUID | backcheck/src/lib/utils/uid.ts:1-8 | The loop returns the identifier of the first `length` draws: exactly `length` characters, the i-th picked by draw i. |
| Uid.GenerateDefaultUID | backcheck/src/lib/utils/uid.ts:1 | With no argument the identifier has 12 characters, all from the alphabet. |
| FirebaseConfig.GenerateUID | backcheck/src/lib/firebase/config.ts:24-31 | Exactly 12 characters from the same alphabet; equal to the identifier of the first 12 draws. |
| FirebaseConfig.SameAsUtilGenerator | backcheck/src/lib/firebase/config.ts:24-31 | For the same draws it returns what `generateUID(12)` of uid.ts returns. |
| Backend.Lookup | backcheck/src/lib/auth/AuthProvider.tsx:188-191 | `getDoc` finds nothing exactly when no document has the id; otherwise it returns the data of a document with that id. |
| Backend.Upsert | backcheck/src/lib/auth/AuthProvider.tsx:129-130 | `setDoc` stores the document, adds no other document and keeps every document under another id. |
| Backend.LookupUpsert | backcheck/src/lib/auth/AuthProvider.tsx:129-130 | After `setDoc(id, data)`, reading `id` gives `data` and reading any other id gives what it gave before. |
| Backend.LookupUnique | backcheck/src/lib/auth/AuthProvider.tsx:188-191 | In a collection with unique ids, reading the id of any stored document gives that document. |
| Backend.UpsertKeepsIdsUnique | backcheck/src/lib/auth/AuthProvider.tsx:129-130 | `setDoc` keeps at most one document per id. |
| Backend.Read | backcheck/src/lib/auth/AuthProvider.tsx:189-191 | A read fails exactly when the store fails; otherwise the snapshot exists exactly when a document has the id. |
| Backend.Collection.SetDoc | backcheck/src/lib/auth/AuthProvider.tsx:129-130 | A successful write makes the collection the upsert of the old one; a failed write leaves it unchanged and returns the error. |
| Backend.Collection.AddDoc | backcheck/src/lib/services/search.service.ts:107-108 | A successful `addDoc` appends one document under the new id and returns that id; a failed one appends nothing. |
| Strings.Lower | backcheck/src/lib/services/search.service.ts:77-78 | `toLowerCase` keeps the length, lowers each ASCII capital and leaves no capital in the result. |
| Strings.LowerIdempotent | backcheck/src/lib/services/search.service.ts:77-78 | Lowering an already lowered string changes nothing. |
| Strings.UpperChar | backcheck/src/components/dashboard/DashboardSidebar.tsx:82 | `toUpperCase` of a lower-case ASCII letter is its capital; any other character is unchanged. |
| Strings.IncludesAt | backcheck/src/lib/services/search.service.ts:77-78 | A needle found at any position makes `includes` true. |
| Strings.IncludesWitness | backcheck/src/lib/services/search.service.ts:77-78 | If `includes` is true, the needle occurs at some position of the haystack. |
| Strings.LexLeTotal | backcheck/src/lib/services/search.service.ts:67 | Any two display names are ordered one way or the other. |
| Strings.LexLeTransitive | backcheck/src/lib/services/search.service.ts:67 | The display-name order is transitive. |
| Query.Filter | backcheck/src/lib/services/search.service.ts:14-15 | `where` keeps exactly the documents satisfying the condition, in their original order. |
| Query.FilterMultiplicity | backcheck/src/lib/services/search.service.ts:76-79 | `filter` keeps each satisfying element exactly as often as it occurs in the input, and no other element. |
| Query.Take | backcheck/src/lib/services/search.service.ts:16 | `limit(n)` returns a prefix of at most n documents. |
| Query.Sort | backcheck/src/lib/services/search.service.ts:42 | `orderBy` returns a permutation of its input. |
| Query.SortSorted | backcheck/src/lib/services/search.service.ts:42 | Under a total preorder the output of `orderBy` is ordered. |
| Query.TakeSortedIsTop | backcheck/src/lib/services/search.service.ts:42-43 | A document cut by the limit comes no earlier in the order than any document that was kept, and the page is full. |
| Query.TakeSubMultiset | backcheck/src/lib/services/search.service.ts:43 | `limit(n)` repeats nothing: what it keeps is a sub-multiset of its input. |
| SearchService.UpsertKeepsWellKeyed | backcheck/src/lib/auth/AuthProvider.tsx:129-130 | Writing a profile under its own uid keeps every stored profile's uid equal to its document id. |
| SearchService.LookupWellKeyed | backcheck/src/lib/auth/AuthProvider.tsx:188-193 | In a collection keyed this way, the profile read under an id carries that id. |
| SearchService.Profiles | backcheck/src/lib/services/search.service.ts:47-50 | `docs.map` keeps the number and the order of the documents. The stored `uid` is spread over `doc.id`, so a profile's uid is its document id only in a well-keyed collection, and there it always is. |
| SearchService.ProfilesSort | backcheck/src/lib/services/search.service.ts:42-50 | Sorting the documents before the `map` permutes the returned profiles. |
| SearchService.ProfilesOfPage | backcheck/src/lib/services/search.service.ts:42-50 | The profiles of a sorted, limited page are a sub-multiset of the profiles of all matches. |
| SearchService.SearchByUID | backcheck/src/lib/services/search.service.ts:9-32 | The result is null exactly when no talent has the identifier; otherwise it is a stored talent with that identifier. A failed query becomes 'Search failed. Please try again.'. |
| SearchService.UIDResultIsDocId | backcheck/src/lib/services/search.service.ts:26 | The profile found carries the id of the document it came from. |
| SearchService.SearchByProfession | backcheck/src/lib/services/search.service.ts:35-56 | Only stored talents with exactly that profession, newest first, at most `limitCount` (default 10), each matching document returned at most once (a sub-multiset of the matches' profiles). A failed query or a limit of 0 or less gives the search error. |
| SearchService.ProfessionResultsAreNewest | backcheck/src/lib/services/search.service.ts:42-43 | The page holds `min(limitCount, matches)` profiles; a match left out is no newer than any profile returned. |
| SearchService.ProfessionResultsCarryDocIds | backcheck/src/lib/services/search.service.ts:47-50 | In a well-keyed collection every profile returned is a stored one whose uid is its document id. |
| SearchService.SearchByName | backcheck/src/lib/services/search.service.ts:59-87 | The results are exactly the profiles of the fetched page whose lower-cased full name or display name contains the lower-cased query, in page order, at most 20. |
| SearchService.NameResultsKeepEveryMatch | backcheck/src/lib/services/search.service.ts:74-79 | No matching profile of the page is dropped: each occurs in the results exactly as often as on the page, and a non-matching profile not at all. |
| SearchService.NamePageIsFirstTwenty | backcheck/src/lib/services/search.service.ts:64-69 | The page is ordered by display name and holds only talents with a display name. A talent left out means the page has 20 names sorting no later. |
| SearchService.NameResultsCarryDocIds | backcheck/src/lib/services/search.service.ts:73-75 | In a well-keyed collection every profile returned is a stored one whose uid is its document id. |
| SearchService.ViewedRecord | backcheck/src/lib/services/search.service.ts:97-105 | The record has the given ids, the current time, status 'viewed' and empty name fields. |
| SearchService.CreateVerificationRecord | backcheck/src/lib/services/search.service.ts:90-114 | On success exactly one viewed record is appended and its id returned; a failed write appends nothing and gives 'Failed to record search.'. |
| SearchService.CreateVerificationRecordAsWritten | backcheck/src/lib/services/search.service.ts:107-113 | With `addDoc` not imported, every call fails with 'Failed to record search.'. |
| SearchService.AsWrittenLosesRecord | backcheck/src/lib/services/search.service.ts:107-108 | For a write the store accepts, the file as written fails while the corrected operation appends one record. |
| SearchService.GetSearchHistory | backcheck/src/lib/services/search.service.ts:117-137 | Only stored records of that employer, newest first, exactly min(50, that employer's records) of them, each at most once (a sub-multiset of the employer's records); a failed read gives []. |
| SearchService.HistoryIsNewest | backcheck/src/lib/services/search.service.ts:122-124 | A record of the employer left out of the history means the history is full (50), and every record in it was searched no earlier. |
| SearchService.NewRecordHeadsHistory | backcheck/src/lib/services/search.service.ts:123-124 | A record appended later than every earlier record of its employer comes first in that employer's history. |
| AuthProvider.CreateTalentUser | backcheck/src/lib/auth/AuthProvider.tsx:43-74 | Role talent, not verified, all five status flags false, display name = full name, the generated talentUID, and both timestamps = now. |
| AuthProvider.CreateEmployerUser | backcheck/src/lib/auth/AuthProvider.tsx:77-104 | Role employer, plan free, 3 searches remaining, 0 used, no expiry, display name = company name. |
| AuthProvider.RegisteredTalentIsFound | backcheck/src/lib/auth/AuthProvider.tsx:122-130 | If no stored talent already has the identifier, searching it after sign-up returns the record just written. |
| AuthProvider.Session.constructor | backcheck/src/lib/auth/AuthProvider.tsx:39-40 | The session starts with no user and loading, over any `users` collection. |
| AuthProvider.Session.SignUpTalent | backcheck/src/lib/auth/AuthProvider.tsx:107-143 | On success the stored `users/{uid}` document and the session user are the same new talent. Without a phone the record's `phone` is `undefined` (line 63), so the write is refused with 'invalid-argument'. A failed account, a refused write or a failed write rethrows and changes neither; loading ends false. |
| AuthProvider.Session.SignUpEmployer | backcheck/src/lib/auth/AuthProvider.tsx:146-179 | The same as talent sign-up, with the employer record. It is refused when the employee count or the phone is left out (lines 95-96). |
| AuthProvider.Session.SignIn | backcheck/src/lib/auth/AuthProvider.tsx:182-204 | The user becomes the stored document. A missing document throws 'User profile not found', and every error leaves the user unchanged; loading ends false. |
| AuthProvider.Session.SignOut | backcheck/src/lib/auth/AuthProvider.tsx:207-218 | The user becomes null exactly when the provider signs out; the error is rethrown otherwise; loading ends false. |
| AuthProvider.Session.OnAuthStateChanged | backcheck/src/lib/auth/AuthProvider.tsx:221-239 | No account clears the user; a stored profile becomes the user; a missing profile or failed read leaves the user; loading ends false. |
| ClientDocs.FirstLoginDoc | backcheck/src/app/signin/page.tsx:46-49 | The default document holds the email and role 'professional' and no public uid. |
| SigninPage.EmailLoginRoute | backcheck/src/app/signin/page.tsx:23-26 | professional → /professional/profile, organisation → /organisation/search, admin → /admin/dashboard, and exactly the other roles → "/". |
| SigninPage.GoogleLoginRouteAsWritten | backcheck/src/app/signin/page.tsx:53-56 | professional → /professionals/profile, organisation → /organisation/dashboard, admin → /admin/dashboard, else "/". |
| SigninPage.GoogleLoginRoute | backcheck/src/app/signin/page.tsx:53-56 | The same chain with professionals sent to /professional/profile. |
| SigninPage.GoogleLoginMissesProfilePage | backcheck/src/app/signin/page.tsx:53 | As written, Google login does not send a professional to the profile page, though email login does. |
| SigninPage.AsWrittenPathsDisagree | backcheck/src/app/signin/page.tsx:23-56 | As written, the two login paths disagree exactly for professionals and organisations. |
| SigninPage.LoginPathsDisagreeOnlyOnOrganisations | backcheck/src/app/signin/page.tsx:23-56 | Once corrected, the two paths disagree only for organisations, and the correction changes only the professional route. |
| SigninPage.HandleLogin | backcheck/src/app/signin/page.tsx:15-30 | A failed sign-in or read navigates nowhere; otherwise the route is chosen by the stored role, and "/" when there is no document. |
| SigninPage.HandleGoogleLogin | backcheck/src/app/signin/page.tsx:33-60 | With the corrected route chain (`GoogleLoginRoute`, see Findings): an existing document is never written and routes by its role. A missing one is written once with the default and then routes to /professional/profile. Any failure navigates nowhere. |
| SigninPage.FirstGoogleLoginThenEmailLogin | backcheck/src/app/signin/page.tsx:46-50 | After a first Google login, an email login routes the same account to /professional/profile. |
| SignupProfessionalPage.SignupDoc | backcheck/src/app/signup/professional/page.tsx:27-32 | The email sign-up document: email, role 'professional', the public uid and the creation time. |
| SignupProfessionalPage.HandleSignup | backcheck/src/app/signup/professional/page.tsx:17-40 | On success `users/{authUid}` holds the document with `generateUID(12)`, and the page goes to /professional/profile. A failed account creation or write navigates nowhere, and a failed account creation writes nothing. |
| SignupProfessionalPage.HandleGoogleSignup | backcheck/src/app/signup/professional/page.tsx:44-60 | Writes `{email, role: 'professional'}` whether or not a document exists, then goes to /professional/profile; a failure navigates nowhere. |
| SignupProfessionalPage.SignupStoresPublicUid | backcheck/src/app/signup/professional/page.tsx:24-32 | After email sign-up the stored document has role professional and a 12-character uid from A-Z, 0-9. |
| SignupProfessionalPage.GoogleSignupDropsPublicUid | backcheck/src/app/signup/professional/page.tsx:51-54 | After Google sign-up the stored document has no public uid, even if an earlier sign-up stored one. |
| OrganisationSearchPage.Guard | backcheck/src/app/organisation/search/page.tsx:14-23 | No user → /login. A signed-in user stays exactly when the document exists with role 'organisation', and is otherwise sent to "/". |
| OrganisationSearchPage.MissingDocumentGoesHome | backcheck/src/app/organisation/search/page.tsx:19-21 | A signed-in user without a document is sent to "/". |
| OrganisationSearchPage.OnlyOrganisationsStay | backcheck/src/app/organisation/search/page.tsx:19-22 | Any role other than 'organisation', or none, is redirected. |
| ProfessionalProfilePage.RenderContent | backcheck/src/app/professional/profile/page.tsx:60-83 | The default prompt is shown exactly for keys that are not one of the nine tabs. |
| ProfessionalProfilePage.TabsShowDistinctContent | backcheck/src/app/professional/profile/page.tsx:60-83 | Each of the nine tabs shows its own text. |
| ProfessionalProfilePage.ProfilePage.constructor | backcheck/src/app/professional/profile/page.tsx:19-21 | No profile, loading, and the active tab is "personal". |
| ProfessionalProfilePage.ProfilePage.OnAuthChange | backcheck/src/app/professional/profile/page.tsx:24-38 | No user → /login and a missing document → "/", both staying loading. A document of any role becomes the profile and ends loading. |
| ProfessionalProfilePage.ProfilePage.SelectTab | backcheck/src/app/professional/profile/page.tsx:111 | A tab click changes only the active tab. |
| ProfessionalProfilePage.ProfilePage.Render | backcheck/src/app/professional/profile/page.tsx:43-44 | "Loading..." exactly while loading; once loading has ended, "No profile found." cannot be reached. |
| ProfessionalProfilePage.FirstLoad | backcheck/src/app/professional/profile/page.tsx:21-44 | A fresh page with a stored document shows it on the personal tab; without one it stays loading and redirects to "/". |
| SiteNavbar.DashboardTarget | backcheck/src/components/site/SiteNavbar.tsx:41 | A talent targets /dashboard/talent/profile, and every other role /dashboard/employer/search. |
| SiteNavbar.MenusAgree | backcheck/src/components/site/SiteNavbar.tsx:28-107 | The desktop and mobile menus link to the same places for the same user. |
| SiteNavbar.SignedOutLinks | backcheck/src/components/site/SiteNavbar.tsx:46-59 | Signed out: /login, /register/talent, /register/employer, and no dashboard link. |
| SiteNavbar.SignedInLinks | backcheck/src/components/site/SiteNavbar.tsx:39-45 | Signed in: one dashboard link and none of the signed-out links. |
| SiteNavbar.DashboardByRole | backcheck/src/components/site/SiteNavbar.tsx:41 | Talents and employers each land on their own dashboard. |
| DashboardSidebar.NavItems | backcheck/src/components/dashboard/DashboardSidebar.tsx:30-48 | A talent gets four items under /dashboard/talent/; any other role three under /dashboard/employer/. |
| DashboardSidebar.PrefixesAreComparable | backcheck/src/components/dashboard/DashboardSidebar.tsx:102 | Two prefixes of one pathname are prefixes of each other. |
| DashboardSidebar.TalentHrefsArePrefixFree | backcheck/src/components/dashboard/DashboardSidebar.tsx:34-39 | No talent href is a prefix of another. |
| DashboardSidebar.EmployerHrefsArePrefixFree | backcheck/src/components/dashboard/DashboardSidebar.tsx:42-46 | No employer href is a prefix of another. |
| DashboardSidebar.HrefsArePrefixFree | backcheck/src/components/dashboard/DashboardSidebar.tsx:48 | No href of the chosen menu is a prefix of another. |
| DashboardSidebar.AtMostOneActive | backcheck/src/components/dashboard/DashboardSidebar.tsx:100-102 | With the `startsWith` test, any pathname highlights at most one item. |
| DashboardSidebar.IdLine | backcheck/src/components/dashboard/DashboardSidebar.tsx:88-92 | The ID line is shown exactly for a talent with a non-empty talentUID. |
| DashboardSidebar.Initial | backcheck/src/components/dashboard/DashboardSidebar.tsx:82 | At most one character. It is the first character of a non-empty display name, else the upper-cased first character of a non-empty email, and "" only when both are empty. |
| DashboardSidebar.NameLine | backcheck/src/components/dashboard/DashboardSidebar.tsx:86 | A non-empty display name is shown; with none, or an empty one, the email is shown. |
| DashboardSidebar.EmailInitialIsNotLower | backcheck/src/components/dashboard/DashboardSidebar.tsx:82 | An initial taken from the email is never a lower-case letter. |
| DashboardSidebar.RegisteredUsersShowTheirName | backcheck/src/components/dashboard/DashboardSidebar.tsx:82-92 | A record made at sign-up shows its full name or company name, with its first letter as the initial, and the ID line exactly for a talent. |
| DashboardSidebar.SignOutClick | backcheck/src/components/dashboard/DashboardSidebar.tsx:128 | The button signs out through the session store and navigates nowhere. |
| AppSidebar.EffectiveRole | backcheck/src/components/app/AppSidebar.tsx:22 | Missing data or an empty role defaults to 'professional'. |
| AppSidebar.MenuItems | backcheck/src/components/app/AppSidebar.tsx:25-71 | Four items always: the professional menu exactly for the effective role 'professional', the organisation menu otherwise. |
| AppSidebar.DistinctAt | backcheck/src/components/app/AppSidebar.tsx:25-69 | The hrefs within each menu are pairwise distinct. |
| AppSidebar.ActiveIsExact | backcheck/src/components/app/AppSidebar.tsx:122 | With the equality test, a pathname highlights at most one item. |
| AppSidebar.Badge | backcheck/src/components/app/AppSidebar.tsx:93 | 'U' exactly without data, 'P' exactly for role 'professional', and 'O' for any other role, including none. |
| AppSidebar.BadgeAndMenuDisagreeWithoutRole | backcheck/src/components/app/AppSidebar.tsx:22-93 | The badge says 'O' while the menu is the professional one exactly when the data has no role. |
| AppSidebar.AccountName | backcheck/src/components/app/AppSidebar.tsx:97-101 | A professional's full name or 'Professional'; anyone else's company name or 'Organisation'. |
| AppSidebar.IdLine | backcheck/src/components/app/AppSidebar.tsx:106-110 | Shown exactly for a professional with a non-empty professionalUID. |
| AppSidebar.HandleSignOut | backcheck/src/components/app/AppSidebar.tsx:73-76 | Sign-out comes first; the route to /signin follows it exactly when sign-out resolved. |

## Left out

- Firebase initialisation, the admin SDK, network behaviour and security rules are not modelled. Only the success or failure of each call, given as an argument, is kept.
- The auth provider's account table is not modelled. An account created before a failed profile write stays without a profile; the model shows this only as the unchanged `users` collection.
- Uid.GenerateUID: takes a `nat` length. A negative or fractional `length` in JavaScript (an empty string, or one more iteration) is not modelled.
- Draws are real numbers in [0, 1), not IEEE doubles, and no uniformity or collision claim is made.
- `toLowerCase`/`toUpperCase` are modelled on ASCII letters only; full Unicode case mapping is not modelled.
- Timestamps are abstract natural numbers. AuthProvider.CreateTalentUser and AuthProvider.CreateEmployerUser read the clock twice; the model uses one `now` for both reads. `searchedAt` is an ISO string compared as text, and the model compares it as a number.
- SearchService.SearchByProfession: takes an integer `limitCount`. A fractional JavaScript `number` passed as the limit is not modelled.
- Firestore's order among equal sort keys is unspecified. The model sorts stably, and every lemma about order holds for any tie order.
- SearchService.UIDResultIsDocId, SearchService.ProfessionResultsCarryDocIds, SearchService.NameResultsCarryDocIds: each holds only in a well-keyed collection. Nothing keeps `users` that way: the professional sign-up page stores its public identifier in `uid` (`app/signup/professional/page.tsx:27-32`). Outside such a collection the returned `uid` is the stored field, not the document id.
- JavaScript's `charAt`, `[0]` and `length` count UTF-16 code units. The model counts Unicode scalar values, so an identifier, name or email that starts with a character outside the Basic Multilingual Plane is not modelled as JavaScript would treat it.
- `limit(1)` of `searchByUID` takes the first stored match. Which match the store returns first when two talents share an identifier is not modelled.
- SearchService.SearchByName: a talent with no `displayName` is dropped by `orderBy`. Full names that are `undefined` at run time cannot occur in the typed record.
- The listener subscriptions, React effect timing, concurrent tabs, `console` logging and `alert` are not modelled; each handler is one sequential step sequence.
- UI toggle state is not modelled: `isMenuOpen`, `collapsed`, CSS classes and icons.
- A rejected promise that a page leaves unhandled (a failed read in the organisation-search or profile listener, a failed sign-out in the dashboard sidebar) is modelled as "no navigation and no state change".
- AppSidebar reads `userData` from `lib/contexts/AuthContext`, which is not part of this model. Its `signOut` is an argument, and the "Account" role line is not modelled.
- Not modelled, because they are presentation only: MarketingFooter, MarketingNavbar, HeroSection, FeaturesSection, HowItWorks, CTASection, SiteFooter, AuthNavbar, DashboardHeader, and the layouts and landing page.
- Not modelled: `middleware.ts`, which always passes through; `LogoutButton`, a sign-out-then-push wrapper; `next.config.ts`, which is configuration.
- The other, competing sign-in, sign-up and dashboard pages under the route groups are not part of this model.

## Findings

| source | as written | input that shows it | evidently intended | confidence | as-written member | corrected member |
|---|---|---|---|---|---|---|
| backcheck/src/lib/services/search.service.ts:107 | `addDoc` is called but not imported (line 3 imports only collection, query, where, getDocs, limit, orderBy), so the call throws inside the `try` and every call ends in 'Failed to record search.' with nothing recorded | any call, e.g. employer "e1", talent "t1", talentUID "ABC123DEF456" with a store that accepts the write | append one 'viewed' record and return its id | not executed; the TypeScript build would also reject the file | SearchService.CreateVerificationRecordAsWritten | SearchService.CreateVerificationRecord |
| backcheck/src/app/signin/page.tsx:53 | Google login sends role 'professional' to "/professionals/profile", a route with no page; email login (line 23) and both sign-up handlers use "/professional/profile" | a Google login whose `users` document has role 'professional', or a first Google login | "/professional/profile" | not executed | SigninPage.GoogleLoginRouteAsWritten | SigninPage.GoogleLoginRoute |
