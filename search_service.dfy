/** `SearchService` of lib/services/search.service.ts. The three searches and
    the history read are query pipelines over the `users` and `verifications`
    collections (filter, then order, then limit, then map); recording a
    verification appends to `verifications`. A failed backend call is the
    `query`/`write` oracle argument. */
module SearchService {
  import opened Wrappers
  import opened Types
  import opened Backend
  import opened Strings
  import Query

  const SearchFailed: string := "Search failed. Please try again."
  const RecordFailed: string := "Failed to record search."

  const DefaultProfessionLimit: int := 10
  const NamePageSize: nat := 20
  const HistoryLimit: nat := 50

  /** A row of the `verifications` collection. */
  datatype Verification = Verification(
    employerId: string,
    talentId: string,
    talentUID: string,
    searchedAt: Timestamp,
    status: string,
    employerName: string,
    talentName: string)

  /** Every stored profile carries its own document id in its `uid` field,
      as `signUpTalent` and `signUpEmployer` write it. Nothing keeps a
      collection this way, so the lemmas below assume it where they need it. */
  predicate WellKeyed(users: seq<Doc<AppUser>>) {
    forall i :: 0 <= i < |users| ==> users[i].data.uid == users[i].id
  }

  /** Writing a profile under its own `uid` keeps the collection well keyed. */
  lemma UpsertKeepsWellKeyed(users: seq<Doc<AppUser>>, u: AppUser)
    requires WellKeyed(users)
    ensures WellKeyed(Upsert(users, u.uid, u))
  {
    var r := Upsert(users, u.uid, u);
    forall i | 0 <= i < |r| ensures r[i].data.uid == r[i].id {
      assert r[i] in r;
      if r[i] != Doc(u.uid, u) {
        var j :| 0 <= j < |users| && users[j] == r[i];
      }
    }
  }

  /** The profile stored under an id carries that id. */
  lemma LookupWellKeyed(users: seq<Doc<AppUser>>, id: string)
    requires WellKeyed(users) && Lookup(users, id).Some?
    ensures Lookup(users, id).value.uid == id
  {
  }

  /** `{ uid: doc.id, ...doc.data() }`: the stored fields are spread after
      the document id, so the stored `uid` is the one that remains. */
  function StoredProfile(d: Doc<AppUser>): AppUser {
    d.data
  }

  function Profiles(docs: seq<Doc<AppUser>>): (r: seq<AppUser>)
    ensures |r| == |docs|
    ensures forall i :: 0 <= i < |docs| ==> r[i] == StoredProfile(docs[i])
    ensures WellKeyed(docs) ==> forall i :: 0 <= i < |r| ==> r[i].uid == docs[i].id
  {
    seq(|docs|, i requires 0 <= i < |docs| => StoredProfile(docs[i]))
  }

  lemma ProfilesAppend(a: seq<Doc<AppUser>>, b: seq<Doc<AppUser>>)
    ensures Profiles(a + b) == Profiles(a) + Profiles(b)
  {
    assert forall i :: 0 <= i < |a + b| ==> Profiles(a + b)[i] == (Profiles(a) + Profiles(b))[i];
  }

  lemma {:induction false} ProfilesInsert(x: Doc<AppUser>, s: seq<Doc<AppUser>>, le: (Doc<AppUser>, Doc<AppUser>) -> bool)
    ensures multiset(Profiles(Query.Insert(x, s, le))) == multiset(Profiles(s)) + multiset{StoredProfile(x)}
  {
    if s == [] {
    } else if le(x, s[0]) {
      ProfilesAppend([x], s);
    } else {
      ProfilesInsert(x, s[1..], le);
      ProfilesAppend([s[0]], Query.Insert(x, s[1..], le));
      assert s == [s[0]] + s[1..];
      ProfilesAppend([s[0]], s[1..]);
    }
  }

  /** Sorting the documents permutes their profiles. */
  lemma ProfilesCons(s: seq<Doc<AppUser>>)
    requires s != []
    ensures Profiles(s) == [StoredProfile(s[0])] + Profiles(s[1..])
  {
    assert forall i :: 0 <= i < |s| ==> Profiles(s)[i] == ([StoredProfile(s[0])] + Profiles(s[1..]))[i];
  }

  lemma {:induction false} ProfilesSort(s: seq<Doc<AppUser>>, le: (Doc<AppUser>, Doc<AppUser>) -> bool)
    ensures multiset(Profiles(Query.Sort(s, le))) == multiset(Profiles(s))
  {
    if s != [] {
      var t := Query.Sort(s[1..], le);
      assert Query.Sort(s, le) == Query.Insert(s[0], t, le);
      ProfilesSort(s[1..], le);
      ProfilesInsert(s[0], t, le);
      ProfilesCons(s);
      assert multiset(Profiles(s)) == multiset(Profiles(s[1..])) + multiset{StoredProfile(s[0])};
    }
  }



  /** A page cut from the sorted documents holds each matching profile at
      most as often as the matches do: no document is returned twice. */
  lemma ProfilesOfPage(s: seq<Doc<AppUser>>, le: (Doc<AppUser>, Doc<AppUser>) -> bool, n: nat)
    ensures multiset(Profiles(Query.Take(Query.Sort(s, le), n))) <= multiset(Profiles(s))
  {
    var sorted := Query.Sort(s, le);
    assert Profiles(Query.Take(sorted, n)) == Query.Take(Profiles(sorted), n);
    Query.TakeSubMultiset(Profiles(sorted), n);
    ProfilesSort(s, le);
  }
  // ---------------------------------------------------------------- searchByUID

  predicate IsTalentWithUID(d: Doc<AppUser>, talentUID: string) {
    d.data.TalentUser? && d.data.talentUID == talentUID
  }

  function UIDMatches(users: seq<Doc<AppUser>>, talentUID: string): seq<Doc<AppUser>> {
    Query.Filter(users, d => IsTalentWithUID(d, talentUID))
  }

  /** `searchByUID`: `where role == 'talent'`, `where talentUID == q`, `limit(1)`. */
  function SearchByUID(users: seq<Doc<AppUser>>, talentUID: string, query: Outcome<Error>)
    : (r: Result<Option<AppUser>, Error>)
    ensures r.Err? <==> query.Fail?
    ensures r.Err? ==> r.error == Thrown(SearchFailed)
    ensures r.Ok? ==> (r.value.None? <==> forall i :: 0 <= i < |users| ==> !IsTalentWithUID(users[i], talentUID))
    ensures r.Ok? && r.value.Some? ==>
      && r.value.value.Role() == Talent
      && r.value.value.talentUID == talentUID
      && exists i :: 0 <= i < |users| && IsTalentWithUID(users[i], talentUID) && users[i].data == r.value.value
  {
    if query.Fail? then Err(Thrown(SearchFailed))
    else
      var hits := Query.Take(UIDMatches(users, talentUID), 1);
      if hits == [] then
        assert forall i :: 0 <= i < |users| ==> !IsTalentWithUID(users[i], talentUID) by {
          forall i | 0 <= i < |users| ensures !IsTalentWithUID(users[i], talentUID) {
            assert users[i] in users;
          }
        }
        Ok(None)
      else
        assert hits[0] in UIDMatches(users, talentUID);
        Ok(Some(StoredProfile(hits[0])))
  }

  /** The profile `searchByUID` returns carries the id of the document it came
      from, provided the stored profiles are keyed by their own `uid`. */
  lemma UIDResultIsDocId(users: seq<Doc<AppUser>>, talentUID: string)
    requires WellKeyed(users)
    ensures var r := SearchByUID(users, talentUID, Pass);
      r.Ok? && r.value.Some? ==>
        exists i :: 0 <= i < |users| && users[i].id == r.value.value.uid && users[i].data == r.value.value
  {
  }

  // --------------------------------------------------------- searchByProfession

  predicate IsTalentIn(d: Doc<AppUser>, profession: string) {
    d.data.TalentUser? && d.data.profession == profession
  }

  function ProfessionMatches(users: seq<Doc<AppUser>>, profession: string): seq<Doc<AppUser>> {
    Query.Filter(users, d => IsTalentIn(d, profession))
  }

  /** `orderBy('createdAt', 'desc')`. */
  predicate NewerFirst(a: Doc<AppUser>, b: Doc<AppUser>) {
    a.data.createdAt >= b.data.createdAt
  }

  lemma NewerFirstIsTotalPreorder()
    ensures Query.TotalPreorder(NewerFirst)
  {
  }

  function ProfessionPage(users: seq<Doc<AppUser>>, profession: string, limitCount: nat): seq<Doc<AppUser>> {
    Query.Take(Query.Sort(ProfessionMatches(users, profession), NewerFirst), limitCount)
  }

  /** `searchByProfession`: `where role == 'talent'`, `where profession == p`
      (exact, case-sensitive), newest first, `limit(limitCount)`. A limit that
      is not positive is refused by the store's `limit()` and surfaces as the
      search error. */
  function SearchByProfession(users: seq<Doc<AppUser>>, profession: string, query: Outcome<Error>,
                              limitCount: int := DefaultProfessionLimit)
    : (r: Result<seq<AppUser>, Error>)
    ensures r.Err? <==> query.Fail? || limitCount <= 0
    ensures r.Err? ==> r.error == Thrown(SearchFailed)
    ensures r.Ok? ==> |r.value| <= limitCount
    ensures r.Ok? ==> forall i :: 0 <= i < |r.value| ==>
      r.value[i].Role() == Talent && r.value[i].profession == profession
    ensures r.Ok? ==> forall i, j :: 0 <= i < j < |r.value| ==> r.value[i].createdAt >= r.value[j].createdAt
    ensures r.Ok? ==> forall i :: 0 <= i < |r.value| ==> exists k :: 0 <= k < |users| && users[k].data == r.value[i]
    ensures r.Ok? ==> multiset(r.value) <= multiset(Profiles(ProfessionMatches(users, profession)))
  {
    if query.Fail? || limitCount <= 0 then Err(Thrown(SearchFailed))
    else
      var matches := ProfessionMatches(users, profession);
      var page := ProfessionPage(users, profession, limitCount);
      NewerFirstIsTotalPreorder();
      Query.SortSorted(matches, NewerFirst);
      assert Query.Sorted(page, NewerFirst);
      assert forall i :: 0 <= i < |page| ==> page[i] in matches by {
        forall i | 0 <= i < |page| ensures page[i] in matches {
          assert page[i] in multiset(Query.Sort(matches, NewerFirst));
        }
      }
      ProfilesOfPage(matches, NewerFirst, limitCount);
      Ok(Profiles(page))
  }

  /** The limit only cuts the oldest matches: the page has `limitCount`
      profiles or all matches, and a matching profile left out is no newer
      than any returned one. */
  lemma ProfessionResultsAreNewest(users: seq<Doc<AppUser>>, profession: string, limitCount: int, d: Doc<AppUser>)
    requires limitCount > 0
    requires d in users && IsTalentIn(d, profession)
    ensures var r := SearchByProfession(users, profession, Pass, limitCount).value;
      |r| == if limitCount < |ProfessionMatches(users, profession)| then limitCount else |ProfessionMatches(users, profession)|
    ensures var r := SearchByProfession(users, profession, Pass, limitCount).value;
      d.data !in r ==> |r| == limitCount && forall i :: 0 <= i < |r| ==> r[i].createdAt >= d.data.createdAt
  {
    var r := SearchByProfession(users, profession, Pass, limitCount).value;
    var page := ProfessionPage(users, profession, limitCount);
    assert d in ProfessionMatches(users, profession);
    if d.data !in r {
      if d in page {
        assert false;
      }
      NewerFirstIsTotalPreorder();
      Query.TakeSortedIsTop(ProfessionMatches(users, profession), NewerFirst, limitCount, d);
    }
  }
  /** In a well-keyed collection every profile the profession search returns
      carries the id of the document it came from. */
  lemma ProfessionResultsCarryDocIds(users: seq<Doc<AppUser>>, profession: string, limitCount: int)
    requires WellKeyed(users) && limitCount > 0
    ensures var r := SearchByProfession(users, profession, Pass, limitCount);
      forall i :: 0 <= i < |r.value| ==>
        exists k :: 0 <= k < |users| && users[k].id == r.value[i].uid && users[k].data == r.value[i]
  {
  }


  // --------------------------------------------------------------- searchByName

  /** `orderBy('displayName')` only returns documents that have the field. */
  predicate HasDisplayName(d: Doc<AppUser>) {
    d.data.TalentUser? && d.data.displayName.Some?
  }

  function DisplayKey(d: Doc<AppUser>): string {
    if d.data.displayName.Some? then d.data.displayName.value else ""
  }

  predicate ByDisplayName(a: Doc<AppUser>, b: Doc<AppUser>) {
    LexLe(DisplayKey(a), DisplayKey(b))
  }

  lemma ByDisplayNameIsTotalPreorder()
    ensures Query.TotalPreorder(ByDisplayName)
  {
    forall a, b ensures ByDisplayName(a, b) || ByDisplayName(b, a) {
      LexLeTotal(DisplayKey(a), DisplayKey(b));
    }
    forall a, b, c | ByDisplayName(a, b) && ByDisplayName(b, c) ensures ByDisplayName(a, c) {
      LexLeTransitive(DisplayKey(a), DisplayKey(b), DisplayKey(c));
    }
  }

  function NameCandidates(users: seq<Doc<AppUser>>): seq<Doc<AppUser>> {
    Query.Filter(users, HasDisplayName)
  }

  /** The fetched page: the first 20 talent profiles in display-name order. */
  function NamePage(users: seq<Doc<AppUser>>): seq<Doc<AppUser>> {
    Query.Take(Query.Sort(NameCandidates(users), ByDisplayName), NamePageSize)
  }

  /** `fullName?.toLowerCase().includes(q)` or the same on `displayName`. */
  predicate NameMatches(u: AppUser, name: string) {
    || (u.TalentUser? && Includes(Lower(u.fullName), Lower(name)))
    || (u.displayName.Some? && Includes(Lower(u.displayName.value), Lower(name)))
  }

  /** `searchByName`: fetch the page, then keep the profiles whose lower-cased
      full name or display name contains the lower-cased query. */
  function SearchByName(users: seq<Doc<AppUser>>, name: string, query: Outcome<Error>)
    : (r: Result<seq<AppUser>, Error>)
    ensures r.Err? <==> query.Fail?
    ensures r.Err? ==> r.error == Thrown(SearchFailed)
    ensures r.Ok? ==> |r.value| <= NamePageSize
    ensures r.Ok? ==> Query.SubseqOf(r.value, Profiles(NamePage(users)))
    ensures r.Ok? ==> forall u :: u in r.value ==> u in Profiles(NamePage(users)) && NameMatches(u, name)
    ensures r.Ok? ==> forall u :: u in Profiles(NamePage(users)) && NameMatches(u, name) ==> u in r.value
  {
    if query.Fail? then Err(Thrown(SearchFailed))
    else Ok(Query.Filter(Profiles(NamePage(users)), u => NameMatches(u, name)))
  }

  /** The name search drops no matching profile of the page: each occurs in
      the results exactly as often as on the page, and no other profile does. */
  lemma NameResultsKeepEveryMatch(users: seq<Doc<AppUser>>, name: string, query: Outcome<Error>)
    ensures var r := SearchByName(users, name, query);
      r.Ok? ==>
        forall u ::
          multiset(r.value)[u] == if NameMatches(u, name) then multiset(Profiles(NamePage(users)))[u] else 0
  {
    Query.FilterMultiplicity(Profiles(NamePage(users)), u => NameMatches(u, name));
  }

  /** The page is exactly the first 20 candidates in display-name order: it is
      ordered, holds only talents that have a display name, and a candidate
      left out means the page is full of names that sort no later. */
  lemma NamePageIsFirstTwenty(users: seq<Doc<AppUser>>, d: Doc<AppUser>)
    ensures Query.Sorted(NamePage(users), ByDisplayName)
    ensures forall i :: 0 <= i < |NamePage(users)| ==> HasDisplayName(NamePage(users)[i])
    ensures d in users && HasDisplayName(d) && d !in NamePage(users) ==>
      |NamePage(users)| == NamePageSize &&
      forall i :: 0 <= i < NamePageSize ==> LexLe(DisplayKey(NamePage(users)[i]), DisplayKey(d))
  {
    var candidates := NameCandidates(users);
    ByDisplayNameIsTotalPreorder();
    Query.SortSorted(candidates, ByDisplayName);
    forall i | 0 <= i < |NamePage(users)| ensures HasDisplayName(NamePage(users)[i]) {
      assert NamePage(users)[i] in multiset(Query.Sort(candidates, ByDisplayName));
    }
    if d in users && HasDisplayName(d) && d !in NamePage(users) {
      Query.TakeSortedIsTop(candidates, ByDisplayName, NamePageSize, d);
    }
  }
  /** A profile on the fetched name page comes from a stored document, whose
      id it carries when the collection is well keyed. */
  lemma NamePageProfileIsStored(users: seq<Doc<AppUser>>, u: AppUser)
    requires WellKeyed(users) && u in Profiles(NamePage(users))
    ensures exists k :: 0 <= k < |users| && users[k].id == u.uid && users[k].data == u
  {
    var page := NamePage(users);
    var j :| 0 <= j < |page| && Profiles(page)[j] == u;
    assert page[j] in multiset(Query.Sort(NameCandidates(users), ByDisplayName));
    assert page[j] in users;
    var k :| 0 <= k < |users| && users[k] == page[j];
  }

  /** In a well-keyed collection every profile the name search returns is a
      stored profile whose `uid` is the id of the document it came from. */
  lemma NameResultsCarryDocIds(users: seq<Doc<AppUser>>, name: string)
    requires WellKeyed(users)
    ensures var r := SearchByName(users, name, Pass);
      forall i :: 0 <= i < |r.value| ==>
        exists k :: 0 <= k < |users| && users[k].id == r.value[i].uid && users[k].data == r.value[i]
  {
    var r := SearchByName(users, name, Pass).value;
    forall i | 0 <= i < |r|
      ensures exists k :: 0 <= k < |users| && users[k].id == r[i].uid && users[k].data == r[i]
    {
      assert r[i] in r;
      NamePageProfileIsStored(users, r[i]);
    }
  }




  // ------------------------------------------------------- verification records

  /** The record `createVerificationRecord` writes: status 'viewed' and the
      two name fields left empty. */
  function ViewedRecord(employerId: string, talentId: string, talentUID: string, now: Timestamp)
    : (v: Verification)
    ensures v.employerId == employerId && v.talentId == talentId && v.talentUID == talentUID
    ensures v.searchedAt == now
    ensures v.status == "viewed" && v.employerName == "" && v.talentName == ""
  {
    Verification(employerId, talentId, talentUID, now, "viewed", "", "")
  }

  /** `createVerificationRecord` with `addDoc` in scope: on success exactly one
      record is appended and its new id returned; a failed write is reported
      as 'Failed to record search.' and appends nothing. */
  method CreateVerificationRecord(verifications: Collection<Verification>, employerId: string,
                                  talentId: string, talentUID: string, now: Timestamp,
                                  newId: string, write: Outcome<Error>)
    returns (r: Result<string, Error>)
    modifies verifications
    ensures write.Pass? ==>
      && r == Ok(newId)
      && verifications.docs == old(verifications.docs) + [Doc(newId, ViewedRecord(employerId, talentId, talentUID, now))]
    ensures write.Fail? ==> r == Err(Thrown(RecordFailed)) && verifications.docs == old(verifications.docs)
  {
    var added := verifications.AddDoc(ViewedRecord(employerId, talentId, talentUID, now), newId, write);
    if added.Ok? {
      r := Ok(added.value);
    } else {
      r := Err(Thrown(RecordFailed));
    }
  }

  /** `createVerificationRecord` as the file stands: `addDoc` is called but
      never imported, so evaluating it throws inside the `try`, the catch turns
      that into 'Failed to record search.', and no record is ever written. */
  method CreateVerificationRecordAsWritten(verifications: Collection<Verification>, employerId: string,
                                           talentId: string, talentUID: string, now: Timestamp)
    returns (r: Result<string, Error>)
    ensures r == Err(Thrown(RecordFailed))
  {
    r := Err(Thrown(RecordFailed));
  }

  /** For a write the store would accept, the file as written still writes
      nothing and fails, where the corrected operation appends the record. */
  method AsWrittenLosesRecord(verifications: Collection<Verification>, employerId: string,
                              talentId: string, talentUID: string, now: Timestamp, newId: string)
    returns (asWritten: Result<string, Error>, corrected: Result<string, Error>)
    modifies verifications
    ensures asWritten == Err(Thrown(RecordFailed)) && corrected == Ok(newId)
    ensures |verifications.docs| == |old(verifications.docs)| + 1
  {
    asWritten := CreateVerificationRecordAsWritten(verifications, employerId, talentId, talentUID, now);
    corrected := CreateVerificationRecord(verifications, employerId, talentId, talentUID, now, newId, Pass);
  }

  // ------------------------------------------------------------ getSearchHistory

  predicate IsFromEmployer(d: Doc<Verification>, employerId: string) {
    d.data.employerId == employerId
  }

  function EmployerRecords(vs: seq<Doc<Verification>>, employerId: string): seq<Doc<Verification>> {
    Query.Filter(vs, d => IsFromEmployer(d, employerId))
  }

  /** `orderBy('searchedAt', 'desc')`. */
  predicate NewestSearchFirst(a: Doc<Verification>, b: Doc<Verification>) {
    a.data.searchedAt >= b.data.searchedAt
  }

  lemma NewestSearchFirstIsTotalPreorder()
    ensures Query.TotalPreorder(NewestSearchFirst)
  {
  }

  /** The page `orderBy('searchedAt', 'desc')` then `limit(50)` cuts from a
      sequence of records: ordered, and made of those records only. */
  lemma HistoryPage(mine: seq<Doc<Verification>>)
    ensures var r := Query.Take(Query.Sort(mine, NewestSearchFirst), HistoryLimit);
      && Query.Sorted(r, NewestSearchFirst)
      && multiset(r) <= multiset(mine)
      && forall i :: 0 <= i < |r| ==> r[i] in mine
  {
    var r := Query.Take(Query.Sort(mine, NewestSearchFirst), HistoryLimit);
    NewestSearchFirstIsTotalPreorder();
    Query.SortSorted(mine, NewestSearchFirst);
    Query.TakeSubMultiset(Query.Sort(mine, NewestSearchFirst), HistoryLimit);
    forall i | 0 <= i < |r| ensures r[i] in mine {
      assert r[i] in multiset(r);
    }
  }

  /** `getSearchHistory`: the employer's records, newest first, at most 50,
      each with its document id; a failed read gives [] instead of an error. */
  function GetSearchHistory(vs: seq<Doc<Verification>>, employerId: string, query: Outcome<Error>)
    : (r: seq<Doc<Verification>>)
    ensures query.Fail? ==> r == []
    ensures |r| <= HistoryLimit
    ensures forall i :: 0 <= i < |r| ==> r[i].data.employerId == employerId && r[i] in vs
    ensures forall i, j :: 0 <= i < j < |r| ==> r[i].data.searchedAt >= r[j].data.searchedAt
    ensures query.Pass? ==>
      |r| == if |EmployerRecords(vs, employerId)| < HistoryLimit then |EmployerRecords(vs, employerId)| else HistoryLimit
    ensures query.Pass? ==> multiset(r) <= multiset(EmployerRecords(vs, employerId))
  {
    if query.Fail? then []
    else
      var mine := EmployerRecords(vs, employerId);
      HistoryPage(mine);
      Query.Take(Query.Sort(mine, NewestSearchFirst), HistoryLimit)
  }


  /** `limit(50)` after `orderBy('searchedAt', 'desc')` keeps the newest: a
      record of the employer missing from the history means the history is
      full and no record on it was searched earlier. */
  lemma HistoryIsNewest(vs: seq<Doc<Verification>>, employerId: string, d: Doc<Verification>)
    requires d in vs && IsFromEmployer(d, employerId)
    ensures var h := GetSearchHistory(vs, employerId, Pass);
      d !in h ==> |h| == HistoryLimit && forall i :: 0 <= i < |h| ==> h[i].data.searchedAt >= d.data.searchedAt
  {
    var mine := EmployerRecords(vs, employerId);
    assert d in mine;
    if d !in GetSearchHistory(vs, employerId, Pass) {
      NewestSearchFirstIsTotalPreorder();
      Query.TakeSortedIsTop(mine, NewestSearchFirst, HistoryLimit, d);
    }
  }

  /** A record appended later than every earlier record of its employer heads
      that employer's history. */
  lemma NewRecordHeadsHistory(vs: seq<Doc<Verification>>, d: Doc<Verification>)
    requires forall i :: 0 <= i < |vs| && IsFromEmployer(vs[i], d.data.employerId) ==>
      vs[i].data.searchedAt < d.data.searchedAt
    ensures var h := GetSearchHistory(vs + [d], d.data.employerId, Pass);
      |h| > 0 && h[0] == d
  {
    var all := vs + [d];
    var e := d.data.employerId;
    var mine := EmployerRecords(all, e);
    var sorted := Query.Sort(mine, NewestSearchFirst);
    assert d in all;
    assert d in mine;
    assert d in multiset(sorted);
    var j :| 0 <= j < |sorted| && sorted[j] == d;
    NewestSearchFirstIsTotalPreorder();
    Query.SortSorted(mine, NewestSearchFirst);
    assert sorted[0] in multiset(mine);
    assert sorted[0] in all && IsFromEmployer(sorted[0], e);
    if sorted[0] != d {
      assert false;
    }
  }
}
