/** The document store and the auth provider as the core sees them. A
    collection is a sequence of documents, each with its id; `getDoc` is a
    lookup by id and `setDoc` writes the whole document under an id. Whether a
    call to the backend succeeds is decided by an oracle argument. */
module Backend {
  import opened Wrappers

  /** A thrown error: one from the auth provider (with its code), one from
      the document store, or one the application throws with a message. */
  datatype Error = AuthError(code: string) | StoreError(code: string) | Thrown(message: string)

  /** The signed-in account as the auth provider reports it. */
  datatype AuthUser = AuthUser(uid: string, email: Option<string>)

  datatype Doc<D> = Doc(id: string, data: D)

  /** What `getDoc` yields: the document, its absence, or a failed read. */
  datatype Snapshot<D> = Exists(data: D) | Missing | ReadFailed(error: Error)

  function Lookup<D>(docs: seq<Doc<D>>, id: string): (r: Option<D>)
    ensures r.None? <==> forall i :: 0 <= i < |docs| ==> docs[i].id != id
    ensures r.Some? ==> exists i :: 0 <= i < |docs| && docs[i].id == id && docs[i].data == r.value
  {
    if docs == [] then None
    else if docs[0].id == id then Some(docs[0].data)
    else
      var r := Lookup(docs[1..], id);
      assert forall i :: 1 <= i < |docs| ==> docs[i] == docs[1..][i - 1];
      r
  }

  /** `setDoc(doc(db, collection, id), data)`: replaces the document stored
      under `id` (no merge) or adds one. */
  function Upsert<D>(docs: seq<Doc<D>>, id: string, data: D): (r: seq<Doc<D>>)
    ensures Doc(id, data) in r
    ensures forall d :: d in r ==> d == Doc(id, data) || d in docs
    ensures forall d :: d in docs && d.id != id ==> d in r
  {
    if docs == [] then [Doc(id, data)]
    else if docs[0].id == id then [Doc(id, data)] + docs[1..]
    else [docs[0]] + Upsert(docs[1..], id, data)
  }

  lemma {:induction false} LookupUpsert<D>(docs: seq<Doc<D>>, id: string, data: D, other: string)
    ensures Lookup(Upsert(docs, id, data), id) == Some(data)
    ensures other != id ==> Lookup(Upsert(docs, id, data), other) == Lookup(docs, other)
  {
    if docs != [] && docs[0].id != id {
      LookupUpsert(docs[1..], id, data, other);
      assert Upsert(docs, id, data)[1..] == Upsert(docs[1..], id, data);
    } else if docs != [] {
      assert Upsert(docs, id, data)[1..] == docs[1..];
    }
  }

  /** The store keeps at most one document per id in a collection. */
  predicate UniqueIds<D>(docs: seq<Doc<D>>) {
    forall i, j :: 0 <= i < j < |docs| ==> docs[i].id != docs[j].id
  }

  /** With unique ids the first match `Lookup` picks is the only one. */
  lemma {:induction false} LookupUnique<D>(docs: seq<Doc<D>>, i: nat)
    requires UniqueIds(docs) && i < |docs|
    ensures Lookup(docs, docs[i].id) == Some(docs[i].data)
  {
    if i > 0 {
      assert docs[0].id != docs[i].id;
      UniqueIdsTail(docs);
      LookupUnique(docs[1..], i - 1);
      assert docs[1..][i - 1] == docs[i];
    }
  }

  lemma UniqueIdsTail<D>(docs: seq<Doc<D>>)
    requires UniqueIds(docs) && docs != []
    ensures UniqueIds(docs[1..])
  {
    forall a, b | 0 <= a < b < |docs| - 1 ensures docs[1..][a].id != docs[1..][b].id {
      assert docs[1..][a] == docs[a + 1] && docs[1..][b] == docs[b + 1];
    }
  }

  lemma UniqueIdsCons<D>(x: Doc<D>, s: seq<Doc<D>>)
    requires UniqueIds(s) && forall k :: 0 <= k < |s| ==> s[k].id != x.id
    ensures UniqueIds([x] + s)
  {
    var r := [x] + s;
    forall a, b | 0 <= a < b < |r| ensures r[a].id != r[b].id {
      assert r[b] == s[b - 1];
      if a > 0 {
        assert r[a] == s[a - 1];
      }
    }
  }

  /** `setDoc` keeps the ids of a collection unique. */
  lemma {:induction false} UpsertKeepsIdsUnique<D>(docs: seq<Doc<D>>, id: string, data: D)
    requires UniqueIds(docs)
    ensures UniqueIds(Upsert(docs, id, data))
  {
    if docs != [] {
      var rest := docs[1..];
      UniqueIdsTail(docs);
      if docs[0].id == id {
        forall k | 0 <= k < |rest| ensures rest[k].id != id {
          assert rest[k] == docs[k + 1];
        }
        UniqueIdsCons(Doc(id, data), rest);
      } else {
        UpsertKeepsIdsUnique(rest, id, data);
        var tail := Upsert(rest, id, data);
        forall k | 0 <= k < |tail| ensures tail[k].id != docs[0].id {
          assert tail[k] in tail;
          if tail[k] != Doc(id, data) {
            var m :| 0 <= m < |rest| && rest[m] == tail[k];
            assert docs[m + 1] == tail[k];
          }
        }
        UniqueIdsCons(docs[0], tail);
      }
    }
  }

  /** The document `getDoc(id)` returns when the read succeeds. */
  function Read<D>(docs: seq<Doc<D>>, id: string, read: Outcome<Error>): (s: Snapshot<D>)
    ensures read.Fail? <==> s.ReadFailed?
    ensures read.Pass? ==> (s.Exists? <==> Lookup(docs, id).Some?)
    ensures s.Exists? ==> Lookup(docs, id) == Some(s.data)
  {
    match read
    case Fail(e) => ReadFailed(e)
    case Pass =>
      match Lookup(docs, id)
      case Some(d) => Exists(d)
      case None => Missing
  }

  /** One collection of the document store, updated in place. */
  class Collection<D> {
    var docs: seq<Doc<D>>

    constructor (initial: seq<Doc<D>>)
      ensures docs == initial
    {
      docs := initial;
    }

    /** `setDoc`: on success the document under `id` is `data`; on failure
        nothing is written and the store's error is returned. */
    method SetDoc(id: string, data: D, write: Outcome<Error>) returns (r: Outcome<Error>)
      modifies this
      ensures r == write
      ensures docs == if write.Pass? then Upsert(old(docs), id, data) else old(docs)
    {
      r := write;
      if write.Pass? {
        docs := Upsert(docs, id, data);
      }
    }

    /** `addDoc`: on success one document is appended under the id the store
        chose, which is returned. */
    method AddDoc(data: D, newId: string, write: Outcome<Error>) returns (r: Result<string, Error>)
      modifies this
      ensures write.Pass? ==> r == Ok(newId) && docs == old(docs) + [Doc(newId, data)]
      ensures write.Fail? ==> r == Err(write.error) && docs == old(docs)
    {
      if write.Pass? {
        docs := docs + [Doc(newId, data)];
        r := Ok(newId);
      } else {
        r := Err(write.error);
      }
    }
  }
}
