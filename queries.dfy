/**
 * The two item queries: the public listing (available items, newest first,
 * src/pages/ItemsPage.tsx) and an owner's items (src/pages/MyItems.tsx), whose
 * newest-first order comes from a client-side sort on `createdAt`.
 */
module Queries {
  import opened ItemTypes
  import opened Sequences

  /** Ordered by `createdAt`, newest first. */
  ghost predicate NewestFirst(s: seq<Item>) {
    forall i, j :: 0 <= i < j < |s| ==> s[i].createdAt >= s[j].createdAt
  }

  /** No element of `s` is newer than `t`. */
  ghost predicate NoneNewerThan(s: seq<Item>, t: int) {
    forall k :: 0 <= k < |s| ==> s[k].createdAt <= t
  }

  /** Inserts `x` before the first element that is not newer than it. */
  function InsertNewest(x: Item, s: seq<Item>): (r: seq<Item>)
    ensures multiset(r) == multiset(s) + multiset{x}
    decreases |s|
  {
    if s == [] || x.createdAt >= s[0].createdAt then [x] + s
    else
      assert s == [s[0]] + s[1..];
      [s[0]] + InsertNewest(x, s[1..])
  }

  lemma {:induction false} InsertKeepsBound(x: Item, s: seq<Item>, t: int)
    requires NoneNewerThan(s, t) && x.createdAt <= t
    ensures NoneNewerThan(InsertNewest(x, s), t)
    decreases |s|
  {
    if !(s == [] || x.createdAt >= s[0].createdAt) {
      InsertKeepsBound(x, s[1..], t);
    }
  }

  /** Inserting into a newest-first sequence keeps it newest first. */
  lemma {:induction false} InsertKeepsOrder(x: Item, s: seq<Item>)
    requires NewestFirst(s)
    ensures NewestFirst(InsertNewest(x, s))
    decreases |s|
  {
    if !(s == [] || x.createdAt >= s[0].createdAt) {
      InsertKeepsOrder(x, s[1..]);
      InsertKeepsBound(x, s[1..], s[0].createdAt);
    }
  }

  /**
   * `list.sort((a, b) => b.createdAt - a.createdAt)`: a permutation of the
   * input ordered newest first.
   */
  function SortNewestFirst(s: seq<Item>): (r: seq<Item>)
    ensures NewestFirst(r)
    ensures multiset(r) == multiset(s)
    decreases |s|
  {
    if s == [] then []
    else
      assert s == [s[0]] + s[1..];
      var sorted := SortNewestFirst(s[1..]);
      InsertKeepsOrder(s[0], sorted);
      InsertNewest(s[0], sorted)
  }

  /**
   * `where('isAvailable', '==', true)` and `orderBy('createdAt', 'desc')` over
   * the documents of the `items` collection.
   */
  function AvailableQuery(docs: seq<Item>): (r: seq<Item>)
    ensures NewestFirst(r)
    ensures multiset(r) == multiset(Select(docs, (x: Item) => x.isAvailable))
  {
    SortNewestFirst(Select(docs, (x: Item) => x.isAvailable))
  }

  /** `where('userId', '==', uid)` followed by the client's newest-first sort. */
  function OwnerQuery(docs: seq<Item>, uid: string): (r: seq<Item>)
    ensures NewestFirst(r)
    ensures multiset(r) == multiset(Select(docs, (x: Item) => x.userId == uid))
  {
    SortNewestFirst(Select(docs, (x: Item) => x.userId == uid))
  }

  /** The public listing holds exactly the available documents, each as often as stored, newest first. */
  lemma AvailableQueryCorrect(docs: seq<Item>)
    ensures NewestFirst(AvailableQuery(docs))
    ensures forall x :: x in AvailableQuery(docs) <==> x in docs && x.isAvailable
    ensures multiset(AvailableQuery(docs)) == multiset(Select(docs, (x: Item) => x.isAvailable))
  {
    var sel := Select(docs, (x: Item) => x.isAvailable);
    forall x
      ensures x in AvailableQuery(docs) <==> x in sel
    {
      assert x in AvailableQuery(docs) <==> x in multiset(AvailableQuery(docs));
      assert x in sel <==> x in multiset(sel);
    }
  }

  /** An owner's list holds exactly that owner's documents, newest first. */
  lemma OwnerQueryCorrect(docs: seq<Item>, uid: string)
    ensures NewestFirst(OwnerQuery(docs, uid))
    ensures forall x :: x in OwnerQuery(docs, uid) <==> x in docs && x.userId == uid
    ensures multiset(OwnerQuery(docs, uid)) == multiset(Select(docs, (x: Item) => x.userId == uid))
  {
    var sel := Select(docs, (x: Item) => x.userId == uid);
    forall x
      ensures x in OwnerQuery(docs, uid) <==> x in sel
    {
      assert x in OwnerQuery(docs, uid) <==> x in multiset(OwnerQuery(docs, uid));
      assert x in sel <==> x in multiset(sel);
    }
  }
}
