/**
 * The owner's items page (src/pages/MyItems.tsx): the owner-scoped,
 * newest-first list and the two confirmed actions on it, delete and
 * mark-as-given, each applied to the store and then to the local list.
 */
module MyItems {
  import opened Wrappers
  import opened ItemTypes
  import opened Identity
  import opened Sequences
  import opened Queries
  import opened Store

  const ErrFetch := "Failed to load your items. Please try again."
  const ErrDelete := "Failed to delete item. Please try again."
  const ErrUpdate := "Failed to update item. Please try again."

  /** `prev.filter(item => item.id !== id)`. */
  function RemoveById(items: seq<Item>, id: string): (r: seq<Item>)
    ensures |r| <= |items|
    ensures forall x :: x in r <==> x in items && x.id != id
    ensures forall x :: multiset(r)[x] == if x.id != id then multiset(items)[x] else 0
  {
    Select(items, (x: Item) => x.id != id)
  }

  /** `prev.map(item => item.id === id ? { ...item, isAvailable: false } : item)`. */
  function MarkGiven(items: seq<Item>, id: string): (r: seq<Item>)
    ensures |r| == |items|
    ensures forall i :: 0 <= i < |items| ==> r[i].isAvailable == (items[i].isAvailable && items[i].id != id)
  {
    seq(|items|, i requires 0 <= i < |items| =>
      if items[i].id == id then items[i].(isAvailable := false) else items[i])
  }

  datatype CardAction = Edit | Delete | MarkAsGiven

  /**
   * The buttons on an item's card: edit and delete always; mark-as-given only
   * while the item is available, so no action leads from given away back to
   * available.
   */
  function CardActions(item: Item): (r: set<CardAction>)
    ensures Edit in r && Delete in r
    ensures MarkAsGiven in r <==> item.isAvailable
  {
    if item.isAvailable then {Edit, Delete, MarkAsGiven} else {Edit, Delete}
  }

  /** Delete leaves the previous list minus the items with that id, in order. */
  lemma RemoveByIdCorrect(items: seq<Item>, id: string)
    ensures IsSubsequence(RemoveById(items, id), items)
    ensures forall x :: x in RemoveById(items, id) <==> x in items && x.id != id
    ensures forall x :: multiset(RemoveById(items, id))[x] == if x.id != id then multiset(items)[x] else 0
  {
    SelectIsSubsequence(items, (x: Item) => x.id != id);
  }

  /**
   * Mark-as-given keeps the length and every other item, and changes only the
   * availability flag of the items with that id, to false.
   */
  lemma MarkGivenCorrect(items: seq<Item>, id: string)
    ensures |MarkGiven(items, id)| == |items|
    ensures forall i :: 0 <= i < |items| ==>
      MarkGiven(items, id)[i].isAvailable == (items[i].isAvailable && items[i].id != id)
    ensures forall i :: 0 <= i < |items| ==>
      MarkGiven(items, id)[i] == items[i].(isAvailable := MarkGiven(items, id)[i].isAvailable)
  {
  }

  /** Applying mark-as-given twice gives the same list as applying it once. */
  lemma MarkGivenIdempotent(items: seq<Item>, id: string)
    ensures MarkGiven(MarkGiven(items, id), id) == MarkGiven(items, id)
  {
  }

  /** No given-away item becomes available again. */
  lemma MarkGivenNeverRevives(items: seq<Item>, id: string)
    ensures forall i :: 0 <= i < |items| && !items[i].isAvailable ==> !MarkGiven(items, id)[i].isAvailable
  {
  }

  /** Every entry of the local list is the stored document under its id. */
  ghost predicate Mirrors(items: seq<Item>, store: map<string, Item>) {
    forall i :: 0 <= i < |items| ==> items[i].id in store && store[items[i].id] == items[i]
  }

  /** The local updates after a successful store write keep the list in step with the store. */
  lemma LocalUpdatesMirrorStore(items: seq<Item>, store: map<string, Item>, id: string)
    requires Mirrors(items, store)
    ensures Mirrors(RemoveById(items, id), store - {id})
    ensures id in store ==> Mirrors(MarkGiven(items, id), store[id := store[id].(isAvailable := false)])
  {
    RemoveMirrors(items, store, id);
    if id in store {
      MarkGivenMirrors(items, store, id);
    }
  }

  /** Delete: the kept entries are still stored, and none of them has the removed id. */
  lemma RemoveMirrors(items: seq<Item>, store: map<string, Item>, id: string)
    requires Mirrors(items, store)
    ensures Mirrors(RemoveById(items, id), store - {id})
  {
    var kept := RemoveById(items, id);
    forall i | 0 <= i < |kept|
      ensures kept[i].id in store - {id} && (store - {id})[kept[i].id] == kept[i]
    {
      assert kept[i] in kept;
      var j :| 0 <= j < |items| && items[j] == kept[i];
    }
  }

  /** Mark-as-given: the entry with the id changes exactly as its stored document does. */
  lemma MarkGivenMirrors(items: seq<Item>, store: map<string, Item>, id: string)
    requires Mirrors(items, store) && id in store
    ensures Mirrors(MarkGiven(items, id), store[id := store[id].(isAvailable := false)])
  {
  }

  /** Every entry of the local list belongs to `uid`. */
  ghost predicate OwnedBy(items: seq<Item>, uid: string) {
    forall i :: 0 <= i < |items| ==> items[i].userId == uid
  }

  /**
   * The page's only ownership rule: a card can be picked only from the list,
   * so when the list mirrors the store and belongs to `uid`, the stored
   * document behind the picked card belongs to `uid` too.
   */
  lemma PickedDocumentOwned(items: seq<Item>, store: map<string, Item>, uid: string, picked: Item)
    requires Mirrors(items, store) && OwnedBy(items, uid) && picked in items
    ensures picked.id in store && store[picked.id] == picked && store[picked.id].userId == uid
  {
    var j :| 0 <= j < |items| && items[j] == picked;
  }

  /** Both local updates keep a list that belongs to `uid` belonging to `uid`. */
  lemma LocalUpdatesKeepOwner(items: seq<Item>, uid: string, id: string)
    requires OwnedBy(items, uid)
    ensures OwnedBy(RemoveById(items, id), uid)
    ensures OwnedBy(MarkGiven(items, id), uid)
  {
    var kept := RemoveById(items, id);
    forall i | 0 <= i < |kept|
      ensures kept[i].userId == uid
    {
      assert kept[i] in kept;
      var j :| 0 <= j < |items| && items[j] == kept[i];
    }
  }

  /** What a successful delete of the picked card keeps true of the page. */
  lemma DeleteKeepsPage(items: seq<Item>, store: map<string, Item>, uid: string, picked: Item)
    ensures Mirrors(items, store) ==> Mirrors(RemoveById(items, picked.id), store - {picked.id})
    ensures OwnedBy(items, uid) ==> OwnedBy(RemoveById(items, picked.id), uid)
    ensures Mirrors(items, store) && OwnedBy(items, uid) && picked in items ==>
      picked.id in store && store[picked.id].userId == uid
  {
    if Mirrors(items, store) {
      RemoveMirrors(items, store, picked.id);
      if OwnedBy(items, uid) && picked in items {
        PickedDocumentOwned(items, store, uid, picked);
      }
    }
    if OwnedBy(items, uid) {
      LocalUpdatesKeepOwner(items, uid, picked.id);
    }
  }

  /** What a successful mark-as-given of the picked card keeps true of the page. */
  lemma MarkGivenKeepsPage(items: seq<Item>, store: map<string, Item>, uid: string, picked: Item)
    ensures Mirrors(items, store) && picked.id in store ==>
      Mirrors(MarkGiven(items, picked.id), store[picked.id := store[picked.id].(isAvailable := false)])
    ensures OwnedBy(items, uid) ==> OwnedBy(MarkGiven(items, picked.id), uid)
    ensures Mirrors(items, store) && OwnedBy(items, uid) && picked in items ==>
      picked.id in store && store[picked.id].userId == uid
  {
    if Mirrors(items, store) {
      if picked.id in store {
        MarkGivenMirrors(items, store, picked.id);
      }
      if OwnedBy(items, uid) && picked in items {
        PickedDocumentOwned(items, store, uid, picked);
      }
    }
    if OwnedBy(items, uid) {
      LocalUpdatesKeepOwner(items, uid, picked.id);
    }
  }

  /** A list fetched from a snapshot of the store mirrors the store. */
  lemma OwnerQueryMirrors(docs: seq<Item>, uid: string, store: map<string, Item>)
    requires forall x :: x in docs <==> x.id in store && store[x.id] == x
    ensures Mirrors(OwnerQuery(docs, uid), store)
  {
    var r := OwnerQuery(docs, uid);
    OwnerQueryCorrect(docs, uid);
    forall i | 0 <= i < |r|
      ensures r[i].id in store && store[r[i].id] == r[i]
    {
      assert r[i] in r;
    }
  }

  class MyItemsPage {
    var items: seq<Item>
    var loading: bool
    var error: Option<string>
    var selectedItem: Option<Item>
    var deleteDialogOpen: bool
    var markAsGivenDialogOpen: bool

    constructor ()
      ensures items == [] && loading && error == None
      ensures selectedItem == None && !deleteDialogOpen && !markAsGivenDialogOpen
    {
      items, loading, error := [], true, None;
      selectedItem, deleteDialogOpen, markAsGivenDialogOpen := None, false, false;
    }

    /**
     * `fetchUserItems` over `docs`, the documents of the `items` collection of
     * `db` in the store's order; `reachable` is the store's answer.
     */
    method FetchUserItems(user: Option<AuthUser>, db: DocumentStore, docs: seq<Item>, reachable: bool)
      requires forall x :: x in docs <==> x.id in db.items && db.items[x.id] == x
      modifies this
      ensures user.None? ==> items == old(items) && loading == old(loading) && error == old(error)
      ensures user.Some? && reachable ==>
        && items == OwnerQuery(docs, user.value.uid) && error == None && !loading
        && Mirrors(items, db.items) && OwnedBy(items, user.value.uid)
      ensures user.Some? && !reachable ==> items == old(items) && error == Some(ErrFetch) && !loading
      ensures selectedItem == old(selectedItem)
      ensures deleteDialogOpen == old(deleteDialogOpen) && markAsGivenDialogOpen == old(markAsGivenDialogOpen)
    {
      if user.None? {
        return;
      }
      loading := true;
      if reachable {
        items := OwnerQuery(docs, user.value.uid);
        OwnerQueryMirrors(docs, user.value.uid, db.items);
        OwnerQueryCorrect(docs, user.value.uid);
        error := None;
      } else {
        error := Some(ErrFetch);
      }
      loading := false;
    }

    /** Only a card of the listed items can be picked. */
    method HandleDeleteClick(item: Item)
      requires item in items
      modifies this
      ensures selectedItem == Some(item) && deleteDialogOpen
      ensures items == old(items) && loading == old(loading) && error == old(error)
      ensures markAsGivenDialogOpen == old(markAsGivenDialogOpen)
    {
      selectedItem := Some(item);
      deleteDialogOpen := true;
    }

    method HandleDeleteDialogClose()
      modifies this
      ensures selectedItem == None && !deleteDialogOpen
      ensures items == old(items) && loading == old(loading) && error == old(error)
      ensures markAsGivenDialogOpen == old(markAsGivenDialogOpen)
    {
      deleteDialogOpen := false;
      selectedItem := None;
    }

    /** `handleDeleteConfirm`: deletes the selected document, then drops it from the local list. */
    method HandleDeleteConfirm(db: DocumentStore, reachable: bool, ghost uid: string)
      requires db.Valid()
      modifies this, db
      ensures db.Valid() && db.users == old(db.users)
      ensures loading == old(loading) && markAsGivenDialogOpen == old(markAsGivenDialogOpen)
      ensures old(selectedItem).None? ==>
        && db.items == old(db.items) && items == old(items) && error == old(error)
        && selectedItem == old(selectedItem) && deleteDialogOpen == old(deleteDialogOpen)
      ensures old(selectedItem).Some? && reachable ==>
        var id := old(selectedItem).value.id;
        && db.items == old(db.items) - {id}
        && items == RemoveById(old(items), id)
        && error == old(error) && selectedItem == None && !deleteDialogOpen
      ensures Mirrors(old(items), old(db.items)) ==> Mirrors(items, db.items)
      ensures OwnedBy(old(items), uid) ==> OwnedBy(items, uid)
      ensures old(selectedItem).Some? && old(selectedItem).value in old(items) ==>
        (Mirrors(old(items), old(db.items)) && OwnedBy(old(items), uid) ==>
          old(selectedItem).value.id in old(db.items) && old(db.items)[old(selectedItem).value.id].userId == uid)
      ensures old(selectedItem).Some? && !reachable ==>
        && db.items == old(db.items) && items == old(items) && error == Some(ErrDelete)
        && selectedItem == old(selectedItem) && deleteDialogOpen == old(deleteDialogOpen)
    {
      if selectedItem.None? {
        return;
      }
      var id := selectedItem.value.id;
      DeleteKeepsPage(items, db.items, uid, selectedItem.value);
      var ok := db.DeleteItem(id, reachable);
      if ok {
        items := RemoveById(items, id);
        deleteDialogOpen := false;
        selectedItem := None;
      } else {
        error := Some(ErrDelete);
      }
    }

    /** Only a card of the listed items can be picked. */
    method HandleMarkAsGivenClick(item: Item)
      requires item in items
      modifies this
      ensures selectedItem == Some(item) && markAsGivenDialogOpen
      ensures items == old(items) && loading == old(loading) && error == old(error)
      ensures deleteDialogOpen == old(deleteDialogOpen)
    {
      selectedItem := Some(item);
      markAsGivenDialogOpen := true;
    }

    method HandleMarkAsGivenDialogClose()
      modifies this
      ensures selectedItem == None && !markAsGivenDialogOpen
      ensures items == old(items) && loading == old(loading) && error == old(error)
      ensures deleteDialogOpen == old(deleteDialogOpen)
    {
      markAsGivenDialogOpen := false;
      selectedItem := None;
    }

    /**
     * `handleMarkAsGivenConfirm`: clears `isAvailable` on the selected document
     * (which fails when the document is gone), then on the local list.
     */
    method HandleMarkAsGivenConfirm(db: DocumentStore, reachable: bool, ghost uid: string)
      requires db.Valid()
      modifies this, db
      ensures db.Valid() && db.users == old(db.users)
      ensures loading == old(loading) && deleteDialogOpen == old(deleteDialogOpen)
      ensures old(selectedItem).None? ==>
        && db.items == old(db.items) && items == old(items) && error == old(error)
        && selectedItem == old(selectedItem) && markAsGivenDialogOpen == old(markAsGivenDialogOpen)
      ensures old(selectedItem).Some? ==>
        var id := old(selectedItem).value.id;
        if reachable && id in old(db.items) then
          && db.items == old(db.items)[id := old(db.items)[id].(isAvailable := false)]
          && items == MarkGiven(old(items), id)
          && error == old(error) && selectedItem == None && !markAsGivenDialogOpen
        else
          && db.items == old(db.items) && items == old(items) && error == Some(ErrUpdate)
          && selectedItem == old(selectedItem) && markAsGivenDialogOpen == old(markAsGivenDialogOpen)
      ensures forall k :: k in old(db.items) && !old(db.items)[k].isAvailable ==> !db.items[k].isAvailable
      ensures Mirrors(old(items), old(db.items)) ==> Mirrors(items, db.items)
      ensures OwnedBy(old(items), uid) ==> OwnedBy(items, uid)
      ensures old(selectedItem).Some? && old(selectedItem).value in old(items) ==>
        (Mirrors(old(items), old(db.items)) && OwnedBy(old(items), uid) ==>
          old(selectedItem).value.id in old(db.items) && old(db.items)[old(selectedItem).value.id].userId == uid)
    {
      if selectedItem.None? {
        return;
      }
      var id := selectedItem.value.id;
      MarkGivenKeepsPage(items, db.items, uid, selectedItem.value);
      var ok := db.MarkUnavailable(id, reachable);
      if ok {
        items := MarkGiven(items, id);
        markAsGivenDialogOpen := false;
        selectedItem := None;
      } else {
        error := Some(ErrUpdate);
      }
    }
  }
}
