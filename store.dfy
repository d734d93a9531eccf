/**
 * The hosted document store, reduced to its two collections as maps. Each
 * remote write takes `reachable`, the backend's answer: when it is false the
 * call fails and nothing is written.
 */
module Store {
  import opened Wrappers
  import opened ItemTypes
  import opened Identity

  class DocumentStore {
    var items: map<string, Item>
    var users: map<string, UserProfile>

    /** Every stored item reads back with its document id. */
    ghost predicate Valid()
      reads this
    {
      forall id :: id in items ==> items[id].id == id
    }

    constructor (items0: map<string, Item>, users0: map<string, UserProfile>)
      requires forall id :: id in items0 ==> items0[id].id == id
      ensures Valid()
      ensures items == items0 && users == users0
    {
      items, users := items0, users0;
    }

    /** `addDoc` into `items`, under the fresh id the store assigns. */
    method AddItem(id: string, doc: Item, reachable: bool) returns (ok: bool)
      requires Valid()
      requires doc.id == id
      requires id !in items
      modifies this
      ensures Valid()
      ensures ok == reachable
      ensures items == if ok then old(items)[id := doc] else old(items)
      ensures users == old(users)
    {
      ok := reachable;
      if ok {
        items := items[id := doc];
      }
    }

    /** `deleteDoc` on `items`: deleting an absent document also succeeds. */
    method DeleteItem(id: string, reachable: bool) returns (ok: bool)
      requires Valid()
      modifies this
      ensures Valid()
      ensures ok == reachable
      ensures items == if ok then old(items) - {id} else old(items)
      ensures users == old(users)
    {
      ok := reachable;
      if ok {
        items := items - {id};
      }
    }

    /**
     * `updateDoc(item, {isAvailable: false})`: fails on an absent document,
     * otherwise clears the flag and touches no other field and no other item.
     */
    method MarkUnavailable(id: string, reachable: bool) returns (ok: bool)
      requires Valid()
      modifies this
      ensures Valid()
      ensures ok == (reachable && id in old(items))
      ensures items == if ok then old(items)[id := old(items)[id].(isAvailable := false)] else old(items)
      ensures forall k :: k in old(items) && !old(items)[k].isAvailable ==> !items[k].isAvailable
      ensures users == old(users)
    {
      ok := reachable && id in items;
      if ok {
        items := items[id := items[id].(isAvailable := false)];
      }
    }

    /** `setDoc` into `users` under `uid`. */
    method SetUser(uid: string, profile: UserProfile, reachable: bool) returns (ok: bool)
      requires Valid()
      modifies this
      ensures Valid()
      ensures ok == reachable
      ensures users == if ok then old(users)[uid := profile] else old(users)
      ensures items == old(items)
    {
      ok := reachable;
      if ok {
        users := users[uid := profile];
      }
    }
  }
}
