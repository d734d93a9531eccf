# GiveUp marketplace: item lifecycle, listing rules and session guard

GiveUp is a browser marketplace where parents list children's items
(clothing, toys, accessories) and ask the owners for them. Its business logic
lives in React page handlers. This project models that logic in Dafny and
proves properties of it. The hosted backend is reduced to a document store
with two maps, `items` and `users`.

- **Data model** (`item_types.dfy`, `identity.dfy`). The enumerations
  `Category`, `AgeGroup`, `Gender` and `ItemState` become datatypes, each with
  the string code it is stored under. `Item`, `ItemFormData`, the provider's
  `AuthUser` and `UserProfile` become records.
- **Document store** (`store.dfy`). A class with `items` and `users` maps.
  Every remote call takes `reachable`, the backend's answer. When that answer
  is false the call fails and nothing is written.
- **Listing page** (`items_page.dfy`, `queries.dfy`). The public query keeps
  available items, newest first. The client-side filter is a conjunction of
  equality filters on category, age group and gender, plus a search that
  ignores case and looks in the title or the description.
- **Add-item page** (`add_item.dfy`). A class holding the image buffer: two
  parallel lists, files and previews, capped at five entries. Submit checks
  its input, uploads every image, writes one item document and resets the
  form.
- **My items page** (`my_items.dfy`). The owner's items, newest first. Delete
  and mark-as-given each go to the store first and then update the local list.
- **Item detail page** (`item_detail.dfy`). It loads one item and the owner's
  e-mail. It also covers the shown image, the ownership test, the three-way
  action panel and the request e-mail draft.
- **Session and route guard** (`session.dfy`, `protected_route.dfy`). The
  auth-state handler keeps `currentUser`, `userProfile` and `loading`, and
  creates a missing profile on first sign-in. The guard decides between a
  spinner, a redirect to `/login` and the protected page.

JavaScript's truthiness is modelled where the code relies on it. An empty
string counts as "no filter", "no size", "no display name" and "no owner
e-mail". A template literal prints a missing item's title as `undefined`.
`splice(index, 1)` keeps its JavaScript meaning for negative and
out-of-range indices.

Three behaviours of the code are worth stating plainly:

- `handleSubmit` checks only for a signed-in user and at least one image. It
  does not check the title, the description or the number of images. The
  five-image cap is applied when images are selected, and the class
  invariant of `AddItemPage` carries it to submit.
- No handler checks ownership. Delete and mark-as-given act on the picked
  card, and cards come only from the fetched list, which holds only the
  user's own items. The model keeps that chain: the click handlers accept
  only a listed item, the fetch leaves a list owned by the user, and each
  confirm handler touches a stored document owned by the same user.
- The auth-state handler has no error handling. When the profile read or
  write fails, it stops before `loading` is cleared. `OnAuthStateChanged`
  models this: `loading` keeps its old value, which is `true` at start-up.

## Model

| member | source | states |
|---|---|---|
| ItemTypes.ParseCategory | src/types/Item.ts:1 | a stored category is exactly one of "clothing", "toy", "accessory", and reads back to a category with that code |
| ItemTypes.ParseAgeGroup | src/types/Item.ts:2 | an age group is exactly one of "baby", "toddler", "preschooler", "child" |
| ItemTypes.ParseGender | src/types/Item.ts:3 | a gender is exactly one of "boy", "girl", "neutral" |
| ItemTypes.ParseState | src/types/Item.ts:4 | a condition is exactly one of "new", "like-new", "used" |
| ItemTypes.CodesRoundTrip | src/types/Item.ts:1-4 | every enumeration value has its own code, and that code reads back as the same value |
| Sequences.Select | src/pages/ItemsPage.tsx:99 | `Array.filter`: the result holds exactly the elements that satisfy the predicate, each satisfying element as often as in the input and no other, and is no longer than the input |
| Queries.SortNewestFirst | src/pages/MyItems.tsx:70 | the comparator sort on `createdAt`: the result is a permutation of the input (same multiset), ordered newest first |
| Queries.InsertNewest | src/pages/MyItems.tsx:70 | inserting one item adds exactly that item to the multiset of the list |
| Queries.InsertKeepsOrder | src/pages/MyItems.tsx:70 | inserting one item into a newest-first list keeps it newest first |
| Queries.AvailableQueryCorrect | src/pages/ItemsPage.tsx:53-57 | the loaded list holds exactly the available documents, each as often as stored, newest first |
| Queries.OwnerQueryCorrect | src/pages/MyItems.tsx:51-70 | the owner's list holds exactly the documents whose `userId` is the uid, newest first |
| Queries.AvailableQuery | src/pages/ItemsPage.tsx:53-57 | the public query is newest first and holds the same multiset of documents as the available ones |
| Queries.OwnerQuery | src/pages/MyItems.tsx:51-70 | the owner query is newest first and holds the same multiset of documents as the owner's ones |
| ItemsPage.CategoryFromUrl | src/pages/ItemsPage.tsx:41-45 | the URL `category` parameter sets the filter only when it is present and non-empty; otherwise the filter is kept |
| ItemsPage.FilteredItems | src/pages/ItemsPage.tsx:99-109 | the filtered list holds exactly the loaded items that match every non-empty filter, each as often as it was loaded, and no other; it is no longer than the loaded list |
| ItemsPage.FilteredItemsMembership | src/pages/ItemsPage.tsx:99-109 | an item is kept iff it is loaded and every non-empty filter matches: category, age group and gender by equality of codes, and the lower-cased term inside the lower-cased title or description |
| ItemsPage.FilteredIsSubsequence | src/pages/ItemsPage.tsx:99 | the filtered list is the loaded list with some items dropped, in the same relative order |
| ItemsPage.NoFiltersKeepAll | src/pages/ItemsPage.tsx:100-106 | with all four filters empty, the filtered list equals the loaded list |
| ItemsPage.MoreFiltersFewerItems | src/pages/ItemsPage.tsx:99-109 | setting more filters, or keeping the same ones, gives a subsequence of the result with fewer filters |
| ItemsPage.SearchIgnoresCase | src/pages/ItemsPage.tsx:103-105 | two search terms with the same lower-case form keep exactly the same items |
| ItemsPage.UrlCategoryRestricts | src/pages/ItemsPage.tsx:41-45 | after a non-empty URL category is applied, every shown item has exactly that category code |
| ItemsPage.UnknownCategoryShowsNothing | src/pages/ItemsPage.tsx:100 | a non-empty category filter that names no category leaves the list empty |
| ItemsPage.ListingExample | src/pages/ItemsPage.tsx:53-109 | items A (clothing, available), B (toy, given away), C (toy, available) in creation order load as [C, A], and the toy filter then leaves [C] |
| Labels.StateColor | src/pages/ItemDetail.tsx:172-183 | "new" maps to success, "like-new" to info, every other string to default (the same switch is at src/pages/ItemsPage.tsx:115-126) |
| Labels.FormatAgeGroup | src/pages/ItemDetail.tsx:144-157 | a known age-group code maps to its label; any other string comes back unchanged |
| Labels.FormatCondition | src/pages/ItemDetail.tsx:159-170 | a known condition code maps to its label; any other string comes back unchanged |
| Labels.LabelsDistinct | src/pages/ItemDetail.tsx:144-170 | distinct age groups get distinct labels, and so do distinct conditions |
| AddItem.Previews | src/pages/AddItem.tsx:73 | one preview per selected file: entry i is the preview of file i, in selection order |
| AddItem.SpliceOne | src/pages/AddItem.tsx:87-88 | `splice(index, 1)` drops at most the entry at the start position and keeps the others in order; a negative index counts from the end |
| AddItem.SpliceOneAt | src/pages/AddItem.tsx:80-92 | for an index inside the list, exactly entry `index` is removed |
| AddItem.UploadAll | src/pages/AddItem.tsx:95-105 | the uploads succeed as a whole iff every upload succeeds, and then the URLs come in file order, one per file |
| AddItem.SubmitError | src/pages/AddItem.tsx:111-119 | submit may go on iff there is a signed-in user and at least one image; without a user the error is the sign-in message, and with a user but no image it is 'Please add at least one image' |
| AddItem.NewItemDocument | src/pages/AddItem.tsx:129-142 | the document carries the submitter's uid, the form's title, description, category, age group, gender and condition, both timestamps set to the write time, `isAvailable` true and the URLs in upload order; an empty size is stored as absent |
| AddItem.AddItemPage.constructor | src/pages/AddItem.tsx:31-46 | the form starts as clothing/baby/neutral/used with empty text, no images, no error, not loading |
| AddItem.AddItemPage.HandleImageChange | src/pages/AddItem.tsx:59-77 | an empty selection changes nothing; going over five images sets the error and leaves both lists; otherwise files and previews are appended in selection order and the error is cleared; the lists stay equal in length and at most five long |
| AddItem.AddItemPage.RemoveImage | src/pages/AddItem.tsx:80-92 | the same `splice` is applied to files and previews, so they stay parallel; nothing else changes |
| AddItem.AddItemPage.HandleSubmit | src/pages/AddItem.tsx:108-174 | a validation error writes nothing; a failed upload or write sets the error and keeps the form; a success adds exactly one new document, under the fresh id the store assigns, with 1 to 5 images, then sets success, resets the form and empties both lists; `loading` is false afterwards whenever validation passed |
| Store.DocumentStore.constructor | src/pages/ItemDetail.tsx:61-62 | the store starts with the given collections, each item stored under its own id |
| Store.DocumentStore.AddItem | src/pages/AddItem.tsx:129 | `addDoc` stores the document under a fresh id, so no existing document is replaced; on failure it writes nothing |
| Store.DocumentStore.DeleteItem | src/pages/MyItems.tsx:108 | `deleteDoc` removes the id from the collection or, on failure, writes nothing |
| Store.DocumentStore.MarkUnavailable | src/pages/MyItems.tsx:136-139 | `updateDoc` fails on an absent document; otherwise it clears only the `isAvailable` flag, and no item becomes available again |
| Store.DocumentStore.SetUser | src/contexts/AuthContext.tsx:64 | `setDoc` stores the profile under the uid or, on failure, writes nothing |
| MyItems.CardActions | src/pages/MyItems.tsx:274-299 | edit and delete are always offered; mark-as-given is offered iff the item is available |
| MyItems.RemoveById | src/pages/MyItems.tsx:109 | the local delete keeps exactly the entries with another id, each as often as before, drops every entry with the selected id, and never grows the list |
| MyItems.MarkGiven | src/pages/MyItems.tsx:142-146 | the local mark-as-given keeps the length, and an entry is available afterwards iff it was available and has another id |
| MyItems.RemoveByIdCorrect | src/pages/MyItems.tsx:109 | the list after delete is a subsequence of the previous list and holds exactly its items with a different id, each as often as before |
| MyItems.MarkGivenCorrect | src/pages/MyItems.tsx:142-146 | same length; an entry is available afterwards iff it was available and has another id; no other field of any entry changes |
| MyItems.MarkGivenIdempotent | src/pages/MyItems.tsx:142-146 | applying the local mark-as-given update twice gives the same list as applying it once |
| MyItems.MarkGivenNeverRevives | src/pages/MyItems.tsx:142-146 | an entry that was given away stays given away |
| MyItems.LocalUpdatesMirrorStore | src/pages/MyItems.tsx:108-146 | if each local entry equals its stored document, it still does after the local update that follows a successful delete or mark-as-given |
| MyItems.OwnerQueryMirrors | src/pages/MyItems.tsx:56-72 | a list fetched from the store's documents has each entry equal to its stored document |
| MyItems.PickedDocumentOwned | src/pages/MyItems.tsx:51-54 | a card picked from a list that mirrors the store and belongs to a user stands for a stored document of that same user |
| MyItems.LocalUpdatesKeepOwner | src/pages/MyItems.tsx:108-146 | the local delete and mark-as-given keep a list that belongs to a user belonging to that user |
| MyItems.DeleteKeepsPage | src/pages/MyItems.tsx:104-116 | a successful delete keeps the mirror and the ownership of the list, and the deleted document of a picked listed card is the user's |
| MyItems.MarkGivenKeepsPage | src/pages/MyItems.tsx:132-154 | a successful mark-as-given keeps the mirror and the ownership of the list, and the updated document of a picked listed card is the user's |
| MyItems.MyItemsPage.constructor | src/pages/MyItems.tsx:35-41 | empty list, loading, no error, no selection, both dialogs closed |
| MyItems.MyItemsPage.FetchUserItems | src/pages/MyItems.tsx:45-80 | without a user nothing changes; on success the list is the owner query over the store's documents, each entry equals its stored document and belongs to the user; on failure the list stays and the error is set; `loading` is false afterwards |
| MyItems.MyItemsPage.HandleDeleteClick | src/pages/MyItems.tsx:91-95 | selects a listed item and opens the delete dialog |
| MyItems.MyItemsPage.HandleDeleteDialogClose | src/pages/MyItems.tsx:98-101 | closes the delete dialog and clears the selection |
| MyItems.MyItemsPage.HandleDeleteConfirm | src/pages/MyItems.tsx:104-116 | with no selection nothing changes; on success the store and the local list lose the selected id, the dialog closes and the selection clears; on failure the store, the list and the selection stay and the error is set; a list that mirrored the store still does, a list owned by a user still is, and the document deleted from a mirrored, owned list belongs to that user |
| MyItems.MyItemsPage.HandleMarkAsGivenClick | src/pages/MyItems.tsx:119-123 | selects a listed item and opens the mark-as-given dialog |
| MyItems.MyItemsPage.HandleMarkAsGivenDialogClose | src/pages/MyItems.tsx:126-129 | closes the mark-as-given dialog and clears the selection |
| MyItems.MyItemsPage.HandleMarkAsGivenConfirm | src/pages/MyItems.tsx:132-154 | with no selection nothing changes; on success the stored and the local item lose only their availability, the dialog closes and the selection clears; on failure (including a document that is gone) nothing is written and the error is set; no item becomes available again; a list that mirrored the store still does, a list owned by a user still is, and the document updated from a mirrored, owned list belongs to that user |
| ItemDetail.Panel | src/pages/ItemDetail.tsx:319-339 | the request button iff the item is available and the user is not its owner; the owner notice iff a user exists whose uid is the item's `userId`; the "no longer available" warning otherwise |
| ItemDetail.ShownImage | src/pages/ItemDetail.tsx:228 | the selected image if there is one, else the first URL, else none |
| ItemDetail.IsOwner | src/pages/ItemDetail.tsx:210 | the viewer owns the item iff there is a current user and its uid equals the item's `userId` |
| ItemDetail.RequestSubject | src/pages/ItemDetail.tsx:117 | the subject is "GiveUp Request: " followed by exactly the item's title, or "undefined" when there is no item |
| ItemDetail.RequestBody | src/pages/ItemDetail.tsx:118-125 | the body opens with the greeting and the quoted item title, carries the typed message right after it, and ends with the sender's display name, or "undefined" when there is no item or profile |
| ItemDetail.ItemDetailPage.constructor | src/pages/ItemDetail.tsx:37-43 | no item, loading, no error, no image, no owner e-mail, dialog closed, empty message |
| ItemDetail.ItemDetailPage.View | src/pages/ItemDetail.tsx:185-208 | a spinner iff loading; the item iff not loading, with no error, and an item is present; otherwise an error view whose message is the error if one is set and 'Item not found' if not |
| ItemDetail.ItemDetailPage.FetchItem | src/pages/ItemDetail.tsx:46-84 | a missing id does nothing; a missing document gives 'Item not found' and no new item; a found document is shown whatever its availability, carries the route's id, and comes with the owner's e-mail when a profile exists; a failed read gives the load error; `loading` ends false |
| ItemDetail.ItemDetailPage.SelectDefaultImage | src/pages/ItemDetail.tsx:86-91 | when the item has images, the first URL becomes the selected and shown image; otherwise the selection is kept |
| ItemDetail.ItemDetailPage.HandleImageSelect | src/pages/ItemDetail.tsx:93-95 | the clicked URL becomes the selected image |
| ItemDetail.ItemDetailPage.HandleRequestItem | src/pages/ItemDetail.tsx:97-104 | without a user it navigates to /login and leaves the dialog as it was; with a user it opens the dialog |
| ItemDetail.ItemDetailPage.HandleCloseRequestDialog | src/pages/ItemDetail.tsx:106-108 | the request dialog is closed |
| ItemDetail.ItemDetailPage.SetRequestMessage | src/pages/ItemDetail.tsx:359 | the typed text becomes the request message |
| ItemDetail.ItemDetailPage.HandleSendRequest | src/pages/ItemDetail.tsx:110-129 | always closes the dialog; a mail draft exists iff the owner's e-mail is known and non-empty, and then it goes to that address with the request subject and body |
| Session.UseAuth | src/contexts/AuthContext.tsx:31-37 | outside a provider it fails with 'useAuth must be used within an AuthProvider'; inside one it returns the provider's value |
| Session.NewProfile | src/contexts/AuthContext.tsx:56-62 | the new profile has the provider's uid; its display name is the provider's when non-empty and 'User' otherwise; its e-mail is the provider's when non-empty and empty otherwise; photo and phone claims are copied when non-empty and dropped otherwise |
| Session.AuthProvider.constructor | src/contexts/AuthContext.tsx:40-42 | no current user, no profile, loading |
| Session.AuthProvider.Value | src/contexts/AuthContext.tsx:94-100 | the context value carries the provider's current user, loading flag and profile |
| Session.AuthProvider.OnAuthStateChanged | src/contexts/AuthContext.tsx:45-71 | the notified user always becomes `currentUser`; signing out clears the profile; an existing profile is loaded without a write; a missing one is created, stored under the uid and loaded; `loading` is false afterwards unless a store call failed |
| ProtectedRoute.Guard | src/components/ProtectedRoute.tsx:14-35 | while loading, a spinner and no redirect; when loaded without a user, nothing is rendered and the guard redirects to /login; the children render iff loading is over and there is a user |
| ProtectedRoute.ChildrenExcludeRedirect | src/components/ProtectedRoute.tsx:19-35 | protected content is never rendered together with a redirect |

## Left out

- Firebase calls (`uploadBytes`, `getDownloadURL`, `addDoc`, `getDocs`, `getDoc`, `updateDoc`, `deleteDoc`, `setDoc`). They are modelled only as map operations whose success is a parameter. Uploaded blobs are not modelled, so neither is the blob leak after a failed create.
- `signInWithPopup` and `signOut`. These are identity-provider calls; their effect reaches the model only as an auth-state notification.
- The concurrency of `Promise.all` in `uploadImages`. Only the all-or-nothing result and its file order are kept. The storage path (`items/uid/time_name`) is not modelled.
- Timestamps (`serverTimestamp`, `Date.now`, `toDate`). `createdAt` and `updatedAt` are integers given by the caller.
- `URL.createObjectURL`, `URL.revokeObjectURL`, `setTimeout`, `window.location` and `navigate`. Previews come from a function parameter. Navigation is returned as a route, except the delayed `navigate('/items')` after a successful submit, which is not modelled.
- `encodeURIComponent` for the mailto URI. The draft holds the subject and body before encoding.
- Unicode `toLowerCase`. It is modelled as ASCII case folding.
- The browser-enforced `maxLength` and `required` attributes on title and description, since no handler checks them.
- Queries.SortNewestFirst: the in-place `Array.prototype.sort` in the owner fetch is modelled as a pure insertion sort on a sequence. Its stability is not stated.
- The store's query results: both fetches take the documents of the `items` collection as a sequence in the store's order, not the map itself.
- The form field handlers `handleTextChange` and `handleSelectChange`, `handleCloseSuccess`, `getCategoryIcon`, the item-click and edit navigations, and the JSX rendering and styling. These handlers only copy a value into a field or pick an icon or route.
- The listing page's own `loading` and `error` flags around its fetch.
- The Home, Footer, App, Login and Profile pages and vite.config.ts. They hold markup, routing or a single profile update.
- The stale-closure effects of React state updates. Each handler is modelled as one sequential step over the current state.
