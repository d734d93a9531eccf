/**
 * The item detail page (src/pages/ItemDetail.tsx): loading one item by id,
 * the image shown, the ownership test, the choice of action panel and the
 * e-mail request handed to the owner.
 */
module ItemDetail {
  import opened Wrappers
  import opened ItemTypes
  import opened Identity
  import opened Store

  const ErrNotFound := "Item not found"
  const ErrLoad := "Failed to load item details. Please try again."
  const SubjectPrefix := "GiveUp Request: "

  /** What the page shows under the item's details. */
  datatype ActionPanel = RequestButton | OwnerNotice | UnavailableWarning

  /** What the page renders as a whole. */
  datatype DetailView = Spinner | ErrorView(message: string) | Detail(item: Item)

  /** A pre-filled e-mail to the owner, before URI encoding. */
  datatype MailDraft = MailDraft(to: string, subject: string, body: string)

  /** `currentUser && currentUser.uid === item.userId`. */
  function IsOwner(user: Option<AuthUser>, item: Item): (r: bool)
    ensures user.None? ==> !r
    ensures user.Some? ==> (r <==> user.value.uid == item.userId)
  {
    user.Some? && user.value.uid == item.userId
  }

  /**
   * The request button for an available item the user does not own; the
   * owner notice for the owner, available or not; otherwise the warning.
   */
  function Panel(item: Item, user: Option<AuthUser>): (p: ActionPanel)
    ensures p == RequestButton <==> item.isAvailable && !(user.Some? && user.value.uid == item.userId)
    ensures p == OwnerNotice <==> user.Some? && user.value.uid == item.userId
    ensures p == UnavailableWarning <==> !item.isAvailable && !(user.Some? && user.value.uid == item.userId)
  {
    if item.isAvailable && !IsOwner(user, item) then RequestButton
    else if IsOwner(user, item) then OwnerNotice
    else UnavailableWarning
  }

  /** `selectedImage || item.imageUrls[0]`: the chosen image, else the first one, else none. */
  function ShownImage(selected: Option<string>, item: Item): (r: Option<string>)
    ensures Truthy(selected) ==> r == selected
    ensures !Truthy(selected) && item.imageUrls != [] ==> r == Some(item.imageUrls[0])
    ensures r.None? <==> !Truthy(selected) && item.imageUrls == []
  {
    if Truthy(selected) then selected
    else if item.imageUrls != [] then Some(item.imageUrls[0])
    else None
  }

  /** A template literal's `${item?.title}`: "undefined" when there is no item. */
  function TitleText(item: Option<Item>): string {
    if item.Some? then item.value.title else "undefined"
  }

  /** A template literal's `${userProfile?.displayName}`. */
  function NameText(profile: Option<UserProfile>): string {
    if profile.Some? then profile.value.displayName else "undefined"
  }

  /** The subject is the fixed prefix followed by the title as a template literal prints it. */
  function RequestSubject(item: Option<Item>): (r: string)
    ensures SubjectPrefix <= r
    ensures r[|SubjectPrefix|..] == TitleText(item)
  {
    SubjectPrefix + TitleText(item)
  }

  /** The body greets the owner, names the item, carries the message and ends with the sender's name. */
  function RequestBody(item: Option<Item>, message: string, profile: Option<UserProfile>): (r: string)
    ensures "Hi there,\n\nI'm interested in your item \"" + TitleText(item) <= r
    ensures var head := "Hi there,\n\nI'm interested in your item \"" + TitleText(item) + "\" on GiveUp.\n\n";
      |head| + |message| <= |r| && r[..|head|] == head && r[|head|..|head| + |message|] == message
    ensures |NameText(profile)| <= |r| && r[|r| - |NameText(profile)|..] == NameText(profile)
  {
    "Hi there,\n\nI'm interested in your item \"" + TitleText(item) + "\" on GiveUp.\n\n"
      + message + "\n\nThanks,\n" + NameText(profile)
  }

  class ItemDetailPage {
    var item: Option<Item>
    var loading: bool
    var error: Option<string>
    var selectedImage: Option<string>
    var ownerEmail: Option<string>
    var requestDialogOpen: bool
    var requestMessage: string

    constructor ()
      ensures item == None && loading && error == None && selectedImage == None
      ensures ownerEmail == None && !requestDialogOpen && requestMessage == ""
    {
      item, loading, error, selectedImage := None, true, None, None;
      ownerEmail, requestDialogOpen, requestMessage := None, false, "";
    }

    /** The spinner while loading; the error (or "Item not found") when there is one or no item; else the item. */
    function View(): (v: DetailView)
      reads this
      ensures v == Spinner <==> loading
      ensures v.Detail? <==> !loading && !Truthy(error) && item.Some?
      ensures v.Detail? ==> v.item == item.value
      ensures v.ErrorView? ==> v.message == (if Truthy(error) then error.value else ErrNotFound)
    {
      if loading then Spinner
      else if Truthy(error) then ErrorView(error.value)
      else if item.None? then ErrorView(ErrNotFound)
      else Detail(item.value)
    }

    /**
     * `fetchItem` for route parameter `id`: the item document, then the
     * owner's profile for the contact e-mail. `itemReachable` and
     * `ownerReachable` are the store's answers to the two reads.
     */
    method FetchItem(id: Option<string>, db: DocumentStore, itemReachable: bool, ownerReachable: bool)
      requires db.Valid()
      modifies this
      ensures selectedImage == old(selectedImage) && requestDialogOpen == old(requestDialogOpen)
      ensures requestMessage == old(requestMessage)
      ensures !Truthy(id) ==>
        item == old(item) && loading == old(loading) && error == old(error) && ownerEmail == old(ownerEmail)
      ensures Truthy(id) ==> !loading
      ensures Truthy(id) && !itemReachable ==>
        item == old(item) && error == Some(ErrLoad) && ownerEmail == old(ownerEmail)
      ensures Truthy(id) && itemReachable && id.value !in db.items ==>
        item == old(item) && error == Some(ErrNotFound) && ownerEmail == old(ownerEmail)
        && View() == ErrorView(ErrNotFound)
      ensures Truthy(id) && itemReachable && id.value in db.items ==>
        var found := db.items[id.value];
        && item == Some(found) && found.id == id.value
        && (ownerReachable ==>
              && error == None
              && View() == Detail(found)
              && ownerEmail == (if found.userId in db.users then Some(db.users[found.userId].email) else old(ownerEmail)))
        && (!ownerReachable ==> error == Some(ErrLoad) && ownerEmail == old(ownerEmail))
    {
      if !Truthy(id) {
        return;
      }
      loading := true;
      if !itemReachable {
        error := Some(ErrLoad);
        loading := false;
        return;
      }
      if id.value !in db.items {
        error := Some(ErrNotFound);
        loading := false;
        return;
      }
      var found := db.items[id.value];
      item := Some(found);
      if !ownerReachable {
        error := Some(ErrLoad);
        loading := false;
        return;
      }
      if found.userId in db.users {
        ownerEmail := Some(db.users[found.userId].email);
      }
      error := None;
      loading := false;
    }

    /** The effect run when `item` changes: select its first image, if it has one. */
    method SelectDefaultImage()
      modifies this
      ensures item.Some? && item.value.imageUrls != [] ==>
        selectedImage == Some(item.value.imageUrls[0]) && ShownImage(selectedImage, item.value) == selectedImage
      ensures !(item.Some? && item.value.imageUrls != []) ==> selectedImage == old(selectedImage)
      ensures item == old(item) && loading == old(loading) && error == old(error)
      ensures ownerEmail == old(ownerEmail) && requestDialogOpen == old(requestDialogOpen)
      ensures requestMessage == old(requestMessage)
    {
      if item.Some? && item.value.imageUrls != [] {
        selectedImage := Some(item.value.imageUrls[0]);
      }
    }

    method HandleImageSelect(url: string)
      modifies this`selectedImage
      ensures selectedImage == Some(url)
    {
      selectedImage := Some(url);
    }

    /** `handleRequestItem`: without a user, navigate to the login page; otherwise open the dialog. */
    method HandleRequestItem(user: Option<AuthUser>) returns (navigateTo: Option<string>)
      modifies this`requestDialogOpen
      ensures user.None? ==> navigateTo == Some(LoginRoute) && requestDialogOpen == old(requestDialogOpen)
      ensures user.Some? ==> navigateTo == None && requestDialogOpen
    {
      if user.None? {
        navigateTo := Some(LoginRoute);
        return;
      }
      navigateTo := None;
      requestDialogOpen := true;
    }

    method HandleCloseRequestDialog()
      modifies this`requestDialogOpen
      ensures !requestDialogOpen
    {
      requestDialogOpen := false;
    }

    method SetRequestMessage(message: string)
      modifies this`requestMessage
      ensures requestMessage == message
    {
      requestMessage := message;
    }

    /**
     * `handleSendRequest`: always closes the dialog; builds a mail draft only
     * when the owner's e-mail is known and non-empty.
     */
    method HandleSendRequest(profile: Option<UserProfile>) returns (draft: Option<MailDraft>)
      modifies this`requestDialogOpen
      ensures !requestDialogOpen
      ensures draft.Some? <==> Truthy(ownerEmail)
      ensures draft.Some? ==>
        draft.value == MailDraft(ownerEmail.value, RequestSubject(item), RequestBody(item, requestMessage, profile))
    {
      requestDialogOpen := false;
      if Truthy(ownerEmail) {
        draft := Some(MailDraft(ownerEmail.value, RequestSubject(item), RequestBody(item, requestMessage, profile)));
      } else {
        draft := None;
      }
    }
  }
}
