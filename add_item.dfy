/**
 * The add-item page (src/pages/AddItem.tsx): a bounded buffer of selected
 * image files with their previews, and the submit flow that uploads the
 * images and writes one item document.
 */
module AddItem {
  import opened Wrappers
  import opened ItemTypes
  import opened Identity
  import opened Store

  const MaxImages := 5

  const ErrTooManyImages := "You can upload a maximum of 5 images"
  const ErrNotSignedIn := "You must be logged in to add an item"
  const ErrNoImages := "Please add at least one image"
  const ErrAddFailed := "Failed to add item. Please try again."

  /** One preview URL per selected file, in selection order. */
  function Previews(files: seq<ImageFile>, preview: ImageFile -> string): (r: seq<string>)
    ensures |r| == |files|
    ensures forall i :: 0 <= i < |files| ==> r[i] == preview(files[i])
  {
    seq(|files|, i requires 0 <= i < |files| => preview(files[i]))
  }

  /**
   * Where `splice(index, 1)` starts: a negative index counts from the end,
   * and the start is clamped to the bounds of the array.
   */
  function SpliceStart(len: nat, index: int): (k: nat)
    ensures k <= len
    ensures 0 <= index < len ==> k == index
  {
    if index < 0 then (if len + index < 0 then 0 else len + index)
    else if index > len then len
    else index
  }

  /** `a.splice(index, 1)`: drops the entry at the start position, if there is one, and keeps the others in order. */
  function SpliceOne<T>(s: seq<T>, index: int): (r: seq<T>)
    ensures var k := SpliceStart(|s|, index);
      && |r| == (if k < |s| then |s| - 1 else |s|)
      && (forall j :: 0 <= j < k && j < |r| ==> r[j] == s[j])
      && (forall j :: k <= j < |r| ==> r[j] == s[j + 1])
  {
    var k := SpliceStart(|s|, index);
    if k < |s| then s[..k] + s[k + 1..] else s
  }

  /** For an index inside the list, exactly that entry is removed. */
  lemma SpliceOneAt<T>(s: seq<T>, index: int)
    requires 0 <= index < |s|
    ensures SpliceOne(s, index) == s[..index] + s[index + 1..]
  {
  }

  /**
   * `Promise.all` over one upload per file: succeeds only when every upload
   * succeeds, and then yields the URLs in file order.
   */
  function UploadAll(files: seq<ImageFile>, upload: ImageFile -> Option<string>): (r: Option<seq<string>>)
    ensures r.Some? <==> forall i :: 0 <= i < |files| ==> upload(files[i]).Some?
    ensures r.Some? ==> |r.value| == |files| && forall i :: 0 <= i < |files| ==> r.value[i] == upload(files[i]).value
    decreases |files|
  {
    if files == [] then Some([])
    else match upload(files[0])
      case None => None
      case Some(url) =>
        match UploadAll(files[1..], upload)
        case None => None
        case Some(rest) => Some([url] + rest)
  }

  /** The checks made before any upload: a signed-in user and at least one image. */
  function SubmitError(user: Option<AuthUser>, imageCount: nat): (r: Option<string>)
    ensures r.None? <==> user.Some? && imageCount > 0
    ensures user.None? ==> r == Some(ErrNotSignedIn)
    ensures user.Some? && imageCount == 0 ==> r == Some(ErrNoImages)
  {
    if user.None? then Some(ErrNotSignedIn)
    else if imageCount == 0 then Some(ErrNoImages)
    else None
  }

  /** The document written for a submitted form: an empty size is stored as absent. */
  function NewItemDocument(id: string, uid: string, form: ItemFormData, urls: seq<string>, now: int): (r: Item)
    ensures r.id == id && r.userId == uid && r.isAvailable && r.imageUrls == urls
    ensures r.title == form.title && r.description == form.description
    ensures r.category == form.category && r.ageGroup == form.ageGroup
    ensures r.gender == form.gender && r.state == form.state
    ensures r.createdAt == now && r.updatedAt == now
    ensures r.size.None? <==> form.size == ""
    ensures r.size.Some? ==> r.size.value == form.size
  {
    Item(id, uid, form.title, form.description, form.category, form.ageGroup, form.gender,
         if form.size == "" then None else Some(form.size),
         form.state, urls, now, now, true)
  }

  class AddItemPage {
    var formData: ItemFormData
    var imageFiles: seq<ImageFile>
    var imagePreviews: seq<string>
    var loading: bool
    var error: Option<string>
    var success: bool

    /** One preview per file, and never more than five files. */
    ghost predicate Valid()
      reads this
    {
      |imageFiles| == |imagePreviews| && |imageFiles| <= MaxImages
    }

    constructor ()
      ensures Valid()
      ensures formData == EmptyForm && imageFiles == [] && imagePreviews == []
      ensures !loading && error == None && !success
    {
      formData := EmptyForm;
      imageFiles, imagePreviews := [], [];
      loading, error, success := false, None, false;
    }

    /** `handleImageChange`: appends a selection unless it would exceed five images. */
    method HandleImageChange(selected: seq<ImageFile>, preview: ImageFile -> string)
      requires Valid()
      modifies this
      ensures Valid()
      ensures formData == old(formData) && loading == old(loading) && success == old(success)
      ensures selected == [] ==>
        imageFiles == old(imageFiles) && imagePreviews == old(imagePreviews) && error == old(error)
      ensures selected != [] && |old(imageFiles)| + |selected| > MaxImages ==>
        imageFiles == old(imageFiles) && imagePreviews == old(imagePreviews) && error == Some(ErrTooManyImages)
      ensures selected != [] && |old(imageFiles)| + |selected| <= MaxImages ==>
        && imageFiles == old(imageFiles) + selected
        && imagePreviews == old(imagePreviews) + Previews(selected, preview)
        && error == None
    {
      if selected == [] {
        return;
      }
      if |imageFiles| + |selected| > MaxImages {
        error := Some(ErrTooManyImages);
        return;
      }
      imageFiles := imageFiles + selected;
      imagePreviews := imagePreviews + Previews(selected, preview);
      error := None;
    }

    /** `removeImage`: splices the same position out of both lists. */
    method RemoveImage(index: int)
      requires Valid()
      modifies this
      ensures Valid()
      ensures imageFiles == SpliceOne(old(imageFiles), index)
      ensures imagePreviews == SpliceOne(old(imagePreviews), index)
      ensures formData == old(formData) && loading == old(loading)
      ensures error == old(error) && success == old(success)
    {
      imageFiles := SpliceOne(imageFiles, index);
      imagePreviews := SpliceOne(imagePreviews, index);
    }

    /**
     * `handleSubmit`: validates, uploads every image, writes one document
     * under the id the store assigns, then resets the form.
     */
    method HandleSubmit(user: Option<AuthUser>, upload: ImageFile -> Option<string>,
                        db: DocumentStore, newId: string, now: int, reachable: bool)
      requires Valid() && db.Valid()
      requires newId !in db.items
      modifies this, db
      ensures Valid() && db.Valid()
      ensures db.users == old(db.users)
      ensures SubmitError(user, |old(imageFiles)|).Some? ==>
        && error == SubmitError(user, |old(imageFiles)|)
        && db.items == old(db.items)
        && formData == old(formData) && imageFiles == old(imageFiles) && imagePreviews == old(imagePreviews)
        && loading == old(loading) && success == old(success)
      ensures SubmitError(user, |old(imageFiles)|).None? ==> !loading
      ensures SubmitError(user, |old(imageFiles)|).None? ==>
        var urls := UploadAll(old(imageFiles), upload);
        if urls.Some? && reachable then
          && db.items == old(db.items)[newId := NewItemDocument(newId, user.value.uid, old(formData), urls.value, now)]
          && success && error == None
          && formData == EmptyForm && imageFiles == [] && imagePreviews == []
        else
          && db.items == old(db.items)
          && error == Some(ErrAddFailed)
          && success == old(success)
          && formData == old(formData) && imageFiles == old(imageFiles) && imagePreviews == old(imagePreviews)
      ensures db.items != old(db.items) ==>
        newId in db.items &&
        var doc := db.items[newId];
        && user.Some? && doc.userId == user.value.uid && doc.isAvailable
        && 1 <= |doc.imageUrls| <= MaxImages
    {
      var check := SubmitError(user, |imageFiles|);
      if check.Some? {
        error := check;
        return;
      }
      loading := true;
      error := None;
      var urls := UploadAll(imageFiles, upload);
      if urls.None? {
        error := Some(ErrAddFailed);
        loading := false;
        return;
      }
      var doc := NewItemDocument(newId, user.value.uid, formData, urls.value, now);
      var ok := db.AddItem(newId, doc, reachable);
      if !ok {
        error := Some(ErrAddFailed);
        loading := false;
        return;
      }
      success := true;
      formData := EmptyForm;
      imageFiles, imagePreviews := [], [];
      loading := false;
    }
  }
}
