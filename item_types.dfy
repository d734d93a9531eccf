/** The item listing's record shapes and enumerations (src/types/Item.ts). */
module ItemTypes {
  import opened Wrappers

  datatype Category = Clothing | Toy | Accessory
  datatype AgeGroup = Baby | Toddler | Preschooler | Child
  datatype Gender = Boy | Girl | Neutral
  /** The item's condition, stored in the field `state`. */
  datatype ItemState = New | LikeNew | Used

  /** The string under which each enumeration value is stored and compared. */
  function CategoryCode(c: Category): string {
    match c
    case Clothing => "clothing"
    case Toy => "toy"
    case Accessory => "accessory"
  }

  function AgeGroupCode(a: AgeGroup): string {
    match a
    case Baby => "baby"
    case Toddler => "toddler"
    case Preschooler => "preschooler"
    case Child => "child"
  }

  function GenderCode(g: Gender): string {
    match g
    case Boy => "boy"
    case Girl => "girl"
    case Neutral => "neutral"
  }

  function StateCode(s: ItemState): string {
    match s
    case New => "new"
    case LikeNew => "like-new"
    case Used => "used"
  }

  /** Reads a stored category string; exactly the three codes name a category. */
  function ParseCategory(s: string): (r: Option<Category>)
    ensures r.Some? <==> s == "clothing" || s == "toy" || s == "accessory"
    ensures r.Some? ==> CategoryCode(r.value) == s
  {
    if s == "clothing" then Some(Clothing)
    else if s == "toy" then Some(Toy)
    else if s == "accessory" then Some(Accessory)
    else None
  }

  function ParseAgeGroup(s: string): (r: Option<AgeGroup>)
    ensures r.Some? <==> s == "baby" || s == "toddler" || s == "preschooler" || s == "child"
    ensures r.Some? ==> AgeGroupCode(r.value) == s
  {
    if s == "baby" then Some(Baby)
    else if s == "toddler" then Some(Toddler)
    else if s == "preschooler" then Some(Preschooler)
    else if s == "child" then Some(Child)
    else None
  }

  function ParseGender(s: string): (r: Option<Gender>)
    ensures r.Some? <==> s == "boy" || s == "girl" || s == "neutral"
    ensures r.Some? ==> GenderCode(r.value) == s
  {
    if s == "boy" then Some(Boy)
    else if s == "girl" then Some(Girl)
    else if s == "neutral" then Some(Neutral)
    else None
  }

  function ParseState(s: string): (r: Option<ItemState>)
    ensures r.Some? <==> s == "new" || s == "like-new" || s == "used"
    ensures r.Some? ==> StateCode(r.value) == s
  {
    if s == "new" then Some(New)
    else if s == "like-new" then Some(LikeNew)
    else if s == "used" then Some(Used)
    else None
  }

  /** Every enumeration value is stored as a distinct code that reads back as itself. */
  lemma CodesRoundTrip(c: Category, a: AgeGroup, g: Gender, s: ItemState)
    ensures ParseCategory(CategoryCode(c)) == Some(c)
    ensures ParseAgeGroup(AgeGroupCode(a)) == Some(a)
    ensures ParseGender(GenderCode(g)) == Some(g)
    ensures ParseState(StateCode(s)) == Some(s)
  {
  }

  /**
   * A listing. `size` is absent when not given; `imageUrls` keeps the order of
   * the uploaded files; `createdAt`/`updatedAt` stand for the server timestamps
   * as integers.
   */
  datatype Item = Item(
    id: string,
    userId: string,
    title: string,
    description: string,
    category: Category,
    ageGroup: AgeGroup,
    gender: Gender,
    size: Option<string>,
    state: ItemState,
    imageUrls: seq<string>,
    createdAt: int,
    updatedAt: int,
    isAvailable: bool)

  /** A selected image file; only its identity matters to the model. */
  datatype ImageFile = ImageFile(name: string)

  /**
   * The add-item form. It has no id, owner, timestamps or availability: those
   * are assigned only when the item document is created. An empty `size`
   * stands for "no size".
   */
  datatype ItemFormData = ItemFormData(
    title: string,
    description: string,
    category: Category,
    ageGroup: AgeGroup,
    gender: Gender,
    size: string,
    state: ItemState,
    images: seq<ImageFile>)

  /** The form's initial and reset value. */
  const EmptyForm := ItemFormData("", "", Clothing, Baby, Neutral, "", Used, [])
}
