/**
 * The Item record of the lost-and-found store: its three enumerations, its
 * required and optional fields, its defaults and the fields its text index
 * covers.
 *
 * `Item<U>` is generic in how a user is referred to: the store keeps a user
 * id (`Item<UserId>`), while a client may hold the reporter "populated" into
 * an object (see module ItemDetails).
 */
module ItemModel {
  import opened Wrappers

  type UserId = string
  type ItemId = string

  datatype Category = Electronics | Books | Clothing | Accessories | IDs | Others
  datatype Status = Available | Claimed | Pending
  datatype ItemType = Lost | Found

  const CategoryNames: seq<string> := ["Electronics", "Books", "Clothing", "Accessories", "IDs", "Others"]
  const StatusNames: seq<string> := ["available", "claimed", "pending"]
  const TypeNames: seq<string> := ["lost", "found"]

  function CategoryName(c: Category): string {
    match c
    case Electronics => "Electronics"
    case Books => "Books"
    case Clothing => "Clothing"
    case Accessories => "Accessories"
    case IDs => "IDs"
    case Others => "Others"
  }

  function StatusName(s: Status): string {
    match s
    case Available => "available"
    case Claimed => "claimed"
    case Pending => "pending"
  }

  function TypeName(t: ItemType): string {
    match t
    case Lost => "lost"
    case Found => "found"
  }

  /** The schema's enum check on `category`: only the six names are accepted. */
  function ParseCategory(s: string): (r: Option<Category>)
    ensures r.Some? <==> s in CategoryNames
    ensures r.Some? ==> CategoryName(r.value) == s
  {
    if s == "Electronics" then Some(Electronics)
    else if s == "Books" then Some(Books)
    else if s == "Clothing" then Some(Clothing)
    else if s == "Accessories" then Some(Accessories)
    else if s == "IDs" then Some(IDs)
    else if s == "Others" then Some(Others)
    else None
  }

  /** The schema's enum check on `status`. */
  function ParseStatus(s: string): (r: Option<Status>)
    ensures r.Some? <==> s in StatusNames
    ensures r.Some? ==> StatusName(r.value) == s
  {
    if s == "available" then Some(Available)
    else if s == "claimed" then Some(Claimed)
    else if s == "pending" then Some(Pending)
    else None
  }

  /** The schema's enum check on `type`. */
  function ParseType(s: string): (r: Option<ItemType>)
    ensures r.Some? <==> s in TypeNames
    ensures r.Some? ==> TypeName(r.value) == s
  {
    if s == "lost" then Some(Lost)
    else if s == "found" then Some(Found)
    else None
  }

  /** Each enumeration value is written as a name that parses back to it. */
  lemma EnumNamesRoundTrip(c: Category, s: Status, t: ItemType)
    ensures ParseCategory(CategoryName(c)) == Some(c)
    ensures ParseStatus(StatusName(s)) == Some(s)
    ensures ParseType(TypeName(t)) == Some(t)
  {
  }

  /**
   * An item document. `date` is kept as submitted (date casting is not
   * modelled) and `createdAt` is an abstract time stamp.
   */
  datatype Item<U> = Item(
    id: ItemId,
    category: Category,
    description: string,
    date: string,
    location: string,
    status: Status,
    itemType: ItemType,
    reportedBy: U,
    claimedBy: Option<U>,
    photoUrl: Option<string>,
    contactInfo: Option<string>,
    notes: Option<string>,
    createdAt: nat)

  function CreatedAt<U>(it: Item<U>): nat {
    it.createdAt
  }

  /**
   * The `required: true` string fields are non-empty (a Mongoose required
   * string rejects ""); the enumerations and `reportedBy` hold by typing.
   */
  predicate SchemaValid<U>(it: Item<U>) {
    it.description != "" && it.date != "" && it.location != ""
  }

  /** The workflow's invariant: a claimant is recorded exactly while a claim is open or granted. */
  predicate ClaimConsistent<U>(it: Item<U>) {
    it.claimedBy.Some? <==> it.status in {Pending, Claimed}
  }

  /**
   * A freshly reported item: the schema defaults `status` to available and
   * `createdAt` to the current time, and nothing sets `claimedBy`.
   */
  function NewItem<U>(
    id: ItemId, category: Category, description: string, date: string, location: string,
    itemType: ItemType, reporter: U,
    photoUrl: Option<string>, contactInfo: Option<string>, notes: Option<string>, now: nat): (it: Item<U>)
    ensures it.status == Available && it.claimedBy == None && ClaimConsistent(it)
    ensures it.reportedBy == reporter && it.createdAt == now && it.id == id
    ensures it.category == category && it.itemType == itemType
    ensures SchemaValid(it) <==> description != "" && date != "" && location != ""
  {
    Item(id, category, description, date, location, Available, itemType, reporter, None,
         photoUrl, contactInfo, notes, now)
  }

  /** The fields covered by the text index: description, location and category. */
  function SearchableText<U>(it: Item<U>): (r: seq<string>)
    ensures |r| == 3 && it.description in r && it.location in r && CategoryName(it.category) in r
  {
    [it.description, it.location, CategoryName(it.category)]
  }
}
