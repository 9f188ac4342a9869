/**
 * Items as the browser holds them. The JSON the API answers with carries
 * `reportedBy` and `claimedBy` either populated (an object with `_id`) or
 * as a raw id string; the local claim patch also stores `user.id`, a
 * string. The ObjectId case is the defensive branch of the page's
 * ownership test, which falls back to `toString()`.
 */
module ClientItems {
  import opened Wrappers
  import opened ItemModel

  datatype UserRef =
    | Populated(refId: UserId)
    | IdString(text: string)
    | ObjectIdRef(hex: string)

  type ClientItem = Item<UserRef>

  /** `String(ref)`: a plain object prints as "[object Object]". */
  const ObjectText := "[object Object]"

  function RefText(r: UserRef): (t: string)
    ensures r.Populated? ==> t == ObjectText
    ensures !r.Populated? ==> t == RefId(r)
  {
    match r
    case Populated(_) => ObjectText
    case IdString(s) => s
    case ObjectIdRef(h) => h
  }

  /** The user id a reference names, as the server stores it. */
  function RefId(r: UserRef): UserId {
    match r
    case Populated(u) => u
    case IdString(s) => s
    case ObjectIdRef(h) => h
  }

  /** The item with every reference replaced by the id it names. */
  function Resolved(it: ClientItem): (r: Item<UserId>)
    ensures r.reportedBy == RefId(it.reportedBy)
    ensures r.claimedBy == (if it.claimedBy.Some? then Some(RefId(it.claimedBy.value)) else None)
    ensures r.id == it.id && r.status == it.status && r.description == it.description
    ensures ClaimConsistent(r) <==> ClaimConsistent(it)
  {
    Item(it.id, it.category, it.description, it.date, it.location, it.status, it.itemType,
         RefId(it.reportedBy),
         if it.claimedBy.Some? then Some(RefId(it.claimedBy.value)) else None,
         it.photoUrl, it.contactInfo, it.notes, it.createdAt)
  }
}
