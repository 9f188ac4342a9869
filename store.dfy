/**
 * The persistent collections the controllers share: items keyed by id, the
 * notification collection in insertion order, and the users. The acting
 * user of a request is the `{ userId, role }` pair the credential carries.
 */
module Store {
  import opened ItemModel
  import opened NotificationModel

  // HTTP status codes the handlers answer with.
  const StatusOk := 200
  const StatusCreated := 201
  const StatusBadRequest := 400
  const StatusForbidden := 403
  const StatusNotFound := 404
  const StatusServerError := 500

  datatype Role = Student | Staff | Admin

  /** The identity the authentication middleware puts on `req.user`. */
  datatype Actor = Actor(userId: UserId, role: Role)

  datatype User = User(
    id: UserId,
    universityId: string,
    email: string,
    password: string,
    firstName: string,
    lastName: string,
    role: Role,
    mobileNumber: string)

  type StoredItem = Item<UserId>

  /** `item.reportedBy` and `claimedBy` are raw ids in the store. */
  predicate Stored(items: map<ItemId, StoredItem>, it: StoredItem) {
    it.id in items && items[it.id] == it
  }

  /** Every key names its own document, and every stored item passed schema validation. */
  predicate WellKeyed(items: map<ItemId, StoredItem>) {
    forall k :: k in items ==> items[k].id == k && SchemaValid(items[k])
  }

  class Database {
    var items: map<ItemId, StoredItem>
    var notifications: seq<Notification>
    var users: map<UserId, User>

    ghost predicate Valid()
      reads this
    {
      && WellKeyed(items)
      && forall u :: u in users ==> users[u].id == u
    }

    constructor ()
      ensures Valid()
      ensures items == map[] && notifications == [] && users == map[]
    {
      items := map[];
      notifications := [];
      users := map[];
    }
  }
}
