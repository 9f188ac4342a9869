/**
 * The Notification record. Its schema file is not part of this model; the
 * fields are those the controllers set and the client reads, and `read`
 * starts out false.
 */
module NotificationModel {
  import opened Wrappers
  import opened ItemModel

  datatype Kind = Success | Info | Warning

  /** `user` is optional because a notification can be built with a null recipient. */
  datatype Notification = Notification(
    id: string,
    user: Option<UserId>,
    kind: Kind,
    title: string,
    message: string,
    read: bool,
    relatedItem: Option<ItemId>,
    createdAt: nat)

  function NoticeCreatedAt(n: Notification): nat {
    n.createdAt
  }

  function MarkedRead(n: Notification): (r: Notification)
    ensures r.read && r.(read := n.read) == n
  {
    n.(read := true)
  }
}
