/**
 * The user handlers: the caller's profile, the caller's notifications, and
 * marking notifications as read. `read` only ever goes from false to true.
 */
module UserController {
  import opened Wrappers
  import opened Seqs
  import opened ItemModel
  import opened NotificationModel
  import ItemRoutes
  import opened Store

  // ---------------------------------------------------------------------
  // Profile.
  // ---------------------------------------------------------------------

  /** A user as the profile endpoints answer: the password is deselected. */
  datatype Profile = Profile(
    id: UserId,
    universityId: string,
    email: string,
    firstName: string,
    lastName: string,
    role: Role,
    mobileNumber: string)

  function ProfileOf(u: User): (p: Profile)
    ensures p.id == u.id && p.email == u.email && p.role == u.role
  {
    Profile(u.id, u.universityId, u.email, u.firstName, u.lastName, u.role, u.mobileNumber)
  }

  /** Two users that differ only in their password have the same profile. */
  lemma ProfileIgnoresPassword(u: User, pw: string)
    ensures ProfileOf(u.(password := pw)) == ProfileOf(u)
  {
  }

  /** `GET /users/profile`. */
  method GetProfile(db: Database, actor: Actor) returns (code: int, profile: Option<Profile>)
    requires db.Valid()
    ensures code == StatusNotFound <==> actor.userId !in db.users
    ensures code in {StatusOk, StatusNotFound}
    ensures code == StatusOk ==> profile == Some(ProfileOf(db.users[actor.userId]))
    ensures code == StatusNotFound ==> profile == None
  {
    if actor.userId !in db.users {
      return StatusNotFound, None;
    }
    return StatusOk, Some(ProfileOf(db.users[actor.userId]));
  }

  datatype ProfileBody = ProfileBody(
    firstName: Option<string>,
    lastName: Option<string>,
    email: Option<string>,
    mobileNumber: Option<string>)

  /**
   * The chain on `PUT /users/profile`: each field is optional, and when
   * present must be non-empty, or, for `email`, an e-mail address as the
   * validator library judges it (`isEmail`).
   */
  predicate ProfileBodyValid(b: ProfileBody, isEmail: string -> bool) {
    && ItemRoutes.OptionalNotEmpty(b.firstName)
    && ItemRoutes.OptionalNotEmpty(b.lastName)
    && (b.email.Some? ==> isEmail(b.email.value))
    && ItemRoutes.OptionalNotEmpty(b.mobileNumber)
  }

  /** Only the four contact fields are written; a field the body omits stays. */
  function ApplyProfile(u: User, b: ProfileBody): (r: User)
    ensures r.id == u.id && r.universityId == u.universityId && r.password == u.password && r.role == u.role
    ensures r.firstName == b.firstName.GetOr(u.firstName) && r.lastName == b.lastName.GetOr(u.lastName)
    ensures r.email == b.email.GetOr(u.email) && r.mobileNumber == b.mobileNumber.GetOr(u.mobileNumber)
  {
    u.(firstName := b.firstName.GetOr(u.firstName),
       lastName := b.lastName.GetOr(u.lastName),
       email := b.email.GetOr(u.email),
       mobileNumber := b.mobileNumber.GetOr(u.mobileNumber))
  }

  /** `PUT /users/profile`: validation, then 404 for a missing user, then the update. */
  method UpdateProfile(db: Database, actor: Actor, body: ProfileBody, isEmail: string -> bool)
    returns (code: int, profile: Option<Profile>)
    requires db.Valid()
    modifies db
    ensures db.Valid()
    ensures db.items == old(db.items) && db.notifications == old(db.notifications)
    ensures code == StatusBadRequest <==> !ProfileBodyValid(body, isEmail)
    ensures code == StatusNotFound <==> ProfileBodyValid(body, isEmail) && actor.userId !in old(db.users)
    ensures code in {StatusOk, StatusBadRequest, StatusNotFound}
    ensures code != StatusOk ==> db.users == old(db.users) && profile == None
    ensures code == StatusOk ==>
      && actor.userId in old(db.users)
      && db.users == old(db.users)[actor.userId := ApplyProfile(old(db.users)[actor.userId], body)]
      && profile == Some(ProfileOf(db.users[actor.userId]))
  {
    if !ProfileBodyValid(body, isEmail) {
      return StatusBadRequest, None;
    }
    if actor.userId !in db.users {
      return StatusNotFound, None;
    }
    var u := ApplyProfile(db.users[actor.userId], body);
    db.users := db.users[actor.userId := u];
    return StatusOk, Some(ProfileOf(u));
  }

  // ---------------------------------------------------------------------
  // Notifications.
  // ---------------------------------------------------------------------

  /** `GET /users/notifications`: exactly the caller's notifications, newest first. */
  method GetNotifications(db: Database, actor: Actor) returns (r: seq<Notification>)
    ensures forall n :: multiset(r)[n] == if n.user == Some(actor.userId) then multiset(db.notifications)[n] else 0
    ensures NewestFirst(r, NoticeCreatedAt)
  {
    var mineOnly := (n: Notification) => n.user == Some(actor.userId);
    FilterCounts(db.notifications, mineOnly);
    var mine := Filter(db.notifications, mineOnly);
    r := SortNewestFirst(mine, NoticeCreatedAt);
  }

  /** The query of mark-one: this id, and addressed to the caller. */
  predicate Owns(n: Notification, id: string, u: UserId) {
    n.id == id && n.user == Some(u)
  }

  /** The position of the first notification from `from` on that the query matches. */
  function FirstOwnedFrom(ns: seq<Notification>, id: string, u: UserId, from: nat): (r: Option<nat>)
    requires from <= |ns|
    ensures r.Some? ==> from <= r.value < |ns| && Owns(ns[r.value], id, u)
    ensures r.Some? ==> forall j :: from <= j < r.value ==> !Owns(ns[j], id, u)
    ensures r.None? ==> forall j :: from <= j < |ns| ==> !Owns(ns[j], id, u)
    decreases |ns| - from
  {
    if from == |ns| then None
    else if Owns(ns[from], id, u) then Some(from)
    else FirstOwnedFrom(ns, id, u, from + 1)
  }

  /**
   * `findOneAndUpdate({ _id, user }, { read: true })`: the first matching
   * notification is marked read; nothing else changes.
   */
  function MarkOwnedRead(ns: seq<Notification>, id: string, u: UserId): (r: seq<Notification>)
    ensures |r| == |ns|
    ensures forall i :: 0 <= i < |ns| ==> r[i] == ns[i] || (Owns(ns[i], id, u) && r[i] == MarkedRead(ns[i]))
    ensures (forall i :: 0 <= i < |ns| ==> !Owns(ns[i], id, u)) ==> r == ns
    ensures forall i :: 0 <= i < |ns| ==> Owns(r[i], id, u) == Owns(ns[i], id, u)
    ensures forall i :: 0 <= i < |ns| && Owns(ns[i], id, u) && (forall j :: 0 <= j < i ==> !Owns(ns[j], id, u)) ==>
      r[i] == MarkedRead(ns[i])
    ensures forall i, j :: 0 <= j < i < |ns| && Owns(ns[j], id, u) ==> r[i] == ns[i]
    ensures forall i :: 0 <= i < |ns| && !Owns(ns[i], id, u) ==> r[i] == ns[i]
  {
    match FirstOwnedFrom(ns, id, u, 0)
    case None => ns
    case Some(i) => ns[i := MarkedRead(ns[i])]
  }

  /** Marking the same notification twice has the effect of marking it once. */
  lemma MarkOwnedReadIdempotent(ns: seq<Notification>, id: string, u: UserId)
    ensures MarkOwnedRead(MarkOwnedRead(ns, id, u), id, u) == MarkOwnedRead(ns, id, u)
  {
    var once := MarkOwnedRead(ns, id, u);
    match FirstOwnedFrom(ns, id, u, 0)
    case None =>
    case Some(i) =>
      var again := FirstOwnedFrom(once, id, u, 0);
      assert Owns(once[i], id, u);
      assert again == Some(i);
      assert once[i].read;
  }

  /** `PUT /users/notifications/:id`: 404 unless a notification with this id is the caller's. */
  method MarkNotificationAsRead(db: Database, actor: Actor, id: string)
    returns (code: int, marked: Option<Notification>)
    requires db.Valid()
    modifies db
    ensures db.Valid()
    ensures db.items == old(db.items) && db.users == old(db.users)
    ensures code in {StatusOk, StatusNotFound}
    ensures code == StatusNotFound <==>
      forall i :: 0 <= i < |old(db.notifications)| ==> !Owns(old(db.notifications)[i], id, actor.userId)
    ensures db.notifications == MarkOwnedRead(old(db.notifications), id, actor.userId)
    ensures code == StatusNotFound ==> marked == None && db.notifications == old(db.notifications)
    ensures code == StatusOk ==>
      marked.Some? && marked.value.read && Owns(marked.value, id, actor.userId) && marked.value in db.notifications
  {
    var found := FirstOwnedFrom(db.notifications, id, actor.userId, 0);
    if found.None? {
      return StatusNotFound, None;
    }
    var i := found.value;
    var n := MarkedRead(db.notifications[i]);
    db.notifications := db.notifications[i := n];
    return StatusOk, Some(n);
  }

  /**
   * `updateMany({ user, read: false }, { read: true })`: afterwards none of
   * the caller's notifications is unread; only `read` changes, only on the
   * caller's notifications, and only from false to true.
   */
  function MarkAllRead(ns: seq<Notification>, u: UserId): (r: seq<Notification>)
    ensures |r| == |ns|
    ensures forall i :: 0 <= i < |r| && r[i].user == Some(u) ==> r[i].read
    ensures forall i :: 0 <= i < |ns| && ns[i].user != Some(u) ==> r[i] == ns[i]
    ensures forall i :: 0 <= i < |ns| ==> r[i] == ns[i].(read := r[i].read) && (ns[i].read ==> r[i].read)
  {
    Map(ns, (n: Notification) => if n.user == Some(u) && !n.read then MarkedRead(n) else n)
  }

  lemma {:induction false} MarkAllReadIdempotent(ns: seq<Notification>, u: UserId)
    ensures MarkAllRead(MarkAllRead(ns, u), u) == MarkAllRead(ns, u)
  {
    var once := MarkAllRead(ns, u);
    var twice := MarkAllRead(once, u);
    forall i | 0 <= i < |once|
      ensures twice[i] == once[i]
    {
      if once[i].user == Some(u) {
        assert twice[i] == once[i].(read := twice[i].read);
      }
    }
  }

  /** `PUT /users/notifications`. */
  method MarkAllNotificationsAsRead(db: Database, actor: Actor) returns (code: int)
    requires db.Valid()
    modifies db
    ensures db.Valid()
    ensures db.items == old(db.items) && db.users == old(db.users)
    ensures code == StatusOk
    ensures db.notifications == MarkAllRead(old(db.notifications), actor.userId)
  {
    db.notifications := MarkAllRead(db.notifications, actor.userId);
    return StatusOk;
  }
}
