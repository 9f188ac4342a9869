/**
 * The item handlers: report, list, look up, edit and delete items, and the
 * claim workflow (available -> pending -> claimed, or back to available)
 * with the notification each successful transition files.
 *
 * Every handler loads the item, checks it, changes its fields and saves it;
 * the handlers are methods over the shared `Database`. The new document ids,
 * the clock and whether saving a notification succeeds are parameters.
 */
module ItemController {
  import opened Wrappers
  import opened JsValues
  import opened Seqs
  import opened ItemModel
  import opened NotificationModel
  import ItemRoutes
  import opened Store

  // ---------------------------------------------------------------------
  // Authorization and the workflow's transitions.
  // ---------------------------------------------------------------------

  /** The owner or an administrator may edit, delete, or decide on a claim. */
  predicate CanMutate(it: StoredItem, actor: Actor) {
    it.reportedBy == actor.userId || actor.role == Admin
  }

  /** available -> pending: the claimant is recorded; nothing else changes. */
  function ClaimRequested<U>(it: Item<U>, claimant: U): (r: Item<U>)
    ensures r.status == Pending && r.claimedBy == Some(claimant) && ClaimConsistent(r)
    ensures r.(status := it.status, claimedBy := it.claimedBy) == it
  {
    it.(status := Pending, claimedBy := Some(claimant))
  }

  /**
   * pending -> claimed keeps the claimant; pending -> available clears it.
   * Nothing else changes.
   */
  function ClaimResolved<U>(it: Item<U>, approve: bool): (r: Item<U>)
    ensures r.status == (if approve then Claimed else Available)
    ensures r.claimedBy == (if approve then it.claimedBy else None)
    ensures r.(status := it.status, claimedBy := it.claimedBy) == it
    ensures ClaimConsistent(it) && it.status == Pending ==> ClaimConsistent(r)
  {
    it.(status := if approve then Claimed else Available,
        claimedBy := if approve then it.claimedBy else None)
  }

  /** The 'info' notice to the owner, built from the item as saved after the claim. */
  function ClaimNotice(it: StoredItem, noticeId: string, now: nat): (n: Notification)
    ensures n.user == Some(it.reportedBy) && n.kind == Info
    ensures n.relatedItem == Some(it.id) && !n.read && n.id == noticeId && n.createdAt == now
  {
    Notification(
      noticeId, Some(it.reportedBy), Info, "Item Claim Request",
      "Someone has requested to claim your " + (if it.itemType == Lost then "found" else "lost")
        + " item: " + it.description + ".",
      false, Some(it.id), now)
  }

  /**
   * The decision notice, built from the item AS SAVED: its recipient is the
   * saved item's `claimedBy`, which a rejection has already cleared.
   */
  function ResolutionNotice(saved: StoredItem, approve: bool, noticeId: string, now: nat): (n: Notification)
    ensures n.user == saved.claimedBy && n.kind == (if approve then Success else Warning)
    ensures n.relatedItem == Some(saved.id) && !n.read && n.id == noticeId && n.createdAt == now
  {
    Notification(
      noticeId, saved.claimedBy,
      if approve then Success else Warning,
      if approve then "Claim Approved" else "Claim Rejected",
      if approve
      then "Your claim for \"" + saved.description
           + "\" has been approved. Please visit the lost and found office to collect your item."
      else "Your claim for \"" + saved.description + "\" has been rejected.",
      false, Some(saved.id), now)
  }

  /** As written, a rejection notice goes to nobody, whoever had claimed the item. */
  lemma RejectionNoticeHasNoRecipient(it: StoredItem, noticeId: string, now: nat)
    requires it.status == Pending && it.claimedBy.Some?
    ensures ResolutionNotice(ClaimResolved(it, false), false, noticeId, now).user == None
    ensures ResolutionNotice(ClaimResolved(it, false), false, noticeId, now).user != it.claimedBy
  {
  }

  /**
   * The decision notice addressed to the claimant read before the item is
   * changed; in every other field it is the notice as written.
   */
  function ResolutionNoticeToClaimant(before: StoredItem, approve: bool, noticeId: string, now: nat): (n: Notification)
    ensures n.user == before.claimedBy
    ensures n.(user := None) == ResolutionNotice(ClaimResolved(before, approve), approve, noticeId, now).(user := None)
  {
    ResolutionNotice(ClaimResolved(before, approve), approve, noticeId, now).(user := before.claimedBy)
  }

  /** With the claimant read first, both decisions reach the user who claimed the item. */
  lemma ResolutionReachesClaimant(it: StoredItem, approve: bool, noticeId: string, now: nat)
    requires it.status == Pending && ClaimConsistent(it)
    ensures ResolutionNoticeToClaimant(it, approve, noticeId, now).user.Some?
    ensures ResolutionNoticeToClaimant(it, approve, noticeId, now).user == it.claimedBy
    ensures ResolutionNoticeToClaimant(it, approve, noticeId, now).kind == (if approve then Success else Warning)
  {
  }

  // ---------------------------------------------------------------------
  // The `approve` field of process-claim.
  // ---------------------------------------------------------------------

  /** What a value that passes `isBoolean()` means as a boolean. */
  function BooleanMeaning(v: JsonValue): (r: Option<bool>)
    ensures r.Some? <==> ItemRoutes.IsBooleanValue(v)
  {
    match v
    case Bool(b) => Some(b)
    case Number(n) => if n == 1 then Some(true) else if n == 0 then Some(false) else None
    case Text(s) =>
      if s == "true" || s == "1" then Some(true)
      else if s == "false" || s == "0" then Some(false)
      else None
    case _ => None
  }

  /**
   * The handler decides by truthiness and never reads the validator's
   * verdict: a textual "false" passes `isBoolean()` yet approves, and so does
   * text that is no boolean at all.
   */
  lemma ApproveByTruthiness()
    ensures ItemRoutes.IsBooleanValue(Text("false")) && Truthy(Text("false"))
    ensures BooleanMeaning(Text("false")) == Some(false)
    ensures !ItemRoutes.IsBooleanValue(Text("no")) && Truthy(Text("no"))
  {
  }

  /** Deciding by the boolean's meaning agrees with truthiness on real booleans and on every numeral. */
  lemma {:induction false} BooleanMeaningAgrees(v: JsonValue)
    requires ItemRoutes.IsBooleanValue(v)
    ensures v.Bool? || v.Number? ==> BooleanMeaning(v) == Some(Truthy(v))
    ensures v.Text? ==> (BooleanMeaning(v) == Some(true) <==> v.s in ["true", "1"])
  {
    match v
    case Bool(b) =>
    case Number(n) =>
    case Text(s) =>
      assert s in ["true", "false", "1", "0"];
  }

  // ---------------------------------------------------------------------
  // The generic edit.
  // ---------------------------------------------------------------------

  /** Saving fails schema validation when a given category or status is outside its enumeration. */
  predicate UpdateFitsSchema(b: ItemRoutes.UpdateBody) {
    && (Given(b.category) ==> ParseCategory(b.category.value).Some?)
    && (Given(b.status) ==> ParseStatus(b.status.value).Some?)
  }

  /** A given category replaces the current one. */
  function EditedCategory(current: Category, given: Option<string>): (c: Category)
    requires Given(given) ==> ParseCategory(given.value).Some?
    ensures if Given(given) then CategoryName(c) == given.value else c == current
  {
    if Given(given) then ParseCategory(given.value).value else current
  }

  /** A given status replaces the current one. */
  function EditedStatus(current: Status, given: Option<string>): (s: Status)
    requires Given(given) ==> ParseStatus(given.value).Some?
    ensures if Given(given) then StatusName(s) == given.value else s == current
  {
    if Given(given) then ParseStatus(given.value).value else current
  }

  /**
   * Each of the eight fields the handler reads overwrites the item's field
   * when it is truthy; `type`, `reportedBy`, `claimedBy` and `createdAt`
   * are never touched.
   */
  function ApplyUpdate(it: StoredItem, b: ItemRoutes.UpdateBody): (r: StoredItem)
    requires UpdateFitsSchema(b)
    ensures r.id == it.id && r.itemType == it.itemType && r.createdAt == it.createdAt
    ensures r.reportedBy == it.reportedBy && r.claimedBy == it.claimedBy
    ensures if Given(b.category) then CategoryName(r.category) == b.category.value else r.category == it.category
    ensures if Given(b.status) then StatusName(r.status) == b.status.value else r.status == it.status
    ensures r.description == if Given(b.description) then b.description.value else it.description
    ensures r.date == if Given(b.date) then b.date.value else it.date
    ensures r.location == if Given(b.location) then b.location.value else it.location
    ensures r.photoUrl == if Given(b.photoUrl) then b.photoUrl else it.photoUrl
    ensures r.contactInfo == if Given(b.contactInfo) then b.contactInfo else it.contactInfo
    ensures r.notes == if Given(b.notes) then b.notes else it.notes
    ensures SchemaValid(it) ==> SchemaValid(r)
  {
    it.(category := EditedCategory(it.category, b.category),
        description := if Given(b.description) then b.description.value else it.description,
        date := if Given(b.date) then b.date.value else it.date,
        location := if Given(b.location) then b.location.value else it.location,
        status := EditedStatus(it.status, b.status),
        photoUrl := if Given(b.photoUrl) then b.photoUrl else it.photoUrl,
        contactInfo := if Given(b.contactInfo) then b.contactInfo else it.contactInfo,
        notes := if Given(b.notes) then b.notes else it.notes)
  }

  /**
   * An edit that sets `status` keeps the workflow's invariant exactly when
   * the new status needs a claimant iff the old one did: an available item
   * edited to pending or claimed has no claimant, and a pending or claimed
   * item edited to available keeps its claimant.
   */
  lemma StatusEditConsistency(it: StoredItem, b: ItemRoutes.UpdateBody)
    requires UpdateFitsSchema(b) && Given(b.status) && ClaimConsistent(it)
    ensures ClaimConsistent(ApplyUpdate(it, b)) <==>
      ((it.status in {Pending, Claimed}) == (ParseStatus(b.status.value).value in {Pending, Claimed}))
  {
  }

  // ---------------------------------------------------------------------
  // Handlers.
  // ---------------------------------------------------------------------

  /**
   * `POST /items`. Only the eight body fields are read: the reporter is the
   * acting user, and the schema defaults give status available, no claimant
   * and `createdAt = now`.
   */
  method CreateItem(db: Database, actor: Actor, body: ItemRoutes.CreateBody, castsToDate: string -> bool,
                    newId: ItemId, now: nat)
    returns (code: int, created: Option<StoredItem>)
    requires db.Valid()
    modifies db
    ensures db.Valid()
    ensures db.notifications == old(db.notifications) && db.users == old(db.users)
    ensures code == StatusBadRequest <==> !ItemRoutes.CreateBodyValid(body)
    ensures code == StatusServerError <==>
      ItemRoutes.CreateBodyValid(body)
      && (ParseCategory(body.category.value).None? || !castsToDate(body.date.value) || newId in old(db.items))
    ensures code in {StatusCreated, StatusBadRequest, StatusServerError}
    ensures code != StatusCreated ==> created == None && db.items == old(db.items)
    ensures code == StatusCreated ==>
      && created.Some?
      && created.value.id == newId
      && created.value.reportedBy == actor.userId
      && created.value.status == Available
      && created.value.claimedBy == None
      && created.value.createdAt == now
      && created.value == NewItem(
           newId, ParseCategory(body.category.value).value, body.description.value, body.date.value,
           body.location.value, ParseType(body.itemType.value).value, actor.userId,
           body.photoUrl, body.contactInfo, body.notes, now)
      && db.items == old(db.items)[newId := created.value]
  {
    if !ItemRoutes.CreateBodyValid(body) {
      return StatusBadRequest, None;
    }
    var category := ParseCategory(body.category.value);
    if category.None? || !castsToDate(body.date.value) || newId in db.items {
      // the schema's enum check, its cast of `date` to a Date, or the
      // duplicate-key error on save
      return StatusServerError, None;
    }
    var itemType := ParseType(body.itemType.value).value;
    var it := NewItem(
      newId, category.value, body.description.value, body.date.value, body.location.value,
      itemType, actor.userId, body.photoUrl, body.contactInfo, body.notes, now);
    db.items := db.items[newId := it];
    return StatusCreated, Some(it);
  }

  /** `find(query).sort({ createdAt: -1 })` over the item collection. */
  method FindNewestFirst(items: map<ItemId, StoredItem>, keep: StoredItem -> bool) returns (r: seq<StoredItem>)
    requires WellKeyed(items)
    ensures forall it :: multiset(r)[it] == if Stored(items, it) && keep(it) then 1 else 0
    ensures NewestFirst(r, CreatedAt)
  {
    r := [];
    var remaining := items.Keys;
    while remaining != {}
      invariant remaining <= items.Keys
      invariant NewestFirst(r, CreatedAt)
      invariant forall it :: multiset(r)[it] == if Stored(items, it) && it.id !in remaining && keep(it) then 1 else 0
      decreases remaining
    {
      var k :| k in remaining;
      remaining := remaining - {k};
      if keep(items[k]) {
        InsertKeepsNewestFirst(r, items[k], CreatedAt);
        r := InsertNewestFirst(r, items[k], CreatedAt);
      }
    }
  }

  /** The list filters; a filter that is absent or empty is not applied. */
  datatype ListQuery = ListQuery(
    itemType: Option<string>,
    category: Option<string>,
    status: Option<string>,
    search: Option<string>)

  /**
   * An item matches when it agrees with every given filter. The text search
   * is the database's, abstracted as `textMatch`, and sees only the indexed
   * fields.
   */
  predicate MatchesQuery(it: StoredItem, q: ListQuery, textMatch: (string, seq<string>) -> bool) {
    && (Given(q.itemType) ==> TypeName(it.itemType) == q.itemType.value)
    && (Given(q.category) ==> CategoryName(it.category) == q.category.value)
    && (Given(q.status) ==> StatusName(it.status) == q.status.value)
    && (Given(q.search) ==> textMatch(q.search.value, SearchableText(it)))
  }

  /** `GET /items`: each matching item exactly once, newest first. */
  method GetAllItems(db: Database, q: ListQuery, textMatch: (string, seq<string>) -> bool)
    returns (r: seq<StoredItem>)
    requires db.Valid()
    ensures forall it :: multiset(r)[it] == if Stored(db.items, it) && MatchesQuery(it, q, textMatch) then 1 else 0
    ensures NewestFirst(r, CreatedAt)
  {
    r := FindNewestFirst(db.items, (it: StoredItem) => MatchesQuery(it, q, textMatch));
  }

  /** A status filter keeps only items in that status; no filters keep everything. */
  lemma QueryFilters(it: StoredItem, s: Status, textMatch: (string, seq<string>) -> bool)
    ensures MatchesQuery(it, ListQuery(None, None, Some(StatusName(s)), None), textMatch) <==> it.status == s
    ensures MatchesQuery(it, ListQuery(None, None, None, None), textMatch)
  {
  }

  /** Search reads nothing but description, location and category. */
  lemma SearchSeesIndexedFields(a: StoredItem, b: StoredItem, q: ListQuery, textMatch: (string, seq<string>) -> bool)
    requires a.description == b.description && a.location == b.location && a.category == b.category
    requires a.itemType == b.itemType && a.status == b.status
    ensures MatchesQuery(a, q, textMatch) == MatchesQuery(b, q, textMatch)
  {
  }

  /** `GET /items/user`: exactly the acting user's reports, newest first. */
  method GetUserItems(db: Database, actor: Actor) returns (r: seq<StoredItem>)
    requires db.Valid()
    ensures forall it :: multiset(r)[it] == if Stored(db.items, it) && it.reportedBy == actor.userId then 1 else 0
    ensures NewestFirst(r, CreatedAt)
  {
    r := FindNewestFirst(db.items, (it: StoredItem) => it.reportedBy == actor.userId);
  }

  /** `GET /items/:id`. */
  method GetItemById(db: Database, id: ItemId) returns (code: int, found: Option<StoredItem>)
    requires db.Valid()
    ensures code == StatusNotFound <==> id !in db.items
    ensures code == StatusOk <==> id in db.items
    ensures code == StatusOk ==> found == Some(db.items[id]) && found.value.id == id
    ensures code == StatusNotFound ==> found == None
  {
    if id !in db.items {
      return StatusNotFound, None;
    }
    return StatusOk, Some(db.items[id]);
  }

  /** `PUT /items/:id`: validation, then 404, then 403, then the field overwrite. */
  method UpdateItem(db: Database, actor: Actor, id: ItemId, body: ItemRoutes.UpdateBody, isDate: string -> bool)
    returns (code: int, updated: Option<StoredItem>)
    requires db.Valid()
    modifies db
    ensures db.Valid()
    ensures db.notifications == old(db.notifications) && db.users == old(db.users)
    ensures code == StatusBadRequest <==> !ItemRoutes.UpdateBodyValid(body, isDate)
    ensures code == StatusNotFound <==> ItemRoutes.UpdateBodyValid(body, isDate) && id !in old(db.items)
    ensures code == StatusForbidden <==>
      ItemRoutes.UpdateBodyValid(body, isDate) && id in old(db.items) && !CanMutate(old(db.items)[id], actor)
    ensures code == StatusServerError <==>
      ItemRoutes.UpdateBodyValid(body, isDate) && id in old(db.items) && CanMutate(old(db.items)[id], actor)
      && !UpdateFitsSchema(body)
    ensures code in {StatusOk, StatusBadRequest, StatusForbidden, StatusNotFound, StatusServerError}
    ensures code != StatusOk ==> updated == None && db.items == old(db.items)
    ensures code == StatusOk ==>
      && id in old(db.items) && UpdateFitsSchema(body)
      && updated == Some(ApplyUpdate(old(db.items)[id], body))
      && db.items == old(db.items)[id := updated.value]
  {
    if !ItemRoutes.UpdateBodyValid(body, isDate) {
      return StatusBadRequest, None;
    }
    if id !in db.items {
      return StatusNotFound, None;
    }
    var it := db.items[id];
    if !CanMutate(it, actor) {
      return StatusForbidden, None;
    }
    if !UpdateFitsSchema(body) {
      return StatusServerError, None;
    }
    it := ApplyUpdate(it, body);
    db.items := db.items[id := it];
    return StatusOk, Some(it);
  }

  /** `DELETE /items/:id`: 404, then 403; the item's status is not consulted. */
  method DeleteItem(db: Database, actor: Actor, id: ItemId) returns (code: int)
    requires db.Valid()
    modifies db
    ensures db.Valid()
    ensures db.notifications == old(db.notifications) && db.users == old(db.users)
    ensures code == StatusNotFound <==> id !in old(db.items)
    ensures code == StatusForbidden <==> id in old(db.items) && !CanMutate(old(db.items)[id], actor)
    ensures code == StatusOk <==> id in old(db.items) && CanMutate(old(db.items)[id], actor)
    ensures code == StatusOk ==> db.items == old(db.items) - {id}
    ensures code != StatusOk ==> db.items == old(db.items)
  {
    if id !in db.items {
      return StatusNotFound;
    }
    if !CanMutate(db.items[id], actor) {
      return StatusForbidden;
    }
    db.items := db.items - {id};
    return StatusOk;
  }

  /**
   * `POST /items/:id/claim`: any authenticated user, the owner included,
   * may claim an available item. The item is saved before the owner's
   * notice; when saving the notice fails the answer is 500 but the claim
   * stays.
   */
  method ClaimItem(db: Database, actor: Actor, id: ItemId, noticeId: string, now: nat, noticeSaved: bool)
    returns (code: int, claimed: Option<StoredItem>)
    requires db.Valid()
    modifies db
    ensures db.Valid()
    ensures db.users == old(db.users)
    ensures code == StatusNotFound <==> id !in old(db.items)
    ensures code == StatusBadRequest <==> id in old(db.items) && old(db.items)[id].status != Available
    ensures code == StatusServerError <==> id in old(db.items) && old(db.items)[id].status == Available && !noticeSaved
    ensures code in {StatusOk, StatusBadRequest, StatusNotFound, StatusServerError}
    ensures code in {StatusBadRequest, StatusNotFound} ==>
      db.items == old(db.items) && db.notifications == old(db.notifications) && claimed == None
    ensures code in {StatusOk, StatusServerError} ==>
      && id in old(db.items)
      && db.items == old(db.items)[id := ClaimRequested(old(db.items)[id], actor.userId)]
    ensures code == StatusOk ==>
      && claimed == Some(db.items[id])
      && db.notifications == old(db.notifications) + [ClaimNotice(db.items[id], noticeId, now)]
    ensures code == StatusServerError ==> claimed == None && db.notifications == old(db.notifications)
  {
    if id !in db.items {
      return StatusNotFound, None;
    }
    var it := db.items[id];
    if it.status != Available {
      return StatusBadRequest, None;
    }
    it := ClaimRequested(it, actor.userId);
    db.items := db.items[id := it];
    if !noticeSaved {
      return StatusServerError, None;
    }
    db.notifications := db.notifications + [ClaimNotice(it, noticeId, now)];
    return StatusOk, Some(it);
  }

  /**
   * `PUT /items/:id/process-claim` as written: 404, then 403 before any
   * status check, then 400 unless pending. Any truthy `approve` approves;
   * the validator on the route is never consulted. The notice is built from
   * the saved item, so a rejection notice has no recipient.
   */
  method ProcessClaimAsWritten(db: Database, actor: Actor, id: ItemId, approve: JsonValue,
                      noticeId: string, now: nat, noticeSaved: bool)
    returns (code: int, processed: Option<StoredItem>)
    requires db.Valid()
    modifies db
    ensures db.Valid()
    ensures db.users == old(db.users)
    ensures code == StatusNotFound <==> id !in old(db.items)
    ensures code == StatusForbidden <==> id in old(db.items) && !CanMutate(old(db.items)[id], actor)
    ensures code == StatusBadRequest <==>
      id in old(db.items) && CanMutate(old(db.items)[id], actor) && old(db.items)[id].status != Pending
    ensures code == StatusServerError <==>
      id in old(db.items) && CanMutate(old(db.items)[id], actor) && old(db.items)[id].status == Pending
      && !noticeSaved
    ensures code in {StatusOk, StatusBadRequest, StatusForbidden, StatusNotFound, StatusServerError}
    ensures code in {StatusBadRequest, StatusForbidden, StatusNotFound} ==>
      db.items == old(db.items) && db.notifications == old(db.notifications) && processed == None
    ensures code in {StatusOk, StatusServerError} ==>
      && id in old(db.items)
      && db.items == old(db.items)[id := ClaimResolved(old(db.items)[id], Truthy(approve))]
    ensures code == StatusOk ==>
      && processed == Some(db.items[id])
      && db.notifications == old(db.notifications) + [ResolutionNotice(db.items[id], Truthy(approve), noticeId, now)]
    ensures code == StatusServerError ==> processed == None && db.notifications == old(db.notifications)
  {
    var decision := Truthy(approve);
    if id !in db.items {
      return StatusNotFound, None;
    }
    var it := db.items[id];
    if !CanMutate(it, actor) {
      return StatusForbidden, None;
    }
    if it.status != Pending {
      return StatusBadRequest, None;
    }
    it := ClaimResolved(it, decision);
    db.items := db.items[id := it];
    if !noticeSaved {
      return StatusServerError, None;
    }
    db.notifications := db.notifications + [ResolutionNotice(it, decision, noticeId, now)];
    return StatusOk, Some(it);
  }

  /**
   * `PUT /items/:id/process-claim` with the route's validation honoured and
   * the claimant read before the decision clears it: 400 unless `approve`
   * is a boolean, then 404, then 403, then 400 unless pending. The decision
   * is the boolean `approve` denotes, and the notice goes to the claimant.
   */
  method ProcessClaim(db: Database, actor: Actor, id: ItemId, approve: JsonValue,
                      noticeId: string, now: nat, noticeSaved: bool)
    returns (code: int, processed: Option<StoredItem>)
    requires db.Valid()
    modifies db
    ensures db.Valid()
    ensures db.users == old(db.users)
    ensures code == StatusNotFound <==> ItemRoutes.IsBooleanValue(approve) && id !in old(db.items)
    ensures code == StatusForbidden <==>
      ItemRoutes.IsBooleanValue(approve) && id in old(db.items) && !CanMutate(old(db.items)[id], actor)
    ensures code == StatusBadRequest <==>
      || !ItemRoutes.IsBooleanValue(approve)
      || (id in old(db.items) && CanMutate(old(db.items)[id], actor) && old(db.items)[id].status != Pending)
    ensures code == StatusServerError <==>
      && ItemRoutes.IsBooleanValue(approve)
      && id in old(db.items) && CanMutate(old(db.items)[id], actor) && old(db.items)[id].status == Pending
      && !noticeSaved
    ensures code in {StatusOk, StatusBadRequest, StatusForbidden, StatusNotFound, StatusServerError}
    ensures code in {StatusBadRequest, StatusForbidden, StatusNotFound} ==>
      db.items == old(db.items) && db.notifications == old(db.notifications) && processed == None
    ensures code in {StatusOk, StatusServerError} ==>
      && id in old(db.items) && BooleanMeaning(approve).Some?
      && db.items == old(db.items)[id := ClaimResolved(old(db.items)[id], BooleanMeaning(approve).value)]
    ensures code == StatusOk ==>
      && processed == Some(db.items[id])
      && db.notifications == old(db.notifications)
           + [ResolutionNoticeToClaimant(old(db.items)[id], BooleanMeaning(approve).value, noticeId, now)]
      && db.notifications[|db.notifications| - 1].user == old(db.items)[id].claimedBy
    ensures code == StatusServerError ==> processed == None && db.notifications == old(db.notifications)
  {
    var meaning := BooleanMeaning(approve);
    if meaning.None? {
      return StatusBadRequest, None;
    }
    var decision := meaning.value;
    if id !in db.items {
      return StatusNotFound, None;
    }
    var before := db.items[id];
    if !CanMutate(before, actor) {
      return StatusForbidden, None;
    }
    if before.status != Pending {
      return StatusBadRequest, None;
    }
    var it := ClaimResolved(before, decision);
    db.items := db.items[id := it];
    if !noticeSaved {
      return StatusServerError, None;
    }
    db.notifications := db.notifications + [ResolutionNoticeToClaimant(before, decision, noticeId, now)];
    return StatusOk, Some(it);
  }

  // ---------------------------------------------------------------------
  // The workflow as a whole.
  // ---------------------------------------------------------------------

  /** A claim or a decision, as the two workflow handlers apply it to one item. */
  datatype Step = Claim(claimant: Actor) | Resolve(decider: Actor, approve: bool)

  /** A step that the handler refuses leaves the item as it was. */
  function Apply(it: StoredItem, step: Step): StoredItem {
    match step
    case Claim(a) => if it.status == Available then ClaimRequested(it, a.userId) else it
    case Resolve(a, approve) =>
      if CanMutate(it, a) && it.status == Pending then ClaimResolved(it, approve) else it
  }

  function Run(it: StoredItem, steps: seq<Step>): StoredItem
    decreases |steps|
  {
    if steps == [] then it else Run(Apply(it, steps[0]), steps[1..])
  }

  /** Claims and decisions alone never break "claimant recorded iff pending or claimed". */
  lemma {:induction false} RunKeepsClaimConsistent(it: StoredItem, steps: seq<Step>)
    requires ClaimConsistent(it)
    ensures ClaimConsistent(Run(it, steps))
    decreases |steps|
  {
    if steps != [] {
      RunKeepsClaimConsistent(Apply(it, steps[0]), steps[1..]);
    }
  }

  /** No workflow step leaves `claimed`: the item, claimant included, stays as it is. */
  lemma {:induction false} ClaimedIsTerminal(it: StoredItem, steps: seq<Step>)
    requires it.status == Claimed
    ensures Run(it, steps) == it
    decreases |steps|
  {
    if steps != [] {
      ClaimedIsTerminal(Apply(it, steps[0]), steps[1..]);
    }
  }

  /** The workflow changes only `status` and `claimedBy`. */
  lemma {:induction false} RunTouchesOnlyClaimFields(it: StoredItem, steps: seq<Step>)
    ensures Run(it, steps).(status := it.status, claimedBy := it.claimedBy) == it
    decreases |steps|
  {
    if steps != [] {
      RunTouchesOnlyClaimFields(Apply(it, steps[0]), steps[1..]);
    }
  }

  /**
   * The reporter U1 approves U2's claim: the item ends claimed by U2. After
   * a rejection instead, a third user's claim succeeds.
   */
  lemma ClaimScenarios(it: StoredItem, u1: Actor, u2: Actor, u3: Actor)
    requires it.status == Available && it.claimedBy == None && it.reportedBy == u1.userId
    ensures Run(it, [Claim(u2), Resolve(u1, true)]).status == Claimed
    ensures Run(it, [Claim(u2), Resolve(u1, true)]).claimedBy == Some(u2.userId)
    ensures Run(it, [Claim(u2), Resolve(u1, false)]).status == Available
    ensures Run(it, [Claim(u2), Resolve(u1, false)]).claimedBy == None
    ensures Run(it, [Claim(u2), Resolve(u1, false), Claim(u3)]).claimedBy == Some(u3.userId)
  {
    var claimed := Apply(it, Claim(u2));
    var approved := Apply(claimed, Resolve(u1, true));
    var rejected := Apply(claimed, Resolve(u1, false));
    var reclaimed := Apply(rejected, Claim(u3));
    assert [Claim(u2), Resolve(u1, true)][1..] == [Resolve(u1, true)];
    assert [Claim(u2), Resolve(u1, false)][1..] == [Resolve(u1, false)];
    assert [Claim(u2), Resolve(u1, false), Claim(u3)][1..] == [Resolve(u1, false), Claim(u3)];
    assert [Resolve(u1, false), Claim(u3)][1..] == [Claim(u3)];
    assert Run(claimed, [Resolve(u1, true)]) == Run(approved, []) == approved;
    assert Run(claimed, [Resolve(u1, false)]) == Run(rejected, []) == rejected;
    assert Run(rejected, [Claim(u3)]) == Run(reclaimed, []) == reclaimed;
    assert Run(claimed, [Resolve(u1, false), Claim(u3)]) == Run(rejected, [Claim(u3)]);
  }

  /** A second claim on an item already pending is refused: the first claimant stays. */
  lemma SecondClaimRefused(it: StoredItem, u2: Actor, u3: Actor)
    requires it.status == Available
    ensures Run(it, [Claim(u2), Claim(u3)]).claimedBy == Some(u2.userId)
  {
    var claimed := Apply(it, Claim(u2));
    assert [Claim(u2), Claim(u3)][1..] == [Claim(u3)];
    assert Run(claimed, [Claim(u3)]) == Run(Apply(claimed, Claim(u3)), []) == claimed;
  }
}
