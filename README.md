# FindMe lost-and-found: a Dafny model of the claim workflow

FindMe is a campus lost-and-found service. Students and staff report lost
or found items. Any signed-in user (the reporter included) can claim an
available item, which makes it pending. The reporter (or an administrator)
then approves the claim, and the item becomes claimed, or rejects it, and
the item is available again. Each step is meant to file a notification for
the other party (see Findings). A React client caches item lists and
notifications and patches its local copies after each request.

This project models, in Dafny:

- the Express/Mongoose server:
  - the item schema;
  - the item router's validation chains, authentication flags and route order;
  - the eight item handlers over a shared store of items, notifications and
    users (`Database`, a class whose fields the handlers update);
  - the user handlers for the profile and for notification read-state;
- the client:
  - the item cache (`ItemContext`) and the notification cache with its
    unread counter (`NotificationContext`), as classes whose methods update
    their fields;
  - the permission predicates and the local item patches of the item
    details page;
  - the tab filter of the notifications page.

Identifiers, the clock, request outcomes and the database's text search are
inputs of the model. The acting user is the `(userId, role)` pair the
authentication middleware provides.

Files:

- `wrappers.dfy`: `Option`.
- `seqs.dfy`: `filter`, `map`, subsequence and newest-first ordering.
- `js_values.dfy`: JSON values and JavaScript truthiness.
- `item_model.dfy`: the item schema.
- `notification_model.dfy`: the notification record.
- `item_routes.dfy`: the item router.
- `store.dfy`: the shared store and status codes.
- `item_controller.dfy`: the item handlers and the workflow.
- `user_controller.dfy`: the user handlers.
- `client_items.dfy`: the client's view of user references.
- `item_context.dfy`: the item cache.
- `notification_context.dfy`: the notification cache and its counter.
- `item_details.dfy`: the item details page.
- `notifications_page.dfy`: the notifications page.

## Model

| member | source | states |
|---|---|---|
| ItemModel.ParseCategory | server/models/item.model.js:4-8 | a category string is accepted iff it is one of the six enumerated names, and then names the parsed category |
| ItemModel.ParseStatus | server/models/item.model.js:21-25 | a status string is accepted iff it is available, claimed or pending, and then names the parsed status |
| ItemModel.ParseType | server/models/item.model.js:26-30 | a type string is accepted iff it is lost or found, and then names the parsed type |
| ItemModel.EnumNamesRoundTrip | server/models/item.model.js:4-30 | parsing the name of every category, status and type gives it back |
| ItemModel.NewItem | server/models/item.model.js:3-53 | a new document is available, has no claimant, is stamped with the current time and is reported by the given user; it passes the required-field check iff description, date and location are non-empty |
| ItemModel.SearchableText | server/models/item.model.js:56 | the text index covers exactly description, location and category |
| ItemModel.SchemaValid | server/models/item.model.js:9-20 | a stored item has non-empty description, date and location, the `required` strings; the enumerations and the required reporter hold by the item's types |
| Store.Database.constructor | server/controllers/item.controller.js:1-2 | the shared collections the handlers read and write (items by id, notifications in insertion order, users by id) start empty, every key naming its own schema-valid document |
| ItemRoutes.DispatchFrom | server/routes/item.routes.js:6-75 | over the eight routes in registration order, with literal segments matched case-insensitively: a request reaches a handler iff some route matches it, and then reaches the first matching route, with that route's `:id` and authentication flag |
| ItemRoutes.SingleSegmentGet | server/routes/item.routes.js:27-37 | a GET of one segment reaches the user's own list exactly when the segment is `user` in any mix of case (the router is case-insensitive), and the public lookup by id for every other segment |
| ItemRoutes.MixedCaseUserIsPrivate | server/routes/item.routes.js:32 | `GET /User` reaches the authenticated user-scoped list, not the public lookup of an item with id `User` |
| ItemRoutes.CreateBodyValid | server/routes/item.routes.js:15-19 | the create body passes iff category, description, date and location are present and non-empty and type is `lost` or `found` |
| ItemRoutes.UpdateBodyValid | server/routes/item.routes.js:46-50 | the edit body passes iff the date, when present, passes `isDate()`, description and location are non-empty when present and status, when present, is one of the three statuses; category is never checked |
| ItemRoutes.IsBooleanValue | server/routes/item.routes.js:72 | `approve` passes iff it is a JSON boolean, the number 0 or 1, or one of the texts "true", "false", "1", "0" |
| ItemRoutes.PublicRoutes | server/routes/item.routes.js:11-75 | every dispatched request needs authentication unless it reaches the full list or the lookup by id |
| ItemRoutes.ClaimRoutes | server/routes/item.routes.js:60-75 | `POST /:id/claim` and `PUT /:id/process-claim` reach the claim and decision handlers with that id, authenticated |
| ItemController.CanMutate | server/controllers/item.controller.js:113 | the actor may edit, delete or decide on an item iff it reported the item or is an administrator (the same test at lines 146 and 207) |
| ItemController.ClaimRequested | server/controllers/item.controller.js:172-174 | a claim makes the item pending with the claimant recorded, keeps the workflow invariant and changes no other field |
| ItemController.ClaimResolved | server/controllers/item.controller.js:215-221 | approval makes the item claimed and keeps the claimant; rejection makes it available and clears the claimant; no other field changes; the invariant is kept from a consistent pending item |
| ItemController.ClaimNotice | server/controllers/item.controller.js:178-185 | the claim notice is an unread info notice to the reporter about this item |
| ItemController.ResolutionNotice | server/controllers/item.controller.js:225-234 | the decision notice is built from the item as saved: its recipient is the saved `claimedBy`; success on approval, warning on rejection |
| ItemController.RejectionNoticeHasNoRecipient | server/controllers/item.controller.js:218-227 | as written, a rejection notice has no recipient, whoever had claimed the item |
| ItemController.ResolutionNoticeToClaimant | server/controllers/item.controller.js:225-234 | the decision notice with the claimant read before the decision; otherwise identical to the notice as written |
| ItemController.ResolutionReachesClaimant | server/controllers/item.controller.js:218-234 | with the claimant read first, approval and rejection notices both reach the user who claimed the item |
| ItemController.BooleanMeaning | server/routes/item.routes.js:72 | a value has a boolean meaning iff it passes `isBoolean()` |
| ItemController.ApproveByTruthiness | server/controllers/item.controller.js:199-216 | the text "false" passes the validator and still approves; the text "no" fails it and still approves |
| ItemController.BooleanMeaningAgrees | server/controllers/item.controller.js:216 | on validated values, the boolean meaning equals truthiness for booleans and numbers, and is true for text exactly on "true" and "1" |
| ItemController.EditedCategory | server/controllers/item.controller.js:118 | a truthy category replaces the current one, otherwise the category is kept |
| ItemController.EditedStatus | server/controllers/item.controller.js:122 | a truthy status replaces the current one, otherwise the status is kept |
| ItemController.ApplyUpdate | server/controllers/item.controller.js:117-125 | each of the eight fields is overwritten exactly when its body value is truthy; id, type, reporter, claimant and creation time never change; required fields stay non-empty |
| ItemController.StatusEditConsistency | server/controllers/item.controller.js:122 | an edit of `status` keeps "claimant recorded iff pending or claimed" exactly when old and new status agree on needing a claimant |
| ItemController.CreateItem | server/controllers/item.controller.js:6-35 | 400 iff validation fails; 500 iff the category is outside the enumeration, the date does not cast to a Date, or the id is taken; otherwise 201 with a new available item, reported by the actor, with no claimant, added under its id |
| ItemController.FindNewestFirst | server/controllers/item.controller.js:53-55 | the result holds each stored item that the filter keeps exactly once, nothing else, newest first |
| ItemController.GetAllItems | server/controllers/item.controller.js:38-62 | each stored item matching every given filter (type, category, status, text search) exactly once, newest first |
| ItemController.QueryFilters | server/controllers/item.controller.js:43-46 | a status filter keeps exactly the items in that status; an empty query keeps every item |
| ItemController.SearchSeesIndexedFields | server/controllers/item.controller.js:49-51 | whether an item matches depends only on its type, status, description, location and category |
| ItemController.MatchesQuery | server/controllers/item.controller.js:40-51 | an item matches iff it agrees with every truthy filter among type, category and status, and with the text search over its indexed fields when one is given |
| ItemController.GetUserItems | server/controllers/item.controller.js:65-75 | exactly the actor's reports, each once, newest first |
| ItemController.GetItemById | server/controllers/item.controller.js:78-93 | 404 iff the id is unknown, otherwise 200 with the stored item |
| ItemController.UpdateItem | server/controllers/item.controller.js:96-134 | 400 iff validation (including `isDate()` on a given date) fails, then 404 iff unknown, then 403 iff neither owner nor admin, then 500 iff a given category or status is outside its enumeration; otherwise 200 and the item replaced by the edit; no failure changes anything |
| ItemController.DeleteItem | server/controllers/item.controller.js:137-157 | 404 iff unknown, then 403 iff neither owner nor admin; otherwise the item is removed whatever its status |
| ItemController.ClaimItem | server/controllers/item.controller.js:160-194 | 404 iff unknown, 400 iff not available (nothing changes); otherwise the item becomes pending with the actor as claimant, owner included, and exactly one info notice to the reporter is appended; if that notice fails to save, 500 with the claim kept |
| ItemController.ProcessClaimAsWritten | server/controllers/item.controller.js:197-246 | 404, then 403 before any status check, then 400 unless pending; failures change nothing; otherwise decided by truthiness of `approve`, and the notice goes to the saved item's `claimedBy` |
| ItemController.ProcessClaim | server/controllers/item.controller.js:197-246 | the corrected handler: 400 unless `approve` is a boolean, then 404, 403 and 400 as written; decided by the boolean's meaning; the notice goes to the claimant |
| ItemController.RunKeepsClaimConsistent | server/controllers/item.controller.js:160-246 | any sequence of claims and decisions keeps "claimant recorded iff pending or claimed" |
| ItemController.ClaimedIsTerminal | server/controllers/item.controller.js:168-170 | no claim or decision changes a claimed item |
| ItemController.RunTouchesOnlyClaimFields | server/controllers/item.controller.js:172-174 | claims and decisions change nothing but status and claimant |
| ItemController.ClaimScenarios | server/controllers/item.controller.js:160-246 | claim then approve ends claimed by the claimant; claim then reject ends available with no claimant, after which a third user's claim succeeds |
| ItemController.SecondClaimRefused | server/controllers/item.controller.js:168-170 | a second claim on a pending item leaves the first claimant in place |
| UserController.ProfileOf | server/controllers/user.controller.js:8 | the profile carries the user's id, e-mail and role |
| UserController.ProfileIgnoresPassword | server/controllers/user.controller.js:8 | the answered profile does not depend on the password |
| UserController.GetProfile | server/controllers/user.controller.js:6-19 | 404 iff the actor is not a user, otherwise 200 with the actor's profile |
| UserController.ApplyProfile | server/controllers/user.controller.js:30-37 | only first name, last name, e-mail and mobile number change, each only when given; id, university id, password and role never change |
| UserController.ProfileBodyValid | server/routes/user.routes.js:20-23 | the profile body passes iff first name, last name and mobile number are non-empty when present and the e-mail, when present, is an e-mail address |
| UserController.UpdateProfile | server/controllers/user.controller.js:22-48 | 400 iff validation fails, then 404 iff the actor is not a user; otherwise the actor's record is updated and its profile returned; failures change nothing |
| UserController.GetNotifications | server/controllers/user.controller.js:51-62 | exactly the notices addressed to the actor, each as often as stored, newest first |
| UserController.FirstOwnedFrom | server/controllers/user.controller.js:67-71 | the first position holding a notice with this id addressed to the actor, or none when there is no such notice |
| UserController.MarkOwnedRead | server/controllers/user.controller.js:67-71 | the first notice with this id addressed to the actor is marked read; every other notice is unchanged, and with no match the list is unchanged |
| UserController.MarkOwnedReadIdempotent | server/controllers/user.controller.js:65-82 | marking the same notice twice equals marking it once |
| UserController.MarkNotificationAsRead | server/controllers/user.controller.js:65-82 | 404 iff no notice with this id is the actor's; otherwise that notice is returned marked read |
| UserController.MarkAllRead | server/controllers/user.controller.js:87-90 | afterwards none of the actor's notices is unread; other users' notices are unchanged; only `read` changes, and only from false to true |
| UserController.MarkAllReadIdempotent | server/controllers/user.controller.js:85-97 | marking all twice equals marking all once |
| UserController.MarkAllNotificationsAsRead | server/controllers/user.controller.js:85-97 | always 200, with the notices replaced by the marked list |
| ClientItems.RefText | client/src/pages/ItemDetails.js:143-147 | `toString()` of a populated reference is "[object Object]"; of an id string or ObjectId it is the id |
| ItemContext.BuildQuery | client/src/context/ItemContext.js:19-22 | the loop appends exactly the filter entries with truthy values, in order |
| ItemContext.QueryKeepsTruthyEntries | client/src/context/ItemContext.js:19-22 | the query is a subsequence of the filters and holds each truthy entry as often as the filters do, and no other |
| ItemContext.ReplaceById | client/src/context/ItemContext.js:92 | every element with the id becomes the returned item; length and every other element are unchanged |
| ItemContext.RemoveById | client/src/context/ItemContext.js:122 | no element with the id survives |
| ItemContext.RemoveKeepsOthers | client/src/context/ItemContext.js:121-127 | removal drops exactly the elements with the id and keeps the others, with their multiplicity and order |
| ItemContext.RemoveAfterReplace | client/src/context/ItemContext.js:85-140 | after a removal it does not matter whether the same id was replaced first |
| ItemContext.ItemCache.constructor | client/src/context/ItemContext.js:9-12 | empty lists, no current item, not loading |
| ItemContext.ItemCache.GetAllItems | client/src/context/ItemContext.js:15-33 | the query holds the truthy filters; the list becomes the response, or stays on failure; not loading afterwards |
| ItemContext.ItemCache.GetUserItems | client/src/context/ItemContext.js:36-48 | the user's list becomes the response, or stays on failure; not loading afterwards |
| ItemContext.ItemCache.GetItemById | client/src/context/ItemContext.js:51-64 | the current item becomes the response, and is cleared on failure; the lists are untouched |
| ItemContext.ItemCache.CreateItem | client/src/context/ItemContext.js:67-82 | the created item is put in front of the user's list, the rest kept in order; nothing changes on failure |
| ItemContext.ItemCache.UpdateItem | client/src/context/ItemContext.js:85-112 | both lists have the id replaced and the current item is replaced when it has the id; nothing changes on failure |
| ItemContext.ItemCache.DeleteItem | client/src/context/ItemContext.js:115-140 | both lists lose the id and the current item is cleared when it has the id; nothing changes on failure |
| ItemContext.ItemCache.ClaimItem | client/src/context/ItemContext.js:143-164 | the full list and the current item are refreshed; the user's own list is never touched |
| ItemContext.ItemCache.ProcessClaim | client/src/context/ItemContext.js:167-196 | both lists and the current item are refreshed as on an edit; nothing changes on failure |
| NotificationContext.CountUnread | client/src/context/NotificationContext.js:21-23 | the unread count is at most the list's length |
| NotificationContext.CountUnreadZero | client/src/context/NotificationContext.js:21-23 | the count is zero iff every notification is read |
| NotificationContext.MarkIdRead | client/src/context/NotificationContext.js:41-47 | every notification with the id is marked read, the others are unchanged |
| NotificationContext.MarkEveryRead | client/src/context/NotificationContext.js:65-67 | every notification is marked read, nothing else changes |
| NotificationContext.MarkIdReadCount | client/src/context/NotificationContext.js:41-50 | marking an id takes exactly its unread notifications out of the count |
| NotificationContext.MarkEveryReadCount | client/src/context/NotificationContext.js:65-70 | after marking all, the count is zero |
| NotificationContext.NotificationCache.constructor | client/src/context/NotificationContext.js:9-11 | empty list, zero counter, in sync |
| NotificationContext.NotificationCache.GetNotifications | client/src/context/NotificationContext.js:14-33 | on success the list is the response and the counter its unread count; on failure both stay; not loading afterwards |
| NotificationContext.NotificationCache.MarkAsRead | client/src/context/NotificationContext.js:36-57 | on success the id is marked read and the counter drops by one, never below zero; on failure nothing changes |
| NotificationContext.NotificationCache.MarkAllAsRead | client/src/context/NotificationContext.js:60-77 | on success all are read and the counter is zero, in sync; on failure nothing changes |
| NotificationContext.MarkUnreadKeepsSync | client/src/context/NotificationContext.js:41-50 | marking the one unread notification with an id keeps the counter equal to the true count |
| NotificationContext.MarkReadAgainDrifts | client/src/context/NotificationContext.js:50 | marking an id with no unread notification leaves the counter one below the true count, unless it was zero |
| NotificationContext.DriftExample | client/src/context/NotificationContext.js:41-50 | a concrete list on which marking an already read notification lowers the counter while the true count stays one |
| NotificationsPage.TabKeeps | client/src/pages/Notifications.js:44-55 | tab 1 keeps the unread notices, tab 2 the success notices, tab 3 the warnings, and tab 0 and every other tab keep all |
| NotificationsPage.TabFilter | client/src/pages/Notifications.js:43-55 | every shown notification passes the active tab's test |
| NotificationsPage.TabFilterIsSubsequence | client/src/pages/Notifications.js:43 | the shown list is a subsequence of the cached one |
| NotificationsPage.TabFilterCounts | client/src/pages/Notifications.js:43-55 | each notification the tab keeps is shown as often as cached, and no other |
| NotificationsPage.AllTabShowsAll | client/src/pages/Notifications.js:51-53 | tab 0 and any unnamed tab show the whole list |
| NotificationsPage.UnreadTabMatchesCounter | client/src/pages/Notifications.js:45-46 | the unread tab shows exactly the unread notifications, as many as the counter counts |
| NotificationsPage.KindTabsSelectKind | client/src/pages/Notifications.js:47-50 | tab 2 shows exactly the success notifications and tab 3 exactly the warnings |
| ItemDetails.IsOwner | client/src/pages/ItemDetails.js:139-147 | the signed-in user owns the item iff a user is signed in and the reporter is a populated user with that non-empty `_id`, that id as a string, or a reference whose `toString()` is that id |
| ItemDetails.CanClaim | client/src/pages/ItemDetails.js:150 | a claim is offered iff a user is signed in, is not the owner, and the item is available |
| ItemDetails.CanProcessClaim | client/src/pages/ItemDetails.js:153 | a decision is offered iff the signed-in user owns the item and its claim is pending |
| ItemDetails.OwnerIsReferencedUser | client/src/pages/ItemDetails.js:139-147 | for every real user id, the ownership test holds iff the reference names that user, whatever its representation; no owner without a user |
| ItemDetails.ClaimOfferStricterThanServer | client/src/pages/ItemDetails.js:150 | a claim is offered iff the item is available and the viewer is not its reporter, while the server's claim step records any viewer, the reporter included, as claimant of an available item |
| ItemDetails.ProcessOfferStricterThanServer | client/src/pages/ItemDetails.js:153 | a decision is offered only to an actor the server accepts, on a pending item; for non-administrators exactly then; never to an administrator who is not the owner |
| ItemDetails.LocalClaim | client/src/pages/ItemDetails.js:189-193 | the patched item is pending with the user's id as claimant, all other fields unchanged |
| ItemDetails.LocalDecision | client/src/pages/ItemDetails.js:209-213 | approval gives claimed with the claimant kept, rejection available with no claimant, all other fields unchanged |
| ItemDetails.LocalClaimAgreesWithServer | client/src/pages/ItemDetails.js:189-193 | with references resolved, the local claim patch is the server's claim transition |
| ItemDetails.LocalDecisionAgreesWithServer | client/src/pages/ItemDetails.js:209-213 | with references resolved, the local decision patch is the server's decision transition |
| ItemDetails.PageSendsBoolean | client/src/context/ItemContext.js:170-172 | the boolean the page sends passes the validator and means what truthiness reads |
| ItemDetails.ErrorText | client/src/pages/ItemDetails.js:195 | the error shown is the thrown message when non-empty, else the fallback, never empty |
| ItemDetails.DetailsPage.constructor | client/src/pages/ItemDetails.js:51-57 | no item, no messages, dialogs closed |
| ItemDetails.DetailsPage.FetchItemData | client/src/pages/ItemDetails.js:61-74 | the item becomes the response with the error cleared, or is cleared with the load error shown |
| ItemDetails.DetailsPage.HandleClaim | client/src/pages/ItemDetails.js:183-198 | the claim dialog closes; on success the local item is patched and the success message set; on failure the item is unchanged and the error set |
| ItemDetails.DetailsPage.HandleProcessClaim | client/src/pages/ItemDetails.js:201-218 | the decision dialog closes; on success the local item is patched by the decision with the matching message; on failure the item is unchanged and the error set |

## Left out

- Authentication (password hashing, token signing and checking) is not part of this model. The acting user is an input `(userId, role)`, and the authentication flag of each route is recorded in the route table.
- ItemRoutes.DispatchFrom / ItemRoutes.SingleSegmentGet: a request path is given as its list of segments. The router is non-strict, so it also accepts a trailing slash (`/user/`); the model assumes that slash already stripped. Percent-encoded characters are not decoded.
- The database's `$text` search (tokenising, stemming) is an input predicate `textMatch` over the indexed fields.
- Concurrency: each handler runs alone. Two concurrent claims that both read an available item are not modelled, and no atomicity is claimed.
- Population joins are not modelled. The store holds raw user ids. The client's populated references are resolved by `ClientItems.Resolved`.
- The Notification schema is not part of this model. Whether saving a notice fails is an input (`noticeSaved`). A failure gives 500 after the item was saved, as in the handlers.
- Dates: `date` is kept as the submitted text. The `isDate()` rule on edits and the schema's cast of `date` to a Date on create are input predicates (`isDate`, `castsToDate`). A date that passes `isDate()` is assumed to cast. `createdAt` is an abstract natural number. Ties in `createdAt` are ordered arbitrarily.
- `isEmail()` on profile edits is an input predicate.
- Request values: every query parameter and every item or profile body field is either absent or one string (`approve` is a full JSON value). A repeated query key (`?status=a&status=b`), which Express passes on as an array and Mongoose turns into `$in`, is not modelled. Neither is a JSON `null` field, which `optional()` does not skip, so that `notEmpty()` rejects it.
- A malformed id (a Mongo cast error, answered with 500) and URL encoding of the query string are not modelled. Unexpected database errors (500) are not modelled either.
- UserController.ApplyProfile: assumes the database drops body fields that are absent from the update, as current Mongoose does. Older versions behave differently.
- ItemDetails.DetailsPage.HandleClaim and ItemDetails.DetailsPage.HandleProcessClaim require a loaded item, because the page renders their buttons only then. The page also reads `user.id` while rendering, so a signed-out visitor never reaches them.
- The delete button of the item details page (a timed navigation) is not modelled. Rendering, navigation and the other pages and components are not modelled either.
- The client caches read their lists at call time. React's stale closures and overlapping requests are not modelled.

## Findings

| source | as written | input that shows it | evidently intended | confidence | as-written member | corrected member |
|---|---|---|---|---|---|---|
| server/controllers/item.controller.js:218-227 | a rejection clears `claimedBy` before the decision notice is built from `item.claimedBy`, so the rejection notice has no recipient | a pending item claimed by user U, rejected by its reporter | the rejection notice reaches U, as the approval notice does | not executed; high | ItemController.RejectionNoticeHasNoRecipient | ItemController.ResolutionReachesClaimant |
| server/controllers/item.controller.js:199-216 | the route declares `check('approve').isBoolean()` but the handler never reads the validation result and decides by truthiness | body `{"approve": "false"}` on a pending item: passes `isBoolean()` and approves the claim | 400 for a non-boolean `approve`, and "false" or "0" reject | not executed; high | ItemController.ApproveByTruthiness | ItemController.BooleanMeaningAgrees |
