/**
 * The item router: the request-validation chains attached to each route,
 * which routes pass through the authentication middleware, and the order in
 * which Express tries the routes.
 */
module ItemRoutes {
  import opened Wrappers
  import opened JsValues
  import opened ItemModel

  // ---------------------------------------------------------------------
  // Validator chains. A body field is `None` when the request omits it.
  // ---------------------------------------------------------------------

  /** `check(f).notEmpty()`: a missing field reads as "" and fails. */
  predicate NotEmpty(v: Option<string>) {
    v.Some? && v.value != ""
  }

  /** `check(f).isIn(allowed)`: a missing field reads as "" and fails. */
  predicate IsIn(v: Option<string>, allowed: seq<string>) {
    v.Some? && v.value in allowed
  }

  /** `check(f).optional().notEmpty()`: only a field that is present is checked. */
  predicate OptionalNotEmpty(v: Option<string>) {
    v.None? || v.value != ""
  }

  /** `check(f).optional().isIn(allowed)`. */
  predicate OptionalIsIn(v: Option<string>, allowed: seq<string>) {
    v.None? || v.value in allowed
  }

  datatype CreateBody = CreateBody(
    category: Option<string>,
    description: Option<string>,
    date: Option<string>,
    location: Option<string>,
    itemType: Option<string>,
    photoUrl: Option<string>,
    contactInfo: Option<string>,
    notes: Option<string>)

  /** The chain on `POST /`: four required text fields and a lost/found type. */
  predicate CreateBodyValid(b: CreateBody) {
    && NotEmpty(b.category)
    && NotEmpty(b.description)
    && NotEmpty(b.date)
    && NotEmpty(b.location)
    && IsIn(b.itemType, TypeNames)
  }

  datatype UpdateBody = UpdateBody(
    category: Option<string>,
    description: Option<string>,
    date: Option<string>,
    location: Option<string>,
    status: Option<string>,
    photoUrl: Option<string>,
    contactInfo: Option<string>,
    notes: Option<string>)

  /**
   * The chain on `PUT /:id`. `category` is marked optional with no rule
   * after it, so any category passes here. A present `date` must be a date
   * as the validator library judges it (`isDate`).
   */
  predicate UpdateBodyValid(b: UpdateBody, isDate: string -> bool) {
    && (b.date.None? || isDate(b.date.value))
    && OptionalNotEmpty(b.description)
    && OptionalNotEmpty(b.location)
    && OptionalIsIn(b.status, StatusNames)
  }

  /**
   * `check('approve').isBoolean()`: the value, turned into a string, must
   * be one of "true", "false", "1", "0".
   */
  predicate IsBooleanValue(v: JsonValue) {
    match v
    case Bool(_) => true
    case Number(n) => n == 0 || n == 1
    case Text(s) => s in ["true", "false", "1", "0"]
    case _ => false
  }

  // ---------------------------------------------------------------------
  // The route table, in registration order.
  // ---------------------------------------------------------------------

  datatype Verb = Get | Post | Put | Delete

  datatype Handler =
    | CreateItem | GetAllItems | GetUserItems | GetItemById
    | UpdateItem | DeleteItem | ClaimItem | ProcessClaim

  /** A path segment pattern: a literal, or the `:id` parameter. */
  datatype Segment = Lit(text: string) | IdParam

  datatype Route = Route(verb: Verb, pattern: seq<Segment>, handler: Handler, authenticated: bool)

  const Table: seq<Route> := [
    Route(Post, [], CreateItem, true),
    Route(Get, [], GetAllItems, false),
    Route(Get, [Lit("user")], GetUserItems, true),
    Route(Get, [IdParam], GetItemById, false),
    Route(Put, [IdParam], UpdateItem, true),
    Route(Delete, [IdParam], DeleteItem, true),
    Route(Post, [IdParam, Lit("claim")], ClaimItem, true),
    Route(Put, [IdParam, Lit("process-claim")], ProcessClaim, true)
  ]

  /** ASCII upper-case letters map to lower case; every other character is kept. */
  function LowerChar(c: char): char {
    if 'A' <= c <= 'Z' then (c as int + 32) as char else c
  }

  function Lower(s: string): string {
    seq(|s|, i requires 0 <= i < |s| => LowerChar(s[i]))
  }

  /** A string with no upper-case ASCII letter is its own lower case. */
  lemma LowerKeepsLowerCase(s: string)
    requires forall i :: 0 <= i < |s| ==> !('A' <= s[i] <= 'Z')
    ensures Lower(s) == s
  {
  }

  /**
   * A parameter matches any non-empty segment. The router is created with
   * no options, so it is case-insensitive: a literal matches every segment
   * that lower-cases to it. The regular-expression `i` flag folds only
   * ASCII letters onto ASCII letters, and every literal in the table is
   * lower-case ASCII, so lower-casing ASCII letters is exact here.
   */
  predicate SegmentMatches(p: Segment, seg: string) {
    match p
    case Lit(t) => Lower(seg) == t
    case IdParam => seg != ""
  }

  predicate RouteMatches(r: Route, verb: Verb, path: seq<string>) {
    && r.verb == verb
    && |r.pattern| == |path|
    && forall i :: 0 <= i < |path| ==> SegmentMatches(r.pattern[i], path[i])
  }

  /** The request handed to a handler: which one, and the `:id` it was given. */
  datatype Dispatched = Dispatched(handler: Handler, id: Option<string>, authenticated: bool)

  function Bind(r: Route, path: seq<string>): Dispatched
    requires |r.pattern| == |path|
  {
    Dispatched(r.handler, if |path| > 0 && r.pattern[0] == IdParam then Some(path[0]) else None, r.authenticated)
  }

  /** Express tries the routes from `from` on and takes the first that matches. */
  function DispatchFrom(verb: Verb, path: seq<string>, from: nat): (d: Option<Dispatched>)
    requires from <= |Table|
    ensures d.Some? <==> exists k :: from <= k < |Table| && RouteMatches(Table[k], verb, path)
    ensures d.Some? ==>
      exists k :: (&& from <= k < |Table| && RouteMatches(Table[k], verb, path)
                   && d.value == Bind(Table[k], path)
                   && forall j :: from <= j < k ==> !RouteMatches(Table[j], verb, path))
    decreases |Table| - from
  {
    if from == |Table| then None
    else if RouteMatches(Table[from], verb, path) then Some(Bind(Table[from], path))
    else DispatchFrom(verb, path, from + 1)
  }

  function Dispatch(verb: Verb, path: seq<string>): Option<Dispatched> {
    DispatchFrom(verb, path, 0)
  }

  /**
   * `/user` is registered before `/:id`: a GET of a single segment reaches
   * the user-scoped list exactly when the segment is "user" in any mix of
   * upper and lower case ("User", "USER", ...).
   */
  lemma {:induction false} SingleSegmentGet(seg: string)
    requires seg != ""
    ensures Dispatch(Get, [seg]) ==
      if Lower(seg) == "user" then Some(Dispatched(GetUserItems, None, true))
      else Some(Dispatched(GetItemById, Some(seg), false))
  {
    assert RouteMatches(Table[3], Get, [seg]);
    assert !RouteMatches(Table[0], Get, [seg]) && !RouteMatches(Table[1], Get, [seg]);
    if Lower(seg) == "user" {
      assert RouteMatches(Table[2], Get, [seg]);
    } else {
      assert !SegmentMatches(Table[2].pattern[0], [seg][0]);
    }
  }

  /** `GET /User` is the authenticated user-scoped list, not a lookup of the id "User". */
  lemma MixedCaseUserIsPrivate()
    ensures Dispatch(Get, ["User"]) == Some(Dispatched(GetUserItems, None, true))
  {
    assert Lower("User") == "user";
    SingleSegmentGet("User");
  }

  /**
   * Listing and lookup are the only public routes; every route reached
   * carries the authentication requirement of its handler.
   */
  lemma {:induction false} PublicRoutes(verb: Verb, path: seq<string>)
    ensures Dispatch(verb, path).Some? ==>
      (Dispatch(verb, path).value.authenticated <==>
       Dispatch(verb, path).value.handler !in {GetAllItems, GetItemById})
  {
    var d := Dispatch(verb, path);
    if d.Some? {
      var k :| 0 <= k < |Table| && RouteMatches(Table[k], verb, path) && d.value == Bind(Table[k], path);
      assert k in {0, 1, 2, 3, 4, 5, 6, 7};
    }
  }

  /** The claim and process-claim routes hand over the `:id` segment. */
  lemma {:induction false} ClaimRoutes(id: string)
    requires id != ""
    ensures Dispatch(Post, [id, "claim"]) == Some(Dispatched(ClaimItem, Some(id), true))
    ensures Dispatch(Put, [id, "process-claim"]) == Some(Dispatched(ProcessClaim, Some(id), true))
  {
    ClaimRoute(id);
    ProcessClaimRoute(id);
  }

  lemma ClaimRoute(id: string)
    requires id != ""
    ensures Dispatch(Post, [id, "claim"]) == Some(Dispatched(ClaimItem, Some(id), true))
  {
    var path := [id, "claim"];
    assert Lower(path[1]) == "claim";
    assert RouteMatches(Table[6], Post, path);
    assert forall j :: 0 <= j < 6 ==> !RouteMatches(Table[j], Post, path);
  }

  lemma ProcessClaimRoute(id: string)
    requires id != ""
    ensures Dispatch(Put, [id, "process-claim"]) == Some(Dispatched(ProcessClaim, Some(id), true))
  {
    var path := [id, "process-claim"];
    LowerKeepsLowerCase(path[1]);
    assert RouteMatches(Table[7], Put, path);
    assert forall j :: 0 <= j < 7 ==> !RouteMatches(Table[j], Put, path);
    assert Dispatch(Put, path) == DispatchFrom(Put, path, 7);
  }
}
