/**
 * The browser's item cache: the public list, the caller's own items and the
 * item being viewed, refreshed from each API response by id-keyed `map` and
 * `filter` passes. A request's outcome is an input: `None` when the request
 * threw, otherwise the item or list the response carries.
 */
module ItemContext {
  import opened Wrappers
  import opened JsValues
  import opened Seqs
  import opened ItemModel
  import opened ClientItems

  // ---------------------------------------------------------------------
  // The query string of the list request.
  // ---------------------------------------------------------------------

  /** One `[key, value]` pair of `Object.entries(filters)`, in insertion order. */
  type FilterEntry = (string, JsonValue)

  predicate TruthyEntry(e: FilterEntry) {
    Truthy(e.1)
  }

  /**
   * The `forEach` that appends every entry with a truthy value to the
   * query parameters.
   */
  method BuildQuery(filters: seq<FilterEntry>) returns (params: seq<FilterEntry>)
    ensures params == Filter(filters, TruthyEntry)
    ensures forall i :: 0 <= i < |params| ==> Truthy(params[i].1)
  {
    params := [];
    var i := 0;
    while i < |filters|
      invariant 0 <= i <= |filters|
      invariant params + Filter(filters[i..], TruthyEntry) == Filter(filters, TruthyEntry)
    {
      assert filters[i..][0] == filters[i] && filters[i..][1..] == filters[i + 1..];
      if Truthy(filters[i].1) {
        params := params + [filters[i]];
      }
      i := i + 1;
    }
  }

  /**
   * The query holds exactly the entries with truthy values, each as often
   * as the filters hold it, in the filters' order.
   */
  lemma QueryKeepsTruthyEntries(filters: seq<FilterEntry>)
    ensures IsSubsequence(Filter(filters, TruthyEntry), filters)
    ensures forall e :: multiset(Filter(filters, TruthyEntry))[e] == if Truthy(e.1) then multiset(filters)[e] else 0
  {
    FilterIsSubsequence(filters, TruthyEntry);
    FilterCounts(filters, TruthyEntry);
  }

  // ---------------------------------------------------------------------
  // The id-keyed list updates.
  // ---------------------------------------------------------------------

  /** `list.map(item => item._id === id ? latest : item)`. */
  function ReplaceById(s: seq<ClientItem>, id: ItemId, latest: ClientItem): (r: seq<ClientItem>)
    ensures |r| == |s|
    ensures forall i :: 0 <= i < |s| ==> r[i] == if s[i].id == id then latest else s[i]
  {
    Map(s, (it: ClientItem) => if it.id == id then latest else it)
  }

  predicate KeptById(id: ItemId, it: ClientItem) {
    it.id != id
  }

  /** `list.filter(item => item._id !== id)`. */
  function RemoveById(s: seq<ClientItem>, id: ItemId): (r: seq<ClientItem>)
    ensures |r| <= |s|
    ensures forall i :: 0 <= i < |r| ==> r[i].id != id
  {
    Filter(s, (it: ClientItem) => KeptById(id, it))
  }

  /**
   * Removal drops exactly the elements with the id: every other element
   * stays, as often as before and in its order.
   */
  lemma RemoveKeepsOthers(s: seq<ClientItem>, id: ItemId)
    ensures forall x :: multiset(RemoveById(s, id))[x] == if x.id != id then multiset(s)[x] else 0
    ensures IsSubsequence(RemoveById(s, id), s)
  {
    var keep := (it: ClientItem) => KeptById(id, it);
    FilterCounts(s, keep);
    FilterIsSubsequence(s, keep);
  }

  /**
   * Once an id is removed, it does not matter whether its elements were
   * replaced first by an item with the same id.
   */
  lemma {:induction false} RemoveAfterReplace(s: seq<ClientItem>, id: ItemId, latest: ClientItem)
    requires latest.id == id
    ensures RemoveById(ReplaceById(s, id, latest), id) == RemoveById(s, id)
  {
    if s != [] {
      var t := ReplaceById(s, id, latest);
      assert t[1..] == ReplaceById(s[1..], id, latest);
      assert t[0].id == id <==> s[0].id == id;
      RemoveAfterReplace(s[1..], id, latest);
      assert t[0] != s[0] ==> t[0].id == id;
    }
  }

  // ---------------------------------------------------------------------
  // The cache and its handlers.
  // ---------------------------------------------------------------------

  class ItemCache {
    var items: seq<ClientItem>
    var userItems: seq<ClientItem>
    var currentItem: Option<ClientItem>
    var loading: bool

    constructor ()
      ensures items == [] && userItems == [] && currentItem == None && !loading
    {
      items := [];
      userItems := [];
      currentItem := None;
      loading := false;
    }

    /** `getAllItems(filters)`: the list is replaced by the response. */
    method GetAllItems(filters: seq<FilterEntry>, response: Option<seq<ClientItem>>)
      returns (query: seq<FilterEntry>)
      modifies this
      ensures query == Filter(filters, TruthyEntry)
      ensures items == if response.Some? then response.value else old(items)
      ensures userItems == old(userItems) && currentItem == old(currentItem) && !loading
    {
      loading := true;
      query := BuildQuery(filters);
      if response.Some? {
        items := response.value;
      }
      loading := false;
    }

    /** `getUserItems()`. */
    method GetUserItems(response: Option<seq<ClientItem>>)
      modifies this
      ensures userItems == if response.Some? then response.value else old(userItems)
      ensures items == old(items) && currentItem == old(currentItem) && !loading
    {
      loading := true;
      if response.Some? {
        userItems := response.value;
      }
      loading := false;
    }

    /** `getItemById(id)`: the one handler that also clears state when the request fails. */
    method GetItemById(response: Option<ClientItem>)
      modifies this
      ensures currentItem == response
      ensures items == old(items) && userItems == old(userItems) && !loading
    {
      loading := true;
      if response.Some? {
        currentItem := response;
      } else {
        currentItem := None;
      }
      loading := false;
    }

    /** `createItem(data)`: the created item goes to the front of the caller's list. */
    method CreateItem(response: Option<ClientItem>)
      modifies this
      ensures userItems == if response.Some? then [response.value] + old(userItems) else old(userItems)
      ensures items == old(items) && currentItem == old(currentItem) && !loading
    {
      loading := true;
      if response.Some? {
        userItems := [response.value] + userItems;
      }
      loading := false;
    }

    /**
     * The refresh `updateItem` and `processClaim` share: both lists, when
     * non-empty, and the viewed item, when it is the one changed.
     */
    method UpdateItem(id: ItemId, response: Option<ClientItem>)
      modifies this
      ensures response.Some? ==>
        && items == ReplaceById(old(items), id, response.value)
        && userItems == ReplaceById(old(userItems), id, response.value)
        && currentItem == (if old(currentItem).Some? && old(currentItem).value.id == id
                           then response else old(currentItem))
      ensures response.None? ==>
        items == old(items) && userItems == old(userItems) && currentItem == old(currentItem)
      ensures !loading
    {
      loading := true;
      if response.Some? {
        var latest := response.value;
        if |items| > 0 {
          items := ReplaceById(items, id, latest);
        }
        if |userItems| > 0 {
          userItems := ReplaceById(userItems, id, latest);
        }
        if currentItem.Some? && currentItem.value.id == id {
          currentItem := response;
        }
      }
      loading := false;
    }

    /** `deleteItem(id)`: `ok` says whether the request succeeded. */
    method DeleteItem(id: ItemId, ok: bool)
      modifies this
      ensures ok ==>
        && items == RemoveById(old(items), id)
        && userItems == RemoveById(old(userItems), id)
        && currentItem == (if old(currentItem).Some? && old(currentItem).value.id == id
                           then None else old(currentItem))
      ensures !ok ==> items == old(items) && userItems == old(userItems) && currentItem == old(currentItem)
      ensures !loading
    {
      loading := true;
      if ok {
        if |items| > 0 {
          items := RemoveById(items, id);
        }
        if |userItems| > 0 {
          userItems := RemoveById(userItems, id);
        }
        if currentItem.Some? && currentItem.value.id == id {
          currentItem := None;
        }
      }
      loading := false;
    }

    /** `claimItem(id)`: the caller's own list is not refreshed. */
    method ClaimItem(id: ItemId, response: Option<ClientItem>)
      modifies this
      ensures userItems == old(userItems)
      ensures response.Some? ==>
        && items == ReplaceById(old(items), id, response.value)
        && currentItem == (if old(currentItem).Some? && old(currentItem).value.id == id
                           then response else old(currentItem))
      ensures response.None? ==> items == old(items) && currentItem == old(currentItem)
      ensures !loading
    {
      loading := true;
      if response.Some? {
        if |items| > 0 {
          items := ReplaceById(items, id, response.value);
        }
        if currentItem.Some? && currentItem.value.id == id {
          currentItem := response;
        }
      }
      loading := false;
    }

    /** `processClaim(id, approve)`: refreshed exactly as an edit is. */
    method ProcessClaim(id: ItemId, response: Option<ClientItem>)
      modifies this
      ensures response.Some? ==>
        && items == ReplaceById(old(items), id, response.value)
        && userItems == ReplaceById(old(userItems), id, response.value)
        && currentItem == (if old(currentItem).Some? && old(currentItem).value.id == id
                           then response else old(currentItem))
      ensures response.None? ==>
        items == old(items) && userItems == old(userItems) && currentItem == old(currentItem)
      ensures !loading
    {
      UpdateItem(id, response);
    }
  }
}
