/**
 * The item details page: which actions it offers the signed-in user, and
 * the local copy of the item it patches after a claim or a decision instead
 * of reloading it. The user is the signed-in user's id (`user.id`); a
 * request's outcome is an input, `None` on success or the thrown error's
 * message.
 */
module ItemDetails {
  import opened Wrappers
  import opened JsValues
  import opened ItemModel
  import opened Store
  import opened ClientItems
  import ItemRoutes
  import ItemController

  // ---------------------------------------------------------------------
  // What the page offers.
  // ---------------------------------------------------------------------

  /**
   * `isOwner`: a populated reference whose non-empty `_id` is the user's
   * id, a reference that is the user's id as a string, or a reference whose
   * `toString()` is the user's id.
   */
  predicate IsOwner(it: ClientItem, user: Option<UserId>) {
    && user.Some?
    && (|| (it.reportedBy.Populated? && it.reportedBy.refId != "" && it.reportedBy.refId == user.value)
        || (it.reportedBy.IdString? && it.reportedBy.text == user.value)
        || RefText(it.reportedBy) == user.value)
  }

  /** `canClaim`: signed in, not the owner, and the item is available. */
  predicate CanClaim(it: ClientItem, user: Option<UserId>) {
    user.Some? && !IsOwner(it, user) && it.status == Available
  }

  /** `canProcessClaim`: the owner, and a claim is pending. */
  predicate CanProcessClaim(it: ClientItem, user: Option<UserId>) {
    IsOwner(it, user) && it.status == Pending
  }

  /**
   * For every real user id, the three tests together say exactly that the
   * reference names the user, however it is represented.
   */
  lemma OwnerIsReferencedUser(it: ClientItem, uid: UserId)
    requires uid != "" && uid != ObjectText
    ensures IsOwner(it, Some(uid)) <==> RefId(it.reportedBy) == uid
    ensures !IsOwner(it, None)
  {
  }

  /**
   * The page offers a claim exactly on an available item the viewer did not
   * report, whereas the server grants a claim on an available item to
   * anyone, its reporter included.
   */
  lemma ClaimOfferStricterThanServer(it: ClientItem, uid: UserId, role: Role)
    requires uid != "" && uid != ObjectText
    ensures CanClaim(it, Some(uid)) <==> Resolved(it).status == Available && Resolved(it).reportedBy != uid
    ensures Resolved(it).status == Available ==>
      ItemController.Apply(Resolved(it), ItemController.Claim(Actor(uid, role))).claimedBy == Some(uid)
    ensures Resolved(it).status == Available && Resolved(it).reportedBy == uid ==>
      !CanClaim(it, Some(uid))
      && ItemController.Apply(Resolved(it), ItemController.Claim(Actor(uid, role))).status == Pending
  {
    OwnerIsReferencedUser(it, uid);
  }

  /**
   * The page offers a decision only to an actor the server accepts, on a
   * pending item; an administrator who is not the owner is never offered
   * one, although the server would accept it.
   */
  lemma ProcessOfferStricterThanServer(it: ClientItem, actor: Actor)
    requires actor.userId != "" && actor.userId != ObjectText
    ensures CanProcessClaim(it, Some(actor.userId)) ==>
      ItemController.CanMutate(Resolved(it), actor) && Resolved(it).status == Pending
    ensures actor.role != Admin ==>
      (CanProcessClaim(it, Some(actor.userId)) <==>
       ItemController.CanMutate(Resolved(it), actor) && Resolved(it).status == Pending)
    ensures actor.role == Admin && Resolved(it).reportedBy != actor.userId ==>
      !CanProcessClaim(it, Some(actor.userId)) && ItemController.CanMutate(Resolved(it), actor)
  {
    OwnerIsReferencedUser(it, actor.userId);
  }

  // ---------------------------------------------------------------------
  // The local patches.
  // ---------------------------------------------------------------------

  /** `{ ...prevItem, status: "pending", claimedBy: user.id }`. */
  function LocalClaim(it: ClientItem, uid: UserId): (r: ClientItem)
    ensures r.status == Pending && r.claimedBy == Some(IdString(uid))
    ensures r.(status := it.status, claimedBy := it.claimedBy) == it
  {
    it.(status := Pending, claimedBy := Some(IdString(uid)))
  }

  /** `{ ...prevItem, status: approve ? "claimed" : "available", claimedBy: approve ? prevItem.claimedBy : null }`. */
  function LocalDecision(it: ClientItem, approve: bool): (r: ClientItem)
    ensures r.status == (if approve then Claimed else Available)
    ensures r.claimedBy == (if approve then it.claimedBy else None)
    ensures r.(status := it.status, claimedBy := it.claimedBy) == it
  {
    it.(status := if approve then Claimed else Available,
        claimedBy := if approve then it.claimedBy else None)
  }

  /** The local claim patch is the server's pending transition, once references are resolved. */
  lemma LocalClaimAgreesWithServer(it: ClientItem, uid: UserId)
    ensures Resolved(LocalClaim(it, uid)) == ItemController.ClaimRequested(Resolved(it), uid)
  {
  }

  /** The local decision patch is the server's decision, once references are resolved. */
  lemma LocalDecisionAgreesWithServer(it: ClientItem, approve: bool)
    ensures Resolved(LocalDecision(it, approve)) == ItemController.ClaimResolved(Resolved(it), approve)
  {
  }

  /**
   * The page sends `approve` as a JSON boolean: the route's validator
   * accepts it and the handler's truthiness test reads it as sent.
   */
  lemma PageSendsBoolean(approve: bool)
    ensures ItemRoutes.IsBooleanValue(Bool(approve))
    ensures Truthy(Bool(approve)) == approve
    ensures ItemController.BooleanMeaning(Bool(approve)) == Some(approve)
  {
  }

  // ---------------------------------------------------------------------
  // The page state.
  // ---------------------------------------------------------------------

  const LoadFailedText := "Unable to load item details. Please try again later."
  const ClaimSubmittedText := "Claim request submitted successfully"
  const ClaimFailedText := "Failed to submit claim"
  const ApprovedText := "Claim approved successfully"
  const RejectedText := "Claim rejected successfully"
  const ProcessFailedText := "Failed to process claim"

  /** `err.message || fallback`. */
  function ErrorText(message: string, fallback: string): (t: string)
    ensures t != "" && (message != "" ==> t == message)
    requires fallback != ""
  {
    if message != "" then message else fallback
  }

  class DetailsPage {
    var item: Option<ClientItem>
    var error: string
    var success: string
    var claimDialogOpen: bool
    var processDialogOpen: bool

    constructor ()
      ensures item == None && error == "" && success == ""
      ensures !claimDialogOpen && !processDialogOpen
    {
      item := None;
      error := "";
      success := "";
      claimDialogOpen := false;
      processDialogOpen := false;
    }

    /** `fetchItemData()`: load the item, or clear it and show the load error. */
    method FetchItemData(response: Option<ClientItem>)
      modifies this
      ensures item == response
      ensures error == if response.Some? then "" else LoadFailedText
      ensures success == old(success)
      ensures claimDialogOpen == old(claimDialogOpen) && processDialogOpen == old(processDialogOpen)
    {
      if response.Some? {
        item := response;
        error := "";
      } else {
        error := LoadFailedText;
        item := None;
      }
    }

    /** `handleClaim()`: the claim dialog closes whatever the outcome. */
    method HandleClaim(uid: UserId, failure: Option<string>)
      requires item.Some?
      modifies this
      ensures !claimDialogOpen && processDialogOpen == old(processDialogOpen)
      ensures failure.None? ==>
        && item == Some(LocalClaim(old(item).value, uid))
        && success == ClaimSubmittedText && error == old(error)
      ensures failure.Some? ==>
        && item == old(item)
        && error == ErrorText(failure.value, ClaimFailedText) && success == old(success)
    {
      if failure.None? {
        success := ClaimSubmittedText;
        claimDialogOpen := false;
        item := Some(LocalClaim(item.value, uid));
      } else {
        error := ErrorText(failure.value, ClaimFailedText);
        claimDialogOpen := false;
      }
    }

    /** `handleProcessClaim(approve)`: the decision dialog closes whatever the outcome. */
    method HandleProcessClaim(approve: bool, failure: Option<string>)
      requires item.Some?
      modifies this
      ensures !processDialogOpen && claimDialogOpen == old(claimDialogOpen)
      ensures failure.None? ==>
        && item == Some(LocalDecision(old(item).value, approve))
        && success == (if approve then ApprovedText else RejectedText) && error == old(error)
      ensures failure.Some? ==>
        && item == old(item)
        && error == ErrorText(failure.value, ProcessFailedText) && success == old(success)
    {
      if failure.None? {
        success := if approve then ApprovedText else RejectedText;
        processDialogOpen := false;
        item := Some(LocalDecision(item.value, approve));
      } else {
        error := ErrorText(failure.value, ProcessFailedText);
        processDialogOpen := false;
      }
    }
  }
}
