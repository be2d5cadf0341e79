/**
 * The volunteer app's requests store: the volunteer's requests, the one
 * in progress and the delivered ones.
 */
module RequestsSlice {
  import opened Common

  /** A request as the API returns it; the populated donation is left out. */
  datatype RequestItem = RequestItem(id: string, donationId: string, volunteerId: string,
                                     status: string, createdAt: string)

  /** `list.map((r) => r._id === updated._id ? updated : r)`. */
  function Replaced(s: seq<RequestItem>, updated: RequestItem): (r: seq<RequestItem>)
    ensures |r| == |s|
    ensures forall k :: 0 <= k < |s| ==> r[k] == if s[k].id == updated.id then updated else s[k]
  {
    if s == [] then [] else [if s[0].id == updated.id then updated else s[0]] + Replaced(s[1..], updated)
  }

  /** Replacing by the same record twice is replacing once, and only
      entries without its id survive untouched. */
  lemma ReplacedTwice(s: seq<RequestItem>, updated: RequestItem)
    ensures Replaced(Replaced(s, updated), updated) == Replaced(s, updated)
    ensures forall x :: x in Replaced(s, updated) ==> x == updated || (x in s && x.id != updated.id)
  {
    var r := Replaced(s, updated);
    forall x | x in r ensures x == updated || (x in s && x.id != updated.id) {
      var k :| 0 <= k < |r| && r[k] == x;
    }
  }

  predicate InProgress(r: RequestItem) {
    r.status == "accepted" || r.status == "picked_up"
  }

  predicate IsDelivered(r: RequestItem) {
    r.status == "delivered"
  }

  /** `find((r) => r.status === "accepted" || r.status === "picked_up") || null`. */
  function FirstInProgress(s: seq<RequestItem>): (r: Option<RequestItem>)
    ensures r.Some? ==> r.value in s && InProgress(r.value)
    ensures r.Some? ==> exists k :: 0 <= k < |s| && s[k] == r.value && forall j :: 0 <= j < k ==> !InProgress(s[j])
    ensures r.None? ==> forall x :: x in s ==> !InProgress(x)
  {
    match FirstIndex(s, InProgress)
    case None => None
    case Some(k) => Some(s[k])
  }

  /** The request a fetch makes active is never among the delivered ones it keeps. */
  lemma ActiveNotCompleted(s: seq<RequestItem>)
    ensures FirstInProgress(s).Some? ==> FirstInProgress(s).value !in Filter(s, IsDelivered)
    ensures forall x :: x in Filter(s, IsDelivered) ==> x.status == "delivered"
  {
  }

  class RequestsState {
    var myRequests: seq<RequestItem>
    var activeRequest: Option<RequestItem>
    var completedRequests: seq<RequestItem>
    var isLoading: bool
    var error: Option<string>

    /** `initialState`. */
    constructor ()
      ensures myRequests == [] && activeRequest.None? && completedRequests == []
      ensures !isLoading && error.None?
    {
      myRequests, activeRequest, completedRequests := [], None, [];
      isLoading, error := false, None;
    }

    method SetActiveRequest(r: Option<RequestItem>)
      modifies this`activeRequest
      ensures activeRequest == r
    {
      activeRequest := r;
    }

    method ClearError()
      modifies this`error
      ensures error.None?
    {
      error := None;
    }

    /** `acceptDonation.pending`. */
    method AcceptPending()
      modifies this`isLoading, this`error
      ensures isLoading && error.None?
    {
      isLoading, error := true, None;
    }

    /** `acceptDonation.fulfilled`: the new request is the active one and
        heads the list. */
    method AcceptFulfilled(request: RequestItem)
      modifies this
      ensures !isLoading && activeRequest == Some(request)
      ensures myRequests == [request] + old(myRequests)
      ensures completedRequests == old(completedRequests) && error == old(error)
    {
      isLoading := false;
      activeRequest := Some(request);
      myRequests := [request] + myRequests;
    }

    /** The `rejected` case of accept, status update and fetch. */
    method Rejected(message: string)
      modifies this`isLoading, this`error
      ensures !isLoading && error == Some(message)
    {
      isLoading, error := false, Some(message);
    }

    /** The `pending` case of status update and fetch, which keep the error. */
    method Loading()
      modifies this`isLoading
      ensures isLoading
    {
      isLoading := true;
    }

    /** `updateRequestStatus.fulfilled`. Entries with the id are replaced;
        the active request follows the update when the ids match; a
        delivered request is prepended to the completed ones and no request
        stays active. */
    method UpdateStatusFulfilled(updated: RequestItem)
      modifies this
      ensures !isLoading && error == old(error)
      ensures myRequests == Replaced(old(myRequests), updated)
      ensures IsDelivered(updated) ==>
        activeRequest.None? && completedRequests == [updated] + old(completedRequests)
      ensures !IsDelivered(updated) ==>
        && completedRequests == old(completedRequests)
        && activeRequest == if old(activeRequest).Some? && old(activeRequest).value.id == updated.id
                            then Some(updated) else old(activeRequest)
    {
      isLoading := false;
      if activeRequest.Some? && activeRequest.value.id == updated.id {
        activeRequest := Some(updated);
      }
      myRequests := Replaced(myRequests, updated);
      if updated.status == "delivered" {
        completedRequests := [updated] + completedRequests;
        activeRequest := None;
      }
    }

    /** `fetchMyRequests.fulfilled`: the list is the server's; the active
        request is its first one in progress; the completed ones are
        exactly its delivered ones, in order. */
    method FetchFulfilled(requests: seq<RequestItem>)
      modifies this
      ensures !isLoading && error == old(error)
      ensures myRequests == requests
      ensures activeRequest == FirstInProgress(requests)
      ensures completedRequests == Filter(requests, IsDelivered)
    {
      isLoading := false;
      myRequests := requests;
      activeRequest := FirstInProgress(myRequests);
      completedRequests := Filter(myRequests, IsDelivered);
    }

    /** `submitRating.fulfilled`: entries with the id are replaced, nothing else. */
    method SubmitRatingFulfilled(updated: RequestItem)
      modifies this`myRequests
      ensures myRequests == Replaced(old(myRequests), updated)
    {
      myRequests := Replaced(myRequests, updated);
    }
  }
}
