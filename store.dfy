/**
 * The MongoDB collections the handlers read and write, as one object whose
 * fields are maps from `_id` to record, plus the errors a handler can end in.
 */
module Store {
  import opened Common
  import opened DonationModel
  import opened RequestModel
  import opened UserModel
  import opened NotificationModel

  /** How a handler fails: an `ApiError` it throws (status and message), a
      document Mongoose refuses to store, a token Firebase refuses, or a
      JavaScript `TypeError` from reading a property of a missing document. */
  datatype Error =
    | ApiError(status: int, message: string)
    | ValidationFailed
    | TokenRejected
    | Internal

  datatype Result<T> = Ok(value: T) | Err(error: Error)

  /** A document as a handler holds it after `findById`: its `_id` and its fields. */
  datatype Doc<T> = Doc(id: Id, val: T)

  /** `findById` on one collection: the document, or `null`. */
  function Find<T>(m: map<Id, T>, id: Id): (r: Option<Doc<T>>)
    ensures r.Some? <==> id in m
    ensures r.Some? ==> r.value.id == id && r.value.val == m[id]
  {
    if id in m then Some(Doc(id, m[id])) else None
  }

  /** The donation status a live request keeps its donation in. */
  function Mirror(s: RequestStatus): DonationStatus {
    if s == RequestModel.PickedUp then DonationModel.PickedUp else DonationModel.Accepted
  }

  /** Every stored id is below the next id to hand out, so a fresh id is unused. */
  ghost predicate IdsBelow(users: map<Id, User>, donations: map<Id, Donation>, requests: map<Id, Request>,
                           notifications: map<Id, Notification>, next: Id)
  {
    && (forall id :: id in users ==> id < next)
    && (forall id :: id in donations ==> id < next)
    && (forall id :: id in requests ==> id < next)
    && (forall id :: id in notifications ==> id < next)
  }

  /** Every stored document passes its schema's validators. */
  ghost predicate SchemaValid(users: map<Id, User>, donations: map<Id, Donation>, requests: map<Id, Request>)
  {
    && (forall id :: id in users ==> ValidUser(users[id]))
    && (forall id :: id in donations ==> ValidDonation(donations[id]))
    && (forall id :: id in requests ==> ValidRequest(requests[id]))
  }

  /** `firebaseUid` and `email` are unique among users. */
  ghost predicate UniqueAccounts(users: map<Id, User>)
  {
    forall a, b :: a in users && b in users && a != b ==>
      users[a].firebaseUid != users[b].firebaseUid && users[a].email != users[b].email
  }

  /** The two state machines stay in step:
      no request is ever left pending; a request that is accepted or picked
      up has its donation in the mirrored status; and no two active requests
      share a donation or a volunteer. */
  ghost predicate Lifecycle(requests: map<Id, Request>, donations: map<Id, Donation>)
  {
    && (forall r :: r in requests ==> requests[r].status != Pending)
    && (forall r :: r in requests && IsActive(requests[r].status) ==>
          requests[r].donationId in donations &&
          donations[requests[r].donationId].status == Mirror(requests[r].status))
    && (forall r1, r2 ::
          (r1 in requests && r2 in requests && r1 != r2 &&
           IsActive(requests[r1].status) && IsActive(requests[r2].status)) ==>
          requests[r1].donationId != requests[r2].donationId &&
          requests[r1].volunteerId != requests[r2].volunteerId)
  }

  /** A donation no active request claims may change status freely, or go. */
  predicate Unclaimed(d: Donation) {
    d.status != DonationModel.Accepted && d.status != DonationModel.PickedUp
  }

  /** Replacing or removing an unclaimed donation by another that stays
      unclaimed keeps the machines in step. */
  lemma UnclaimedChangeKeepsLifecycle(requests: map<Id, Request>, donations: map<Id, Donation>,
                                      donations': map<Id, Donation>, id: Id)
    requires Lifecycle(requests, donations)
    requires id in donations && Unclaimed(donations[id])
    requires forall k :: k != id ==> (k in donations' <==> k in donations)
    requires forall k :: k in donations' && k != id ==> donations'[k] == donations[k]
    ensures Lifecycle(requests, donations')
  {
    forall r | r in requests && IsActive(requests[r].status)
      ensures requests[r].donationId != id
    {
      assert donations[requests[r].donationId].status == Mirror(requests[r].status);
    }
  }

  /** Overwriting a stored donation and adding one request under the next id keeps ids below the counter. */
  lemma IdsAfterClaim(users: map<Id, User>, donations: map<Id, Donation>, requests: map<Id, Request>,
                      notifications: map<Id, Notification>, next: Id, did: Id, d: Donation, r: Request)
    requires IdsBelow(users, donations, requests, notifications, next) && did in donations
    ensures IdsBelow(users, donations[did := d], requests[next := r], notifications, next + 1)
  {
  }

  /** Overwriting one user by a valid record with the same account keys
      keeps the store consistent. */
  lemma ReplaceUserKeepsConsistent(users: map<Id, User>, donations: map<Id, Donation>,
                                   requests: map<Id, Request>, notifications: map<Id, Notification>,
                                   next: Id, id: Id, u: User)
    requires ConsistentState(users, donations, requests, notifications, next)
    requires id in users && ValidUser(u)
    requires u.firebaseUid == users[id].firebaseUid && u.email == users[id].email
    ensures ConsistentState(users[id := u], donations, requests, notifications, next)
  {
    var users' := users[id := u];
    forall a, b | a in users' && b in users' && a != b
      ensures users'[a].firebaseUid != users'[b].firebaseUid && users'[a].email != users'[b].email
    {
      assert users'[a].firebaseUid == users[a].firebaseUid && users'[a].email == users[a].email;
      assert users'[b].firebaseUid == users[b].firebaseUid && users'[b].email == users[b].email;
    }
  }

  /** Overwriting one request by a valid record that keeps its status and
      both references keeps the store consistent. */
  lemma ReplaceRequestKeepsConsistent(users: map<Id, User>, donations: map<Id, Donation>,
                                      requests: map<Id, Request>, notifications: map<Id, Notification>,
                                      next: Id, id: Id, r: Request)
    requires ConsistentState(users, donations, requests, notifications, next)
    requires id in requests && ValidRequest(r)
    requires r.status == requests[id].status
    requires r.donationId == requests[id].donationId && r.volunteerId == requests[id].volunteerId
    ensures ConsistentState(users, donations, requests[id := r], notifications, next)
  {
    var requests' := requests[id := r];
    forall r1, r2 | r1 in requests' && r2 in requests' && r1 != r2 &&
                    IsActive(requests'[r1].status) && IsActive(requests'[r2].status)
      ensures requests'[r1].donationId != requests'[r2].donationId
      ensures requests'[r1].volunteerId != requests'[r2].volunteerId
    {
      assert requests'[r1].donationId == requests[r1].donationId;
      assert requests'[r2].donationId == requests[r2].donationId;
    }
  }

  ghost predicate ConsistentState(users: map<Id, User>, donations: map<Id, Donation>, requests: map<Id, Request>,
                                  notifications: map<Id, Notification>, next: Id)
  {
    && IdsBelow(users, donations, requests, notifications, next)
    && SchemaValid(users, donations, requests)
    && UniqueAccounts(users)
    && Lifecycle(requests, donations)
  }

  class Database {
    var users: map<Id, User>
    var donations: map<Id, Donation>
    var requests: map<Id, Request>
    var notifications: map<Id, Notification>
    /** The next `_id` to hand out; every stored id is below it. */
    var nextId: Id

    constructor ()
      ensures users == map[] && donations == map[] && requests == map[] && notifications == map[]
      ensures Consistent()
    {
      users, donations, requests, notifications := map[], map[], map[], map[];
      nextId := 0;
    }

    ghost predicate Consistent()
      reads this
    {
      ConsistentState(users, donations, requests, notifications, nextId)
    }

    /** `user.save()` on an account whose login identity stays as it was. */
    method SaveUser(id: Id, u: User)
      requires Consistent() && id in users && ValidUser(u)
      requires u.firebaseUid == users[id].firebaseUid && u.email == users[id].email
      modifies this`users
      ensures Consistent()
      ensures users == old(users)[id := u]
    {
      ReplaceUserKeepsConsistent(users, donations, requests, notifications, nextId, id, u);
      users := users[id := u];
    }

    /** A fresh ObjectId. */
    method NewId() returns (id: Id)
      modifies this`nextId
      ensures id == old(nextId) && nextId == id + 1
    {
      id := nextId;
      nextId := nextId + 1;
    }
  }

  /** The ids of the requests that `Request.findOne({volunteerId, status: {$in: [...]}})`
      can return for a volunteer. */
  function ActiveRequestsOf(requests: map<Id, Request>, volunteer: Id): set<Id> {
    set r | r in requests && requests[r].volunteerId == volunteer && IsActive(requests[r].status)
  }
}
