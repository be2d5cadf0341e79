/**
 * The volunteer side of the lifecycle: claiming a donation, moving the claim
 * through pickup and delivery, reporting a location, and the donor's rating
 * of a finished delivery. Each route returns the error it throws, or the id
 * of the request it acted on; `caller` is the user the middleware attached.
 */
module RequestRoutes {
  import opened Common
  import opened Text
  import D = DonationModel
  import opened RequestModel
  import opened UserModel
  import opened NotificationModel
  import opened Store
  import opened Notify

  datatype AcceptBody = AcceptBody(donationId: Option<Id>, notes: Option<string>)

  datatype LatLng = LatLng(lat: real, lng: real)

  datatype StatusBody = StatusBody(
    requestId: Option<Id>, status: Option<string>, cancelReason: Option<string>,
    volunteerLocation: Option<LatLng>)

  datatype LocationBody = LocationBody(lat: Option<real>, lng: Option<real>)

  datatype RateBody = RateBody(rating: Option<real>, feedback: Option<string>)

  // ---------------------------------------------------------------- accept

  /** The refusal a volunteer with a live request gets. */
  const ActiveRequestMessage := "You already have an active request. Complete it before accepting another."

  /** The error `POST /accept` throws before it writes anything, in the order
      the route checks them, or `None` when the claim goes ahead. */
  function AcceptRefusal(db: Database, caller: Id, body: AcceptBody): (e: Option<Error>)
    reads db
    ensures e.None? <==>
      && body.donationId.Some?
      && body.donationId.value in db.donations
      && db.donations[body.donationId.value].status == D.Available
      && ActiveRequestsOf(db.requests, caller) == {}
    ensures e.Some? ==> e.value.ApiError? && (e.value.status == 400 || e.value.status == 404)
    ensures e == Some(ApiError(400, "Donation ID is required")) <==> body.donationId.None?
    ensures e == Some(ApiError(404, "Donation not found")) <==>
      body.donationId.Some? && body.donationId.value !in db.donations
    ensures e == Some(ApiError(400, "Donation is no longer available")) <==>
      && body.donationId.Some? && body.donationId.value in db.donations
      && db.donations[body.donationId.value].status != D.Available
    ensures e == Some(ApiError(400, ActiveRequestMessage)) <==>
      && body.donationId.Some? && body.donationId.value in db.donations
      && db.donations[body.donationId.value].status == D.Available
      && ActiveRequestsOf(db.requests, caller) != {}
  {
    if body.donationId.None? then Some(ApiError(400, "Donation ID is required"))
    else if body.donationId.value !in db.donations then Some(ApiError(404, "Donation not found"))
    else if db.donations[body.donationId.value].status != D.Available then
      Some(ApiError(400, "Donation is no longer available"))
    else if ActiveRequestsOf(db.requests, caller) != {} then
      Some(ApiError(400, ActiveRequestMessage))
    else None
  }

  /** The request the accept route creates: accepted at once, by the caller,
      for the donation's donor. */
  function AcceptedRequest(donationId: Id, volunteer: Id, donor: Id, notes: Option<string>, now: Time): (r: Request)
    ensures r.status == Accepted && r.acceptedTime == Some(now)
    ensures r.donationId == donationId && r.volunteerId == volunteer && r.donorId == donor
    ensures r.notes == OrElse(notes, "") && r.updatedAt == now
    ensures ValidRequest(r)
  {
    NewRequest(donationId, volunteer, donor, Accepted, Some(now), OrElse(notes, ""), now)
  }

  /** `POST /api/requests/accept`. On success exactly one request is added,
      the donation becomes accepted, and the donor is notified; a donor
      account that no longer exists makes the notification throw after both
      writes. */
  method Accept(db: Database, caller: Id, body: AcceptBody, now: Time, sms: SmsGateway)
    returns (r: Result<Id>)
    requires db.Consistent() && caller in db.users
    modifies db
    ensures db.Consistent()
    ensures old(AcceptRefusal(db, caller, body)).Some? ==>
      r == Err(old(AcceptRefusal(db, caller, body)).value) &&
      db.users == old(db.users) && db.donations == old(db.donations) &&
      db.requests == old(db.requests) && db.notifications == old(db.notifications)
    ensures old(AcceptRefusal(db, caller, body)).None? ==>
      var did := body.donationId.value;
      var was := old(db.donations[did]);
      var rid := old(db.nextId);
      && db.requests == old(db.requests)[rid := AcceptedRequest(did, caller, was.donorId, body.notes, now)]
      && db.donations == old(db.donations)[did := D.Touch(was.(status := D.Accepted), now)]
      && db.users == old(db.users)
      && (was.donorId in old(db.users) ==>
            r == Ok(rid) &&
            db.notifications == old(db.notifications)[rid + 1 :=
              DonationAcceptedRecord(Doc(did, D.Touch(was.(status := D.Accepted), now)),
                                     Doc(caller, old(db.users[caller])),
                                     Doc(was.donorId, old(db.users[was.donorId])), sms, now)])
      && (was.donorId !in old(db.users) ==>
            r == Err(Internal) && db.notifications == old(db.notifications))
  {
    var refusal := AcceptRefusal(db, caller, body);
    if refusal.Some? {
      return Err(refusal.value);
    }
    var did := body.donationId.value;
    var donation := db.donations[did];
    var accepted := D.Touch(donation.(status := D.Accepted), now);
    var rid := Claim(db, caller, did, body.notes, now);
    var donor := Find(db.users, donation.donorId);
    var volunteer := Find(db.users, caller);
    var sent := NotifyDonationAccepted(db, Some(Doc(did, accepted)), volunteer, donor, sms, now);
    if sent.Err? {
      return Err(sent.error);
    }
    r := Ok(rid);
  }

  /** The two writes of the accept route: the new accepted request, under a
      fresh id, and the donation marked accepted. */
  method Claim(db: Database, caller: Id, did: Id, notes: Option<string>, now: Time) returns (rid: Id)
    requires db.Consistent()
    requires did in db.donations && db.donations[did].status == D.Available
    requires ActiveRequestsOf(db.requests, caller) == {}
    modifies db
    ensures db.Consistent()
    ensures rid == old(db.nextId) && db.nextId == rid + 1
    ensures db.requests == old(db.requests)[rid := AcceptedRequest(did, caller, old(db.donations[did]).donorId, notes, now)]
    ensures db.donations == old(db.donations)[did := D.Touch(old(db.donations[did]).(status := D.Accepted), now)]
    ensures db.users == old(db.users) && db.notifications == old(db.notifications)
  {
    var donation := db.donations[did];
    var request := AcceptedRequest(did, caller, donation.donorId, notes, now);
    var accepted := D.Touch(donation.(status := D.Accepted), now);
    AcceptKeepsConsistent(db.users, db.donations, db.requests, db.notifications, db.nextId,
                          did, caller, request, accepted);
    rid := db.NewId();
    db.requests := db.requests[rid := request];
    db.donations := db.donations[did := accepted];
  }

  lemma AcceptKeepsConsistent(users: map<Id, User>, donations: map<Id, D.Donation>,
                              requests: map<Id, Request>, notifications: map<Id, Notification>,
                              next: Id, did: Id, caller: Id, request: Request, accepted: D.Donation)
    requires ConsistentState(users, donations, requests, notifications, next)
    requires did in donations && donations[did].status == D.Available
    requires ActiveRequestsOf(requests, caller) == {}
    requires request.status == Accepted && request.donationId == did && request.volunteerId == caller
    requires ValidRequest(request)
    requires accepted.status == D.Accepted && D.ValidDonation(accepted)
    ensures ConsistentState(users, donations[did := accepted], requests[next := request],
                            notifications, next + 1)
  {
    assert next !in requests;
    AcceptKeepsLifecycle(requests, donations, next, did, caller, request, accepted);
    IdsAfterClaim(users, donations, requests, notifications, next, did, accepted, request);
  }

  /** The donation was available, so no active request claimed it, and the
      caller had no active request; the new claim therefore collides with none. */
  lemma AcceptKeepsLifecycle(requests: map<Id, Request>, donations: map<Id, D.Donation>,
                             rid: Id, did: Id, caller: Id, request: Request, accepted: D.Donation)
    requires Lifecycle(requests, donations) && rid !in requests
    requires did in donations && donations[did].status == D.Available
    requires ActiveRequestsOf(requests, caller) == {}
    requires request.status == Accepted && request.donationId == did && request.volunteerId == caller
    requires accepted.status == D.Accepted
    ensures Lifecycle(requests[rid := request], donations[did := accepted])
  {
    var donations', requests' := donations[did := accepted], requests[rid := request];
    forall r | r in requests && IsActive(requests[r].status)
      ensures requests[r].volunteerId != caller && requests[r].donationId != did
    {
      assert r !in ActiveRequestsOf(requests, caller);
      assert donations[requests[r].donationId].status == Mirror(requests[r].status);
    }
    forall r | r in requests' && IsActive(requests'[r].status)
      ensures requests'[r].donationId in donations'
      ensures donations'[requests'[r].donationId].status == Mirror(requests'[r].status)
    {
    }
    forall r1, r2 | r1 in requests' && r2 in requests' && r1 != r2 &&
                    IsActive(requests'[r1].status) && IsActive(requests'[r2].status)
      ensures requests'[r1].donationId != requests'[r2].donationId
      ensures requests'[r1].volunteerId != requests'[r2].volunteerId
    {
    }
  }

  // ---------------------------------------------------------------- status

  const StatusTargets: seq<string> := ["picked_up", "delivered", "cancelled"]

  const StatusRequiredMessage := "Request ID and status are required"
  const InvalidStatusMessage := "Invalid status. Must be one of: " + Join(StatusTargets, ", ")

  /** The message of a move the transition table does not allow. */
  function MoveMessage(from: RequestStatus, to: string): (m: string)
    ensures |m| > 0 && m[0] == 'C'
  {
    "Cannot change status from " + StatusName(from) + " to " + to
  }

  /** The error `PUT /status` throws before it writes anything, in the order
      the route checks them, or `None` when the move goes ahead. */
  function StatusRefusal(db: Database, caller: Id, body: StatusBody): (e: Option<Error>)
    reads db
    requires caller in db.users
    ensures e.None? <==>
      && body.requestId.Some? && Truthy(body.status)
      && body.status.value in StatusTargets
      && body.requestId.value in db.requests
      && (db.requests[body.requestId.value].volunteerId == caller || db.users[caller].role == Admin)
      && ParseStatus(body.status.value).Some?
      && ParseStatus(body.status.value).value in Transitions(db.requests[body.requestId.value].status)
    ensures e.Some? ==> e.value.ApiError? && e.value.status in {400, 403, 404}
    ensures e == Some(ApiError(400, StatusRequiredMessage)) <==> body.requestId.None? || !Truthy(body.status)
    ensures e == Some(ApiError(400, InvalidStatusMessage)) <==>
      body.requestId.Some? && Truthy(body.status) && body.status.value !in StatusTargets
    ensures e == Some(ApiError(404, "Request not found")) <==>
      && body.requestId.Some? && Truthy(body.status) && body.status.value in StatusTargets
      && body.requestId.value !in db.requests
    ensures e.Some? && e.value.status == 403 <==>
      && body.requestId.Some? && Truthy(body.status) && body.status.value in StatusTargets
      && body.requestId.value in db.requests
      && db.requests[body.requestId.value].volunteerId != caller && db.users[caller].role != Admin
    ensures
      && body.requestId.Some? && Truthy(body.status) && body.status.value in StatusTargets
      && body.requestId.value in db.requests
      ==>
      (e == Some(ApiError(400, MoveMessage(db.requests[body.requestId.value].status, body.status.value))) <==>
        && (db.requests[body.requestId.value].volunteerId == caller || db.users[caller].role == Admin)
        && (ParseStatus(body.status.value).None? ||
            ParseStatus(body.status.value).value !in Transitions(db.requests[body.requestId.value].status)))
  {
    assert StatusRequiredMessage[0] == 'R' && InvalidStatusMessage[0] == 'I';
    if body.requestId.None? || !Truthy(body.status) then
      Some(ApiError(400, StatusRequiredMessage))
    else if body.status.value !in StatusTargets then
      Some(ApiError(400, InvalidStatusMessage))
    else if body.requestId.value !in db.requests then Some(ApiError(404, "Request not found"))
    else
      var request := db.requests[body.requestId.value];
      if request.volunteerId != caller && db.users[caller].role != Admin then
        Some(ApiError(403, "Not authorized to update this request"))
      else if ParseStatus(body.status.value).None? ||
              ParseStatus(body.status.value).value !in Transitions(request.status) then
        Some(ApiError(400, MoveMessage(request.status, body.status.value)))
      else None
  }

  /** The request after a move to `target`: the status, the one timestamp or
      reason that belongs to the target, the optional location, and the
      `updatedAt` of the save. Nothing else changes. */
  function MovedRequest(req: Request, target: RequestStatus, body: StatusBody, now: Time): (r: Request)
    ensures r.status == target && r.updatedAt == now
    ensures r.pickupTime == if target == PickedUp then Some(now) else req.pickupTime
    ensures r.completionTime == if target == Delivered then Some(now) else req.completionTime
    ensures r.cancelReason ==
      if target == Cancelled then OrElse(body.cancelReason, "Cancelled by volunteer") else req.cancelReason
    ensures r.volunteerLocation ==
      if body.volunteerLocation.Some? then
        Some(VolunteerLocation(body.volunteerLocation.value.lat, body.volunteerLocation.value.lng, now))
      else req.volunteerLocation
    ensures r.(status := req.status, pickupTime := req.pickupTime, completionTime := req.completionTime,
               cancelReason := req.cancelReason, volunteerLocation := req.volunteerLocation,
               updatedAt := req.updatedAt) == req
  {
    var r := req.(status := target);
    var r := if target == PickedUp then r.(pickupTime := Some(now))
             else if target == Delivered then r.(completionTime := Some(now))
             else if target == Cancelled then r.(cancelReason := OrElse(body.cancelReason, "Cancelled by volunteer"))
             else r;
    var r := if body.volunteerLocation.Some? then
               r.(volunteerLocation := Some(VolunteerLocation(body.volunteerLocation.value.lat,
                                                              body.volunteerLocation.value.lng, now)))
             else r;
    r.(updatedAt := now)
  }

  /** The donation status that follows a request's move. */
  function MirroredStatus(target: RequestStatus): (s: D.DonationStatus)
    requires target in StatusTargetSet
    ensures target == PickedUp ==> s == D.PickedUp
    ensures target == Delivered ==> s == D.Delivered
    ensures target == Cancelled ==> s == D.Available
    ensures IsActive(target) ==> s == Mirror(target)
  {
    match target
    case PickedUp => D.PickedUp
    case Delivered => D.Delivered
    case Cancelled => D.Available
  }

  const StatusTargetSet: set<RequestStatus> := {PickedUp, Delivered, Cancelled}

  /** `PUT /api/requests/status`. The request moves along the transition
      table with its timestamp, its donation follows (the donation of a live
      request always exists), the donor is told of a pickup, both sides of a
      delivery, and a delivery adds one to the volunteer's `totalPickups`.
      A cancellation notifies nobody and touches no counter. */
  method UpdateStatus(db: Database, caller: Id, body: StatusBody, now: Time, sms: SmsGateway)
    returns (r: Result<Id>)
    requires db.Consistent() && caller in db.users
    modifies db
    ensures db.Consistent()
    ensures old(StatusRefusal(db, caller, body)).Some? ==>
      r == Err(old(StatusRefusal(db, caller, body)).value) &&
      db.users == old(db.users) && db.donations == old(db.donations) &&
      db.requests == old(db.requests) && db.notifications == old(db.notifications)
    ensures old(StatusRefusal(db, caller, body)).None? ==>
      var rid := body.requestId.value;
      var req := old(db.requests[rid]);
      var target := ParseStatus(body.status.value).value;
      && req.donationId in old(db.donations)
      && db.requests == old(db.requests)[rid := MovedRequest(req, target, body, now)]
      && var moved := old(db.donations[req.donationId]).(status := MirroredStatus(target), updatedAt := now);
      && db.donations == old(db.donations)[req.donationId := moved]
      && Announced(old(db.users), old(db.notifications), old(db.nextId), target, req, Doc(req.donationId, moved),
                   sms, now, db.users, db.notifications, r.Ok?)
      && (r.Ok? ==> r.value == rid)
      && (r.Err? ==> r.error == Internal)
  {
    var refusal := StatusRefusal(db, caller, body);
    if refusal.Some? {
      return Err(refusal.value);
    }
    var rid := body.requestId.value;
    var request := db.requests[rid];
    var target := ParseStatus(body.status.value).value;
    var donation := MoveRequest(db, rid, target, body, now);
    var sent := Announce(db, target, request, donation, sms, now);
    if sent.Err? {
      return Err(sent.error);
    }
    r := Ok(rid);
  }

  /** The saves of the status route: the request moves, and its donation
      follows with a save of its own. */
  method MoveRequest(db: Database, rid: Id, target: RequestStatus, body: StatusBody, now: Time)
    returns (donation: Option<Doc<D.Donation>>)
    requires db.Consistent() && rid in db.requests && target in Transitions(db.requests[rid].status)
    modifies db
    ensures db.Consistent()
    ensures var did := old(db.requests[rid]).donationId;
      && did in old(db.donations)
      && donation == Some(Doc(did, old(db.donations[did]).(status := MirroredStatus(target), updatedAt := now)))
      && db.donations == old(db.donations)[did := donation.value.val]
    ensures db.requests == old(db.requests)[rid := MovedRequest(old(db.requests[rid]), target, body, now)]
    ensures db.users == old(db.users) && db.notifications == old(db.notifications) && db.nextId == old(db.nextId)
  {
    var request := db.requests[rid];
    var moved := MovedRequest(request, target, body, now);
    MoveKeepsConsistent(db.users, db.donations, db.requests, db.notifications, db.nextId, rid, moved, now);
    db.requests := db.requests[rid := moved];
    donation := Find(db.donations, request.donationId);
    if donation.Some? {
      var d := D.Touch(donation.value.val.(status := MirroredStatus(target)), now);
      db.donations := db.donations[donation.value.id := d];
      donation := Some(Doc(donation.value.id, d));
    }
  }

  /** What the status route sends and counts after its saves, as a relation
      between the users and notifications before and after and whether it
      ended without a thrown error. A pickup tells the donor; a delivery tells
      both sides and then adds one to the volunteer's `totalPickups`; a
      cancellation does neither. A volunteer or donor account that no longer
      exists makes the notification throw before anything is stored. */
  ghost predicate Announced(users: map<Id, User>, notifications: map<Id, Notification>, next: Id,
                            target: RequestStatus, req: Request, donation: Doc<D.Donation>, sms: SmsGateway,
                            now: Time, users': map<Id, User>, notifications': map<Id, Notification>, ok: bool)
  {
    var volunteer, donor := Find(users, req.volunteerId), Find(users, req.donorId);
    var present := volunteer.Some? && donor.Some?;
    if target == PickedUp then
      users' == users && ok == present &&
      notifications' == if present then
        notifications[next := PickupConfirmedRecord(donation, volunteer.value, donor.value, sms, now)]
      else notifications
    else if target == Delivered then
      ok == present &&
      users' == (if present then
        PickupCounted(users, req.volunteerId)
      else users) &&
      notifications' == if present then
        notifications[next := DeliveryToDonorRecord(donation, volunteer.value, donor.value, sms, now)]
                     [next + 1 := DeliveryToVolunteerRecord(donation, volunteer.value, now)]
      else notifications
    else
      ok && users' == users && notifications' == notifications
  }

  /** The notifications and the pickup counter of the status route. */
  method Announce(db: Database, target: RequestStatus, request: Request, donation: Option<Doc<D.Donation>>,
                  sms: SmsGateway, now: Time)
    returns (r: Result<()>)
    requires db.Consistent() && donation.Some?
    modifies db
    ensures db.Consistent()
    ensures db.donations == old(db.donations) && db.requests == old(db.requests)
    ensures Announced(old(db.users), old(db.notifications), old(db.nextId), target, request, donation.value,
                      sms, now, db.users, db.notifications, r.Ok?)
    ensures r.Err? ==> r.error == Internal
  {
    var donor := Find(db.users, request.donorId);
    var volunteer := Find(db.users, request.volunteerId);
    if target == PickedUp {
      r := NotifyPickupConfirmed(db, donation, volunteer, donor, sms, now);
    } else if target == Delivered {
      r := AnnounceDelivery(db, request, donation, sms, now);
    } else {
      r := Ok(());
    }
  }

  /** The delivery branch of `Announce`: both notifications, then the
      volunteer's pickup counter. */
  method AnnounceDelivery(db: Database, request: Request, donation: Option<Doc<D.Donation>>,
                          sms: SmsGateway, now: Time)
    returns (r: Result<()>)
    requires db.Consistent() && donation.Some?
    modifies db
    ensures db.Consistent()
    ensures db.donations == old(db.donations) && db.requests == old(db.requests)
    ensures Announced(old(db.users), old(db.notifications), old(db.nextId), Delivered, request, donation.value,
                      sms, now, db.users, db.notifications, r.Ok?)
    ensures r.Err? ==> r.error == Internal
  {
    var donor := Find(db.users, request.donorId);
    var volunteer := Find(db.users, request.volunteerId);
    ghost var users, notes, next := db.users, db.notifications, db.nextId;
    r := NotifyDeliveryCompleted(db, donation, volunteer, donor, sms, now);
    ghost var notes' := db.notifications;
    if r.Ok? {
      assert request.volunteerId in db.users;
      CountPickup(db, request.volunteerId);
      assert db.users == PickupCounted(users, request.volunteerId);
    } else {
      assert db.users == users;
    }
    assert db.notifications == notes';
    DeliveryAnnounced(users, notes, next, request, donation.value, volunteer, donor, sms, now,
                      db.users, db.notifications, r.Ok?);
  }

  /** The relation `Announced` states for a delivery, from the effects of
      the two notifications and the counter. */
  lemma DeliveryAnnounced(users: map<Id, User>, notifications: map<Id, Notification>, next: Id,
                          req: Request, donation: Doc<D.Donation>,
                          volunteer: Option<Doc<User>>, donor: Option<Doc<User>>, sms: SmsGateway, now: Time,
                          users': map<Id, User>, notifications': map<Id, Notification>, ok: bool)
    requires volunteer == Find(users, req.volunteerId) && donor == Find(users, req.donorId)
    requires !(volunteer.Some? && donor.Some?) ==> !ok && users' == users && notifications' == notifications
    requires volunteer.Some? && donor.Some? ==>
      && ok
      && users' == PickupCounted(users, req.volunteerId)
      && notifications' == notifications[next := DeliveryToDonorRecord(donation, volunteer.value, donor.value, sms, now)]
                                        [next + 1 := DeliveryToVolunteerRecord(donation, volunteer.value, now)]
    ensures Announced(users, notifications, next, Delivered, req, donation, sms, now, users', notifications', ok)
  {
  }

  /** The accounts after `$inc: {totalPickups: 1}` on `volunteer`. */
  function PickupCounted(users: map<Id, User>, volunteer: Id): map<Id, User>
    requires volunteer in users
  {
    users[volunteer := users[volunteer].(totalPickups := users[volunteer].totalPickups + 1)]
  }

  /** The increment touches one counter of one account: the same accounts,
      the volunteer's `totalPickups` one higher and nothing else different. */
  lemma PickupCountedOnly(users: map<Id, User>, volunteer: Id)
    requires volunteer in users
    ensures PickupCounted(users, volunteer).Keys == users.Keys
    ensures PickupCounted(users, volunteer)[volunteer].totalPickups == users[volunteer].totalPickups + 1
    ensures PickupCounted(users, volunteer)[volunteer].(totalPickups := 0) == users[volunteer].(totalPickups := 0)
    ensures forall u :: u in users && u != volunteer ==> PickupCounted(users, volunteer)[u] == users[u]
  {
  }

  /** `$inc: {totalPickups: 1}` on the volunteer. */
  method CountPickup(db: Database, volunteer: Id)
    requires db.Consistent() && volunteer in db.users
    modifies db
    ensures db.Consistent()
    ensures db.users == old(PickupCounted(db.users, volunteer))
    ensures db.donations == old(db.donations) && db.requests == old(db.requests)
    ensures db.notifications == old(db.notifications) && db.nextId == old(db.nextId)
  {
    PickupCountedKeepsConsistent(db.users, db.donations, db.requests, db.notifications, db.nextId, volunteer);
    db.users := PickupCounted(db.users, volunteer);
  }

  /** A pickup counter is no field the store's invariant constrains. */
  lemma PickupCountedKeepsConsistent(users: map<Id, User>, donations: map<Id, D.Donation>,
                                     requests: map<Id, Request>, notifications: map<Id, Notification>,
                                     next: Id, volunteer: Id)
    requires ConsistentState(users, donations, requests, notifications, next) && volunteer in users
    ensures ConsistentState(PickupCounted(users, volunteer), donations, requests, notifications, next)
  {
    var v := users[volunteer];
    ReplaceUserKeepsConsistent(users, donations, requests, notifications, next, volunteer,
                               v.(totalPickups := v.totalPickups + 1));
  }

  /** Moving a live request along the table, with its donation following,
      keeps the store consistent. */
  lemma MoveKeepsConsistent(users: map<Id, User>, donations: map<Id, D.Donation>,
                            requests: map<Id, Request>, notifications: map<Id, Notification>,
                            next: Id, rid: Id, moved: Request, now: Time)
    requires ConsistentState(users, donations, requests, notifications, next)
    requires rid in requests && moved.status in Transitions(requests[rid].status)
    requires moved.donationId == requests[rid].donationId && moved.volunteerId == requests[rid].volunteerId
    requires ValidRequest(moved)
    ensures moved.donationId in donations
    ensures var did := moved.donationId;
      ConsistentState(users, donations[did := D.Touch(donations[did].(status := MirroredStatus(moved.status)), now)],
                      requests[rid := moved], notifications, next)
  {
    TransitionsAdvance(requests[rid].status, moved.status);
    var did := moved.donationId;
    var d := D.Touch(donations[did].(status := MirroredStatus(moved.status)), now);
    MoveKeepsLifecycle(requests, donations, rid, moved, d);
  }

  /** The moved request shares its donation with no other live request, so
      only its own mirror changes, and it changes to match. */
  lemma MoveKeepsLifecycle(requests: map<Id, Request>, donations: map<Id, D.Donation>,
                           rid: Id, moved: Request, d: D.Donation)
    requires Lifecycle(requests, donations)
    requires rid in requests && IsActive(requests[rid].status) && moved.status != Pending
    requires moved.donationId == requests[rid].donationId && moved.volunteerId == requests[rid].volunteerId
    requires IsActive(moved.status) ==> d.status == Mirror(moved.status)
    ensures moved.donationId in donations
    ensures Lifecycle(requests[rid := moved], donations[moved.donationId := d])
  {
    var did := moved.donationId;
    var requests', donations' := requests[rid := moved], donations[did := d];
    forall r | r in requests && r != rid && IsActive(requests[r].status)
      ensures requests[r].donationId != did
    {
    }
    forall r | r in requests' && IsActive(requests'[r].status)
      ensures requests'[r].donationId in donations'
      ensures donations'[requests'[r].donationId].status == Mirror(requests'[r].status)
    {
      if r != rid {
        assert requests'[r] == requests[r];
      }
    }
    forall r1, r2 | r1 in requests' && r2 in requests' && r1 != r2 &&
                    IsActive(requests'[r1].status) && IsActive(requests'[r2].status)
      ensures requests'[r1].donationId != requests'[r2].donationId
      ensures requests'[r1].volunteerId != requests'[r2].volunteerId
    {
    }
  }

  // ---------------------------------------------------------------- location

  /** The error `PUT /:id/location` throws, or `None`. A latitude or
      longitude of exactly 0 is falsy and therefore refused. Unlike the
      status route, an admin gets no exemption from the ownership check. */
  function LocationRefusal(db: Database, caller: Id, id: Id, body: LocationBody): (e: Option<Error>)
    reads db
    ensures e.None? <==>
      TruthyReal(body.lat) && TruthyReal(body.lng) && id in db.requests && db.requests[id].volunteerId == caller
    ensures e == Some(ApiError(400, "Latitude and longitude are required")) <==>
      !TruthyReal(body.lat) || !TruthyReal(body.lng)
    ensures e == Some(ApiError(404, "Request not found")) <==>
      TruthyReal(body.lat) && TruthyReal(body.lng) && id !in db.requests
    ensures e == Some(ApiError(403, "Not authorized")) <==>
      TruthyReal(body.lat) && TruthyReal(body.lng) && id in db.requests && db.requests[id].volunteerId != caller
  {
    if !TruthyReal(body.lat) || !TruthyReal(body.lng) then
      Some(ApiError(400, "Latitude and longitude are required"))
    else if id !in db.requests then Some(ApiError(404, "Request not found"))
    else if db.requests[id].volunteerId != caller then Some(ApiError(403, "Not authorized"))
    else None
  }

  /** `PUT /api/requests/:id/location`: only the location and the save's
      `updatedAt` change; the status and everything else stay. */
  method UpdateLocation(db: Database, caller: Id, id: Id, body: LocationBody, now: Time)
    returns (r: Result<Id>)
    requires db.Consistent()
    modifies db
    ensures db.Consistent()
    ensures db.users == old(db.users) && db.donations == old(db.donations)
    ensures db.notifications == old(db.notifications) && db.nextId == old(db.nextId)
    ensures old(LocationRefusal(db, caller, id, body)).Some? ==>
      r == Err(old(LocationRefusal(db, caller, id, body)).value) && db.requests == old(db.requests)
    ensures old(LocationRefusal(db, caller, id, body)).None? ==>
      r == Ok(id) &&
      db.requests == old(db.requests)[id := old(db.requests[id]).(
        volunteerLocation := Some(VolunteerLocation(body.lat.value, body.lng.value, now)), updatedAt := now)]
  {
    var refusal := LocationRefusal(db, caller, id, body);
    if refusal.Some? {
      return Err(refusal.value);
    }
    var request := db.requests[id];
    var located := request.(volunteerLocation := Some(VolunteerLocation(body.lat.value, body.lng.value, now)),
                            updatedAt := now);
    ReplaceRequestKeepsConsistent(db.users, db.donations, db.requests, db.notifications, db.nextId, id, located);
    db.requests := db.requests[id := located];
    r := Ok(id);
  }

  // ---------------------------------------------------------------- rating

  /** The error `POST /:id/rate` throws before it writes anything, in the
      order the route checks them, or `None`. */
  function RateRefusal(db: Database, caller: Id, id: Id, body: RateBody): (e: Option<Error>)
    reads db
    ensures e.None? <==>
      && TruthyReal(body.rating) && 1.0 <= body.rating.value <= 5.0
      && id in db.requests && db.requests[id].donorId == caller
      && db.requests[id].status == Delivered && !TruthyReal(db.requests[id].rating)
    ensures e == Some(ApiError(400, "Rating must be between 1 and 5")) <==>
      !TruthyReal(body.rating) || body.rating.value < 1.0 || body.rating.value > 5.0
    ensures e == Some(ApiError(404, "Request not found")) <==>
      TruthyReal(body.rating) && 1.0 <= body.rating.value <= 5.0 && id !in db.requests
    ensures e == Some(ApiError(403, "Not authorized")) <==>
      && TruthyReal(body.rating) && 1.0 <= body.rating.value <= 5.0
      && id in db.requests && db.requests[id].donorId != caller
    ensures e == Some(ApiError(400, "Can only rate completed deliveries")) <==>
      && TruthyReal(body.rating) && 1.0 <= body.rating.value <= 5.0
      && id in db.requests && db.requests[id].donorId == caller
      && db.requests[id].status != Delivered
    ensures e == Some(ApiError(400, "Already rated")) <==>
      && TruthyReal(body.rating) && 1.0 <= body.rating.value <= 5.0
      && id in db.requests && db.requests[id].donorId == caller
      && db.requests[id].status == Delivered && TruthyReal(db.requests[id].rating)
    ensures e.Some? ==> e.value.ApiError? && e.value.status in {400, 403, 404}
  {
    if !TruthyReal(body.rating) || body.rating.value < 1.0 || body.rating.value > 5.0 then
      Some(ApiError(400, "Rating must be between 1 and 5"))
    else if id !in db.requests then Some(ApiError(404, "Request not found"))
    else
      var request := db.requests[id];
      if request.donorId != caller then Some(ApiError(403, "Not authorized"))
      else if request.status != Delivered then Some(ApiError(400, "Can only rate completed deliveries"))
      else if TruthyReal(request.rating) then Some(ApiError(400, "Already rated"))
      else None
  }

  /** The volunteer's new average after one more rating `r`, from the stored
      average `avg` over `n` ratings. The result lies between the old average
      and the new rating, so a stored rating in `[0, 5]` stays there. */
  function NewRating(avg: real, n: nat, r: real): (nr: real)
    ensures avg <= r ==> avg <= nr <= r
    ensures r <= avg ==> r <= nr <= avg
    ensures n == 0 ==> nr == r
  {
    var an := avg * n as real;
    var count := (n + 1) as real;
    assert avg * count == an + avg;
    assert r * count == r * n as real + r;
    MulMonotoneReal(avg, r, n as real);
    (an + r) / count
  }

  /** Scaling by a non-negative factor keeps the order. */
  lemma MulMonotoneReal(a: real, b: real, k: real)
    requires k >= 0.0
    ensures a <= b ==> a * k <= b * k
    ensures b <= a ==> b * k <= a * k
  {
  }

  /** The sum and the mean of a volunteer's ratings, as the reference the
      stored running average is measured against. */
  function Sum(rs: seq<real>): real {
    if rs == [] then 0.0 else rs[0] + Sum(rs[1..])
  }

  function Mean(rs: seq<real>): real {
    if rs == [] then 0.0 else Sum(rs) / |rs| as real
  }

  lemma {:induction false} SumAppend(rs: seq<real>, r: real)
    ensures Sum(rs + [r]) == Sum(rs) + r
  {
    if rs != [] {
      SumAppend(rs[1..], r);
      assert (rs + [r])[1..] == rs[1..] + [r];
    }
  }

  /** The route's update is the running mean: a stored average that is the
      mean of the ratings so far becomes the mean with the new one included. */
  lemma RunningMean(rs: seq<real>, r: real)
    ensures NewRating(Mean(rs), |rs|, r) == Mean(rs + [r])
  {
    SumAppend(rs, r);
    if rs != [] {
      var n := |rs| as real;
      assert Mean(rs) * n == Sum(rs);
    }
  }

  /** The request after its rating is stored: the rating, the feedback
      (empty when none is given), and the save's `updatedAt`. */
  function RatedRequest(req: Request, body: RateBody, now: Time): (r: Request)
    requires body.rating.Some?
    ensures r.(rating := req.rating, feedback := req.feedback, updatedAt := req.updatedAt) == req
    ensures r.rating == body.rating && r.feedback == OrElse(body.feedback, "") && r.updatedAt == now
  {
    req.(rating := body.rating, feedback := OrElse(body.feedback, ""), updatedAt := now)
  }

  /** The volunteer after `findByIdAndUpdate` writes the new average and
      count: no save runs, so `updatedAt` stays, and no validator runs, yet
      the average stays in `[0, 5]`. */
  function RatedVolunteer(v: User, rating: real): (nv: User)
    requires v.ratingCount >= 0
    ensures nv.ratingCount == v.ratingCount + 1
    ensures nv.(rating := v.rating, ratingCount := v.ratingCount) == v
    ensures ValidUser(v) && 1.0 <= rating <= 5.0 ==> ValidUser(nv)
  {
    v.(rating := NewRating(v.rating, v.ratingCount, rating), ratingCount := v.ratingCount + 1)
  }

  /** `POST /api/requests/:id/rate`. The rating is saved on the request
      first; a volunteer account that no longer exists then makes the route
      throw, leaving the saved rating in place. */
  method Rate(db: Database, caller: Id, id: Id, body: RateBody, now: Time) returns (r: Result<Id>)
    requires db.Consistent()
    modifies db
    ensures db.Consistent()
    ensures db.donations == old(db.donations) && db.notifications == old(db.notifications)
    ensures db.nextId == old(db.nextId)
    ensures old(RateRefusal(db, caller, id, body)).Some? ==>
      r == Err(old(RateRefusal(db, caller, id, body)).value) &&
      db.requests == old(db.requests) && db.users == old(db.users)
    ensures old(RateRefusal(db, caller, id, body)).None? ==>
      var req := old(db.requests[id]);
      && db.requests == old(db.requests)[id := RatedRequest(req, body, now)]
      && (req.volunteerId in old(db.users) ==>
            r == Ok(id) && old(db.users[req.volunteerId]).ratingCount >= 0 &&
            db.users == old(db.users)[req.volunteerId :=
              RatedVolunteer(old(db.users[req.volunteerId]), body.rating.value)])
      && (req.volunteerId !in old(db.users) ==> r == Err(Internal) && db.users == old(db.users))
  {
    var refusal := RateRefusal(db, caller, id, body);
    if refusal.Some? {
      return Err(refusal.value);
    }
    var request := db.requests[id];
    var rated := RatedRequest(request, body, now);
    ReplaceRequestKeepsConsistent(db.users, db.donations, db.requests, db.notifications, db.nextId, id, rated);
    db.requests := db.requests[id := rated];
    var volunteer := Find(db.users, request.volunteerId);
    if volunteer.None? {
      return Err(Internal);
    }
    var v := RatedVolunteer(volunteer.value.val, body.rating.value);
    ReplaceUserKeepsConsistent(db.users, db.donations, db.requests, db.notifications, db.nextId,
                               request.volunteerId, v);
    db.users := db.users[request.volunteerId := v];
    r := Ok(id);
  }
}
