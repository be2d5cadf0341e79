/**
 * The Request schema: a volunteer's claim on one donation, its status
 * enumeration and the transition table the status route enforces.
 */
module RequestModel {
  import opened Common

  datatype RequestStatus = Pending | Accepted | PickedUp | Delivered | Cancelled

  function StatusName(s: RequestStatus): string {
    match s
    case Pending => "pending"
    case Accepted => "accepted"
    case PickedUp => "picked_up"
    case Delivered => "delivered"
    case Cancelled => "cancelled"
  }

  function ParseStatus(s: string): (r: Option<RequestStatus>)
    ensures forall st :: r == Some(st) <==> StatusName(st) == s
  {
    if s == "pending" then Some(Pending)
    else if s == "accepted" then Some(Accepted)
    else if s == "picked_up" then Some(PickedUp)
    else if s == "delivered" then Some(Delivered)
    else if s == "cancelled" then Some(Cancelled)
    else None
  }

  /** The schema default of `status`. */
  const DefaultStatus: RequestStatus := Pending

  /** The statuses the accept route treats as "an active request". */
  predicate IsActive(s: RequestStatus) {
    s == Pending || s == Accepted || s == PickedUp
  }

  /** The table `statusTransitions`: the targets each status may move to.
      A status without an entry (pending, delivered, cancelled) has none. */
  function Transitions(from: RequestStatus): seq<RequestStatus> {
    match from
    case Accepted => [PickedUp, Cancelled]
    case PickedUp => [Delivered, Cancelled]
    case _ => []
  }

  /** How far along the pickup a status is; every allowed transition moves it forward. */
  function Progress(s: RequestStatus): nat {
    match s
    case Pending => 0
    case Accepted => 1
    case PickedUp => 2
    case Delivered => 3
    case Cancelled => 3
  }

  /** The transition table only moves forward, out of an active status. */
  lemma TransitionsAdvance(from: RequestStatus, to: RequestStatus)
    requires to in Transitions(from)
    ensures Progress(from) < Progress(to)
    ensures from == Accepted || from == PickedUp
    ensures to != Pending && to != Accepted
  {
  }

  /** Exactly four moves are allowed, and delivered is reachable only from picked_up. */
  lemma TransitionTable(from: RequestStatus, to: RequestStatus)
    ensures to in Transitions(from) <==>
      (from == Accepted && (to == PickedUp || to == Cancelled)) ||
      (from == PickedUp && (to == Delivered || to == Cancelled))
  {
  }

  datatype VolunteerLocation = VolunteerLocation(lat: real, lng: real, updatedAt: Time)

  datatype Request = Request(
    donationId: Id,
    volunteerId: Id,
    donorId: Id,
    status: RequestStatus,
    requestTime: Time,
    acceptedTime: Option<Time>,
    pickupTime: Option<Time>,
    completionTime: Option<Time>,
    cancelReason: string,
    volunteerLocation: Option<VolunteerLocation>,
    rating: Option<real>,
    feedback: string,
    notes: string,
    createdAt: Time,
    updatedAt: Time)

  /** The `min: 1, max: 5` validator on `rating`. */
  predicate ValidRequest(r: Request) {
    r.rating.Some? ==> 1.0 <= r.rating.value <= 5.0
  }

  /** A record built by `new Request({...})` from the three references, a
      status and the notes; the other paths take their schema defaults. */
  function NewRequest(donationId: Id, volunteerId: Id, donorId: Id, status: RequestStatus,
                      acceptedTime: Option<Time>, notes: string, now: Time): (r: Request)
    ensures r.cancelReason == "" && r.feedback == "" && r.rating.None?
    ensures r.pickupTime.None? && r.completionTime.None? && r.volunteerLocation.None?
    ensures ValidRequest(r)
  {
    Request(donationId, volunteerId, donorId, status, now, acceptedTime, None, None, "", None,
            None, "", notes, now, now)
  }
}
