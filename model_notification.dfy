/** The Notification schema: eight notification types and the stored record. */
module NotificationModel {
  import opened Common

  datatype NotificationType =
    | DonationCreated | DonationAccepted | PickupConfirmed | DeliveryCompleted
    | DonationExpired | UserVerified | UserBlocked | System

  function TypeName(t: NotificationType): string {
    match t
    case DonationCreated => "donation_created"
    case DonationAccepted => "donation_accepted"
    case PickupConfirmed => "pickup_confirmed"
    case DeliveryCompleted => "delivery_completed"
    case DonationExpired => "donation_expired"
    case UserVerified => "user_verified"
    case UserBlocked => "user_blocked"
    case System => "system"
  }

  datatype Notification = Notification(
    userId: Id,
    kind: NotificationType,
    title: string,
    message: string,
    relatedDonationId: Option<Id>,
    relatedRequestId: Option<Id>,
    isRead: bool,
    smsSent: bool,
    createdAt: Time)
}
