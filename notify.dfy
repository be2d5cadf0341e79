/**
 * Notification delivery: the SMS gateway, `createNotification`, the message
 * templates and the three lifecycle notifications the request routes send.
 */
module Notify {
  import opened Common
  import opened Text
  import opened DonationModel
  import opened UserModel
  import opened NotificationModel
  import opened Store

  /** The Twilio client: absent when its credentials are not configured;
      when present, whether the provider accepts the message. The provider's
      answer is an input of the model. */
  datatype SmsGateway = Unconfigured | Configured(accepts: bool)

  /** `sendSMS`: false without a client, otherwise the provider's answer
      (a thrown provider error is caught and also reads as false). */
  function SendSms(g: SmsGateway): bool {
    g.Configured? && g.accepts
  }

  /** The text of the SMS that accompanies a notification. */
  function SmsText(title: string, message: string): string {
    title + ": " + message
  }

  /** The `smsSent` flag `createNotification` stores: an SMS is attempted only
      when it was requested and a phone number was given. */
  function SmsSent(requested: bool, phone: Option<string>, g: SmsGateway): (sent: bool)
    ensures sent <==> requested && Truthy(phone) && g == Configured(true)
  {
    if requested && Truthy(phone) then SendSms(g) else false
  }

  datatype Template = Template(title: string, message: string)

  /** The Notification schema's `required` on both strings. */
  predicate NonEmpty(t: Template) {
    t.title != "" && t.message != ""
  }

  function DonationAcceptedTemplate(donorName: string, foodName: string, volunteerName: string): Template {
    Template("Donation Accepted!",
             volunteerName + " has accepted your " + foodName + " donation and will pick it up soon.")
  }

  function PickupConfirmedTemplate(foodName: string, volunteerName: string): Template {
    Template("Pickup Confirmed",
             volunteerName + " has picked up the " + foodName + " donation. Thank you for your contribution!")
  }

  function DeliveryCompletedTemplate(foodName: string, volunteerName: string): Template {
    Template("Delivery Completed",
             "The " + foodName + " donation has been successfully delivered by " + volunteerName + ".")
  }

  function UserVerifiedTemplate(): Template {
    Template("Account Verified",
             "Your account has been verified. You now have full access to the platform.")
  }

  function UserBlockedTemplate(reason: Option<string>): Template {
    Template("Account Suspended",
             "Your account has been suspended. Reason: " + OrElse(reason, "Policy violation"))
  }

  /** The second message `notifyDeliveryCompleted` sends, to the volunteer. */
  function VolunteerDeliveredMessage(foodName: string): string {
    "You have successfully delivered the " + foodName + " donation. Thank you!"
  }

  /** No template of the request lifecycle yields an empty title or
      message, so the `required` validators of the Notification schema never
      refuse one; nor is the volunteer's delivery message empty. */
  lemma TemplatesNonEmpty(a: string, b: string, c: string)
    ensures NonEmpty(DonationAcceptedTemplate(a, b, c)) && NonEmpty(PickupConfirmedTemplate(a, b))
    ensures NonEmpty(DeliveryCompletedTemplate(a, b))
    ensures VolunteerDeliveredMessage(a) != ""
  {
  }

  /** No account template is empty either. */
  lemma AccountTemplatesNonEmpty(reason: Option<string>)
    ensures NonEmpty(UserVerifiedTemplate()) && NonEmpty(UserBlockedTemplate(reason))
  {
  }

  /** The donor reads who accepted and what: the message opens with the
      volunteer's name and names the food. */
  lemma DonationAcceptedNamesBoth(donorName: string, foodName: string, volunteerName: string)
    ensures var m := DonationAcceptedTemplate(donorName, foodName, volunteerName).message;
            StartsWith(m, volunteerName) && Contains(m, foodName)
  {
    var m := DonationAcceptedTemplate(donorName, foodName, volunteerName).message;
    var k := |volunteerName + " has accepted your "|;
    assert m[k..k + |foodName|] == foodName;
    assert OccursAt(m, foodName, k);
  }

  /** A blocked user is told the reason, or "Policy violation" without one. */
  lemma UserBlockedReason(reason: Option<string>)
    ensures var m := UserBlockedTemplate(reason).message;
            var prefix := "Your account has been suspended. Reason: ";
            StartsWith(m, prefix) &&
            m[|prefix|..] == (if Truthy(reason) then reason.value else "Policy violation")
  {
  }

  /** `createNotification`: attempt the SMS when it was requested and a phone
      number was given, then insert the notification, unread, with the
      outcome of the SMS. The schema requires a title and a message. */
  method CreateNotification(db: Database, userId: Id, kind: NotificationType, title: string,
                            message: string, relatedDonation: Option<Id>, relatedRequest: Option<Id>,
                            sendSms: bool, phone: Option<string>, sms: SmsGateway, now: Time)
    returns (r: Result<Id>)
    requires db.Consistent()
    modifies db
    ensures db.Consistent()
    ensures db.users == old(db.users) && db.donations == old(db.donations) && db.requests == old(db.requests)
    ensures title == "" || message == "" ==>
      r == Err(ValidationFailed) && db.notifications == old(db.notifications) &&
      db.nextId == old(db.nextId)
    ensures title != "" && message != "" ==>
      r == Ok(old(db.nextId)) && db.nextId == old(db.nextId) + 1 &&
      db.notifications == old(db.notifications)[old(db.nextId) :=
        Notification(userId, kind, title, message, relatedDonation, relatedRequest, false,
                     SmsSent(sendSms, phone, sms), now)]
  {
    var smsSent := false;
    if sendSms && Truthy(phone) {
      smsSent := SendSms(sms);
    }
    if title == "" || message == "" {
      return Err(ValidationFailed);
    }
    var id := db.NewId();
    db.notifications := db.notifications[id :=
      Notification(userId, kind, title, message, relatedDonation, relatedRequest, false, smsSent, now)];
    r := Ok(id);
  }

  /** The notification `notifyDonationAccepted` stores for the donor. */
  function DonationAcceptedRecord(donation: Doc<Donation>, volunteer: Doc<User>, donor: Doc<User>,
                                  sms: SmsGateway, now: Time): Notification {
    var t := DonationAcceptedTemplate(donor.val.name, donation.val.foodName, volunteer.val.name);
    Notification(donor.id, DonationAccepted, t.title, t.message, Some(donation.id), None, false,
                 SmsSent(true, Some(donor.val.phone), sms), now)
  }

  function PickupConfirmedRecord(donation: Doc<Donation>, volunteer: Doc<User>, donor: Doc<User>,
                                 sms: SmsGateway, now: Time): Notification {
    var t := PickupConfirmedTemplate(donation.val.foodName, volunteer.val.name);
    Notification(donor.id, PickupConfirmed, t.title, t.message, Some(donation.id), None, false,
                 SmsSent(true, Some(donor.val.phone), sms), now)
  }

  function DeliveryToDonorRecord(donation: Doc<Donation>, volunteer: Doc<User>, donor: Doc<User>,
                                 sms: SmsGateway, now: Time): Notification {
    var t := DeliveryCompletedTemplate(donation.val.foodName, volunteer.val.name);
    Notification(donor.id, DeliveryCompleted, t.title, t.message, Some(donation.id), None, false,
                 SmsSent(true, Some(donor.val.phone), sms), now)
  }

  /** The volunteer's copy: no SMS is requested, so `smsSent` is false. */
  function DeliveryToVolunteerRecord(donation: Doc<Donation>, volunteer: Doc<User>, now: Time): Notification {
    Notification(volunteer.id, DeliveryCompleted, "Delivery Completed",
                 VolunteerDeliveredMessage(donation.val.foodName), Some(donation.id), None, false,
                 false, now)
  }

  /** The three documents a notify function dereferences; a missing one is
      `null`, and reading its fields throws a `TypeError` before anything is stored. */
  predicate AllPresent(donation: Option<Doc<Donation>>, volunteer: Option<Doc<User>>, donor: Option<Doc<User>>) {
    donation.Some? && volunteer.Some? && donor.Some?
  }

  /** `notifyDonationAccepted`: one notification to the donor, with an SMS requested. */
  method NotifyDonationAccepted(db: Database, donation: Option<Doc<Donation>>, volunteer: Option<Doc<User>>,
                                donor: Option<Doc<User>>, sms: SmsGateway, now: Time)
    returns (r: Result<()>)
    requires db.Consistent()
    modifies db
    ensures db.Consistent()
    ensures db.users == old(db.users) && db.donations == old(db.donations) && db.requests == old(db.requests)
    ensures !AllPresent(donation, volunteer, donor) ==>
      r == Err(Internal) && db.notifications == old(db.notifications) && db.nextId == old(db.nextId)
    ensures AllPresent(donation, volunteer, donor) ==>
      r == Ok(()) && db.nextId == old(db.nextId) + 1 &&
      db.notifications == old(db.notifications)[old(db.nextId) :=
        DonationAcceptedRecord(donation.value, volunteer.value, donor.value, sms, now)]
  {
    if !AllPresent(donation, volunteer, donor) {
      return Err(Internal);
    }
    var d, v, u := donation.value, volunteer.value, donor.value;
    var t := DonationAcceptedTemplate(u.val.name, d.val.foodName, v.val.name);
    TemplatesNonEmpty(u.val.name, d.val.foodName, v.val.name);
    var _ := CreateNotification(db, u.id, DonationAccepted, t.title, t.message, Some(d.id), None,
                                true, Some(u.val.phone), sms, now);
    r := Ok(());
  }

  /** `notifyPickupConfirmed`: one notification to the donor, with an SMS requested. */
  method NotifyPickupConfirmed(db: Database, donation: Option<Doc<Donation>>, volunteer: Option<Doc<User>>,
                               donor: Option<Doc<User>>, sms: SmsGateway, now: Time)
    returns (r: Result<()>)
    requires db.Consistent()
    modifies db
    ensures db.Consistent()
    ensures db.users == old(db.users) && db.donations == old(db.donations) && db.requests == old(db.requests)
    ensures !AllPresent(donation, volunteer, donor) ==>
      r == Err(Internal) && db.notifications == old(db.notifications) && db.nextId == old(db.nextId)
    ensures AllPresent(donation, volunteer, donor) ==>
      r == Ok(()) && db.nextId == old(db.nextId) + 1 &&
      db.notifications == old(db.notifications)[old(db.nextId) :=
        PickupConfirmedRecord(donation.value, volunteer.value, donor.value, sms, now)]
  {
    if !AllPresent(donation, volunteer, donor) {
      return Err(Internal);
    }
    var d, v, u := donation.value, volunteer.value, donor.value;
    var t := PickupConfirmedTemplate(d.val.foodName, v.val.name);
    TemplatesNonEmpty(d.val.foodName, v.val.name, "");
    var _ := CreateNotification(db, u.id, PickupConfirmed, t.title, t.message, Some(d.id), None,
                                true, Some(u.val.phone), sms, now);
    r := Ok(());
  }

  /** `notifyDeliveryCompleted`: two notifications, in this order: the donor's,
      with an SMS requested, then the volunteer's, without one. */
  method NotifyDeliveryCompleted(db: Database, donation: Option<Doc<Donation>>, volunteer: Option<Doc<User>>,
                                 donor: Option<Doc<User>>, sms: SmsGateway, now: Time)
    returns (r: Result<()>)
    requires db.Consistent()
    modifies db
    ensures db.Consistent()
    ensures db.users == old(db.users) && db.donations == old(db.donations) && db.requests == old(db.requests)
    ensures !AllPresent(donation, volunteer, donor) ==>
      r == Err(Internal) && db.notifications == old(db.notifications) && db.nextId == old(db.nextId)
    ensures AllPresent(donation, volunteer, donor) ==>
      r == Ok(()) && db.nextId == old(db.nextId) + 2 &&
      db.notifications == old(db.notifications)
        [old(db.nextId) := DeliveryToDonorRecord(donation.value, volunteer.value, donor.value, sms, now)]
        [old(db.nextId) + 1 := DeliveryToVolunteerRecord(donation.value, volunteer.value, now)]
  {
    if !AllPresent(donation, volunteer, donor) {
      return Err(Internal);
    }
    var d, v, u := donation.value, volunteer.value, donor.value;
    var t := DeliveryCompletedTemplate(d.val.foodName, v.val.name);
    TemplatesNonEmpty(d.val.foodName, v.val.name, "");
    var _ := CreateNotification(db, u.id, DeliveryCompleted, t.title, t.message, Some(d.id), None,
                                true, Some(u.val.phone), sms, now);
    var _ := CreateNotification(db, v.id, DeliveryCompleted, "Delivery Completed",
                                VolunteerDeliveredMessage(d.val.foodName), Some(d.id), None,
                                false, None, sms, now);
    r := Ok(());
  }
}
