# Surplus Food donation marketplace — a verified model of its core

Surplus Food connects restaurants and households that have food left over
(donors) with volunteers who collect it and take it to people who need it.
An administrator verifies accounts and can block them. The heart of the
system is two linked state machines:

- a **donation** is available, accepted, picked up, delivered, cancelled or
  expired;
- a **request** is a volunteer's claim on one donation, and is pending,
  accepted, picked up, delivered or cancelled.

The Express back end drives both machines. Its handlers load documents,
check guards in a fixed order, assign the new fields, save, and bump the
counters on user accounts. Most transitions also send notifications, some by
SMS. The two React front ends (the donor app and the volunteer app) keep
their state in Redux slices. A few of the donor app's pages validate forms
before they call the back end.

The model has one Dafny module per source file.

**Data and store**
- `UserModel`, `DonationModel`, `RequestModel` and `NotificationModel` hold
  the Mongoose schemas. Each has its enumerations, bounds and defaults, and a
  validity predicate that holds for every document the schema accepts.
- `Store.Database` is the MongoDB database: one `map` field per collection,
  plus a counter that hands out fresh ids.
- Its ghost `Consistent()` invariant holds after every handler. It says:
  - every id lies below the counter;
  - every document satisfies its schema;
  - Firebase uids and e-mail addresses are unique;
  - the lifecycle rules hold:
    - no request is pending;
    - every active request points at an existing donation that mirrors its
      status;
    - no two active requests share a donation or a volunteer.

**Back-end handlers**
- The handlers of `backend/routes/*.js` are methods that modify the
  database.
- Each method states its error result and the unchanged store for every
  refusal, and the whole new store on success.
- Each guard is a function whose contract says when the request goes ahead and
  which error each refusal gives.
- The pure parts are functions with lemmas: pagination, list filters, the
  stats fold, the transition table and the running average of ratings.
- `AuthMiddleware` models the Bearer header parse, the account checks of
  `verifyToken`, and the `requireRole`, `requireVerified` and `optionalAuth`
  gates.
- `Notify` models the message templates and the notifications that each
  lifecycle event writes.

**Front end**
- Each Redux slice is a class with the slice's state as fields. Each reducer
  is a method whose `ensures` describe the whole new state. Pure functions on
  lists (replace by id, remove by id, merge, find) carry the properties that
  the reducers rely on.
- The page validators are functions and methods proved against the
  conditions their messages describe:
  - `DonationFormPage`;
  - `DonationHistoryPage`;
  - `RegisterFormPage`, whose e-mail pattern `/\S+@\S+\.\S+/` is proved equal
    to its logical reading.

**Inputs instead of external services**
- Time, the Firebase token check and the SMS gateway are parameters:
  - `now` is the clock;
  - `Verification` is the outcome of Firebase's ID-token verification;
  - `SmsGateway` says whether Twilio is configured and whether a send
    succeeds.

**Behaviour of the source that the model keeps as written**
- A non-numeric quantity such as `"abc"` gets past the donation form's
  quantity check. `parseFloat` gives `NaN`, and `NaN <= 0` is false
  (`DonationFormPage.NonNumericQuantityPasses`).
- The donor app's `updateProfile.fulfilled` merges the payload over a `null`
  user into a user object while `isAuthenticated` stays false
  (`DonorAuthSlice.ProfileMergeBreaksCoherence`).
- Two toasts added in the same millisecond get the same id, so removing one
  removes both (`UiSlice.SameMillisecond`).
- `DELETE /api/donations/:id` decrements the caller's `totalDonations`, not
  the donor's. An admin's delete therefore lowers the admin's own count.
- `findByIdAndUpdate` and `$inc` do not run the `pre('save')` hook, so those
  updates leave `updatedAt` unchanged.
- `PUT /api/admin/block/:id` with no `block` in the body unblocks the
  account.
- The registration duplicate check compares the e-mail after the schema's
  `lowercase`/`trim` setters: Mongoose casts query values through them.
- A stored request is never pending. The accept route creates requests
  directly as accepted, so a `Pending` request never enters the store.

## Model

| member | source | states |
|---|---|---|
| UserModel.ParseRole | backend/model/User.js:26-31 | a string parses to a role exactly when it is that role's name, so only donor, volunteer and admin parse |
| UserModel.NewUser | backend/model/User.js:3-89 | a new account is unverified and unblocked, has zero counters and rating 0, and stores the e-mail normalised and the name and phone trimmed |
| DonationModel.ParseStatus | backend/model/Donation.js:63-67 | a string parses to a status exactly when it is that status's name, so only the six schema values parse |
| DonationModel.ParseFoodType | backend/model/Donation.js:9-13 | a string parses to a food type exactly when it is that type's name, so only the six schema values parse |
| DonationModel.ParseUnit | backend/model/Donation.js:28-32 | a string parses to a unit exactly when it is that unit's name, so only the five schema values parse |
| DonationModel.NewDonation | backend/model/Donation.js:3-91 | a new donation starts available, is stamped with the creation time, and stores the food name trimmed |
| RequestModel.ParseStatus | backend/model/Request.js:19-23 | a string parses to a status exactly when it is that status's name, so only the five schema values parse |
| RequestModel.TransitionTable | backend/routes/requests.js:112-119 | a transition is allowed exactly for accepted to picked_up or cancelled, and picked_up to delivered or cancelled |
| RequestModel.TransitionsAdvance | backend/routes/requests.js:112-119 | every allowed transition moves forward, starts from accepted or picked_up, and never leads back to pending or accepted |
| RequestModel.NewRequest | backend/model/Request.js:3-67 | a new request has an empty cancel reason and feedback, no rating, no pickup or completion time and no location, and satisfies the schema |
| Store.Database.constructor | backend/server.js:60-61 | the database the server connects to starts empty and consistent |
| Store.Find | backend/routes/requests.js:27 | `findById` finds a document exactly when the id is in the collection, and returns that document |
| Store.UnclaimedChangeKeepsLifecycle | backend/routes/donationsNew.js:244-248 | changing a donation that no active request holds keeps the lifecycle invariant |
| Store.ReplaceUserKeepsConsistent | backend/routes/admin.js:106-107 | replacing an account with a valid one that keeps its uid and e-mail keeps the store consistent |
| Store.Database.SaveUser | backend/routes/admin.js:106-107 | `user.save()` replaces one account with a valid one of the same uid and e-mail and keeps the store consistent |
| Store.ReplaceRequestKeepsConsistent | backend/routes/requests.js:339-341 | replacing a request with a valid one of the same status and links keeps the store consistent |
| Paging.TotalPages | backend/routes/donationsNew.js:86 | `Math.ceil(total / limit)`: for a positive limit the fewest pages of `limit` items that hold the total; no number for a zero limit |
| Paging.PagesCoverOnce | backend/routes/admin.js:56 | every item index falls on exactly one page among the first `TotalPages` |
| Paging.PageCount | backend/routes/donationsNew.js:70-78 | a page holds at most `limit` items, none exactly when its offset lies at or past the total, and a short page is the last one |
| Paging.PageOf | backend/routes/donationsNew.js:70-78 | `skip((page-1)*limit).limit(limit)` gives the matches from that offset on, in order; with no limit (0) the whole rest, and with a negative limit as many as its absolute value allows; a negative offset is refused |
| Paging.ListingOf | backend/routes/admin.js:41-58 | a listing reports the full match count, the asked page and the covering page count along with the page's items |
| Common.Filter | backend/routes/notifications.js:15-19 | a query's matches are the documents satisfying it, and only those |
| Common.FilterMultiset | backend/routes/notifications.js:15-19 | every copy of a passing element is kept and no copy of another |
| Common.FirstIndex | donor/src/store/slices/donationsSlice.ts:292-294 | `findIndex` returns the first position that matches, or none when no position matches |
| Text.Trim | backend/model/User.js:9-20 | `trim()` returns a contiguous slice of the input with no whitespace at either end |
| Text.TrimSplit | backend/model/User.js:9-20 | the input is exactly its leading whitespace, the trimmed result and its trailing whitespace |
| Text.TrimUnique | backend/model/User.js:9-20 | a core with no whitespace at either end, padded on both sides by whitespace only, trims to exactly that core |
| Text.PaddedTrim | backend/model/User.js:9-20 | adding whitespace before or after a string does not change what it trims to |
| Text.TrimEmptyIffBlank | donor/src/pages/DonationForm.tsx:208-209 | a string trims to empty exactly when every character is whitespace |
| Text.TrimIdempotent | backend/model/User.js:9-20 | trimming a trimmed string changes nothing |
| Text.JoinSplit | backend/middleware/auth.js:29 | `split(" ")` loses nothing: joining the parts with the separator rebuilds the string |
| AuthMiddleware.BearerToken | backend/middleware/auth.js:22-29 | a header gives a token exactly when it starts with `Bearer `, and the token is a field without spaces |
| AuthMiddleware.BearerRoundTrip | backend/middleware/auth.js:22-29 | `Bearer <token>` with a token free of spaces parses back to that token (section 2.1 of RFC 6750) |
| AuthMiddleware.BearerIgnoresRest | backend/middleware/auth.js:29 | text after a second space is ignored: only the second field is the token |
| AuthMiddleware.BearerExtraSpace | backend/middleware/auth.js:29 | a doubled space after `Bearer` makes the token empty, which the route then refuses |
| AuthMiddleware.UserByUid | backend/middleware/auth.js:35 | the id found for a Firebase uid belongs to the account with that uid, and none is found when no account has it |
| AuthMiddleware.RequestContext.constructor | backend/middleware/auth.js:18-21 | a request starts with no attached user and no Firebase uid |
| AuthMiddleware.VerifyToken | backend/middleware/auth.js:18-71 | 401 without a Bearer header, for an expired or rejected token, or an unknown uid; 403 for a blocked account, which is not attached; otherwise the account is attached and the request passes |
| AuthMiddleware.RequireRole | backend/middleware/auth.js:76-94 | 401 without a user, 403 when the user's role is not listed, pass otherwise |
| AuthMiddleware.RequireVerified | backend/middleware/auth.js:99-115 | passes exactly for a verified user or an admin; 401 "Authentication required" without a user and 403 "Account verification required" otherwise |
| AuthMiddleware.OptionalAuth | backend/middleware/auth.js:120-142 | never rejects, and attaches the account only when the token is accepted and the account is found and not blocked |
| Notify.SmsSent | backend/utils/notifications.js:50-55 | `smsSent` is true exactly when an SMS was asked for, a phone number is given, a client is configured and the provider accepts the message |
| Notify.TemplatesNonEmpty | backend/utils/notifications.js:79-93 | the accepted, pickup and delivery templates, and the volunteer's delivery message, are never empty |
| Notify.AccountTemplatesNonEmpty | backend/utils/notifications.js:105-113 | the verified and suspended templates have a non-empty title and message |
| Notify.DonationAcceptedNamesBoth | backend/utils/notifications.js:80-83 | the donation-accepted message starts with the volunteer's name and contains the food name |
| Notify.UserBlockedReason | backend/utils/notifications.js:110-113 | the blocked message names the given reason, or "Policy violation" when none is given |
| Notify.CreateNotification | backend/utils/notifications.js:39-74 | adds exactly one unread notification under a fresh id, with the given text and the computed `smsSent`; an empty title or message fails schema validation and adds nothing |
| Notify.NotifyDonationAccepted | backend/utils/notifications.js:119-135 | adds exactly one `donation_accepted` notification for the donor, with SMS requested; a missing donation, volunteer or donor throws and adds nothing |
| Notify.NotifyPickupConfirmed | backend/utils/notifications.js:140-155 | adds exactly one `pickup_confirmed` notification for the donor, with SMS requested; a missing party throws and adds nothing |
| Notify.NotifyDeliveryCompleted | backend/utils/notifications.js:160-185 | adds two `delivery_completed` notifications in order, the donor's with SMS and then the volunteer's without; a missing party throws and adds nothing |
| AuthRoutes.Candidate | backend/routes/auth.js:33-42 | the account exists exactly when the role parses; it is unverified and unblocked, takes the verified uid, normalises the e-mail, and defaults the organisation fields to "" |
| AuthRoutes.RegisterRefusal | backend/routes/auth.js:16-30 | 400 exactly when a required field is missing; a token error for a rejected token; 400 exactly when the uid or the e-mail is taken; none exactly when all checks pass and the account is valid |
| AuthRoutes.Register | backend/routes/auth.js:13-57 | refused registrations change nothing; otherwise exactly one account is added under a fresh id, and the store stays consistent |
| AuthRoutes.AddAccount | backend/routes/auth.js:33-44 | inserting an account whose uid and e-mail are unused keeps the store consistent and changes only the user collection |
| AuthRoutes.RegisterOnce | backend/routes/auth.js:24-30 | once an account holds a uid or a normalised e-mail, registering with it again is refused as existing |
| AuthRoutes.EmailCase | backend/model/User.js:14-20 | two spellings of an e-mail that differ only in letter case and in surrounding whitespace are taken exactly together |
| AuthRoutes.SameAddress | backend/model/User.js:14-20 | such two spellings normalise to the same stored e-mail |
| AuthRoutes.ToLowerTrim | backend/model/User.js:14-20 | normalising an e-mail gives the same value whether or not it was lower-cased first |
| AuthRoutes.Login | backend/routes/auth.js:64-83 | 400 exactly without a token, the token error exactly when Firebase rejects a given token, 404 exactly when no account has the uid, 403 exactly when it is blocked; success gives that account |
| AuthRoutes.CollectProfileUpdate | backend/routes/auth.js:143-149 | name, phone and image go into the update exactly when truthy; the organisation fields and the address whenever present, "" included |
| AuthRoutes.ApplyProfile | backend/routes/auth.js:151-155 | the account takes each collected field, trimming name and phone, and keeps every other field |
| AuthRoutes.ProfileValidity | backend/routes/auth.js:151-155 | the updated account is valid exactly when a new name and phone are not blank and a new organisation type is one the schema allows |
| AuthRoutes.EmptyProfile | backend/routes/auth.js:143-149 | a body with nothing truthy and no organisation field leaves the account unchanged |
| AuthRoutes.UpdateProfile | backend/routes/auth.js:140-173 | the caller's account becomes the applied update when that is valid, and otherwise stays as it was with a validation error |
| DonationRoutes.StatusFilter | backend/routes/donationsNew.js:30-35 | an absent status or `all` selects available donations; any other value selects that status |
| DonationRoutes.ListDonations | backend/routes/donationsNew.js:13-90 | the items are page `page` of `limit` of the donations that pass the status, food-type and search filters and have not expired; the total counts all of these, and totalPages is its ceiling quotient by the limit |
| DonationRoutes.ListDefaults | backend/routes/donationsNew.js:30-35 | with no filters the list is the available donations whose expiry lies after now |
| DonationRoutes.MyDonations | backend/routes/donationsNew.js:97-123 | the items are the asked page of the caller's donations that pass the status filter; the total counts all of these, and totalPages is its ceiling quotient by the limit |
| DonationRoutes.CreateRefusal | backend/routes/donationsNew.js:168-174 | 400 exactly when a required field is falsy or the pickup location lacks address, lat or lng |
| DonationRoutes.BuildDonation | backend/routes/donationsNew.js:177-193 | the donation belongs to the caller and is available; it takes the sent type, trimmed name, quantity, expiry, pickup address, coordinates and window, and each optional field as sent or, when falsy or absent, its default; an unknown type or unit, a blank name or a quantity below 1 fails validation |
| DonationRoutes.Create | backend/routes/donationsNew.js:149-207 | a refused create changes nothing; otherwise one donation is added and the caller's `totalDonations` rises by one |
| DonationRoutes.Insert | backend/routes/donationsNew.js:195-200 | inserting a valid donation of an existing donor and counting it keeps the store consistent |
| DonationRoutes.CountedUsers | backend/routes/donationsNew.js:198-200 | `$inc` on `totalDonations` changes only that counter, of that account, by the step |
| DonationRoutes.CreateKeepsConsistent | backend/routes/donationsNew.js:195-200 | adding a valid donation under a fresh id and counting it for the caller keeps the store consistent |
| DonationRoutes.AllowedUpdatesComplete | backend/routes/donationsNew.js:231-235 | the allowed-field list names every editable field, each once |
| DonationRoutes.UpdateRefusal | backend/routes/donationsNew.js:215-229 | no refusal exactly when the donation exists, the caller owns it or is an admin, and it is not accepted, picked up or delivered; 404 exactly for an unknown id |
| DonationRoutes.CollectUpdates | backend/routes/donationsNew.js:237-242 | the `forEach` loop collects exactly the allowed fields present in the body |
| DonationRoutes.ApplyUpdates | backend/routes/donationsNew.js:244-248 | the update succeeds exactly when every sent value casts to its field, and keeps owner and timestamps (`updatedAt` is not refreshed) |
| DonationRoutes.AllCastKinds | backend/routes/donationsNew.js:244-248 | every sent path has a value of its field's kind when all values cast |
| DonationRoutes.ApplyUpdatesReadBack | backend/routes/donationsNew.js:237-248 | every field reads back as the value sent for it, or its old value when none was sent |
| DonationRoutes.UpdateOnlyRequested | backend/routes/donationsNew.js:231-248 | succeeds exactly when each sent value casts; sent fields hold the sent values and unsent ones keep their old values |
| DonationRoutes.Update | backend/routes/donationsNew.js:214-255 | a refused update changes nothing; otherwise the donation becomes the applied update when it is still valid, and nothing else changes |
| DonationRoutes.Replace | backend/routes/donationsNew.js:244-248 | storing a valid edited donation that no active request holds keeps the store consistent |
| DonationRoutes.EditKeepsConsistent | backend/routes/donationsNew.js:244-248 | an edit of an unclaimed donation keeps every part of the store invariant |
| DonationRoutes.DeleteRefusal | backend/routes/donationsNew.js:263-277 | no refusal exactly when the donation exists, the caller owns it or is an admin, and it is neither accepted nor picked up; 404 exactly for an unknown id |
| DonationRoutes.Delete | backend/routes/donationsNew.js:262-290 | a refused delete changes nothing; otherwise exactly that donation goes and the caller's count falls by one |
| DonationRoutes.SummarizeCounts | backend/routes/donationsNew.js:307-331 | the fold counts every donation, the available ones and the delivered ones |
| DonationRoutes.SummarizeBounds | backend/routes/donationsNew.js:307-331 | available plus delivered never exceeds the total, and the total quantity is at least the count |
| DonationRoutes.SummarizeAppend | backend/routes/donationsNew.js:307-331 | the summary of a concatenation is the sum of the summaries |
| DonationRoutes.SummarizeQuantity | backend/routes/donationsNew.js:307-331 | the `$sum` of `quantity` the fold accumulates is the plain sum of the quantities |
| DonationRoutes.Scope | backend/routes/donationsNew.js:301-305 | a donor's stats range over the donor's own donations; any other role's over all of them |
| DonationRoutes.StatsFor | backend/routes/donationsNew.js:297-333 | over the scoped donations: the number of all, available and delivered ones, and the sum of their quantities |
| RequestRoutes.AcceptRefusal | backend/routes/requests.js:22-45 | no refusal exactly when the id is given, the donation exists and is available, and the caller has no active request; each message exactly in its own case, in the route's order: a missing id, an unknown donation (404), a donation no longer available, an active request |
| RequestRoutes.AcceptedRequest | backend/routes/requests.js:48-55 | the new request is accepted now, by the caller, for the donation's donor |
| RequestRoutes.Accept | backend/routes/requests.js:19-80 | a refusal changes nothing; otherwise exactly one accepted request is added, the donation becomes accepted and the donor is notified |
| RequestRoutes.Claim | backend/routes/requests.js:47-61 | the two writes of an accept: one accepted request under a fresh id and the donation marked accepted, the store kept consistent |
| RequestRoutes.AcceptKeepsConsistent | backend/routes/requests.js:48-61 | adding the accepted request and marking the donation keeps the store consistent |
| RequestRoutes.AcceptKeepsLifecycle | backend/routes/requests.js:33-61 | the claim keeps the rule that no donation and no volunteer holds two active requests |
| RequestRoutes.StatusRefusal | backend/routes/requests.js:90-119 | no refusal exactly when both fields are given, the target is valid, the request exists, the caller is its volunteer or an admin, and the table allows the move; each message exactly in its own case, in the route's order: a missing field, a target outside picked_up/delivered/cancelled, an unknown request (404), someone else's request (403), a move the table forbids |
| RequestRoutes.MovedRequest | backend/routes/requests.js:121-137 | the request takes the new status; picked_up sets the pickup time, delivered the completion time, cancelled the reason (default "Cancelled by volunteer"); a given location is stored; nothing else changes |
| RequestRoutes.MirroredStatus | backend/routes/requests.js:142-152 | the donation mirrors the request: picked_up, delivered, or available again on cancel |
| RequestRoutes.MoveRequest | backend/routes/requests.js:121-152 | saving the moved request and the mirrored donation keeps the store consistent and changes nothing else |
| RequestRoutes.Announce | backend/routes/requests.js:160-170 | picked_up notifies the donor once; delivered notifies donor then volunteer and adds one pickup; cancelled does neither |
| RequestRoutes.AnnounceDelivery | backend/routes/requests.js:163-169 | a delivery writes its two notifications and raises the volunteer's `totalPickups` by exactly one |
| RequestRoutes.DeliveryAnnounced | backend/routes/requests.js:163-169 | the effect of a delivery: two new notifications in order and the one pickup counted |
| RequestRoutes.CountPickup | backend/routes/requests.js:167-169 | `$inc: {totalPickups: 1}` sets the accounts to `PickupCounted` of the old ones and changes nothing else |
| RequestRoutes.PickupCountedOnly | backend/routes/requests.js:167-169 | the increment keeps the same accounts, raises the volunteer's `totalPickups` by one and changes no other field or account |
| RequestRoutes.PickupCountedKeepsConsistent | backend/routes/requests.js:167-169 | the increment keeps the store consistent |
| RequestRoutes.UpdateStatus | backend/routes/requests.js:87-177 | a refusal changes nothing; otherwise status, timestamps, mirrored donation, notifications and counters change as the route prescribes |
| RequestRoutes.MoveKeepsConsistent | backend/routes/requests.js:121-152 | an allowed transition with its mirrored donation keeps the store consistent |
| RequestRoutes.MoveKeepsLifecycle | backend/routes/requests.js:121-152 | an allowed transition keeps the one-active-request-per-donation and per-volunteer rules |
| RequestRoutes.LocationRefusal | backend/routes/requests.js:187-199 | no refusal exactly when both coordinates are truthy, the request exists and the caller is its volunteer; each message exactly in its own case, in the route's order: a falsy coordinate, an unknown request (404), someone else's request (403) |
| RequestRoutes.UpdateLocation | backend/routes/requests.js:184-213 | a refusal changes nothing; otherwise only the request's volunteer location and save time change |
| RequestRoutes.RateRefusal | backend/routes/requests.js:316-336 | no refusal exactly when the rating is in 1..5, the caller is the donor, the request is delivered and not yet rated; each message exactly in its own case, in the route's order: a rating outside 1..5, an unknown request (404), another donor (403), a request not delivered, a request already rated |
| RequestRoutes.NewRating | backend/routes/requests.js:345-346 | (rating·n + r)/(n+1) lies between the old average and r, and the first rating is r itself |
| RequestRoutes.RunningMean | backend/model/User.js:71-76 | repeated updates of the running average give the mean of all the ratings received |
| RequestRoutes.SumAppend | backend/routes/requests.js:345-346 | the sum of ratings of a concatenation is the sum of the sums |
| RequestRoutes.RatedRequest | backend/routes/requests.js:339-341 | the rated request takes the rating and the feedback and keeps every other field |
| RequestRoutes.RatedVolunteer | backend/routes/requests.js:344-351 | the rating count rises by one, only the rating fields change, and a rating in 1..5 keeps the account valid, so the average stays within 0..5 |
| RequestRoutes.Rate | backend/routes/requests.js:313-357 | a refusal changes nothing; otherwise the request is rated and the volunteer's average and count are updated |
| AdminRoutes.VerifyRefusal | backend/routes/admin.js:96-104 | 404 for an unknown id before anything else, 400 for a verified account, none otherwise |
| AdminRoutes.Verified | backend/routes/admin.js:106-107 | the account becomes verified with the save time and nothing else changes |
| AdminRoutes.VerifyOnce | backend/routes/admin.js:102-107 | verifying twice: the second request is refused as already verified |
| AdminRoutes.VerifyUser | backend/routes/admin.js:95-130 | a refusal changes nothing; otherwise the account is verified and exactly one `user_verified` notification with SMS is added |
| AdminRoutes.NotifyVerified | backend/routes/admin.js:110-118 | exactly one `user_verified` notification, with SMS requested to the phone, and nothing else changes |
| AdminRoutes.BlockRefusal | backend/routes/admin.js:140-148 | 404 for an unknown id before anything else, 400 for an admin account, none otherwise |
| AdminRoutes.Blocked | backend/routes/admin.js:150-151 | the account is blocked exactly when `block` is true; nothing else changes but the save time |
| AdminRoutes.BlockUnblock | backend/routes/admin.js:150 | blocking then unblocking an unblocked account gives it back, apart from the save time |
| AdminRoutes.BlockUser | backend/routes/admin.js:137-168 | a refusal changes nothing; otherwise the flag is set, and one `user_blocked` notification without SMS is added only when blocking |
| AdminRoutes.NotifyBlocked | backend/routes/admin.js:155-161 | exactly one `user_blocked` notification, without SMS, naming the reason, and nothing else changes |
| AdminRoutes.ListUsers | backend/routes/admin.js:16-60 | the items are the asked page of the accounts matching role, flags and search; the total counts all matches, and totalPages is its ceiling quotient by the limit |
| AdminRoutes.FlagFilterMeaning | backend/routes/admin.js:25-31 | a flag filter given as anything but "true" selects the accounts without that flag, both ways |
| AdminRoutes.ListAllDonations | backend/routes/admin.js:175-202 | the items are the asked page of the donations of the asked status; with no status the total is every donation; totalPages is the total's ceiling quotient by the limit |
| AdminRoutes.ListAllRequests | backend/routes/admin.js:209-238 | the items are the asked page of the requests of the asked status; with no status the total is every request; totalPages is the total's ceiling quotient by the limit |
| NotificationRoutes.ListNotifications | backend/routes/notifications.js:12-42 | the items are the asked page of the caller's notifications with the asked read flag, and totalPages is the total's ceiling quotient by the limit; the unread count counts all the caller's unread ones |
| NotificationRoutes.UnreadCountIsUnfiltered | backend/routes/notifications.js:15-30 | the unread count does not depend on the filter and equals the total under `isRead=false` |
| NotificationRoutes.MarkedRead | backend/routes/notifications.js:59 | the notification becomes read and every other notification and field is kept |
| NotificationRoutes.MarkReadIdempotent | backend/routes/notifications.js:49-60 | marking read twice is marking read once |
| NotificationRoutes.MarkRead | backend/routes/notifications.js:49-66 | 404 unless the caller owns the id; otherwise only that notification becomes read |
| NotificationRoutes.AllRead | backend/routes/notifications.js:74-77 | every notification of the caller is read afterwards, other users' are untouched, and only the read flag changes |
| NotificationRoutes.ReadAllScope | backend/routes/notifications.js:73-77 | afterwards the caller has nothing unread and every other user's unread set is as before |
| NotificationRoutes.ReadAll | backend/routes/notifications.js:73-83 | the notification collection becomes the read-all result and nothing else changes |
| NotificationRoutes.Delete | backend/routes/notifications.js:90-104 | 404 unless the caller owns the id; otherwise exactly that notification is removed |
| NotificationRoutes.DeleteScope | backend/routes/notifications.js:91-98 | a delete leaves every other user's unread notifications unchanged, and the caller's lose only that id |
| NotificationsSlice.DecrementCount | donor/src/store/slices/notificationsSlice.ts:139 | `Math.max(0, c - 1)`: one less, never below zero |
| NotificationsSlice.Found | donor/src/store/slices/notificationsSlice.ts:136 | `find` returns the first notification with the id, or none when no entry has it |
| NotificationsSlice.NotificationsState.constructor | donor/src/store/slices/notificationsSlice.ts:33-43 | the initial state: no notifications, zero unread, not loading, no error |
| NotificationsSlice.NotificationsState.AddNotification | donor/src/store/slices/notificationsSlice.ts:103-108 | prepends the item and raises the unread count exactly when it is unread |
| NotificationsSlice.NotificationsState.ClearError | donor/src/store/slices/notificationsSlice.ts:109-111 | clears the error and keeps everything else |
| NotificationsSlice.NotificationsState.FetchPending | donor/src/store/slices/notificationsSlice.ts:116-119 | sets loading and clears the error |
| NotificationsSlice.NotificationsState.FetchFulfilled | donor/src/store/slices/notificationsSlice.ts:120-129 | replaces the list, the unread count and the pagination with the payload's and clears loading |
| NotificationsSlice.NotificationsState.FetchRejected | donor/src/store/slices/notificationsSlice.ts:130-133 | clears loading and stores the error |
| NotificationsSlice.NotificationsState.MarkAsReadFulfilled | donor/src/store/slices/notificationsSlice.ts:135-141 | a found unread entry becomes read and the count drops by one, floored at zero; otherwise nothing changes |
| NotificationsSlice.NotificationsState.MarkAllFulfilled | donor/src/store/slices/notificationsSlice.ts:143-146 | the loop marks every entry read, keeps everything else about each, and sets the count to zero |
| NotificationsSlice.NotificationsState.DeleteFulfilled | donor/src/store/slices/notificationsSlice.ts:148-154 | removes every entry with the id, keeping the others in order, and decrements the count exactly when the found entry was unread |
| NotificationsSlice.DeleteTwice | donor/src/store/slices/notificationsSlice.ts:153 | removing by id twice is removing once |
| RequestsSlice.Replaced | tamator/src/store/slices/requestsSlice.ts:171-173 | replacing by id keeps the length, puts the payload wherever the id matches and keeps every other entry |
| RequestsSlice.ReplacedTwice | tamator/src/store/slices/requestsSlice.ts:171-173 | replacing with the same payload twice is replacing once |
| RequestsSlice.FirstInProgress | tamator/src/store/slices/requestsSlice.ts:189-192 | the active request is the first accepted or picked-up one, or none when there is none |
| RequestsSlice.ActiveNotCompleted | tamator/src/store/slices/requestsSlice.ts:186-196 | after a fetch the active request is never among the completed ones |
| RequestsSlice.RequestsState.constructor | tamator/src/store/slices/requestsSlice.ts:46-52 | the initial state: empty lists, no active request, not loading, no error |
| RequestsSlice.RequestsState.SetActiveRequest | tamator/src/store/slices/requestsSlice.ts:140-142 | sets the active request and keeps everything else |
| RequestsSlice.RequestsState.ClearError | tamator/src/store/slices/requestsSlice.ts:143-145 | clears the error and keeps everything else |
| RequestsSlice.RequestsState.AcceptPending | tamator/src/store/slices/requestsSlice.ts:149-152 | sets loading and clears the error |
| RequestsSlice.RequestsState.AcceptFulfilled | tamator/src/store/slices/requestsSlice.ts:153-157 | the new request becomes active and is prepended to the volunteer's requests |
| RequestsSlice.RequestsState.Rejected | tamator/src/store/slices/requestsSlice.ts:158-161 | clears loading and stores the error |
| RequestsSlice.RequestsState.Loading | tamator/src/store/slices/requestsSlice.ts:162-164 | sets loading and keeps everything else |
| RequestsSlice.RequestsState.UpdateStatusFulfilled | tamator/src/store/slices/requestsSlice.ts:165-178 | replaces by id; a delivery is prepended to completed and clears the active request; otherwise the active one is replaced only when its id matches |
| RequestsSlice.RequestsState.FetchFulfilled | tamator/src/store/slices/requestsSlice.ts:186-196 | stores the list, the first in-progress request as active, and exactly the delivered ones, in order, as completed |
| RequestsSlice.RequestsState.SubmitRatingFulfilled | tamator/src/store/slices/requestsSlice.ts:201-206 | replaces the volunteer's requests by id and nothing else |
| DonationsSlice.Merged | donor/src/store/slices/donationsSlice.ts:205-210 | each filter key takes the supplied value when given and keeps its old one otherwise |
| DonationsSlice.MergeLaws | donor/src/store/slices/donationsSlice.ts:205-210 | merging nothing changes nothing, and merging twice is merging the later over the earlier |
| DonationsSlice.StatusSetAtFirst | donor/src/store/slices/donationsSlice.ts:220-233 | only the first donation with the id changes, and only its status; no earlier entry has that id |
| DonationsSlice.ReplacedAtFirst | donor/src/store/slices/donationsSlice.ts:291-297 | only the element at the found index is replaced; without a match the list is unchanged |
| DonationsSlice.ReplaceSame | donor/src/store/slices/donationsSlice.ts:291-297 | replacing an item at its first occurrence by itself changes nothing |
| DonationsSlice.Without | donor/src/store/slices/donationsSlice.ts:303-307 | removing by id keeps exactly the entries with another id |
| DonationsSlice.CreateThenDelete | donor/src/store/slices/donationsSlice.ts:282-307 | creating a donation with a fresh id and then deleting it restores the list |
| DonationsSlice.DonationsState.constructor | donor/src/store/slices/donationsSlice.ts:62-79 | the initial state, with the initial filters |
| DonationsSlice.DonationsState.SetFilters | donor/src/store/slices/donationsSlice.ts:205-210 | the filters become the merge of the payload over them; nothing else changes |
| DonationsSlice.DonationsState.ClearFilters | donor/src/store/slices/donationsSlice.ts:211-213 | the filters return to their initial values |
| DonationsSlice.DonationsState.SetSelectedDonation | donor/src/store/slices/donationsSlice.ts:214-216 | sets the selected donation and keeps everything else |
| DonationsSlice.DonationsState.ClearError | donor/src/store/slices/donationsSlice.ts:217-219 | clears the error and keeps everything else |
| DonationsSlice.DonationsState.UpdateDonationStatus | donor/src/store/slices/donationsSlice.ts:220-233 | sets the status of the first match in both lists and changes nothing else |
| DonationsSlice.DonationsState.Pending | donor/src/store/slices/donationsSlice.ts:238-241 | sets loading and clears the error |
| DonationsSlice.DonationsState.Rejected | donor/src/store/slices/donationsSlice.ts:251-254 | clears loading and stores the error |
| DonationsSlice.DonationsState.FetchFulfilled | donor/src/store/slices/donationsSlice.ts:242-250 | stores the page of donations and its pagination and clears loading |
| DonationsSlice.DonationsState.FetchMyFulfilled | donor/src/store/slices/donationsSlice.ts:260-268 | stores the donor's own donations and clears loading |
| DonationsSlice.DonationsState.FetchByIdFulfilled | donor/src/store/slices/donationsSlice.ts:274-276 | selects the fetched donation and keeps everything else |
| DonationsSlice.DonationsState.CreateFulfilled | donor/src/store/slices/donationsSlice.ts:282-285 | prepends the new donation to the donor's own list |
| DonationsSlice.DonationsState.UpdateFulfilled | donor/src/store/slices/donationsSlice.ts:291-301 | replaces the donation at the found index only, and the selected one exactly when the ids match |
| DonationsSlice.DonationsState.DeleteFulfilled | donor/src/store/slices/donationsSlice.ts:303-307 | the donor's list keeps exactly the entries with another id |
| DonationsSlice.DonationsState.StatsFulfilled | donor/src/store/slices/donationsSlice.ts:309-311 | stores the stats and keeps everything else |
| DonorAuthSlice.ProfileMerged | donor/src/store/slices/authSlice.ts:279-281 | fields given in the payload override the user's, the others are kept |
| DonorAuthSlice.ProfileMergeIdempotent | donor/src/store/slices/authSlice.ts:279-281 | merging the same payload twice is merging once |
| DonorAuthSlice.ProfileMergeBreaksCoherence | donor/src/store/slices/authSlice.ts:279-281 | merging over a signed-out state produces a user while `isAuthenticated` stays false |
| DonorAuthSlice.ProfileMergeWhileSignedIn | donor/src/store/slices/authSlice.ts:279-281 | merging while signed in keeps `isAuthenticated` in step with the user |
| DonorAuthSlice.AuthState.constructor | donor/src/store/slices/authSlice.ts:46-53 | the initial state: signed out, the stored token, loading, no error |
| DonorAuthSlice.AuthState.SetUser | donor/src/store/slices/authSlice.ts:204-207 | sets the user, and `isAuthenticated` exactly when it is not null |
| DonorAuthSlice.AuthState.SetFirebaseUser | donor/src/store/slices/authSlice.ts:208-210 | sets the Firebase user and keeps everything else |
| DonorAuthSlice.AuthState.SetLoading | donor/src/store/slices/authSlice.ts:211-213 | sets the loading flag and keeps everything else |
| DonorAuthSlice.AuthState.ClearError | donor/src/store/slices/authSlice.ts:214-216 | clears the error and keeps everything else |
| DonorAuthSlice.AuthState.Pending | donor/src/store/slices/authSlice.ts:221-224 | sets loading and clears the error |
| DonorAuthSlice.AuthState.RefreshPending | donor/src/store/slices/authSlice.ts:260-263 | sets loading and keeps the error |
| DonorAuthSlice.AuthState.SignedIn | donor/src/store/slices/authSlice.ts:225-231 | register, login and refresh set user, token and Firebase user, sign in and clear loading |
| DonorAuthSlice.AuthState.Rejected | donor/src/store/slices/authSlice.ts:232-235 | clears loading and stores the error |
| DonorAuthSlice.AuthState.LogoutFulfilled | donor/src/store/slices/authSlice.ts:253-259 | clears user, Firebase user and token and signs out |
| DonorAuthSlice.AuthState.RefreshRejected | donor/src/store/slices/authSlice.ts:271-277 | clears user, Firebase user and token, signs out and stops loading |
| DonorAuthSlice.AuthState.UpdateProfileFulfilled | donor/src/store/slices/authSlice.ts:279-281 | the user becomes the merge of the payload over it, which stays coherent while signed in |
| VolunteerAuthSlice.ProfileReplaced | tamator/src/store/slices/authSlice.ts:190-192 | the user becomes the payload as a whole, which is coherent only while signed in |
| VolunteerAuthSlice.ReplaceForgets | tamator/src/store/slices/authSlice.ts:190-192 | a field missing from the payload is lost, unlike the donor app's merge |
| VolunteerAuthSlice.AuthState.constructor | tamator/src/store/slices/authSlice.ts:39-44 | the initial state: signed out, not loading, no error |
| VolunteerAuthSlice.AuthState.ClearError | tamator/src/store/slices/authSlice.ts:142-144 | clears the error and keeps everything else |
| VolunteerAuthSlice.AuthState.SetUser | tamator/src/store/slices/authSlice.ts:145-148 | sets the user, and `isAuthenticated` exactly when it is not null |
| VolunteerAuthSlice.AuthState.Pending | tamator/src/store/slices/authSlice.ts:152-155 | sets loading and clears the error |
| VolunteerAuthSlice.AuthState.SignedIn | tamator/src/store/slices/authSlice.ts:156-160 | register and login set the user, sign in and clear loading |
| VolunteerAuthSlice.AuthState.Rejected | tamator/src/store/slices/authSlice.ts:161-164 | clears loading and stores the error |
| VolunteerAuthSlice.AuthState.RefreshFulfilled | tamator/src/store/slices/authSlice.ts:182-185 | sets the user and signs in, leaving loading alone |
| VolunteerAuthSlice.AuthState.SignedOut | tamator/src/store/slices/authSlice.ts:178-189 | logout and a failed refresh clear the user and sign out, leaving loading and the error alone |
| VolunteerAuthSlice.AuthState.UpdateProfileFulfilled | tamator/src/store/slices/authSlice.ts:190-192 | the user is replaced by the payload, and the state is coherent afterwards exactly when signed in |
| UiSlice.ToastOf | donor/src/store/slices/uiSlice.ts:49-52 | a toast's id is the decimal text of the time it was added, with the given content |
| UiSlice.WithoutToast | donor/src/store/slices/uiSlice.ts:53-55 | removing a toast keeps exactly the toasts with another id |
| UiSlice.SameMillisecond | donor/src/store/slices/uiSlice.ts:49-55 | two toasts added in one millisecond share an id, and removing one removes both |
| UiSlice.ModalClosed | donor/src/store/slices/uiSlice.ts:66-70 | an existing modal is closed and keeps its data; an unknown id changes nothing |
| UiSlice.OpenThenClose | donor/src/store/slices/uiSlice.ts:59-70 | opening then closing a modal leaves it closed with the data it was opened with, and closing twice is closing once |
| UiSlice.ToggleTwice | donor/src/store/slices/uiSlice.ts:43-45 | toggling the sidebar twice restores it |
| UiSlice.UiState.constructor | donor/src/store/slices/uiSlice.ts:26-33 | the initial state: the stored theme or `system`, sidebar open, no toasts, no modals, not loading, no error |
| UiSlice.UiState.SetTheme | donor/src/store/slices/uiSlice.ts:39-42 | sets the theme and keeps everything else |
| UiSlice.UiState.ToggleSidebar | donor/src/store/slices/uiSlice.ts:43-45 | flips the sidebar flag and keeps everything else |
| UiSlice.UiState.SetSidebarOpen | donor/src/store/slices/uiSlice.ts:46-48 | sets the sidebar flag and keeps everything else |
| UiSlice.UiState.AddToast | donor/src/store/slices/uiSlice.ts:49-52 | appends exactly one toast and keeps the existing ones |
| UiSlice.UiState.RemoveToast | donor/src/store/slices/uiSlice.ts:53-55 | keeps exactly the toasts with another id |
| UiSlice.UiState.ClearToasts | donor/src/store/slices/uiSlice.ts:56-58 | empties the toast list |
| UiSlice.UiState.OpenModal | donor/src/store/slices/uiSlice.ts:59-65 | the modal under the id becomes open with the given data |
| UiSlice.UiState.CloseModal | donor/src/store/slices/uiSlice.ts:66-70 | closes an existing modal and keeps its data; an unknown id changes nothing |
| UiSlice.UiState.SetGlobalLoading | donor/src/store/slices/uiSlice.ts:71-73 | sets the global loading flag and keeps everything else |
| UiSlice.UiState.SetGlobalError | donor/src/store/slices/uiSlice.ts:74-76 | sets the global error and keeps everything else |
| DonationFormPage.NonNumericQuantityPasses | donor/src/pages/DonationForm.tsx:214-215 | a quantity that does not start like a number is not rejected, because `parseFloat` gives `NaN` |
| DonationFormPage.BlankFieldsFail | donor/src/pages/DonationForm.tsx:208-222 | the food name and the pickup address fail exactly when blank |
| DonationFormPage.Report | donor/src/pages/DonationForm.tsx:208-231 | one check adds its own message under its own key when it fails, and keeps the earlier errors |
| DonationFormPage.ValidateFood | donor/src/pages/DonationForm.tsx:205-219 | the first four checks: an error under each failing food field's key, with that key's message |
| DonationFormPage.ValidatePlace | donor/src/pages/DonationForm.tsx:220-225 | the address and coordinate checks: missing coordinates give one error under `pickupLat` |
| DonationFormPage.ValidatePickup | donor/src/pages/DonationForm.tsx:220-232 | the last four checks: an error under each failing pickup key, with its message, and the earlier errors kept |
| DonationFormPage.ValidateForm | donor/src/pages/DonationForm.tsx:205-234 | an error under a key exactly when its check fails, with its message; valid exactly when no check fails |
| DonationFormPage.ToggledAllergen | donor/src/pages/DonationForm.tsx:109-116 | a listed allergen is removed, every copy; an unlisted one is appended; the others stay |
| DonationFormPage.ToggleTwice | donor/src/pages/DonationForm.tsx:109-116 | toggling an unlisted allergen twice restores the list |
| DonationFormPage.ToggleListedTwice | donor/src/pages/DonationForm.tsx:109-116 | toggling a listed allergen twice moves one copy of it to the end |
| DonationFormPage.ErrorCleared | donor/src/pages/DonationForm.tsx:97-99 | editing a field empties only that field's error |
| DonationFormPage.ClearingTwice | donor/src/pages/DonationForm.tsx:97-99 | clearing a field's error twice is clearing it once |
| DonationHistoryPage.Filtered | donor/src/pages/DonationHistory.tsx:123-137 | shows a donation exactly when it matches both the search and the tab, with as many copies as the list holds |
| DonationHistoryPage.FilteredKeepsOrder | donor/src/pages/DonationHistory.tsx:123-137 | the shown list keeps the order of the donations: the filter of two parts joined is the two filters joined |
| DonationHistoryPage.EmptySearchShowsAll | donor/src/pages/DonationHistory.tsx:124-126 | no search term on the `all` tab shows every donation |
| DonationHistoryPage.TabsPartition | donor/src/pages/DonationHistory.tsx:128-134 | each of the six statuses falls in exactly one of the active, completed and cancelled tabs |
| DonationHistoryPage.PartitionCount | donor/src/pages/DonationHistory.tsx:139-148 | three tests that split a list count up to its length |
| DonationHistoryPage.PartitionCount4 | donor/src/pages/DonationHistory.tsx:139-148 | four tests that split a list count up to its length |
| DonationHistoryPage.StatsAddUp | donor/src/pages/DonationHistory.tsx:139-148 | with known statuses, active + completed + cancelled equals the total |
| DonationHistoryPage.UnknownStatusUncounted | donor/src/pages/DonationHistory.tsx:139-148 | the three cards add up to the total less the donations with an unknown status, and fall short of it whenever there is one |
| DonationHistoryPage.StatusLabel | donor/src/pages/DonationHistory.tsx:66-111 | an unknown status is shown as itself; a known one gets its own label |
| DonationHistoryPage.LabelsDistinct | donor/src/pages/DonationHistory.tsx:66-111 | distinct known statuses get distinct labels |
| RegisterFormPage.RunLength | donor/src/components/auth/Register.tsx:69 | measures the maximal run of non-space characters from a position |
| RegisterFormPage.MatchAtIff | donor/src/components/auth/Register.tsx:69 | the pattern matches with its `@` at a position exactly when a witness split exists there |
| RegisterFormPage.EmailScanIff | donor/src/components/auth/Register.tsx:69 | scanning from a position finds a match exactly when one exists at or after it |
| RegisterFormPage.EmailCheckDecides | donor/src/components/auth/Register.tsx:69 | the scan decides `/\S+@\S+\.\S+/`, both ways |
| RegisterFormPage.Step1Error | donor/src/components/auth/Register.tsx:60-82 | the message of the first failing check, in order name, e-mail, pattern, phone, phone length; none exactly when all pass |
| RegisterFormPage.PhoneLengthUntrimmed | donor/src/components/auth/Register.tsx:73-77 | the length check counts the phone as typed, spaces included |
| RegisterFormPage.Step2Error | donor/src/components/auth/Register.tsx:84-94 | the password length is checked before the confirmation; none exactly when both pass |
| RegisterFormPage.Next | donor/src/components/auth/Register.tsx:96-100 | moves to step 2 only from step 1 with valid data, and otherwise shows the step-1 error or stays |
| RegisterFormPage.Submit | donor/src/components/auth/Register.tsx:102-121 | dispatches registration exactly when step 2 passes, with the form's seven fields (e-mail, password, name, phone, role, organisation name and type), and otherwise shows the step-2 error |
| RegisterFormPage.SubmitIgnoresStep1 | donor/src/components/auth/Register.tsx:102-104 | submit does not recheck step 1: a blank name still registers |

## Left out

- Notification templates `new_donation_nearby` and `donation_expiring_soon` (backend/utils/notifications.js:95-103): no route of the modelled backend sends them, so they are not modelled.
- The read-only request routes `GET /my`, `GET /donation/:donationId` and `GET /:id` of backend/routes/requests.js: they load and populate documents and guard nothing beyond what the middleware models.
- `GET /me` and `DELETE /account` of backend/routes/auth.js: a read, and a delete with no rule beyond the middleware.
- `GET /users/:id`, `GET /stats` and `GET /logs` of backend/routes/admin.js: MongoDB aggregations (`$group`, `$dateToString`) and plain reads.
- The latitude/longitude bounding box of the donation list: floating-point geography.
- Regular-expression search: the search terms of the lists are modelled as case-insensitive literal substrings, with no regular-expression syntax.
- `parseInt` on `page` and `limit`: modelled as an optional integer that defaults when absent. `NaN` and partial parses are not modelled.
- Sort order, `select("-firebaseUid")` and `populate`: the model returns documents in collection order, without joins.
- Concurrency: the read-then-write race in accept is not modelled. Each handler runs alone, and nothing is claimed about concurrent accepts.
- Firebase: ID-token verification and the Firebase Auth and Storage calls are inputs (`Verification`), with no cryptography.
- Twilio: `sendSMS` is an input (`SmsGateway`), with no delivery or retry.
- Reals: quantities are reals of at least 1.0. Latitude and longitude are reals, with no rounding. Rating arithmetic is on `real`, with no floating-point rounding.
- Text.ToLower: folds only the ASCII letters A to Z. JavaScript's `toLowerCase` also folds other Unicode letters, so a search with such letters in another case may match in the app and not in the model.
- RegisterFormPage.Step1Error: the phone length counts Unicode code points. JavaScript's `.length` counts UTF-16 code units, so a character outside the Basic Multilingual Plane counts once here and twice in the app.
- RegisterFormPage.Step2Error: the password length counts code points in the same way, not UTF-16 code units.
- Request bodies: fields are typed options. A `null` body value and a value of the wrong JSON type are not modelled; Mongoose would cast or reject them.
- The `payload.requests || payload` fallback of tamator/src/store/slices/requestsSlice.ts: the payload is the list.
- tamator/src/store/slices/uiSlice.ts: its timer-based toast removal runs outside the reducer, and its other reducers repeat the donor app's.
- tamator/src/store/slices/donationsSlice.ts: a filter merge that repeats the donor app's.
- The thunks and `localStorage` writes of every slice: these are foreign calls. The stored theme is a constructor parameter.
- DonationFormPage.ParseFloat: covers optional leading whitespace, sign, digits and a fraction. Exponents and `Infinity` are not parsed.
- The formData update of `handleChange`: only its error clearing is modelled.
- The vegetarian and vegan checkboxes of the donation form and the icon and colour parts of `getStatusConfig`: rendering only.
- The error-handling middleware that turns errors into HTTP responses (errorHandler.js) is not part of this model. Validation and cast failures are the `ValidationFailed` error, and a thrown `TypeError` is `Internal`.
- The schema indexes: they speed up queries and change no result, except for the unique indexes, which `Consistent()` models.
- The `pre('save')` hook: modelled as the `updatedAt := now` that each save assigns. The model keeps `findByIdAndUpdate` and `$inc` without it, as the source does.
