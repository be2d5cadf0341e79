/**
 * The admin routes: verifying and blocking accounts, each followed by a
 * notification to the account's owner, and the three paginated admin lists.
 * Every route sits behind `verifyToken` and `requireRole("admin")`, which
 * the middleware module models; the handlers below start after them.
 */
module AdminRoutes {
  import opened Common
  import opened Text
  import opened DonationModel
  import opened RequestModel
  import opened UserModel
  import opened NotificationModel
  import opened Store
  import opened Paging
  import opened Notify

  // ---------------------------------------------------------------- verify

  /** The error `PUT /verify/:id` throws before changing anything, or `None`. */
  function VerifyRefusal(users: map<Id, User>, id: Id): (e: Option<Error>)
    ensures e.None? <==> id in users && !users[id].isVerified
    ensures e == Some(ApiError(404, "User not found")) <==> id !in users
    ensures e == Some(ApiError(400, "User is already verified")) <==> id in users && users[id].isVerified
  {
    if id !in users then Some(ApiError(404, "User not found"))
    else if users[id].isVerified then Some(ApiError(400, "User is already verified"))
    else None
  }

  /** The account after `user.isVerified = true; user.save()`. */
  function Verified(u: User, now: Time): (v: User)
    ensures v.isVerified && v.updatedAt == now
    ensures v.(isVerified := u.isVerified, updatedAt := u.updatedAt) == u
    ensures ValidUser(u) ==> ValidUser(v)
  {
    u.(isVerified := true, updatedAt := now)
  }

  /** A verified account cannot be verified again: the second request is refused. */
  lemma VerifyOnce(users: map<Id, User>, id: Id, now: Time)
    requires VerifyRefusal(users, id).None?
    ensures VerifyRefusal(users[id := Verified(users[id], now)], id) ==
      Some(ApiError(400, "User is already verified"))
  {
  }

  /** `PUT /api/admin/verify/:id`. The account is marked verified and saved,
      then one `user_verified` notification goes to it, SMS requested to the
      account's phone. */
  method VerifyUser(db: Database, id: Id, sms: SmsGateway, now: Time) returns (r: Result<string>)
    requires db.Consistent()
    modifies db
    ensures db.Consistent()
    ensures db.donations == old(db.donations) && db.requests == old(db.requests)
    ensures old(VerifyRefusal(db.users, id)).Some? ==>
      && r == Err(old(VerifyRefusal(db.users, id)).value)
      && db.users == old(db.users) && db.notifications == old(db.notifications)
      && db.nextId == old(db.nextId)
    ensures old(VerifyRefusal(db.users, id)).None? ==>
      && r == Ok("User verified successfully")
      && db.users == old(db.users)[id := Verified(old(db.users[id]), now)]
      && db.nextId == old(db.nextId) + 1
      && db.notifications == old(db.notifications)[old(db.nextId) :=
           Notification(id, UserVerified, UserVerifiedTemplate().title, UserVerifiedTemplate().message,
                        None, None, false, SmsSent(true, Some(old(db.users[id].phone)), sms), now)]
  {
    var refusal := VerifyRefusal(db.users, id);
    if refusal.Some? {
      return Err(refusal.value);
    }
    var u := Verified(db.users[id], now);
    db.SaveUser(id, u);
    NotifyVerified(db, id, u.phone, sms, now);
    r := Ok("User verified successfully");
  }

  /** The `user_verified` notification, with an SMS requested to `phone`. */
  method NotifyVerified(db: Database, id: Id, phone: string, sms: SmsGateway, now: Time)
    requires db.Consistent()
    modifies db
    ensures db.Consistent()
    ensures db.users == old(db.users) && db.donations == old(db.donations) && db.requests == old(db.requests)
    ensures db.nextId == old(db.nextId) + 1
    ensures db.notifications == old(db.notifications)[old(db.nextId) :=
      Notification(id, UserVerified, UserVerifiedTemplate().title, UserVerifiedTemplate().message,
                   None, None, false, SmsSent(true, Some(phone), sms), now)]
  {
    var t := UserVerifiedTemplate();
    AccountTemplatesNonEmpty(None);
    var _ := CreateNotification(db, id, UserVerified, t.title, t.message, None, None, true, Some(phone), sms, now);
  }

  // ---------------------------------------------------------------- block

  /** The error `PUT /block/:id` throws before changing anything, or `None`. */
  function BlockRefusal(users: map<Id, User>, id: Id): (e: Option<Error>)
    ensures e.None? <==> id in users && users[id].role != Admin
    ensures e == Some(ApiError(404, "User not found")) <==> id !in users
    ensures e == Some(ApiError(400, "Cannot block admin users")) <==> id in users && users[id].role == Admin
  {
    if id !in users then Some(ApiError(404, "User not found"))
    else if users[id].role == Admin then Some(ApiError(400, "Cannot block admin users"))
    else None
  }

  /** JavaScript truthiness of the body's `block`. */
  predicate BlockRequested(block: Option<bool>) {
    block == Some(true)
  }

  /** The account after `user.isBlocked = block; user.save()`: blocked
      exactly when `block` is true, so `false` and an absent value unblock. */
  function Blocked(u: User, block: Option<bool>, now: Time): (v: User)
    ensures v.isBlocked <==> BlockRequested(block)
    ensures v.updatedAt == now
    ensures v.(isBlocked := u.isBlocked, updatedAt := u.updatedAt) == u
    ensures ValidUser(u) ==> ValidUser(v)
  {
    u.(isBlocked := block == Some(true), updatedAt := now)
  }

  /** Blocking then unblocking leaves the account's flags as they were
      before, when it was not blocked. */
  lemma BlockUnblock(u: User, t1: Time, t2: Time)
    requires !u.isBlocked
    ensures Blocked(Blocked(u, Some(true), t1), Some(false), t2) == u.(updatedAt := t2)
  {
  }

  /** `PUT /api/admin/block/:id`. The flag is set and saved; only when the
      account was blocked does a `user_blocked` notification, without SMS,
      go to it, naming the given reason. */
  method BlockUser(db: Database, id: Id, block: Option<bool>, reason: Option<string>,
                   sms: SmsGateway, now: Time) returns (r: Result<string>)
    requires db.Consistent()
    modifies db
    ensures db.Consistent()
    ensures db.donations == old(db.donations) && db.requests == old(db.requests)
    ensures old(BlockRefusal(db.users, id)).Some? ==>
      && r == Err(old(BlockRefusal(db.users, id)).value)
      && db.users == old(db.users) && db.notifications == old(db.notifications)
      && db.nextId == old(db.nextId)
    ensures old(BlockRefusal(db.users, id)).None? ==>
      && db.users == old(db.users)[id := Blocked(old(db.users[id]), block, now)]
      && (BlockRequested(block) ==>
            && r == Ok("User blocked successfully")
            && db.nextId == old(db.nextId) + 1
            && db.notifications == old(db.notifications)[old(db.nextId) :=
                 Notification(id, UserBlocked, UserBlockedTemplate(reason).title,
                              UserBlockedTemplate(reason).message, None, None, false, false, now)])
      && (!BlockRequested(block) ==>
            && r == Ok("User unblocked successfully")
            && db.notifications == old(db.notifications) && db.nextId == old(db.nextId))
  {
    var refusal := BlockRefusal(db.users, id);
    if refusal.Some? {
      return Err(refusal.value);
    }
    var u := Blocked(db.users[id], block, now);
    db.SaveUser(id, u);
    if BlockRequested(block) {
      NotifyBlocked(db, id, reason, sms, now);
      r := Ok("User blocked successfully");
    } else {
      r := Ok("User unblocked successfully");
    }
  }

  /** The `user_blocked` notification, without SMS, naming the reason. */
  method NotifyBlocked(db: Database, id: Id, reason: Option<string>, sms: SmsGateway, now: Time)
    requires db.Consistent()
    modifies db
    ensures db.Consistent()
    ensures db.users == old(db.users) && db.donations == old(db.donations) && db.requests == old(db.requests)
    ensures db.nextId == old(db.nextId) + 1
    ensures db.notifications == old(db.notifications)[old(db.nextId) :=
      Notification(id, UserBlocked, UserBlockedTemplate(reason).title,
                   UserBlockedTemplate(reason).message, None, None, false, false, now)]
  {
    var t := UserBlockedTemplate(reason);
    AccountTemplatesNonEmpty(reason);
    var _ := CreateNotification(db, id, UserBlocked, t.title, t.message, None, None, false, None, sms, now);
  }

  // ---------------------------------------------------------------- lists

  /** The filters of `GET /users`. `isVerified` and `isBlocked` select on
      the flag as soon as they are given: the string "true" selects the set
      flag, any other value the cleared one. */
  datatype UserQuery = UserQuery(role: Option<string>, isVerified: Option<string>,
                                 isBlocked: Option<string>, search: Option<string>)

  /** A user `GET /users` shows: of the asked role unless none or `all` is
      asked, with the asked flags, and with the search term in the name, the
      email or the organisation name, ignoring case. */
  predicate UserListed(u: User, q: UserQuery) {
    && (Truthy(q.role) && q.role.value != "all" ==> RoleName(u.role) == q.role.value)
    && (q.isVerified.Some? ==> u.isVerified == (q.isVerified.value == "true"))
    && (q.isBlocked.Some? ==> u.isBlocked == (q.isBlocked.value == "true"))
    && (Truthy(q.search) ==>
          || Contains(ToLower(u.name), ToLower(q.search.value))
          || Contains(ToLower(u.email), ToLower(q.search.value))
          || Contains(ToLower(u.organizationName), ToLower(q.search.value)))
  }

  /** A flag filter given as anything but "true" shows the accounts without
      the flag, both ways. */
  lemma FlagFilterMeaning(u: User, q: UserQuery)
    requires q.role.None? && q.search.None? && q.isBlocked.None?
    requires q.isVerified.Some? && q.isVerified.value != "true"
    ensures UserListed(u, q) <==> !u.isVerified
  {
  }

  /** `GET /api/admin/users`: the matching accounts, then one page of them. */
  function ListUsers(all: seq<Doc<User>>, q: UserQuery, p: PageQuery): (r: Option<Listing<Doc<User>>>)
    ensures r.Some? <==> Skip(PageNumber(p), PageLimit(p)) >= 0
    ensures r.Some? ==> forall x :: x in r.value.items ==> x in all && UserListed(x.val, q)
    ensures r.Some? ==> r.value.total == |Filter(all, (x: Doc<User>) => UserListed(x.val, q))|
    ensures r.Some? ==> Some(r.value.items) == PageOf(Filter(all, (x: Doc<User>) => UserListed(x.val, q)), PageNumber(p), PageLimit(p))
    ensures r.Some? ==> r.value.totalPages == TotalPages(r.value.total, PageLimit(p)) && r.value.currentPage == PageNumber(p)
  {
    ListingOf(Filter(all, (x: Doc<User>) => UserListed(x.val, q)), PageNumber(p), PageLimit(p))
  }

  /** The `status` filter of the donation and request lists: none, or `all`,
      selects every document. */
  predicate StatusSelected(name: string, status: Option<string>) {
    Truthy(status) && status.value != "all" ==> name == status.value
  }

  /** `GET /api/admin/donations`. */
  function ListAllDonations(all: seq<Doc<Donation>>, status: Option<string>, p: PageQuery)
    : (r: Option<Listing<Doc<Donation>>>)
    ensures r.Some? <==> Skip(PageNumber(p), PageLimit(p)) >= 0
    ensures r.Some? ==> forall x :: x in r.value.items ==>
      x in all && StatusSelected(DonationModel.StatusName(x.val.status), status)
    ensures r.Some? ==>
      r.value.total == |Filter(all, (x: Doc<Donation>) => StatusSelected(DonationModel.StatusName(x.val.status), status))|
    ensures r.Some? && !Truthy(status) ==> r.value.total == |all|
    ensures r.Some? ==>
      Some(r.value.items) == PageOf(Filter(all, (x: Doc<Donation>) => StatusSelected(DonationModel.StatusName(x.val.status), status)), PageNumber(p), PageLimit(p))
    ensures r.Some? ==> r.value.totalPages == TotalPages(r.value.total, PageLimit(p)) && r.value.currentPage == PageNumber(p)
  {
    var matches := Filter(all, (x: Doc<Donation>) => StatusSelected(DonationModel.StatusName(x.val.status), status));
    var r := ListingOf(matches, PageNumber(p), PageLimit(p));
    if !Truthy(status) then
      FilterAll(all, (x: Doc<Donation>) => StatusSelected(DonationModel.StatusName(x.val.status), status));
      r
    else r
  }

  /** `GET /api/admin/requests`. */
  function ListAllRequests(all: seq<Doc<Request>>, status: Option<string>, p: PageQuery)
    : (r: Option<Listing<Doc<Request>>>)
    ensures r.Some? <==> Skip(PageNumber(p), PageLimit(p)) >= 0
    ensures r.Some? ==> forall x :: x in r.value.items ==>
      x in all && StatusSelected(RequestModel.StatusName(x.val.status), status)
    ensures r.Some? ==>
      r.value.total == |Filter(all, (x: Doc<Request>) => StatusSelected(RequestModel.StatusName(x.val.status), status))|
    ensures r.Some? && !Truthy(status) ==> r.value.total == |all|
    ensures r.Some? ==>
      Some(r.value.items) == PageOf(Filter(all, (x: Doc<Request>) => StatusSelected(RequestModel.StatusName(x.val.status), status)), PageNumber(p), PageLimit(p))
    ensures r.Some? ==> r.value.totalPages == TotalPages(r.value.total, PageLimit(p)) && r.value.currentPage == PageNumber(p)
  {
    var matches := Filter(all, (x: Doc<Request>) => StatusSelected(RequestModel.StatusName(x.val.status), status));
    var r := ListingOf(matches, PageNumber(p), PageLimit(p));
    if !Truthy(status) then
      FilterAll(all, (x: Doc<Request>) => StatusSelected(RequestModel.StatusName(x.val.status), status));
      r
    else r
  }
}
