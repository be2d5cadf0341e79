/**
 * The notification routes. Every query is scoped to the signed-in user:
 * a notification another user owns is, for these routes, one that does
 * not exist.
 */
module NotificationRoutes {
  import opened Common
  import opened NotificationModel
  import opened Store
  import opened Paging

  /** `findOne({_id: id, userId: caller})` finds a document. */
  predicate Owns(ns: map<Id, Notification>, caller: Id, id: Id) {
    id in ns && ns[id].userId == caller
  }

  /** The ids of a user's unread notifications. */
  function UnreadOf(ns: map<Id, Notification>, user: Id): set<Id> {
    set k | k in ns && ns[k].userId == user && !ns[k].isRead
  }

  // ---------------------------------------------------------------- list

  /** The caller's notifications the list shows: theirs, and with the asked
      read flag when `isRead` is given ("true" for read, anything else for unread). */
  predicate Shown(n: Notification, caller: Id, isRead: Option<string>) {
    n.userId == caller && (isRead.Some? ==> n.isRead == (isRead.value == "true"))
  }

  predicate UnreadFor(n: Notification, caller: Id) {
    n.userId == caller && !n.isRead
  }

  datatype NotificationList = NotificationList(listing: Listing<Doc<Notification>>, unreadCount: nat)

  /** `GET /api/notifications`: one page of the caller's matching
      notifications, and the number of all the caller's unread ones,
      whatever the filter. */
  function ListNotifications(all: seq<Doc<Notification>>, caller: Id, isRead: Option<string>, p: PageQuery)
    : (r: Option<NotificationList>)
    ensures r.Some? <==> Skip(PageNumber(p), PageLimit(p)) >= 0
    ensures r.Some? ==> forall x :: x in r.value.listing.items ==> x in all && Shown(x.val, caller, isRead)
    ensures r.Some? ==> r.value.listing.total == |Filter(all, (x: Doc<Notification>) => Shown(x.val, caller, isRead))|
    ensures r.Some? ==>
      Some(r.value.listing.items) == PageOf(Filter(all, (x: Doc<Notification>) => Shown(x.val, caller, isRead)), PageNumber(p), PageLimit(p))
    ensures r.Some? ==> r.value.listing.totalPages == TotalPages(r.value.listing.total, PageLimit(p))
    ensures r.Some? ==> r.value.listing.currentPage == PageNumber(p)
    ensures r.Some? ==> r.value.unreadCount == |Filter(all, (x: Doc<Notification>) => UnreadFor(x.val, caller))|
  {
    var listing := ListingOf(Filter(all, (x: Doc<Notification>) => Shown(x.val, caller, isRead)),
                             PageNumber(p), PageLimit(p));
    if listing.None? then None
    else Some(NotificationList(listing.value,
                               |Filter(all, (x: Doc<Notification>) => UnreadFor(x.val, caller))|))
  }

  /** The unread count does not depend on the filter, and under the filter
      `isRead=false` it is exactly the number of matches. */
  lemma UnreadCountIsUnfiltered(all: seq<Doc<Notification>>, caller: Id, isRead: Option<string>, p: PageQuery)
    requires Skip(PageNumber(p), PageLimit(p)) >= 0
    ensures ListNotifications(all, caller, isRead, p).value.unreadCount ==
            ListNotifications(all, caller, None, p).value.unreadCount
    ensures ListNotifications(all, caller, Some("false"), p).value.listing.total ==
            ListNotifications(all, caller, isRead, p).value.unreadCount
  {
    FilterEquiv(all, (x: Doc<Notification>) => Shown(x.val, caller, Some("false")),
                     (x: Doc<Notification>) => UnreadFor(x.val, caller));
  }

  // ---------------------------------------------------------------- mark read

  /** The notifications after `isRead = true` on one of them. */
  function MarkedRead(ns: map<Id, Notification>, id: Id): (ns': map<Id, Notification>)
    requires id in ns
    ensures ns'.Keys == ns.Keys && ns'[id].isRead
    ensures ns'[id].(isRead := ns[id].isRead) == ns[id]
    ensures forall k :: k in ns && k != id ==> ns'[k] == ns[k]
  {
    ns[id := ns[id].(isRead := true)]
  }

  /** Marking a notification read a second time changes nothing. */
  lemma MarkReadIdempotent(ns: map<Id, Notification>, id: Id)
    requires id in ns
    ensures MarkedRead(MarkedRead(ns, id), id) == MarkedRead(ns, id)
  {
  }

  /** `PUT /api/notifications/:id/read`. */
  method MarkRead(db: Database, caller: Id, id: Id) returns (r: Result<Id>)
    requires db.Consistent()
    modifies db
    ensures db.Consistent()
    ensures db.users == old(db.users) && db.donations == old(db.donations) && db.requests == old(db.requests)
    ensures db.nextId == old(db.nextId)
    ensures !old(Owns(db.notifications, caller, id)) ==>
      r == Err(ApiError(404, "Notification not found")) && db.notifications == old(db.notifications)
    ensures old(Owns(db.notifications, caller, id)) ==>
      r == Ok(id) && db.notifications == MarkedRead(old(db.notifications), id)
  {
    if !Owns(db.notifications, caller, id) {
      return Err(ApiError(404, "Notification not found"));
    }
    db.notifications := MarkedRead(db.notifications, id);
    r := Ok(id);
  }

  // ---------------------------------------------------------------- read all

  /** `updateMany({userId: caller, isRead: false}, {isRead: true})`. */
  function AllRead(ns: map<Id, Notification>, caller: Id): (ns': map<Id, Notification>)
    ensures ns'.Keys == ns.Keys
    ensures forall k :: k in ns ==> ns'[k].(isRead := ns[k].isRead) == ns[k]
    ensures forall k :: k in ns && ns[k].userId == caller ==> ns'[k].isRead
    ensures forall k :: k in ns && ns[k].userId != caller ==> ns'[k] == ns[k]
  {
    map k | k in ns :: if ns[k].userId == caller && !ns[k].isRead then ns[k].(isRead := true) else ns[k]
  }

  /** After read-all the caller has nothing unread, and every other user's
      unread notifications are exactly as before. */
  lemma ReadAllScope(ns: map<Id, Notification>, caller: Id)
    ensures UnreadOf(AllRead(ns, caller), caller) == {}
    ensures forall u :: u != caller ==> UnreadOf(AllRead(ns, caller), u) == UnreadOf(ns, u)
  {
    var ns' := AllRead(ns, caller);
    forall u | u != caller ensures UnreadOf(ns', u) == UnreadOf(ns, u) {
      assert forall k :: k in UnreadOf(ns', u) <==> k in UnreadOf(ns, u);
    }
  }

  /** `PUT /api/notifications/read-all`. */
  method ReadAll(db: Database, caller: Id)
    requires db.Consistent()
    modifies db
    ensures db.Consistent()
    ensures db.users == old(db.users) && db.donations == old(db.donations) && db.requests == old(db.requests)
    ensures db.nextId == old(db.nextId)
    ensures db.notifications == AllRead(old(db.notifications), caller)
  {
    db.notifications := AllRead(db.notifications, caller);
  }

  // ---------------------------------------------------------------- delete

  /** `DELETE /api/notifications/:id`: only the owner's notification can go. */
  method Delete(db: Database, caller: Id, id: Id) returns (r: Result<Id>)
    requires db.Consistent()
    modifies db
    ensures db.Consistent()
    ensures db.users == old(db.users) && db.donations == old(db.donations) && db.requests == old(db.requests)
    ensures db.nextId == old(db.nextId)
    ensures !old(Owns(db.notifications, caller, id)) ==>
      r == Err(ApiError(404, "Notification not found")) && db.notifications == old(db.notifications)
    ensures old(Owns(db.notifications, caller, id)) ==>
      r == Ok(id) && db.notifications == old(db.notifications) - {id}
  {
    if !Owns(db.notifications, caller, id) {
      return Err(ApiError(404, "Notification not found"));
    }
    db.notifications := db.notifications - {id};
    r := Ok(id);
  }

  /** A delete never touches another user's notifications. */
  lemma DeleteScope(ns: map<Id, Notification>, caller: Id, id: Id)
    requires Owns(ns, caller, id)
    ensures forall u :: u != caller ==> UnreadOf(ns - {id}, u) == UnreadOf(ns, u)
    ensures UnreadOf(ns - {id}, caller) == UnreadOf(ns, caller) - {id}
  {
  }
}
