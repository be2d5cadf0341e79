/**
 * The donor app's notifications store: the list the header and the
 * notifications page show, with the unread badge count kept beside it.
 */
module NotificationsSlice {
  import opened Common

  /** A notification as the API returns it; ids and instants are strings. */
  datatype Item = Item(id: string, userId: string, kind: string, title: string, message: string,
                       isRead: bool, smsSent: bool, createdAt: string)

  datatype Pagination = Pagination(currentPage: int, totalPages: int, total: int)

  /** The body of a successful `GET /api/notifications`. */
  datatype FetchPayload = FetchPayload(notifications: seq<Item>, unreadCount: nat,
                                       currentPage: int, totalPages: int, total: int)

  /** `Math.max(0, c - 1)`. */
  function DecrementCount(c: int): (r: int)
    ensures r >= 0
    ensures c >= 1 ==> r == c - 1
    ensures c <= 1 ==> r == 0
  {
    if c - 1 > 0 then c - 1 else 0
  }

  predicate HasId(n: Item, id: string) {
    n.id == id
  }

  /** The first entry `find` returns for an id, or `None`. */
  function Found(ns: seq<Item>, id: string): (r: Option<nat>)
    ensures r.Some? ==> r.value < |ns| && ns[r.value].id == id && forall k :: 0 <= k < r.value ==> ns[k].id != id
    ensures r.None? ==> forall k :: 0 <= k < |ns| ==> ns[k].id != id
  {
    FirstIndex(ns, (n: Item) => HasId(n, id))
  }

  class NotificationsState {
    var notifications: seq<Item>
    var unreadCount: int
    var isLoading: bool
    var error: Option<string>
    var pagination: Pagination

    /** The badge count is never negative. */
    ghost predicate Valid()
      reads this
    {
      unreadCount >= 0
    }

    /** `initialState`. */
    constructor ()
      ensures Valid()
      ensures notifications == [] && unreadCount == 0 && !isLoading && error.None?
      ensures pagination == Pagination(1, 1, 0)
    {
      notifications := [];
      unreadCount := 0;
      isLoading := false;
      error := None;
      pagination := Pagination(1, 1, 0);
    }

    /** `addNotification`: the item goes first, and an unread one raises the count. */
    method AddNotification(n: Item)
      requires Valid()
      modifies this
      ensures Valid()
      ensures notifications == [n] + old(notifications)
      ensures unreadCount == old(unreadCount) + (if n.isRead then 0 else 1)
      ensures isLoading == old(isLoading) && error == old(error) && pagination == old(pagination)
    {
      notifications := [n] + notifications;
      if !n.isRead {
        unreadCount := unreadCount + 1;
      }
    }

    method ClearError()
      modifies this`error
      ensures error.None?
    {
      error := None;
    }

    /** `fetchNotifications.pending`. */
    method FetchPending()
      modifies this`isLoading, this`error
      ensures isLoading && error.None?
    {
      isLoading := true;
      error := None;
    }

    /** `fetchNotifications.fulfilled`: list, count and pagination are the server's. */
    method FetchFulfilled(p: FetchPayload)
      requires Valid()
      modifies this
      ensures Valid()
      ensures !isLoading && error == old(error)
      ensures notifications == p.notifications && unreadCount == p.unreadCount
      ensures pagination == Pagination(p.currentPage, p.totalPages, p.total)
    {
      isLoading := false;
      notifications := p.notifications;
      unreadCount := p.unreadCount;
      pagination := Pagination(p.currentPage, p.totalPages, p.total);
    }

    /** `fetchNotifications.rejected`. */
    method FetchRejected(message: string)
      modifies this`isLoading, this`error
      ensures !isLoading && error == Some(message)
    {
      isLoading := false;
      error := Some(message);
    }

    /** `markNotificationAsRead.fulfilled`: only the first entry with the id
        is looked at, and only when it is unread does anything change. */
    method MarkAsReadFulfilled(id: string)
      requires Valid()
      modifies this
      ensures Valid()
      ensures isLoading == old(isLoading) && error == old(error) && pagination == old(pagination)
      ensures
        var i := Found(old(notifications), id);
        if i.Some? && !old(notifications)[i.value].isRead then
          && notifications == old(notifications)[i.value := old(notifications)[i.value].(isRead := true)]
          && unreadCount == DecrementCount(old(unreadCount))
        else notifications == old(notifications) && unreadCount == old(unreadCount)
    {
      var i := Found(notifications, id);
      if i.Some? && !notifications[i.value].isRead {
        notifications := notifications[i.value := notifications[i.value].(isRead := true)];
        unreadCount := DecrementCount(unreadCount);
      }
    }

    /** `markAllNotificationsAsRead.fulfilled`: the `forEach` that sets
        every `isRead`, then the count to zero. */
    method MarkAllFulfilled()
      requires Valid()
      modifies this
      ensures Valid()
      ensures |notifications| == |old(notifications)|
      ensures forall k :: 0 <= k < |notifications| ==> notifications[k] == old(notifications)[k].(isRead := true)
      ensures unreadCount == 0
      ensures isLoading == old(isLoading) && error == old(error) && pagination == old(pagination)
    {
      var ns := notifications;
      var i := 0;
      while i < |ns|
        invariant 0 <= i <= |ns| == |notifications|
        invariant forall k :: 0 <= k < i ==> ns[k] == notifications[k].(isRead := true)
        invariant forall k :: i <= k < |ns| ==> ns[k] == notifications[k]
      {
        ns := ns[i := ns[i].(isRead := true)];
        i := i + 1;
      }
      notifications := ns;
      unreadCount := 0;
    }

    /** `deleteNotification.fulfilled`: the count falls when the first entry
        with the id was unread; every entry with the id goes. */
    method DeleteFulfilled(id: string)
      requires Valid()
      modifies this
      ensures Valid()
      ensures isLoading == old(isLoading) && error == old(error) && pagination == old(pagination)
      ensures notifications == Filter(old(notifications), (n: Item) => !HasId(n, id))
      ensures
        var i := Found(old(notifications), id);
        unreadCount == if i.Some? && !old(notifications)[i.value].isRead then DecrementCount(old(unreadCount))
                       else old(unreadCount)
    {
      var i := Found(notifications, id);
      if i.Some? && !notifications[i.value].isRead {
        unreadCount := DecrementCount(unreadCount);
      }
      notifications := Filter(notifications, (n: Item) => !HasId(n, id));
    }
  }

  /** Deleting the same id a second time removes nothing more. */
  lemma DeleteTwice(ns: seq<Item>, id: string)
    ensures Filter(Filter(ns, (n: Item) => !HasId(n, id)), (n: Item) => !HasId(n, id)) ==
            Filter(ns, (n: Item) => !HasId(n, id))
  {
    FilterIdempotent(ns, (n: Item) => !HasId(n, id));
  }
}
