/**
 * The donor's history page: the tab and search filter over the donor's
 * donations, the counts on the stat cards and the status badges.
 */
module DonationHistoryPage {
  import opened Common
  import opened Text

  /** A donation as the page reads it. */
  datatype HistoryItem = HistoryItem(foodName: string, description: Option<string>, status: string)

  /** The six statuses the schema allows. */
  predicate KnownStatus(status: string) {
    status in ["available", "accepted", "picked_up", "delivered", "cancelled", "expired"]
  }

  predicate IsActive(status: string) {
    status in ["available", "accepted", "picked_up"]
  }

  predicate IsCompleted(status: string) {
    status == "delivered"
  }

  predicate IsCancelled(status: string) {
    status in ["cancelled", "expired"]
  }

  /** `matchesTab`; an unknown tab matches nothing. */
  predicate MatchesTab(status: string, tab: string) {
    || tab == "all"
    || (tab == "active" && IsActive(status))
    || (tab == "completed" && IsCompleted(status))
    || (tab == "cancelled" && IsCancelled(status))
  }

  /** `matchesSearch`: the term, lower-cased, occurs in the lower-cased food
      name or description; a missing description does not match. */
  predicate MatchesSearch(d: HistoryItem, term: string) {
    || Contains(ToLower(d.foodName), ToLower(term))
    || (d.description.Some? && Contains(ToLower(d.description.value), ToLower(term)))
  }

  /** `filteredDonations`. */
  function Filtered(ds: seq<HistoryItem>, term: string, tab: string): (r: seq<HistoryItem>)
    ensures forall d :: d in r <==> d in ds && MatchesSearch(d, term) && MatchesTab(d.status, tab)
    ensures forall d :: multiset(r)[d] ==
                        if MatchesSearch(d, term) && MatchesTab(d.status, tab) then multiset(ds)[d] else 0
  {
    FilterMultiset(ds, (d: HistoryItem) => MatchesSearch(d, term) && MatchesTab(d.status, tab));
    Filter(ds, (d: HistoryItem) => MatchesSearch(d, term) && MatchesTab(d.status, tab))
  }

  /** The page keeps the list's order: filtering a list made of two parts
      shows the first part's matches before the second's. */
  lemma FilteredKeepsOrder(a: seq<HistoryItem>, b: seq<HistoryItem>, term: string, tab: string)
    ensures Filtered(a + b, term, tab) == Filtered(a, term, tab) + Filtered(b, term, tab)
  {
    FilterAppend(a, b, (d: HistoryItem) => MatchesSearch(d, term) && MatchesTab(d.status, tab));
  }

  /** With no search term and the `all` tab the page shows every donation. */
  lemma EmptySearchShowsAll(ds: seq<HistoryItem>)
    ensures Filtered(ds, "", "all") == ds
  {
    forall d | d in ds ensures MatchesSearch(d, "") {
      ContainsEmpty(ToLower(d.foodName));
    }
    FilterAll(ds, (d: HistoryItem) => MatchesSearch(d, "") && MatchesTab(d.status, "all"));
  }

  /** A donation with one of the six statuses sits under exactly one of the
      three status tabs. */
  lemma TabsPartition(status: string)
    requires KnownStatus(status)
    ensures MatchesTab(status, "active") || MatchesTab(status, "completed") || MatchesTab(status, "cancelled")
    ensures !(MatchesTab(status, "active") && MatchesTab(status, "completed"))
    ensures !(MatchesTab(status, "active") && MatchesTab(status, "cancelled"))
    ensures !(MatchesTab(status, "completed") && MatchesTab(status, "cancelled"))
  {
  }

  /** Three tests that split every element of `s` between them split its
      length. */
  lemma {:induction false} PartitionCount<T(!new)>(s: seq<T>, p: T -> bool, q: T -> bool, u: T -> bool)
    requires forall x :: x in s ==> (p(x) || q(x) || u(x))
    requires forall x :: x in s ==> !(p(x) && q(x)) && !(p(x) && u(x)) && !(q(x) && u(x))
    ensures |Filter(s, p)| + |Filter(s, q)| + |Filter(s, u)| == |s|
  {
    if s != [] {
      assert forall x :: x in s[1..] ==> x in s;
      PartitionCount(s[1..], p, q, u);
    }
  }

  datatype HistoryStats = HistoryStats(total: nat, active: nat, completed: nat, cancelled: nat)

  /** `stats`: the counts on the four cards, over all the donor's donations. */
  function Stats(ds: seq<HistoryItem>): HistoryStats {
    HistoryStats(|ds|,
                 |Filter(ds, (d: HistoryItem) => IsActive(d.status))|,
                 |Filter(ds, (d: HistoryItem) => IsCompleted(d.status))|,
                 |Filter(ds, (d: HistoryItem) => IsCancelled(d.status))|)
  }

  /** With every status one of the six, the active, completed and cancelled
      cards add up to the total. */
  lemma StatsAddUp(ds: seq<HistoryItem>)
    requires forall d :: d in ds ==> KnownStatus(d.status)
    ensures Stats(ds).active + Stats(ds).completed + Stats(ds).cancelled == Stats(ds).total
  {
    PartitionCount(ds, (d: HistoryItem) => IsActive(d.status), (d: HistoryItem) => IsCompleted(d.status),
                   (d: HistoryItem) => IsCancelled(d.status));
  }

  /** Four tests that split every element of `s` between them split its
      length. */
  lemma {:induction false} PartitionCount4<T(!new)>(s: seq<T>, p: T -> bool, q: T -> bool, u: T -> bool, w: T -> bool)
    requires forall x :: x in s ==> (p(x) || q(x) || u(x) || w(x))
    requires forall x :: x in s ==>
      !(p(x) && q(x)) && !(p(x) && u(x)) && !(p(x) && w(x)) &&
      !(q(x) && u(x)) && !(q(x) && w(x)) && !(u(x) && w(x))
    ensures |Filter(s, p)| + |Filter(s, q)| + |Filter(s, u)| + |Filter(s, w)| == |s|
  {
    if s != [] {
      assert forall x :: x in s[1..] ==> x in s;
      PartitionCount4(s[1..], p, q, u, w);
    }
  }

  /** A donation whose status is not one of the six is counted in the total
      but on none of the three cards, so the cards add up to the total less
      the number of such donations, and fall short of it as soon as there is
      one. */
  lemma UnknownStatusUncounted(ds: seq<HistoryItem>)
    ensures Stats(ds).active + Stats(ds).completed + Stats(ds).cancelled
      + |Filter(ds, (d: HistoryItem) => !KnownStatus(d.status))| == Stats(ds).total
    ensures (exists d :: d in ds && !KnownStatus(d.status)) ==>
      Stats(ds).active + Stats(ds).completed + Stats(ds).cancelled < Stats(ds).total
  {
    PartitionCount4(ds, (d: HistoryItem) => IsActive(d.status), (d: HistoryItem) => IsCompleted(d.status),
                    (d: HistoryItem) => IsCancelled(d.status), (d: HistoryItem) => !KnownStatus(d.status));
    if exists d :: d in ds && !KnownStatus(d.status) {
      var d :| d in ds && !KnownStatus(d.status);
      assert d in Filter(ds, (d: HistoryItem) => !KnownStatus(d.status));
    }
  }

  /** The badge text of `getStatusConfig`; a status it does not know is
      shown as it is. */
  function StatusLabel(status: string): (badge: string)
    ensures !KnownStatus(status) ==> badge == status
    ensures KnownStatus(status) ==> badge != status
  {
    match status
    case "available" => "Available"
    case "accepted" => "Accepted"
    case "picked_up" => "Picked Up"
    case "delivered" => "Delivered"
    case "cancelled" => "Cancelled"
    case "expired" => "Expired"
    case _ => status
  }

  /** Distinct known statuses get distinct labels. */
  lemma LabelsDistinct(a: string, b: string)
    requires KnownStatus(a) && KnownStatus(b) && a != b
    ensures StatusLabel(a) != StatusLabel(b)
  {
  }
}
