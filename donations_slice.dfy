/**
 * The donor app's donations store: the public list, the donor's own
 * donations, the one on screen, the stats and the list filters.
 */
module DonationsSlice {
  import opened Common

  /** A donation as the API returns it, with the fields the reducers touch;
      the rest of the record rides along in `details`. */
  datatype DonationItem = DonationItem(id: string, foodName: string, status: string, details: string)

  datatype Stats = Stats(totalDonations: int, availableDonations: int, completedDonations: int, totalQuantity: real)

  datatype PageInfo = PageInfo(currentPage: int, totalPages: int, total: int)

  /** The payload of both list fetches. */
  datatype ListPayload = ListPayload(donations: seq<DonationItem>, currentPage: int, totalPages: int, total: int)

  datatype Filters = Filters(status: string, foodType: string, search: string)

  /** A `Partial` of the filters: the keys the caller supplies. */
  datatype FilterPatch = FilterPatch(status: Option<string>, foodType: Option<string>, search: Option<string>)

  function InitialFilters(): Filters {
    Filters("all", "all", "")
  }

  /** `{ ...filters, ...patch }`: each supplied key overrides, the others stay. */
  function Merged(f: Filters, p: FilterPatch): (r: Filters)
    ensures p.status.Some? ==> r.status == p.status.value
    ensures p.status.None? ==> r.status == f.status
    ensures p.foodType.Some? ==> r.foodType == p.foodType.value
    ensures p.foodType.None? ==> r.foodType == f.foodType
    ensures p.search.Some? ==> r.search == p.search.value
    ensures p.search.None? ==> r.search == f.search
  {
    Filters(p.status.GetOr(f.status), p.foodType.GetOr(f.foodType), p.search.GetOr(f.search))
  }

  /** An empty patch changes nothing, the same patch twice is the patch
      once, and a full patch forgets the old filters. */
  lemma MergeLaws(f: Filters, p: FilterPatch)
    ensures Merged(f, FilterPatch(None, None, None)) == f
    ensures Merged(Merged(f, p), p) == Merged(f, p)
    ensures p.status.Some? && p.foodType.Some? && p.search.Some? ==>
      Merged(f, p) == Filters(p.status.value, p.foodType.value, p.search.value)
  {
  }

  predicate HasId(d: DonationItem, id: string) {
    d.id == id
  }

  /** `find((d) => d._id === id)` then `donation.status = status`: the first
      entry with the id gets the status, and nothing else changes. */
  function StatusSetAtFirst(s: seq<DonationItem>, id: string, status: string): (r: seq<DonationItem>)
    ensures |r| == |s|
    ensures forall j :: 0 <= j < |s| ==> r[j].(status := s[j].status) == s[j]
    ensures forall j :: 0 <= j < |s| && s[j].id != id ==> r[j] == s[j]
    ensures (exists j :: 0 <= j < |s| && s[j].id == id) ==>
      exists j :: 0 <= j < |s| && s[j].id == id && r[j].status == status &&
        (forall i :: 0 <= i < j ==> s[i].id != id) &&
        (forall i :: 0 <= i < |s| && i != j ==> r[i] == s[i])
    ensures (forall j :: 0 <= j < |s| ==> s[j].id != id) ==> r == s
  {
    match FirstIndex(s, (d: DonationItem) => HasId(d, id))
    case None => s
    case Some(k) => s[k := s[k].(status := status)]
  }

  /** `findIndex` then `myDonations[index] = payload`: the record replaces
      the first entry with its id only. */
  function ReplacedAtFirst(s: seq<DonationItem>, updated: DonationItem): (r: seq<DonationItem>)
    ensures |r| == |s|
    ensures forall j :: 0 <= j < |s| && s[j].id != updated.id ==> r[j] == s[j]
    ensures (exists j :: 0 <= j < |s| && s[j].id == updated.id) ==>
      exists j :: 0 <= j < |s| && r[j] == updated &&
        (forall i :: 0 <= i < j ==> s[i].id != updated.id) &&
        (forall i :: 0 <= i < |s| && i != j ==> r[i] == s[i])
    ensures (forall j :: 0 <= j < |s| ==> s[j].id != updated.id) ==> r == s
  {
    match FirstIndex(s, (d: DonationItem) => HasId(d, updated.id))
    case None => s
    case Some(k) =>
      var r := s[k := updated];
      assert forall i :: 0 <= i < k ==> s[i].id != updated.id;
      assert forall i :: 0 <= i < |s| && i != k ==> r[i] == s[i];
      assert 0 <= k < |s| && r[k] == updated;
      r
  }

  /** An update that carries the current record changes nothing. */
  lemma ReplaceSame(s: seq<DonationItem>, k: nat)
    requires k < |s| && forall i :: 0 <= i < k ==> s[i].id != s[k].id
    ensures ReplacedAtFirst(s, s[k]) == s
  {
    var r := ReplacedAtFirst(s, s[k]);
    assert exists j :: 0 <= j < |s| && s[j].id == s[k].id;
    var j :| 0 <= j < |s| && r[j] == s[k] &&
        (forall i :: 0 <= i < j ==> s[i].id != s[k].id) &&
        (forall i :: 0 <= i < |s| && i != j ==> r[i] == s[i]);
    assert j == k;
  }

  /** `filter((d) => d._id !== id)`. */
  function Without(s: seq<DonationItem>, id: string): (r: seq<DonationItem>)
    ensures |r| <= |s|
    ensures forall x :: x in r <==> x in s && x.id != id
  {
    Filter(s, (d: DonationItem) => !HasId(d, id))
  }

  /** Deleting a donation just created, whose id the list did not hold,
      gives the list back. */
  lemma {:induction false} CreateThenDelete(s: seq<DonationItem>, d: DonationItem)
    requires forall x :: x in s ==> x.id != d.id
    ensures Without([d] + s, d.id) == s
  {
    assert ([d] + s)[1..] == s;
    FilterAll(s, (x: DonationItem) => !HasId(x, d.id));
  }

  class DonationsState {
    var donations: seq<DonationItem>
    var myDonations: seq<DonationItem>
    var selectedDonation: Option<DonationItem>
    var stats: Option<Stats>
    var isLoading: bool
    var error: Option<string>
    var pagination: PageInfo
    var filters: Filters

    /** `initialState`. */
    constructor ()
      ensures donations == [] && myDonations == [] && selectedDonation.None? && stats.None?
      ensures !isLoading && error.None?
      ensures pagination == PageInfo(1, 1, 0) && filters == InitialFilters()
    {
      donations, myDonations, selectedDonation, stats := [], [], None, None;
      isLoading, error := false, None;
      pagination, filters := PageInfo(1, 1, 0), InitialFilters();
    }

    method SetFilters(patch: FilterPatch)
      modifies this`filters
      ensures filters == Merged(old(filters), patch)
    {
      filters := Merged(filters, patch);
    }

    method ClearFilters()
      modifies this`filters
      ensures filters == InitialFilters()
    {
      filters := InitialFilters();
    }

    method SetSelectedDonation(d: Option<DonationItem>)
      modifies this`selectedDonation
      ensures selectedDonation == d
    {
      selectedDonation := d;
    }

    method ClearError()
      modifies this`error
      ensures error.None?
    {
      error := None;
    }

    /** `updateDonationStatus`: the first entry with the id, in each list,
        takes the status. */
    method UpdateDonationStatus(id: string, status: string)
      modifies this`donations, this`myDonations
      ensures donations == StatusSetAtFirst(old(donations), id, status)
      ensures myDonations == StatusSetAtFirst(old(myDonations), id, status)
    {
      match FirstIndex(donations, (d: DonationItem) => HasId(d, id)) {
        case Some(k) => donations := donations[k := donations[k].(status := status)];
        case None =>
      }
      match FirstIndex(myDonations, (d: DonationItem) => HasId(d, id)) {
        case Some(k) => myDonations := myDonations[k := myDonations[k].(status := status)];
        case None =>
      }
    }

    /** The `pending` case of fetch, fetch-mine and create. */
    method Pending()
      modifies this`isLoading, this`error
      ensures isLoading && error.None?
    {
      isLoading, error := true, None;
    }

    /** The `rejected` case of fetch, fetch-mine and create. */
    method Rejected(message: string)
      modifies this`isLoading, this`error
      ensures !isLoading && error == Some(message)
    {
      isLoading, error := false, Some(message);
    }

    method FetchFulfilled(p: ListPayload)
      modifies this`isLoading, this`donations, this`pagination
      ensures !isLoading && donations == p.donations
      ensures pagination == PageInfo(p.currentPage, p.totalPages, p.total)
    {
      isLoading := false;
      donations := p.donations;
      pagination := PageInfo(p.currentPage, p.totalPages, p.total);
    }

    method FetchMyFulfilled(p: ListPayload)
      modifies this`isLoading, this`myDonations, this`pagination
      ensures !isLoading && myDonations == p.donations
      ensures pagination == PageInfo(p.currentPage, p.totalPages, p.total)
    {
      isLoading := false;
      myDonations := p.donations;
      pagination := PageInfo(p.currentPage, p.totalPages, p.total);
    }

    method FetchByIdFulfilled(d: DonationItem)
      modifies this`selectedDonation
      ensures selectedDonation == Some(d)
    {
      selectedDonation := Some(d);
    }

    /** `createDonation.fulfilled`: the new donation heads the donor's list. */
    method CreateFulfilled(d: DonationItem)
      modifies this`isLoading, this`myDonations
      ensures !isLoading && myDonations == [d] + old(myDonations)
    {
      isLoading := false;
      myDonations := [d] + myDonations;
    }

    /** `updateDonation.fulfilled`: the first entry with the id is replaced,
        and the donation on screen exactly when it has the id. */
    method UpdateFulfilled(updated: DonationItem)
      modifies this`myDonations, this`selectedDonation
      ensures myDonations == ReplacedAtFirst(old(myDonations), updated)
      ensures selectedDonation ==
        if old(selectedDonation).Some? && old(selectedDonation).value.id == updated.id
        then Some(updated) else old(selectedDonation)
    {
      var index := FirstIndex(myDonations, (d: DonationItem) => HasId(d, updated.id));
      if index.Some? {
        myDonations := myDonations[index.value := updated];
      }
      if selectedDonation.Some? && selectedDonation.value.id == updated.id {
        selectedDonation := Some(updated);
      }
    }

    /** `deleteDonation.fulfilled`. */
    method DeleteFulfilled(id: string)
      modifies this`myDonations
      ensures myDonations == Without(old(myDonations), id)
    {
      myDonations := Filter(myDonations, (d: DonationItem) => !HasId(d, id));
    }

    method StatsFulfilled(s: Stats)
      modifies this`stats
      ensures stats == Some(s)
    {
      stats := Some(s);
    }
  }
}
