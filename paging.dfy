/**
 * The pagination arithmetic every list route shares:
 * `skip = (page - 1) * limit` and `totalPages = Math.ceil(total / limit)`.
 */
module Paging {
  import opened Common

  /** The number of matching documents a page skips. */
  function Skip(page: int, limit: int): int {
    (page - 1) * limit
  }

  /** `Math.ceil(total / limit)`. A zero limit divides by zero; the NaN or
      Infinity that gives is sent as JSON `null`, here `None`. */
  function TotalPages(total: nat, limit: int): (r: Option<int>)
    ensures r.None? <==> limit == 0
    ensures limit > 0 ==> r.value * limit >= total && (r.value - 1) * limit < total
    ensures limit < 0 ==> r.value * limit <= total && (r.value - 1) * limit > total
  {
    if limit == 0 then None
    else if limit > 0 then
      var q := (total + limit - 1) / limit;
      var m := (total + limit - 1) % limit;
      assert q * limit == total + limit - 1 - m;
      Some(q)
    else
      var q := total / -limit;
      var m := total % -limit;
      assert q * -limit == total - m;
      Some(-q)
  }

  /** The documents shown on a page: positions `[Skip, Skip + limit)` of the sorted matches. */
  predicate OnPage(i: int, page: int, limit: int) {
    Skip(page, limit) <= i < Skip(page, limit) + limit
  }

  /** With a positive limit, the pages `1..totalPages` show every matching
      document exactly once: position `i` is on page `i / limit + 1` and on no other. */
  lemma PagesCoverOnce(total: nat, limit: int, i: nat)
    requires limit > 0 && i < total
    ensures 1 <= i / limit + 1 <= TotalPages(total, limit).value
    ensures OnPage(i, i / limit + 1, limit)
    ensures forall page :: OnPage(i, page, limit) ==> page == i / limit + 1
  {
    var q := i / limit;
    DivMod(i, limit);
    LastPageReached(total, limit, i, q);
    assert Skip(q + 1, limit) == q * limit;
    forall page | OnPage(i, page, limit) ensures page == q + 1 {
      UniquePage(i, limit, q, page);
    }
  }

  lemma LastPageReached(total: nat, limit: int, i: nat, q: int)
    requires limit > 0 && i < total && q * limit <= i
    ensures q + 1 <= TotalPages(total, limit).value
  {
    var n := TotalPages(total, limit).value;
    assert q * limit < n * limit;
    MulStrict(q, n, limit);
  }

  lemma DivMod(i: nat, limit: int)
    requires limit > 0
    ensures (i / limit) * limit <= i < (i / limit) * limit + limit
  {
    assert i == (i / limit) * limit + i % limit;
  }

  lemma UniquePage(i: nat, limit: int, q: int, page: int)
    requires limit > 0
    requires q * limit <= i < q * limit + limit
    requires OnPage(i, page, limit)
    ensures page == q + 1
  {
    assert (page - 1) * limit <= i < (page - 1) * limit + limit;
    assert (page - 1) * limit < (q + 1) * limit;
    MulStrict(page - 1, q + 1, limit);
    assert q * limit < page * limit;
    MulStrict(q, page, limit);
  }

  /** Dividing out a positive factor preserves a strict order. */
  lemma MulStrict(a: int, b: int, c: int)
    requires c > 0 && a * c < b * c
    ensures a < b
  {
    assert (b - a) * c == b * c - a * c;
    assert (b - a) * c > 0;
  }

  lemma MulMonotone(a: int, b: int, c: nat)
    requires a <= b
    ensures a * c <= b * c
  {
    assert b * c - a * c == (b - a) * c;
  }

  /** The number of documents on a page: `limit` of them, except that the
      last page holds the rest and a page past the end holds none. */
  function PageCount(total: nat, page: int, limit: int): (count: nat)
    requires limit > 0 && page >= 1
    ensures Skip(page, limit) >= 0
    ensures count <= limit
    ensures count == 0 <==> Skip(page, limit) >= total
    ensures count < limit ==> count == 0 || Skip(page, limit) + count == total
    ensures Skip(page, limit) + count <= total || count == 0
  {
    var lo := Skip(page, limit);
    MulMonotone(0, page - 1, limit);
    if lo + limit <= total then limit
    else if lo < total then total - lo
    else 0
  }

  /** `.skip(Skip(page, limit)).limit(limit)` on the sorted matches. MongoDB
      refuses a negative skip; a limit of 0 means no limit, and a negative
      limit takes its absolute value. */
  function PageOf<T>(matches: seq<T>, page: int, limit: int): (r: Option<seq<T>>)
    ensures r.None? <==> Skip(page, limit) < 0
    ensures r.Some? ==> |r.value| <= |matches| && (r.value == [] || Skip(page, limit) + |r.value| <= |matches|)
    ensures r.Some? ==> forall k :: 0 <= k < |r.value| ==> r.value[k] == matches[Skip(page, limit) + k]
    ensures limit > 0 && page >= 1 ==> r.Some? && |r.value| == PageCount(|matches|, page, limit)
    ensures r.Some? && limit == 0 ==>
      r.value == (if Skip(page, limit) < |matches| then matches[Skip(page, limit)..] else [])
    ensures r.Some? && limit < 0 ==>
      |r.value| == (var left := if Skip(page, limit) < |matches| then |matches| - Skip(page, limit) else 0;
                    if -limit < left then -limit else left)
    ensures r.Some? ==> forall x :: x in r.value ==> x in matches
  {
    var skip := Skip(page, limit);
    if skip < 0 then None
    else
      var rest := if skip < |matches| then matches[skip..] else [];
      var n := if limit == 0 then |rest| else if limit < 0 then -limit else limit;
      Some(if n < |rest| then rest[..n] else rest)
  }

  /** The fields every paginated response carries. */
  datatype Listing<T> = Listing(count: nat, total: nat, totalPages: Option<int>, currentPage: int, items: seq<T>)

  /** A list route's response, or `None` when MongoDB refuses the skip. */
  function ListingOf<T>(matches: seq<T>, page: int, limit: int): (r: Option<Listing<T>>)
    ensures r.Some? <==> Skip(page, limit) >= 0
    ensures r.Some? ==> r.value.total == |matches| && r.value.count == |r.value.items|
    ensures r.Some? ==> r.value.totalPages == TotalPages(|matches|, limit) && r.value.currentPage == page
    ensures r.Some? ==> Some(r.value.items) == PageOf(matches, page, limit)
    ensures r.Some? ==> forall x :: x in r.value.items ==> x in matches
  {
    match PageOf(matches, page, limit)
    case None => None
    case Some(items) => Some(Listing(|items|, |matches|, TotalPages(|matches|, limit), page, items))
  }

  /** The `page` and `limit` query parameters after `parseInt`, with the
      defaults 1 and 20 the admin and notification lists use when they are absent. */
  datatype PageQuery = PageQuery(page: Option<int>, limit: Option<int>)

  function PageNumber(q: PageQuery): int { q.page.GetOr(1) }

  function PageLimit(q: PageQuery): int { q.limit.GetOr(20) }
}
