/** Pagination of the daily-plan list: the page count from the server's total and the
    clamped Previous/Next buttons. */
module PlanList {
  import opened Wrappers

  /** Plans per page. */
  const Limit: nat := 10

  /** `Math.ceil(n / d)` on non-negative integers: the fewest pages of `d` that hold `n`. */
  function CeilDiv(n: nat, d: nat): (q: nat)
    requires d > 0
    ensures n > 0 ==> (q - 1) * d < n <= q * d
    ensures n == 0 <==> q == 0
  {
    var q := (n + d - 1) / d;
    assert n + d - 1 == q * d + (n + d - 1) % d;
    q
  }

  /** `Math.max(p - 1, 1)`. */
  function PreviousPage(p: int): (r: int)
    ensures r >= 1 && r >= p - 1
    ensures r == p - 1 || r == 1
  {
    if p - 1 > 1 then p - 1 else 1
  }

  /** `Math.min(p + 1, t)`. */
  function NextPage(p: int, t: int): (r: int)
    ensures r <= t && r <= p + 1
    ensures r == p + 1 || r == t
  {
    if p + 1 < t then p + 1 else t
  }

  /** Every page up to the count holds at least one plan, and the last page is not
      over-full. */
  lemma PagesCoverCount(n: nat, p: int)
    requires n > 0 && 1 <= p <= CeilDiv(n, Limit)
    ensures (p - 1) * Limit < n
    ensures n <= CeilDiv(n, Limit) * Limit
  {
    var q := CeilDiv(n, Limit);
    assert (p - 1) * Limit <= (q - 1) * Limit;
  }

  /** Previous on the first page and Next on the last page change nothing, so their
      `disabled` guards only hide no-ops. */
  lemma ClampsAtEnds(t: int)
    requires t >= 1
    ensures PreviousPage(1) == 1
    ensures NextPage(t, t) == t
  {
  }

  /** Inside the range Next and Previous undo each other. */
  lemma NextThenPrevious(p: int, t: int)
    requires 1 <= p < t
    ensures PreviousPage(NextPage(p, t)) == p
    ensures p > 1 ==> NextPage(PreviousPage(p), t) == p
  {
  }

  /** The page state: `page`, `limit` and `totalPages`. */
  class Pager {
    var page: int
    var totalPages: int

    /** Both counters start at 1 and stay at least 1. */
    ghost predicate Valid()
      reads this
    {
      page >= 1 && totalPages >= 1
    }

    constructor ()
      ensures Valid() && page == 1 && totalPages == 1
    {
      page := 1;
      totalPages := 1;
    }

    /** `if (data.totalCount) setTotalPages(Math.ceil(data.totalCount / limit))`: a
        missing or zero count keeps the previous page count. */
    method ApplyTotalCount(totalCount: Option<nat>)
      requires Valid()
      modifies this
      ensures Valid() && page == old(page)
      ensures totalCount.Some? && totalCount.value != 0 ==> totalPages == CeilDiv(totalCount.value, Limit)
      ensures totalCount.None? || totalCount.value == 0 ==> totalPages == old(totalPages)
    {
      if totalCount.Some? && totalCount.value != 0 {
        totalPages := CeilDiv(totalCount.value, Limit);
      }
    }

    /** The Previous button: never below 1, never forward. */
    method Previous()
      requires Valid()
      modifies this
      ensures Valid() && totalPages == old(totalPages)
      ensures page == PreviousPage(old(page)) && page <= old(page)
    {
      page := if page - 1 > 1 then page - 1 else 1;
    }

    /** The Next button: never past the last page. When a smaller count has arrived
        since, it moves back to the last page. */
    method Next()
      requires Valid()
      modifies this
      ensures Valid() && totalPages == old(totalPages)
      ensures page == NextPage(old(page), totalPages) && page <= totalPages
    {
      page := if page + 1 < totalPages then page + 1 else totalPages;
    }

    /** `disabled={page === 1}`: the button is disabled exactly when pressing it would
        change nothing. */
    function PreviousDisabled(): (d: bool)
      reads this
      ensures d <==> PreviousPage(page) == page
    {
      page == 1
    }

    /** `disabled={page === totalPages}`: the button is disabled exactly when pressing it
        would change nothing. */
    function NextDisabled(): (d: bool)
      reads this
      ensures d <==> NextPage(page, totalPages) == page
    {
      page == totalPages
    }
  }
}
