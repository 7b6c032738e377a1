/** Page-count arithmetic and the numbered pagination bar of the staff dashboard lists. */
module Paging {
  import opened Wrappers

  /** `Math.ceil(total / limit)` for a non-negative total. */
  function TotalPages(total: nat, limit: nat): (n: nat)
    requires limit > 0
    ensures (n - 1) * limit < total <= n * limit || (total == 0 && n == 0)
  {
    (total + limit - 1) / limit
  }

  /** No items, no pages; one to `limit` items, one page; one more item opens a second page. */
  lemma TotalPagesSmall(total: nat, limit: nat)
    requires limit > 0
    ensures TotalPages(total, limit) == 0 <==> total == 0
    ensures TotalPages(total, limit) <= 1 <==> total <= limit
  {
    var n := TotalPages(total, limit);
    if n > 0 {
      assert (n - 1) * limit < total;
      MulCancel(n - 1, 1, limit);
      if n == 1 {
        assert total <= limit;
      }
    }
    if total == 0 && n > 0 {
      MulCancel(n - 1, 0, limit);
    }
  }

  /** From `a·c < b·c` with `c > 0`, cancelling `c` gives `a < b` (the contrapositive when `a ≥ b`). */
  lemma MulCancel(a: int, b: int, c: int)
    requires c > 0
    ensures a * c < b * c <==> a < b
  {
    if a < b {
      assert b * c - a * c == (b - a) * c;
    } else {
      assert a * c - b * c == (a - b) * c;
    }
  }

  /** `Array.from({ length: n }, (_, i) => i + 1)`: the page buttons. */
  function PageNumbers(n: nat): (r: seq<int>)
    ensures |r| == n
    ensures forall i :: 0 <= i < n ==> r[i] == i + 1
  {
    seq(n, i => i + 1)
  }

  /** The buttons cover every page from 1 to `n` exactly once, in increasing order. */
  lemma PageNumbersExact(n: nat, p: int)
    ensures p in PageNumbers(n) <==> 1 <= p <= n
    ensures forall i, j :: 0 <= i < j < n ==> PageNumbers(n)[i] < PageNumbers(n)[j]
  {
    if 1 <= p <= n {
      assert PageNumbers(n)[p - 1] == p;
    }
  }

  /** A rendered pagination bar: the page buttons and whether Previous and Next are disabled. */
  datatype Bar = Bar(pages: seq<int>, prevDisabled: bool, nextDisabled: bool)

  /** `renderPagination(currentPage, totalItems)`: no bar unless there are at least two pages. */
  function Pagination(current: int, total: nat, limit: nat): (r: Option<Bar>)
    requires limit > 0
    ensures r.None? <==> total <= limit
    ensures r.Some? ==> r.value.pages == PageNumbers(TotalPages(total, limit))
    ensures r.Some? ==> (r.value.prevDisabled <==> current == 1)
    ensures r.Some? ==> (r.value.nextDisabled <==> current == TotalPages(total, limit))
  {
    TotalPagesSmall(total, limit);
    var n := TotalPages(total, limit);
    if n <= 1 then None else Some(Bar(PageNumbers(n), current == 1, current == n))
  }
}
