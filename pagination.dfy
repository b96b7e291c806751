/**
 * The pagination bar under the product grid: how many pages there are,
 * which five (at most) page numbers it shows around the current page, when
 * "Previous" and "Next" are disabled, and the query it navigates to.
 */
module Pagination {
  import opened Wrappers
  import opened Strings

  const WindowSize := 5
  const PageParam := "page"

  function Min(a: int, b: int): int {
    if a <= b then a else b
  }

  /** `Math.ceil(totalProducts / productsPerPage)`. */
  function TotalPages(totalProducts: nat, productsPerPage: nat): (r: nat)
    requires productsPerPage > 0
    ensures totalProducts <= r * productsPerPage < totalProducts + productsPerPage
  {
    var q := (totalProducts + productsPerPage - 1) / productsPerPage;
    assert q * productsPerPage + (totalProducts + productsPerPage - 1) % productsPerPage
      == totalProducts + productsPerPage - 1;
    q
  }

  /** The first page number of the window. */
  function WindowStart(currentPage: int, totalPages: nat): int {
    if totalPages <= WindowSize then 1
    else if currentPage <= 3 then 1
    else if currentPage >= totalPages - 2 then totalPages - 4
    else currentPage - 2
  }

  /** The page numbers of the buttons, in order. */
  function PageWindow(currentPage: int, totalPages: nat): (w: seq<int>)
    ensures |w| == Min(WindowSize, totalPages)
    ensures forall i :: 0 <= i < |w| ==> w[i] == w[0] + i
    ensures forall i :: 0 <= i < |w| ==> 1 <= w[i] <= totalPages
    ensures 1 <= currentPage <= totalPages ==> currentPage in w
  {
    var start := WindowStart(currentPage, totalPages);
    var w := seq(Min(WindowSize, totalPages), i => start + i);
    assert 1 <= currentPage <= totalPages ==> w[currentPage - start] == currentPage;
    w
  }

  /** A page button is drawn as the primary one when it is the current page. */
  predicate Highlighted(currentPage: int, pageNum: int) {
    currentPage == pageNum
  }

  /** What the bar shows: the two arrow buttons' disabled flags and the page buttons. */
  datatype Controls = Controls(previousDisabled: bool, pages: seq<int>, nextDisabled: bool)

  /** The bar, or `None` (nothing rendered) when there is at most one page. */
  function Render(currentPage: int, hasNextPage: bool, totalProducts: nat, productsPerPage: nat): (r: Option<Controls>)
    requires productsPerPage > 0
    ensures r.None? <==> totalProducts <= productsPerPage
    ensures r.Some? ==> (r.value.previousDisabled <==> currentPage == 1)
    ensures r.Some? ==> (r.value.nextDisabled <==> !hasNextPage)
    ensures r.Some? ==> r.value.pages == PageWindow(currentPage, TotalPages(totalProducts, productsPerPage))
  {
    var totalPages := TotalPages(totalProducts, productsPerPage);
    RenderedWhenMoreThanOnePage(totalProducts, productsPerPage);
    if totalPages <= 1 then None
    else Some(Controls(currentPage == 1, PageWindow(currentPage, totalPages), !hasNextPage))
  }

  /**
   * `handlePageChange(newPage)`: copy the current query, set `page` to the
   * new number and navigate there; the query navigated to is returned.
   */
  method HandlePageChange(searchParams: map<string, string>, newPage: int) returns (pushed: map<string, string>)
    ensures PageParam in pushed && pushed[PageParam] == IntToString(newPage)
    ensures forall key :: key != PageParam ==> (key in pushed <==> key in searchParams)
    ensures forall key :: key != PageParam && key in searchParams ==> pushed[key] == searchParams[key]
  {
    var params := searchParams;
    params := params[PageParam := IntToString(newPage)];
    pushed := params;
  }

  /** When the current page is a real page, exactly one button is highlighted. */
  lemma ExactlyOneHighlighted(currentPage: int, totalPages: nat)
    requires 1 <= currentPage <= totalPages
    ensures var w := PageWindow(currentPage, totalPages);
      exists i :: 0 <= i < |w| && Highlighted(currentPage, w[i])
        && forall j :: 0 <= j < |w| && Highlighted(currentPage, w[j]) ==> j == i
  {
    var w := PageWindow(currentPage, totalPages);
    var i := currentPage - w[0];
    assert 0 <= i < |w| && w[i] == currentPage by {
      var k :| 0 <= k < |w| && w[k] == currentPage;
      assert k == i;
    }
  }

  /** A page count of `n` pages is shown as `n` buttons when `n` is at most five. */
  lemma SmallCountShowsAllPages(currentPage: int, totalPages: nat)
    requires totalPages <= WindowSize
    ensures PageWindow(currentPage, totalPages) == seq(totalPages, i => i + 1)
  {
  }

  /** The bar is drawn exactly when the products do not fit on one page. */
  lemma RenderedWhenMoreThanOnePage(totalProducts: nat, productsPerPage: nat)
    requires productsPerPage > 0
    ensures TotalPages(totalProducts, productsPerPage) > 1 <==> totalProducts > productsPerPage
  {
    var r := TotalPages(totalProducts, productsPerPage);
    if r <= 1 {
      assert r * productsPerPage <= productsPerPage;
    } else {
      assert r * productsPerPage >= 2 * productsPerPage;
    }
  }
}
