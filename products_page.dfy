/**
 * The products listing page: it reads the page number from the query,
 * requests one page of twelve products, and derives from the total whether
 * there is a next page and which range of products is shown.
 */
module ProductsPage {
  import opened Wrappers
  import opened Strings
  import Pagination

  const PageSize := 12

  /** `parseInt(params.page || "1")`; `None` is NaN. */
  function CurrentPage(page: Option<string>): Option<int> {
    ParseInt(OrElse(page, "1"))
  }

  /** `(currentPage - 1) * pageSize`. */
  function Skip(currentPage: int): int {
    (currentPage - 1) * PageSize
  }

  /** What `fetchProducts` is asked for. */
  datatype ProductsQuery = ProductsQuery(
    limit: int,
    skip: int,
    category: Option<string>,
    sortBy: Option<string>,
    order: Option<string>)

  /** What the page passes on to the pagination bar and the "Showing x to y of n" line. */
  datatype Listing = Listing(
    query: ProductsQuery,
    currentPage: int,
    hasNextPage: bool,
    totalProducts: nat,
    showingFrom: int,
    showingTo: int)

  /**
   * `ProductsContent` for the query `params`, given the total the product
   * service reports for the request; `None` when the page number is not a
   * number.
   */
  function ProductsContent(params: map<string, string>, totalOf: ProductsQuery -> nat): (r: Option<Listing>)
    ensures r.None? <==> CurrentPage(Param(params, "page")).None?
    ensures r.Some? ==> var l := r.value;
      && Some(l.currentPage) == CurrentPage(Param(params, "page"))
      && l.query == ProductsQuery(PageSize, (l.currentPage - 1) * PageSize,
                                  Param(params, "category"), Param(params, "sortBy"), Param(params, "order"))
      && l.totalProducts == totalOf(l.query)
      && (l.hasNextPage <==> l.query.skip + PageSize < l.totalProducts)
      && l.showingFrom == l.query.skip + 1
      && l.showingTo == Pagination.Min(l.query.skip + PageSize, l.totalProducts)
      && l.showingTo <= l.totalProducts
      && (l.hasNextPage ==> l.showingTo == l.query.skip + PageSize)
      && (!l.hasNextPage ==> l.showingTo == l.totalProducts)
    ensures r.Some? && r.value.currentPage >= 1 ==>
      (r.value.hasNextPage <==> r.value.currentPage < Pagination.TotalPages(r.value.totalProducts, PageSize))
  {
    match CurrentPage(Param(params, "page"))
    case None => None
    case Some(currentPage) =>
      var skip := Skip(currentPage);
      var query := ProductsQuery(PageSize, skip, Param(params, "category"), Param(params, "sortBy"), Param(params, "order"));
      var total := totalOf(query);
      var hasNextPage := skip + PageSize < total;
      HasNextAgreesWithPageCount(currentPage, total);
      Some(Listing(query, currentPage, hasNextPage, total, skip + 1, Pagination.Min(skip + PageSize, total)))
  }

  /**
   * For a page number of at least 1, "there is a next page" on this page
   * and "the current page is before the last" in the pagination bar agree.
   */
  lemma HasNextAgreesWithPageCount(currentPage: int, total: nat)
    ensures currentPage >= 1 ==>
      (Skip(currentPage) + PageSize < total <==> currentPage < Pagination.TotalPages(total, PageSize))
  {
    var pages := Pagination.TotalPages(total, PageSize);
    assert total <= pages * PageSize < total + PageSize;
  }

  /** An absent or empty `page` is the first page, which skips nothing. */
  lemma MissingPageIsFirst(page: Option<string>)
    requires !Truthy(page)
    ensures CurrentPage(page) == Some(1) && Skip(1) == 0
  {
    ParseIntOfIntToString(1);
  }

  /** The query the pagination bar navigates to reads back as the page it chose. */
  lemma PageParamRoundTrip(newPage: int)
    ensures CurrentPage(Some(IntToString(newPage))) == Some(newPage)
  {
    ParseIntOfIntToString(newPage);
    assert Truthy(Some(IntToString(newPage)));
  }

  /** On a page that exists, the first product shown comes no later than the last. */
  lemma ShowingRangeOnExistingPage(currentPage: int, total: nat)
    requires 1 <= currentPage <= Pagination.TotalPages(total, PageSize)
    ensures Skip(currentPage) + 1 <= Pagination.Min(Skip(currentPage) + PageSize, total)
  {
    var pages := Pagination.TotalPages(total, PageSize);
    assert total <= pages * PageSize < total + PageSize;
  }
}
