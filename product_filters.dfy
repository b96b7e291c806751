/**
 * The filter sidebar of the products page: the category and sort currently
 * selected (with their defaults), which buttons are highlighted, and the
 * query a category or sort button navigates to. Every change goes back to
 * the first page.
 */
module ProductFilters {
  import opened Wrappers
  import opened Strings
  import ProductsPage

  const CategoryParam := "category"
  const SortByParam := "sortBy"
  const OrderParam := "order"
  const PageParam := "page"

  /** The sort fields and orders of the button grid. */
  const SortFields: seq<string> := ["title", "price", "rating"]
  const Orders: seq<string> := ["asc", "desc"]

  function CurrentCategory(params: map<string, string>): string {
    OrElse(Param(params, CategoryParam), "")
  }

  function CurrentSort(params: map<string, string>): string {
    OrElse(Param(params, SortByParam), "title")
  }

  function CurrentOrder(params: map<string, string>): string {
    OrElse(Param(params, OrderParam), "asc")
  }

  /** "All Products" is highlighted when no category is selected. */
  predicate AllProductsHighlighted(params: map<string, string>) {
    CurrentCategory(params) == ""
  }

  /** A category button is highlighted when its slug is the selected category. */
  predicate CategoryHighlighted(params: map<string, string>, slug: string) {
    CurrentCategory(params) == slug
  }

  /** A sort button is highlighted when both its field and its order are the selected ones. */
  predicate SortHighlighted(params: map<string, string>, sortBy: string, order: string) {
    CurrentSort(params) == sortBy && CurrentOrder(params) == order
  }

  /** The keys `changed` differ on from `params` are among `touched`; all others are kept. */
  ghost predicate KeepsOthers(params: map<string, string>, changed: map<string, string>, touched: set<string>) {
    && (forall key :: key !in touched ==> (key in changed <==> key in params))
    && (forall key :: key !in touched && key in params ==> changed[key] == params[key])
  }

  /** The query a category button leads to: the category set, or removed for "", and page 1. */
  function WithCategory(params: map<string, string>, category: string): (r: map<string, string>)
    ensures category != "" ==> CategoryParam in r && r[CategoryParam] == category
    ensures category == "" ==> CategoryParam !in r
    ensures PageParam in r && r[PageParam] == "1"
    ensures KeepsOthers(params, r, {CategoryParam, PageParam})
  {
    var kept := if category != "" then params[CategoryParam := category] else params - {CategoryParam};
    kept[PageParam := "1"]
  }

  /** The query a sort button leads to: both sort parameters set and page 1. */
  function WithSort(params: map<string, string>, sortBy: string, order: string): (r: map<string, string>)
    ensures SortByParam in r && r[SortByParam] == sortBy
    ensures OrderParam in r && r[OrderParam] == order
    ensures PageParam in r && r[PageParam] == "1"
    ensures KeepsOthers(params, r, {SortByParam, OrderParam, PageParam})
  {
    params[SortByParam := sortBy][OrderParam := order][PageParam := "1"]
  }

  /** `handleCategoryChange(category)`: copy the query, rewrite it in place and navigate there. */
  method HandleCategoryChange(searchParams: map<string, string>, category: string) returns (pushed: map<string, string>)
    ensures pushed == WithCategory(searchParams, category)
  {
    var params := searchParams;
    if category != "" {
      params := params[CategoryParam := category];
    } else {
      params := params - {CategoryParam};
    }
    params := params[PageParam := "1"];
    pushed := params;
  }

  /** `handleSortChange(sortBy, order)`. */
  method HandleSortChange(searchParams: map<string, string>, sortBy: string, order: string) returns (pushed: map<string, string>)
    ensures pushed == WithSort(searchParams, sortBy, order)
  {
    var params := searchParams;
    params := params[SortByParam := sortBy];
    params := params[OrderParam := order];
    params := params[PageParam := "1"];
    pushed := params;
  }

  /** With every filter parameter missing or empty the defaults apply: every category, by title, ascending. */
  lemma Defaults(params: map<string, string>)
    requires !Truthy(Param(params, CategoryParam))
    requires !Truthy(Param(params, SortByParam)) && !Truthy(Param(params, OrderParam))
    ensures AllProductsHighlighted(params) && SortHighlighted(params, "title", "asc")
  {
  }

  /** Pressing the same category button twice leads where pressing it once does. */
  lemma CategoryChangeIdempotent(params: map<string, string>, category: string)
    ensures WithCategory(WithCategory(params, category), category) == WithCategory(params, category)
  {
  }

  /** Pressing the same sort button twice leads where pressing it once does. */
  lemma SortChangeIdempotent(params: map<string, string>, sortBy: string, order: string)
    ensures WithSort(WithSort(params, sortBy, order), sortBy, order) == WithSort(params, sortBy, order)
  {
  }

  /** After a category button the pressed button, and only it among "All Products" and the slug, is highlighted. */
  lemma CategoryChangeHighlights(params: map<string, string>, category: string)
    ensures category != "" ==>
      CategoryHighlighted(WithCategory(params, category), category)
      && !AllProductsHighlighted(WithCategory(params, category))
    ensures category == "" ==> AllProductsHighlighted(WithCategory(params, category))
  {
  }

  /** After a sort button that button is highlighted and the selected category is unchanged. */
  lemma SortChangeHighlights(params: map<string, string>, sortBy: string, order: string)
    requires sortBy != "" && order != ""
    ensures SortHighlighted(WithSort(params, sortBy, order), sortBy, order)
    ensures CurrentCategory(WithSort(params, sortBy, order)) == CurrentCategory(params)
  {
  }

  /** At most one button of the sort grid is highlighted. */
  lemma AtMostOneSortHighlighted(params: map<string, string>, s1: string, o1: string, s2: string, o2: string)
    requires SortHighlighted(params, s1, o1) && SortHighlighted(params, s2, o2)
    ensures s1 == s2 && o1 == o2
  {
  }

  /**
   * After pressing the grid button for `SortFields[i]` and `Orders[j]`, that
   * button and no other button of the grid is highlighted.
   */
  lemma PressedGridButtonAloneHighlighted(params: map<string, string>, i: nat, j: nat)
    requires i < |SortFields| && j < |Orders|
    ensures forall a, b :: 0 <= a < |SortFields| && 0 <= b < |Orders| ==>
      (SortHighlighted(WithSort(params, SortFields[i], Orders[j]), SortFields[a], Orders[b]) <==> a == i && b == j)
  {
    GridDistinct();
  }

  /** With both sort parameters missing or empty the grid's first button, title ascending, is the one highlighted. */
  lemma DefaultGridButtonHighlighted(params: map<string, string>)
    requires !Truthy(Param(params, SortByParam)) && !Truthy(Param(params, OrderParam))
    ensures forall a, b :: 0 <= a < |SortFields| && 0 <= b < |Orders| ==>
      (SortHighlighted(params, SortFields[a], Orders[b]) <==> a == 0 && b == 0)
  {
    GridDistinct();
  }

  /** The grid's fields are pairwise distinct, and so are its orders. */
  lemma GridDistinct()
    ensures forall a, b :: 0 <= a < b < |SortFields| ==> SortFields[a] != SortFields[b]
    ensures forall a, b :: 0 <= a < b < |Orders| ==> Orders[a] != Orders[b]
  {
    assert SortFields[0][0] == 't' && SortFields[1][0] == 'p' && SortFields[2][0] == 'r';
    assert Orders[0][0] == 'a' && Orders[1][0] == 'd';
  }

  /** Every filter change sends the listing back to its first page. */
  lemma ChangesResetToFirstPage(params: map<string, string>, category: string, sortBy: string, order: string)
    ensures ProductsPage.CurrentPage(Param(WithCategory(params, category), PageParam)) == Some(1)
    ensures ProductsPage.CurrentPage(Param(WithSort(params, sortBy, order), PageParam)) == Some(1)
  {
    ProductsPage.PageParamRoundTrip(1);
    assert IntToString(1) == "1";
  }
}
