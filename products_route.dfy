/**
 * `GET /api/products`: builds the upstream listing URL from the query
 * (a category path when a category is given, then limit, skip and an
 * optional sort) and relays the upstream reply. This route always uses the
 * fixed upstream address, not the environment variable.
 */
module ProductsRoute {
  import opened Wrappers
  import opened Strings
  import opened Http

  const FetchFailed := "Failed to fetch products"
  const DefaultLimit := "10"
  const DefaultSkip := "0"

  /** `&sortBy=..&order=..`, present only when both are non-empty. */
  function SortSuffix(sortBy: Option<string>, order: Option<string>): (r: string)
    ensures r != "" <==> Truthy(sortBy) && Truthy(order)
  {
    if Truthy(sortBy) && Truthy(order) then "&sortBy=" + sortBy.value + "&order=" + order.value else ""
  }

  const ListingPrefix := DefaultUpstream + "/products?"
  const CategoryPrefix := DefaultUpstream + "/products/category/"

  /** The URL before any sort: the listing or, with a non-empty category, the category path, with limit and skip. */
  function Head(params: map<string, string>): string {
    var limit := OrElse(Param(params, "limit"), DefaultLimit);
    var skip := OrElse(Param(params, "skip"), DefaultSkip);
    var category := Param(params, "category");
    if Truthy(category)
    then DefaultUpstream + "/products/category/" + category.value + "?limit=" + limit + "&skip=" + skip
    else DefaultUpstream + "/products?limit=" + limit + "&skip=" + skip
  }

  /** The upstream URL the route requests, grouped as the handler appends it. */
  function ProductsUrl(params: map<string, string>): string {
    var sortBy := Param(params, "sortBy");
    var order := Param(params, "order");
    if Truthy(sortBy) && Truthy(order) then Head(params) + "&sortBy=" + sortBy.value + "&order=" + order.value
    else Head(params)
  }

  /** The `let url` block of the handler: the listing URL, replaced by the category URL when there is a category. */
  method BuildUrl(searchParams: map<string, string>) returns (url: string)
    ensures url == ProductsUrl(searchParams)
  {
    var limit := OrElse(Param(searchParams, "limit"), DefaultLimit);
    var skip := OrElse(Param(searchParams, "skip"), DefaultSkip);
    var sortBy := Param(searchParams, "sortBy");
    var order := Param(searchParams, "order");
    var category := Param(searchParams, "category");

    url := DefaultUpstream + "/products?limit=" + limit + "&skip=" + skip;
    if Truthy(sortBy) && Truthy(order) {
      url := url + "&sortBy=" + sortBy.value + "&order=" + order.value;
    }
    if Truthy(category) {
      url := DefaultUpstream + "/products/category/" + category.value + "?limit=" + limit + "&skip=" + skip;
      if Truthy(sortBy) && Truthy(order) {
        url := url + "&sortBy=" + sortBy.value + "&order=" + order.value;
      }
    }
  }

  /** `GET(request)`: `url` is the URL passed to `fetch`; the reply is relayed. */
  method Get<D>(searchParams: map<string, string>, fetch: string -> Upstream<D>)
    returns (response: Response<D>, url: string)
    ensures url == ProductsUrl(searchParams)
    ensures fetch(url).Threw? ==> response == Error(StatusInternalError, InternalErrorMessage)
    ensures fetch(url).Replied? && !fetch(url).Ok() ==> response == Error(fetch(url).status, FetchFailed)
    ensures fetch(url).Ok() && fetch(url).body.None? ==> response == Error(StatusInternalError, InternalErrorMessage)
    ensures fetch(url).Ok() && fetch(url).body.Some? ==> response == Success(fetch(url).body.value)
  {
    url := BuildUrl(searchParams);
    var reply := fetch(url);
    if reply.Threw? {
      return Error(StatusInternalError, InternalErrorMessage), url;
    }
    if !reply.Ok() {
      return Error(reply.status, FetchFailed), url;
    }
    if reply.body.None? {
      return Error(StatusInternalError, InternalErrorMessage), url;
    }
    response := Success(reply.body.value);
  }

  /** The category path is used exactly when a non-empty category is given; otherwise the plain listing. */
  lemma CategoryPathIffCategory(params: map<string, string>)
    ensures Truthy(Param(params, "category")) <==> CategoryPrefix <= ProductsUrl(params)
    ensures !Truthy(Param(params, "category")) ==> ListingPrefix <= ProductsUrl(params)
  {
    SortAppendedOnce(params);
    if Truthy(Param(params, "category")) {
      CategoryHead(params);
    } else {
      ListingHead(params);
    }
  }

  lemma CategoryHead(params: map<string, string>)
    requires Truthy(Param(params, "category"))
    requires ProductsUrl(params) == Head(params) + SortSuffix(Param(params, "sortBy"), Param(params, "order"))
    ensures CategoryPrefix <= ProductsUrl(params)
  {
    var c := Param(params, "category").value;
    assert CategoryPrefix <= CategoryPrefix + c <= Head(params) <= ProductsUrl(params);
  }

  lemma ListingHead(params: map<string, string>)
    requires !Truthy(Param(params, "category"))
    requires ProductsUrl(params) == Head(params) + SortSuffix(Param(params, "sortBy"), Param(params, "order"))
    ensures ListingPrefix <= ProductsUrl(params) && !(CategoryPrefix <= ProductsUrl(params))
  {
    var url := ProductsUrl(params);
    var start := DefaultUpstream + "/products?limit=";
    var i := |ListingPrefix| - 1;
    assert start <= Head(params) <= url;
    assert ListingPrefix <= start;
    assert url[i] == start[i] == '?';
    assert !(CategoryPrefix <= url) by {
      assert CategoryPrefix[i] == '/';
    }
  }

  /** `s + a + b + c + d`, regrouped. */
  lemma Regroup(s: string, a: string, b: string, c: string, d: string)
    ensures s + a + b + c + d == s + (a + b + c + d)
  {
  }

  /**
   * The sort suffix is appended once, after the head the URL ends up with;
   * a category URL does not carry the suffix of the listing URL it replaced.
   */
  lemma SortAppendedOnce(params: map<string, string>)
    ensures ProductsUrl(params) == Head(params) + SortSuffix(Param(params, "sortBy"), Param(params, "order"))
  {
    var sortBy := Param(params, "sortBy");
    var order := Param(params, "order");
    if Truthy(sortBy) && Truthy(order) {
      Regroup(Head(params), "&sortBy=", sortBy.value, "&order=", order.value);
    }
  }

  /**
   * With limit, skip and category missing or empty, and no complete sort,
   * the route asks for the first ten products of the whole catalogue,
   * unsorted.
   */
  lemma DefaultListingUrl(params: map<string, string>)
    requires !Truthy(Param(params, "limit")) && !Truthy(Param(params, "skip"))
    requires !Truthy(Param(params, "category"))
    requires !(Truthy(Param(params, "sortBy")) && Truthy(Param(params, "order")))
    ensures ProductsUrl(params) == DefaultUpstream + "/products?limit=10&skip=0"
  {
  }

  /** A sort field without an order is dropped, and the category path is used. */
  lemma SortNeedsBoth()
    ensures ProductsUrl(map["category" := "beauty", "sortBy" := "price"])
         == CategoryPrefix + "beauty" + "?limit=" + DefaultLimit + "&skip=" + DefaultSkip
  {
    var params := map["category" := "beauty", "sortBy" := "price"];
    assert Param(params, "order") == None;
    assert Param(params, "limit") == None && Param(params, "skip") == None;
    assert Param(params, "category") == Some("beauty");
    assert Head(params) == CategoryPrefix + "beauty" + "?limit=" + DefaultLimit + "&skip=" + DefaultSkip;
  }
}
