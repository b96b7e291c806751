/**
 * `GET /api/products/search`: rejects a request without a search term,
 * otherwise builds the upstream search URL (the term passed through
 * `encodeURIComponent`, a function parameter here) and relays the reply.
 */
module SearchRoute {
  import opened Wrappers
  import opened Strings
  import opened Http
  import ProductsRoute

  const QueryRequired := "Search query is required"
  const SearchFailed := "Failed to search products"

  /** The search URL before any sort: the encoded term, limit and skip. */
  function SearchHead(base: string, q: string, params: map<string, string>, encode: string -> string): string {
    var limit := OrElse(Param(params, "limit"), ProductsRoute.DefaultLimit);
    var skip := OrElse(Param(params, "skip"), ProductsRoute.DefaultSkip);
    base + "/products/search?q=" + encode(q) + "&limit=" + limit + "&skip=" + skip
  }

  /** The upstream search URL for the term `q`, grouped as the handler appends it. */
  function SearchUrl(base: string, q: string, params: map<string, string>, encode: string -> string): string {
    var sortBy := Param(params, "sortBy");
    var order := Param(params, "order");
    var head := SearchHead(base, q, params, encode);
    if Truthy(sortBy) && Truthy(order) then head + "&sortBy=" + sortBy.value + "&order=" + order.value else head
  }

  /** The `let url` block of the handler, once the term `q` is known to be present. */
  method BuildUrl(base: string, q: string, searchParams: map<string, string>, encode: string -> string)
    returns (url: string)
    ensures url == SearchUrl(base, q, searchParams, encode)
  {
    var limit := OrElse(Param(searchParams, "limit"), ProductsRoute.DefaultLimit);
    var skip := OrElse(Param(searchParams, "skip"), ProductsRoute.DefaultSkip);
    var sortBy := Param(searchParams, "sortBy");
    var order := Param(searchParams, "order");

    url := base + "/products/search?q=" + encode(q) + "&limit=" + limit + "&skip=" + skip;
    if Truthy(sortBy) && Truthy(order) {
      url := url + "&sortBy=" + sortBy.value + "&order=" + order.value;
    }
  }

  /**
   * `GET(request)` with `DUMMYJSON_URL` as `env`; `sent` is the URL passed to
   * `fetch`, or `None` when the handler returned before calling it.
   */
  method Get<D>(searchParams: map<string, string>, env: Option<string>, encode: string -> string,
                fetch: string -> Upstream<D>)
    returns (response: Response<D>, sent: Option<string>)
    ensures !Truthy(Param(searchParams, "q")) <==> sent.None?
    ensures sent.None? ==> response == Error(StatusBadRequest, QueryRequired)
    ensures sent.Some? ==>
      sent.value == SearchUrl(UpstreamBase(env), Param(searchParams, "q").value, searchParams, encode)
    ensures sent.Some? && fetch(sent.value).Threw? ==> response == Error(StatusInternalError, InternalErrorMessage)
    ensures sent.Some? && fetch(sent.value).Replied? && !fetch(sent.value).Ok() ==>
      response == Error(fetch(sent.value).status, SearchFailed)
    ensures sent.Some? && fetch(sent.value).Ok() && fetch(sent.value).body.None? ==>
      response == Error(StatusInternalError, InternalErrorMessage)
    ensures sent.Some? && fetch(sent.value).Ok() && fetch(sent.value).body.Some? ==>
      response == Success(fetch(sent.value).body.value)
  {
    var q := Param(searchParams, "q");
    if !Truthy(q) {
      return Error(StatusBadRequest, QueryRequired), None;
    }
    var url := BuildUrl(UpstreamBase(env), q.value, searchParams, encode);
    sent := Some(url);

    var reply := fetch(url);
    if reply.Threw? {
      return Error(StatusInternalError, InternalErrorMessage), sent;
    }
    if !reply.Ok() {
      return Error(reply.status, SearchFailed), sent;
    }
    if reply.body.None? {
      return Error(StatusInternalError, InternalErrorMessage), sent;
    }
    response := Success(reply.body.value);
  }

  /**
   * The search URL is the base, the encoded term, limit and skip, and then
   * the same sort suffix the listing route appends.
   */
  lemma SearchUrlShape(base: string, q: string, params: map<string, string>, encode: string -> string)
    ensures var url := SearchUrl(base, q, params, encode);
      var suffix := ProductsRoute.SortSuffix(Param(params, "sortBy"), Param(params, "order"));
      && base + "/products/search?q=" + encode(q) + "&limit=" <= url
      && url == SearchHead(base, q, params, encode) + suffix
      && ProductsRoute.ProductsUrl(params) == ProductsRoute.Head(params) + suffix
  {
    var sortBy := Param(params, "sortBy");
    var order := Param(params, "order");
    var head := SearchHead(base, q, params, encode);
    if Truthy(sortBy) && Truthy(order) {
      ProductsRoute.Regroup(head, "&sortBy=", sortBy.value, "&order=", order.value);
    }
    ProductsRoute.SortAppendedOnce(params);
    assert base + "/products/search?q=" + encode(q) + "&limit=" <= head <= SearchUrl(base, q, params, encode);
  }

  /** Without `DUMMYJSON_URL` the search goes to the fixed upstream address. */
  lemma DefaultBase(q: string, params: map<string, string>, encode: string -> string)
    ensures DefaultUpstream + "/products/search?q=" <= SearchUrl(UpstreamBase(None), q, params, encode)
  {
    var url := SearchUrl(UpstreamBase(None), q, params, encode);
    assert DefaultUpstream + "/products/search?q=" <= DefaultUpstream + "/products/search?q=" + encode(q)
      <= SearchHead(UpstreamBase(None), q, params, encode) <= url;
  }
}
