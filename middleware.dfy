/**
 * The route guard that runs before every page: from the request path and
 * the `accessToken` cookie it decides to let the request through or to
 * redirect it to `/login` or `/products`.
 */
module Middleware {
  import opened Wrappers
  import opened Strings

  const ProtectedRoutes: seq<string> := ["/products", "/cart", "/profile"]
  const PublicRoutes: seq<string> := ["/", "/login"]
  const AuthRoutes: seq<string> := ["/login"]

  const LoginPath := "/login"
  const ProductsPath := "/products"

  /** `NextResponse.next()` or `NextResponse.redirect(new URL(target, request.url))`. */
  datatype Decision = Next | Redirect(target: string)

  /** The path is the route itself or lies below it: `/products/1` but not `/productsX`. */
  predicate MatchesRoute(path: string, route: string) {
    path == route || route + "/" <= path
  }

  predicate IsProtected(path: string) {
    exists route :: route in ProtectedRoutes && MatchesRoute(path, route)
  }

  predicate IsAuthRoute(path: string) {
    exists route :: route in AuthRoutes && MatchesRoute(path, route)
  }

  /** The home route `/` matches only itself; the others match as routes do. */
  predicate IsPublic(path: string) {
    exists route :: route in PublicRoutes && (if route == "/" then path == "/" else MatchesRoute(path, route))
  }

  /** A path that matches `route` begins with it. */
  lemma MatchesRoutePrefix(path: string, route: string)
    ensures MatchesRoute(path, route) ==> route <= path
  {
    if MatchesRoute(path, route) && path != route {
      assert (route + "/")[..|route|] == route;
    }
  }

  /** No path is both protected and an auth route or a public route. */
  lemma ProtectedIsNeitherPublicNorAuth(path: string)
    ensures IsProtected(path) ==> !IsPublic(path) && !IsAuthRoute(path)
  {
    if !IsProtected(path) {
      return;
    }
    var route :| route in ProtectedRoutes && MatchesRoute(path, route);
    MatchesRoutePrefix(path, route);
    assert path[1] == route[1];
    assert !(LoginPath <= path) by {
      assert path[1] != LoginPath[1];
    }
    MatchesRoutePrefix(path, LoginPath);
  }

  /**
   * `middleware(request)`. Without a (non-empty) token a protected path is
   * sent to `/login`; with one an auth path is sent to `/products`; every
   * other request goes through.
   */
  function Guard(pathname: string, token: Option<string>): (r: Decision)
    ensures r == Redirect(LoginPath) <==> !Truthy(token) && IsProtected(pathname)
    ensures r == Redirect(ProductsPath) <==> Truthy(token) && IsAuthRoute(pathname)
    ensures r.Redirect? ==> r.target == LoginPath || r.target == ProductsPath
  {
    var isProtected := IsProtected(pathname);
    var isAuthRoute := IsAuthRoute(pathname);
    var isPublic := IsPublic(pathname);
    ProtectedIsNeitherPublicNorAuth(pathname);
    if !Truthy(token) then
      if isPublic then Next
      else if isProtected then Redirect(LoginPath)
      else if isAuthRoute then Next
      else Next
    else
      if isAuthRoute then Redirect(ProductsPath)
      else if isProtected then Next
      else Next
  }

  /** With a token the guard never sends anyone to `/login`, and lets every protected path through. */
  lemma TokenNeverRedirectsToLogin(pathname: string, token: string)
    requires token != ""
    ensures Guard(pathname, Some(token)) != Redirect(LoginPath)
    ensures IsProtected(pathname) ==> Guard(pathname, Some(token)) == Next
  {
    if IsProtected(pathname) {
      ProtectedIsNeitherPublicNorAuth(pathname);
    }
  }

  /** Without a token `/` and everything under `/login` go through. */
  lemma NoTokenAllowsHomeAndLogin(pathname: string, token: Option<string>)
    requires !Truthy(token)
    requires pathname == "/" || MatchesRoute(pathname, LoginPath)
    ensures Guard(pathname, token) == Next
  {
    if IsProtected(pathname) {
      ProtectedIsNeitherPublicNorAuth(pathname);
      assert false;
    }
  }

  /** Matching respects path segments: `/products/1` is protected, `/productsX` is not. */
  lemma SegmentAwareMatching()
    ensures IsProtected("/products/1")
    ensures !IsProtected("/productsX")
  {
    assert MatchesRoute("/products/1", "/products") by {
      assert ("/products" + "/") == "/products/1"[..10];
    }
    forall route | route in ProtectedRoutes
      ensures !MatchesRoute("/productsX", route)
    {
      assert !(route + "/" <= "/productsX") by {
        assert (route + "/")[|route|] != "/productsX"[|route|];
      }
    }
  }

  /** The policy table, on sample paths. */
  lemma PolicyExamples()
    ensures Guard("/products", None) == Redirect(LoginPath)
    ensures Guard("/login", Some("t")) == Redirect(ProductsPath)
    ensures Guard("/", None) == Next
    ensures Guard("/cart/anything", Some("t")) == Next
  {
    assert MatchesRoute("/products", "/products");
    assert MatchesRoute("/login", "/login");
    assert MatchesRoute("/cart/anything", "/cart") by {
      assert "/cart" + "/" == "/cart/anything"[..6];
    }
    assert !IsAuthRoute("/cart/anything") by {
      ProtectedIsNeitherPublicNorAuth("/cart/anything");
    }
  }
}
