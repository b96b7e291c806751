/**
 * The server-side token store: two HTTP-only cookies, `accessToken` and
 * `refreshToken`, in the request's cookie jar.
 */
module Auth {
  import opened Wrappers

  const AccessTokenKey := "accessToken"
  const RefreshTokenKey := "refreshToken"

  /** Seven days, in seconds. */
  const AccessMaxAge := 60 * 60 * 24 * 7
  /** Thirty days, in seconds. */
  const RefreshMaxAge := 60 * 60 * 24 * 30

  datatype SameSite = Lax | Strict | NoRestriction

  datatype CookieOptions = CookieOptions(
    httpOnly: bool,
    secure: bool,
    sameSite: SameSite,
    maxAge: int,
    path: string)

  datatype Cookie = Cookie(value: string, options: CookieOptions)

  /** The cookie `setTokens` writes for one token: script-inaccessible, lax, site-wide, secure in production. */
  function TokenCookie(value: string, maxAge: int, production: bool): Cookie {
    Cookie(value, CookieOptions(true, production, Lax, maxAge, "/"))
  }

  /** The jar after `setTokens(access, refresh)`. */
  function WithTokens(jar: map<string, Cookie>, access: string, refresh: string, production: bool): map<string, Cookie> {
    jar[AccessTokenKey := TokenCookie(access, AccessMaxAge, production)]
       [RefreshTokenKey := TokenCookie(refresh, RefreshMaxAge, production)]
  }

  /** The jar after `clearTokens()`. */
  function WithoutTokens(jar: map<string, Cookie>): map<string, Cookie> {
    jar - {AccessTokenKey, RefreshTokenKey}
  }

  /** `cookieStore.get(key)?.value`. */
  function Read(jar: map<string, Cookie>, key: string): Option<string> {
    if key in jar then Some(jar[key].value) else None
  }

  /** The cookie jar of the current request, which `cookies()` hands out. */
  class CookieStore {
    var jar: map<string, Cookie>
    /** `process.env.NODE_ENV === "production"`. */
    const production: bool

    constructor (initial: map<string, Cookie>, production: bool)
      ensures jar == initial && this.production == production
    {
      jar := initial;
      this.production := production;
    }

    method SetTokens(access: string, refresh: string)
      modifies this
      ensures jar == WithTokens(old(jar), access, refresh, production)
    {
      jar := jar[AccessTokenKey := TokenCookie(access, AccessMaxAge, production)];
      jar := jar[RefreshTokenKey := TokenCookie(refresh, RefreshMaxAge, production)];
    }

    method GetAccessToken() returns (token: Option<string>)
      ensures token.Some? <==> AccessTokenKey in jar
      ensures token.Some? ==> token.value == jar[AccessTokenKey].value
    {
      token := if AccessTokenKey in jar then Some(jar[AccessTokenKey].value) else None;
    }

    method GetRefreshToken() returns (token: Option<string>)
      ensures token.Some? <==> RefreshTokenKey in jar
      ensures token.Some? ==> token.value == jar[RefreshTokenKey].value
    {
      token := if RefreshTokenKey in jar then Some(jar[RefreshTokenKey].value) else None;
    }

    method ClearTokens()
      modifies this
      ensures jar == WithoutTokens(old(jar))
    {
      jar := jar - {AccessTokenKey};
      jar := jar - {RefreshTokenKey};
    }
  }

  /** After `setTokens(a, r)` the getters return `a` and `r`. */
  lemma SetThenGet(jar: map<string, Cookie>, access: string, refresh: string, production: bool)
    ensures Read(WithTokens(jar, access, refresh, production), AccessTokenKey) == Some(access)
    ensures Read(WithTokens(jar, access, refresh, production), RefreshTokenKey) == Some(refresh)
  {
  }

  /** A second `setTokens` replaces the first pair entirely; every other cookie is left alone. */
  lemma SetOverwrites(jar: map<string, Cookie>, a1: string, r1: string, a2: string, r2: string, production: bool)
    ensures WithTokens(WithTokens(jar, a1, r1, production), a2, r2, production) == WithTokens(jar, a2, r2, production)
    ensures forall key :: key != AccessTokenKey && key != RefreshTokenKey ==>
      Read(WithTokens(jar, a1, r1, production), key) == Read(jar, key)
  {
  }

  /** The two keys differ, so writing or deleting one never changes the other. */
  lemma KeysIndependent(jar: map<string, Cookie>, c: Cookie)
    ensures AccessTokenKey != RefreshTokenKey
    ensures Read(jar[AccessTokenKey := c], RefreshTokenKey) == Read(jar, RefreshTokenKey)
    ensures Read(jar[RefreshTokenKey := c], AccessTokenKey) == Read(jar, AccessTokenKey)
    ensures Read(jar - {AccessTokenKey}, RefreshTokenKey) == Read(jar, RefreshTokenKey)
    ensures Read(jar - {RefreshTokenKey}, AccessTokenKey) == Read(jar, AccessTokenKey)
  {
  }

  /**
   * Both cookies are HTTP-only, `sameSite: "lax"`, on path `/` and secure
   * exactly in production; the access cookie lives 7 days and the refresh
   * cookie 30, so the refresh token outlives the access token.
   */
  lemma CookieAttributes(jar: map<string, Cookie>, access: string, refresh: string, production: bool)
    ensures var j := WithTokens(jar, access, refresh, production);
      forall key :: key == AccessTokenKey || key == RefreshTokenKey ==>
        && j[key].options.httpOnly
        && j[key].options.sameSite == Lax
        && j[key].options.path == "/"
        && j[key].options.secure == production
    ensures var j := WithTokens(jar, access, refresh, production);
      && j[AccessTokenKey].options.maxAge == 604800
      && j[RefreshTokenKey].options.maxAge == 2592000
      && j[AccessTokenKey].options.maxAge < j[RefreshTokenKey].options.maxAge
  {
  }

  /** After `clearTokens` both getters return nothing, and clearing again changes nothing. */
  lemma ClearEmpties(jar: map<string, Cookie>)
    ensures Read(WithoutTokens(jar), AccessTokenKey) == None
    ensures Read(WithoutTokens(jar), RefreshTokenKey) == None
    ensures WithoutTokens(WithoutTokens(jar)) == WithoutTokens(jar)
  {
  }
}
