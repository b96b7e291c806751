/**
 * The authentication route handlers: `POST /api/auth/login`,
 * `POST /api/auth/refresh`, `GET /api/auth/me` and `POST /api/auth/logout`.
 * Login, refresh and the current-user route forward to the upstream
 * identity service through `fetch` (a function parameter here); logout
 * only clears the cookies. Login and refresh keep the tokens they receive
 * in the cookie store: login answers with the profile, which has no token
 * field, and refresh with a fixed message.
 */
module AuthRoutes {
  import opened Wrappers
  import opened Strings
  import opened Http
  import opened Auth

  const CredentialsRequired := "Username and password are required"
  const InvalidCredentials := "Invalid credentials"
  const LoginErrorMessage := "Internal server error-bhari mistake ho gaya "
  const RefreshTokenNotFound := "Refresh token not found"
  const RefreshFailed := "Failed to refresh token"
  const RefreshSucceeded := "Token refreshed successfully"
  const Unauthorized := "Unauthorized"
  const TokenExpired := "Token expired or invalid"
  const FetchUserFailed := "Failed to fetch user"
  const LoggedOut := "Logged out successfully"

  /** The parsed login request body; fields other than the two credentials are passed along untouched. */
  datatype LoginRequest = LoginRequest(username: Option<string>, password: Option<string>, others: map<string, string>)

  /** What the upstream login returns. */
  datatype AuthResponse = AuthResponse(
    id: int,
    username: string,
    email: string,
    firstName: string,
    lastName: string,
    gender: string,
    image: string,
    accessToken: string,
    refreshToken: string)

  /** The user data the login route returns: the upstream reply without its tokens. */
  datatype UserProfile = UserProfile(
    id: int,
    username: string,
    email: string,
    firstName: string,
    lastName: string,
    gender: string,
    image: string)

  datatype TokenPair = TokenPair(accessToken: string, refreshToken: string)

  function Profile(data: AuthResponse): UserProfile {
    UserProfile(data.id, data.username, data.email, data.firstName, data.lastName, data.gender, data.image)
  }

  /**
   * The login body is the upstream reply with exactly its two tokens
   * removed: the profile and the tokens together rebuild the reply.
   */
  lemma ProfileIsReplyWithoutTokens(data: AuthResponse)
    ensures var p := Profile(data);
      AuthResponse(p.id, p.username, p.email, p.firstName, p.lastName, p.gender, p.image,
                   data.accessToken, data.refreshToken) == data
  {
  }

  /** `!body.username || !body.password` fails. */
  predicate HasCredentials(body: LoginRequest) {
    Truthy(body.username) && Truthy(body.password)
  }

  /**
   * `POST /api/auth/login`. `request` is `None` when the body is not JSON.
   * The body is forwarded as it is; on an ok reply the upstream tokens go
   * into the cookie store and only the profile comes back.
   */
  method Login(store: CookieStore, request: Option<LoginRequest>, fetch: Outgoing<LoginRequest> -> Upstream<AuthResponse>)
    returns (response: Response<UserProfile>, sent: Option<Outgoing<LoginRequest>>)
    modifies store
    ensures request.None? ==> response == Error(StatusInternalError, LoginErrorMessage) && sent == None
    ensures request.Some? && !HasCredentials(request.value) ==>
      response == Error(StatusBadRequest, CredentialsRequired) && sent == None
    ensures request.Some? && HasCredentials(request.value) ==>
      sent == Some(Outgoing(DefaultUpstream + "/auth/login", request.value))
    ensures sent.Some? && fetch(sent.value).Threw? ==> response == Error(StatusInternalError, LoginErrorMessage)
    ensures sent.Some? && fetch(sent.value).Replied? && !fetch(sent.value).Ok() ==>
      response == Error(StatusUnauthorized, InvalidCredentials)
    ensures sent.Some? && fetch(sent.value).Ok() && fetch(sent.value).body.None? ==>
      response == Error(StatusInternalError, LoginErrorMessage)
    ensures sent.Some? && fetch(sent.value).Ok() && fetch(sent.value).body.Some? ==>
      var data := fetch(sent.value).body.value;
      response == Success(Profile(data))
      && store.jar == WithTokens(old(store.jar), data.accessToken, data.refreshToken, store.production)
    ensures response.status != StatusOk ==> store.jar == old(store.jar)
  {
    sent := None;
    if request.None? {
      return Error(StatusInternalError, LoginErrorMessage), sent;
    }
    var body := request.value;
    if !Truthy(body.username) || !Truthy(body.password) {
      return Error(StatusBadRequest, CredentialsRequired), sent;
    }
    sent := Some(Outgoing(DefaultUpstream + "/auth/login", body));
    var reply := fetch(sent.value);
    if reply.Threw? {
      return Error(StatusInternalError, LoginErrorMessage), sent;
    }
    if !reply.Ok() {
      return Error(StatusUnauthorized, InvalidCredentials), sent;
    }
    if reply.body.None? {
      return Error(StatusInternalError, LoginErrorMessage), sent;
    }
    var data := reply.body.value;
    store.SetTokens(data.accessToken, data.refreshToken);
    response := Success(Profile(data));
  }

  /**
   * `POST /api/auth/refresh`. Posts the stored refresh token upstream and,
   * on an ok reply, replaces both stored tokens with the new pair; a failed
   * refresh leaves the stored tokens as they were.
   */
  method Refresh(store: CookieStore, env: Option<string>, fetch: Outgoing<string> -> Upstream<TokenPair>)
    returns (response: Response<()>, sent: Option<Outgoing<string>>)
    modifies store
    ensures !Truthy(Read(old(store.jar), RefreshTokenKey)) ==>
      response == Error(StatusUnauthorized, RefreshTokenNotFound) && sent == None
    ensures Truthy(Read(old(store.jar), RefreshTokenKey)) ==>
      sent == Some(Outgoing(UpstreamBase(env) + "/auth/refresh", Read(old(store.jar), RefreshTokenKey).value))
    ensures sent.Some? && fetch(sent.value).Threw? ==> response == Error(StatusInternalError, InternalErrorMessage)
    ensures sent.Some? && fetch(sent.value).Replied? && !fetch(sent.value).Ok() ==>
      response == Error(StatusUnauthorized, RefreshFailed)
    ensures sent.Some? && fetch(sent.value).Ok() && fetch(sent.value).body.None? ==>
      response == Error(StatusInternalError, InternalErrorMessage)
    ensures sent.Some? && fetch(sent.value).Ok() && fetch(sent.value).body.Some? ==>
      var pair := fetch(sent.value).body.value;
      response == Response(StatusOk, Message(RefreshSucceeded))
      && store.jar == WithTokens(old(store.jar), pair.accessToken, pair.refreshToken, store.production)
    ensures response.status != StatusOk ==> store.jar == old(store.jar)
  {
    sent := None;
    var refreshToken := store.GetRefreshToken();
    if !Truthy(refreshToken) {
      return Error(StatusUnauthorized, RefreshTokenNotFound), sent;
    }
    sent := Some(Outgoing(UpstreamBase(env) + "/auth/refresh", refreshToken.value));
    var reply := fetch(sent.value);
    if reply.Threw? {
      return Error(StatusInternalError, InternalErrorMessage), sent;
    }
    if !reply.Ok() {
      return Error(StatusUnauthorized, RefreshFailed), sent;
    }
    if reply.body.None? {
      return Error(StatusInternalError, InternalErrorMessage), sent;
    }
    var pair := reply.body.value;
    store.SetTokens(pair.accessToken, pair.refreshToken);
    response := Response(StatusOk, Message(RefreshSucceeded));
  }

  /** The response of `GET /api/auth/me` and the request it sent upstream, if any. */
  datatype MeResult<+U> = MeResult(response: Response<U>, sent: Option<Outgoing<string>>)

  /**
   * `GET /api/auth/me`: reads the access token from the jar (and never
   * writes it), asks upstream with a Bearer header (RFC 6750, section 2.1)
   * and maps the reply to a status.
   */
  function Me<U>(jar: map<string, Cookie>, env: Option<string>, fetch: Outgoing<string> -> Upstream<U>): (r: MeResult<U>)
    ensures !Truthy(Read(jar, AccessTokenKey)) <==> r.sent.None?
    ensures r.sent.None? ==> r.response == Error(StatusUnauthorized, Unauthorized)
    ensures r.sent.Some? ==>
      r.sent.value == Outgoing(UpstreamBase(env) + "/auth/me", "Bearer " + Read(jar, AccessTokenKey).value)
    ensures r.sent.Some? ==> match fetch(r.sent.value)
      case Threw => r.response == Error(StatusInternalError, InternalErrorMessage)
      case Replied(status, body) =>
        if status == StatusUnauthorized then r.response == Error(StatusUnauthorized, TokenExpired)
        else if !fetch(r.sent.value).Ok() then r.response == Error(status, FetchUserFailed)
        else if body.None? then r.response == Error(StatusInternalError, InternalErrorMessage)
        else r.response == Success(body.value)
  {
    var token := Read(jar, AccessTokenKey);
    if !Truthy(token) then MeResult(Error(StatusUnauthorized, Unauthorized), None)
    else
      var sent := Outgoing(UpstreamBase(env) + "/auth/me", "Bearer " + token.value);
      var reply := fetch(sent);
      var response :=
        if reply.Threw? then Error(StatusInternalError, InternalErrorMessage)
        else if !reply.Ok() then
          if reply.status == 401 then Error(StatusUnauthorized, TokenExpired)
          else Error(reply.status, FetchUserFailed)
        else if reply.body.None? then Error(StatusInternalError, InternalErrorMessage)
        else Success(reply.body.value);
      MeResult(response, Some(sent))
  }

  /** `POST /api/auth/logout`: clears both token cookies and confirms. */
  method Logout(store: CookieStore) returns (response: Response<()>)
    modifies store
    ensures store.jar == WithoutTokens(old(store.jar))
    ensures response == Response(StatusOk, Message(LoggedOut))
  {
    store.ClearTokens();
    response := Response(StatusOk, Message(LoggedOut));
  }
}
