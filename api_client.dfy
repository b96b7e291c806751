/**
 * The browser's HTTP client and its response interceptor: a request that
 * fails with 401 triggers one `POST /api/auth/refresh` and, if that
 * succeeds, one re-send of the original request; requests to the login,
 * logout and refresh endpoints are never refreshed.
 *
 * The network is the parameter `transport`: it answers the `n`-th request
 * of the session (counting from `clock`), so the same URL may get different
 * answers before and after a refresh. The methods return every request
 * they sent, in order, and where the browser was sent, if anywhere.
 */
module ApiClient {
  import opened Wrappers
  import opened Strings

  const NoRefreshEndpoints: seq<string> := ["/api/auth/login", "/api/auth/logout", "/api/auth/refresh"]
  const RefreshUrl := "/api/auth/refresh"
  const LoginPage := "/login"

  /** The parts of an axios request config the interceptor looks at; `retry` is `_retry`. */
  datatype RequestConfig = RequestConfig(verb: string, url: string, retry: bool)

  /** `apiClient.post("/api/auth/refresh")`. */
  const RefreshRequest := RequestConfig("POST", RefreshUrl, false)

  /** What the network gives back: a response with a status, or no response at all. */
  datatype Answer<+D> = Answered(status: int, data: D) | NoResponse

  /** axios resolves a 2xx response and rejects everything else. */
  predicate Succeeds<D>(a: Answer<D>) {
    a.Answered? && 200 <= a.status <= 299
  }

  /** An axios error: the failed request's config and `error.response?.status`. */
  datatype ApiError = ApiError(config: RequestConfig, status: Option<int>)

  function ErrorOf<D>(config: RequestConfig, a: Answer<D>): ApiError {
    ApiError(config, if a.Answered? then Some(a.status) else None)
  }

  datatype Outcome<+D> = Resolved(status: int, data: D) | Rejected(error: ApiError)

  /** How a single request, not intercepted, settles. */
  function Settle<D>(config: RequestConfig, a: Answer<D>): Outcome<D> {
    if Succeeds(a) then Resolved(a.status, a.data) else Rejected(ErrorOf(config, a))
  }

  /** `NO_REFRESH_ENDPOINTS.some(endpoint => url.includes(endpoint))`. */
  predicate ShouldNotRefresh(url: string) {
    exists endpoint :: endpoint in NoRefreshEndpoints && Contains(url, endpoint)
  }

  /** The interceptor's test: a 401 on a request not yet retried and not to an excluded endpoint. */
  predicate Refreshes(error: ApiError) {
    error.status == Some(401) && !error.config.retry && !ShouldNotRefresh(error.config.url)
  }

  /** How many more refresh rounds a request may still start: one, or none once retried or excluded. */
  function RetryBudget(config: RequestConfig): nat {
    if config.retry || ShouldNotRefresh(config.url) then 0 else 1
  }

  lemma RefreshUrlExcluded()
    ensures ShouldNotRefresh(RefreshUrl)
  {
    assert OccursAt(RefreshUrl, RefreshUrl, 0);
    assert Contains(RefreshUrl, RefreshUrl);
    assert NoRefreshEndpoints[2] == RefreshUrl;
  }

  /** Counts the refresh requests among `sent`. */
  function RefreshCount(sent: seq<RequestConfig>): nat {
    if |sent| == 0 then 0
    else RefreshCount(sent[..|sent| - 1]) + (if sent[|sent| - 1] == RefreshRequest then 1 else 0)
  }

  /**
   * `apiClient(config)`: send, resolve a success, hand a failure to the
   * interceptor. At most three requests go out: the request, one refresh
   * and one retry.
   */
  method Send<D>(config: RequestConfig, transport: (RequestConfig, nat) -> Answer<D>, clock: nat, inBrowser: bool)
    returns (outcome: Outcome<D>, sent: seq<RequestConfig>, location: Option<string>)
    decreases RetryBudget(config), 1
    ensures 1 <= |sent| <= 3 && sent[0] == config
    ensures RefreshCount(sent[1..]) <= 1
    ensures ShouldNotRefresh(config.url) ==>
      sent == [config] && outcome == Settle(config, transport(config, clock)) && location == None
    ensures location.Some? ==> location.value == LoginPage && inBrowser
    ensures !Refreshes(ErrorOf(config, transport(config, clock))) || Succeeds(transport(config, clock)) ==>
      outcome == Settle(config, transport(config, clock)) && sent == [config] && location == None
    ensures !Succeeds(transport(config, clock)) && Refreshes(ErrorOf(config, transport(config, clock))) ==>
      |sent| >= 2 && sent[1] == RefreshRequest
      && AfterRefresh(config, transport, clock + 1, inBrowser, outcome, sent[1..], location)
  {
    var answer := transport(config, clock);
    if Succeeds(answer) {
      assert [config][1..] == [];
      return Resolved(answer.status, answer.data), [config], None;
    }
    var more;
    outcome, more, location := OnRejected(ErrorOf(config, answer), transport, clock + 1, inBrowser);
    sent := [config] + more;
    assert sent[1..] == more;
    if |more| > 0 {
      assert more[..1] == [RefreshRequest] && more[..1][..0] == [];
      assert RefreshCount(more[..1]) == 1;
      if |more| == 2 {
        assert more[1] != RefreshRequest;
        assert RefreshCount(more) == RefreshCount(more[..1]);
      }
    }
  }

  /**
   * What follows a refreshing 401 on `config`, the refresh being request
   * number `clock`: if the refresh succeeds, the original request is sent
   * once more, marked as retried, and its outcome, success or not, is the
   * result; if it fails, the refresh's own error is the result and the
   * browser goes to `/login`.
   */
  ghost predicate AfterRefresh<D>(config: RequestConfig, transport: (RequestConfig, nat) -> Answer<D>, clock: nat,
                                  inBrowser: bool, outcome: Outcome<D>, sent: seq<RequestConfig>, location: Option<string>)
  {
    var refresh := transport(RefreshRequest, clock);
    var retried := config.(retry := true);
    if Succeeds(refresh) then
      && sent == [RefreshRequest, retried]
      && outcome == Settle(retried, transport(retried, clock + 1))
      && location == None
    else
      && sent == [RefreshRequest]
      && outcome == Rejected(ErrorOf(RefreshRequest, refresh))
      && location == (if inBrowser then Some(LoginPage) else None)
  }

  /**
   * The interceptor's error handler, for the failed request `error.config`
   * whose successor is request number `clock`. It returns the requests it
   * sent itself.
   */
  method OnRejected<D>(error: ApiError, transport: (RequestConfig, nat) -> Answer<D>, clock: nat, inBrowser: bool)
    returns (outcome: Outcome<D>, sent: seq<RequestConfig>, location: Option<string>)
    decreases RetryBudget(error.config), 0
    ensures !Refreshes(error) ==> outcome == Rejected(error) && sent == [] && location == None
    ensures Refreshes(error) ==> AfterRefresh(error.config, transport, clock, inBrowser, outcome, sent, location)
  {
    var requestUrl := error.config.url;
    var shouldNotRefresh := ShouldNotRefresh(requestUrl);
    if error.status == Some(401) && !error.config.retry && !shouldNotRefresh {
      var originalRequest := error.config.(retry := true);
      RefreshUrlExcluded();
      var refreshed, refreshSent, _ := Send(RefreshRequest, transport, clock, inBrowser);
      assert refreshSent == [RefreshRequest];
      assert refreshed == Settle(RefreshRequest, transport(RefreshRequest, clock));
      if refreshed.Resolved? {
        var retrySent;
        outcome, retrySent, location := Send(originalRequest, transport, clock + 1, inBrowser);
        assert ShouldNotRefresh(originalRequest.url) == shouldNotRefresh;
        assert retrySent == [originalRequest] && location == None;
        sent := refreshSent + retrySent;
      } else {
        location := if inBrowser then Some(LoginPage) else None;
        outcome, sent := refreshed, refreshSent;
      }
    } else {
      outcome, sent, location := Rejected(error), [], None;
    }
  }

}
