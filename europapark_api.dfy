/**
 * The authenticated upstream client (services/europapark_api.py): one
 * request, renewed and retried exactly once when the first answer is 401,
 * and the five fixed endpoints the cache pulls.
 */
module EuropaparkApi {
  import opened Wrappers
  import opened Json
  import opened Http
  import opened Config
  import opened Crypto
  import opened Database
  import opened TokenStorage
  import opened FirebaseConfig
  import opened Auth

  /** The exception raised when the client holds no fresh token. */
  const NotAuthenticatedForRequest: Error := RuntimeError("Nicht authentifiziert")

  /** A request as it leaves the client. */
  datatype Call = Call(url: string, params: map<string, string>, headers: map<string, string>)

  /** `{**auth_header, "Accept": ..., "Accept-Language": ..., "User-Agent": ...}`. */
  function RequestHeaders(auth: map<string, string>, appVersion: string): (h: map<string, string>)
    ensures h.Keys == auth.Keys + {"Accept", "Accept-Language", "User-Agent"}
    ensures forall k :: k in auth && k !in {"Accept", "Accept-Language", "User-Agent"} ==> h[k] == auth[k]
    ensures h["User-Agent"] == "EuropaParkApp/" + appVersion + " (Android)"
  {
    auth + map["Accept" := "application/json",
                "Accept-Language" := "de",
                "User-Agent" := "EuropaParkApp/" + appVersion + " (Android)"]
  }

  /**
   * The result the client draws from the answer it acts on: the transport
   * error, the body of a 200, and `ApiError` for every other status.
   */
  function AnswerOf(reply: Reply): (r: Result<Json>)
    ensures reply.Err? ==> r == Err(reply.error)
    ensures reply.Ok? ==> r == (if reply.value.status == 200 then Ok(reply.value.body) else Err(ApiError(reply.value.status)))
    ensures r.Ok? ==> reply == Ok(Response(200, r.value))
  {
    match reply
    case Err(e) => Err(e)
    case Ok(response) => if response.status == 200 then Ok(response.body) else Err(ApiError(response.status))
  }

  /**
   * What the renewal inside `europapark_request` obtains: a token request
   * with the credentials the config service resolves from its cache.
   */
  function RenewalResult(cached: Option<Credentials>, s: Settings, p: Primitives, configReply: Reply, tokenReply: Reply,
                         now: int): Result<TokenData>
  {
    TokenRequestResult(CredentialsResult(cached, false, s, p, configReply), tokenReply, now)
  }

  /**
   * `europapark_request(endpoint, params=params)` at time `now`.  `first`
   * and `second` are what the upstream answers to the first and (if made)
   * the second request; `configReply` and `tokenReply` serve the token
   * renewal.  Returns the result, the requests sent and the number of
   * renewals.
   */
  method EuropaparkRequest(auth: AuthService, settings: Settings, endpoint: string, params: map<string, string>,
                           now: int, p: Primitives, random: Bytes, configReply: Reply, tokenReply: Reply,
                           first: Reply, second: Reply)
    returns (r: Result<Json>, calls: seq<Call>, renewals: nat)
    modifies auth, auth.firebase, auth.db
    ensures |calls| <= 2 && renewals <= 1
    ensures forall i :: 0 <= i < |calls| ==> calls[i].url == settings.apiBase + endpoint && calls[i].params == params
    // no request at all without a fresh token
    ensures !old(auth.IsAuthenticated(now)) ==>
      r == Err(NotAuthenticatedForRequest) && calls == [] && renewals == 0 && auth.currentToken == old(auth.currentToken)
    // a fresh token with a usable header is always sent; an empty one raises unsent
    ensures old(auth.IsAuthenticated(now)) && old(auth.GetAuthHeader(now)).Ok? ==> |calls| >= 1
    ensures old(auth.IsAuthenticated(now)) && old(auth.GetAuthHeader(now)).Err? ==>
      r == Err(old(auth.GetAuthHeader(now)).error) && calls == [] && renewals == 0
    // the first request carries the held token
    ensures |calls| >= 1 ==>
      old(auth.IsAuthenticated(now)) &&
      calls[0].headers == RequestHeaders(map["jwtauthorization" := "Bearer " + old(auth.currentToken).value.accessToken], settings.appVersion)
    // a renewal happens exactly when the first request was answered 401
    ensures renewals == 1 <==> |calls| >= 1 && first.Ok? && first.value.status == 401
    // the retry follows a renewal and carries the renewed token
    ensures |calls| == 2 ==>
      renewals == 1 && auth.currentToken.Some? &&
      calls[1].headers == RequestHeaders(map["jwtauthorization" := "Bearer " + auth.currentToken.value.accessToken], settings.appVersion)
    // any other first answer is final: no renewal and no retry
    ensures |calls| >= 1 && !(first.Ok? && first.value.status == 401) ==>
      |calls| == 1 && renewals == 0 && auth.currentToken == old(auth.currentToken) && r == AnswerOf(first)
    // after the retry its answer decides
    ensures |calls| == 2 ==> r == AnswerOf(second)
    // a body is returned only from a 200 answer to the last request sent
    ensures r.Ok? ==>
      (|calls| == 1 && first == Ok(Response(200, r.value))) || (|calls| == 2 && second == Ok(Response(200, r.value)))
    // on a first 401 the token is renewed, and the request is repeated
    // exactly when the renewal yields a token that is saved and usable
    ensures |calls| >= 1 && first.Ok? && first.value.status == 401 ==>
      var req := RenewalResult(old(auth.firebase.cachedCredentials), auth.firebase.settings, p, configReply, tokenReply, now);
      && (|calls| == 2 <==> req.Ok? && auth.db.initialised && auth.GetAuthHeader(now).Ok?)
      && (req.Ok? ==> auth.currentToken == Some(req.value))
      && (req.Ok? && auth.db.initialised ==> auth.db.tokens == Upserted(old(auth.db.tokens), auth.storage.key, req.value))
      && (req.Ok? && !auth.db.initialised ==> r == Err(NotInitialised) && auth.db.tokens == old(auth.db.tokens))
      && (req.Ok? && auth.db.initialised && auth.GetAuthHeader(now).Err? ==> r == Err(NotAuthenticated))
      && (req.Err? ==> r == Err(req.error) && auth.currentToken == old(auth.currentToken) && auth.db.tokens == old(auth.db.tokens))
    // without a renewal neither the token, its row nor the credential cache changes
    ensures renewals == 0 ==>
      auth.currentToken == old(auth.currentToken) && auth.db.tokens == old(auth.db.tokens) &&
      auth.firebase.cachedCredentials == old(auth.firebase.cachedCredentials)
    ensures auth.db.initialised == old(auth.db.initialised) && auth.db.cache == old(auth.db.cache)
    ensures auth.refreshTask == old(auth.refreshTask)
  {
    if !auth.IsAuthenticated(now) {
      return Err(NotAuthenticatedForRequest), [], 0;
    }
    var url := settings.apiBase + endpoint;
    auth.AuthenticatedHasAccessToken(now);
    var header := auth.GetAuthHeader(now);
    if header.Err? {
      // an empty access token
      return Err(header.error), [], 0;
    }
    var firstCall := Call(url, params, RequestHeaders(header.value, settings.appVersion));
    if !(first.Ok? && first.value.status == 401) {
      return AnswerOf(first), [firstCall], 0;
    }
    r, calls := RenewAndRetry(auth, settings, firstCall, now, p, random, configReply, tokenReply, second);
    renewals := 1;
  }

  /**
   * The 401 branch of `europapark_request`: renew the token, then repeat
   * the request with the renewed header (`second` is its answer).  A failed
   * renewal, or a renewed token that is already stale or empty, ends the
   * request with that error and no repeat.
   */
  method RenewAndRetry(auth: AuthService, settings: Settings, firstCall: Call,
                       now: int, p: Primitives, random: Bytes, configReply: Reply, tokenReply: Reply, second: Reply)
    returns (r: Result<Json>, calls: seq<Call>)
    modifies auth, auth.firebase, auth.db
    ensures auth.refreshTask == old(auth.refreshTask)
    ensures auth.db.initialised == old(auth.db.initialised) && auth.db.cache == old(auth.db.cache)
    ensures auth.firebase.cachedCredentials ==
      CachedCredentialsAfter(old(auth.firebase.cachedCredentials), false, auth.firebase.settings, p, configReply)
    ensures |calls| == 1 || |calls| == 2
    ensures calls[0] == firstCall
    ensures forall i :: 0 <= i < |calls| ==> calls[i].url == firstCall.url && calls[i].params == firstCall.params
    ensures var req := RenewalResult(old(auth.firebase.cachedCredentials), auth.firebase.settings, p, configReply, tokenReply, now);
      && (|calls| == 2 <==> req.Ok? && auth.db.initialised && auth.GetAuthHeader(now).Ok?)
      && (req.Ok? ==> auth.currentToken == Some(req.value))
      && (req.Ok? && auth.db.initialised ==> auth.db.tokens == Upserted(old(auth.db.tokens), auth.storage.key, req.value))
      && (req.Ok? && !auth.db.initialised ==> r == Err(NotInitialised) && auth.db.tokens == old(auth.db.tokens))
      && (req.Ok? && auth.db.initialised && auth.GetAuthHeader(now).Err? ==> r == Err(NotAuthenticated))
      && (req.Err? ==> r == Err(req.error) && auth.currentToken == old(auth.currentToken) && auth.db.tokens == old(auth.db.tokens))
    ensures |calls| == 1 ==> r.Err?
    ensures |calls| == 2 ==>
      auth.currentToken.Some? && r == AnswerOf(second) &&
      calls[1] == Call(firstCall.url, firstCall.params,
                       RequestHeaders(map["jwtauthorization" := "Bearer " + auth.currentToken.value.accessToken], settings.appVersion))
  {
    ghost var req := RenewalResult(auth.firebase.cachedCredentials, auth.firebase.settings, p, configReply, tokenReply, now);
    var renewal := auth.RequestNewToken(now, p, random, configReply, tokenReply);
    assert (renewal.Done? <==> req.Ok? && auth.db.initialised) && (req.Ok? ==> auth.currentToken == Some(req.value));
    if renewal.Raised? {
      return Err(renewal.error), [firstCall];
    }
    var header := auth.GetAuthHeader(now);
    if header.Err? {
      return Err(header.error), [firstCall];
    }
    return AnswerOf(second), [firstCall, Call(firstCall.url, firstCall.params, RequestHeaders(header.value, settings.appVersion))];
  }

  /** The five upstream data sets the cache keeps. */
  datatype Dataset = WaitTimes | Pois | Seasons | OpeningTimes | ShowTimes

  /** The fixed path each endpoint wrapper requests. */
  function EndpointPath(d: Dataset): string {
    match d
    case WaitTimes => "/api/v2/waiting-times"
    case Pois => "/api/v2/poi-group"
    case Seasons => "/api/v2/seasons"
    case OpeningTimes => "/api/v2/season-opentime-details/europapark"
    case ShowTimes => "/api/v2/show-times"
  }

  /** The fixed query parameters each endpoint wrapper passes. */
  function EndpointParams(d: Dataset): map<string, string> {
    if d in {Pois, Seasons, ShowTimes} then map["status" := "live"] else map[]
  }

  /** Distinct data sets are fetched from distinct paths, and only three ask for live data. */
  lemma EndpointsAreDistinct(d: Dataset, e: Dataset)
    ensures d != e ==> EndpointPath(d) != EndpointPath(e)
    ensures EndpointParams(d) == map[] || EndpointParams(d) == map["status" := "live"]
    ensures "status" in EndpointParams(d) <==> d == Pois || d == Seasons || d == ShowTimes
  {
    if d != e {
      assert EndpointPath(d)[8] != EndpointPath(e)[8] || EndpointPath(d)[9] != EndpointPath(e)[9]
          || |EndpointPath(d)| != |EndpointPath(e)|;
    }
  }

  /**
   * `get_waiting_times`, `get_pois`, `get_seasons`, `get_opening_times`
   * and `get_show_times`: one request to the data set's fixed path.
   */
  method FetchDataset(d: Dataset, auth: AuthService, settings: Settings,
                      now: int, p: Primitives, random: Bytes, configReply: Reply, tokenReply: Reply,
                      first: Reply, second: Reply)
    returns (r: Result<Json>, calls: seq<Call>)
    modifies auth, auth.firebase, auth.db
    ensures |calls| <= 2
    ensures forall i :: 0 <= i < |calls| ==>
      calls[i].url == settings.apiBase + EndpointPath(d) && calls[i].params == EndpointParams(d)
    ensures !old(auth.IsAuthenticated(now)) ==> r == Err(NotAuthenticatedForRequest) && calls == []
    ensures old(auth.IsAuthenticated(now)) && old(auth.GetAuthHeader(now)).Ok? ==>
      |calls| >= 1 &&
      calls[0].headers == RequestHeaders(map["jwtauthorization" := "Bearer " + old(auth.currentToken).value.accessToken], settings.appVersion)
    ensures old(auth.IsAuthenticated(now)) && old(auth.GetAuthHeader(now)).Err? ==>
      r == Err(old(auth.GetAuthHeader(now)).error) && calls == []
    ensures |calls| >= 1 && !(first.Ok? && first.value.status == 401) ==>
      |calls| == 1 && auth.currentToken == old(auth.currentToken) && auth.db.tokens == old(auth.db.tokens) && r == AnswerOf(first)
    ensures |calls| == 2 ==>
      auth.currentToken.Some? && r == AnswerOf(second) &&
      calls[1].headers == RequestHeaders(map["jwtauthorization" := "Bearer " + auth.currentToken.value.accessToken], settings.appVersion)
    ensures |calls| >= 1 && first.Ok? && first.value.status == 401 ==>
      var req := RenewalResult(old(auth.firebase.cachedCredentials), auth.firebase.settings, p, configReply, tokenReply, now);
      && (|calls| == 2 <==> req.Ok? && auth.db.initialised && auth.GetAuthHeader(now).Ok?)
      && (req.Ok? ==> auth.currentToken == Some(req.value))
      && (req.Ok? && auth.db.initialised ==> auth.db.tokens == Upserted(old(auth.db.tokens), auth.storage.key, req.value))
      && (req.Ok? && !auth.db.initialised ==> r == Err(NotInitialised))
      && (req.Ok? && auth.db.initialised && auth.GetAuthHeader(now).Err? ==> r == Err(NotAuthenticated))
      && (req.Err? ==> r == Err(req.error) && auth.currentToken == old(auth.currentToken) && auth.db.tokens == old(auth.db.tokens))
    ensures auth.db.initialised == old(auth.db.initialised) && auth.db.cache == old(auth.db.cache)
  {
    var renewals;
    r, calls, renewals := EuropaparkRequest(auth, settings, EndpointPath(d), EndpointParams(d),
                                            now, p, random, configReply, tokenReply, first, second);
  }
}
