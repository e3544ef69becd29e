/**
 * OAuth2 token lifecycle (services/auth.py): the in-memory current token,
 * the staleness checks, the start-up decision, token requests and one
 * iteration of the background refresh loop.
 */
module Auth {
  import opened Wrappers
  import opened Json
  import opened Http
  import opened Crypto
  import opened Tasks
  import opened Database
  import opened TokenStorage
  import opened FirebaseConfig

  /** A token closer than this to its expiry counts as not authenticated. */
  const RefreshBufferSeconds: int := 600
  /** The refresh loop never sleeps less than this. */
  const MinRefreshIntervalSeconds: int := 60
  /** Lifetime assumed when the token response has no `expires_in`. */
  const DefaultExpiresIn: int := 86400
  /** Wait after a failed refresh, and while there is no token. */
  const RefreshRetrySeconds: int := 60

  /** The exception `get_auth_header` raises when there is no usable token. */
  const NotAuthenticated: Error := RuntimeError("Nicht authentifiziert.")

  /**
   * A token response body the request code turns into a token: an object
   * with a string `access_token`, and, when present, an integer
   * `expires_in`, a string `token_type` and a string or null `refresh_token`.
   */
  predicate WellFormedTokenBody(data: Json) {
    && data.JObj?
    && Has(data, "access_token") && data.fields["access_token"].JStr?
    && (!Has(data, "expires_in") || data.fields["expires_in"].JInt?)
    && (!Has(data, "token_type") || data.fields["token_type"].JStr?)
    && (Get(data, "refresh_token").JNull? || Get(data, "refresh_token").JStr?)
  }

  /**
   * The token built from a 200 response body, passing the response's
   * refresh token (None when absent) to `TokenData`: it expires
   * `expires_in` seconds after `now` (86400 by default), has type "Bearer"
   * by default and is created at `now`.
   */
  function TokenFromResponse(data: Json, now: int): (r: Result<TokenData>)
    ensures r.Ok? <==> WellFormedTokenBody(data)
    ensures r.Ok? ==> JStr(r.value.accessToken) == data.fields["access_token"]
    ensures r.Ok? ==> r.value.expiresAt == now + (if Has(data, "expires_in") then data.fields["expires_in"].i else DefaultExpiresIn)
    ensures r.Ok? ==> r.value.tokenType == (if Has(data, "token_type") then data.fields["token_type"].s else "Bearer")
    ensures r.Ok? ==> r.value.refreshToken == (if Get(data, "refresh_token").JStr? then Some(data.fields["refresh_token"].s) else None)
    ensures r.Ok? ==> r.value.createdAt == now
  {
    if !data.JObj? then Err(AttributeError("get"))
    else
      var expiresIn := GetOr(data, "expires_in", JInt(DefaultExpiresIn));
      if !expiresIn.JInt? then Err(TypeError("unsupported type for timedelta seconds component"))
      else if !Has(data, "access_token") then Err(KeyError("access_token"))
      else
        var access := data.fields["access_token"];
        var tokenType := GetOr(data, "token_type", JStr("Bearer"));
        var refresh := Get(data, "refresh_token");
        if !access.JStr? || !tokenType.JStr? || !(refresh.JNull? || refresh.JStr?) then
          Err(TypeError("token fields must be strings"))
        else
          Ok(NewTokenData(access.s, if refresh.JStr? then Some(refresh.s) else None,
                          tokenType.s, now + expiresIn.i, None, now))
  }

  /**
   * The same step as the source writes it: `TokenData(...)` is called
   * without its required positional `refresh_token`, so once the body has
   * been read the call raises TypeError.
   */
  function TokenFromResponseAsWritten(data: Json, now: int): (r: Result<TokenData>)
    ensures r.Err?
    ensures WellFormedTokenBody(data) ==> r.error.TypeError?
  {
    if !data.JObj? then Err(AttributeError("get"))
    else
      var expiresIn := GetOr(data, "expires_in", JInt(DefaultExpiresIn));
      if !expiresIn.JInt? then Err(TypeError("unsupported type for timedelta seconds component"))
      else if !Has(data, "access_token") then Err(KeyError("access_token"))
      else Err(TypeError("__init__() missing 1 required positional argument: 'refresh_token'"))
  }

  /**
   * The discrepancy: for every well-formed 200 body the written code raises
   * where the intended code yields a token.  The body
   * {"access_token": "a"} is one such input.
   */
  lemma TokenRequestAsWrittenAlwaysRaises(data: Json, now: int)
    requires WellFormedTokenBody(data)
    ensures TokenFromResponse(data, now).Ok?
    ensures TokenFromResponseAsWritten(data, now).Err?
  {
  }

  lemma MinimalTokenBodyExample(now: int)
    ensures TokenFromResponse(JObj(map["access_token" := JStr("a")]), now)
            == Ok(TokenData("a", None, "Bearer", now + DefaultExpiresIn, now))
    ensures TokenFromResponseAsWritten(JObj(map["access_token" := JStr("a")]), now).Err?
  {
    var data := JObj(map["access_token" := JStr("a")]);
    assert !Has(data, "expires_in") && !Has(data, "token_type") && Get(data, "refresh_token") == JNull;
  }

  /**
   * What `_request_new_token` obtains once the credentials are resolved and
   * the token endpoint has answered: the credential error; a TypeError when
   * the username cannot be sliced for the log line; the transport error; a
   * RuntimeError for any status but 200; otherwise the token read from the
   * body.
   */
  function TokenRequestResult(credentials: Result<Credentials>, tokenReply: Reply, now: int): (r: Result<TokenData>)
    ensures r.Ok? <==>
      credentials.Ok? && (credentials.value.username.JStr? || credentials.value.username.JArr?) &&
      tokenReply.Ok? && tokenReply.value.status == 200 && WellFormedTokenBody(tokenReply.value.body)
    ensures r.Ok? ==> r == TokenFromResponse(tokenReply.value.body, now)
    ensures credentials.Err? ==> r == Err(credentials.error)
    ensures credentials.Ok? && (credentials.value.username.JStr? || credentials.value.username.JArr?) ==>
      (tokenReply.Err? ==> r == Err(tokenReply.error)) &&
      (tokenReply.Ok? && tokenReply.value.status != 200 ==> r == Err(RuntimeError("Token Request fehlgeschlagen")))
  {
    if credentials.Err? then Err(credentials.error)
    else if !(credentials.value.username.JStr? || credentials.value.username.JArr?) then
      Err(TypeError("object is not subscriptable"))
    else if tokenReply.Err? then Err(tokenReply.error)
    else if tokenReply.value.status != 200 then Err(RuntimeError("Token Request fehlgeschlagen"))
    else TokenFromResponse(tokenReply.value.body, now)
  }

  /**
   * The refresh loop's sleep before renewing `t`:
   * `max(time_until_expiry - REFRESH_BUFFER, MIN_REFRESH_INTERVAL)`.
   */
  function RefreshDelay(t: TokenData, now: int): (d: int)
    ensures d >= MinRefreshIntervalSeconds
    ensures d >= t.expiresAt - now - RefreshBufferSeconds
    ensures d == MinRefreshIntervalSeconds || d == t.expiresAt - now - RefreshBufferSeconds
  {
    var untilStale := (t.expiresAt - now) - RefreshBufferSeconds;
    if untilStale > MinRefreshIntervalSeconds then untilStale else MinRefreshIntervalSeconds
  }

  /**
   * The loop wakes once the token has become stale, and that is the
   * earliest wake-up at least the minimum interval away with that property.
   */
  lemma RefreshDelayIsEarliestStaleWake(t: TokenData, now: int, w: int)
    ensures IsExpired(t, RefreshBufferSeconds, now + RefreshDelay(t, now))
    ensures w >= MinRefreshIntervalSeconds && IsExpired(t, RefreshBufferSeconds, now + w) ==> RefreshDelay(t, now) <= w
  {
  }

  /** `get_status`. */
  datatype AuthStatus = AuthStatus(authenticated: bool, expiresAt: Option<int>, createdAt: Option<int>)

  /** `AuthService`. */
  class AuthService {
    const storage: TokenStorage
    const firebase: FirebaseConfigService
    const db: Database
    var currentToken: Option<TokenData>
    var refreshTask: Slot

    constructor (s: TokenStorage, f: FirebaseConfigService, d: Database)
      ensures storage == s && firebase == f && db == d
      ensures currentToken == None && refreshTask == Empty
    {
      storage, firebase, db := s, f, d;
      currentToken := None;
      refreshTask := Empty;
    }

    /** `is_authenticated`: a token is held and is not within 600 s of expiry. */
    predicate IsAuthenticated(now: int)
      reads this
      ensures IsAuthenticated(now) <==> currentToken.Some? && currentToken.value.expiresAt - now > RefreshBufferSeconds
    {
      currentToken.Some? && !IsExpired(currentToken.value, RefreshBufferSeconds, now)
    }

    /** `access_token`: the held token while it is not within the default 300 s of expiry. */
    function AccessToken(now: int): (r: Option<string>)
      reads this
      ensures r.Some? <==> currentToken.Some? && !IsExpired(currentToken.value, DefaultExpiryBuffer, now)
      ensures r.Some? ==> r.value == currentToken.value.accessToken
    {
      if currentToken.Some? && !IsExpired(currentToken.value, DefaultExpiryBuffer, now) then
        Some(currentToken.value.accessToken)
      else None
    }

    /** Authentication (600 s buffer) implies a returned access token (300 s buffer). */
    lemma AuthenticatedHasAccessToken(now: int)
      requires IsAuthenticated(now)
      ensures AccessToken(now) == Some(currentToken.value.accessToken)
    {
    }

    /**
     * `get_auth_header`: raises when there is no access token or it is
     * empty; otherwise the single `jwtauthorization` header.
     */
    function GetAuthHeader(now: int): (r: Result<map<string, string>>)
      reads this
      ensures r.Err? <==> AccessToken(now).None? || AccessToken(now) == Some("")
      ensures r.Err? ==> r.error == NotAuthenticated
      ensures r.Ok? ==> r.value.Keys == {"jwtauthorization"} &&
                        r.value["jwtauthorization"] == "Bearer " + currentToken.value.accessToken
      ensures r.Ok? ==> r.value == map["jwtauthorization" := "Bearer " + currentToken.value.accessToken]
    {
      match AccessToken(now)
      case None => Err(NotAuthenticated)
      case Some(token) =>
        if token == "" then Err(NotAuthenticated)
        else Ok(map["jwtauthorization" := "Bearer " + token])
    }

    /** `get_status`. */
    function GetStatus(now: int): (r: AuthStatus)
      reads this
      ensures r.authenticated == IsAuthenticated(now)
      ensures r.expiresAt.Some? <==> currentToken.Some?
      ensures currentToken.Some? ==> r.expiresAt == Some(currentToken.value.expiresAt) &&
                                     r.createdAt == Some(currentToken.value.createdAt)
    {
      match currentToken
      case None => AuthStatus(false, None, None)
      case Some(t) => AuthStatus(IsAuthenticated(now), Some(t.expiresAt), Some(t.createdAt))
    }

    /**
     * `_request_new_token`: resolve credentials, post the client-credentials
     * grant (its reply is `tokenReply`), adopt the new token and persist it.
     * The token is adopted before the save, so a failing save raises with
     * the new token already held.
     */
    method RequestNewToken(now: int, p: Primitives, random: Bytes, configReply: Reply, tokenReply: Reply)
      returns (o: Outcome)
      modifies this, firebase, db
      ensures refreshTask == old(refreshTask)
      ensures db.initialised == old(db.initialised) && db.cache == old(db.cache)
      ensures firebase.cachedCredentials == CachedCredentialsAfter(old(firebase.cachedCredentials), false, firebase.settings, p, configReply)
      ensures var req := TokenRequestResult(
                CredentialsResult(old(firebase.cachedCredentials), false, firebase.settings, p, configReply), tokenReply, now);
        (o.Done? <==> req.Ok? && db.initialised) &&
        (req.Ok? && !db.initialised ==> o == Raised(NotInitialised)) &&
        (req.Ok? ==> currentToken == Some(req.value)) &&
        (req.Err? ==> o == Raised(req.error) && currentToken == old(currentToken) && db.tokens == old(db.tokens))
      ensures tokenReply.Err? || tokenReply.value.status != 200 ==>
        o.Raised? && currentToken == old(currentToken) && db.tokens == old(db.tokens)
      ensures currentToken != old(currentToken) || o.Done? ==>
        tokenReply.Ok? && tokenReply.value.status == 200 &&
        TokenFromResponse(tokenReply.value.body, now).Ok? &&
        currentToken == Some(TokenFromResponse(tokenReply.value.body, now).value)
      ensures o.Done? ==> db.tokens == Upserted(old(db.tokens), storage.key, currentToken.value)
      ensures o.Raised? && currentToken != old(currentToken) ==> !db.initialised && db.tokens == old(db.tokens)
      ensures o.Raised? && currentToken == old(currentToken) ==> db.tokens == old(db.tokens)
    {
      var credentials := firebase.GetDecryptedCredentials(false, p, random, configReply);
      if credentials.Err? {
        return Raised(credentials.error);
      }
      var username := credentials.value.username;
      if !(username.JStr? || username.JArr?) {
        // the log line slices `credentials['username'][:8]`
        return Raised(TypeError("object is not subscriptable"));
      }
      if tokenReply.Err? {
        return Raised(tokenReply.error);
      }
      if tokenReply.value.status != 200 {
        return Raised(RuntimeError("Token Request fehlgeschlagen"));
      }
      var token := TokenFromResponse(tokenReply.value.body, now);
      if token.Err? {
        return Raised(token.error);
      }
      currentToken := Some(token.value);
      o := storage.Save(db, token.value);
    }

    /** `_start_refresh_scheduler`: a no-op while the refresh task is running. */
    method StartRefreshScheduler()
      modifies this
      ensures refreshTask == Started(old(refreshTask))
      ensures refreshTask.Running()
      ensures old(refreshTask).Running() ==> refreshTask == old(refreshTask)
      ensures currentToken == old(currentToken)
    {
      if refreshTask.Running() {
        return;
      }
      refreshTask := Live(false);
    }

    /** `_stop_refresh_scheduler` (and `shutdown`): cancel and clear the task slot. */
    method StopRefreshScheduler()
      modifies this
      ensures refreshTask == Empty
      ensures currentToken == old(currentToken)
    {
      if refreshTask.Live? {
        refreshTask := Empty;
      }
    }

    /**
     * `initialize`: adopt a saved token that is not stale without any
     * request; otherwise request a new one.  Returns whether the service
     * is now set up; a failing load is raised, not reported as false.
     */
    method Initialize(now: int, p: Primitives, random: Bytes, configReply: Reply, tokenReply: Reply)
      returns (r: Result<bool>)
      modifies this, firebase, db
      ensures db.initialised == old(db.initialised) && db.cache == old(db.cache)
      ensures old(storage.Load(db)).Err? ==>
        firebase.cachedCredentials == old(firebase.cachedCredentials) && db.tokens == old(db.tokens) &&
        r == Err(NotInitialised) && currentToken == old(currentToken) && refreshTask == old(refreshTask)
      ensures var saved := old(storage.Load(db));
        saved.Ok? && saved.value.Some? && !IsExpired(saved.value.value, RefreshBufferSeconds, now) ==>
          r == Ok(true) && currentToken == saved.value && refreshTask == Started(old(refreshTask)) &&
          firebase.cachedCredentials == old(firebase.cachedCredentials) && db.tokens == old(db.tokens)
      ensures var saved := old(storage.Load(db));
        var req := TokenRequestResult(
          CredentialsResult(old(firebase.cachedCredentials), false, firebase.settings, p, configReply), tokenReply, now);
        saved.Ok? && (saved.value.None? || IsExpired(saved.value.value, RefreshBufferSeconds, now)) ==>
          r == Ok(req.Ok?) &&
          firebase.cachedCredentials == CachedCredentialsAfter(old(firebase.cachedCredentials), false, firebase.settings, p, configReply) &&
          (req.Ok? ==> currentToken == Some(req.value) && refreshTask == Started(old(refreshTask)) &&
                       db.tokens == Upserted(old(db.tokens), storage.key, req.value)) &&
          (req.Err? ==> currentToken == old(currentToken) && refreshTask == old(refreshTask) &&
                        db.tokens == old(db.tokens))
    {
      var saved := storage.Load(db);
      if saved.Err? {
        return Err(saved.error);
      }
      if saved.value.Some? && !IsExpired(saved.value.value, RefreshBufferSeconds, now) {
        currentToken := saved.value;
        StartRefreshScheduler();
        return Ok(true);
      }
      var o := RequestNewToken(now, p, random, configReply, tokenReply);
      if o.Raised? {
        return Ok(false);
      }
      StartRefreshScheduler();
      return Ok(true);
    }

    /**
     * One iteration of `_refresh_loop` started at `now`: without a token it
     * waits 60 s; otherwise it sleeps `RefreshDelay`, requests a new token
     * at the wake-up time, and waits a further 60 s when that fails.
     * Returns the total time slept.
     */
    method RefreshLoopStep(now: int, p: Primitives, random: Bytes, configReply: Reply, tokenReply: Reply)
      returns (slept: int)
      modifies this, firebase, db
      ensures slept >= MinRefreshIntervalSeconds
      ensures refreshTask == old(refreshTask)
      ensures db.initialised == old(db.initialised) && db.cache == old(db.cache)
      ensures old(currentToken).None? ==>
        slept == RefreshRetrySeconds && currentToken == old(currentToken) && db.tokens == old(db.tokens) &&
        firebase.cachedCredentials == old(firebase.cachedCredentials)
      ensures old(currentToken).Some? ==>
        var d := RefreshDelay(old(currentToken).value, now);
        var req := TokenRequestResult(
          CredentialsResult(old(firebase.cachedCredentials), false, firebase.settings, p, configReply), tokenReply, now + d);
        (slept == d || slept == d + RefreshRetrySeconds) &&
        (slept == d <==> req.Ok? && db.initialised) &&
        firebase.cachedCredentials == CachedCredentialsAfter(old(firebase.cachedCredentials), false, firebase.settings, p, configReply) &&
        (req.Ok? ==> currentToken == Some(req.value)) &&
        (req.Ok? && db.initialised ==> db.tokens == Upserted(old(db.tokens), storage.key, req.value)) &&
        (req.Ok? && !db.initialised ==> db.tokens == old(db.tokens)) &&
        (req.Err? ==> currentToken == old(currentToken) && db.tokens == old(db.tokens))
    {
      if currentToken.None? {
        return RefreshRetrySeconds;
      }
      var d := RefreshDelay(currentToken.value, now);
      var o := RequestNewToken(now + d, p, random, configReply, tokenReply);
      if o.Raised? {
        return d + RefreshRetrySeconds;
      }
      return d;
    }
  }
}
