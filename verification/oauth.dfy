/** The authenticated channel (internal/reddit/oauth.go): the credential gate,
    the token lifecycle and the OAuth search. Token-endpoint exchanges are given
    as already-classified replies. Locking is modelled only where it decides
    whether a call returns: `EnsureValidTokenAsWritten`. */
module OAuth {
  import opened Wrappers
  import opened GoInt
  import opened RateLimit
  import opened Fetch

  /** The four settings read from the environment. */
  datatype Credentials = Credentials(clientId: string, clientSecret: string, username: string, password: string)

  /** The decoded body of a successful token-endpoint reply. */
  datatype TokenResponse = TokenResponse(accessToken: string, refreshToken: string, expiresIn: int)

  /** One POST to the token endpoint: no response, a non-200 status with its body,
      a 200 whose JSON failed to decode, or a decoded grant. */
  datatype TokenReply =
    | Unreachable(cause: string)
    | Rejected(status: int, body: string)
    | Undecodable(cause: string)
    | Granted(response: TokenResponse)

  /** The token state guarded by `tokenMutex`. */
  datatype Token = Token(access: string, refresh: string, expiry: Time)

  /** A constructed OAuth client: its credentials, token and its own limiter. */
  datatype Client = Client(creds: Credentials, token: Token, limiter: Limiter)

  /** Which grant a token request used. */
  datatype Grant = PasswordGrant | RefreshGrant

  const RenewalMargin: Duration := 5 * Minute

  /** All four credentials are set (an empty environment variable counts as unset). */
  predicate Configured(c: Credentials)
  {
    c.clientId != "" && c.clientSecret != "" && c.username != "" && c.password != ""
  }

  /** Outcome of one token-changing call: its error, if any, and the token afterwards. */
  datatype Renewal = Renewal(err: Option<string>, token: Token)

  /** `authenticate()` answered by `reply` at `now`: on a grant the access token,
      the refresh token (even an empty one) and the expiry are all replaced. */
  function Authenticate(t: Token, reply: TokenReply, now: Time): (r: Renewal)
    ensures r.err.None? <==> reply.Granted?
    ensures r.err.Some? ==> r.token == t
    ensures reply.Granted? ==> r.token == Token(reply.response.accessToken, reply.response.refreshToken,
                                                now + reply.response.expiresIn * Second)
  {
    match reply
    case Unreachable(cause) => Renewal(Some("auth request failed: " + cause), t)
    case Rejected(status, body) => Renewal(Some("auth failed with status " + Itoa(status) + ": " + body), t)
    case Undecodable(cause) => Renewal(Some("parse auth response: " + cause), t)
    case Granted(g) => Renewal(None, Token(g.accessToken, g.refreshToken, now + g.expiresIn * Second))
  }

  /** `refreshToken()` answered by `reply` at `now`: on a grant the access token and
      expiry are replaced; the refresh token only when the reply carries a new one. */
  function Refresh(t: Token, reply: TokenReply, now: Time): (r: Renewal)
    ensures r.err.None? <==> reply.Granted?
    ensures r.err.Some? ==> r.token == t
    ensures reply.Granted? ==>
      && r.token.access == reply.response.accessToken
      && r.token.expiry == now + reply.response.expiresIn * Second
      && r.token.refresh == (if reply.response.refreshToken == "" then t.refresh else reply.response.refreshToken)
  {
    match reply
    case Unreachable(cause) => Renewal(Some("refresh request failed: " + cause), t)
    case Rejected(status, body) => Renewal(Some("token refresh failed with status " + Itoa(status) + ": " + body), t)
    case Undecodable(cause) => Renewal(Some("parse refresh response: " + cause), t)
    case Granted(g) =>
      var refresh := if g.refreshToken != "" then g.refreshToken else t.refresh;
      Renewal(None, Token(g.accessToken, refresh, now + g.expiresIn * Second))
  }

  /** A refresh never loses a usable refresh token. */
  lemma RefreshKeepsRefreshToken(t: Token, reply: TokenReply, now: Time)
    requires t.refresh != ""
    ensures Refresh(t, reply, now).token.refresh != ""
  {
  }

  /** The read-locked test: a token exists and more than five minutes remain. */
  predicate Fresh(t: Token, now: Time)
  {
    t.access != "" && now < t.expiry - RenewalMargin
  }

  /** The write-locked recheck still calls for a renewal (it uses `After`, not `!Before`). */
  predicate StillStale(t: Token, now: Time)
  {
    t.access == "" || now > t.expiry - RenewalMargin
  }

  /** Outcome of `ensureValidToken`: the error, the token and the token requests made. */
  datatype Ensured = Ensured(err: Option<string>, token: Token, requests: seq<Grant>)

  /** `ensureValidToken()` at `now`. Both clock readings are taken as the same instant.
      `refreshReply` and `authReply` answer the refresh and password requests if made. */
  function EnsureValidToken(t: Token, now: Time, refreshReply: TokenReply, authReply: TokenReply): (e: Ensured)
    ensures e.requests == [] <==> t.access != "" && now <= t.expiry - RenewalMargin
    ensures e.requests == [] ==> e.err.None? && e.token == t
    ensures |e.requests| > 0 && t.refresh != "" ==> e.requests[0] == RefreshGrant
    ensures |e.requests| > 0 && t.refresh == "" ==>
      e.requests == [PasswordGrant] && e.err == Authenticate(t, authReply, now).err
    ensures e.requests == [RefreshGrant] ==>
      e.err.None? && refreshReply.Granted? && e.token == Refresh(t, refreshReply, now).token
    ensures e.requests == [PasswordGrant] ==> e.token == Authenticate(t, authReply, now).token
    ensures e.requests == [RefreshGrant, PasswordGrant] ==>
      !refreshReply.Granted? && Renewal(e.err, e.token) == Authenticate(t, authReply, now)
    ensures |e.requests| <= 2
    ensures |e.requests| == 2 ==> e.requests == [RefreshGrant, PasswordGrant]
  {
    if Fresh(t, now) || !StillStale(t, now) then Ensured(None, t, [])
    else if t.refresh != "" then
      var r := Refresh(t, refreshReply, now);
      if r.err.None? then Ensured(None, r.token, [RefreshGrant])
      else
        var a := Authenticate(r.token, authReply, now);
        Ensured(a.err, a.token, [RefreshGrant, PasswordGrant])
    else
      var a := Authenticate(t, authReply, now);
      Ensured(a.err, a.token, [PasswordGrant])
  }

  /** How `ensureValidToken()` as written ends: it returns its outcome, or it never
      returns after making the given token requests. */
  datatype Ending = Returned(ensured: Ensured) | Hung(requests: seq<Grant>)

  /** `ensureValidToken()` as written. The renewal runs while the method holds
      `tokenMutex` for writing (oauth.go:223-224), and `refreshToken()` and
      `authenticate()` take the same lock again before storing a granted token
      (oauth.go:202 and 155). `sync.RWMutex` is not re-entrant, so a granted
      renewal blocks its own goroutine for good; only renewals whose every grant
      fails return. */
  function EnsureValidTokenAsWritten(t: Token, now: Time, refreshReply: TokenReply, authReply: TokenReply): (o: Ending)
    ensures o.Hung? <==> !(t.access != "" && now <= t.expiry - RenewalMargin)
                         && ((t.refresh != "" && refreshReply.Granted?) || authReply.Granted?)
    ensures o.Returned? ==> o.ensured.requests == [] || o.ensured.err.Some?
  {
    if Fresh(t, now) || !StillStale(t, now) then Returned(Ensured(None, t, []))
    else if t.refresh != "" then
      var r := Refresh(t, refreshReply, now);
      if r.err.None? then Hung([RefreshGrant])
      else
        var a := Authenticate(r.token, authReply, now);
        if a.err.None? then Hung([RefreshGrant, PasswordGrant])
        else Returned(Ensured(a.err, a.token, [RefreshGrant, PasswordGrant]))
    else
      var a := Authenticate(t, authReply, now);
      if a.err.None? then Hung([PasswordGrant]) else Returned(Ensured(a.err, a.token, [PasswordGrant]))
  }

  /** The code as written and the corrected `EnsureValidToken` make the same
      requests; the former returns exactly when no renewal is needed or every
      grant fails, and then with the same outcome. */
  lemma AsWrittenHangsOnEveryGrant(t: Token, now: Time, refreshReply: TokenReply, authReply: TokenReply)
    ensures var o := EnsureValidTokenAsWritten(t, now, refreshReply, authReply);
            var e := EnsureValidToken(t, now, refreshReply, authReply);
            && (o.Returned? <==> e.requests == [] || e.err.Some?)
            && (o.Returned? ==> o.ensured == e)
            && (o.Hung? ==> o.requests == e.requests)
  {
  }

  /** A token with four minutes left and no refresh token: the password grant
      succeeds, and the code as written never returns, where the corrected
      renewal stores the granted token. */
  lemma GrantedRenewalHangs(expiry: Time)
    ensures var t := Token("a", "", expiry);
            var grant := Granted(TokenResponse("b", "", 3600));
            && EnsureValidTokenAsWritten(t, expiry - 4 * Minute, grant, grant) == Hung([PasswordGrant])
            && EnsureValidToken(t, expiry - 4 * Minute, grant, grant)
               == Ensured(None, Token("b", "", expiry - 4 * Minute + 3600 * Second), [PasswordGrant])
  {
  }

  /** A token more than five minutes from expiry triggers no request; one inside
      the margin (4 minutes left, say) triggers exactly one refresh first when a
      refresh token is held. */
  lemma RenewalSchedule(t: Token, now: Time, refreshReply: TokenReply, authReply: TokenReply)
    ensures Fresh(t, now) ==> EnsureValidToken(t, now, refreshReply, authReply).requests == []
    ensures t.access != "" && t.refresh != "" && now == t.expiry - 4 * Minute ==>
      EnsureValidToken(t, now, refreshReply, authReply).requests[0] == RefreshGrant
  {
  }

  /** After a renewal that grants more than five minutes, the next check at the
      same instant makes no request: renewal is not repeated. */
  lemma RenewalSettles(t: Token, now: Time, refreshReply: TokenReply, authReply: TokenReply,
                       r2: TokenReply, a2: TokenReply)
    requires refreshReply.Granted? ==> refreshReply.response.accessToken != "" && refreshReply.response.expiresIn > 300
    requires authReply.Granted? ==> authReply.response.accessToken != "" && authReply.response.expiresIn > 300
    ensures var e := EnsureValidToken(t, now, refreshReply, authReply);
            e.err.None? ==> EnsureValidToken(e.token, now, r2, a2).requests == []
  {
  }

  /** `IsAvailable()`: a token exists and has not expired (no five-minute margin). */
  predicate IsAvailable(t: Token, now: Time)
  {
    t.access != "" && now < t.expiry
  }

  /** A fresh token is available; the converse fails inside the margin. */
  lemma FreshIsAvailable(t: Token, now: Time)
    ensures Fresh(t, now) ==> IsAvailable(t, now)
    ensures t.access != "" && t.expiry - RenewalMargin <= now < t.expiry ==> IsAvailable(t, now) && !Fresh(t, now)
  {
  }

  /** `NewOAuthClient()` given the environment `creds`, answered by `authReply` at `now`.
      Missing credentials give no client and no error; a failed first authentication
      gives an error; otherwise a client limited to 10 requests a minute. */
  function NewClient(creds: Credentials, authReply: TokenReply, now: Time): (r: Result<Option<Client>>)
    ensures !Configured(creds) ==> r == Ok(None)
    ensures Configured(creds) && !authReply.Granted? ==> r.Err?
    ensures Configured(creds) && authReply.Granted? ==>
      && r.Ok? && r.value.Some?
      && r.value.value.creds == creds
      && r.value.value.token == Authenticate(Token("", "", 0), authReply, now).token
      && r.value.value.limiter == NewLimiter(OAuthRequestsPerMinute)
  {
    if !Configured(creds) then Ok(None)
    else
      var a := Authenticate(Token("", "", 0), authReply, now);
      if a.err.Some? then Err("OAuth authentication failed: " + a.err.value)
      else Ok(Some(Client(creds, a.token, NewLimiter(OAuthRequestsPerMinute))))
  }

  /** The User-Agent the OAuth channel sends, built from the configured username. */
  function OAuthUserAgent(creds: Credentials): UserAgentHeader
  {
    OAuthApp(creds.username)
  }

  /** The outcome of an OAuth search request once sent; no captcha check. */
  function OAuthOutcome(reply: Reply, decode: Decoder): Result<seq<SearchResult>>
  {
    match reply
    case NoResponse(cause) => Err("search request failed: " + cause)
    case Response(status, body, readError) =>
      if status != 200 then Err("OAuth search failed with status " + Itoa(status) + ": " + body)
      else if readError.Some? then Err("read response: " + readError.value)
      else match decode(body)
        case Err(cause) => Err("parse search response: " + cause)
        case Ok(posts) => Ok(MediaOnly(posts))
  }

  /** Result of `OAuthClient.Search`: the search outcome, the client afterwards and
      the token requests made while validating the token. */
  datatype OAuthSearched = OAuthSearched(searched: Searched, client: Client, tokenRequests: seq<Grant>, sent: bool)

  /** `OAuthClient.Search` at `now`: waits on the limiter first, then validates the
      token (at the clock after the sleep); a validation failure is wrapped and no
      search request is sent. The limiter's captcha state is never touched. */
  function OAuthSearch(c: Client, now: Time, query: string, limit: int, matchTime: Time,
                       refreshReply: TokenReply, authReply: TokenReply,
                       reply: Reply, decode: Decoder): (s: OAuthSearched)
    ensures s.searched.slept >= 0
    ensures s.client.limiter == c.limiter.(lastRequest := Some(now + s.searched.slept))
    ensures c.limiter.lastRequest.Some? ==>
      s.client.limiter.lastRequest.value - c.limiter.lastRequest.value >= CurrentInterval(c.limiter, now)
    ensures s.client.limiter.captchaCount == c.limiter.captchaCount
    ensures s.client.creds == c.creds
    ensures var e := EnsureValidToken(c.token, now + s.searched.slept, refreshReply, authReply);
            && s.tokenRequests == e.requests
            && s.client.token == e.token
            && (s.sent <==> e.err.None?)
            && (e.err.Some? ==> s.searched.result == Err("token validation failed: " + e.err.value))
    ensures s.sent ==> s.searched.request == Request(query, limit, WindowStart(matchTime), WindowEnd(matchTime), OAuthUserAgent(c.creds))
    ensures s.sent ==> (s.searched.result.Ok? <==>
      reply.Response? && reply.status == 200 && reply.readError.None? && decode(reply.body).Ok?)
    ensures s.sent && s.searched.result.Ok? ==> s.searched.result.value == MediaOnly(decode(reply.body).value)
  {
    var w := Wait(c.limiter, now);
    var at := now + w.slept;
    var e := EnsureValidToken(c.token, at, refreshReply, authReply);
    var c' := c.(token := e.token, limiter := w.limiter);
    var request := Request(query, limit, WindowStart(matchTime), WindowEnd(matchTime), OAuthUserAgent(c.creds));
    if e.err.Some? then
      OAuthSearched(Searched(Err("token validation failed: " + e.err.value), w.limiter, request, w.slept), c', e.requests, false)
    else
      OAuthSearched(Searched(OAuthOutcome(reply, decode), w.limiter, request, w.slept), c', e.requests, true)
  }
}
