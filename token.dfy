/**
 * The credential logic of token.go with the clock reading, the token file
 * and the token endpoint's reply taken as inputs: when a stored access token
 * counts as expired, what the refresh form carries, and which record is
 * returned and persisted after a refresh.
 */
module Token {
  import opened Wrappers

  /** The application's client id (auth.go). */
  const ClientId: string := "59790544-ca0c-4b77-b338-26ff9d1b676f"

  /** Seconds before the nominal expiry at which a token is already treated as expired. */
  const SafetyMargin: int := 30

  /** The record kept in token.json. */
  datatype StoredToken = StoredToken(
    accessToken: string,
    refreshToken: string,
    expiresIn: int,
    tokenType: string,
    scope: string,
    obtainedAt: int)

  /** The decoded body of a token-endpoint reply; fields absent from the JSON are "" or 0. */
  datatype TokenResponse = TokenResponse(
    accessToken: string,
    refreshToken: string,
    tokenType: string,
    expiresIn: int,
    scope: string,
    error: string,
    errorDescription: string)

  /** What the refresh POST produced: a transport failure, or a body (decoded leniently). */
  datatype RefreshReply = RequestFailed | Replied(body: TokenResponse)

  /** The ways the client gives up; in token.go each prints a message and exits. */
  datatype TokenError = NoStoredToken | RefreshRequestFailed | RefreshRejected

  /** The instant from which the stored token is no longer used. */
  function ExpiresAt(t: StoredToken): int {
    t.obtainedAt + t.expiresIn - SafetyMargin
  }

  /** The refresh decision: strictly after the expiry instant. */
  predicate Expired(t: StoredToken, now: int) {
    now > ExpiresAt(t)
  }

  /** SaveToken: the record persisted for a token response obtained at `now`. */
  function SaveToken(resp: TokenResponse, now: int): (t: StoredToken)
    ensures t.accessToken == resp.accessToken && t.refreshToken == resp.refreshToken
    ensures t.expiresIn == resp.expiresIn && t.tokenType == resp.tokenType && t.scope == resp.scope
    ensures t.obtainedAt == now
    ensures ExpiresAt(t) == now + resp.expiresIn - SafetyMargin
  {
    StoredToken(resp.accessToken, resp.refreshToken, resp.expiresIn, resp.tokenType, resp.scope, now)
  }

  /** The form fields of the refresh request (url.Values is a map). */
  function RefreshForm(refreshToken: string): (form: map<string, string>)
    ensures form.Keys == {"grant_type", "client_id", "refresh_token"}
    ensures form["grant_type"] == "refresh_token"
    ensures form["client_id"] == ClientId
    ensures form["refresh_token"] == refreshToken
  {
    map["grant_type" := "refresh_token", "client_id" := ClientId, "refresh_token" := refreshToken]
  }

  /** One refresh call: the form it posts, its outcome, and the record it persisted, if any. */
  datatype Refresh = Refresh(form: map<string, string>, result: Result<StoredToken, TokenError>, saved: Option<StoredToken>)

  function RefreshAccessToken(refreshToken: string, reply: RefreshReply, now: int): (r: Refresh)
    ensures r.form == RefreshForm(refreshToken)
    ensures r.result.Ok? <==> reply.Replied? && reply.body.accessToken != ""
    ensures reply.RequestFailed? ==> r.result == Err(RefreshRequestFailed)
    ensures r.result.Ok? ==> r.result.value == SaveToken(reply.body, now)
    ensures r.result.Ok? ==> r.result.value.accessToken != "" && r.result.value.obtainedAt == now
    // the persisted record and the returned record are the same one; a rejected refresh persists nothing
    ensures r.saved == (if r.result.Ok? then Some(r.result.value) else None)
  {
    var form := RefreshForm(refreshToken);
    match reply
    case RequestFailed => Refresh(form, Err(RefreshRequestFailed), None)
    case Replied(body) =>
      if body.accessToken == "" then Refresh(form, Err(RefreshRejected), None)
      else
        var stored := SaveToken(body, now);
        Refresh(form, Ok(stored), Some(stored))
  }

  /** One GetAccessToken call: the token string handed out, the refresh calls made, and the record persisted. */
  datatype TokenLookup = TokenLookup(result: Result<string, TokenError>, refreshes: seq<map<string, string>>, saved: Option<StoredToken>)

  /**
   * GetAccessToken with `loaded` the content of token.json (None when it
   * cannot be opened), `now` the clock reading and `reply` what the token
   * endpoint answers if it is asked.
   */
  function GetAccessToken(loaded: Option<StoredToken>, now: int, reply: RefreshReply): (r: TokenLookup)
    ensures loaded.None? ==> r == TokenLookup(Err(NoStoredToken), [], None)
    // exactly one refresh call when expired, none otherwise
    ensures loaded.Some? ==> |r.refreshes| == (if Expired(loaded.value, now) then 1 else 0)
    ensures loaded.Some? && Expired(loaded.value, now) ==> r.refreshes == [RefreshForm(loaded.value.refreshToken)]
    // not expired: the stored access token, unchanged, and nothing persisted
    ensures loaded.Some? && !Expired(loaded.value, now) ==> r.result == Ok(loaded.value.accessToken) && r.saved.None?
    // expired: the new access token, which is also what was persisted
    ensures loaded.Some? && Expired(loaded.value, now) ==>
      (r.result.Ok? <==> reply.Replied? && reply.body.accessToken != "")
      && (r.result.Ok? ==> r.result.value == reply.body.accessToken && r.saved == Some(SaveToken(reply.body, now)))
      && (r.result.Err? ==> r.saved.None?)
  {
    match loaded
    case None => TokenLookup(Err(NoStoredToken), [], None)
    case Some(token) =>
      if Expired(token, now) then
        var refresh := RefreshAccessToken(token.refreshToken, reply, now);
        match refresh.result
        case Ok(renewed) => TokenLookup(Ok(renewed.accessToken), [refresh.form], refresh.saved)
        case Err(e) => TokenLookup(Err(e), [refresh.form], None)
      else TokenLookup(Ok(token.accessToken), [], None)
  }

  /** The comparison is strict: at the expiry instant itself the token is still used, one second later it is not. */
  lemma ExpiryIsStrict(t: StoredToken, reply: RefreshReply)
    ensures GetAccessToken(Some(t), ExpiresAt(t), reply).result == Ok(t.accessToken)
    ensures |GetAccessToken(Some(t), ExpiresAt(t) + 1, reply).refreshes| == 1
  {
  }

  /** Once expired, a token stays expired at every later clock reading. */
  lemma ExpiredStaysExpired(t: StoredToken, now: int, later: int)
    requires Expired(t, now) && now <= later
    ensures Expired(t, later)
  {
  }

  /**
   * A successful refresh whose lifetime exceeds the safety margin yields a
   * token that a GetAccessToken at the same instant hands out without
   * refreshing again.
   */
  lemma RefreshedTokenIsCurrent(t: StoredToken, now: int, reply: RefreshReply, other: RefreshReply)
    requires Expired(t, now)
    requires reply.Replied? && reply.body.accessToken != "" && reply.body.expiresIn >= SafetyMargin
    ensures GetAccessToken(Some(t), now, reply).saved.Some?
    ensures var renewed := GetAccessToken(Some(t), now, reply).saved.value;
      GetAccessToken(Some(renewed), now, other) == TokenLookup(Ok(reply.body.accessToken), [], None)
  {
  }
}
