/** The OAuth 2.0 authorization-code grant with PKCE (RFC 6749, section 4.1;
    RFC 7636, sections 4.2 and 4.5) as index.js runs it over a per-visitor
    session: one function per route, from the session before the request to
    the session after it, the response, and the token-endpoint request the
    route sends (if any). Randomness, hashing and the token endpoint's answer
    are inputs. */
module OAuth {
  import opened Js
  import opened Config
  import opened Uri

  /** The five session fields the routes read and write; None is a field
      that is unset (never set, deleted, or set to `undefined`). */
  datatype State = State(
    oauthState: Option<string>,
    codeVerifier: Option<string>,
    accessToken: Option<string>,
    instanceUrl: Option<string>,
    refreshToken: Option<string>)

  /** A freshly created, regenerated or destroyed session. */
  const Empty := State(None, None, None, None, None)

  datatype Response =
    | Redirect(location: string)
    | Send(status: nat, body: string)
    | HostPage(instanceUrl: string, accessToken: string)

  /** The HTTP status code of a response (`res.redirect` answers 302). */
  function StatusOf(r: Response): nat {
    match r
    case Redirect(_) => 302
    case Send(status, _) => status
    case HostPage(_, _) => 200
  }

  /** What the server posts to the token endpoint. */
  datatype Grant =
    | AuthorizationCode(code: string, redirectUri: string, codeVerifier: Option<string>)
    | RefreshToken(refreshToken: string)

  datatype TokenRequest = TokenRequest(
    endpoint: string,
    grant: Grant,
    clientId: Option<string>,
    clientSecret: Option<string>)

  /** The fields of a successful token-endpoint answer; any may be absent. */
  datatype TokenBody = TokenBody(
    accessToken: Option<string>,
    instanceUrl: Option<string>,
    refreshToken: Option<string>)

  /** A rejected exchange: the provider's `error_description`, if any, and
      the client library's error message. */
  datatype ExchangeError = ExchangeError(description: Option<string>, message: string)

  /** The outcome of the POST to the token endpoint. */
  datatype TokenAnswer = Granted(body: TokenBody) | Rejected(error: ExchangeError)

  /** The random values the login route draws: `state` (hex of 32 random
      bytes), the PKCE `code_verifier` (base64url of 32 random bytes) and its
      S256 `code_challenge`. */
  datatype Secrets = Secrets(state: string, verifier: string, challenge: string)

  /** The query parameters of `/oauth/callback`. */
  datatype CallbackQuery = CallbackQuery(code: Option<string>, state: Option<string>)

  /** One handled request: the session afterwards, the response, and the
      token-endpoint request sent while handling it. */
  datatype Step = Step(after: State, response: Response, request: Option<TokenRequest>)

  const MissingConfiguration := "Missing configuration"
  const NoCode := "No authorization code"
  const InvalidState := "Invalid session or state parameter"
  const AuthErrorPrefix := "Auth Error: "
  const SessionExpired := "/login?error=session_expired"

  /** The session invariant of the flow: the two single-use PKCE values are
      stored together, and only while no tokens are. */
  predicate WellFormed(s: State) {
    && (s.oauthState.Some? <==> s.codeVerifier.Some?)
    && (s.oauthState.Some? ==> s.accessToken == None && s.instanceUrl == None && s.refreshToken == None)
  }

  /** The condition the `/app` guard lets through. */
  predicate Authenticated(s: State) {
    Truthy(s.accessToken) && Truthy(s.instanceUrl)
  }

  function RedirectUri(cfg: Config): string {
    cfg.appUrl + "/oauth/callback"
  }

  function TokenEndpoint(cfg: Config): string {
    cfg.loginUrl + "/services/oauth2/token"
  }

  function AuthorizeEndpoint(cfg: Config): string {
    cfg.loginUrl + "/services/oauth2/authorize"
  }

  const CodeChallengeMethod := "&code_challenge_method=S256"

  /** The authorization request URL the login route redirects to. */
  function AuthorizeUrl(cfg: Config, clientId: string, state: string, challenge: string): (url: string)
    ensures AuthorizeEndpoint(cfg) + "?response_type=code" <= url
    ensures |url| >= |CodeChallengeMethod| && url[|url| - |CodeChallengeMethod|..] == CodeChallengeMethod
  {
    var url := AuthorizeEndpoint(cfg) + "?response_type=code&client_id=" + EncodeUriComponent(clientId)
      + "&redirect_uri=" + EncodeUriComponent(RedirectUri(cfg))
      + "&state=" + EncodeUriComponent(state)
      + "&code_challenge=" + EncodeUriComponent(challenge)
      + CodeChallengeMethod;
    PrefixOfUrl(AuthorizeEndpoint(cfg), EncodeUriComponent(clientId), EncodeUriComponent(RedirectUri(cfg)),
                EncodeUriComponent(state), EncodeUriComponent(challenge));
    url
  }

  lemma PrefixOfUrl(base: string, e1: string, e2: string, e3: string, e4: string)
    ensures var url := base + "?response_type=code&client_id=" + e1 + "&redirect_uri=" + e2 + "&state=" + e3
                         + "&code_challenge=" + e4 + CodeChallengeMethod;
            && base + "?response_type=code" <= url
            && |url| >= |CodeChallengeMethod| && url[|url| - |CodeChallengeMethod|..] == CodeChallengeMethod
  {
    var head := base + "?response_type=code&client_id=";
    var body := head + e1 + "&redirect_uri=" + e2 + "&state=" + e3 + "&code_challenge=" + e4;
    var url := body + CodeChallengeMethod;
    assert url[|url| - |CodeChallengeMethod|..] == CodeChallengeMethod;
    var p := base + "?response_type=code";
    assert head == p + "&client_id=";
    assert |head| <= |body|;
    assert head == body[..|head|];
    assert p == url[..|p|];
  }

  /** The parameters of the authorization request, in the order sent. */
  function AuthorizeParams(cfg: Config, clientId: string, state: string, challenge: string): seq<Param> {
    [ Param("response_type", "code"),
      Param("client_id", EncodeUriComponent(clientId)),
      Param("redirect_uri", EncodeUriComponent(RedirectUri(cfg))),
      Param("state", EncodeUriComponent(state)),
      Param("code_challenge", EncodeUriComponent(challenge)),
      Param("code_challenge_method", "S256") ]
  }

  /** Moves one `&name=value` field from the query text onto the URL built
      so far. */
  lemma ShiftField(t: string, name: string, e: string, rest: string)
    ensures t + ("&" + (name + "=" + e + "&" + rest)) == t + ("&" + name + "=") + e + ("&" + rest)
  {
  }

  /** The literal pieces of the authorization URL, split at the fields. */
  lemma FieldPrefixes()
    ensures "&" + "client_id" + "=" == "&client_id="
    ensures "&" + "redirect_uri" + "=" == "&redirect_uri="
    ensures "&" + "state" + "=" == "&state="
    ensures "&" + "code_challenge" + "=" == "&code_challenge="
  {
  }

  lemma UrlHead(base: string)
    ensures base + "?response_type=code&client_id=" == base + "?response_type=code" + "&client_id="
  {
  }

  lemma QueryHead(base: string, rest: string)
    ensures base + "?" + ("response_type" + "=" + "code" + "&" + rest) == base + "?response_type=code" + ("&" + rest)
  {
  }

  lemma UrlTail()
    ensures "&" + ("code_challenge_method" + "=" + "S256") == CodeChallengeMethod
  {
  }

  /** The URL text equals the endpoint, `?` and the six fields joined by `&`. */
  lemma AuthorizeUrlText(base: string, e1: string, e2: string, e3: string, e4: string)
    ensures base + "?response_type=code&client_id=" + e1 + "&redirect_uri=" + e2 + "&state=" + e3
              + "&code_challenge=" + e4 + CodeChallengeMethod
         == base + "?" + ("response_type" + "=" + "code" + "&" + ("client_id" + "=" + e1 + "&"
              + ("redirect_uri" + "=" + e2 + "&" + ("state" + "=" + e3 + "&"
              + ("code_challenge" + "=" + e4 + "&" + ("code_challenge_method" + "=" + "S256"))))))
  {
    var q5 := "code_challenge_method" + "=" + "S256";
    var q4 := "code_challenge" + "=" + e4 + "&" + q5;
    var q3 := "state" + "=" + e3 + "&" + q4;
    var q2 := "redirect_uri" + "=" + e2 + "&" + q3;
    var q1 := "client_id" + "=" + e1 + "&" + q2;
    var t0 := base + "?response_type=code";
    var t1 := t0 + "&client_id=" + e1;
    var t2 := t1 + "&redirect_uri=" + e2;
    var t3 := t2 + "&state=" + e3;
    UrlHead(base);
    QueryHead(base, q1);
    FieldPrefixes();
    ShiftField(t0, "client_id", e1, q2);
    ShiftField(t1, "redirect_uri", e2, q3);
    ShiftField(t2, "state", e3, q4);
    ShiftField(t3, "code_challenge", e4, q5);
    UrlTail();
  }

  /** A six-parameter query string, field by field. */
  lemma QueryStringOfSix(ps: seq<Param>)
    requires |ps| == 6
    ensures QueryString(ps) == Field(ps[0]) + "&" + (Field(ps[1]) + "&" + (Field(ps[2]) + "&"
              + (Field(ps[3]) + "&" + (Field(ps[4]) + "&" + Field(ps[5])))))
  {
    QueryStringTail(ps);
    QueryStringTail(ps[1..]);
    QueryStringTail(ps[2..]);
    QueryStringTail(ps[3..]);
    QueryStringTail(ps[4..]);
    assert Fields(ps[5..]) == [Field(ps[5])];
    assert ps[1..][1..] == ps[2..];
    assert ps[2..][1..] == ps[3..];
    assert ps[3..][1..] == ps[4..];
    assert ps[4..][1..] == ps[5..];
  }

  /** The fixed names and values of the authorization request hold no
      query separator. */
  lemma FixedNamesPlain()
    ensures '&' !in "response_type" && '=' !in "response_type"
    ensures '&' !in "client_id" && '=' !in "client_id"
    ensures '&' !in "code" && '&' !in "S256"
  {
  }

  lemma FixedNamesPlain2()
    ensures '&' !in "redirect_uri" && '=' !in "redirect_uri"
    ensures '&' !in "state" && '=' !in "state"
  {
  }

  lemma FixedNamesPlain3()
    ensures '&' !in "code_challenge" && '=' !in "code_challenge"
    ensures '&' !in "code_challenge_method" && '=' !in "code_challenge_method"
  {
  }

  /** An authorization server reads back exactly the six parameters of the
      authorization request (client id, callback URL, state and challenge
      each percent-encoded). */
  lemma AuthorizeQueryParses(cfg: Config, clientId: string, state: string, challenge: string)
    ensures ParseQuery(QueryString(AuthorizeParams(cfg, clientId, state, challenge)))
         == AuthorizeParams(cfg, clientId, state, challenge)
  {
    var ps := AuthorizeParams(cfg, clientId, state, challenge);
    EncodedHasNoSeparator(clientId);
    EncodedHasNoSeparator(RedirectUri(cfg));
    EncodedHasNoSeparator(state);
    EncodedHasNoSeparator(challenge);
    ParamsWellFormed(ps[1].value, ps[2].value, ps[3].value, ps[4].value);
    ParseQueryString(ps);
  }

  lemma ParamsWellFormed(e1: string, e2: string, e3: string, e4: string)
    requires '&' !in e1 && '&' !in e2 && '&' !in e3 && '&' !in e4
    ensures var ps := [ Param("response_type", "code"), Param("client_id", e1), Param("redirect_uri", e2),
                        Param("state", e3), Param("code_challenge", e4), Param("code_challenge_method", "S256") ];
      forall i :: 0 <= i < |ps| ==> WellFormedParam(ps[i])
  {
    FixedNamesPlain();
    FixedNamesPlain2();
    FixedNamesPlain3();
  }

  /** The authorization URL is the endpoint, `?`, and the query string of
      the six parameters, from which they are read back unchanged. */
  lemma AuthorizeUrlParams(cfg: Config, clientId: string, state: string, challenge: string)
    ensures AuthorizeUrl(cfg, clientId, state, challenge)
         == AuthorizeEndpoint(cfg) + "?" + QueryString(AuthorizeParams(cfg, clientId, state, challenge))
    ensures ParseQuery(QueryString(AuthorizeParams(cfg, clientId, state, challenge)))
         == AuthorizeParams(cfg, clientId, state, challenge)
  {
    var ps := AuthorizeParams(cfg, clientId, state, challenge);
    QueryStringOfSix(ps);
    AuthorizeUrlText(AuthorizeEndpoint(cfg), ps[1].value, ps[2].value, ps[3].value, ps[4].value);
    AuthorizeQueryParses(cfg, clientId, state, challenge);
  }

  /** GET /login (index.js:117-139). */
  function Login(cfg: Config, s: State, secrets: Secrets): (o: Step)
    ensures o.request == None
    // a missing client id or application URL: 500 and the session is untouched
    ensures StatusOf(o.response) == 500 <==> !Truthy(cfg.clientId) || cfg.appUrl == ""
    ensures StatusOf(o.response) == 500 ==> o.after == s
    // otherwise a regenerated session holding exactly the new state and verifier
    ensures StatusOf(o.response) != 500 ==>
              && o.after == Empty.(oauthState := Some(secrets.state), codeVerifier := Some(secrets.verifier))
              && o.response == Redirect(AuthorizeUrl(cfg, cfg.clientId.value, secrets.state, secrets.challenge))
    ensures WellFormed(s) ==> WellFormed(o.after)
  {
    if !Truthy(cfg.clientId) || cfg.appUrl == "" then
      Step(s, Send(500, MissingConfiguration), None)
    else
      var regenerated := Empty;
      var stored := regenerated.(oauthState := Some(secrets.state), codeVerifier := Some(secrets.verifier));
      Step(stored, Redirect(AuthorizeUrl(cfg, cfg.clientId.value, secrets.state, secrets.challenge)), None)
  }

  /** The body of the 500 page after a failed exchange. */
  function AuthErrorBody(e: ExchangeError): (r: string)
    ensures |r| >= |AuthErrorPrefix| && r[..|AuthErrorPrefix|] == AuthErrorPrefix
    ensures Truthy(e.description) ==> r == AuthErrorPrefix + e.description.value
    ensures !Truthy(e.description) ==> r == AuthErrorPrefix + e.message
  {
    AuthErrorPrefix + Or(e.description, e.message)
  }

  /** GET /oauth/callback (index.js:142-180). */
  function Callback(cfg: Config, s: State, q: CallbackQuery, answer: TokenAnswer): (o: Step)
    // the code is checked first: without it, 400 whatever the state
    ensures !Truthy(q.code) ==> o == Step(s, Send(400, NoCode), None)
    // a token exchange happens exactly when both checks pass
    ensures o.request.Some? <==> Truthy(q.code) && Truthy(q.state) && q.state == s.oauthState
    ensures Truthy(q.code) && o.request.None? ==> o == Step(s, Send(403, InvalidState), None)
    // both single-use values are consumed before the exchange, whatever its outcome
    ensures o.request.Some? ==> o.after.oauthState == None && o.after.codeVerifier == None
    ensures o.request.Some? ==>
              o.request.value == TokenRequest(TokenEndpoint(cfg),
                                              AuthorizationCode(q.code.value, RedirectUri(cfg), s.codeVerifier),
                                              cfg.clientId, cfg.clientSecret)
    ensures o.request.Some? && answer.Granted? ==>
              && o.response == Redirect("/app")
              && o.after.accessToken == answer.body.accessToken
              && o.after.instanceUrl == answer.body.instanceUrl
              && o.after.refreshToken == answer.body.refreshToken
    ensures o.request.Some? && answer.Rejected? ==>
              && o.response == Send(500, AuthErrorBody(answer.error))
              && o.after == s.(oauthState := None, codeVerifier := None)
    ensures WellFormed(s) ==> WellFormed(o.after)
  {
    if !Truthy(q.code) then
      Step(s, Send(400, NoCode), None)
    else if !Truthy(q.state) || q.state != s.oauthState then
      Step(s, Send(403, InvalidState), None)
    else
      var verifier := s.codeVerifier;
      var consumed := s.(oauthState := None, codeVerifier := None);
      var request := TokenRequest(TokenEndpoint(cfg), AuthorizationCode(q.code.value, RedirectUri(cfg), verifier),
                                  cfg.clientId, cfg.clientSecret);
      match answer
      case Granted(body) =>
        Step(consumed.(accessToken := body.accessToken, instanceUrl := body.instanceUrl,
                       refreshToken := body.refreshToken),
             Redirect("/app"), Some(request))
      case Rejected(e) =>
        Step(consumed, Send(500, AuthErrorBody(e)), Some(request))
  }

  /** `ensureValidToken` (index.js:183-186): a redirect to the login route,
      or None when the request may go on. */
  function EnsureValidToken(s: State): (r: Option<Response>)
    ensures r.None? <==> Authenticated(s)
    ensures r.Some? ==> r.value == Redirect("/login")
  {
    if !Truthy(s.accessToken) || !Truthy(s.instanceUrl) then Some(Redirect("/login")) else None
  }

  /** GET /app behind the guard (index.js:189-190): the host page is built
      from the session's instance URL and access token. */
  function App(s: State): (r: Response)
    ensures StatusOf(r) == 200 <==> Authenticated(s)
    ensures Authenticated(s) ==> r == HostPage(s.instanceUrl.value, s.accessToken.value)
  {
    match EnsureValidToken(s)
    case Some(redirect) => redirect
    case None => HostPage(s.instanceUrl.value, s.accessToken.value)
  }

  /** The tokens `refreshAccessToken` resolves with. */
  datatype Tokens = Tokens(accessToken: Option<string>, instanceUrl: Option<string>, refreshToken: string)

  /** `refreshAccessToken` (index.js:60-85): the new tokens, keeping the
      previous refresh token when the provider issues none; None when the
      exchange throws. */
  function RefreshAccessToken(refreshToken: string, answer: TokenAnswer): (t: Option<Tokens>)
    ensures t.Some? <==> answer.Granted?
    ensures t.Some? ==>
              && t.value.accessToken == answer.body.accessToken
              && t.value.instanceUrl == answer.body.instanceUrl
    // the new refresh token is the issued one when truthy, else the old one
    ensures t.Some? ==> Some(t.value.refreshToken) == answer.body.refreshToken || t.value.refreshToken == refreshToken
    ensures t.Some? && Truthy(answer.body.refreshToken) ==> Some(t.value.refreshToken) == answer.body.refreshToken
    ensures t.Some? && refreshToken != "" ==> t.value.refreshToken != ""
  {
    match answer
    case Granted(body) => Some(Tokens(body.accessToken, body.instanceUrl, Or(body.refreshToken, refreshToken)))
    case Rejected(_) => None
  }

  /** GET /refresh-token (index.js:228-241). */
  function Refresh(cfg: Config, s: State, redirect: Option<string>, answer: TokenAnswer): (o: Step)
    // nothing to refresh with: back to login, nothing changes
    ensures !Truthy(s.refreshToken) ==> o == Step(s, Redirect("/login"), None)
    ensures Truthy(s.refreshToken) ==>
              o.request == Some(TokenRequest(TokenEndpoint(cfg), RefreshToken(s.refreshToken.value),
                                             cfg.clientId, cfg.clientSecret))
    // success: new access token and instance URL, a refresh token that is still there
    ensures Truthy(s.refreshToken) && answer.Granted? ==>
              && o.after.oauthState == s.oauthState && o.after.codeVerifier == s.codeVerifier
              && o.after.accessToken == answer.body.accessToken
              && o.after.instanceUrl == answer.body.instanceUrl
              && Truthy(o.after.refreshToken)
              && o.response == Redirect(Or(redirect, "/app"))
    // the refresh token is rotated exactly when the provider issues a truthy one
    ensures Truthy(s.refreshToken) && answer.Granted? && Truthy(answer.body.refreshToken) ==>
              o.after.refreshToken == answer.body.refreshToken
    ensures Truthy(s.refreshToken) && answer.Granted? && !Truthy(answer.body.refreshToken) ==>
              o.after.refreshToken == s.refreshToken
    // failure: the session is destroyed
    ensures Truthy(s.refreshToken) && answer.Rejected? ==> o.after == Empty && o.response == Redirect(SessionExpired)
    ensures WellFormed(s) ==> WellFormed(o.after)
  {
    if !Truthy(s.refreshToken) then
      Step(s, Redirect("/login"), None)
    else
      var request := TokenRequest(TokenEndpoint(cfg), RefreshToken(s.refreshToken.value), cfg.clientId, cfg.clientSecret);
      match RefreshAccessToken(s.refreshToken.value, answer)
      case Some(tokens) =>
        var updated := s.(accessToken := tokens.accessToken, instanceUrl := tokens.instanceUrl);
        var kept := if tokens.refreshToken != "" then updated.(refreshToken := Some(tokens.refreshToken)) else updated;
        Step(kept, Redirect(Or(redirect, "/app")), Some(request))
      case None =>
        Step(Empty, Redirect(SessionExpired), Some(request))
  }

  /** GET /logout (index.js:223-225): the session is destroyed. */
  function Logout(s: State): (o: Step)
    ensures o.response == Redirect("/") && o.request == None
    ensures WellFormed(o.after) && !Authenticated(o.after)
    ensures o.after.refreshToken == None && o.after.oauthState == None
    // destroyed: none of the five fields is left
    ensures o.after == Empty
  {
    Step(Empty, Redirect("/"), None)
  }

  // ---------------------------------------------------------------------
  // Properties of the flow across requests

  /** With the configuration read from the environment, login fails only
      for a missing client id: `APP_URL` always has a fallback. */
  lemma LoginFailsOnlyWithoutClientId(env: Env, s: State, secrets: Secrets)
    ensures StatusOf(Login(ConfigOf(env), s, secrets).response) == 500 <==> !Truthy(env.clientId)
  {
  }

  /** The state a login stores travels in the authorization URL, and a
      callback that returns it posts exactly the verifier stored at login
      and the `redirect_uri` the authorization request carried. */
  lemma LoginThenCallback(cfg: Config, s: State, secrets: Secrets, code: string, answer: TokenAnswer)
    requires Truthy(cfg.clientId) && cfg.appUrl != ""
    requires secrets.state != "" && code != ""
    ensures var login := Login(cfg, s, secrets);
            var ps := AuthorizeParams(cfg, cfg.clientId.value, secrets.state, secrets.challenge);
            var back := Callback(cfg, login.after, CallbackQuery(Some(code), Some(secrets.state)), answer);
      && login.response == Redirect(AuthorizeEndpoint(cfg) + "?" + QueryString(ps))
      && ParseQuery(QueryString(ps)) == ps
      && ps[3] == Param("state", EncodeUriComponent(secrets.state))
      && back.request.Some?
      && back.request.value.grant.codeVerifier == Some(secrets.verifier)
      && ps[2] == Param("redirect_uri", EncodeUriComponent(back.request.value.grant.redirectUri))
      && back.after.oauthState == None && back.after.codeVerifier == None
  {
    AuthorizeUrlParams(cfg, cfg.clientId.value, secrets.state, secrets.challenge);
  }

  /** The login route draws `state` as lower-case hex, which
      `encodeURIComponent` leaves alone: the provider sees and returns the
      stored value itself. */
  lemma HexStateSentAsIs(state: string)
    requires forall i :: 0 <= i < |state| ==> '0' <= state[i] <= '9' || 'a' <= state[i] <= 'f'
    ensures EncodeUriComponent(state) == state
  {
    EncodeUnescaped(state);
  }

  /** The state and verifier are single use: once a callback has passed the
      checks, replaying it is rejected with 403 and sends nothing. */
  lemma ReplayRejected(cfg: Config, s: State, q: CallbackQuery, first: TokenAnswer, second: TokenAnswer)
    requires Callback(cfg, s, q, first).request.Some?
    ensures var replay := Callback(cfg, Callback(cfg, s, q, first).after, q, second);
      StatusOf(replay.response) == 403 && replay.request == None
  {
  }

  /** A callback that passes the checks but whose exchange fails leaves an
      unauthenticated session with no tokens. */
  lemma FailedExchangeLeavesNoTokens(cfg: Config, s: State, q: CallbackQuery, e: ExchangeError)
    requires WellFormed(s)
    requires Callback(cfg, s, q, Rejected(e)).request.Some?
    ensures var o := Callback(cfg, s, q, Rejected(e));
      && o.after == Empty
      && App(o.after) == Redirect("/login")
  {
  }

  /** Logging out twice is the same as logging out once. */
  lemma LogoutIdempotent(s: State)
    ensures Logout(Logout(s).after) == Logout(s)
  {
  }

  /** After a failed refresh the session is gone: `/app` sends the visitor
      to the login route, and a second refresh has nothing to refresh. */
  lemma RefreshFailureForcesLogin(cfg: Config, s: State, redirect: Option<string>, e: ExchangeError, answer: TokenAnswer)
    requires Truthy(s.refreshToken)
    ensures var o := Refresh(cfg, s, redirect, Rejected(e));
      && App(o.after) == Redirect("/login")
      && Refresh(cfg, o.after, redirect, answer) == Step(Empty, Redirect("/login"), None)
  {
  }

  /** A refresh token, once stored, survives any number of successful
      refreshes. */
  lemma RefreshKeepsRefreshToken(cfg: Config, s: State, redirect: Option<string>, body: TokenBody)
    requires Truthy(s.refreshToken)
    ensures Truthy(Refresh(cfg, s, redirect, Granted(body)).after.refreshToken)
  {
  }

  /** The requests of one visitor. */
  datatype Visit =
    | GetLogin(secrets: Secrets)
    | GetCallback(query: CallbackQuery, answer: TokenAnswer)
    | GetApp
    | GetRefresh(redirect: Option<string>, answer: TokenAnswer)
    | GetLogout

  function Handle(cfg: Config, s: State, v: Visit): Step {
    match v
    case GetLogin(secrets) => Login(cfg, s, secrets)
    case GetCallback(q, answer) => Callback(cfg, s, q, answer)
    case GetApp => Step(s, App(s), None)
    case GetRefresh(redirect, answer) => Refresh(cfg, s, redirect, answer)
    case GetLogout => Logout(s)
  }

  /** The session after a sequence of requests. */
  function Run(cfg: Config, s: State, visits: seq<Visit>): State
    decreases |visits|
  {
    if visits == [] then s else Run(cfg, Handle(cfg, s, visits[0]).after, visits[1..])
  }

  /** Every session a visitor can reach from a fresh one keeps the state
      and verifier together, and only while it holds no tokens. */
  lemma {:induction false} RunKeepsWellFormed(cfg: Config, s: State, visits: seq<Visit>)
    requires WellFormed(s)
    ensures WellFormed(Run(cfg, s, visits))
    decreases |visits|
  {
    if visits != [] {
      var next := Handle(cfg, s, visits[0]).after;
      assert WellFormed(next);
      RunKeepsWellFormed(cfg, next, visits[1..]);
    }
  }

  lemma ReachableWellFormed(cfg: Config, visits: seq<Visit>)
    ensures WellFormed(Run(cfg, Empty, visits))
  {
    RunKeepsWellFormed(cfg, Empty, visits);
  }

  /** A fresh visitor logs in, returns from the provider with the generated
      state and is then served the host page for the issued instance. */
  lemma LoginToHostPage(cfg: Config, secrets: Secrets)
    requires Truthy(cfg.clientId) && cfg.appUrl != "" && secrets.state != ""
    ensures var login := Login(cfg, Empty, secrets);
            var body := TokenBody(Some("AT1"), Some("https://inst.example.com"), Some("RT1"));
            var back := Callback(cfg, login.after, CallbackQuery(Some("X"), Some(secrets.state)), Granted(body));
      && StatusOf(login.response) == 302
      && back.response == Redirect("/app")
      && App(back.after) == HostPage("https://inst.example.com", "AT1")
  {
  }

  /** Without a state parameter the callback is refused, and a fresh
      visitor is sent from `/app` to the login route. */
  lemma UnauthenticatedScenarios(cfg: Config, answer: TokenAnswer)
    ensures StatusOf(Callback(cfg, Empty, CallbackQuery(Some("X"), None), answer).response) == 403
    ensures App(Empty) == Redirect("/login")
  {
  }
}
