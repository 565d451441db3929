/** The route handlers of index.js as methods on the visitor's session
    object (`req.session`), which they update field by field; each is
    proved to have the effect its route function in module OAuth states. */
module Routes {
  import opened Js
  import opened Config
  import opened OAuth

  class Session {
    var oauthState: Option<string>
    var codeVerifier: Option<string>
    var accessToken: Option<string>
    var instanceUrl: Option<string>
    var refreshToken: Option<string>

    /** The five fields as a value. */
    function Snapshot(): State
      reads this
    {
      State(oauthState, codeVerifier, accessToken, instanceUrl, refreshToken)
    }

    /** The session a first request creates. */
    constructor ()
      ensures Snapshot() == Empty
    {
      oauthState, codeVerifier := None, None;
      accessToken, instanceUrl, refreshToken := None, None, None;
    }

    /** `req.session.regenerate` and `req.session.destroy`: the visitor
        continues with a session that has none of the fields set. */
    method Reset()
      modifies this
      ensures Snapshot() == Empty
    {
      oauthState, codeVerifier := None, None;
      accessToken, instanceUrl, refreshToken := None, None, None;
    }

    /** GET /login (index.js:117-139). */
    method Login(cfg: Config, secrets: Secrets) returns (r: Response)
      modifies this
      ensures Step(Snapshot(), r, None) == OAuth.Login(cfg, old(Snapshot()), secrets)
    {
      if !Truthy(cfg.clientId) || cfg.appUrl == "" {
        return Send(500, MissingConfiguration);
      }
      Reset();
      oauthState := Some(secrets.state);
      codeVerifier := Some(secrets.verifier);
      r := Redirect(AuthorizeUrl(cfg, cfg.clientId.value, secrets.state, secrets.challenge));
    }

    /** GET /oauth/callback (index.js:142-180); `answer` is the token
        endpoint's reply to the request returned in `sent`. */
    method Callback(cfg: Config, query: CallbackQuery, answer: TokenAnswer) returns (r: Response, sent: Option<TokenRequest>)
      modifies this
      ensures Step(Snapshot(), r, sent) == OAuth.Callback(cfg, old(Snapshot()), query, answer)
    {
      if !Truthy(query.code) {
        return Send(400, NoCode), None;
      }
      if !Truthy(query.state) || query.state != oauthState {
        return Send(403, InvalidState), None;
      }
      var verifier := codeVerifier;
      oauthState := None;
      codeVerifier := None;
      var request := TokenRequest(TokenEndpoint(cfg), AuthorizationCode(query.code.value, RedirectUri(cfg), verifier),
                                  cfg.clientId, cfg.clientSecret);
      sent := Some(request);
      match answer {
        case Granted(body) =>
          accessToken := body.accessToken;
          instanceUrl := body.instanceUrl;
          refreshToken := body.refreshToken;
          r := Redirect("/app");
        case Rejected(e) =>
          r := Send(500, AuthErrorBody(e));
      }
    }

    /** GET /app (index.js:183-190): the guard, then the host page. */
    method App() returns (r: Response)
      ensures StatusOf(r) == 200 <==> Authenticated(Snapshot())
      ensures r == OAuth.App(Snapshot())
    {
      var guard := EnsureValidToken(Snapshot());
      if guard.Some? {
        return guard.value;
      }
      r := HostPage(instanceUrl.value, accessToken.value);
    }

    /** GET /refresh-token (index.js:228-241); `answer` is the token
        endpoint's reply to the request returned in `sent`. */
    method Refresh(cfg: Config, redirect: Option<string>, answer: TokenAnswer) returns (r: Response, sent: Option<TokenRequest>)
      modifies this
      ensures Step(Snapshot(), r, sent) == OAuth.Refresh(cfg, old(Snapshot()), redirect, answer)
    {
      if !Truthy(refreshToken) {
        return Redirect("/login"), None;
      }
      sent := Some(TokenRequest(TokenEndpoint(cfg), RefreshToken(refreshToken.value), cfg.clientId, cfg.clientSecret));
      var tokens := RefreshAccessToken(refreshToken.value, answer);
      match tokens {
        case Some(t) =>
          accessToken := t.accessToken;
          instanceUrl := t.instanceUrl;
          if t.refreshToken != "" {
            refreshToken := Some(t.refreshToken);
          }
          r := Redirect(Or(redirect, "/app"));
        case None =>
          Reset();
          r := Redirect(SessionExpired);
      }
    }

    /** GET /logout (index.js:223-225). */
    method Logout() returns (r: Response)
      modifies this
      ensures Step(Snapshot(), r, None) == OAuth.Logout(old(Snapshot()))
    {
      Reset();
      r := Redirect("/");
    }
  }
}
