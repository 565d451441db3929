# OAuth session state machine of the Lightning Out host server

This project models, in Dafny, the part of `index.js` that drives the
OAuth 2.0 authorization-code grant with PKCE (RFC 6749, section 4.1; RFC
7636, sections 4.2 and 4.5; refresh per RFC 6749, section 6) over a
per-visitor server-side session. The session holds five optional fields:
`oauthState`, `codeVerifier`, `accessToken`, `instanceUrl` and
`refreshToken`. The routes `/login`, `/oauth/callback`, `/app` (with its
guard `ensureValidToken`), `/refresh-token` (with `refreshAccessToken`) and
`/logout` read and change them.

Layout:

- `js.dfy` (module `Js`): a field or query value is `undefined` or a
  string. It also gives JavaScript truthiness (`undefined` and `""` are both
  falsy) and the `||` operator on strings.
- `config.dfy` (module `Config`): the environment variables read at start-up
  and their fallbacks (`PORT`, `APP_URL` with `REPLIT_HOST` and the localhost
  default, lower-cased; `SF_LOGIN_URL` with the public login host).
- `uri.dfy` (module `Uri`): `encodeURIComponent` (UTF-8 and `%XX`), and the
  `name=value&…` query syntax with the split that reads it back.
- `oauth.dfy` (module `OAuth`): one pure function per route. Each maps the
  session before the request to a `Step`: the session after, the response,
  and the token-endpoint request sent, if any. The lemmas about the flow
  across requests live here too.
- `session.dfy` (module `Routes`): class `Session` with the five fields. Its
  methods are the route handlers, updating the fields one by one as the
  handlers do. Each method is proved to have exactly the effect of its route
  function.

Inputs that stand for I/O:

- The random `state`, the PKCE verifier and its S256 challenge are given
  strings (`Secrets`).
- The token endpoint's reply is a `TokenAnswer`: `Granted` with the body's
  optional `access_token`, `instance_url` and `refresh_token`, or `Rejected`
  with the provider's `error_description` and the client's error message.
- The request the server would POST is returned as a `TokenRequest` value,
  so "no exchange is attempted" reads as `request == None`.

How this version of the server behaves, where other versions of it differ:

- There is no "retry once, then fail" refresh policy. A refresh happens only
  through `/refresh-token`, and one failure destroys the session.
- There is no `/session-info` route in this version of the server.
- `/login` cannot answer 500 for a missing application URL. `APP_URL` always
  falls back to `http://localhost:<PORT>`, so the `!APP_URL` test is dead
  (`OAuth.LoginFailsOnlyWithoutClientId`).
- A successful refresh writes the new `accessToken` and `instanceUrl`
  as given, even when the provider's answer lacks them.

## Model

| member | source | states |
|---|---|---|
| `Js.Or` | index.js:79 | `a \|\| b` picks `a` when truthy, otherwise `b`; the result is non-empty exactly when `a` is truthy or `b` is non-empty |
| `Config.ToLower` | index.js:15 | lower-casing keeps the length, turns each `A`-`Z` into the matching `a`-`z`, leaves no upper-case ASCII letter and changes no other character |
| `Config.ConfigOf` | index.js:11-17 | `APP_URL` is `APP_URL`, else `REPLIT_HOST`, else `http://localhost:` plus `PORT` (lower-cased), or `http://localhost:5000` when `PORT` is unset; `SF_LOGIN_URL` defaults to `https://login.salesforce.com`; neither is ever empty |
| `Uri.EncodeUriComponent` | index.js:134 | every output character is unescaped or `%`, and the output is never shorter than the input |
| `Uri.EncodeUnescaped` | index.js:134 | a string of unescaped characters is sent unchanged |
| `Uri.EncodedHasNoSeparator` | index.js:134 | an encoded value never holds `&` or `=` |
| `Uri.SplitJoin` | index.js:134 | splitting a `&`-joined list of `&`-free parts returns the parts |
| `Uri.ParseQueryString` | index.js:134 | a query string of well-formed parameters parses back to exactly those parameters, in order |
| `OAuth.AuthorizeUrl` | index.js:133-134 | the authorize URL starts with `SF_LOGIN_URL + "/services/oauth2/authorize?response_type=code"` and ends with `&code_challenge_method=S256` |
| `OAuth.AuthorizeUrlParams` | index.js:133-134 | the URL is the authorize endpoint, `?`, and a query from which a server reads back exactly `response_type`, `client_id`, `redirect_uri = APP_URL + "/oauth/callback"`, `state`, `code_challenge` and `code_challenge_method`, encoded |
| `OAuth.Login` | index.js:117-139 | 500 exactly when the client id (or app URL) is missing, and then the session is untouched; otherwise the regenerated session holds exactly the new `oauthState` and `codeVerifier` and no tokens, and the answer redirects to the authorize URL; no token request; keeps the session invariant |
| `OAuth.LoginFailsOnlyWithoutClientId` | index.js:118 | with the configuration of lines 15 and 17, login answers 500 if and only if `SF_CLIENT_ID` is missing |
| `OAuth.AuthErrorBody` | index.js:178 | the 500 body after a failed exchange is `Auth Error: ` followed by the provider's `error_description` when truthy, else the error's message |
| `OAuth.Callback` | index.js:142-180 | no `code`: 400, whatever `state` is, session unchanged; an exchange happens exactly when `code` and `state` are truthy and `state` equals the stored `oauthState`; otherwise 403, session unchanged, nothing sent; once both checks pass, `oauthState` and `codeVerifier` are deleted whatever the exchange's outcome; the request carries the code, the stored verifier and `APP_URL + "/oauth/callback"`; success stores the three tokens from the answer and redirects to `/app`; failure answers 500 with the description (or message) and leaves the token fields as they were |
| `OAuth.LoginThenCallback` | index.js:133-167 | after login, a callback returning the generated state posts exactly the verifier stored at login, and the `redirect_uri` it posts is the one the authorize URL carried |
| `OAuth.HexStateSentAsIs` | index.js:123-134 | a hex `state` appears in the authorize URL unencoded |
| `OAuth.ReplayRejected` | index.js:147-154 | replaying a callback that passed the checks answers 403 and sends nothing |
| `OAuth.FailedExchangeLeavesNoTokens` | index.js:172-178 | in a well-formed session, a failed exchange leaves no tokens, and `/app` redirects to `/login` |
| `OAuth.EnsureValidToken` | index.js:183-186 | the guard lets a request through exactly when `accessToken` and `instanceUrl` are both truthy, and otherwise redirects to `/login` |
| `OAuth.App` | index.js:189-190 | `/app` answers 200 exactly for an authenticated session, with the host page built from the session's instance URL and access token |
| `OAuth.RefreshAccessToken` | index.js:60-85 | resolves exactly when the provider grants; the new refresh token is the issued one when truthy, else the old one, so it is never empty when the old one was not |
| `OAuth.Refresh` | index.js:228-241 | with no truthy refresh token: redirect to `/login`, nothing changes, nothing sent; on success: new access token and instance URL, state and verifier unchanged, the refresh token replaced by the issued one when it is truthy and kept otherwise, redirect to `query.redirect` or `/app`; on failure: the session is destroyed and the redirect is `/login?error=session_expired` |
| `OAuth.RefreshKeepsRefreshToken` | index.js:79 | a successful refresh never loses the refresh token |
| `OAuth.RefreshFailureForcesLogin` | index.js:238-239 | after a failed refresh `/app` redirects to `/login` and another refresh has nothing to use |
| `OAuth.Logout` | index.js:223-225 | logout redirects to `/`, sends nothing, and destroys the session: none of the five fields is left |
| `OAuth.LogoutIdempotent` | index.js:224 | logging out twice is the same as logging out once |
| `OAuth.RunKeepsWellFormed` | index.js:117-241 | every sequence of requests keeps `oauthState` and `codeVerifier` stored together, and only while no token is stored |
| `OAuth.ReachableWellFormed` | index.js:117-241 | every session reachable from a fresh one satisfies that invariant |
| `OAuth.LoginToHostPage` | index.js:117-190 | fresh visitor, login, callback with the generated state and a granted exchange: redirect to `/app`, which then serves the host page for `https://inst.example.com` |
| `OAuth.UnauthenticatedScenarios` | index.js:145-184 | a callback with a code but no state answers 403; `/app` on a fresh session redirects to `/login` |
| `Routes.Session.Reset` | index.js:224 | `destroy` (and `regenerate`, index.js:120, 239) leaves the visitor a session with none of the five fields set |
| `Routes.Session.Login` | index.js:117-139 | the handler's field updates leave the session, and give the response, that `OAuth.Login` states |
| `Routes.Session.Callback` | index.js:142-180 | the handler's field updates, response and token request are those `OAuth.Callback` states |
| `Routes.Session.App` | index.js:183-190 | answers 200 exactly when the session is authenticated, with the response `OAuth.App` states; changes nothing |
| `Routes.Session.Refresh` | index.js:228-241 | the handler's field updates, response and token request are those `OAuth.Refresh` states |
| `Routes.Session.Logout` | index.js:223-225 | the destroyed session and the response are those `OAuth.Logout` states |

## Left out

- Express wiring, middleware order, `app.listen`, the catch-all error handler and the debug-logging middleware (index.js:24-57, 88-93, 247-256): HTTP framework plumbing with no effect on the session.
- Session cookie options (`secure`, `sameSite`, `httpOnly`, the rolling 30-minute `maxAge`) and the session identifier: the session library manages them. Expiry is wall-clock time, and a regenerated or destroyed session is modelled only by its five fields becoming unset.
- The `err` branches of `regenerate` and `save` (index.js:121, 131): no store is configured, so the in-memory store is used, and it never reports an error.
- The HTTP POSTs to the token endpoint (index.js:62-75, 159-170): network calls. The request is an output value and the reply an input.
- `crypto.randomBytes`, SHA-256 and base64url (index.js:123-125): the state, verifier and challenge are given strings. That the challenge is the S256 hash of the verifier is not modelled.
- Config.ToLower: folds only the ASCII letters `A`-`Z`, while `String.prototype.toLowerCase` also folds non-ASCII letters, which can change the length.
- Concurrent requests on one session: the session library gives each request its own copy of the session and writes it back when the response ends, so a second callback that arrives while the first awaits the token endpoint (index.js:159) still finds `oauthState` and passes the check at index.js:147. The model takes the requests on one session one at a time, and `OAuth.ReplayRejected` holds only under that ordering.
- Query values that the query parser turns into arrays or objects (`?state[]=x`) are not modelled. Such a value is truthy and never equals a stored string, so the callback would answer 403 for `state`.
- Token response fields that are JSON values other than strings are not modelled: the model takes each as an optional string.
- The HTML of `/` and `/app`, and the CSP, `nosniff` and `Referrer-Policy` header values (index.js:45-57, 96-114, 192-219): presentation and fixed strings. `/app` is modelled only as the instance URL and access token it embeds.
- The start-up exit on a missing `SESSION_SECRET` (index.js:19-22), `/health` and its timestamp (index.js:244): process control and the clock.
- dev-server.js, test-app.js and setup.js: a static status page, a smoke test and a `.env` writer, outside the session state machine.
