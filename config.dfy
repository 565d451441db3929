/** Start-up configuration of index.js (lines 11-17): the environment
    variables it reads and the fallbacks it applies. */
module Config {
  import opened Js

  /** The process environment as the server reads it; each variable may be
      unset. */
  datatype Env = Env(
    port: Option<string>,
    clientId: Option<string>,
    clientSecret: Option<string>,
    appUrl: Option<string>,
    replitHost: Option<string>,
    loginUrl: Option<string>)

  /** The values the route handlers use: `SF_CLIENT_ID`, `SF_CLIENT_SECRET`,
      `APP_URL` and `SF_LOGIN_URL`. */
  datatype Config = Config(
    clientId: Option<string>,
    clientSecret: Option<string>,
    appUrl: string,
    loginUrl: string)

  const DefaultPort := "5000"
  const DefaultLoginUrl := "https://login.salesforce.com"
  const LocalhostPrefix := "http://localhost:"

  predicate IsUpper(c: char) {
    'A' <= c <= 'Z'
  }

  /** `String.prototype.toLowerCase` on one character (ASCII letters only). */
  function LowerChar(c: char): (d: char)
    ensures !IsUpper(d)
    ensures !IsUpper(c) ==> d == c
    ensures IsUpper(c) ==> d as int - c as int == 'a' as int - 'A' as int
  {
    if IsUpper(c) then (c as int - 'A' as int + 'a' as int) as char else c
  }

  /** `String.prototype.toLowerCase` (ASCII letters only). */
  function ToLower(s: string): (r: string)
    ensures |r| == |s|
    ensures forall i :: 0 <= i < |r| ==> !IsUpper(r[i])
    ensures forall i :: 0 <= i < |s| && !IsUpper(s[i]) ==> r[i] == s[i]
    ensures forall i :: 0 <= i < |s| && IsUpper(s[i]) ==> r[i] as int == s[i] as int + ('a' as int - 'A' as int)
  {
    seq(|s|, i requires 0 <= i < |s| => LowerChar(s[i]))
  }

  /** `PORT`, `APP_URL` and `SF_LOGIN_URL` with their fallbacks. `APP_URL`
      falls back to `REPLIT_HOST` and then to the localhost address on
      `PORT` (itself defaulting to 5000), and is lower-cased;
      `SF_LOGIN_URL` falls back to the public login host. */
  function ConfigOf(env: Env): (c: Config)
    ensures c.clientId == env.clientId && c.clientSecret == env.clientSecret
    ensures Truthy(env.appUrl) ==> c.appUrl == ToLower(env.appUrl.value)
    ensures !Truthy(env.appUrl) && Truthy(env.replitHost) ==> c.appUrl == ToLower(env.replitHost.value)
    ensures !Truthy(env.appUrl) && !Truthy(env.replitHost) && !Truthy(env.port) ==>
              c.appUrl == LocalhostPrefix + DefaultPort
    ensures !Truthy(env.appUrl) && !Truthy(env.replitHost) && Truthy(env.port) ==>
              c.appUrl == ToLower(LocalhostPrefix + env.port.value)
    ensures Truthy(env.loginUrl) ==> c.loginUrl == env.loginUrl.value
    ensures !Truthy(env.loginUrl) ==> c.loginUrl == DefaultLoginUrl
    // the `!APP_URL` test of the login route can never succeed
    ensures c.appUrl != "" && c.loginUrl != ""
  {
    var port := Or(env.port, DefaultPort);
    var appUrl := ToLower(Or(env.appUrl, Or(env.replitHost, LocalhostPrefix + port)));
    assert !Truthy(env.appUrl) && !Truthy(env.replitHost) && !Truthy(env.port) ==>
      appUrl == LocalhostPrefix + DefaultPort by {
      if !Truthy(env.appUrl) && !Truthy(env.replitHost) && !Truthy(env.port) {
        var u := LocalhostPrefix + DefaultPort;
        assert forall i :: 0 <= i < |u| ==> !IsUpper(u[i]);
      }
    }
    Config(env.clientId, env.clientSecret, appUrl, Or(env.loginUrl, DefaultLoginUrl))
  }
}
