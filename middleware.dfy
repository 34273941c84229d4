/** The request gate in front of the dashboard: which requests pass, and which are sent to the
    login page. Verifying the token's signature is outside the model: its verdict arrives as
    `tokenValid`. */
module Middleware {
  import opened Wrappers
  import opened Text

  const Login := "/login"
  const AuthCookie := "auth-token"

  /** Let the request through, send it to `to`, or send it to `to` and delete cookie `cookie`. */
  datatype Decision = Next | Redirect(to: string) | RedirectAndClear(to: string, cookie: string)

  /** `middleware`: a path outside the dashboard, or under the password reset, passes; a
      dashboard request without a token goes to the login page, one with a valid token passes,
      and one with an invalid token goes to the login page with the cookie deleted. */
  function Gate(path: string, token: Option<string>, tokenValid: bool): (d: Decision)
    ensures !StartsWith(path, "/dashboard") ==> d == Next
    ensures StartsWith(path, "/dashboard") && (token.None? || token.value == "") ==> d == Redirect(Login)
    ensures StartsWith(path, "/dashboard") && token.Some? && token.value != "" && !tokenValid ==>
              d == RedirectAndClear(Login, AuthCookie)
    ensures d == Next <==> !StartsWith(path, "/dashboard") || (token.Some? && token.value != "" && tokenValid)
  {
    ResetIsNotDashboard(path);
    if !StartsWith(path, "/dashboard") || StartsWith(path, "/reset-password") then Next
    else if token.None? || token.value == "" then Redirect(Login)
    else if tokenValid then Next
    else RedirectAndClear(Login, AuthCookie)
  }

  /** No path starts with both prefixes, so the reset-password test never changes the decision. */
  lemma ResetIsNotDashboard(path: string)
    ensures StartsWith(path, "/reset-password") ==> !StartsWith(path, "/dashboard")
  {
    if StartsWith(path, "/reset-password") {
      assert path[1] == path[..15][1] == 'r';
    }
  }

  /** The paths `config.matcher` runs the gate on: `/dashboard` and `/reset-password`, each with
      any further segments. */
  predicate Matched(path: string)
  {
    path == "/dashboard" || StartsWith(path, "/dashboard/")
    || path == "/reset-password" || StartsWith(path, "/reset-password/")
  }

  /** What a request meets: the gate on matched paths, nothing on the others. */
  function Route(path: string, token: Option<string>, tokenValid: bool): (d: Decision)
    ensures !Matched(path) ==> d == Next
    ensures Matched(path) ==> d == Gate(path, token, tokenValid)
  {
    if Matched(path) then Gate(path, token, tokenValid) else Next
  }

  /** Every page under the dashboard needs a token that verifies, and password-reset pages
      never do. */
  lemma DashboardNeedsValidToken(path: string, token: Option<string>, tokenValid: bool)
    ensures (path == "/dashboard" || StartsWith(path, "/dashboard/")) ==>
              (Route(path, token, tokenValid) == Next <==> token.Some? && token.value != "" && tokenValid)
    ensures StartsWith(path, "/reset-password") ==> Route(path, token, tokenValid) == Next
  {
    if StartsWith(path, "/dashboard/") {
      assert path[..10] == "/dashboard/"[..10];
    }
  }
}
