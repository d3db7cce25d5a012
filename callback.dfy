/** The OAuth callback page: it reads `code` and `error` from the query string, exchanges the code for a
    token and a user, and routes on. */
module Callback {
  import opened Wrappers
  import Auth
  import Api

  const SelectRoleRoute := "/auth/select-role"
  const CompleteProfileRoute := "/auth/complete-profile"
  const FailedRoute := "/auth/select-role?error=authentication_failed"

  datatype AuthResponse = AuthResponse(token: string, user: Auth.User)

  /** A query parameter that is present and non-empty. */
  predicate Given(p: Option<string>) {
    p.Some? && p.value != ""
  }

  /** What the server answers to the code exchange, given the code and role posted and the request as
      the interceptor sent it. */
  type Exchange = (string, Option<Auth.Role>, Api.RequestConfig) -> Result<Api.Response<AuthResponse>, Api.HttpError>

  /** `POST /auth/callback`. */
  const ExchangeCall := Api.Call(Api.Post, "/auth/callback")

  /** The exchange's outcome when the stored token is `token`. */
  function Exchanged(code: string, pendingRole: Option<Auth.Role>, token: Option<string>, server: Exchange):
    Result<Api.Response<AuthResponse>, Api.HttpError>
  {
    server(code, pendingRole, Api.WithAuth(ExchangeCall, token))
  }

  /** Where the page leads: a provider error wins over a code; without a code back to role selection;
      otherwise on to profile completion when the exchange succeeds. */
  function CallbackRoute(
    code: Option<string>, error: Option<string>, pendingRole: Option<Auth.Role>, token: Option<string>,
    server: Exchange): (route: string)
    ensures Given(error) ==> route == SelectRoleRoute + "?error=" + error.value
    ensures !Given(error) && !Given(code) ==> route == SelectRoleRoute
    ensures !Given(error) && Given(code) ==>
      route == (if Exchanged(code.value, pendingRole, token, server).Success? then CompleteProfileRoute
                else FailedRoute)
  {
    if Given(error) then SelectRoleRoute + "?error=" + error.value
    else if !Given(code) then SelectRoleRoute
    else if Exchanged(code.value, pendingRole, token, server).Success? then CompleteProfileRoute
    else FailedRoute
  }

  /** The routes are told apart: only a completed exchange reaches profile completion. */
  lemma CompleteProfileOnlyAfterExchange(
    code: Option<string>, error: Option<string>, pendingRole: Option<Auth.Role>, token: Option<string>,
    server: Exchange)
    ensures CallbackRoute(code, error, pendingRole, token, server) == CompleteProfileRoute <==>
      !Given(error) && Given(code) && Exchanged(code.value, pendingRole, token, server).Success?
  {
  }

  /** `handleCallback`: the exchange goes through the client; only a completed exchange stores the token
      and the user, and a refused one leaves the session as the client's interceptor left it. */
  method HandleCallback(
    code: Option<string>, error: Option<string>, auth: Auth.AuthStore, client: Api.ApiClient,
    server: Exchange) returns (route: string)
    modifies auth`user, auth`isAuthenticated, client.window
    ensures route == CallbackRoute(code, error, old(auth.pendingRole), old(client.window.GetItem(Api.AuthTokenKey)), server)
    ensures !(!Given(error) && Given(code)) ==>
      unchanged(client.window) && auth.user == old(auth.user) && auth.isAuthenticated == old(auth.isAuthenticated)
    ensures !Given(error) && Given(code) ==>
      var r := Exchanged(code.value, old(auth.pendingRole), old(client.window.GetItem(Api.AuthTokenKey)), server);
      (r.Success? ==>
         client.window.storage == old(client.window.storage)[Api.AuthTokenKey := r.value.data.token]
         && client.window.location == old(client.window.location)
         && client.window.toasts == old(client.window.toasts)
         && auth.user == Some(r.value.data.user) && auth.isAuthenticated)
      && (r.Failure? ==>
         client.window.toasts == old(client.window.toasts) + [Api.ErrorReaction(r.error).message]
         && Api.SessionAfter(client.window, r.error)
         && auth.user == old(auth.user) && auth.isAuthenticated == old(auth.isAuthenticated))
  {
    if Given(error) {
      return SelectRoleRoute + "?error=" + error.value;
    }
    if !Given(code) {
      return SelectRoleRoute;
    }
    var role := auth.pendingRole;
    var sent, response := client.Request(ExchangeCall, c => server(code.value, role, c));
    if response.Failure? {
      return FailedRoute;
    }
    client.window.SetItem(Api.AuthTokenKey, response.value.token);
    auth.SetUser(Some(response.value.user));
    route := CompleteProfileRoute;
  }
}
