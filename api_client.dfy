/** The HTTP client wrapper: a request interceptor that attaches the stored bearer token, a response
    interceptor that turns each kind of failure into a message (and, for 401, a sign-out), and verb
    methods that hand back the response body. */
module Api {
  import opened Wrappers
  import Browser

  const AuthTokenKey := "auth_token"
  const AuthorizationHeader := "Authorization"
  const SignInRoute := "/auth/select-role"

  const SessionExpiredMessage := "Session expired. Please login again."
  const ForbiddenMessage := "You don't have permission to perform this action."
  const NotFoundMessage := "Resource not found."
  const ServerErrorMessage := "Server error. Please try again later."
  const GenericErrorMessage := "An error occurred. Please try again."
  const NetworkErrorMessage := "Network error. Please check your connection."
  const UnexpectedErrorMessage := "An unexpected error occurred."

  datatype Verb = Get | Post | Put | Patch | Delete

  /** The part of an outgoing request the interceptor looks at; `headers` may be missing. */
  datatype RequestConfig = RequestConfig(verb: Verb, url: string, headers: Option<map<string, string>>)

  /** A failed request, by what axios knows of it: an error response, a request that got no
      response, or a request that was never sent. */
  datatype HttpError =
    | ErrorResponse(status: int, bodyMessage: Option<string>)
    | NoResponse
    | NotSent

  datatype Response<T> = Response(status: int, data: T)

  predicate IsUnauthorized(e: HttpError) {
    e.ErrorResponse? && e.status == 401
  }

  /** The instance's default header: every request leaves with a header object. */
  const DefaultHeaders: map<string, string> := map["Content-Type" := "application/json"]

  /** A call through the instance before the interceptors see it. */
  function Call(verb: Verb, url: string): RequestConfig {
    RequestConfig(verb, url, Some(DefaultHeaders))
  }

  /** What the response interceptor does about an error besides rejecting with it. */
  datatype Reaction = Reaction(message: string, clearToken: bool, redirect: Option<string>)

  /** The request interceptor: with a non-empty stored token and a header object, set
      `Authorization: Bearer <token>`; otherwise pass the config through. */
  function WithAuth(config: RequestConfig, token: Option<string>): (r: RequestConfig)
    ensures r.verb == config.verb && r.url == config.url
    ensures r.headers.Some? <==> config.headers.Some?
    ensures token.Some? && token.value != "" && config.headers.Some? ==>
      && AuthorizationHeader in r.headers.value
      && r.headers.value[AuthorizationHeader] == "Bearer " + token.value
      && forall h :: h != AuthorizationHeader ==>
           (h in r.headers.value <==> h in config.headers.value)
           && (h in config.headers.value ==> r.headers.value[h] == config.headers.value[h])
    ensures !(token.Some? && token.value != "" && config.headers.Some?) ==> r == config
  {
    if token.Some? && token.value != "" && config.headers.Some? then
      config.(headers := Some(config.headers.value[AuthorizationHeader := "Bearer " + token.value]))
    else
      config
  }

  /** `data?.message || "An error occurred..."`: an empty message counts as none. */
  function DefaultMessage(bodyMessage: Option<string>): (m: string)
    ensures m != ""
    ensures bodyMessage.Some? && bodyMessage.value != "" ==> m == bodyMessage.value
  {
    if bodyMessage.Some? && bodyMessage.value != "" then bodyMessage.value else GenericErrorMessage
  }

  /** The response interceptor's decision table. */
  function ErrorReaction(e: HttpError): (r: Reaction)
    ensures r.message != ""
    ensures r.clearToken <==> IsUnauthorized(e)
    ensures r.redirect.Some? <==> r.clearToken
    ensures r.redirect.Some? ==> r.redirect.value == SignInRoute
    ensures e.ErrorResponse? && e.status == 401 ==> r.message == SessionExpiredMessage
    ensures e.ErrorResponse? && e.status == 403 ==> r.message == ForbiddenMessage
    ensures e.ErrorResponse? && e.status == 404 ==> r.message == NotFoundMessage
    ensures e.ErrorResponse? && e.status == 500 ==> r.message == ServerErrorMessage
    ensures e.ErrorResponse? && e.status !in {401, 403, 404, 500} ==> r.message == DefaultMessage(e.bodyMessage)
    ensures e.NoResponse? ==> r.message == NetworkErrorMessage
    ensures e.NotSent? ==> r.message == UnexpectedErrorMessage
  {
    match e
    case ErrorResponse(status, bodyMessage) =>
      if status == 401 then Reaction(SessionExpiredMessage, true, Some(SignInRoute))
      else if status == 403 then Reaction(ForbiddenMessage, false, None)
      else if status == 404 then Reaction(NotFoundMessage, false, None)
      else if status == 500 then Reaction(ServerErrorMessage, false, None)
      else Reaction(DefaultMessage(bodyMessage), false, None)
    case NoResponse => Reaction(NetworkErrorMessage, false, None)
    case NotSent => Reaction(UnexpectedErrorMessage, false, None)
  }

  /** A message from the server is shown only for statuses the table has no fixed message for. */
  lemma ServerMessageShownOnlyForOtherStatuses(e: HttpError, m: string)
    requires m != "" && m !in {SessionExpiredMessage, ForbiddenMessage, NotFoundMessage, ServerErrorMessage,
                              GenericErrorMessage, NetworkErrorMessage, UnexpectedErrorMessage}
    ensures ErrorReaction(e).message == m <==>
              e.ErrorResponse? && e.status !in {401, 403, 404, 500} && e.bodyMessage == Some(m)
  {
  }

  /** The session as the response interceptor leaves it after `e`: on 401 the token is gone and the page
      is on role selection; after any other error both are as they were. */
  twostate predicate SessionAfter(w: Browser.Window, e: HttpError)
    reads w
  {
    && w.storage == (if IsUnauthorized(e) then old(w.storage) - {AuthTokenKey} else old(w.storage))
    && w.location == (if IsUnauthorized(e) then SignInRoute else old(w.location))
  }

  class ApiClient {
    const window: Browser.Window

    constructor (w: Browser.Window)
      ensures window == w
    {
      window := w;
    }

    /** The request interceptor, reading the token from `localStorage`. */
    method Intercept(config: RequestConfig) returns (sent: RequestConfig)
      ensures sent == WithAuth(config, window.GetItem(AuthTokenKey))
    {
      var token := window.GetItem(AuthTokenKey);
      sent := WithAuth(config, token);
    }

    /** The response interceptor's error path: react, then reject with the same error. */
    method OnError(e: HttpError) returns (rejected: HttpError)
      modifies window
      ensures rejected == e
      ensures window.toasts == old(window.toasts) + [ErrorReaction(e).message]
      ensures SessionAfter(window, e)
    {
      var reaction := ErrorReaction(e);
      if reaction.clearToken {
        window.RemoveItem(AuthTokenKey);
      }
      if reaction.redirect.Some? {
        window.Assign(reaction.redirect.value);
      }
      window.Toast(reaction.message);
      rejected := e;
    }

    /** `get` / `post` / `put` / `patch` / `delete`: send through the interceptors and return
        `response.data`. What the server answers to the request actually sent is the parameter `server`. */
    method Request<T>(config: RequestConfig, server: RequestConfig -> Result<Response<T>, HttpError>)
      returns (sent: RequestConfig, r: Result<T, HttpError>)
      modifies window
      ensures sent == WithAuth(config, old(window.GetItem(AuthTokenKey)))
      ensures server(sent).Success? ==> r == Success(server(sent).value.data) && unchanged(window)
      ensures server(sent).Failure? ==> r == Failure(server(sent).error)
      ensures server(sent).Failure? ==>
        window.toasts == old(window.toasts) + [ErrorReaction(server(sent).error).message]
        && SessionAfter(window, server(sent).error)
    {
      sent := Intercept(config);
      var outcome := server(sent);
      match outcome
      case Success(response) =>
        r := Success(response.data);
      case Failure(e) =>
        var rejected := OnError(e);
        r := Failure(rejected);
    }
  }
}
