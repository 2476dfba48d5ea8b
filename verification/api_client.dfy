/**
 The API client of `src/lib/api.ts`: a request step that attaches the stored
 bearer token, a response step that classifies failures into exactly one toast
 (and, on 401, clears the token and redirects to the login view), and the
 token lifecycle of `authAPI.login` / `authAPI.logout`.

 Persisted storage, the browser location, the router's route and the toast
 queue are explicit state; the HTTP transport is replaced by the reply the
 backend would give.

 The application runs under a hash router, so the two places are distinct:
 `location` is the document path (`window.location.pathname`), which only a
 full page load changes, and `route` is the path after `#`, which
 `navigate()` changes and which decides the view shown. The document path
 is the application base (`/` in development, `/share-n-rent/` in a
 production build) until something assigns `window.location.href`.
 */
module ApiClient {
  import opened Wrappers
  import opened Notify

  /** The one key of persisted storage, the document path, the router's route, and the toasts shown so far. */
  datatype Client = Client(token: Option<string>, location: string, route: string, toasts: seq<Toast>)

  /** An outgoing request; only its header map matters here. */
  datatype Request = Request(headers: map<string, string>)

  /** The optional `message`/`error` fields of a JSON response body. */
  datatype Body = Body(message: Option<string>, error: Option<string>, token: Option<string>)

  /** A rejected call: a response with a status, or no response at all. */
  datatype Failure = HttpError(status: int, data: Body) | NoResponse

  /** What the backend answers to one call. */
  datatype Reply = Ok(body: Body) | Err(failure: Failure)

  const LoginPath := "/login"
  /** The route a hash router reads from a URL without a `#` part. */
  const RootRoute := "/"
  /** The document paths the application is served from. */
  const DevBase := "/"
  const ProdBase := "/share-n-rent/"
  const AuthHeader := "Authorization"

  const SessionExpired := Toast("Session expired", "Please log in again to continue.", Destructive)
  const AccessDenied := Toast("Access denied", "You do not have permission to perform this action.", Destructive)
  const NotFound := Toast("Resource not found", "The requested resource could not be found.", Destructive)
  const ServerError := Toast("Server error", "Something went wrong on our end. Please try again later.", Destructive)
  const GenericFallback := "Something went wrong. Please try again."
  const ConnectionError := Toast("Connection error", "Unable to connect to the server. Please check your internet connection.", Destructive)

  /** The toast for a status outside 401/403/404/500: the server message, else the fallback. */
  function GenericError(data: Body): (t: Toast)
    ensures t.title == "Error" && t.variant == Destructive && t.description != ""
    ensures Truthy(data.message) ==> t.description == data.message.value
    ensures !Truthy(data.message) ==> t.description == GenericFallback
    ensures t != SessionExpired && t != AccessDenied && t != NotFound && t != ServerError && t != ConnectionError
  {
    Toast("Error", OrElse(data.message, GenericFallback), Destructive)
  }

  /** The request interceptor: attach `Bearer <token>` when the stored token is truthy. */
  function AttachToken(c: Client, req: Request): (r: Request)
    ensures Truthy(c.token) ==> r.headers == req.headers[AuthHeader := "Bearer " + c.token.value]
    ensures !Truthy(c.token) ==> r == req
  {
    if Truthy(c.token) then Request(req.headers[AuthHeader := "Bearer " + c.token.value]) else req
  }

  /** The toast the response interceptor shows for one failure. */
  function Classify(f: Failure): (t: Toast)
    ensures f.NoResponse? ==> t == ConnectionError
    ensures f.HttpError? && f.status == 401 ==> t == SessionExpired
    ensures f.HttpError? && f.status == 403 ==> t == AccessDenied
    ensures f.HttpError? && f.status == 404 ==> t == NotFound
    ensures f.HttpError? && f.status == 500 ==> t == ServerError
    ensures f.HttpError? && f.status !in {401, 403, 404, 500} ==>
              t.title == "Error" && t.description == OrElse(f.data.message, GenericFallback)
  {
    match f
    case NoResponse => ConnectionError
    case HttpError(status, data) =>
      if status == 401 then SessionExpired
      else if status == 403 then AccessDenied
      else if status == 404 then NotFound
      else if status == 500 then ServerError
      else GenericError(data)
  }

  /**
   The error branch of the response interceptor: the client after the failure
   is handled. A 401 whose document path is not `/login` assigns
   `window.location.href`: a page load of the document `/login`, whose URL
   has no `#` part, so the router starts again at the root route.
   */
  function OnFailure(c: Client, f: Failure): (c': Client)
    ensures c'.toasts == c.toasts + [Classify(f)]
    ensures f.HttpError? && f.status == 401 ==> c'.token == None
    ensures !(f.HttpError? && f.status == 401) ==> c'.token == c.token && c'.location == c.location && c'.route == c.route
    ensures f.HttpError? && f.status == 401 && c.location != LoginPath ==> c'.location == LoginPath && c'.route == RootRoute
    ensures c.location == LoginPath ==> c'.location == c.location && c'.route == c.route
  {
    var cleared :=
      if f.HttpError? && f.status == 401 then
        if c.location != LoginPath then c.(token := None, location := LoginPath, route := RootRoute)
        else c.(token := None)
      else c;
    cleared.(toasts := c.toasts + [Classify(f)])
  }

  /**
   One call through the client: the success branch passes the body through
   unchanged, the error branch handles the failure and rejects with it.
   */
  function Call(c: Client, reply: Reply): (r: (Client, Reply))
    ensures reply.Ok? ==> r == (c, reply)
    ensures reply.Err? ==> r.1 == reply && r.0 == OnFailure(c, reply.failure)
  {
    match reply
    case Ok(_) => (c, reply)
    case Err(f) => (OnFailure(c, f), reply)
  }

  /** `authAPI.login`: one call, then the token is stored only when the body carries a truthy one. */
  function Login(c: Client, reply: Reply): (r: (Client, Reply))
    ensures r.1 == reply
    ensures reply.Ok? && Truthy(reply.body.token) ==> r.0 == c.(token := reply.body.token)
    ensures reply.Ok? && !Truthy(reply.body.token) ==> r.0 == c
    ensures reply.Err? ==> r.0 == OnFailure(c, reply.failure)
  {
    var (c1, rep) := Call(c, reply);
    if rep.Ok? && Truthy(rep.body.token) then (c1.(token := rep.body.token), rep) else (c1, rep)
  }

  /** `authAPI.logout`: only the stored token changes, and it becomes absent. */
  function Logout(c: Client): (c': Client)
    ensures c'.token == None
    ensures c'.location == c.location && c'.route == c.route && c'.toasts == c.toasts
  {
    c.(token := None)
  }

  /**
   The text a page shows for a rejected call: the body's `message`, else its
   `error`, else the page's own default.
   */
  function ErrorText(f: Failure, default: string): (m: string)
    ensures f.HttpError? && Truthy(f.data.message) ==> m == f.data.message.value
    ensures f.HttpError? && !Truthy(f.data.message) && Truthy(f.data.error) ==> m == f.data.error.value
    ensures f.NoResponse? || (!Truthy(f.data.message) && !Truthy(f.data.error)) ==> m == default
  {
    match f
    case NoResponse => default
    case HttpError(_, data) => OrElse(data.message, OrElse(data.error, default))
  }

  /**
   The form's text and the global toast agree on an ordinary status whose
   body has a message: both show that message. The form text never depends
   on the status, while the toast does.
   */
  lemma FormTextMatchesToast(f: Failure, default: string, s: int)
    ensures f.HttpError? && f.status !in {401, 403, 404, 500} && Truthy(f.data.message) ==>
              ErrorText(f, default) == Classify(f).description
    ensures f.HttpError? ==> ErrorText(f, default) == ErrorText(HttpError(s, f.data), default)
  {
  }

  /** The states the token store reaches: a stored token is never the empty string. */
  predicate TokenValid(c: Client) {
    c.token.Some? ==> c.token.value != ""
  }

  /** Every call, login and logout keeps the stored token valid. */
  lemma TokenValidPreserved(c: Client, reply: Reply)
    requires TokenValid(c)
    ensures TokenValid(Call(c, reply).0)
    ensures TokenValid(Login(c, reply).0)
    ensures TokenValid(Logout(c))
  {
  }

  /** With a valid token store, a request carries an Authorization header iff a token is stored. */
  lemma HeaderIffToken(c: Client, req: Request)
    requires TokenValid(c)
    requires AuthHeader !in req.headers
    ensures AuthHeader in AttachToken(c, req).headers <==> c.token.Some?
    ensures c.token.Some? ==> AttachToken(c, req).headers[AuthHeader] == "Bearer " + c.token.value
  {
  }

  /** Every failure adds exactly one toast, and only a 401 touches the token. */
  lemma OneToastPerFailure(c: Client, f: Failure)
    ensures |OnFailure(c, f).toasts| == |c.toasts| + 1
    ensures OnFailure(c, f).toasts[|c.toasts|] == Classify(f)
    ensures OnFailure(c, f).token != c.token ==> f.HttpError? && f.status == 401
  {
  }

  /** The connectivity toast differs from every toast a server response can produce. */
  lemma ConnectionErrorDistinct(f: Failure)
    requires f.HttpError?
    ensures Classify(f) != ConnectionError
  {
  }

  /** A 500 shows the fixed server-error text, never the body's own message. */
  lemma ServerErrorIgnoresMessage(c: Client, m: string)
    ensures Call(c, Err(HttpError(500, Body(Some(m), None, None)))).0.toasts == c.toasts + [ServerError]
  {
  }

  /** Login with `{token: "abc"}`, then any request carries `Bearer abc`. */
  lemma LoginThenRequestCarriesToken(c: Client, req: Request)
    ensures var c1 := Login(c, Ok(Body(None, None, Some("abc")))).0;
            AttachToken(c1, req).headers[AuthHeader] == "Bearer abc"
  {
  }

  /** After logout a request goes out with exactly the headers it had. */
  lemma LogoutThenRequestUnchanged(c: Client, req: Request)
    ensures AttachToken(Logout(c), req) == req
  {
  }

  /** A 401 on any document but `/login`: token absent, the document `/login` loaded, one toast. */
  lemma UnauthorizedElsewhere(c: Client, data: Body)
    requires c.location != LoginPath
    ensures var c' := Call(c, Err(HttpError(401, data))).0;
            c'.token == None && c'.location == LoginPath && c'.location != c.location &&
            c'.route == RootRoute && c'.toasts == c.toasts + [SessionExpired]
  {
  }

  /**
   The application's own documents are never `/login`, so while it runs from
   its base, every 401 (on whatever route, the sign-in view included) loads
   the document `/login`.
   */
  lemma UnauthorizedFromBase(c: Client, data: Body)
    requires c.location == DevBase || c.location == ProdBase
    ensures var c' := Call(c, Err(HttpError(401, data))).0;
            c'.location == LoginPath && c'.location != c.location && c'.route == RootRoute
  {
    UnauthorizedElsewhere(c, data);
  }
}
