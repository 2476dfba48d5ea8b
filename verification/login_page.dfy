/**
 The sign-in form of `src/pages/Login.tsx`: submit clears the error and
 shows the loading state, calls `authAPI.login`, and then either welcomes
 the user and goes home or shows the best error text the failure carries.
 */
module LoginPage {
  import opened Wrappers
  import opened Notify
  import ApiClient

  datatype Form = Form(email: string, password: string, rememberMe: bool, loading: bool, error: string)

  const Initial := Form("", "", false, false, "")

  const Welcome := Toast("Login successful", "Welcome back to ShareRent!", Default)
  const DefaultError := "Invalid credentials. Please check your email and password."

  /** The arguments handed to `authAPI.login`. */
  function Credentials(p: Form): (r: (string, string))
    ensures r.0 == p.email && r.1 == p.password
  {
    (p.email, p.password)
  }

  /** The form while the call is in flight: error cleared, loading shown. */
  function BeginSubmit(p: Form): (p': Form)
    ensures p'.error == "" && p'.loading
    ensures p'.email == p.email && p'.password == p.password && p'.rememberMe == p.rememberMe
  {
    p.(error := "", loading := true)
  }

  /** Submitting the form against the backend's `reply`; returns the form and the client. */
  function Submit(p: Form, c: ApiClient.Client, reply: ApiClient.Reply): (r: (Form, ApiClient.Client))
    ensures !r.0.loading
    ensures r.0.email == p.email && r.0.password == p.password && r.0.rememberMe == p.rememberMe
    ensures reply.Ok? ==> r.0.error == "" && r.1.route == ApiClient.RootRoute && r.1.location == c.location
    ensures reply.Ok? ==> r.1.toasts == c.toasts + [Welcome]
    ensures reply.Ok? ==> r.1.token == ApiClient.Login(c, reply).0.token
    ensures reply.Err? ==> r.0.error == ApiClient.ErrorText(reply.failure, DefaultError)
    ensures reply.Err? ==> r.1 == ApiClient.OnFailure(c, reply.failure)
  {
    var inFlight := BeginSubmit(p);
    var (c1, rep) := ApiClient.Login(c, reply);
    match rep
    case Ok(_) =>
      (inFlight.(loading := false), c1.(toasts := c1.toasts + [Welcome], route := ApiClient.RootRoute))
    case Err(f) =>
      (inFlight.(loading := false, error := ApiClient.ErrorText(f, DefaultError)), c1)
  }

  /**
   The in-flight state is transient: a stale error or loading flag never
   outlives a submission, and the settled form is the in-flight one with
   loading off and the outcome's error.
   */
  lemma BeginSubmitTransient(p: Form, e: string, busy: bool, c: ApiClient.Client, reply: ApiClient.Reply)
    ensures Submit(p.(error := e, loading := busy), c, reply) == Submit(p, c, reply)
    ensures Submit(BeginSubmit(p), c, reply) == Submit(p, c, reply)
    ensures var r := Submit(p, c, reply).0;
            r == BeginSubmit(p).(loading := false, error := r.error)
  {
  }

  /** The remember-me box changes neither the call nor anything the submit produces. */
  lemma RememberMeIrrelevant(p: Form, b: bool, c: ApiClient.Client, reply: ApiClient.Reply)
    ensures Credentials(p.(rememberMe := b)) == Credentials(p)
    ensures Submit(p.(rememberMe := b), c, reply).1 == Submit(p, c, reply).1
    ensures Submit(p.(rememberMe := b), c, reply).0 == Submit(p, c, reply).0.(rememberMe := b)
  {
  }

  /** A successful sign-in whose body carries a token leaves the user logged in on the home view. */
  lemma SuccessLogsIn(p: Form, c: ApiClient.Client, t: string)
    requires t != ""
    ensures var r := Submit(p, c, ApiClient.Ok(ApiClient.Body(None, None, Some(t))));
            r.1.token == Some(t) && r.1.route == ApiClient.RootRoute && r.1.location == c.location && r.0.error == ""
  {
  }

  /**
   Wrong credentials answered with 401 on the sign-in view. The view is the
   route `/login` of a document served from the application base, so the
   response step's pathname test passes: the token is cleared, the toast
   says the session expired, and the document `/login` is loaded. The
   server's message is set on a form that this page load discards.
   */
  lemma UnauthorizedOnLoginView(p: Form, c: ApiClient.Client, m: string)
    requires c.route == ApiClient.LoginPath
    requires c.location == ApiClient.DevBase || c.location == ApiClient.ProdBase
    requires m != ""
    ensures var r := Submit(p, c, ApiClient.Err(ApiClient.HttpError(401, ApiClient.Body(Some(m), None, None))));
            r.1.token == None && r.1.toasts == c.toasts + [ApiClient.SessionExpired] &&
            r.1.location == ApiClient.LoginPath && r.1.location != c.location &&
            r.1.route == ApiClient.RootRoute && r.0.error == m
  {
  }
}
