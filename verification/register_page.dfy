/**
 The sign-up form of `src/pages/Register.tsx`: field edits (a password edit
 clears the password error), the password check (mismatch before length),
 the terms check, the payload without the confirmation field, and the
 message/error/default fallback on a rejected call.
 */
module RegisterPage {
  import opened Wrappers
  import opened Notify
  import ApiClient
  import LoginPage

  datatype Fields = Fields(firstName: string, lastName: string, email: string, password: string, passwordConfirm: string)

  /** The `name` attributes of the form's inputs. */
  datatype Field = FirstName | LastName | Email | Password | PasswordConfirm

  datatype Page = Page(form: Fields, agreeTerms: bool, loading: bool, error: string, passwordError: string)

  /** The body handed to `authAPI.register`: the form without `password_confirm`. */
  datatype Payload = Payload(firstName: string, lastName: string, email: string, password: string)

  const Initial := Page(Fields("", "", "", "", ""), false, false, "", "")

  const Mismatch := "Passwords do not match"
  const TooShort := "Password must be at least 8 characters"
  const MinLength := 8
  const TermsRequired := "You must agree to the Terms of Service and Privacy Policy"
  const DefaultError := "Registration failed. Please try again."
  const Registered := Toast("Registration successful", "Your account has been created. Please log in.", Default)

  function Get(f: Fields, k: Field): string {
    match k
    case FirstName => f.firstName
    case LastName => f.lastName
    case Email => f.email
    case Password => f.password
    case PasswordConfirm => f.passwordConfirm
  }

  /** Writing one field: that field takes the value, every other keeps its own. */
  function Set(f: Fields, k: Field, v: string): (f': Fields)
    ensures Get(f', k) == v
    ensures forall j :: j != k ==> Get(f', j) == Get(f, j)
  {
    match k
    case FirstName => f.(firstName := v)
    case LastName => f.(lastName := v)
    case Email => f.(email := v)
    case Password => f.(password := v)
    case PasswordConfirm => f.(passwordConfirm := v)
  }

  /** Typing in one input; a password input also clears the password error. */
  function HandleChange(p: Page, k: Field, v: string): (p': Page)
    ensures p'.form == Set(p.form, k, v)
    ensures k in {Password, PasswordConfirm} ==> p'.passwordError == ""
    ensures k !in {Password, PasswordConfirm} ==> p'.passwordError == p.passwordError
    ensures p'.agreeTerms == p.agreeTerms && p'.loading == p.loading && p'.error == p.error
  {
    var p1 := p.(form := Set(p.form, k, v));
    if k == Password || k == PasswordConfirm then p1.(passwordError := "") else p1
  }

  /** The password check: `None` when it passes, otherwise the message it shows. */
  function CheckPasswords(f: Fields): (r: Option<string>)
    ensures r == None <==> f.password == f.passwordConfirm && |f.password| >= MinLength
    ensures f.password != f.passwordConfirm ==> r == Some(Mismatch)
    ensures f.password == f.passwordConfirm && |f.password| < MinLength ==> r == Some(TooShort)
  {
    if f.password != f.passwordConfirm then Some(Mismatch)
    else if |f.password| < MinLength then Some(TooShort)
    else None
  }

  /** The destructuring `{ password_confirm, ...registerData }`. */
  function ToPayload(f: Fields): (d: Payload)
    ensures d.firstName == f.firstName && d.lastName == f.lastName
    ensures d.email == f.email && d.password == f.password
  {
    Payload(f.firstName, f.lastName, f.email, f.password)
  }

  /** What one submission produced: the page, the client, and the payload sent if a call was made. */
  datatype Outcome = Outcome(page: Page, client: ApiClient.Client, sent: Option<Payload>)

  /** Submitting the form against the backend's `reply`. */
  function Submit(p: Page, c: ApiClient.Client, reply: ApiClient.Reply): (o: Outcome)
    ensures o.page.form == p.form && o.page.agreeTerms == p.agreeTerms
    ensures o.sent.Some? <==> CheckPasswords(p.form) == None && p.agreeTerms
    ensures o.sent.Some? ==> o.sent.value == ToPayload(p.form)
    ensures o.sent == None ==> o.client == c && o.page.loading == p.loading
    ensures CheckPasswords(p.form).Some? ==>
              o.page.passwordError == CheckPasswords(p.form).value && o.page.error == ""
    ensures CheckPasswords(p.form) == None ==> o.page.passwordError == ""
    ensures CheckPasswords(p.form) == None && !p.agreeTerms ==> o.page.error == TermsRequired
    ensures o.sent.Some? && reply.Ok? ==>
              o.page.error == "" && o.client == c.(toasts := c.toasts + [Registered], route := ApiClient.LoginPath)
    ensures o.sent.Some? && reply.Err? ==>
              o.page.error == ApiClient.ErrorText(reply.failure, DefaultError) &&
              o.client == ApiClient.OnFailure(c, reply.failure)
    ensures o.sent.Some? ==> !o.page.loading
  {
    var cleared := p.(error := "", passwordError := "");
    match CheckPasswords(p.form)
    case Some(msg) => Outcome(cleared.(passwordError := msg), c, None)
    case None =>
      if !p.agreeTerms then Outcome(cleared.(error := TermsRequired), c, None)
      else
        var (c1, rep) := ApiClient.Call(c, reply);
        match rep
        case Ok(_) =>
          Outcome(cleared.(loading := false), c1.(toasts := c1.toasts + [Registered], route := ApiClient.LoginPath), Some(ToPayload(p.form)))
        case Err(f) =>
          Outcome(cleared.(loading := false, error := ApiClient.ErrorText(f, DefaultError)), c1, Some(ToPayload(p.form)))
  }

  /** Mismatched passwords are reported as a mismatch whatever their length. */
  lemma MismatchBeforeLength(f: Fields)
    requires f.password != f.passwordConfirm
    requires |f.password| < MinLength && |f.passwordConfirm| < MinLength
    ensures CheckPasswords(f) == Some(Mismatch)
  {
  }

  /** A failed password check hides the terms error: the two errors never show together. */
  lemma PasswordCheckBeforeTerms(p: Page, c: ApiClient.Client, reply: ApiClient.Reply)
    requires CheckPasswords(p.form).Some? && !p.agreeTerms
    ensures Submit(p, c, reply).page.error == ""
    ensures Submit(p, c, reply).sent == None
  {
  }

  /** Re-typing the password after a rejected submit clears the shown password error. */
  lemma RetypeClearsPasswordError(p: Page, c: ApiClient.Client, reply: ApiClient.Reply, v: string)
    requires CheckPasswords(p.form).Some?
    ensures Submit(p, c, reply).page.passwordError != ""
    ensures HandleChange(Submit(p, c, reply).page, Password, v).passwordError == ""
  {
  }

  /**
   A successful sign-up shows the sign-in view by routing alone: the document
   is still the application base. A sign-in there that is rejected with 401
   therefore leaves for the document `/login`.
   */
  lemma SignUpThenRejectedSignIn(p: Page, c: ApiClient.Client, ok: ApiClient.Body, q: LoginPage.Form, bad: ApiClient.Body)
    requires CheckPasswords(p.form) == None && p.agreeTerms
    requires c.location == ApiClient.DevBase || c.location == ApiClient.ProdBase
    ensures var c1 := Submit(p, c, ApiClient.Ok(ok)).client;
            c1.route == ApiClient.LoginPath && c1.location == c.location &&
            LoginPage.Submit(q, c1, ApiClient.Err(ApiClient.HttpError(401, bad))).1.location == ApiClient.LoginPath
  {
    var c1 := Submit(p, c, ApiClient.Ok(ok)).client;
    ApiClient.UnauthorizedFromBase(c1, bad);
  }

  /** The payload together with the confirmation field gives the form back when the check passed. */
  lemma PayloadRoundTrip(f: Fields)
    requires CheckPasswords(f) == None
    ensures var d := ToPayload(f);
            Fields(d.firstName, d.lastName, d.email, d.password, d.password) == f
  {
  }
}
