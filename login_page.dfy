/** The sign-in / sign-up page (src/pages/Login.tsx): the form record and its
    single-field updates, the required-field checks, the mode that picks the
    call, where a successful submit leads, and how an error becomes the
    message shown to the user. */
module LoginPage {
  import opened Common
  import Api
  import Auth
  import RouteGuard

  datatype Form = Form(username: string, email: string, password: string)

  /** The names of the form's inputs. */
  datatype Field = Username | Email | Password

  function FieldValue(f: Form, field: Field): string {
    match field
    case Username => f.username
    case Email => f.email
    case Password => f.password
  }

  /** `{ ...formData, [name]: value }`: only the named field changes. */
  function SetField(f: Form, field: Field, value: string): (g: Form)
    ensures FieldValue(g, field) == value
    ensures forall other :: other != field ==> FieldValue(g, other) == FieldValue(f, other)
  {
    match field
    case Username => f.(username := value)
    case Email => f.(email := value)
    case Password => f.(password := value)
  }

  const FillRequiredToast := "Please fill in all required fields"
  const EmailRequiredToast := "Email is required for registration"

  /** The submit checks, in order: username and password must be non-empty;
      in registration mode so must the email. Returns the message of the
      first check that fails. */
  function MissingField(isLogin: bool, form: Form): (e: Option<string>)
    ensures e.None? <==> form.username != "" && form.password != "" && (isLogin || form.email != "")
    ensures e == Some(FillRequiredToast) <==> form.username == "" || form.password == ""
    ensures e == Some(EmailRequiredToast) <==>
      form.username != "" && form.password != "" && !isLogin && form.email == ""
  {
    if form.username == "" || form.password == "" then Some(FillRequiredToast)
    else if !isLogin && form.email == "" then Some(EmailRequiredToast)
    else None
  }

  /** `location.state?.from?.pathname || '/dashboard'`: where to go after a
      successful submit. */
  function Destination(recorded: Option<string>): (to: string)
    ensures to != ""
    ensures Truthy(recorded) ==> to == recorded.value
    ensures !Truthy(recorded) ==> to == DashboardRoute
  {
    if Truthy(recorded) then recorded.value else DashboardRoute
  }

  /** The guard's redirect and the login page's destination agree: a user
      sent away from a protected page returns to that page after signing in
      (to the dashboard when the recorded path is empty). */
  lemma ReturnsToGuardedPage(isAuthenticated: bool, location: RouteGuard.Location)
    requires !isAuthenticated
    ensures var d := RouteGuard.Decide(false, isAuthenticated, location);
      d.Redirect? && d.to == LoginRoute
      && Destination(Some(d.from.pathname)) ==
         (if location.pathname != "" then location.pathname else DashboardRoute)
  {
  }

  const InvalidCredentialsToast := "Invalid username or password"
  const FallbackErrorToast := "Authentication failed"

  /** The message shown for a failed submit, classified by substring: a
      "401" or "Invalid credentials" means bad credentials; otherwise a "400"
      means bad input; otherwise the message itself, or a fixed text when it
      is empty. */
  function ErrorToast(message: string): (t: string)
    ensures t != ""
    ensures Includes(message, "401") || Includes(message, "Invalid credentials") ==> t == InvalidCredentialsToast
    ensures !Includes(message, "401") && !Includes(message, "Invalid credentials") && Includes(message, "400") ==>
      t == CheckInputToast
    ensures !Includes(message, "401") && !Includes(message, "Invalid credentials") && !Includes(message, "400") ==>
      t == (if message == "" then FallbackErrorToast else message)
  {
    var shown := if message == "" then FallbackErrorToast else message;
    FallbackUnclassified();
    if Includes(shown, "401") || Includes(shown, "Invalid credentials") then InvalidCredentialsToast
    else if Includes(shown, "400") then CheckInputToast
    else shown
  }

  /** The fixed text for an empty message is itself left unclassified. */
  lemma FallbackUnclassified()
    ensures !Includes(FallbackErrorToast, "401") && !Includes(FallbackErrorToast, "400")
    ensures !Includes(FallbackErrorToast, "Invalid credentials")
  {
    assert '4' !in FallbackErrorToast && 'I' !in FallbackErrorToast;
    NotIncludesWithoutFirstChar(FallbackErrorToast, "401");
    NotIncludesWithoutFirstChar(FallbackErrorToast, "400");
    NotIncludesWithoutFirstChar(FallbackErrorToast, "Invalid credentials");
  }

  /** A 401 from the server settles as "Authentication required", which names
      neither "401" nor "Invalid credentials" nor "400": the page shows that
      text as it is, never the invalid-credentials message. */
  lemma UnauthorizedShownVerbatim(reply: Api.Reply<Api.AuthResponse>)
    requires Api.Unauthorized(reply)
    ensures Api.Settle(reply).Err?
    ensures ErrorToast(Api.Settle(reply).message) == Api.AuthRequiredMessage
  {
    Api.SettleCases(reply);
    AuthRequiredUnclassified();
  }

  /** "Authentication required" names none of the classified substrings. */
  lemma AuthRequiredUnclassified()
    ensures ErrorToast(Api.AuthRequiredMessage) == Api.AuthRequiredMessage
  {
    var m := Api.AuthRequiredMessage;
    Api.AuthRequiredMessageNamesNoStatus();
    NotIncludesWithoutFirstChar(m, "401");
    NotIncludesWithoutFirstChar(m, "400");
    NotIncludesWithoutFirstChar(m, "Invalid credentials");
  }

  /** A 400 answer without a server message is reported as bad input, unless
      its status text happens to mention bad credentials. */
  lemma BadRequestClassified(statusText: string)
    ensures ErrorToast(Api.HttpErrorMessage(400, statusText, None)) in {InvalidCredentialsToast, CheckInputToast}
  {
    assert NatToString(400) == "400";
    Api.HttpErrorMessageNamesStatus(400, statusText);
  }

  /** The call a submit makes. */
  datatype AuthCall = LoginCall(username: string, password: string)
                    | RegisterCall(username: string, email: string, password: string)

  datatype SubmitOutcome =
    | Rejected(toast: string)
    | Navigated(to: string, replace: bool, toast: string)
    | Failed(toast: string)

  const WelcomeBackToast := "Welcome back!"
  const AccountCreatedToast := "Account created successfully!"

  class LoginPage {
    var isLogin: bool
    var form: Form
    var isLoading: bool

    constructor()
      ensures isLogin && form == Form("", "", "") && !isLoading
    {
      isLogin := true;
      form := Form("", "", "");
      isLoading := false;
    }

    /** The sign-in / sign-up switch. */
    method SetMode(login: bool)
      modifies this
      ensures isLogin == login && form == old(form) && isLoading == old(isLoading)
    {
      isLogin := login;
    }

    /** `handleInputChange`: only the named field takes the new value. */
    method HandleInputChange(field: Field, value: string)
      modifies this
      ensures form == SetField(old(form), field, value)
      ensures isLogin == old(isLogin) && isLoading == old(isLoading)
    {
      form := SetField(form, field, value);
    }

    /** `handleSubmit`. A failed check shows its message and calls nothing.
      Otherwise the mode picks exactly one call; success leads to the
      destination, replacing the history entry; failure shows the classified
      message. Loading ends after every attempt that made a call, and the
      token is stored on success and cleared by a 401. A 401 also starts a
      full page load of the login screen (`pageLoad`), which discards the
      page's state and the recorded `from`. */
    method HandleSubmit(auth: Auth.AuthProvider, apiUrl: Option<string>, recordedFrom: Option<string>,
                        reply: Api.Reply<Api.AuthResponse>)
      returns (call: Option<AuthCall>, outcome: SubmitOutcome, pageLoad: Option<string>)
      modifies this, auth, auth.store
      ensures isLogin == old(isLogin) && form == old(form)
      ensures MissingField(isLogin, form).Some? ==>
        && call.None? && outcome == Rejected(MissingField(isLogin, form).value) && pageLoad.None?
        && isLoading == old(isLoading)
        && auth.user == old(auth.user) && auth.isLoading == old(auth.isLoading)
        && auth.store.token == old(auth.store.token)
      ensures MissingField(isLogin, form).None? ==>
        && call == Some(if isLogin then LoginCall(form.username, form.password)
                        else RegisterCall(form.username, form.email, form.password))
        && !isLoading && !auth.isLoading
        && outcome == (if Api.Settle(reply).Ok?
                       then Navigated(Destination(recordedFrom), true,
                                      if isLogin then WelcomeBackToast else AccountCreatedToast)
                       else Failed(ErrorToast(Api.Settle(reply).message)))
        && auth.user == (if Api.Settle(reply).Ok? then Auth.ResponseUser(Api.Settle(reply).value)
                         else old(auth.user))
        && auth.store.token == (if Api.Settle(reply).Ok? then Some(Api.StoredToken(Api.Settle(reply).value))
                                else if Api.Unauthorized(reply) then None
                                else old(auth.store.token))
        && pageLoad == (if Api.Unauthorized(reply) then Some(LoginRoute) else None)
    {
      var missing := MissingField(isLogin, form);
      if missing.Some? {
        call := None;
        outcome := Rejected(missing.value);
        pageLoad := None;
        return;
      }
      isLoading := true;
      var result;
      if isLogin {
        call := Some(LoginCall(form.username, form.password));
        result, pageLoad := auth.Login(apiUrl, form.username, form.password, reply);
      } else {
        call := Some(RegisterCall(form.username, form.email, form.password));
        result, pageLoad := auth.Register(apiUrl, form.username, form.email, form.password, reply);
      }
      if result.Ok? {
        outcome := Navigated(Destination(recordedFrom), true,
                             if isLogin then WelcomeBackToast else AccountCreatedToast);
      } else {
        outcome := Failed(ErrorToast(result.message));
      }
      isLoading := false;
    }
  }
}
