/** The login form: POST the credentials, then either store the session and go to the
    dashboard, or show why the sign-in was refused. */
module Login {
  import opened Common
  import opened Session
  import opened Router

  /** `json.data.data`: the signed-in user. */
  datatype LoginUser = LoginUser(role: Scalar, approved: Scalar)

  /** `json.data`: the token and the user. */
  datatype LoginData = LoginData(token: Option<string>, user: Option<LoginUser>)

  /** The parsed body of `/api/login`. */
  datatype LoginJson = LoginJson(message: Option<string>, data: Option<LoginData>)

  /** What the handler ends in: a stored session, or an error notice. */
  datatype LoginOutcome = SignedIn(token: string, role: string) | Refused(message: string)

  const GenericError := "An error occurred. Please try again."
  const NoTokenError := "Login failed. Token or role not found."
  const PendingPrompt := "Your account is pending approval from the admin."
  const InvalidCredentials := "Invalid username or password."
  const PendingStatus := "Your account is pending approval by the admin."
  const ValidationError := "Validation error occurred."
  const UnexpectedError := "An unexpected error occurred. Please try again."
  const SignedInMessage := "Successfully logged in."

  /** The body carries a token and a user record, as the sign-in branch demands. */
  predicate HasSession(json: LoginJson)
  {
    json.data.Some? && Present(json.data.value.token) && json.data.value.user.Some?
  }

  /** The outcome of one submission. The body is parsed before the status is looked at, so a
      body that does not parse ends in the generic error whatever the status. */
  function LoginResult(response: Response<LoginJson>): (o: LoginOutcome)
    ensures o.SignedIn? <==>
      response.Response? && Ok(response.status) && response.body.Parsed? &&
      HasSession(response.body.value) && response.body.value.data.value.user.value.approved != Bool(false)
    ensures o.SignedIn? ==>
      o.token == response.body.value.data.value.token.value && o.token != "" &&
      o.role == ValueText(response.body.value.data.value.user.value.role)
    ensures (response.NetworkFailure? || response.body.Unparsable?) ==> o == Refused(GenericError)
  {
    match response
    case NetworkFailure(_) => Refused(GenericError)
    case Response(status, body) =>
      match body
      case Unparsable(_) => Refused(GenericError)
      case Parsed(json) =>
        if Ok(status) then
          if HasSession(json) then
            var user := json.data.value.user.value;
            if user.approved == Bool(false) then Refused(PendingPrompt)
            else SignedIn(json.data.value.token.value, ValueText(user.role))
          else Refused(NoTokenError)
        else if status == 401 then Refused(OrElse(json.message, InvalidCredentials))
        else if status == 403 then Refused(PendingStatus)
        else if status == 422 then Refused(OrElse(json.message, ValidationError))
        else Refused(UnexpectedError)
  }

  /** A refused sign-in names the reason the status or the body gives. */
  lemma RefusalMessages(response: Response<LoginJson>)
    requires response.Response? && response.body.Parsed? && !Ok(response.status)
    ensures var json := response.body.value;
      LoginResult(response) == Refused(
        if response.status == 401 then OrElse(json.message, InvalidCredentials)
        else if response.status == 403 then PendingStatus
        else if response.status == 422 then OrElse(json.message, ValidationError)
        else UnexpectedError)
  {
  }

  /** Approval is tested with `=== false`: only the boolean false blocks the sign-in, so an
      `approved` of 0, null or a missing field lets the user in. */
  lemma OnlyFalseBlocksSignIn(token: string, role: Scalar, approved: Scalar)
    requires token != ""
    ensures var response := Response(200, Parsed(LoginJson(None, Some(LoginData(Some(token), Some(LoginUser(role, approved)))))));
      LoginResult(response).SignedIn? <==> approved != Bool(false)
  {
  }

  /** A stored role that was absent from the body is the text "undefined", and a role of null
      is the text "null". */
  lemma MissingRoleStoredAsUndefined(token: string)
    requires token != ""
    ensures LoginResult(Response(200, Parsed(LoginJson(None, Some(LoginData(Some(token), Some(LoginUser(Undefined, Null)))))))).role
      == "undefined"
    ensures LoginResult(Response(200, Parsed(LoginJson(None, Some(LoginData(Some(token), Some(LoginUser(Null, Null)))))))).role
      == "null"
  {
  }

  /** After a sign-in the stored token opens the dashboard and the guard keeps the user off
      the login page. */
  lemma SignedInSessionPassesGuard(response: Response<LoginJson>, role: Option<string>)
    requires LoginResult(response).SignedIn?
    ensures SetRouter(Dashboard, Some(LoginResult(response).token), role) == None
    ensures SetRouter("/login.html", Some(LoginResult(response).token), role) == Some(Dashboard)
  {
  }

  /** form_login.onsubmit: disable the button behind a spinner, submit, store the session and
      redirect on success or name the error, then restore the button. Returns the notice shown
      and the page navigated to. */
  method Submit(response: Response<LoginJson>, storage: Storage, button: Button)
    returns (notice: Notice, redirect: Option<string>)
    modifies storage, button
    ensures LoginResult(response).SignedIn? ==>
      storage.items == old(storage.items)["token" := LoginResult(response).token]["role" := LoginResult(response).role] &&
      notice == Success(SignedInMessage, DefaultSeconds) && redirect == Some(Dashboard)
    ensures LoginResult(response).SignedIn? ==>
      storage.GetItem("token") == Some(LoginResult(response).token) &&
      SetRouter(Dashboard, storage.GetItem("token"), storage.GetItem("role")) == None
    ensures LoginResult(response).Refused? ==>
      storage.items == old(storage.items) &&
      notice == Failure(LoginResult(response).message, DefaultSeconds) && redirect == None
    ensures !button.disabled && button.content == Caption("Login")
  {
    button.ShowBusy("");
    var outcome := LoginResult(response);
    if outcome.SignedIn? {
      storage.SetItem("token", outcome.token);
      storage.SetItem("role", outcome.role);
      notice := Success(SignedInMessage, DefaultSeconds);
      redirect := Some(Dashboard);
    } else {
      notice := Failure(outcome.message, DefaultSeconds);
      redirect := None;
    }
    button.Restore("Login");
  }
}
