/** The login page: a two-field form record, a required-field guard, and the
    login mutation's callbacks. */
module Login {
  import opened Common

  datatype LoginForm = LoginForm(username: string, password: string)

  datatype LoginField = Username | Password

  const EmptyForm := LoginForm("", "")

  const LoginEndpoint := "/api/auth/login"
  const RequiredMessage := "Username and Password are required!"
  const FallbackMessage := "Something went wrong"
  const LoggedInToast := "Login successful!"
  const FailedToast := "Login failed! Please check your credentials."

  function FieldOf(f: LoginForm, name: LoginField): string {
    match name
    case Username => f.username
    case Password => f.password
  }

  /** `{ ...formData, [name]: value }` */
  function WithField(f: LoginForm, name: LoginField, value: string): (g: LoginForm)
    ensures FieldOf(g, name) == value
    ensures forall other :: other != name ==> FieldOf(g, other) == FieldOf(f, other)
  {
    match name
    case Username => f.(username := value)
    case Password => f.(password := value)
  }

  /** `handleSubmit`: both fields are required; the form itself is sent. */
  function ValidateLogin(f: LoginForm): (c: Check)
    ensures c.Send? <==> f.username != "" && f.password != ""
    ensures c.Send? ==> c.payload == Credentials(f.username, f.password)
    ensures c.Reject? ==> c.message == RequiredMessage
  {
    if f.username == "" || f.password == "" then Reject(RequiredMessage)
    else Send(Credentials(f.username, f.password))
  }

  /** The login `mutationFn`, with this page's fallback text. */
  function LoginResult(reply: Reply<ErrorBody>): MutationResult {
    MutationOutcome(reply, FallbackMessage)
  }

  /** A non-ok reply shows the backend's `error` when it is truthy, and
      otherwise "Something went wrong". */
  lemma LoginFailureText(reply: Reply<ErrorBody>)
    requires reply.Answered? && !reply.ok
    ensures LoginResult(reply) == Failed(if Truthy(reply.body.error) then reply.body.error.value else "Something went wrong")
  {
  }

  /** Rejected credentials with the backend message "bad credentials" produce
      the request and then exactly one error toast, keep the form and show
      that message. */
  method RejectedCredentials(username: string, password: string)
    returns (events: seq<Event>, form: LoginForm, shown: Option<string>)
    requires username != "" && password != ""
    ensures events == [Request(LoginEndpoint, Credentials(username, password)), ErrorToast(FailedToast)]
    ensures form == LoginForm(username, password)
    ensures shown == Some("bad credentials")
  {
    var page := new LoginPage();
    page.InputChange(Username, username);
    page.InputChange(Password, password);
    var sent := page.Submit();
    page.Complete(Answered(false, ErrorBody(Some("bad credentials"))));
    events, form, shown := page.events, page.formData, page.errorText;
  }

  /** A second submit while the first login is outstanding is swallowed by
      the disabled button: one request in all. */
  method DoubleSubmitSendsOnce(username: string, password: string)
    returns (events: seq<Event>, secondSent: bool)
    requires username != "" && password != ""
    ensures events == [Request(LoginEndpoint, Credentials(username, password))]
    ensures !secondSent
  {
    var page := new LoginPage();
    page.InputChange(Username, username);
    page.InputChange(Password, password);
    var firstSent := page.Submit();
    secondSent := page.Submit();
    events := page.events;
  }

  /** A login whose request is rejected by the network shows the thrown
      error's message, not its name. */
  method NetworkFailureShowsMessage(username: string, password: string, name: string, message: string)
    returns (shown: Option<string>)
    requires username != "" && password != ""
    ensures shown == Some(message)
  {
    var page := new LoginPage();
    page.InputChange(Username, username);
    page.InputChange(Password, password);
    var sent := page.Submit();
    page.Complete(Threw(name, message));
    shown := page.errorText;
  }

  /** The page's state: the form record, the mutation's pending flag (which
      disables the submit button), the error text shown under the title, and
      the effects emitted so far. */
  class LoginPage {
    var formData: LoginForm
    var isPending: bool
    var errorText: Option<string>
    var events: seq<Event>

    /** While a login is outstanding, the last effect is its request. */
    ghost predicate Valid()
      reads this
    {
      isPending ==> |events| > 0 && events[|events| - 1].Request?
    }

    constructor ()
      ensures Valid()
      ensures formData == EmptyForm && !isPending && errorText == None && events == []
    {
      formData := EmptyForm;
      isPending := false;
      errorText := None;
      events := [];
    }

    /** `handleInputChange` */
    method InputChange(name: LoginField, value: string)
      requires Valid()
      modifies this`formData
      ensures Valid()
      ensures formData == WithField(old(formData), name, value)
    {
      formData := WithField(formData, name, value);
    }

    /** A submit: nothing while the button is disabled; otherwise exactly one
        error toast, or exactly one request carrying the form. */
    method Submit() returns (sent: bool)
      requires Valid()
      modifies this`isPending, this`errorText, this`events
      ensures Valid()
      ensures sent <==> !old(isPending) && ValidateLogin(formData).Send?
      ensures old(isPending) ==> isPending && errorText == old(errorText) && events == old(events)
      ensures !old(isPending) && !sent ==>
                !isPending && errorText == old(errorText)
                && events == old(events) + [ErrorToast(RequiredMessage)]
      ensures sent ==>
                isPending && errorText == None
                && events == old(events) + [Request(LoginEndpoint, Credentials(formData.username, formData.password))]
    {
      if isPending {
        sent := false;
        return;
      }
      match ValidateLogin(formData)
      case Reject(message) =>
        events := events + [ErrorToast(message)];
        sent := false;
      case Send(payload) =>
        events := events + [Request(LoginEndpoint, payload)];
        isPending := true;
        errorText := None;
        sent := true;
    }

    /** `onSuccess`: a toast and the session invalidated; the form is kept. */
    method OnSuccess()
      requires Valid() && isPending
      modifies this`isPending, this`errorText, this`events
      ensures Valid()
      ensures !isPending && errorText == None
      ensures events == old(events) + [SuccessToast(LoggedInToast), Invalidate(AuthUserKey)]
    {
      events := events + [SuccessToast(LoggedInToast), Invalidate(AuthUserKey)];
      isPending := false;
      errorText := None;
    }

    /** `onError`: a toast and the error text; the form is kept. */
    method OnError(message: string)
      requires Valid() && isPending
      modifies this`isPending, this`errorText, this`events
      ensures Valid()
      ensures !isPending && errorText == Some(message)
      ensures events == old(events) + [ErrorToast(FailedToast)]
    {
      events := events + [ErrorToast(FailedToast)];
      isPending := false;
      errorText := Some(message);
    }

    /** The outstanding login settles with the server's reply. */
    method Complete(reply: Reply<ErrorBody>)
      requires Valid() && isPending
      modifies this`isPending, this`errorText, this`events
      ensures Valid() && !isPending
      ensures LoginResult(reply).Succeeded? ==>
                errorText == None
                && events == old(events) + [SuccessToast(LoggedInToast), Invalidate(AuthUserKey)]
      ensures LoginResult(reply).Failed? ==>
                errorText == Some(LoginResult(reply).message)
                && events == old(events) + [ErrorToast(FailedToast)]
    {
      match LoginResult(reply)
      case Succeeded => OnSuccess();
      case Failed(message) => OnError(message);
    }
  }
}
