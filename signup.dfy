/** The signup page: a five-field form record, a client-side guard chain that
    either reports one error or sends the registration, and the mutation's
    success and error callbacks. */
module SignUp {
  import opened Common

  datatype SignUpForm = SignUpForm(
    email: string, username: string, fullName: string,
    password: string, confirmPassword: string)

  datatype SignUpField = Email | Username | FullName | Password | ConfirmPassword

  const EmptyForm := SignUpForm("", "", "", "", "")

  const SignUpEndpoint := "/api/auth/signup"
  const MinPasswordLength := 6
  const MissingFieldsMessage := "All fields are required!"
  const ShortPasswordMessage := "Password must be at least 6 characters!"
  const MismatchMessage := "Passwords do not match!"
  const FallbackMessage := "Failed to create account"
  const CreatedToast := "Account created successfully!"
  const FailedToast := "Signup failed! Please try again."

  function FieldOf(f: SignUpForm, name: SignUpField): string {
    match name
    case Email => f.email
    case Username => f.username
    case FullName => f.fullName
    case Password => f.password
    case ConfirmPassword => f.confirmPassword
  }

  /** `{ ...formData, [name]: value }` */
  function WithField(f: SignUpForm, name: SignUpField, value: string): (g: SignUpForm)
    ensures FieldOf(g, name) == value
    ensures forall other :: other != name ==> FieldOf(g, other) == FieldOf(f, other)
  {
    match name
    case Email => f.(email := value)
    case Username => f.(username := value)
    case FullName => f.(fullName := value)
    case Password => f.(password := value)
    case ConfirmPassword => f.(confirmPassword := value)
  }

  /** Every field is a non-empty (truthy) string. */
  predicate Filled(f: SignUpForm) {
    forall name :: FieldOf(f, name) != ""
  }

  /** `handleSubmit`: missing fields first, then a short password, then a
      mismatch; only a form that passes all three is sent, without its
      confirmation. */
  function ValidateSignUp(f: SignUpForm): (c: Check)
    ensures c.Send? <==> Filled(f) && |f.password| >= MinPasswordLength && f.password == f.confirmPassword
    ensures c.Send? ==> c.payload == Registration(f.email, f.username, f.fullName, f.password)
    ensures !Filled(f) ==> c == Reject(MissingFieldsMessage)
    ensures Filled(f) && |f.password| < MinPasswordLength ==> c == Reject(ShortPasswordMessage)
    ensures Filled(f) && |f.password| >= MinPasswordLength && f.password != f.confirmPassword ==>
              c == Reject(MismatchMessage)
  {
    if f.email == "" || f.username == "" || f.fullName == "" || f.password == "" || f.confirmPassword == "" then
      assert !Filled(f) by {
        if f.email == "" { assert FieldOf(f, Email) == ""; }
        else if f.username == "" { assert FieldOf(f, Username) == ""; }
        else if f.fullName == "" { assert FieldOf(f, FullName) == ""; }
        else if f.password == "" { assert FieldOf(f, Password) == ""; }
        else { assert FieldOf(f, ConfirmPassword) == ""; }
      }
      Reject(MissingFieldsMessage)
    else if |f.password| < MinPasswordLength then Reject(ShortPasswordMessage)
    else if f.password != f.confirmPassword then Reject(MismatchMessage)
    else Send(Registration(f.email, f.username, f.fullName, f.password))
  }

  /** A sent registration always carries a confirmed password of the minimum
      length, and fields that were all filled in. */
  lemma SentRegistrationIsConfirmed(f: SignUpForm)
    requires ValidateSignUp(f).Send?
    ensures var p := ValidateSignUp(f).payload;
            p.Registration? && p.password == f.confirmPassword && |p.password| >= MinPasswordLength
            && p.email != "" && p.username != "" && p.fullName != ""
  {
  }

  /** Filling the form with a registration, typing the password twice, sends
      exactly that registration, whenever its fields are non-empty and its
      password is long enough. */
  lemma FormRoundTrip(email: string, username: string, fullName: string, password: string)
    requires email != "" && username != "" && fullName != ""
    requires |password| >= MinPasswordLength
    ensures ValidateSignUp(SignUpForm(email, username, fullName, password, password))
            == Send(Registration(email, username, fullName, password))
  {
  }

  /** "abc" typed twice is refused by the length check. */
  lemma ShortPasswordRejected(email: string, username: string, fullName: string)
    requires email != "" && username != "" && fullName != ""
    ensures ValidateSignUp(SignUpForm(email, username, fullName, "abc", "abc")) == Reject(ShortPasswordMessage)
  {
  }

  /** "secret1" confirmed as "secret2" is refused by the mismatch check. */
  lemma MismatchRejected(email: string, username: string, fullName: string)
    requires email != "" && username != "" && fullName != ""
    ensures ValidateSignUp(SignUpForm(email, username, fullName, "secret1", "secret2")) == Reject(MismatchMessage)
  {
  }

  /** The signup `mutationFn`, with this page's fallback text. */
  function SignUpResult(reply: Reply<ErrorBody>): MutationResult {
    MutationOutcome(reply, FallbackMessage)
  }

  /** A non-ok reply shows the backend's `error` when it is truthy, and
      otherwise "Failed to create account". */
  lemma SignUpFailureText(reply: Reply<ErrorBody>)
    requires reply.Answered? && !reply.ok
    ensures SignUpResult(reply) == Failed(if Truthy(reply.body.error) then reply.body.error.value else "Failed to create account")
  {
  }

  /** A complete signup: the five fields typed in, one request without the
      confirmation, and on success a toast, the session invalidated and the
      form cleared. */
  method SuccessfulSignUp(email: string, username: string, fullName: string, password: string)
    returns (events: seq<Event>, form: SignUpForm)
    requires email != "" && username != "" && fullName != ""
    requires |password| >= MinPasswordLength
    ensures events == [Request(SignUpEndpoint, Registration(email, username, fullName, password)),
                       SuccessToast(CreatedToast), Invalidate(AuthUserKey)]
    ensures form == EmptyForm
  {
    var page := new SignUpPage();
    page.InputChange(Email, email);
    page.InputChange(Username, username);
    page.InputChange(FullName, fullName);
    page.InputChange(Password, password);
    page.InputChange(ConfirmPassword, password);
    FormRoundTrip(email, username, fullName, password);
    var sent := page.Submit();
    page.Complete(Answered(true, ErrorBody(None)));
    events, form := page.events, page.formData;
  }

  /** "abc" typed twice at the page: one error toast, no request, the form
      kept. */
  method ShortPasswordSendsNothing(email: string, username: string, fullName: string)
    returns (events: seq<Event>, form: SignUpForm)
    requires email != "" && username != "" && fullName != ""
    ensures events == [ErrorToast(ShortPasswordMessage)]
    ensures form == SignUpForm(email, username, fullName, "abc", "abc")
  {
    var page := new SignUpPage();
    page.InputChange(Email, email);
    page.InputChange(Username, username);
    page.InputChange(FullName, fullName);
    page.InputChange(Password, "abc");
    page.InputChange(ConfirmPassword, "abc");
    ShortPasswordRejected(email, username, fullName);
    var sent := page.Submit();
    events, form := page.events, page.formData;
  }

  /** The page's state: the form record, the mutation's pending flag (which
      disables the submit button), the error text shown under the title, and
      the effects emitted so far. */
  class SignUpPage {
    var formData: SignUpForm
    var isPending: bool
    var errorText: Option<string>
    var events: seq<Event>

    /** While a signup is outstanding, the last effect is its request. */
    ghost predicate Valid()
      reads this
    {
      isPending ==> |events| > 0 && events[|events| - 1].Request?
    }

    constructor ()
      ensures Valid()
      ensures formData == EmptyForm && !isPending && errorText == None && events == []
    {
      formData := EmptyForm;
      isPending := false;
      errorText := None;
      events := [];
    }

    /** `handleInputChange` */
    method InputChange(name: SignUpField, value: string)
      requires Valid()
      modifies this`formData
      ensures Valid()
      ensures formData == WithField(old(formData), name, value)
    {
      formData := WithField(formData, name, value);
    }

    /** A submit: nothing while the button is disabled; otherwise exactly one
        error toast, or exactly one request with the validated registration. */
    method Submit() returns (sent: bool)
      requires Valid()
      modifies this`isPending, this`errorText, this`events
      ensures Valid()
      ensures sent <==> !old(isPending) && ValidateSignUp(formData).Send?
      ensures old(isPending) ==> isPending && errorText == old(errorText) && events == old(events)
      ensures !old(isPending) && !sent ==>
                !isPending && errorText == old(errorText)
                && events == old(events) + [ErrorToast(ValidateSignUp(formData).message)]
      ensures sent ==>
                isPending && errorText == None
                && events == old(events) + [Request(SignUpEndpoint, ValidateSignUp(formData).payload)]
    {
      if isPending {
        sent := false;
        return;
      }
      match ValidateSignUp(formData)
      case Reject(message) =>
        events := events + [ErrorToast(message)];
        sent := false;
      case Send(payload) =>
        events := events + [Request(SignUpEndpoint, payload)];
        isPending := true;
        errorText := None;
        sent := true;
    }

    /** `onSuccess`: a toast, the session invalidated, the form cleared. */
    method OnSuccess()
      requires Valid() && isPending
      modifies this
      ensures Valid()
      ensures formData == EmptyForm && !isPending && errorText == None
      ensures events == old(events) + [SuccessToast(CreatedToast), Invalidate(AuthUserKey)]
    {
      events := events + [SuccessToast(CreatedToast), Invalidate(AuthUserKey)];
      formData := EmptyForm;
      isPending := false;
      errorText := None;
    }

    /** `onError`: a toast and the error text; the form is kept. */
    method OnError(message: string)
      requires Valid() && isPending
      modifies this`isPending, this`errorText, this`events
      ensures Valid()
      ensures !isPending && errorText == Some(message)
      ensures events == old(events) + [ErrorToast(FailedToast)]
    {
      events := events + [ErrorToast(FailedToast)];
      isPending := false;
      errorText := Some(message);
    }

    /** The outstanding signup settles with the server's reply. */
    method Complete(reply: Reply<ErrorBody>)
      requires Valid() && isPending
      modifies this
      ensures Valid() && !isPending
      ensures SignUpResult(reply).Succeeded? ==>
                formData == EmptyForm && errorText == None
                && events == old(events) + [SuccessToast(CreatedToast), Invalidate(AuthUserKey)]
      ensures SignUpResult(reply).Failed? ==>
                formData == old(formData) && errorText == Some(SignUpResult(reply).message)
                && events == old(events) + [ErrorToast(FailedToast)]
    {
      match SignUpResult(reply)
      case Succeeded => OnSuccess();
      case Failed(message) => OnError(message);
    }
  }
}
