/** The registration form: name, e-mail, verification code, password and a
    terms checkbox; a "Send Verification Code" handler, a submit handler gated on
    the terms, a terms modal, and the password-strength indicator. Both handlers
    read the body before they look at the status. */
module Register {
  import opened Client
  import Strength

  datatype RegisterForm = RegisterForm(name: string, email: string, password: string, code: string, acceptedTerms: bool)

  datatype TextField = Name | Email | Password | Code

  /** A change event: a text input reports its `value`, the terms checkbox its
      `checked` state. */
  datatype ChangeEvent = TextInput(field: TextField, value: string) | Checkbox(checked: bool)

  function Text(form: RegisterForm, f: TextField): string {
    match f
    case Name => form.name
    case Email => form.email
    case Password => form.password
    case Code => form.code
  }

  /** `handleChange`: the named field takes the event's `checked` for the checkbox
      and its `value` otherwise; every other field keeps its value. */
  function Changed(form: RegisterForm, e: ChangeEvent): (r: RegisterForm)
    ensures forall f :: Text(r, f) == (if e.TextInput? && e.field == f then e.value else Text(form, f))
    ensures r.acceptedTerms == (if e.Checkbox? then e.checked else form.acceptedTerms)
  {
    match e
    case Checkbox(checked) => form.(acceptedTerms := checked)
    case TextInput(f, value) =>
      match f
      case Name => form.(name := value)
      case Email => form.(email := value)
      case Password => form.(password := value)
      case Code => form.(code := value)
  }

  /** The early return of `handleSendCode`: the e-mail is checked before the name.
      None when both are present. */
  function SendCodeRejection(form: RegisterForm): (msg: Option<string>)
    ensures msg.None? <==> form.email != "" && form.name != ""
    ensures form.email == "" ==> msg == Some("Please enter your email first.")
    ensures form.email != "" && form.name == "" ==> msg == Some("Please enter your name first.")
  {
    if form.email == "" then Some("Please enter your email first.")
    else if form.name == "" then Some("Please enter your name first.")
    else None
  }

  const CodeSent := "Verification code sent. Check your email."
  const CodeFailed := "Failed to send code."
  const CodeThrew := "Error sending code."
  const Registered := "Registration complete!"
  const RegisterFailed := "Registration failed."
  const RegisterThrew := "Error registering."

  class RegisterPage {
    /** `Intl.DateTimeFormat().resolvedOptions().timeZone || ''`, fixed for the
        page's lifetime. */
    const timezone: string
    var loading: bool
    var form: RegisterForm
    var message: string
    var showTermsModal: bool
    var timers: seq<Timer>
    /** The request awaiting its response, if any. */
    ghost var pending: Option<Request>

    ghost predicate Valid()
      reads this
    {
      (loading <==> pending.Some?)
      && (pending.Some? ==> pending.value.SendVerificationEmail? || pending.value.VerifyCodeAndRegister?)
    }

    constructor (timezone: string)
      ensures Valid() && this.timezone == timezone
      ensures !loading && form == RegisterForm("", "", "", "", false) && message == ""
      ensures !showTermsModal && timers == []
    {
      this.timezone := timezone;
      loading := false;
      form := RegisterForm("", "", "", "", false);
      message := "";
      showTermsModal := false;
      timers := [];
      pending := None;
    }

    method HandleChange(e: ChangeEvent)
      modifies this`form
      ensures form == Changed(old(form), e)
    {
      form := Changed(form, e);
    }

    /** The part of `handleSendCode` before the `await`. A missing e-mail or name
        sets its message and issues nothing; otherwise `loading` is set, the
        message cleared and the request issued. The button is disabled while
        loading. */
    method HandleSendCode() returns (request: Option<Request>)
      requires Valid() && !loading
      modifies this`loading, this`message, this`pending
      ensures Valid()
      ensures SendCodeRejection(form).Some? ==>
                request == None && message == SendCodeRejection(form).value && !loading
      ensures SendCodeRejection(form).None? ==>
                request == Some(SendVerificationEmail(form.email, form.name))
                && loading && message == "" && pending == request
    {
      if form.email == "" {
        message := "Please enter your email first.";
        return None;
      }
      if form.name == "" {
        message := "Please enter your name first.";
        return None;
      }
      loading := true;
      message := "";
      request := Some(SendVerificationEmail(form.email, form.name));
      pending := request;
    }

    /** The rest of `handleSendCode` once its request has settled; `loading` ends
        false on every path and nothing navigates. */
    method ResumeSendCode(outcome: FetchOutcome)
      requires Valid() && pending.Some? && pending.value.SendVerificationEmail?
      modifies this`loading, this`message, this`pending
      ensures Valid() && pending == None
      ensures !loading
      ensures message == BodyFirstFeedback(outcome, CodeSent, CodeFailed, CodeThrew)
    {
      message := BodyFirstFeedback(outcome, CodeSent, CodeFailed, CodeThrew);
      loading := false;
      pending := None;
    }

    /** The part of `handleRegister` before the `await`. Without the terms accepted
        it only opens the terms modal: no request, `loading` and the message
        untouched. Otherwise it posts the whole form with the time zone. */
    method HandleRegister() returns (request: Option<Request>)
      requires Valid() && !loading
      modifies this`loading, this`message, this`showTermsModal, this`pending
      ensures Valid()
      ensures !form.acceptedTerms ==>
                request == None && showTermsModal
                && loading == old(loading) && message == old(message) && pending == old(pending)
      ensures form.acceptedTerms ==>
                request == Some(VerifyCodeAndRegister(form.name, form.email, form.password, form.code, true, timezone))
                && loading && message == "" && showTermsModal == old(showTermsModal) && pending == request
    {
      if !form.acceptedTerms {
        showTermsModal := true;
        return None;
      }
      loading := true;
      message := "";
      request := Some(VerifyCodeAndRegister(form.name, form.email, form.password, form.code, form.acceptedTerms, timezone));
      pending := request;
    }

    /** The rest of `handleRegister` once its request has settled: only a parsed
        2xx answer schedules the move to the login page, one second later. */
    method ResumeRegister(outcome: FetchOutcome)
      requires Valid() && pending.Some? && pending.value.VerifyCodeAndRegister?
      modifies this`loading, this`message, this`timers, this`pending
      ensures Valid() && pending == None
      ensures !loading
      ensures message == BodyFirstFeedback(outcome, Registered, RegisterFailed, RegisterThrew)
      ensures timers == old(timers) +
                (if Is2xx(outcome) && Parses(outcome) then [Timer(1000, NavigateTo("/login"))] else [])
    {
      message := BodyFirstFeedback(outcome, Registered, RegisterFailed, RegisterThrew);
      if JsonThenOk(outcome) == Succeeded {
        timers := timers + [Timer(1000, NavigateTo("/login"))];
      }
      loading := false;
      pending := None;
    }

    /** The "Terms and Conditions" link next to the checkbox. */
    method OpenTerms()
      modifies this`showTermsModal
      ensures showTermsModal
    {
      showTermsModal := true;
    }

    /** The close button of the terms modal. */
    method CloseTerms()
      modifies this`showTermsModal
      ensures !showTermsModal
    {
      showTermsModal := false;
    }

    /** "Accept Terms and Close": ticks the checkbox and closes the modal; it does
        not submit. */
    method AcceptTermsAndClose()
      modifies this`form, this`showTermsModal
      ensures form == old(form).(acceptedTerms := true) && !showTermsModal
    {
      form := form.(acceptedTerms := true);
      showTermsModal := false;
    }
  }

  /** Nothing makes the verification code a prerequisite: a form with the terms
      accepted is posted at once, whether or not a code was ever requested. */
  method RegisterWithoutSendingCode(timezone: string) returns (request: Option<Request>)
    ensures request == Some(VerifyCodeAndRegister("", "", "", "", true, timezone))
  {
    var page := new RegisterPage(timezone);
    page.AcceptTermsAndClose();
    request := page.HandleRegister();
  }

  /** Submitting with the terms unticked opens the modal; accepting there and
      submitting again sends the request. */
  method TermsGateThenSubmit(timezone: string, name: string, email: string)
    returns (first: Option<Request>, modalAfterFirst: bool, second: Option<Request>)
    ensures first == None && modalAfterFirst
    ensures second == Some(VerifyCodeAndRegister(name, email, "", "", true, timezone))
  {
    var page := new RegisterPage(timezone);
    page.HandleChange(TextInput(Name, name));
    page.HandleChange(TextInput(Email, email));
    first := page.HandleRegister();
    modalAfterFirst := page.showTermsModal;
    page.AcceptTermsAndClose();
    second := page.HandleRegister();
  }
}
