/** The login form: two text fields, a submit handler that posts them, and a
    message line. The status is checked before the body is read, and the body is
    read only on a failure. */
module Login {
  import opened Client

  datatype Field = Email | Password

  datatype LoginForm = LoginForm(email: string, password: string)

  function Get(form: LoginForm, f: Field): string {
    match f
    case Email => form.email
    case Password => form.password
  }

  /** `handleChange`: `{...prev, [name]: value}` sets the named field and keeps
      the other. */
  function WithField(form: LoginForm, f: Field, value: string): (r: LoginForm)
    ensures Get(r, f) == value
    ensures forall g :: g != f ==> Get(r, g) == Get(form, g)
  {
    match f
    case Email => form.(email := value)
    case Password => form.(password := value)
  }

  /** The message after a submission has settled. Any 2xx answer succeeds, whatever
      its body; a non-2xx body that is not JSON or is `null` throws into `catch`. */
  function SubmitMessage(outcome: FetchOutcome): (msg: string)
    ensures Is2xx(outcome) ==> msg == "Login successful!"
    ensures outcome.NetworkError? ==> msg == "Server error"
    ensures !Is2xx(outcome) && !Readable(outcome) ==> msg == "Server error"
    ensures !Is2xx(outcome) && Readable(outcome) ==>
              msg == ErrorOr(outcome.response.body.data.error, "Login failed")
  {
    Feedback(OkThenJson(outcome), "Login successful!", "Login failed", "Server error")
  }

  class LoginPage {
    var form: LoginForm
    var loading: bool
    var message: string
    var navigations: seq<string>
    /** The submission awaiting its response, if any. */
    ghost var pending: Option<Request>

    ghost predicate Valid()
      reads this
    {
      (loading <==> pending.Some?) && (pending.Some? ==> pending.value.LoginUser?)
    }

    constructor ()
      ensures Valid()
      ensures form == LoginForm("", "") && !loading && message == "" && navigations == []
    {
      form := LoginForm("", "");
      loading := false;
      message := "";
      navigations := [];
      pending := None;
    }

    method HandleChange(f: Field, value: string)
      modifies this`form
      ensures form == WithField(old(form), f, value)
    {
      form := WithField(form, f, value);
    }

    /** The part of `handleSubmit` before the `await`: `loading` is set and the
        message cleared before the request goes out. The button and the fields
        are disabled while loading, so no second submission can start. */
    method HandleSubmit() returns (request: Request)
      requires Valid() && !loading
      modifies this`loading, this`message, this`pending
      ensures Valid()
      ensures request == LoginUser(form.email, form.password)
      ensures loading && message == "" && pending == Some(request)
    {
      loading := true;
      message := "";
      request := LoginUser(form.email, form.password);
      pending := Some(request);
    }

    /** The rest of `handleSubmit` once the request has settled: only a 2xx answer
        navigates to the dashboard, and `loading` ends false on every path. */
    method ResumeSubmit(outcome: FetchOutcome)
      requires Valid() && pending.Some?
      modifies this`loading, this`message, this`navigations, this`pending
      ensures Valid() && pending == None
      ensures !loading
      ensures message == SubmitMessage(outcome)
      ensures navigations == old(navigations) + (if Is2xx(outcome) then ["/dashboard"] else [])
    {
      message := SubmitMessage(outcome);
      if OkThenJson(outcome) == Succeeded {
        navigations := navigations + ["/dashboard"];
      }
      loading := false;
      pending := None;
    }
  }
}
