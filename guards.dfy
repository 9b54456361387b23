/** The two route guards. Each keeps a `loading` and an `authenticated` flag,
    checks the session once when it mounts, and then renders a placeholder, a
    redirect, or the page it guards. `ProtectedRoute` admits only a signed-in
    user; `PublicRoute` (the login and register pages) admits only a signed-out
    one. */
module Guards {
  import opened Client

  datatype GuardView = Placeholder | RedirectTo(path: string) | Children

  /** What `ProtectedRoute` renders for its state. */
  function ProtectedView(loading: bool, authenticated: bool): (v: GuardView)
    ensures v == Placeholder <==> loading
    ensures v == Children <==> !loading && authenticated
    ensures v.RedirectTo? <==> !loading && !authenticated
    ensures v.RedirectTo? ==> v.path == "/"
  {
    if loading then Placeholder
    else if !authenticated then RedirectTo("/")
    else Children
  }

  /** What `PublicRoute` renders for its state. */
  function PublicView(loading: bool, authenticated: bool): (v: GuardView)
    ensures v == Placeholder <==> loading
    ensures v == Children <==> !loading && !authenticated
    ensures v.RedirectTo? <==> !loading && authenticated
    ensures v.RedirectTo? ==> v.path == "/dashboard"
  {
    if loading then Placeholder
    else if authenticated then RedirectTo("/dashboard")
    else Children
  }

  /** Once the check has settled, exactly one of the two guards admits its
      children, and the other redirects. */
  lemma ExactlyOneAdmits(authenticated: bool)
    ensures (ProtectedView(false, authenticated) == Children) != (PublicView(false, authenticated) == Children)
    ensures ProtectedView(false, authenticated).RedirectTo? != PublicView(false, authenticated).RedirectTo?
  {
  }

  class ProtectedRoute {
    var loading: bool
    var authenticated: bool

    /** Mounting: loading, not authenticated. */
    constructor ()
      ensures loading && !authenticated
      ensures Render() == Placeholder
    {
      loading := true;
      authenticated := false;
    }

    /** `checkAuth`, run once by the mount effect: `authenticated` records whether
        the answer was 2xx, and `loading` ends false on every path. */
    method CheckAuth(outcome: FetchOutcome) returns (request: Request)
      requires loading
      modifies this`authenticated, this`loading
      ensures request == AuthCheck(AuthCheckPath)
      ensures !loading
      ensures authenticated <==> outcome.Responded? && outcome.response.ok
    {
      request := AuthCheck(AuthCheckPath);
      if outcome.Responded? && outcome.response.ok {
        authenticated := true;
      } else {
        authenticated := false;
      }
      loading := false;
    }

    function Render(): GuardView
      reads this
    {
      ProtectedView(loading, authenticated)
    }
  }

  class PublicRoute {
    var loading: bool
    var authenticated: bool

    /** Mounting: loading, not authenticated. */
    constructor ()
      ensures loading && !authenticated
      ensures Render() == Placeholder
    {
      loading := true;
      authenticated := false;
    }

    /** `checkAuth`, run once by the mount effect, with the same outcome rule as
        `ProtectedRoute.CheckAuth`. */
    method CheckAuth(outcome: FetchOutcome) returns (request: Request)
      requires loading
      modifies this`authenticated, this`loading
      ensures request == AuthCheck(AuthCheckPath)
      ensures !loading
      ensures authenticated <==> outcome.Responded? && outcome.response.ok
    {
      request := AuthCheck(AuthCheckPath);
      if outcome.Responded? && outcome.response.ok {
        authenticated := true;
      } else {
        authenticated := false;
      }
      loading := false;
    }

    function Render(): GuardView
      reads this
    {
      PublicView(loading, authenticated)
    }
  }

  /** Two guards mounted on the same session, given the same answer, send the user
      to opposite places: one admits, the other redirects. The protected one fails
      closed: a non-2xx answer and a network failure both redirect to "/". */
  method SameSession(outcome: FetchOutcome) returns (protectedView: GuardView, publicView: GuardView)
    ensures (protectedView == Children) != (publicView == Children)
    ensures protectedView == Children <==> Is2xx(outcome)
    ensures !Is2xx(outcome) ==> protectedView == RedirectTo("/") && publicView == Children
    ensures Is2xx(outcome) ==> publicView == RedirectTo("/dashboard")
  {
    var p := new ProtectedRoute();
    var q := new PublicRoute();
    var _ := p.CheckAuth(outcome);
    var _ := q.CheckAuth(outcome);
    protectedView := p.Render();
    publicView := q.Render();
    ExactlyOneAdmits(p.authenticated);
  }
}
