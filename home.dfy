/** The landing page. It runs the same session check as the guards, then shows
    the Login and Register links to a signed-out visitor or the Dashboard link to
    a signed-in one, and sends "Get Started" to the dashboard or to the login
    page accordingly. */
module Home {
  import opened Client

  /** The router links of the header, in order, and the target of "Get Started". */
  datatype HomeView = Placeholder | Landing(links: seq<string>, getStarted: string)

  /** The landing page for a settled check. */
  function LandingFor(authenticated: bool): (v: HomeView)
    ensures v.Landing?
    ensures "/login" in v.links <==> !authenticated
    ensures "/register" in v.links <==> !authenticated
    ensures "/dashboard" in v.links <==> authenticated
    ensures v.getStarted == "/dashboard" <==> authenticated
    ensures v.getStarted == "/login" <==> !authenticated
  {
    Landing(if authenticated then ["/dashboard"] else ["/login", "/register"],
            if authenticated then "/dashboard" else "/login")
  }

  class HomePage {
    var authenticated: bool
    var loading: bool
    var navigations: seq<string>

    constructor ()
      ensures !authenticated && loading && navigations == []
      ensures View() == Placeholder
    {
      authenticated := false;
      loading := true;
      navigations := [];
    }

    /** `checkAuth`, run once by the mount effect: fail-closed, and `loading` ends
        false on every path. */
    method CheckAuth(outcome: FetchOutcome) returns (request: Request)
      requires loading
      modifies this`authenticated, this`loading
      ensures request == AuthCheck(AuthCheckPath)
      ensures !loading
      ensures authenticated <==> outcome.Responded? && outcome.response.ok
    {
      request := AuthCheck(AuthCheckPath);
      if outcome.Responded? && outcome.response.ok {
        authenticated := true;
      } else {
        authenticated := false;
      }
      loading := false;
    }

    /** Only the placeholder renders until the check settles. */
    function View(): (v: HomeView)
      reads this
      ensures v == Placeholder <==> loading
      ensures !loading ==> v == LandingFor(authenticated)
    {
      if loading then Placeholder else LandingFor(authenticated)
    }

    /** The "Get Started" button, which exists once the page has rendered. */
    method GetStarted()
      requires !loading
      modifies this`navigations
      ensures navigations == old(navigations) + [if authenticated then "/dashboard" else "/login"]
    {
      navigations := navigations + [if authenticated then "/dashboard" else "/login"];
    }
  }
}
