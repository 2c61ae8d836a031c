/** The route guard (components/auth-guard.tsx): one condition on the
    authenticated flag and the pathname decides both the redirect and what
    is rendered. */
module Guard {
  import opened Wrappers

  datatype GuardView = Spinner | Children
  datatype GuardDecision = GuardDecision(redirect: Option<string>, view: GuardView)

  function Decide(isAuthenticated: bool, pathname: string): GuardDecision {
    if !isAuthenticated && pathname != "/login" then GuardDecision(Some("/login"), Spinner)
    else GuardDecision(None, Children)
  }

  /** The guard redirects to "/login" exactly when it shows the spinner,
      exactly when the user is not authenticated away from "/login". */
  lemma DecideRule(isAuthenticated: bool, pathname: string)
    ensures var d := Decide(isAuthenticated, pathname);
      && (d.redirect.Some? <==> !isAuthenticated && pathname != "/login")
      && (d.view == Spinner <==> d.redirect.Some?)
      && (d.redirect.Some? ==> d.redirect.value == "/login")
  {
  }

  /** Authenticated users always get the page and are never redirected. */
  lemma AuthenticatedSeesChildren(pathname: string)
    ensures Decide(true, pathname) == GuardDecision(None, Children)
  {
  }
}
