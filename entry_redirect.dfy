/** The `/app` entry page: it sends the visitor to the dashboard or to the login page. */
module EntryRedirect {
  import opened Wrappers
  import opened Platform

  /** The route chosen from the stored session: the dashboard exactly when the logged-in flag
      is the string "true", the login page when it is missing or holds anything else. */
  function RedirectTarget(session: map<string, string>): (r: string)
    ensures r == DashboardRoute <==> IsLoggedInKey in session && session[IsLoggedInKey] == "true"
    ensures r == LoginRoute <==> !(IsLoggedInKey in session && session[IsLoggedInKey] == "true")
  {
    assert |DashboardRoute| == 14 && |LoginRoute| == 10;
    if IsLoggedInKey in session && session[IsLoggedInKey] == "true" then DashboardRoute else LoginRoute
  }

  /** Only the logged-in flag is consulted: two sessions that agree on it are sent to the
      same route, whatever else they hold. */
  lemma OnlyLoginFlagConsulted(s1: map<string, string>, s2: map<string, string>)
    requires IsLoggedInKey in s1 <==> IsLoggedInKey in s2
    requires IsLoggedInKey in s1 ==> s1[IsLoggedInKey] == s2[IsLoggedInKey]
    ensures RedirectTarget(s1) == RedirectTarget(s2)
  {
  }

  /** The page's effect: exactly one route is pushed and the session is left as it was. */
  method Redirect(b: Browser)
    modifies b
    ensures b.pushed == old(b.pushed) + [RedirectTarget(old(b.session))]
    ensures b.session == old(b.session)
  {
    var isAuth := b.GetItem(IsLoggedInKey) == Some("true");
    if isAuth {
      b.Push(DashboardRoute);
    } else {
      b.Push(LoginRoute);
    }
  }
}
