/** The route guard run on every page load: authenticated users are sent away from the entry
    pages, unauthenticated users away from the protected pages. */
module Router {
  import opened Common

  const Home := "/"
  const Dashboard := "/dashboard.html"

  /** The pages an authenticated user is sent away from. */
  const EntryPaths: seq<string> := ["/", "/login.html", "/register.html"]

  /** The pages an unauthenticated user is sent away from. */
  const ProtectedPaths: seq<string> := [
    "/dashboard.html", "/citizen.html", "/history.html", "/supplies.html",
    "/admin.html", "/bhw.html", "/profiling.html", "/services.html"
  ]

  /** setRouter: the new `location.pathname`, or `None` when the page stays. `role` is read
      from storage but takes no part in the decision. */
  function SetRouter(path: string, token: Option<string>, role: Option<string>): (redirect: Option<string>)
    ensures redirect == GuardTable(Classify(path), Present(token))
    ensures redirect.Some? ==> redirect.value == Home || redirect.value == Dashboard
  {
    if (path == "/" || path == "/login.html" || path == "/register.html") && Present(token) then
      Some("/dashboard.html")
    else if !Present(token) && (
      path == "/dashboard.html" ||
      path == "/citizen.html" ||
      path == "/history.html" ||
      path == "/supplies.html" ||
      path == "/admin.html" ||
      path == "/bhw.html" ||
      path == "/profiling.html" ||
      path == "/services.html") then
      Some("/")
    else
      None
  }

  /** The static classification of a path. */
  datatype RouteClass = Entry | Protected | Unlisted

  function Classify(path: string): RouteClass
  {
    if path in EntryPaths then Entry else if path in ProtectedPaths then Protected else Unlisted
  }

  /** The guard's decision table. */
  function GuardTable(c: RouteClass, authenticated: bool): Option<string>
  {
    match c
    case Entry => if authenticated then Some(Dashboard) else None
    case Protected => if authenticated then None else Some(Home)
    case Unlisted => None
  }

  /** An entry page with a token goes to the dashboard whatever the stored role. */
  lemma EntryWithTokenGoesToDashboard(path: string, token: string, role: Option<string>)
    requires path in EntryPaths && token != ""
    ensures SetRouter(path, Some(token), role) == Some(Dashboard)
  {
  }

  /** Each protected page without a token goes to the home page. */
  lemma ProtectedWithoutTokenGoesHome(path: string, token: Option<string>, role: Option<string>)
    requires path in ProtectedPaths && !Present(token)
    ensures SetRouter(path, token, role) == Some(Home)
  {
  }

  /** A path in neither list never redirects, whatever the session; "/reports.html" is one. */
  lemma UnlistedNeverRedirects(path: string, token: Option<string>, role: Option<string>)
    requires path !in EntryPaths && path !in ProtectedPaths
    ensures SetRouter(path, token, role) == None
  {
  }

  lemma ReportsPageIsUnguarded(token: Option<string>, role: Option<string>)
    ensures SetRouter("/reports.html", token, role) == None
  {
    UnlistedNeverRedirects("/reports.html", token, role);
  }

  /** An entry page without a token and a protected page with one both stay. */
  lemma MatchingSessionStays(path: string, token: Option<string>, role: Option<string>)
    requires (path in EntryPaths && !Present(token)) || (path in ProtectedPaths && Present(token))
    ensures SetRouter(path, token, role) == None
  {
  }

  /** The role never changes the decision. */
  lemma RoleIsIgnored(path: string, token: Option<string>, role1: Option<string>, role2: Option<string>)
    ensures SetRouter(path, token, role1) == SetRouter(path, token, role2)
  {
  }

  /** The guard settles after one redirect: the page it sends to does not redirect again
      under the same session. */
  lemma RedirectSettles(path: string, token: Option<string>, role: Option<string>)
    requires SetRouter(path, token, role).Some?
    ensures SetRouter(SetRouter(path, token, role).value, token, role) == None
  {
  }
}
