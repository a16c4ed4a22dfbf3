/**
 * The route table of `AppRoutes` with its `ProtectedRoute` wrapper, as a
 * decision from the requested path and the session's `isAuthenticated` to
 * either the page that renders or a redirect.
 */
module Routing {
  import opened Lists

  /** The page components the table can render. */
  datatype Page = LoginView | Dashboard | DevelopersView | ProjectsView | PropertiesView | ImagesView | NotFound

  datatype Outcome = Render(page: Page) | Redirect(to: string)

  const LoginPath: string := "/login"

  /** The paths whose element is wrapped in `ProtectedRoute`. */
  const ProtectedPaths: set<string> := {"/", "/developers", "/projects", "/properties", "/images"}

  /** `ProtectedRoute`: the wrapped page when signed in, otherwise `<Navigate to="/login" replace />`. */
  function ProtectedRoute(isAuthenticated: bool, page: Page): (r: Outcome)
    ensures r.Render? <==> isAuthenticated
    ensures r.Render? ==> r.page == page
    ensures r.Redirect? ==> r.to == "/login"
  {
    if !isAuthenticated then Redirect(LoginPath) else Render(page)
  }

  /** The page behind a protected path; `None` for every path outside the protected set. */
  function ProtectedPage(path: string): (p: Option<Page>)
    ensures p.Some? <==> path in ProtectedPaths
    ensures p.Some? ==> p.value != LoginView && p.value != NotFound
  {
    if path == "/" then Some(Dashboard)
    else if path == "/developers" then Some(DevelopersView)
    else if path == "/projects" then Some(ProjectsView)
    else if path == "/properties" then Some(PropertiesView)
    else if path == "/images" then Some(ImagesView)
    else None
  }

  /** `AppRoutes`: which element the router produces for `path`. */
  function Resolve(path: string, isAuthenticated: bool): (r: Outcome)
    ensures path == "/login" ==> r == Render(LoginView)
    ensures path in ProtectedPaths && !isAuthenticated ==> r == Redirect("/login")
    ensures path in ProtectedPaths && isAuthenticated ==> r == Render(ProtectedPage(path).value)
    ensures path != "/login" && path !in ProtectedPaths ==> r == Render(NotFound)
  {
    if path == LoginPath then Render(LoginView)
    else match ProtectedPage(path)
      case Some(page) => ProtectedRoute(isAuthenticated, page)
      case None => Render(NotFound)
  }

  /** The only redirect the table issues: a protected path while anonymous. */
  lemma RedirectExactlyWhenAnonymousOnProtected(path: string, isAuthenticated: bool)
    ensures Resolve(path, isAuthenticated).Redirect? <==> path in ProtectedPaths && !isAuthenticated
  {
  }

  /** Following the redirect lands on the login page, signed in or not. */
  lemma RedirectLandsOnLogin(path: string, isAuthenticated: bool)
    requires Resolve(path, isAuthenticated).Redirect?
    ensures Resolve(Resolve(path, isAuthenticated).to, isAuthenticated) == Render(LoginView)
  {
  }

  /** The login page and the not-found page do not depend on the session. */
  lemma UnprotectedIgnoresSession(path: string)
    requires path !in ProtectedPaths
    ensures Resolve(path, true) == Resolve(path, false)
  {
  }

  /** The table entry by entry, for a signed-in user. */
  lemma RouteTable()
    ensures Resolve("/", true) == Render(Dashboard)
    ensures Resolve("/developers", true) == Render(DevelopersView)
    ensures Resolve("/projects", true) == Render(ProjectsView)
    ensures Resolve("/properties", true) == Render(PropertiesView)
    ensures Resolve("/images", true) == Render(ImagesView)
  {
  }

  /** Distinct protected paths render distinct pages. */
  lemma ProtectedPagesDistinct(p: string, q: string)
    requires p in ProtectedPaths && q in ProtectedPaths && p != q
    ensures Resolve(p, true) != Resolve(q, true)
  {
  }
}
