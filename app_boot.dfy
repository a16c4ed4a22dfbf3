/**
 * Start-up of the whole application: the first render of `AuthProvider`, the
 * route decision the router makes on it, and the mount effect that restores a
 * stored session only after that decision has been committed.
 */
module Boot {
  import opened Lists
  import opened Auth
  import opened Routing

  /** The provider's first render: the `useState(null)` slot, the mount effect not yet run. */
  function FirstRender(persisted: Storage): (s: Session)
    ensures !Authenticated(s)
    ensures s.storage == persisted
  {
    Session(None, persisted)
  }

  /** On the first render every protected path redirects to the login page, whatever the store holds. */
  lemma FirstRenderRedirects(path: string, persisted: Storage)
    requires path in ProtectedPaths
    ensures Resolve(path, Authenticated(FirstRender(persisted))) == Redirect(LoginPath)
  {
  }

  /** The screen once the mount effect has run, as the application is written: the first
      render's redirect replaces the location, and the restored session is then applied to
      the new location. The login page has no branch for a user who is already signed in. */
  function LandingAsWritten(path: string, persisted: Storage): (r: Outcome)
    ensures path in ProtectedPaths ==> r == Render(LoginView)
    ensures path !in ProtectedPaths ==> r == Resolve(path, Authenticated(Started(persisted)))
  {
    var first := Resolve(path, Authenticated(FirstRender(persisted)));
    var location := if first.Redirect? then first.to else path;
    Resolve(location, Authenticated(Started(persisted)))
  }

  /** A reload of `/developers` over a stored admin session ends signed in, on the login page. */
  lemma StoredSessionLandsOnLogin()
    ensures var store := map[AuthKey := "true", EmailKey := AdminEmail];
      && Authenticated(Started(store))
      && LandingAsWritten("/developers", store) == Render(LoginView)
  {
    var store := map[AuthKey := "true", EmailKey := AdminEmail];
    assert HasStoredSession(store);
  }

  /** The screen the persisted session is meant to give: the route decision sees the
      restored session, as if routing waited for the mount effect. */
  function Landing(path: string, persisted: Storage): (r: Outcome)
    ensures path in ProtectedPaths && HasStoredSession(persisted) ==> r == Render(ProtectedPage(path).value)
    ensures path in ProtectedPaths && !HasStoredSession(persisted) ==> r == Redirect(LoginPath)
    ensures path !in ProtectedPaths ==> r == LandingAsWritten(path, persisted)
  {
    Resolve(path, Authenticated(Started(persisted)))
  }

  /** After a successful login, a reload of any protected path shows that path's page. */
  lemma LandingAfterLogin(s: Session, email: string, password: string, path: string)
    requires ValidCredentials(email, password) && path in ProtectedPaths
    ensures Landing(path, LoginStep(s, email, password).0.storage) == Render(ProtectedPage(path).value)
  {
    RestartAfterLogin(s, email, password);
  }
}
