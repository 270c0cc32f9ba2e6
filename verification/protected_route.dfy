/** The route guard (`ProtectedRoute`) in front of every portal page. */
module ProtectedRoute {
  import opened Results
  import opened AuthContext

  /** What the guard renders: the loading screen, a redirect, or the protected page. */
  datatype Decision = Loader | Redirect(to: string, replace: bool) | RenderChildren

  const LoginRoute := "/login"

  /** Loading wins over everything; then a signed-out visitor is sent to the login page, replacing history. */
  function Guard(st: AuthState): (d: Decision)
    ensures d.Loader? <==> st.isLoading
    ensures d.Redirect? <==> !st.isLoading && !st.isAuthenticated
    ensures d.RenderChildren? <==> !st.isLoading && st.isAuthenticated
    ensures d.Redirect? ==> d.to == LoginRoute && d.replace
  {
    if st.isLoading then Loader
    else if !st.isAuthenticated then Redirect(LoginRoute, true)
    else RenderChildren
  }

  /** Before storage has been read the portal shows the loader, whatever storage holds. */
  lemma LoaderBeforeRestore(storage: Storage)
    ensures Guard(Initial(storage).state) == Loader
  {
  }

  /** Reloading after a login opens the portal page without a detour through the login page. */
  lemma ReloadAfterLoginRendersPage(p: Provider, email: string, password: string, nowMs: nat, isoNow: string)
    ensures var q := Login(p, email, password, nowMs, isoNow).0;
            && Mount(q.storage).Ok?
            && Guard(Mount(q.storage).value.state) == RenderChildren
  {
    LoginSurvivesReload(p, email, password, nowMs, isoNow);
  }

  /** Reloading after a logout redirects to the login page. */
  lemma ReloadAfterLogoutRedirects(p: Provider)
    ensures Mount(Logout(p).0.storage).Ok?
    ensures Guard(Mount(Logout(p).0.storage).value.state) == Redirect(LoginRoute, true)
  {
    LogoutSurvivesReload(p);
  }

  /** Empty storage, as on a first visit, ends in the redirect once loading is over. */
  lemma FirstVisitRedirects()
    ensures Mount(map[]).Ok? && Guard(Mount(map[]).value.state) == Redirect(LoginRoute, true)
  {
  }
}
