/** Properties that span components: the store's state seen through the route guard and
    the credential page, and the start-up path with the fallback client. */
module AppFlows {
  import opened Base
  import opened Types
  import SupabaseClient
  import AuthContext
  import ProtectedLayout
  import AppRoutes
  import AuthPage

  /** The guard's redirect to `/auth` and the credential page's redirect to `/` never both
      apply, and once the store has finished loading exactly one of them does: the two
      pages cannot send a visitor back and forth. */
  lemma RedirectsAreComplementary(user: Option<User>, loading: bool)
    ensures !(ProtectedLayout.Redirect(user, loading).Some? && AuthPage.Redirect(user, loading).Some?)
    ensures !loading ==> (ProtectedLayout.Redirect(user, loading).Some? <==> AuthPage.Redirect(user, loading).None?)
  {
  }

  /** While the listener waits for a profile, every protected page shows the spinner and
      neither page redirects, whatever the store held before. */
  lemma ProfileRefreshShowsSpinner(st: AuthContext.AuthState, s: Session, path: string)
    requires path in AppRoutes.ProtectedPaths
    ensures ProtectedLayout.Decide(AuthContext.BeginAuthChange(st, Some(s)).user, AuthContext.BeginAuthChange(st, Some(s)).loading)
            == ProtectedLayout.Spinner
    ensures AppRoutes.Shown(path, AuthContext.BeginAuthChange(st, Some(s)).user, AuthContext.BeginAuthChange(st, Some(s)).loading).None?
  {
  }

  /** After any history whose latest event is a sign-out (a null session), the guard
      redirects to `/auth`, no protected page is shown, there is no profile, and the
      credential page shows its form rather than the spinner. */
  lemma SignOutReachesCredentialPage(s0: Option<Session>, f0: AuthContext.ProfileFetch,
                                                        events: seq<AuthContext.AuthEvent>, path: string)
    requires events != [] && events[|events| - 1].session.None?
    requires path in AppRoutes.ProtectedPaths
    ensures ProtectedLayout.Redirect(AuthContext.History(s0, f0, events).user, AuthContext.History(s0, f0, events).loading)
            == Some(ProtectedLayout.AuthPath)
    ensures AppRoutes.Shown(path, AuthContext.History(s0, f0, events).user, AuthContext.History(s0, f0, events).loading).None?
    ensures AuthContext.History(s0, f0, events).profile.None?
    ensures !AuthPage.ShowsSpinner(AuthContext.History(s0, f0, events).user, AuthContext.History(s0, f0, events).loading)
  {
    AuthContext.HistorySettles(s0, f0, events);
  }

  /** After any history whose latest event carries a session, each protected path shows its
      own page inside the guard, and the credential page redirects to `/`. */
  lemma SignInReachesProtectedPage(s0: Option<Session>, f0: AuthContext.ProfileFetch,
                                                      events: seq<AuthContext.AuthEvent>, path: string)
    requires events != [] && events[|events| - 1].session.Some?
    requires path in AppRoutes.ProtectedPaths
    ensures AppRoutes.Shown(path, AuthContext.History(s0, f0, events).user, AuthContext.History(s0, f0, events).loading)
            == Some(AppRoutes.Resolve(path).value.page)
    ensures AuthPage.Redirect(AuthContext.History(s0, f0, events).user, AuthContext.History(s0, f0, events).loading)
            == Some(AuthPage.HomePath)
  {
    AuthContext.HistorySettles(s0, f0, events);
  }

  /** The provider's own methods, run in order: mount with a session, a sign-out event,
      a new sign-in whose profile fetch fails. Returns what the guard decides at each
      point where the listener is idle or waiting. */
  method ProviderLifecycle(s: Session, t: Session, p: Profile, err: BackendError)
    returns (afterMount: ProtectedLayout.GuardView, afterSignOut: ProtectedLayout.GuardView,
             duringFetch: ProtectedLayout.GuardView, afterFetch: ProtectedLayout.GuardView)
    ensures afterMount == ProtectedLayout.Chrome
    ensures afterSignOut == ProtectedLayout.Blank
    ensures duringFetch == ProtectedLayout.Spinner
    ensures afterFetch == ProtectedLayout.Chrome
  {
    var store := new AuthContext.AuthProvider();
    store.Mount(Some(s), Ok(p));
    assert store.profile == Some(p);
    afterMount := ProtectedLayout.Decide(store.user, store.loading);
    store.AuthChangeStart(None);
    assert store.profile.None?;
    afterSignOut := ProtectedLayout.Decide(store.user, store.loading);
    store.AuthChangeStart(Some(t));
    duringFetch := ProtectedLayout.Decide(store.user, store.loading);
    store.AuthChangeFinish(Err(err));
    assert store.user == Some(t.user) && store.profile.None?;
    afterFetch := ProtectedLayout.Decide(store.user, store.loading);
    store.Teardown();
  }

  /** As written, the client chosen for an invalid configuration lacks the two methods the
      provider calls on mount, so mounting the provider calls an undefined method (a
      TypeError) instead of settling on "no session"; the real client has them all. */
  lemma StubMountCallsMissingAsWritten(cfg: SupabaseClient.Config)
    ensures SupabaseClient.SelectClient(cfg) == SupabaseClient.Stub ==>
              && SupabaseClient.GetSession in AuthContext.MountCalls
              && SupabaseClient.GetSession !in SupabaseClient.AuthSurfaceAsWritten(SupabaseClient.SelectClient(cfg))
              && SupabaseClient.OnAuthStateChange in AuthContext.MountCalls
              && SupabaseClient.OnAuthStateChange !in SupabaseClient.AuthSurfaceAsWritten(SupabaseClient.SelectClient(cfg))
    ensures (AuthContext.MountCalls <= SupabaseClient.AuthSurfaceAsWritten(SupabaseClient.SelectClient(cfg)))
            <==> SupabaseClient.SelectClient(cfg) == SupabaseClient.Live
  {
  }

  /** With the corrected fallback client, every call the provider makes on mount exists;
      the store settles on no user and not loading, the guard sends the visitor to `/auth`,
      and the credential page shows its form. */
  lemma StubStartupReachesCredentialForm(f0: AuthContext.ProfileFetch)
    ensures AuthContext.MountCalls <= SupabaseClient.StubAuthSurface
    ensures AuthContext.History(SupabaseClient.StubGetSession(), f0, []).user.None?
    ensures !AuthContext.History(SupabaseClient.StubGetSession(), f0, []).loading
    ensures ProtectedLayout.Redirect(AuthContext.History(SupabaseClient.StubGetSession(), f0, []).user,
                                     AuthContext.History(SupabaseClient.StubGetSession(), f0, []).loading)
            == Some(ProtectedLayout.AuthPath)
    ensures !AuthPage.ShowsSpinner(AuthContext.History(SupabaseClient.StubGetSession(), f0, []).user,
                                   AuthContext.History(SupabaseClient.StubGetSession(), f0, []).loading)
  {
  }

  /** As written, the fallback client's error is a plain object, not an `Error` instance, so
      a sign-in or sign-up through it shows the generic fallback text, not the
      configuration message. */
  lemma StubErrorHiddenAsWritten(isSignUp: bool, email: string, password: string)
    ensures AuthPage.SubmitMessage(isSignUp, AuthPage.Resolved(SupabaseClient.StubCredentialCall(
              AuthPage.CallFor(isSignUp, email, password).op, email, password)))
            == Some(AuthPage.Message(AuthPage.Failure, AuthPage.UnexpectedErrorText))
    ensures AuthPage.UnexpectedErrorText != SupabaseClient.StubAuthMessage
  {
  }

  /** With the corrected fallback client, any sign-in or sign-up shows the configuration
      message as a form error, whatever the credentials. */
  lemma StubErrorShownInForm(isSignUp: bool, email: string, password: string)
    ensures AuthPage.SubmitMessage(isSignUp, AuthPage.Resolved(SupabaseClient.StubCredentialCallCorrected(
              AuthPage.CallFor(isSignUp, email, password).op, email, password)))
            == Some(AuthPage.Message(AuthPage.Failure, SupabaseClient.StubAuthMessage))
  {
  }
}
