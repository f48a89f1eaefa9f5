/** The guard around every route: it starts the session check once, shows a
    spinner until the store is loaded and initialized, and moves signed-out
    users to the login page and signed-in users away from it. */
module AuthGuard {
  import opened Common
  import opened Supabase
  import opened AuthStore

  const LoginPath := "/login"
  const RegisterPath := "/register"
  const ProjectsPath := "/projects"

  predicate IsAuthRoute(pathname: string)
  {
    pathname == LoginPath || pathname == RegisterPath
  }

  /** The navigation the second effect performs, if any. */
  function GuardRedirect(user: Option<User>, loading: bool, initialized: bool, pathname: string): (r: Option<string>)
    ensures r.Some? ==> initialized && !loading
    ensures r == Some(LoginPath) <==> initialized && !loading && user.None? && !IsAuthRoute(pathname)
    ensures r == Some(ProjectsPath) <==> initialized && !loading && user.Some? && IsAuthRoute(pathname)
  {
    if initialized && !loading then
      if user.None? && !IsAuthRoute(pathname) then Some(LoginPath)
      else if user.Some? && IsAuthRoute(pathname) then Some(ProjectsPath)
      else None
    else None
  }

  /** Following the guard's redirect once, the guard asks for no further one. */
  lemma GuardRedirectSettles(user: Option<User>, loading: bool, initialized: bool, pathname: string)
    requires GuardRedirect(user, loading, initialized, pathname).Some?
    ensures GuardRedirect(user, loading, initialized, GuardRedirect(user, loading, initialized, pathname).value) == None
  {
  }

  /** The guard renders its children only once loaded and initialized; otherwise
      the spinner. */
  function ShowsChildren(loading: bool, initialized: bool): (shown: bool)
    ensures shown ==> initialized
  {
    !(loading || !initialized)
  }

  /** A redirect is only ever issued while the children are shown, never from
      behind the spinner. */
  lemma RedirectOnlyWhenShown(user: Option<User>, loading: bool, initialized: bool, pathname: string)
    ensures GuardRedirect(user, loading, initialized, pathname).Some? ==> ShowsChildren(loading, initialized)
  {
  }

  /** The first effect: checkAuth runs exactly when the store is not initialized,
      and leaves it initialized, so it runs at most once. */
  method CheckAuthEffect(store: AuthState, session: SessionReply, profileReply: ProfileReply)
    returns (called: bool)
    modifies store`user, store`profile, store`loading, store`initialized
    ensures called == !old(store.initialized)
    ensures store.initialized
    ensures !called ==> store.State() == old(store.State())
    ensures called ==> !store.loading
    ensures called && !session.Session? ==> store.user == None && store.profile == None
    ensures called && session.Session? ==>
      match profileReply
      case ProfileRow(p) => store.user == Some(session.user) && store.profile == Some(p)
      case ProfileError => store.user == Some(session.user) && store.profile == None
      case ProfileThrew(_) => store.user == None && store.profile == None
  {
    called := !store.initialized;
    if called {
      store.CheckAuth(session, profileReply);
    }
  }

  /** Running the effect twice calls checkAuth at most once. */
  method CheckAuthOnce(store: AuthState, session: SessionReply, profileReply: ProfileReply)
    returns (first: bool, second: bool)
    modifies store`user, store`profile, store`loading, store`initialized
    ensures !second
    ensures first == !old(store.initialized)
  {
    first := CheckAuthEffect(store, session, profileReply);
    second := CheckAuthEffect(store, session, profileReply);
  }
}
