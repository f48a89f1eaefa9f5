/** The route table and its two guards: PrivateRoute (signed in, and sent to the
    company setup while the profile has no company) and SetupGuard (away from the
    setup once it has one). */
module App {
  import opened Common
  import opened Supabase
  import AuthGuard

  const SetupPath := "/setup"
  const NewProjectPath := "/projects/new"
  const ProjectPrefix := "/projects/"

  /** What a guard renders: the loading text, a replacing redirect, or its children. */
  datatype Screen = LoadingView | RedirectTo(to: string) | Children

  /** The profile is loaded but `company_id` is falsy. */
  predicate NeedsSetup(profile: Option<Profile>)
  {
    profile.Some? && !Truthy(profile.value.companyId)
  }

  function PrivateRoute(user: Option<User>, loading: bool, profile: Option<Profile>, pathname: string): (s: Screen)
    ensures s == LoadingView <==> loading
    ensures s == RedirectTo(AuthGuard.LoginPath) <==> !loading && user.None?
    ensures s == RedirectTo(SetupPath) <==> !loading && user.Some? && NeedsSetup(profile) && pathname != SetupPath
    ensures s == Children <==> !loading && user.Some? && (!NeedsSetup(profile) || pathname == SetupPath)
  {
    if loading then LoadingView
    else if user.None? then RedirectTo(AuthGuard.LoginPath)
    else if profile.Some? && !Truthy(profile.value.companyId) && pathname != SetupPath then RedirectTo(SetupPath)
    else Children
  }

  function SetupGuard(profile: Option<Profile>): (s: Screen)
    ensures s == RedirectTo(AuthGuard.ProjectsPath) <==> profile.Some? && Truthy(profile.value.companyId)
    ensures s != RedirectTo(AuthGuard.ProjectsPath) ==> s == Children
  {
    if profile.Some? && Truthy(profile.value.companyId) then RedirectTo(AuthGuard.ProjectsPath) else Children
  }

  datatype Element = LoginForm | RegisterForm | SetupPage | NewProjectPage | ProjectDetailsPage(projectId: string) | DashboardPage

  /** The route a path selects: the fixed paths, one `/projects/:projectId`
      segment, and everything else to the dashboard. */
  function MatchRoute(pathname: string): (e: Element)
    ensures e.ProjectDetailsPage? ==> pathname == ProjectPrefix + e.projectId && e.projectId != "" && '/' !in e.projectId
  {
    if pathname == AuthGuard.LoginPath then LoginForm
    else if pathname == AuthGuard.RegisterPath then RegisterForm
    else if pathname == SetupPath then SetupPage
    else if pathname == NewProjectPath then NewProjectPage
    else if |pathname| > |ProjectPrefix| && pathname[..|ProjectPrefix|] == ProjectPrefix && '/' !in pathname[|ProjectPrefix|..] then
      assert pathname == ProjectPrefix + pathname[|ProjectPrefix|..];
      ProjectDetailsPage(pathname[|ProjectPrefix|..])
    else DashboardPage
  }

  datatype View = Loading | Navigate(to: string) | Show(element: Element)

  function Through(s: Screen, e: Element): View
  {
    match s
    case LoadingView => Loading
    case RedirectTo(to) => Navigate(to)
    case Children => Show(e)
  }

  /** What the route table shows for a path, given the store's user, loading
      flag and profile. */
  function RouteView(user: Option<User>, loading: bool, profile: Option<Profile>, pathname: string): View
  {
    var e := MatchRoute(pathname);
    if e == LoginForm || e == RegisterForm then Show(e)
    else
      var outer := PrivateRoute(user, loading, profile, pathname);
      if e == SetupPage && outer == Children then Through(SetupGuard(profile), e)
      else Through(outer, e)
  }

  /** Every redirect of the route table lands, in one step, on a path that is
      shown: the guards never bounce between two paths. */
  lemma RedirectsSettle(user: Option<User>, profile: Option<Profile>, pathname: string)
    requires RouteView(user, false, profile, pathname).Navigate?
    ensures RouteView(user, false, profile, RouteView(user, false, profile, pathname).to).Show?
  {
    var to := RouteView(user, false, profile, pathname).to;
    assert MatchRoute(AuthGuard.LoginPath) == LoginForm;
    assert MatchRoute(SetupPath) == SetupPage;
    assert MatchRoute(AuthGuard.ProjectsPath) == DashboardPage by {
      assert AuthGuard.ProjectsPath != SetupPath && AuthGuard.ProjectsPath != NewProjectPath;
      assert |AuthGuard.ProjectsPath| <= |ProjectPrefix|;
    }
  }

  /** While the store's profile has no company, the projects page sends the user
      back to the setup, which is shown again; the setup submit does not refresh
      that profile. */
  lemma UnlinkedProfileReturnsToSetup(u: User, p: Profile)
    requires !Truthy(p.companyId)
    ensures RouteView(Some(u), false, Some(p), AuthGuard.ProjectsPath) == Navigate(SetupPath)
    ensures RouteView(Some(u), false, Some(p), SetupPath) == Show(SetupPage)
  {
    assert MatchRoute(SetupPath) == SetupPage;
    assert |AuthGuard.ProjectsPath| <= |ProjectPrefix|;
    assert MatchRoute(AuthGuard.ProjectsPath) == DashboardPage;
  }

  /** AuthGuard and PrivateRoute agree on a signed-out user away from the auth
      pages: both send them to the login page. */
  lemma GuardsAgreeOnSignedOut(profile: Option<Profile>, pathname: string)
    requires !AuthGuard.IsAuthRoute(pathname)
    ensures AuthGuard.GuardRedirect(None, false, true, pathname) == Some(AuthGuard.LoginPath)
    ensures RouteView(None, false, profile, pathname) == Navigate(AuthGuard.LoginPath)
  {
  }
}
