/**
 * The application shell (src/App.tsx): which screen is shown for the
 * authentication state, the signed-in user's role and the current page, and
 * the callbacks that change the page and the sign-in prompt. The
 * authentication state itself (`useAuth`) is an input.
 */
module App {
  import opened Wrappers
  import opened Rows
  import FaaCategories

  datatype Page = DashboardPage | WorkPage | AdminPage

  /** The screen the shell renders; the dashboard receives the user's role. */
  datatype View =
    | LoadingScreen
    | AdminPanelView
    | WorkPageView
    | DashboardView(userRole: string)
    | AuthFormView
    | LandingPageView

  const DefaultRole: string := "pilot"

  /** `profile?.role || 'pilot'`. */
  function DashboardRole(profile: Option<Profile>): (role: string)
    ensures role != ""
    ensures profile.Some? && profile.value.role != "" ==> role == profile.value.role
    ensures profile.None? || profile.value.role == "" ==> role == DefaultRole
  {
    if profile.Some? && profile.value.role != "" then profile.value.role else DefaultRole
  }

  /** The screen for the current state: loading first; then, for a signed-in
      user, the admin panel (administrators only), the work page or the
      dashboard; otherwise the sign-in form or the landing page. */
  function SelectView(loading: bool, user: Option<User>, profile: Option<Profile>, page: Page, showAuth: bool): (v: View)
    ensures loading ==> v == LoadingScreen
    ensures v == AdminPanelView <==> !loading && page == AdminPage && FaaCategories.IsAdmin(user, profile)
    ensures v == WorkPageView <==> !loading && user.Some? && page == WorkPage
    ensures v.DashboardView? <==>
      !loading && user.Some? && page != WorkPage && !(page == AdminPage && FaaCategories.IsAdmin(user, profile))
    ensures v.DashboardView? ==> v.userRole == DashboardRole(profile)
    ensures v == AuthFormView <==> !loading && user.None? && showAuth
    ensures v == LandingPageView <==> !loading && user.None? && !showAuth
  {
    if loading then LoadingScreen
    else if user.Some? then
      if page == AdminPage && profile.Some? && profile.value.role == "admin" then AdminPanelView
      else if page == WorkPage then WorkPageView
      else DashboardView(DashboardRole(profile))
    else if showAuth then AuthFormView
    else LandingPageView
  }

  /** The shell's own state: `showAuth` and `currentPage`. */
  class AppState {
    var showAuth: bool
    var currentPage: Page

    constructor ()
      ensures !showAuth && currentPage == DashboardPage
    {
      showAuth := false;
      currentPage := DashboardPage;
    }

    function CurrentView(loading: bool, user: Option<User>, profile: Option<Profile>): View
      reads this
    {
      SelectView(loading, user, profile, currentPage, showAuth)
    }

    /** The dashboard's `onNavigate`. */
    method Navigate(page: Page)
      modifies this
      ensures currentPage == page && showAuth == old(showAuth)
    {
      currentPage := page;
    }

    /** `onNavigateBack` of the admin panel and the work page. */
    method NavigateBack()
      modifies this
      ensures currentPage == DashboardPage && showAuth == old(showAuth)
    {
      currentPage := DashboardPage;
    }

    /** The landing page's `onGetStarted`. */
    method GetStarted()
      modifies this
      ensures showAuth && currentPage == old(currentPage)
    {
      showAuth := true;
    }

    /** The sign-in form's `onBack`. */
    method BackToLanding()
      modifies this
      ensures !showAuth && currentPage == old(currentPage)
    {
      showAuth := false;
    }
  }

  /** Going back from the admin panel or the work page always lands a
      signed-in user on the dashboard, with the role of the profile. */
  lemma BackShowsDashboard(user: Option<User>, profile: Option<Profile>, showAuth: bool)
    requires user.Some?
    ensures SelectView(false, user, profile, DashboardPage, showAuth) == DashboardView(DashboardRole(profile))
  {
  }

  /** A signed-in user who is not an administrator never sees the admin
      panel, whatever the page. */
  lemma OnlyAdminsSeeAdminPanel(loading: bool, user: Option<User>, profile: Option<Profile>, page: Page, showAuth: bool)
    requires profile.None? || profile.value.role != "admin"
    ensures SelectView(loading, user, profile, page, showAuth) != AdminPanelView
  {
  }
}
