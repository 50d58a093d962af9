/**
 * The routing layer of `src/App.tsx`: the `ProtectedRoute` decision table, the loading gate
 * of `AppContent`, the entry rule of `/login` and `/register`, and the dashboard choice.
 * The one side effect of the guard, `addNotification`, is returned as a value.
 */
module Routes {
  import opened Wrappers
  import opened Users
  import opened Notices

  const HomeRoute := "/"
  const LoginRoute := "/login"
  const RegisterRoute := "/register"
  const DashboardRoute := "/dashboard"
  const ProfileRoute := "/profile"

  const OtpNotice := Notice(Warning, "OTP Not Verified", "Please complete OTP verification to activate your account.")
  const ProfileNotice := Notice(Info, "Profile Incomplete", "Please complete your profile to continue.")

  /** What `ProtectedRoute` returns: the spinner, a `<Navigate>` carrying the original path, or its children. */
  datatype Guarded = Spinner | Redirect(to: string, from: Option<string>) | Children

  datatype Decision = Decision(view: Guarded, notice: Option<Notice>)

  function ProtectedRoute(loading: bool, user: Option<User>, pathname: string): (d: Decision)
    ensures d.view == Children ==> !loading && user.Some?
    ensures d.view.Redirect? ==> d.view.from == Some(pathname)
    ensures d.notice.Some? ==> d.view.Redirect?
  {
    if loading then Decision(Spinner, None)
    else if user.None? then Decision(Redirect(LoginRoute, Some(pathname)), None)
    else if user.value.status == Unverified then
      if pathname != RegisterRoute && pathname != LoginRoute
      then Decision(Redirect(RegisterRoute, Some(pathname)), Some(OtpNotice))
      else Decision(Children, None)
    else if user.value.status == RegistrationComplete then
      if pathname != ProfileRoute
      then Decision(Redirect(ProfileRoute, Some(pathname)), Some(ProfileNotice))
      else Decision(Children, None)
    else Decision(Children, None)
  }

  /** Rule 1: while loading, the spinner, with no redirect and no notice. */
  lemma GuardWhileLoading(user: Option<User>, pathname: string)
    ensures ProtectedRoute(true, user, pathname) == Decision(Spinner, None)
  {
  }

  /** Rule 2: no user means a silent redirect to `/login` that remembers where the visitor was going. */
  lemma GuardWithoutUser(pathname: string)
    ensures ProtectedRoute(false, None, pathname) == Decision(Redirect(LoginRoute, Some(pathname)), None)
  {
  }

  /** Rule 3: an unverified user anywhere but `/register` and `/login` gets one warning and `/register`. */
  lemma GuardUnverified(u: User, pathname: string)
    requires u.status == Unverified && pathname != RegisterRoute && pathname != LoginRoute
    ensures ProtectedRoute(false, Some(u), pathname) == Decision(Redirect(RegisterRoute, Some(pathname)), Some(OtpNotice))
    ensures OtpNotice.kind == Warning
  {
  }

  /** Rule 4: a user with registration complete anywhere but `/profile` gets one info notice and `/profile`. */
  lemma GuardRegistrationComplete(u: User, pathname: string)
    requires u.status == RegistrationComplete && pathname != ProfileRoute
    ensures ProtectedRoute(false, Some(u), pathname) == Decision(Redirect(ProfileRoute, Some(pathname)), Some(ProfileNotice))
    ensures ProfileNotice.kind == Info
  {
  }

  /** Rule 5: a complete profile is rendered everywhere, silently. */
  lemma GuardProfileComplete(u: User, pathname: string)
    requires u.status == ProfileComplete
    ensures ProtectedRoute(false, Some(u), pathname) == Decision(Children, None)
  {
  }

  /** The converse: the children render only when no rule forbids it, and only a forced redirect is announced. */
  lemma GuardRendersOnlyWhenAllowed(loading: bool, user: Option<User>, pathname: string)
    ensures var d := ProtectedRoute(loading, user, pathname);
            (d.view == Children ==>
               && !loading && user.Some?
               && (user.value.status == Unverified ==> pathname == RegisterRoute || pathname == LoginRoute)
               && (user.value.status == RegistrationComplete ==> pathname == ProfileRoute))
            && (d.notice.Some? <==> d.view.Redirect? && d.view.to != LoginRoute)
  {
  }

  /** The pages the application can show. */
  datatype Page =
    | HomePage | LoginPage | RegisterPage | UserDashboard | AdminDashboard | SubscriptionsPage
    | PlansPage | FeedbackPage | PaymentsPage | LeavesPage | NotificationsPage | ProfilePage

  /** What `AppContent` puts on the screen for a path. */
  datatype Screen = Loading | Navigate(to: string, from: Option<string>) | Show(page: Page) | NoMatch

  datatype Rendered = Rendered(screen: Screen, notice: Option<Notice>)

  /** The element a protected route wraps, if `pathname` is one of them. */
  function ProtectedChild(pathname: string, user: Option<User>): Option<Page> {
    if pathname == DashboardRoute then
      Some(if user.Some? && user.value.userType == MessOwner then AdminDashboard else UserDashboard)
    else if pathname == "/subscriptions" then Some(SubscriptionsPage)
    else if pathname == "/plans" then Some(PlansPage)
    else if pathname == "/feedback" then Some(FeedbackPage)
    else if pathname == "/payments" then Some(PaymentsPage)
    else if pathname == "/leaves" then Some(LeavesPage)
    else if pathname == "/notifications" then Some(NotificationsPage)
    else if pathname == ProfileRoute then Some(ProfilePage)
    else None
  }

  predicate IsProtectedPage(p: Page) {
    p != HomePage && p != LoginPage && p != RegisterPage
  }

  function AppContent(loading: bool, user: Option<User>, pathname: string): (r: Rendered)
    ensures r.screen.Show? && IsProtectedPage(r.screen.page) ==> !loading && user.Some?
    ensures r.notice.Some? ==> r.screen.Navigate?
  {
    if loading then Rendered(Loading, None)
    else if pathname == HomeRoute then Rendered(Show(HomePage), None)
    else if pathname == LoginRoute then
      Rendered(if user.Some? then Navigate(DashboardRoute, None) else Show(LoginPage), None)
    else if pathname == RegisterRoute then
      Rendered(if user.Some? then Navigate(DashboardRoute, None) else Show(RegisterPage), None)
    else
      match ProtectedChild(pathname, user)
      case None => Rendered(NoMatch, None)
      case Some(page) =>
        var d := ProtectedRoute(loading, user, pathname);
        Rendered(match d.view
                 case Spinner => Loading
                 case Redirect(to, from) => Navigate(to, from)
                 case Children => Show(page),
                 d.notice)
  }

  /** `/login` and `/register` send any present user to `/dashboard`, whatever the status. */
  lemma EntryRoutesRedirectUsers(u: User, pathname: string)
    requires pathname == LoginRoute || pathname == RegisterRoute
    ensures AppContent(false, Some(u), pathname) == Rendered(Navigate(DashboardRoute, None), None)
  {
  }

  /** The login and registration forms are shown only to a visitor with no user. */
  lemma EntryFormsOnlyWithoutUser(loading: bool, user: Option<User>, pathname: string)
    requires AppContent(loading, user, pathname).screen in {Show(LoginPage), Show(RegisterPage)}
    ensures user.None? && !loading
  {
  }

  /** `/dashboard` shows the admin dashboard exactly when the user is a mess owner allowed to see it. */
  lemma DashboardChoice(u: User)
    requires u.status == ProfileComplete
    ensures AppContent(false, Some(u), DashboardRoute).screen == Show(AdminDashboard) <==> u.userType == MessOwner
    ensures AppContent(false, Some(u), DashboardRoute).screen == Show(UserDashboard) <==> u.userType != MessOwner
  {
  }

  /** While the start-up probe runs, nothing but the spinner is rendered, on any path. */
  lemma LoadingGate(user: Option<User>, pathname: string)
    ensures AppContent(true, user, pathname) == Rendered(Loading, None)
  {
  }

  /** An unverified user is shown no page but the home page, on any path. */
  lemma UnverifiedSeesOnlyHome(u: User, pathname: string)
    requires u.status == Unverified
    ensures AppContent(false, Some(u), pathname).screen.Show? ==> AppContent(false, Some(u), pathname).screen.page == HomePage
  {
  }

  /** The screen reached after following at most `fuel` redirects from `pathname`. */
  function Settle(user: Option<User>, pathname: string, fuel: nat): Screen
    decreases fuel
  {
    var r := AppContent(false, user, pathname);
    if fuel > 0 && r.screen.Navigate? then Settle(user, r.screen.to, fuel - 1) else r.screen
  }

  /**
   * However many redirects are followed, an unverified user never reaches a protected page:
   * `/register` bounces to `/dashboard`, and `/dashboard` bounces back to `/register`.
   */
  lemma {:induction false} UnverifiedNeverReachesProtectedPage(u: User, pathname: string, fuel: nat)
    requires u.status == Unverified
    ensures var s := Settle(Some(u), pathname, fuel);
            !(s.Show? && IsProtectedPage(s.page))
    decreases fuel
  {
    UnverifiedSeesOnlyHome(u, pathname);
    var r := AppContent(false, Some(u), pathname);
    if fuel > 0 && r.screen.Navigate? {
      UnverifiedNeverReachesProtectedPage(u, r.screen.to, fuel - 1);
    }
  }

  /** The bounce itself, with the warning raised on each arrival at `/dashboard`. */
  lemma UnverifiedBounce(u: User)
    requires u.status == Unverified
    ensures AppContent(false, Some(u), RegisterRoute) == Rendered(Navigate(DashboardRoute, None), None)
    ensures AppContent(false, Some(u), DashboardRoute) == Rendered(Navigate(RegisterRoute, Some(DashboardRoute)), Some(OtpNotice))
  {
  }

  /** A user with registration complete who opens `/login` goes to `/dashboard`, then to `/profile`, which renders. */
  lemma RegistrationCompleteLandsOnProfile(u: User)
    requires u.status == RegistrationComplete
    ensures AppContent(false, Some(u), LoginRoute) == Rendered(Navigate(DashboardRoute, None), None)
    ensures AppContent(false, Some(u), DashboardRoute) == Rendered(Navigate(ProfileRoute, Some(DashboardRoute)), Some(ProfileNotice))
    ensures AppContent(false, Some(u), ProfileRoute) == Rendered(Show(ProfilePage), None)
  {
  }
}
