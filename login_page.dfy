/**
 * `src/pages/Auth/LoginPage.tsx`: submit validation, the disabled predicate of the submit
 * button, and the branch on the account status after signing in.
 */
module Login {
  import opened Wrappers
  import opened JsStrings
  import opened Users
  import opened Notices
  import opened Forms
  import opened Api
  import opened Auth
  import Routes

  datatype LoginForm = LoginForm(username: string, password: string)

  const IncompleteNotice := Notice(Warning, "Account Incomplete",
    "Your account registration is incomplete. Please complete OTP verification or contact support.")
  const WelcomeNotice := Notice(Success, "Login Successful", "Welcome back to Choolha Chawka!")

  function LoginFailedNotice(message: string): Notice {
    Notice(Error, "Login Failed", Or(Some(message), "Invalid credentials. Please try again."))
  }

  /** The field errors of `handleSubmit`. */
  function LoginErrors(f: LoginForm): (errors: Errors)
    ensures "username" in errors <==> IsBlank(f.username)
    ensures "password" in errors <==> f.password == ""
    ensures Messages(errors, {"username", "password"})
  {
    var e := Report(map[], "username", if IsBlank(f.username) then Some("Username or email is required") else None);
    Report(e, "password", if f.password == "" then Some("Password is required") else None)
  }

  /** `disabled={loading || !formData.username.trim() || !formData.password}`. */
  predicate SubmitDisabled(loading: bool, f: LoginForm) {
    loading || Trim(f.username) == "" || f.password == ""
  }

  /** An enabled submit button is one whose press passes validation. */
  lemma EnabledSubmitValidates(f: LoginForm)
    ensures !SubmitDisabled(false, f) <==> |LoginErrors(f)| == 0
  {
    TrimEmptyIffBlank(f.username);
    var errors := LoginErrors(f);
    if |errors| == 0 {
      assert "username" !in errors && "password" !in errors;
    } else {
      assert "username" in errors || "password" in errors;
    }
  }

  /** `!user.status`: the status is missing or the empty string. */
  predicate NoStatus(u: User) {
    u.status == Unknown("")
  }

  /** The notice and navigation that follow a sign-in, given the user the branch reads. */
  datatype Outcome = Outcome(notice: Notice, navigation: Option<string>)

  function AfterLogin(user: Option<User>): (r: Outcome)
    ensures user.None? ==> r == Outcome(IncompleteNotice, None)
    ensures user.Some? && NoStatus(user.value) ==> r == Outcome(IncompleteNotice, None)
    ensures user.Some? && user.value.status == Unverified ==> r == Outcome(Routes.OtpNotice, None)
    ensures user.Some? && user.value.status == RegistrationComplete ==> r == Outcome(Routes.ProfileNotice, Some(Routes.ProfileRoute))
    ensures user.Some? && user.value.status == ProfileComplete ==> r == Outcome(WelcomeNotice, Some(Routes.DashboardRoute))
    ensures r.navigation == Some(Routes.DashboardRoute) <==>
              user.Some? && !NoStatus(user.value) && user.value.status !in {Unverified, RegistrationComplete}
  {
    if user.None? || NoStatus(user.value) then Outcome(IncompleteNotice, None)
    else if user.value.status == Unverified then Outcome(Routes.OtpNotice, None)
    else if user.value.status == RegistrationComplete then Outcome(Routes.ProfileNotice, Some(Routes.ProfileRoute))
    else Outcome(WelcomeNotice, Some(Routes.DashboardRoute))
  }

  /**
   * The requests a sign-in issues from session state `s`: the login `POST`, then, once it
   * succeeds, the profile fetch of `login` and the page's own `refreshUser` fetch.
   */
  function SignInRequests(s: SessionState, loginOutcome: Response<Tokens>, profile1: Response<User>): seq<Request> {
    var post := Request(LoginEndpoint, SentAuthorization(s.globals));
    match loginOutcome
    case Fail(_) => [post]
    case Ok(t) =>
      var afterLogin := Refreshed(s.(globals := StoreTokens(s.globals, t)), profile1);
      [post, Request(ProfileEndpoint, Some(Bearer(t.access))), Request(ProfileEndpoint, SentAuthorization(afterLogin.globals))]
  }

  /** When the first profile fetch succeeds, both profile fetches carry the new bearer token. */
  lemma SignInAuthorizesBothFetches(s: SessionState, t: Tokens, u: User)
    ensures SignInRequests(s, Ok(t), Ok(u))[1..] ==
              [Request(ProfileEndpoint, Some(Bearer(t.access))), Request(ProfileEndpoint, Some(Bearer(t.access)))]
  {
    RefreshSuccessReplacesUser(s.(globals := StoreTokens(s.globals, t)), u);
    StoredTokensAuthorize(s.globals, t);
  }

  class LoginPage {
    var formData: LoginForm
    var showPassword: bool
    var loading: bool
    var formErrors: Errors
    /** The target of the last `navigate` call. */
    var navigation: Option<string>
    const notifier: Notifier
    const auth: AuthProvider

    constructor (notifier: Notifier, auth: AuthProvider)
      ensures formData == LoginForm("", "") && !showPassword && !loading && formErrors == map[] && navigation == None
      ensures this.notifier == notifier && this.auth == auth
    {
      formData := LoginForm("", "");
      showPassword := false;
      loading := false;
      formErrors := map[];
      navigation := None;
      this.notifier := notifier;
      this.auth := auth;
    }

    /** `handleChange` on one of the two inputs. */
    method HandleChange(name: string, value: string)
      modifies this`formData
      ensures name == "username" ==> formData == old(formData).(username := value)
      ensures name == "password" ==> formData == old(formData).(password := value)
      ensures name !in {"username", "password"} ==> formData == old(formData)
    {
      if name == "username" {
        formData := formData.(username := value);
      } else if name == "password" {
        formData := formData.(password := value);
      }
    }

    /** The `try` block up to the status branch: `login`, then the page's own `refreshUser`. */
    method Authenticate(loginOutcome: Response<Tokens>, profile1: Response<User>, profile2: Response<User>) returns (c: Completion)
      modifies auth, auth.api
      ensures auth.loading == old(auth.loading)
      ensures auth.api.sent == old(auth.api.sent) + SignInRequests(old(auth.State()), loginOutcome, profile1)
      ensures loginOutcome.Fail? ==>
                && c == Threw(LoginFailureMessage(loginOutcome.error))
                && auth.State() == old(auth.State()).(globals := Rejected(old(auth.api.State()), loginOutcome.error))
      ensures loginOutcome.Ok? ==>
                && c == Normal
                && auth.State() == Refreshed(Refreshed(old(auth.State()).(globals := StoreTokens(old(auth.api.State()), loginOutcome.data)), profile1), profile2)
    {
      c := auth.Login(loginOutcome, profile1);
      if c.Normal? {
        var _ := auth.RefreshUser(profile2);
      }
    }

    /** The status branch: one notice, and a `navigate` when the branch names a route. */
    method Announce(next: Outcome)
      modifies notifier, this`navigation
      ensures notifier.log == old(notifier.log) + [next.notice]
      ensures navigation == (if next.navigation.Some? then next.navigation else old(navigation))
    {
      notifier.Add(next.notice);
      if next.navigation.Some? {
        navigation := next.navigation;
      }
    }

    /**
     * `handleSubmit` as written: `login` (whose POST answers with `loginOutcome` and whose own
     * profile fetch answers with `profile1`), then the page's `refreshUser` (answered by
     * `profile2`); the status branch reads `renderUser`, the user of the render that created the
     * handler, not the one just fetched.
     */
    method HandleSubmit(renderUser: Option<User>, loginOutcome: Response<Tokens>, profile1: Response<User>, profile2: Response<User>)
      modifies this`loading, this`formErrors, this`navigation, notifier, auth, auth.api
      ensures formErrors == LoginErrors(formData)
      ensures !loading || (|formErrors| > 0 && loading == old(loading))
      ensures |formErrors| > 0 ==>
                notifier.log == old(notifier.log) && navigation == old(navigation) && unchanged(auth, auth.api)
      ensures |formErrors| == 0 ==> !loading && auth.loading == old(auth.loading)
      ensures |formErrors| == 0 ==> auth.api.sent == old(auth.api.sent) + SignInRequests(old(auth.State()), loginOutcome, profile1)
      ensures |formErrors| == 0 && loginOutcome.Fail? ==>
                && auth.State() == old(auth.State()).(globals := Rejected(old(auth.api.State()), loginOutcome.error))
                && navigation == old(navigation)
                && notifier.log == old(notifier.log) + [LoginFailedNotice(LoginFailureMessage(loginOutcome.error))]
      ensures |formErrors| == 0 && loginOutcome.Ok? ==>
                && auth.State() == Refreshed(Refreshed(old(auth.State()).(globals := StoreTokens(old(auth.api.State()), loginOutcome.data)), profile1), profile2)
                && notifier.log == old(notifier.log) + [AfterLogin(renderUser).notice]
                && navigation == (if AfterLogin(renderUser).navigation.Some? then AfterLogin(renderUser).navigation else old(navigation))
    {
      var errors := LoginErrors(formData);
      formErrors := errors;
      if |errors| > 0 {
        return;
      }
      loading := true;
      var c := Authenticate(loginOutcome, profile1, profile2);
      if c.Threw? {
        notifier.Add(LoginFailedNotice(c.message));
      } else {
        Announce(AfterLogin(renderUser));
      }
      loading := false;
    }

    /**
     * `handleSubmit` as intended: the status branch reads the user `refreshUser` has just
     * stored in the session.
     */
    method HandleSubmitWithFreshUser(loginOutcome: Response<Tokens>, profile1: Response<User>, profile2: Response<User>)
      modifies this`loading, this`formErrors, this`navigation, notifier, auth, auth.api
      ensures formErrors == LoginErrors(formData)
      ensures !loading || (|formErrors| > 0 && loading == old(loading))
      ensures |formErrors| > 0 ==>
                notifier.log == old(notifier.log) && navigation == old(navigation) && unchanged(auth, auth.api)
      ensures |formErrors| == 0 ==> !loading && auth.loading == old(auth.loading)
      ensures |formErrors| == 0 ==> auth.api.sent == old(auth.api.sent) + SignInRequests(old(auth.State()), loginOutcome, profile1)
      ensures |formErrors| == 0 && loginOutcome.Fail? ==>
                && auth.State() == old(auth.State()).(globals := Rejected(old(auth.api.State()), loginOutcome.error))
                && navigation == old(navigation)
                && notifier.log == old(notifier.log) + [LoginFailedNotice(LoginFailureMessage(loginOutcome.error))]
      ensures |formErrors| == 0 && loginOutcome.Ok? ==>
                && auth.State() == Refreshed(Refreshed(old(auth.State()).(globals := StoreTokens(old(auth.api.State()), loginOutcome.data)), profile1), profile2)
                && notifier.log == old(notifier.log) + [AfterLogin(auth.user).notice]
                && navigation == (if AfterLogin(auth.user).navigation.Some? then AfterLogin(auth.user).navigation else old(navigation))
    {
      var errors := LoginErrors(formData);
      formErrors := errors;
      if |errors| > 0 {
        return;
      }
      loading := true;
      var c := Authenticate(loginOutcome, profile1, profile2);
      if c.Threw? {
        notifier.Add(LoginFailedNotice(c.message));
      } else {
        Announce(AfterLogin(auth.user));
      }
      loading := false;
    }
  }

  /**
   * The error notice of a failed sign-in carries the back end's reason or `Login failed`: the
   * thrown message is never empty, so the page's own fallback text is never chosen.
   */
  lemma LoginFailedNoticeMessage(e: HttpError)
    ensures LoginFailedNotice(LoginFailureMessage(e)).message == LoginFailureMessage(e)
    ensures LoginFailedNotice(LoginFailureMessage(e)).message == Or(e.detail, "Login failed")
  {
    LoginFailureMessageNonEmpty(e);
  }

  /**
   * The login form is only on screen while nobody is signed in, so the user its handler reads
   * is always `None`: every successful sign-in ends on the "Account Incomplete" warning, and
   * the handler itself does not navigate, whatever the account's real status.
   */
  lemma StaleUserAlwaysIncomplete(loading: bool, renderUser: Option<User>)
    requires Routes.AppContent(loading, renderUser, Routes.LoginRoute).screen == Routes.Show(Routes.LoginPage)
    ensures AfterLogin(renderUser) == Outcome(IncompleteNotice, None)
  {
    Routes.EntryFormsOnlyWithoutUser(loading, renderUser, Routes.LoginRoute);
  }

  /** Reading the freshly fetched user, a sign-in to a complete profile is welcomed and sent to the dashboard. */
  lemma FreshUserReachesDashboard(s: SessionState, tokens: Tokens, profile1: Response<User>, u: User)
    requires u.status == ProfileComplete
    ensures var after := Refreshed(Refreshed(s.(globals := StoreTokens(s.globals, tokens)), profile1), Ok(u));
            AfterLogin(after.user) == Outcome(WelcomeNotice, Some(Routes.DashboardRoute))
  {
    RefreshSuccessReplacesUser(Refreshed(s.(globals := StoreTokens(s.globals, tokens)), profile1), u);
  }
}
