# Choolha Chawka front end: a Dafny model

This project models the client-side rules of the Choolha Chawka meal-subscription web
application, a React front end that talks to a REST back end. It covers four areas:

- **The session.** `AuthContext` holds the signed-in user and a loading flag. It offers
  `login`, `logout`, `refreshUser` and the start-up `initAuth` probe. The HTTP client in
  `api.ts` attaches the stored bearer token to every request and clears the credentials
  on a 401. `authService.login` stores the two tokens.
- **Routing.** `ProtectedRoute` decides between the spinner, a redirect and the page. This
  depends on the loading flag, the user's onboarding status and the path. `AppContent` adds
  the loading gate, the rule that `/login` and `/register` send any signed-in user to
  `/dashboard`, and the mess-owner dashboard choice.
- **Forms.** These are the validators and normalisers of the registration, login, forgot-
  and reset-password, profile, feedback and leave pages, and the handlers that submit them.
- **Lists and aggregates.** These are the payment and notification filters and totals, the
  dashboard summary with its empty-state error suppression, and the plans page's
  subscribed-plan list and breakfast choices.

The network never runs in the model: every handler takes, as a parameter, the outcome the
back end would produce (`Api.Response<T>`: `Ok(data)` or `Fail(error)`). A handler does the
same thing the page does with that outcome, and reports its effects as new field values.

- `addNotification` appends a `Notices.Notice` (kind, title, message) to the log of a
  `Notices.Notifier`.
- Every request is recorded in `Api.Client.sent`, together with the `Authorization` header
  it carried.
- `navigate` records its target in a `navigation` field.

The state the handlers change lives in Dafny classes: `Api.Client`, `Auth.AuthProvider` and one
class for each page whose handlers the model covers (register, login, forgot and reset password,
profile, feedback, leaves, dashboard and plans). A class keeps only the fields its handlers read
or write; for example, `Leaves.LeavesPage` drops the loaded `leaves` list and the `loading` flag,
and counts the reloads it starts in `fetches`. The payments and notifications pages contribute
only pure filters, totals and cards, so they are modules of functions without a class. Each pure
rule is a function, and the properties are lemmas about those functions.

Files:

- `wrappers.dfy`, `notices.dfy`, `users.dfy`, `forms.dfy`: shared value types, the
  notification log, the user record and the error maps.
- `js_strings.dfy` (`JsStrings`): the JavaScript string operations the pages use
  (`trim`, `||` on strings, `replace` with `\s` and `\D`, `toLowerCase`, `includes`,
  `parseInt`).
- `lists.dfy` (`Lists`): `filter`, the status filter and `reduce`.
- `api.dfy` (`Api`), `auth_context.dfy` (`Auth`), `app.dfy` (`Routes`).
- One file per page: `register_page.dfy`, `login_page.dfy`, `forgot_password_page.dfy`,
  `reset_password_page.dfy`, `profile_page.dfy`, `feedback_page.dfy`, `leaves_page.dfy`,
  `payments_page.dfy`, `notifications_page.dfy`, `dashboard_page.dfy`, `plans_page.dfy`.

## Model

| member | source | states |
|---|---|---|
| Api.StoredToken | src/services/api.ts:12-13 | A token is read exactly when `accessToken` is stored with a non-empty value, and it is that value. |
| Api.AttachBearer | src/services/api.ts:11-18 | With a stored token, `Authorization` becomes `Bearer <token>`. Without one, the headers come back unchanged. No other header is ever touched. |
| Api.ClearedSendsNoAuthorization | src/services/api.ts:11-18 | Once the credentials are cleared, no request carries an `Authorization` header. |
| Api.ClearCredentials | src/services/api.ts:24-27 | Both token keys are removed and every other stored key is kept. The default header is deleted and the location is unchanged. |
| Api.ClearCredentialsIdempotent | src/services/api.ts:24-27 | Clearing the credentials a second time changes nothing. |
| Api.RejectedEffect | src/services/api.ts:21-32 | A 401 removes both tokens and the default header and sets the location to `/login`. Any other rejection leaves the global state exactly as it was. |
| Api.SentAuthorization | src/services/api.ts:11-18 | A request carries `Bearer <token>` whenever a token is stored, and otherwise the default header, which may be absent. |
| Api.Rejected | src/services/api.ts:21-32 | After a 401 no request carries an `Authorization` header and the location is `/login`. Any other failure leaves the global state as it was. |
| Api.Client.Issue | src/services/api.ts:11-18 | Issuing a request appends it to the request log, with the header the interceptor attaches at that moment. |
| Api.Client.Settle | src/services/api.ts:21-32 | The outcome is passed on unchanged, so a rejection is always re-rejected. The new global state is the old one after the 401 handler, which acts only on a failure. |
| Api.Client.Call | src/services/api.ts:3-32 | One call issues exactly one request, carrying the header computed from the state before the call. It returns the outcome and leaves the state the 401 handler produces. |
| Api.StoreTokens | src/services/api.ts:38-41 | After a successful login, `accessToken` and `refreshToken` hold the two tokens and the default header is `Bearer <access>`. Every other stored key is unchanged. |
| Api.StoredTokensAuthorize | src/services/api.ts:39-41 | After a successful login, the next request carries `Bearer <access>`. |
| Api.Client.Login | src/services/api.ts:36-43 | On success the tokens are stored and the header is set. On failure no token or header is written; only the 401 handler runs. Either way exactly one POST to `/accounts/login/` is issued. |
| Api.MissingService | src/services/api.ts:35-56 | Calling a member `authService` does not define rejects with no HTTP response: no status, no `detail`, no `message`. |
| Api.FailureNotice | src/pages/Auth/RegisterPage.tsx:243-247 | The error notice carries the back end's `detail`, else its `message`, else the page's fallback text. |
| Auth.AuthProvider.constructor | src/contexts/AuthContext.tsx:42-43 | The session starts with no user and `loading` set. |
| Auth.LoggedOut | src/contexts/AuthContext.tsx:55-60 | After `logout` there is no user, no request carries an `Authorization` header and the location is unchanged. |
| Auth.Refreshed | src/contexts/AuthContext.tsx:62-75 | A fetched profile replaces the user and nothing else. A 404 or 400 changes nothing. Any other failure leaves no user and no `Authorization` header. |
| Auth.Initialized | src/contexts/AuthContext.tsx:77-91 | Without a stored token the start-up probe changes nothing. With one, a successful probe sets the user and requests keep carrying that token. |
| Auth.AuthProvider.Logout | src/contexts/AuthContext.tsx:55-60 | Both tokens are removed, the default header is deleted and the user is cleared. `loading` is unchanged and no request is made. |
| Auth.LogoutIdempotent | src/contexts/AuthContext.tsx:55-60 | Logging out twice leaves the same state as logging out once. |
| Auth.AuthProvider.RefreshUser | src/contexts/AuthContext.tsx:62-75 | `refreshUser` always settles normally, so it never throws. It leaves the `Refreshed` state after exactly one profile fetch, and it does not change `loading`. |
| Auth.RefreshSuccessReplacesUser | src/contexts/AuthContext.tsx:64-65 | A successful fetch replaces the user wholesale with the payload. Tokens and header are untouched. |
| Auth.RefreshProfileMissingKeepsSession | src/contexts/AuthContext.tsx:69-72 | A 404 or 400 leaves user, tokens and header exactly as they were. |
| Auth.RefreshOtherFailureLogsOut | src/contexts/AuthContext.tsx:66-74 | Any other failure ends in the logged-out state. For a 401, the interceptor clears the credentials before `logout` clears them again; the result equals a single logout, plus the redirect to `/login`. |
| Auth.AuthProvider.Login | src/contexts/AuthContext.tsx:45-53 | A failed POST throws `detail`, or `Login failed` without a detail, after only the 401 handler has run. A successful one stores the tokens and then refreshes the user with a request carrying the new bearer token. The `catch` is reachable only from the POST. |
| Auth.LoginFailureMessageNonEmpty | src/contexts/AuthContext.tsx:51 | The message of the error `login` throws is never empty. |
| Auth.AuthProvider.InitAuth | src/contexts/AuthContext.tsx:77-91 | With a stored token, the header is set before the profile probe, so the one request issued is the profile fetch carrying `Bearer <token>`. Without a token no request is issued. The probe's `catch` and its `logout` are dead code. `loading` ends false. |
| Auth.InitWithoutToken | src/contexts/AuthContext.tsx:79-80 | With no stored token, the start-up probe changes nothing. |
| Auth.ColdStartWithRejectedToken | src/contexts/AuthContext.tsx:79-85 | A stored token that the back end rejects with 401 leaves no user, no stored tokens and no header. |
| Routes.ProtectedRoute | src/App.tsx:21-57 | The guard renders its children only when not loading and with a user. Every redirect remembers the requested path, and a notice comes only with a redirect. |
| Routes.GuardWhileLoading | src/App.tsx:26-28 | While loading, the guard shows the spinner, with no redirect and no notice. |
| Routes.GuardWithoutUser | src/App.tsx:30-32 | With no user, the guard redirects to `/login` and carries the requested path. It emits no notice. |
| Routes.GuardUnverified | src/App.tsx:35-43 | An unverified user on any path but `/register` and `/login` gets one warning and a redirect to `/register`. |
| Routes.GuardRegistrationComplete | src/App.tsx:44-52 | A user whose registration is complete gets one info notice and a redirect to `/profile` on any path but `/profile`. |
| Routes.GuardProfileComplete | src/App.tsx:53-56 | A complete profile is rendered on every path, silently. |
| Routes.GuardRendersOnlyWhenAllowed | src/App.tsx:21-57 | The page renders only when no rule forbids it. A notice accompanies exactly the status redirects, never the `/login` one. |
| Routes.LoadingGate | src/App.tsx:62-64 | While the start-up probe runs, only the spinner is shown, on every path. |
| Routes.AppContent | src/App.tsx:59-119 | A protected page is shown only when not loading and with a user. A notice comes only with a navigation. |
| Routes.EntryRoutesRedirectUsers | src/App.tsx:72-73 | `/login` and `/register` send any present user to `/dashboard`, whatever the status. |
| Routes.EntryFormsOnlyWithoutUser | src/App.tsx:72-73 | The login and registration forms are shown only when there is no user and loading has finished. |
| Routes.DashboardChoice | src/App.tsx:74-78 | For a complete profile, `/dashboard` shows the admin dashboard exactly when the user is a mess owner, and the user dashboard otherwise. |
| Routes.UnverifiedSeesOnlyHome | src/App.tsx:35-73 | An unverified user is shown no page except the home page, on any path. |
| Routes.UnverifiedBounce | src/App.tsx:42-73 | For an unverified user, `/register` redirects to `/dashboard`, and `/dashboard` redirects back to `/register` with the warning. |
| Routes.UnverifiedNeverReachesProtectedPage | src/App.tsx:35-73 | However many redirects are followed, an unverified user never reaches a protected page. |
| Routes.RegistrationCompleteLandsOnProfile | src/App.tsx:44-73 | A user whose registration is complete goes from `/login` to `/dashboard`, then to `/profile`, where the profile page renders. |
| Forms.Report | src/pages/Auth/RegisterPage.tsx:96-100 | An entry for the field is written only when its check produced a message. Every other field is left alone. |
| Forms.ClearError | src/pages/Auth/ResetPasswordPage.tsx:96-102 | Typing blanks that field's error if one is set. An unset error, and every other field, stays as it was. |
| JsStrings.Or | src/pages/Notifications/NotificationsPage.tsx:217 | `a \|\| b` is `a` when `a` is present and non-empty, and `b` otherwise. |
| JsStrings.TrimStart | src/pages/Auth/LoginPage.tsx:22 | The result is a suffix of the input. Everything cut is white space, and the result does not start with white space. |
| JsStrings.TrimEnd | src/pages/Auth/LoginPage.tsx:22 | The result is a prefix of the input. Everything cut is white space, and the result does not end with white space. |
| JsStrings.Trim | src/pages/Auth/LoginPage.tsx:22 | A non-empty trimmed text neither starts nor ends with white space. |
| JsStrings.TrimEmptyIffBlank | src/pages/Auth/RegisterPage.tsx:96 | `!s.trim()` holds exactly when every character of `s` is white space. |
| JsStrings.RemoveSpaces | src/pages/Auth/RegisterPage.tsx:110 | `replace(/\s/g, '')` leaves no white space and never lengthens the text. |
| JsStrings.RemoveSpacesKeepsOthers | src/pages/Auth/RegisterPage.tsx:110 | Every character that is not white space is kept, as often as it occurs in the input. |
| JsStrings.RemoveSpacesAppend | src/pages/Auth/RegisterPage.tsx:110 | Removal works piece by piece, so the kept characters stay in their original order. |
| JsStrings.RemoveSpacesOfBlank | src/pages/Auth/RegisterPage.tsx:108-110 | A blank phone number becomes empty once white space is removed. |
| JsStrings.DigitsOnly | src/pages/Auth/RegisterPage.tsx:160 | `replace(/\D/g, '')` leaves only digits and never lengthens the text. |
| JsStrings.DigitsOnlyKeepsDigits | src/pages/Auth/RegisterPage.tsx:160 | Every digit is kept, as often as it occurs in the input, and nothing else is. |
| JsStrings.Utf16Length | src/pages/Auth/RegisterPage.tsx:98 | `.length` counts UTF-16 code units: between one and two per character, and exactly one per character when all lie in the Basic Multilingual Plane. |
| JsStrings.Utf16LengthOfEmoji | src/pages/Auth/ResetPasswordPage.tsx:35 | A character outside the Basic Multilingual Plane counts twice: an emoji and one letter have length 3. |
| JsStrings.ToLower | src/pages/Auth/RegisterPage.tsx:199 | Lower-casing keeps the length and maps each character on its own. |
| JsStrings.ContainsAt | src/pages/Auth/RegisterPage.tsx:199-202 | `includes(sub)` holds exactly when `sub` occurs at some position. |
| JsStrings.ParseInt | src/pages/Feedback/FeedbackPage.tsx:81 | `parseInt` gives `NaN` exactly when no digit follows the leading white space, the sign and any `0x` prefix. |
| JsStrings.DecimalStringParses | src/pages/Feedback/FeedbackPage.tsx:81 | Parsing the decimal text of a natural number gives that number back. |
| Lists.StatusFiltered | src/pages/Payments/PaymentsPage.tsx:109-112 | Filter `all` returns the list unchanged. Any other filter keeps exactly the entries with that status. |
| Lists.StatusFilteredAppend | src/pages/Payments/PaymentsPage.tsx:109-112 | The status filter works piecewise over a concatenation, so the kept entries stay in their original order. |
| Register.UsernameError | src/pages/Auth/RegisterPage.tsx:96-100 | A blank username is reported as required before its length is checked. The length is `.length` in UTF-16 code units. |
| Register.EmailError | src/pages/Auth/RegisterPage.tsx:102-106 | A blank e-mail is reported as required before the pattern is checked. |
| Register.PhoneError | src/pages/Auth/RegisterPage.tsx:108-112 | A blank phone number is reported as required; otherwise the pattern is checked on the number with white space removed. |
| Register.PasswordError | src/pages/Auth/RegisterPage.tsx:114-118 | An empty password is reported as required before its length is checked. The length is `.length` in UTF-16 code units. |
| Register.ConfirmError | src/pages/Auth/RegisterPage.tsx:120-124 | An empty confirmation is reported before the mismatch is. |
| Register.ValidateForm | src/pages/Auth/RegisterPage.tsx:93-127 | Every entry of the error map is a non-empty message about one of the five fields. |
| Register.ValidateFormFields | src/pages/Auth/RegisterPage.tsx:93-127 | Each field has no entry exactly when its own check found nothing. |
| Register.FieldChecks | src/pages/Auth/RegisterPage.tsx:96-124 | Username: passes exactly when not blank and at least 3 UTF-16 code units long. E-mail: passes exactly when it matches the anchored pattern. Phone: passes exactly when, with white space removed, it matches `+?[1-9]\d{1,14}`. Password: at least 6 UTF-16 code units. Confirmation: non-empty and equal to the password. |
| Register.ValidateFormAccepts | src/pages/Auth/RegisterPage.tsx:93-127 | Each field of the registration form has no error exactly when the rule of its source lines holds, lengths counted in UTF-16 code units. |
| Register.EmojiUsernameAccepted | src/pages/Auth/RegisterPage.tsx:96-100 | An emoji followed by one letter is a long enough username. |
| Register.ValidateProfileForm | src/pages/Auth/RegisterPage.tsx:129-157 | Every entry of the error map is a non-empty message about one of the six profile fields. |
| Register.ProfileFormAccepted | src/pages/Auth/RegisterPage.tsx:132-154 | The profile form passes exactly when the delivery time is filled in, along with the fields the role requires: institute and hostel for a student, the address for a regular user, the mess name and business address for a mess owner. |
| Register.FormatPhoneNumber | src/pages/Auth/RegisterPage.tsx:159-167 | When the digits form 12 digits starting `91`, or exactly 10 digits, the result is `+91` and the last ten digits. Any other input is returned as typed. |
| Register.FormatPhoneNumberIdempotent | src/pages/Auth/RegisterPage.tsx:159-167 | Formatting an already formatted number changes nothing. |
| Register.FormattedPhoneIsValid | src/pages/Auth/RegisterPage.tsx:108-167 | Every number `formatPhoneNumber` rewrites passes the phone check of `validateForm`. |
| Register.AccountExists | src/pages/Auth/RegisterPage.tsx:195-202 | A failure means "account exists" for a 400, or when its lower-cased text mentions `already exists`, `phone`, `username` or `email`. |
| Register.AccountExistsCases | src/pages/Auth/RegisterPage.tsx:195-202 | A 400 always counts as "account exists". A failure with another status and no text never does. |
| Register.MentionInAnyCase | src/pages/Auth/RegisterPage.tsx:198-202 | The keywords are found whatever their letter case; for example `Email already registered` counts. |
| Register.RegisterProfilePayload | src/pages/Auth/RegisterPage.tsx:297-310 | The payload copies the role, flags and delivery time. It carries exactly the one sub-profile that matches `user_type`, unchanged. |
| Register.BlankChecksMatchButtons | src/pages/Auth/RegisterPage.tsx:529-571 | The send-OTP and verify-OTP buttons are enabled exactly when the trimmed phone, or the trimmed OTP, is non-empty. This is the same test the handlers apply. |
| Register.RegisterPage.HandleSubmit | src/pages/Auth/RegisterPage.tsx:169-221 | If the error map is not empty, nothing is sent and nothing else changes. Otherwise the page registers with the formatted phone number. |
| Register.RegisterPage.Register | src/pages/Auth/RegisterPage.tsx:176-220 | Success sets `otpSent`, with the success notice. An "account exists" failure sets `phoneExists` and `otpSent`, with the info notice. Any other failure gives the error notice with the error text. `loading` ends false. |
| Register.RegisterPage.HandleSendOtp | src/pages/Auth/RegisterPage.tsx:223-251 | A blank phone is refused with a notice and no request. Otherwise the formatted phone is sent; success sets `otpSent`, failure gives the error notice. `resendLoading` ends false. |
| Register.RegisterPage.HandleOtpSubmit | src/pages/Auth/RegisterPage.tsx:253-286 | A blank OTP is refused with a notice and no request. Otherwise the formatted phone and the trimmed OTP are sent; success opens the profile form, failure gives the error notice. |
| Register.RegisterPage.HandleProfileSubmit | src/pages/Auth/RegisterPage.tsx:288-331 | Validation errors stop submission before any request. Otherwise the role's payload is sent: exactly one `POST` to `/accounts/complete-profile/`, then, on success only, one profile fetch, both with the header of the state before the call. Success refreshes the session, adds the notice and navigates to `/dashboard`; failure gives the error notice and does not navigate. |
| Login.LoginErrors | src/pages/Auth/LoginPage.tsx:21-25 | The username has an error exactly when blank, and the password exactly when empty. |
| Login.LoginPage.constructor | src/pages/Auth/LoginPage.tsx:8-14 | The form starts with both fields empty, the password hidden, no errors, not loading and no navigation. |
| Login.SubmitDisabled | src/pages/Auth/LoginPage.tsx:164 | The button is disabled while loading, for a blank username or for an empty password. |
| Login.EnabledSubmitValidates | src/pages/Auth/LoginPage.tsx:164 | The submit button is enabled, outside loading, exactly when the form passes validation. |
| Login.AfterLogin | src/pages/Auth/LoginPage.tsx:36-70 | No user or no status: a warning, no navigation. `unverified`: the OTP warning, no navigation. `registration_complete`: the info notice and `/profile`. Any other status: the welcome notice and `/dashboard`. |
| Login.LoginPage.HandleChange | src/pages/Auth/LoginPage.tsx:82-87 | Editing an input changes that one field of the form. |
| Login.SignInRequests | src/pages/Auth/LoginPage.tsx:28-33 | The requests of a sign-in: the login `POST` alone when it fails; otherwise also the profile fetch with `Bearer <access>` and the page's own profile fetch with the header left by the first. |
| Login.SignInAuthorizesBothFetches | src/pages/Auth/LoginPage.tsx:28-33 | When the first profile fetch succeeds, both profile fetches carry `Bearer <access>`. |
| Login.LoginPage.Authenticate | src/pages/Auth/LoginPage.tsx:28-33 | `login`, then the page's `refreshUser`: on a failed POST the error is thrown; on success the session is refreshed twice. The request log grows by exactly `SignInRequests`. |
| Login.LoginPage.Announce | src/pages/Auth/LoginPage.tsx:36-70 | The status branch adds exactly one notice, and navigates only when the branch names a route. |
| Login.LoginPage.HandleSubmit | src/pages/Auth/LoginPage.tsx:19-80 | Field errors stop submission before any request. A thrown login gives exactly one error notice. Otherwise the status branch reads the user captured at render time. `loading` is false after every path that got past validation, and the request log grows by exactly `SignInRequests`. |
| Login.LoginFailedNoticeMessage | src/pages/Auth/LoginPage.tsx:71-76 | The error notice carries `detail`, or `Login failed` without one. The page's own fallback text is never chosen. |
| Login.StaleUserAlwaysIncomplete | src/pages/Auth/LoginPage.tsx:15-44 | The login form is shown only when there is no user, so the branch always reads no user: every sign-in ends on the "Account Incomplete" warning. |
| Login.LoginPage.HandleSubmitWithFreshUser | src/pages/Auth/LoginPage.tsx:19-80 | The same handler, with the branch reading the user that `refreshUser` has just stored. It issues the same requests. |
| Login.FreshUserReachesDashboard | src/pages/Auth/LoginPage.tsx:33-70 | Reading the fresh user, a sign-in to a complete profile is welcomed and sent to `/dashboard`. |
| ForgotPassword.ValidateEmail | src/pages/Auth/ForgotPasswordPage.tsx:25-35 | There is no e-mail error exactly when the unanchored pattern `\S+@\S+\.\S+` matches somewhere in the text. |
| ForgotPassword.ForgotPasswordPage.constructor | src/pages/Auth/ForgotPasswordPage.tsx:16-23 | The page starts with an empty address, no errors, not loading and the form view (`emailSent` false). |
| ForgotPassword.SearchNotBlank | src/pages/Auth/ForgotPasswordPage.tsx:28-31 | A matching address is never blank, so the "required" check never hides a match. |
| ForgotPassword.RegistrationEmailAccepted | src/pages/Auth/ForgotPasswordPage.tsx:30 | Every address the registration form accepts is accepted here. |
| ForgotPassword.SearchIsUnanchored | src/pages/Auth/ForgotPasswordPage.tsx:30 | The converse fails: ` a@b.c` passes here but not at registration. |
| ForgotPassword.ForgotPasswordPage.HandleEmailSubmit | src/pages/Auth/ForgotPasswordPage.tsx:37-62 | Validation errors stop submission. Otherwise the trimmed address is sent. `emailSent` becomes true only on success. A failure gives the error notice, with `detail`, `message` or the fallback. `loading` ends false. |
| ForgotPassword.ForgotPasswordPage.Settle | src/pages/Auth/ForgotPasswordPage.tsx:45-58 | Success adds the notice and shows the sent view. Failure gives the error notice and leaves `emailSent` alone. |
| ForgotPassword.ForgotPasswordPage.HandleEmailSubmitAsShipped | src/pages/Auth/ForgotPasswordPage.tsx:46 | With `requestPasswordReset` undefined, a valid address always ends on the fallback error, and `emailSent` never becomes true. |
| ForgotPassword.ForgotPasswordPage.HandleChange | src/pages/Auth/ForgotPasswordPage.tsx:64-77 | The e-mail takes the typed value. That field's error is blanked if set; other errors are unchanged. |
| ForgotPassword.ForgotPasswordPage.ResetForm | src/pages/Auth/ForgotPasswordPage.tsx:79-83 | `resetForm` restores an empty e-mail, an empty error map and `emailSent = false`. |
| ResetPassword.ValidatePassword | src/pages/Auth/ResetPasswordPage.tsx:30-46 | The new password has no error exactly when it has at least 8 UTF-16 code units. The confirmation has none exactly when it is non-empty and equal to the new password. |
| ResetPassword.ResetPasswordPage.constructor | src/pages/Auth/ResetPasswordPage.tsx:14-28 | The page keeps the two link parameters as given, possibly missing. It starts with empty fields, both passwords hidden, no errors and no success view. |
| ResetPassword.ValidPasswordForm | src/pages/Auth/ResetPasswordPage.tsx:30-46 | The form is valid exactly when the two fields agree on a password of at least 8 UTF-16 code units. |
| ResetPassword.ResetPasswordPage.HandlePasswordSubmit | src/pages/Auth/ResetPasswordPage.tsx:48-88 | Validation errors stop submission first. Then a missing `uidb64` or `token` gives the invalid-link notice and no request. Otherwise the request goes out. Success sets `success` and schedules `/login`; failure gives the error notice. |
| ResetPassword.ResetPasswordPage.Settle | src/pages/Auth/ResetPasswordPage.tsx:65-84 | Success shows the done view, adds its notice and goes to `/login`. Failure gives the error notice and changes nothing else. |
| ResetPassword.ResetPasswordPage.HandlePasswordSubmitAsShipped | src/pages/Auth/ResetPasswordPage.tsx:66 | With `setNewPasswordWithToken` undefined, every valid submission over a valid link ends on the fallback error. |
| ResetPassword.ResetPasswordPage.HandleChange | src/pages/Auth/ResetPasswordPage.tsx:90-103 | The named field takes the value. Its error is blanked only if it was set; other errors are unchanged. |
| Profile.DeliveryTime | src/pages/Profile/ProfilePage.tsx:75-80 | The string the page sends; `DeliveryTimeRoundTrip` proves that parsing it gives back the two times. |
| Profile.ParseDeliveryTime | src/pages/Profile/ProfilePage.tsx:61-67 | A match gives a non-empty comma-free lunch and a non-empty one-line dinner, spelled out in the text as `Lunch: L, Dinner: D`. |
| Profile.MatchAtSound | src/pages/Profile/ProfilePage.tsx:62 | A match tried at one position captures the two groups the pattern describes. |
| Profile.SearchSound | src/pages/Profile/ProfilePage.tsx:62 | The leftmost match captures the two groups the pattern describes. |
| Profile.DeliveryTimeRoundTrip | src/pages/Profile/ProfilePage.tsx:61-77 | Parsing the string the page sends gives back both times, with `-` for an empty one, whenever the lunch time has no comma and the dinner time stays on one line. |
| Profile.SpelledOutMatches | src/pages/Profile/ProfilePage.tsx:62-77 | The written string matches at its start and captures exactly its two parts. |
| Profile.CommaInLunchNotRecovered | src/pages/Profile/ProfilePage.tsx:62-77 | A comma in the lunch time breaks the round trip: `Lunch: 12,30, Dinner: 8` prefills nothing. |
| Profile.InitialProfile | src/pages/Profile/ProfilePage.tsx:34-48 | The form starts from the user's role, flags and delivery time (`''` when missing). Without a user it starts from the regular-user defaults. |
| Profile.UpdatePayload | src/pages/Profile/ProfilePage.tsx:74-95 | For a tiffin user the delivery time is rebuilt as `Lunch: L, Dinner: D`, with `-` for an empty time; otherwise it is `''`. The payload carries the student sub-profile only for students, the regular one only for regular users, and none for a mess owner. |
| Profile.InstructionCases | src/pages/Profile/ProfilePage.tsx:170-180 | The OTP instruction is shown exactly for `unverified`, the all-clear exactly for `profile_complete`, and the profile instruction for every status in between. |
| Profile.ProfilePage.constructor | src/pages/Profile/ProfilePage.tsx:25-57 | The page starts from `InitialProfile` of the session's user, with empty password fields and the forms closed. |
| Profile.ProfilePage.PrefillDeliveryTimes | src/pages/Profile/ProfilePage.tsx:59-68 | The two times are prefilled from the captured groups only when a stored string matches; otherwise they are left alone. |
| Profile.ProfilePage.HandleProfileSubmit | src/pages/Profile/ProfilePage.tsx:70-113 | One `POST` to `/accounts/complete-profile/` goes out, then, on success only, one profile fetch, both with the header of the state before the call. Success sends the update payload, refreshes the session and adds the notice. Failure gives the error notice with `detail` or the fallback. `loading` ends false. |
| Profile.ProfilePage.HandlePasswordSubmit | src/pages/Profile/ProfilePage.tsx:115-157 | A mismatch gives the error notice and no request. Success clears all three fields and hides the form. Failure keeps them. |
| Profile.ProfilePage.TogglePasswordVisibility | src/pages/Profile/ProfilePage.tsx:159-164 | Exactly the named eye flips. |
| Feedback.SubmitData | src/pages/Feedback/FeedbackPage.tsx:79-84 | An empty subscription becomes null; otherwise it is replaced by its `parseInt`. Empty meal date and empty meal type become null. Every other field is copied. |
| Feedback.FeedbackPage.constructor | src/pages/Feedback/FeedbackPage.tsx:39-48 | The form starts closed, as `general_feedback` with rating 5 and every other field empty. |
| Feedback.SubscriptionIdRoundTrip | src/pages/Feedback/FeedbackPage.tsx:81 | Choosing the subscription with id `n` submits exactly `n`. |
| Feedback.RenderStars | src/pages/Feedback/FeedbackPage.tsx:154-161 | There are exactly 5 stars, and star `i` is filled exactly when `i < rating`. |
| Feedback.FilledStars | src/pages/Feedback/FeedbackPage.tsx:154-161 | The number of filled stars is the rating, clamped to 0..5. |
| Feedback.FeedbackPage.HandleSubmit | src/pages/Feedback/FeedbackPage.tsx:75-113 | The normalised data is posted. Success closes the form, resets it to `general_feedback` with rating 5 and a reload starts. Failure keeps the form open with its data untouched, and gives the error notice. |
| Leaves.CeilDiv | src/pages/Leaves/LeavesPage.tsx:133 | The result is the least whole number of days covering the span: `Math.ceil` of the quotient. |
| Leaves.LeavesPage.constructor | src/pages/Leaves/LeavesPage.tsx:33-41 | The form starts closed, with all four fields empty and no subscriptions loaded. |
| Leaves.CalculateDays | src/pages/Leaves/LeavesPage.tsx:129-134 | The count is the whole days covering the span, rounded up, plus one. It is always at least 1. |
| Leaves.CalculateDaysSymmetric | src/pages/Leaves/LeavesPage.tsx:132 | The count does not depend on which date comes first. |
| Leaves.CalculateDaysSameDay | src/pages/Leaves/LeavesPage.tsx:129-134 | Two equal dates count one day. |
| Leaves.CalculateDaysWholeDays | src/pages/Leaves/LeavesPage.tsx:133 | Dates exactly `k` days apart count `k + 1` days. |
| Leaves.CalculateDaysPartialDay | src/pages/Leaves/LeavesPage.tsx:133 | Any part of a day counts as a whole one: `k` days and a bit more count `k + 2`. |
| Leaves.LeaveSubmitData | src/pages/Leaves/LeavesPage.tsx:72-75 | The subscription is replaced by its `parseInt` and the other fields are copied. |
| Leaves.LeaveSubscriptionRoundTrip | src/pages/Leaves/LeavesPage.tsx:74 | The chosen subscription's id is sent as that number. |
| Leaves.UnchosenSubscriptionIsNaN | src/pages/Leaves/LeavesPage.tsx:74 | With no subscription chosen, `NaN` is sent. |
| Leaves.LeavesPage.ShowRequestLeave | src/pages/Leaves/LeavesPage.tsx:148 | The "Request Leave" button is shown exactly while a subscription is loaded. |
| Leaves.LeavesPage.RequestLeave | src/pages/Leaves/LeavesPage.tsx:148-156 | The form can be opened only while at least one subscription is loaded. |
| Leaves.LeavesPage.HandleSubmit | src/pages/Leaves/LeavesPage.tsx:68-101 | Success closes the form, resets all four fields to `''` and starts a reload. Failure keeps form and fields, and gives the error notice. |
| Payments.FilteredPayments | src/pages/Payments/PaymentsPage.tsx:109-112 | Filter `all` shows every payment. Any other filter shows exactly the payments with that status. |
| Payments.TotalAmount | src/pages/Payments/PaymentsPage.tsx:114-116 | The sum of the amounts of the successful payments; the lemmas below give its properties. |
| Payments.FilteredPaymentsAppend | src/pages/Payments/PaymentsPage.tsx:109-112 | The history filter keeps the payments in their original order. |
| Payments.TotalIsSumOfSuccessView | src/pages/Payments/PaymentsPage.tsx:114-116 | The total is the sum of the amounts of exactly the list the SUCCESS filter shows, whatever filter is selected. |
| Payments.TotalAmountAppend | src/pages/Payments/PaymentsPage.tsx:114-116 | The total adds up over two halves of a list. |
| Payments.NoSuccessNoTotal | src/pages/Payments/PaymentsPage.tsx:114-116 | Without a successful payment, the total is 0. |
| Payments.AllAmountsSplitByStatus | src/pages/Payments/PaymentsPage.tsx:114-116 | The sum of all amounts is the total plus the amounts of the payments that did not succeed. |
| Payments.CountStatus | src/pages/Payments/PaymentsPage.tsx:161 | A status card never counts more payments than there are. |
| Payments.SuccessAndFailedWithinTotal | src/pages/Payments/PaymentsPage.tsx:136-175 | The successful count plus the failed count is at most the total count. |
| Payments.ReceiptsAreCounted | src/pages/Payments/PaymentsPage.tsx:268 | A receipt is offered exactly for the payments the total sums. |
| Notifications.FilteredNotifications | src/pages/Notifications/NotificationsPage.tsx:104-107 | Filter `all` shows the whole log. Any other filter shows exactly the entries with that status. |
| Notifications.FilteredNotificationsExact | src/pages/Notifications/NotificationsPage.tsx:104-107 | Filter `all` returns the whole log. Any other filter keeps exactly the entries with that status, in log order. |
| Notifications.StatDisplay | src/pages/Notifications/NotificationsPage.tsx:128 | A missing count shows as 0, and a present one as itself. |
| Notifications.StatCards | src/pages/Notifications/NotificationsPage.tsx:128-164 | The four cards show total, sent, failed and pending, each defaulting to 0. |
| Notifications.Title | src/pages/Notifications/NotificationsPage.tsx:217 | The title is the subject when it is present and non-empty, and the notification type otherwise. |
| Dashboard.AssembleStats | src/pages/Dashboard/DashboardPage.tsx:43-48 | The active subscription is the first one, or none for an empty list. The recent payments are the first `min(5, n)` payments. There are no upcoming renewals. |
| Dashboard.ThisMonthPayments | src/pages/Dashboard/DashboardPage.tsx:98 | The card's figure; `ThisMonthSplitsByStatus` relates it to the paid total. |
| Dashboard.ThisMonthSplitsByStatus | src/pages/Dashboard/DashboardPage.tsx:43-48 | For every list, the card is the paid total of the first five payments plus the amounts of those of them that did not succeed. |
| Dashboard.ThisMonthCountsRecentOnly | src/pages/Dashboard/DashboardPage.tsx:98 | Payments after the first five do not change the card. |
| Dashboard.ThisMonthIncludesFailed | src/pages/Dashboard/DashboardPage.tsx:98 | The card sums amounts regardless of status: one failed payment of 100 shows 100, where the paid total is 0. |
| Dashboard.ActiveLabel | src/pages/Dashboard/DashboardPage.tsx:77 | The card reads `Active` exactly when there is an active subscription, and `None` otherwise. |
| Dashboard.ShowLoadError | src/pages/Dashboard/DashboardPage.tsx:51-64 | The suppression test of the load-failure notice; `ShowLoadErrorExactly` states when it holds. |
| Dashboard.ShowLoadErrorExactly | src/pages/Dashboard/DashboardPage.tsx:51-64 | The error notice is suppressed exactly when the response message is one of the four known empty-state strings. It is always shown when there is no message. |
| Dashboard.FirstFailure | src/pages/Dashboard/DashboardPage.tsx:37-41 | The three loads reject exactly when at least one of them fails. |
| Dashboard.DashboardPage.FetchDashboardData | src/pages/Dashboard/DashboardPage.tsx:35-68 | The three requests go out together. With all three in, the figures are set and no notice is added. A failure adds the notice unless it is a known empty state. `loading` ends false. |
| Plans.FirstTotalPaid | src/pages/Subscriptions/PlansPage.tsx:81-82 | The result is absent exactly when no entry has the plan. Otherwise it is the total of the first such entry. |
| Plans.PlansPage.constructor | src/pages/Subscriptions/PlansPage.tsx:26-28 | Nothing is being subscribed, no plan is subscribed and no breakfast is chosen. |
| Plans.FirstTotalPaidAppend | src/pages/Subscriptions/PlansPage.tsx:61-82 | Appending an entry never changes the total already shown for a plan. |
| Plans.SubscribedAfterAppend | src/pages/Subscriptions/PlansPage.tsx:61-79 | After a successful subscribe, the plan counts as subscribed. Its total is the new entry's when it was not subscribed before. |
| Plans.PlansPage.IsPlanSubscribed | src/pages/Subscriptions/PlansPage.tsx:78-79 | A plan is subscribed when some entry of the subscribed list has it. |
| Plans.PlansPage.GetTotalPaid | src/pages/Subscriptions/PlansPage.tsx:81-82 | The total of the first entry for the plan, as `FirstTotalPaid` states. |
| Plans.PlansPage.SubscribeDisabled | src/pages/Subscriptions/PlansPage.tsx:152 | The button is disabled while that plan is being subscribed, once it is subscribed, or when the plan is inactive. |
| Plans.PlansPage.HandleBreakfastChange | src/pages/Subscriptions/PlansPage.tsx:51-53 | Only this plan's breakfast choice changes. An absent entry reads as no breakfast. |
| Plans.PlansPage.HandleSubscribe | src/pages/Subscriptions/PlansPage.tsx:55-76 | The plan is sent with its breakfast choice. Success appends `(plan, total_paid or 0)` with the success notice. Failure leaves the list unchanged and gives the error notice. `subscribing` ends null. |

## Left out

- **Rendering.** JSX, styling, icons, the status colour and icon maps, and the purely
  presentational pages (home, navigation bar, footer, spinner) are not modelled. Neither are
  the subscriptions and admin pages, which have no rule of their own to state.
- **HTTP.** The axios instance settings and the endpoint wrappers other than
  `authService.login` are left out. Every other call is an issued request plus an outcome
  parameter.
- **List loads.** The list loads (`fetchData`, `fetchPayments`, `fetchNotifications`,
  `fetchStats`, `fetchPlans`) and `downloadReceipt` are left out: their results are inputs of
  the list functions. The feedback and leave pages only count the reloads they start.
- **Notifications.** The notification context is not part of this model, and neither are its
  display, expiry and dismissal timers. `addNotification` only appends to a log.
- **Navigation.** Navigation is recorded as a target, not performed. The two-second timer
  before the reset page's redirect is not modelled: the target is recorded at once.
- **Redirect location.** `state={{ from: location }}` is modelled as the requested path only.
- **Timing.** Asynchronous interleaving and React's batching and re-rendering are not
  modelled. Handlers run to completion one at a time, and the user a login handler captured
  at render time is an explicit input.
- **Regular expressions.** Each regular expression is a hand-written predicate over
  characters. `\s` is the white-space set of JavaScript.
- **Logging.** `console.log` and `console.error` are left out.
- **Dashboard cards.** The "Days Remaining" and "Total Feedback" cards are display fallbacks
  (`|| '0'`) with no further rule; they are not modelled.
- **Handlers of other pages.** `handleChange` of the registration and profile forms, and the
  role selection of the registration form, are not modelled. They only copy input into state.
- **Type error.** `requestPasswordReset` and `setNewPasswordWithToken` are missing from
  `authService`, which is also a TypeScript type error. The model covers only its run-time
  effect: the call rejects.
- JsStrings.ToLower: lowers ASCII letters only; other characters are kept as they are, so the
  model is weaker than `toLowerCase` for non-ASCII text.
- JsStrings.ParseInt: integers are exact and unbounded. JavaScript's loss of precision above
  2^53 is not modelled, and neither is `Infinity`.
- Payments.TotalAmountAppend: payment amounts are whole numbers, not JavaScript
  floating-point numbers, so rounding of fractional amounts is not modelled. This also
  applies to the dashboard sums.
- Leaves.CalculateDays: the dates are integer millisecond timestamps. Date parsing and time
  zones are not modelled.
- Dashboard.FirstFailure: `Promise.all` rejects with the first load to fail in time. The model
  takes the first failure in the order the loads are listed.
- Login.LoginPage.HandleChange: an input name other than the two fields is ignored. In
  JavaScript it would add a new key to the form object.
- ForgotPassword.ForgotPasswordPage.HandleChange: only the `email` input is stored. Another
  name would add a key to the JavaScript form object; here it is ignored.
- ResetPassword.ResetPasswordPage.HandleChange: an input name other than the two password
  fields is stored nowhere. In JavaScript it would add a key to the form object.
- Profile.ProfilePage.TogglePasswordVisibility: a field name other than the three eyes is
  ignored. In JavaScript it would add a key set to `true`.
- Login.AfterLogin: a missing, `null` or empty `status` is represented by one value,
  `Unknown("")`. Non-string status values are not modelled.
- Routes.UnverifiedNeverReachesProtectedPage: redirects are followed up to a bound `fuel`.
  The lemma holds for every bound, but an unbounded redirect loop is not a value of the model.
- Routes.AppContent: paths are matched exactly, as strings. Trailing slashes, letter case
  and query strings are not modelled.

## Findings

| source | as written | input that shows it | evidently intended | confidence | as-written member | corrected member |
|---|---|---|---|---|---|---|
| src/pages/Auth/LoginPage.tsx:36 | The status branch reads the `user` captured when the page rendered (line 15). The form is only rendered when there is no user (src/App.tsx:72), so that `user` is always null. | Any successful sign-in, for example to an account whose profile is complete. The page shows "Account Incomplete", and the handler itself does not navigate. | Branch on the user `refreshUser` has just stored. A complete profile is then welcomed and sent to `/dashboard`. | not executed | Login.LoginPage.HandleSubmit, Login.StaleUserAlwaysIncomplete | Login.LoginPage.HandleSubmitWithFreshUser, Login.FreshUserReachesDashboard |
| src/pages/Auth/ForgotPasswordPage.tsx:46 | The page calls `authService.requestPasswordReset`, which `authService` does not define (src/services/api.ts:35-56). | Any valid address, for example `a@b.c`. The call throws a `TypeError` and the page shows the fallback error. | Send the reset mail, then show the "email sent" view on success. | not executed | ForgotPassword.ForgotPasswordPage.HandleEmailSubmitAsShipped | ForgotPassword.ForgotPasswordPage.HandleEmailSubmit |
| src/pages/Auth/ResetPasswordPage.tsx:66 | The page calls `authService.setNewPasswordWithToken`, which `authService` does not define (src/services/api.ts:35-56). | A valid reset link and two equal passwords of at least eight characters. The page shows the fallback error. | Set the new password, show the success view and redirect to `/login`. | not executed | ResetPassword.ResetPasswordPage.HandlePasswordSubmitAsShipped | ResetPassword.ResetPasswordPage.HandlePasswordSubmit |
