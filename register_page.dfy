/**
 * `src/pages/Auth/RegisterPage.tsx`: the registration and profile-completion validators,
 * phone-number normalisation, the classification of a failed registration, the OTP steps
 * and the payload sent to complete the profile.
 */
module Register {
  import opened Wrappers
  import opened JsStrings
  import opened Users
  import opened Notices
  import opened Forms
  import opened Api
  import opened Auth

  datatype RegisterForm = RegisterForm(username: string, email: string, phone: string, password: string, confirmPassword: string)

  datatype ProfileForm = ProfileForm(
    userType: UserType,
    isTiffinUser: bool,
    isMessUser: bool,
    preferredDeliveryTime: string,
    studentProfile: StudentProfile,
    regularProfile: RegularProfile,
    messOwnerProfile: MessOwnerProfile)

  const EmptyRegisterForm := RegisterForm("", "", "", "", "")

  const InitialProfileForm := ProfileForm(
    Student, false, true, "6:00 PM",
    StudentProfile("", "", ""),
    RegularProfile("", ""),
    MessOwnerProfile("", "", "", "", ""))

  /** The body of `POST /accounts/register/`. */
  datatype RegistrationRequest = RegistrationRequest(username: string, email: string, phone: string, password: string, confirmPassword: string)

  /** The body of `POST /accounts/complete-profile/`: at most one role-specific sub-profile. */
  datatype ProfilePayload = ProfilePayload(
    userType: UserType,
    isTiffinUser: bool,
    isMessUser: bool,
    preferredDeliveryTime: string,
    studentProfile: Option<StudentProfile>,
    regularProfile: Option<RegularProfile>,
    messOwnerProfile: Option<MessOwnerProfile>)

  // ---------------------------------------------------------------------------
  // validateForm

  /** `/^[^\s@]+@[^\s@]+\.[^\s@]+$/`: one `@` with text before it, and a `.` strictly inside the text after it. */
  predicate EmailPattern(s: string) {
    && (forall j :: 0 <= j < |s| ==> !IsSpace(s[j]))
    && exists i, k :: 0 < i && i + 1 < k < |s| - 1 && s[i] == '@' && s[k] == '.'
                      && (forall j :: 0 <= j < |s| && j != i ==> s[j] != '@')
  }

  /** `/^\+?[1-9]\d{1,14}$/`: an optional `+`, a non-zero digit, then 1 to 14 more digits. */
  predicate PhonePattern(t: string) {
    var d := if |t| > 0 && t[0] == '+' then t[1..] else t;
    2 <= |d| <= 15 && '1' <= d[0] <= '9' && AllDigits(d)
  }

  function UsernameError(username: string): Option<string> {
    if IsBlank(username) then Some("Username is required")
    else if Utf16Length(username) < 3 then Some("Username must be at least 3 characters")
    else None
  }

  function EmailError(email: string): Option<string> {
    if IsBlank(email) then Some("Email is required")
    else if !EmailPattern(email) then Some("Please enter a valid email address")
    else None
  }

  function PhoneError(phone: string): Option<string> {
    if IsBlank(phone) then Some("Phone number is required")
    else if !PhonePattern(RemoveSpaces(phone)) then Some("Please enter a valid phone number")
    else None
  }

  function PasswordError(password: string): Option<string> {
    if password == "" then Some("Password is required")
    else if Utf16Length(password) < 6 then Some("Password must be at least 6 characters")
    else None
  }

  function ConfirmError(password: string, confirm: string): Option<string> {
    if confirm == "" then Some("Please confirm your password")
    else if password != confirm then Some("Passwords do not match")
    else None
  }

  const RegisterFields: set<string> := {"username", "email", "phone", "password", "confirm_password"}

  function ValidateForm(f: RegisterForm): (errors: Errors)
    ensures Messages(errors, RegisterFields)
  {
    var e0: Errors := map[];
    var m1 := UsernameError(f.username);
    ReportMessages(e0, "username", m1, RegisterFields);
    var e1 := Report(e0, "username", m1);
    var m2 := EmailError(f.email);
    ReportMessages(e1, "email", m2, RegisterFields);
    var e2 := Report(e1, "email", m2);
    var m3 := PhoneError(f.phone);
    ReportMessages(e2, "phone", m3, RegisterFields);
    var e3 := Report(e2, "phone", m3);
    var m4 := PasswordError(f.password);
    ReportMessages(e3, "password", m4, RegisterFields);
    var e4 := Report(e3, "password", m4);
    var m5 := ConfirmError(f.password, f.confirmPassword);
    ReportMessages(e4, "confirm_password", m5, RegisterFields);
    Report(e4, "confirm_password", m5)
  }

  /** Each field of the form ends up without an entry exactly when its own check found nothing. */
  lemma ValidateFormFields(f: RegisterForm)
    ensures var errors := ValidateForm(f);
            && ("username" !in errors <==> UsernameError(f.username).None?)
            && ("email" !in errors <==> EmailError(f.email).None?)
            && ("phone" !in errors <==> PhoneError(f.phone).None?)
            && ("password" !in errors <==> PasswordError(f.password).None?)
            && ("confirm_password" !in errors <==> ConfirmError(f.password, f.confirmPassword).None?)
  {
    var e1 := Report(map[], "username", UsernameError(f.username));
    var e2 := Report(e1, "email", EmailError(f.email));
    var e3 := Report(e2, "phone", PhoneError(f.phone));
    var e4 := Report(e3, "password", PasswordError(f.password));
    var e5 := Report(e4, "confirm_password", ConfirmError(f.password, f.confirmPassword));
    assert e5 == ValidateForm(f);
    assert "username" in e5 <==> "username" in e1;
    assert "email" in e5 <==> "email" in e2;
    assert "phone" in e5 <==> "phone" in e3;
    assert "password" in e5 <==> "password" in e4;
  }

  /** The rule behind each field check. */
  lemma FieldChecks(f: RegisterForm)
    ensures UsernameError(f.username).None? <==> !IsBlank(f.username) && Utf16Length(f.username) >= 3
    ensures EmailError(f.email).None? <==> EmailPattern(f.email)
    ensures PhoneError(f.phone).None? <==> PhonePattern(RemoveSpaces(f.phone))
    ensures PasswordError(f.password).None? <==> Utf16Length(f.password) >= 6
    ensures ConfirmError(f.password, f.confirmPassword).None? <==> f.confirmPassword != "" && f.confirmPassword == f.password
  {
    if EmailPattern(f.email) {
      var i, k :| 0 < i && i + 1 < k < |f.email| - 1 && f.email[i] == '@' && f.email[k] == '.'
                  && (forall j :: 0 <= j < |f.email| && j != i ==> f.email[j] != '@');
      assert !IsSpace(f.email[i]);
    }
    if IsBlank(f.phone) {
      RemoveSpacesOfBlank(f.phone);
    }
  }

  /** `.length` counts UTF-16 code units, so an emoji and one letter make a long enough username. */
  lemma EmojiUsernameAccepted()
    ensures UsernameError("\U{1F600}a") == None
  {
    Utf16LengthOfEmoji();
    assert !IsSpace("\U{1F600}a"[1]);
  }

  /** A field of the registration form passes exactly when the rule of its source lines holds. */
  lemma ValidateFormAccepts(f: RegisterForm)
    ensures var errors := ValidateForm(f);
            && ("username" !in errors <==> !IsBlank(f.username) && Utf16Length(f.username) >= 3)
            && ("email" !in errors <==> EmailPattern(f.email))
            && ("phone" !in errors <==> PhonePattern(RemoveSpaces(f.phone)))
            && ("password" !in errors <==> Utf16Length(f.password) >= 6)
            && ("confirm_password" !in errors <==> f.confirmPassword != "" && f.confirmPassword == f.password)
  {
    ValidateFormFields(f);
    FieldChecks(f);
  }

  // ---------------------------------------------------------------------------
  // validateProfileForm

  const ProfileFields: set<string> := {"preferred_delivery_time", "institute", "hostel", "address", "mess_name", "business_address"}

  function ValidateProfileForm(p: ProfileForm): (errors: Errors)
    ensures Messages(errors, ProfileFields)
  {
    var e := Report(map[], "preferred_delivery_time",
                    if p.preferredDeliveryTime == "" then Some("Preferred delivery time is required") else None);
    match p.userType
    case Student =>
      var e := Report(e, "institute", if p.studentProfile.institute == "" then Some("Institute is required") else None);
      Report(e, "hostel", if p.studentProfile.hostel == "" then Some("Hostel is required") else None)
    case Regular =>
      Report(e, "address", if p.regularProfile.address == "" then Some("Address is required") else None)
    case MessOwner =>
      var e := Report(e, "mess_name", if p.messOwnerProfile.messName == "" then Some("Mess name is required") else None);
      Report(e, "business_address", if p.messOwnerProfile.businessAddress == "" then Some("Business address is required") else None)
  }

  /** The profile form passes exactly when the delivery time and the fields its role requires are filled in. */
  lemma ProfileFormAccepted(p: ProfileForm)
    ensures |ValidateProfileForm(p)| == 0 <==>
              && p.preferredDeliveryTime != ""
              && (p.userType == Student ==> p.studentProfile.institute != "" && p.studentProfile.hostel != "")
              && (p.userType == Regular ==> p.regularProfile.address != "")
              && (p.userType == MessOwner ==> p.messOwnerProfile.messName != "" && p.messOwnerProfile.businessAddress != "")
  {
    var errors := ValidateProfileForm(p);
    if p.preferredDeliveryTime == "" {
      assert "preferred_delivery_time" in errors;
    }
    match p.userType
    case Student =>
      if p.studentProfile.institute == "" { assert "institute" in errors; }
      if p.studentProfile.hostel == "" { assert "hostel" in errors; }
    case Regular =>
      if p.regularProfile.address == "" { assert "address" in errors; }
    case MessOwner =>
      if p.messOwnerProfile.messName == "" { assert "mess_name" in errors; }
      if p.messOwnerProfile.businessAddress == "" { assert "business_address" in errors; }
  }

  // ---------------------------------------------------------------------------
  // formatPhoneNumber

  /** The digit strings `formatPhoneNumber` rewrites: 12 digits starting `91`, or 10 digits. */
  predicate IndianNumber(digits: string) {
    (|digits| == 12 && StartsWith(digits, "91")) || |digits| == 10
  }

  /**
   * `formatPhoneNumber`: a number whose digits form an Indian number becomes `+91` followed by
   * its last ten digits; anything else is returned as typed.
   */
  function FormatPhoneNumber(phone: string): (r: string)
    ensures var c := DigitsOnly(phone);
            && (IndianNumber(c) ==> r == "+91" + c[|c| - 10..])
            && (!IndianNumber(c) ==> r == phone)
  {
    var cleaned := DigitsOnly(phone);
    if StartsWith(cleaned, "91") && |cleaned| == 12 then
      assert "+" + cleaned == "+91" + cleaned[2..] by {
        assert cleaned == cleaned[..2] + cleaned[2..];
      }
      "+" + cleaned
    else if |cleaned| == 10 then "+91" + cleaned
    else phone
  }

  /** Formatting an already formatted number changes nothing. */
  lemma FormatPhoneNumberIdempotent(phone: string)
    ensures FormatPhoneNumber(FormatPhoneNumber(phone)) == FormatPhoneNumber(phone)
  {
    var c := DigitsOnly(phone);
    var r := FormatPhoneNumber(phone);
    if IndianNumber(c) {
      var tail := c[|c| - 10..];
      assert AllDigits(tail);
      DigitsOnlyAppend("+91", tail);
      DigitsOnlyOfDigits(tail);
      assert DigitsOnly("+91") == "91";
      assert DigitsOnly(r) == "91" + tail;
      assert (DigitsOnly(r))[..2] == "91";
      assert ("91" + tail)[2..] == tail;
    }
  }

  /** A rewritten number is a well-formed international number for the validator's pattern. */
  lemma FormattedPhoneIsValid(phone: string)
    requires IndianNumber(DigitsOnly(phone))
    ensures PhonePattern(FormatPhoneNumber(phone))
  {
    var c := DigitsOnly(phone);
    var tail := c[|c| - 10..];
    var r := FormatPhoneNumber(phone);
    assert r[0] == '+';
    var d := r[1..];
    assert d == "91" + tail;
    assert AllDigits(tail);
    assert |d| == 12 && d[0] == '9';
  }

  function Registration(f: RegisterForm): RegistrationRequest {
    RegistrationRequest(f.username, f.email, FormatPhoneNumber(f.phone), f.password, f.confirmPassword)
  }

  // ---------------------------------------------------------------------------
  // handleSubmit error classification

  /** `error.response?.data?.detail || error.response?.data?.message || error.message || ''`. */
  function ErrorText(e: HttpError): string {
    Or(e.detail, Or(e.message, e.text))
  }

  /** The failures `handleSubmit` reads as "an account with these details already exists". */
  predicate AccountExists(e: HttpError) {
    var m := ToLower(ErrorText(e));
    e.status == Some(400) || Contains(m, "already exists") || Contains(m, "phone")
    || Contains(m, "username") || Contains(m, "email")
  }

  /** A 400 always counts as an existing account; a failure with no text and another status never does. */
  lemma AccountExistsCases(e: HttpError)
    ensures e.status == Some(400) ==> AccountExists(e)
    ensures e.status != Some(400) && ErrorText(e) == "" ==> !AccountExists(e)
  {
    if e.status != Some(400) && ErrorText(e) == "" {
      assert ToLower("") == "";
      assert !Contains("", "phone") && !Contains("", "email") && !Contains("", "username");
      assert !Contains("", "already exists");
    }
  }

  /** The message of each word is found whatever its letter case, e.g. `Email already registered`. */
  lemma MentionInAnyCase(e: HttpError)
    requires ErrorText(e) == "Email already registered"
    ensures AccountExists(e)
  {
    var m := ToLower(ErrorText(e));
    assert m[..5] == "email";
  }

  const RegisteredNotice := Notice(Success, "Registration Successful", "Please check your phone for OTP verification.")
  const AccountExistsNotice := Notice(Info, "Account Exists", "An account with this information already exists. Please verify with OTP.")

  function RegistrationFailedNotice(e: HttpError): Notice {
    Notice(Error, "Registration Failed", Or(Some(ErrorText(e)), "Registration failed. Please try again."))
  }

  const PhoneRequiredNotice := Notice(Error, "Phone Required", "Please enter your phone number first.")
  const OtpSentNotice := Notice(Success, "OTP Sent", "A new OTP has been sent to your phone.")
  const OtpRequiredNotice := Notice(Error, "OTP Required", "Please enter the OTP.")
  const OtpVerifiedNotice := Notice(Success, "OTP Verified", "Phone number verified successfully!")
  const ProfileCompletedNotice := Notice(Success, "Profile Completed", "Your profile has been completed successfully!")

  /** The payload of `handleProfileSubmit`: only the sub-profile that matches the role. */
  function RegisterProfilePayload(p: ProfileForm): (r: ProfilePayload)
    ensures r.userType == p.userType && r.isTiffinUser == p.isTiffinUser && r.isMessUser == p.isMessUser
    ensures r.preferredDeliveryTime == p.preferredDeliveryTime
    ensures r.studentProfile.Some? <==> p.userType == Student
    ensures r.regularProfile.Some? <==> p.userType == Regular
    ensures r.messOwnerProfile.Some? <==> p.userType == MessOwner
    ensures r.studentProfile.Some? ==> r.studentProfile.value == p.studentProfile
    ensures r.regularProfile.Some? ==> r.regularProfile.value == p.regularProfile
    ensures r.messOwnerProfile.Some? ==> r.messOwnerProfile.value == p.messOwnerProfile
  {
    ProfilePayload(
      p.userType, p.isTiffinUser, p.isMessUser, p.preferredDeliveryTime,
      if p.userType == Student then Some(p.studentProfile) else None,
      if p.userType == Regular then Some(p.regularProfile) else None,
      if p.userType == MessOwner then Some(p.messOwnerProfile) else None)
  }

  /** `disabled={resendLoading || !formData.phone.trim()}`. */
  predicate SendOtpDisabled(resendLoading: bool, phone: string) {
    resendLoading || IsBlank(phone)
  }

  /** `disabled={otpLoading || !otp.trim()}`. */
  predicate VerifyOtpDisabled(otpLoading: bool, otp: string) {
    otpLoading || IsBlank(otp)
  }

  /** The handlers refuse exactly the input the disabled buttons would not let through. */
  lemma BlankChecksMatchButtons(phone: string, otp: string)
    ensures !SendOtpDisabled(false, phone) <==> Trim(phone) != ""
    ensures !VerifyOtpDisabled(false, otp) <==> Trim(otp) != ""
  {
    TrimEmptyIffBlank(phone);
    TrimEmptyIffBlank(otp);
  }

  class RegisterPage {
    var formData: RegisterForm
    var profileData: ProfileForm
    var formErrors: Errors
    var loading: bool
    var otp: string
    var otpLoading: bool
    var resendLoading: bool
    var phoneExists: bool
    var otpSent: bool
    var showProfileForm: bool
    var profileLoading: bool
    /** The target of the last `navigate` call. */
    var navigation: Option<string>
    const notifier: Notifier
    const auth: AuthProvider

    constructor (notifier: Notifier, auth: AuthProvider)
      ensures formData == EmptyRegisterForm && profileData == InitialProfileForm && formErrors == map[]
      ensures !loading && otp == "" && !otpLoading && !resendLoading && !phoneExists && !otpSent
      ensures !showProfileForm && !profileLoading && navigation == None
      ensures this.notifier == notifier && this.auth == auth
    {
      formData := EmptyRegisterForm;
      profileData := InitialProfileForm;
      formErrors := map[];
      loading, otp, otpLoading, resendLoading := false, "", false, false;
      phoneExists, otpSent, showProfileForm, profileLoading := false, false, false, false;
      navigation := None;
      this.notifier := notifier;
      this.auth := auth;
    }

    /** `handleSubmit`: validate, then register with the formatted phone number. */
    method HandleSubmit(outcome: Response<()>) returns (sent: Option<RegistrationRequest>)
      modifies this`formErrors, this`loading, this`phoneExists, this`otpSent, notifier, auth.api
      ensures formErrors == ValidateForm(formData)
      ensures |formErrors| > 0 ==>
                && sent == None && notifier.log == old(notifier.log) && loading == old(loading)
                && phoneExists == old(phoneExists) && otpSent == old(otpSent)
                && unchanged(auth.api)
      ensures |formErrors| == 0 ==> sent == Some(Registration(formData)) && RegisterEffect(outcome)
    {
      var errors := ValidateForm(formData);
      formErrors := errors;
      if |errors| > 0 {
        return None;
      }
      sent := Register(outcome);
    }

    /** What a registration attempt does to the page, the log and the client. */
    twostate predicate RegisterEffect(outcome: Response<()>)
      reads this, notifier, auth.api
    {
      && !loading
      && auth.api.State() == AfterCall(old(auth.api.State()), outcome)
      && auth.api.sent == old(auth.api.sent) + [Request("/accounts/register/", SentAuthorization(old(auth.api.State())))]
      && (outcome.Ok? ==>
            otpSent && !phoneExists && notifier.log == old(notifier.log) + [RegisteredNotice])
      && (outcome.Fail? && AccountExists(outcome.error) ==>
            otpSent && phoneExists && notifier.log == old(notifier.log) + [AccountExistsNotice])
      && (outcome.Fail? && !AccountExists(outcome.error) ==>
            && otpSent == old(otpSent) && phoneExists == old(phoneExists)
            && notifier.log == old(notifier.log) + [RegistrationFailedNotice(outcome.error)])
    }

    /** The request half of `handleSubmit`, once the form is valid. */
    method Register(outcome: Response<()>) returns (sent: Option<RegistrationRequest>)
      modifies this`loading, this`phoneExists, this`otpSent, notifier, auth.api
      ensures sent == Some(Registration(formData)) && RegisterEffect(outcome)
    {
      loading := true;
      sent := Some(Registration(formData));
      var response := auth.api.Call("/accounts/register/", outcome);
      if response.Ok? {
        notifier.Add(RegisteredNotice);
        otpSent := true;
        phoneExists := false;
      } else if AccountExists(response.error) {
        phoneExists := true;
        otpSent := true;
        notifier.Add(AccountExistsNotice);
      } else {
        notifier.Add(RegistrationFailedNotice(response.error));
      }
      loading := false;
    }

    /** `handleSendOtp`: a blank phone is refused before any request. */
    method HandleSendOtp(outcome: Response<()>) returns (sent: Option<string>)
      modifies this`otpSent, this`resendLoading, notifier, auth.api
      ensures IsBlank(formData.phone) ==>
                && sent == None && notifier.log == old(notifier.log) + [PhoneRequiredNotice]
                && otpSent == old(otpSent) && resendLoading == old(resendLoading) && unchanged(auth.api)
      ensures !IsBlank(formData.phone) ==>
                && sent == Some(FormatPhoneNumber(formData.phone)) && !resendLoading
                && auth.api.State() == AfterCall(old(auth.api.State()), outcome)
                && auth.api.sent == old(auth.api.sent) + [Request("/accounts/resend-otp/", SentAuthorization(old(auth.api.State())))]
                && (outcome.Ok? ==> otpSent && notifier.log == old(notifier.log) + [OtpSentNotice])
                && (outcome.Fail? ==>
                      otpSent == old(otpSent) && notifier.log == old(notifier.log) + [FailureNotice("Failed to Send OTP", outcome.error, "Failed to send OTP.")])
    {
      if IsBlank(formData.phone) {
        notifier.Add(PhoneRequiredNotice);
        return None;
      }
      resendLoading := true;
      sent := Some(FormatPhoneNumber(formData.phone));
      var response := auth.api.Call("/accounts/resend-otp/", outcome);
      if response.Ok? {
        notifier.Add(OtpSentNotice);
        otpSent := true;
      } else {
        notifier.Add(FailureNotice("Failed to Send OTP", response.error, "Failed to send OTP."));
      }
      resendLoading := false;
    }

    /** `handleOtpSubmit`: a blank OTP is refused; otherwise the trimmed OTP is sent with the formatted phone. */
    method HandleOtpSubmit(outcome: Response<()>) returns (sent: Option<(string, string)>)
      modifies this`otpLoading, this`showProfileForm, notifier, auth.api
      ensures IsBlank(otp) ==>
                && sent == None && notifier.log == old(notifier.log) + [OtpRequiredNotice]
                && showProfileForm == old(showProfileForm) && otpLoading == old(otpLoading) && unchanged(auth.api)
      ensures !IsBlank(otp) ==>
                && sent == Some((FormatPhoneNumber(formData.phone), Trim(otp))) && !otpLoading
                && auth.api.State() == AfterCall(old(auth.api.State()), outcome)
                && auth.api.sent == old(auth.api.sent) + [Request("/accounts/verify-otp/", SentAuthorization(old(auth.api.State())))]
                && (outcome.Ok? ==> showProfileForm && notifier.log == old(notifier.log) + [OtpVerifiedNotice])
                && (outcome.Fail? ==>
                      showProfileForm == old(showProfileForm) && notifier.log == old(notifier.log) + [FailureNotice("OTP Verification Failed", outcome.error, "Invalid OTP. Please try again.")])
    {
      if IsBlank(otp) {
        notifier.Add(OtpRequiredNotice);
        return None;
      }
      otpLoading := true;
      sent := Some((FormatPhoneNumber(formData.phone), Trim(otp)));
      var response := auth.api.Call("/accounts/verify-otp/", outcome);
      if response.Ok? {
        notifier.Add(OtpVerifiedNotice);
        showProfileForm := true;
      } else {
        notifier.Add(FailureNotice("OTP Verification Failed", response.error, "Invalid OTP. Please try again."));
      }
      otpLoading := false;
    }

    /**
     * `handleProfileSubmit`: validate, send the role's payload, then refresh the session
     * (`profileOutcome` answers that fetch) and go to the dashboard.
     */
    method HandleProfileSubmit(outcome: Response<()>, profileOutcome: Response<User>) returns (sent: Option<ProfilePayload>)
      modifies this`formErrors, this`profileLoading, this`navigation, notifier, auth, auth.api
      ensures formErrors == ValidateProfileForm(profileData)
      ensures |formErrors| > 0 ==>
                && sent == None && notifier.log == old(notifier.log) && navigation == old(navigation)
                && profileLoading == old(profileLoading) && unchanged(auth, auth.api)
      ensures |formErrors| == 0 ==>
                && sent == Some(RegisterProfilePayload(profileData)) && !profileLoading
                && auth.loading == old(auth.loading)
                && auth.api.sent == old(auth.api.sent) + [Request("/accounts/complete-profile/", SentAuthorization(old(auth.api.State())))]
                                    + (if outcome.Ok? then [Request(ProfileEndpoint, SentAuthorization(old(auth.api.State())))] else [])
                && (outcome.Ok? ==>
                      && auth.State() == Refreshed(old(auth.State()), profileOutcome)
                      && navigation == Some("/dashboard")
                      && notifier.log == old(notifier.log) + [ProfileCompletedNotice])
                && (outcome.Fail? ==>
                      && auth.State() == old(auth.State()).(globals := Rejected(old(auth.api.State()), outcome.error))
                      && navigation == old(navigation)
                      && notifier.log == old(notifier.log) + [FailureNotice("Profile Completion Failed", outcome.error, "Failed to complete profile.")])
    {
      var errors := ValidateProfileForm(profileData);
      formErrors := errors;
      if |errors| > 0 {
        return None;
      }
      profileLoading := true;
      var payload := RegisterProfilePayload(profileData);
      sent := Some(payload);
      var response := auth.api.Call("/accounts/complete-profile/", outcome);
      if response.Ok? {
        var _ := auth.RefreshUser(profileOutcome);
        notifier.Add(ProfileCompletedNotice);
        navigation := Some("/dashboard");
      } else {
        notifier.Add(FailureNotice("Profile Completion Failed", response.error, "Failed to complete profile."));
      }
      profileLoading := false;
    }
  }
}
