/**
 * `src/pages/Profile/ProfilePage.tsx`: the combined delivery-time string and its parser, the
 * profile-update payload, the password change and the verification summary.
 */
module Profile {
  import opened Wrappers
  import opened JsStrings
  import opened Users
  import opened Notices
  import opened Api
  import opened Auth
  import Register
  import Routes

  // ---------------------------------------------------------------------------
  // The delivery-time string

  /** The `preferred_delivery_time` the page sends: both meals for a tiffin user, nothing otherwise. */
  function DeliveryTime(isTiffinUser: bool, lunch: string, dinner: string): string {
    if isTiffinUser then "Lunch: " + Or(Some(lunch), "-") + ", Dinner: " + Or(Some(dinner), "-") else ""
  }

  /** The first `,` at or after `from`, or `|s|` when there is none. */
  function FirstComma(s: string, from: nat): (r: nat)
    requires from <= |s|
    ensures from <= r <= |s|
    ensures r < |s| ==> s[r] == ','
    ensures forall j :: from <= j < r ==> s[j] != ','
    decreases |s| - from
  {
    if from == |s| || s[from] == ',' then from else FirstComma(s, from + 1)
  }

  /** The end of the longest run of non-line-terminators starting at `from`. */
  function LineEnd(s: string, from: nat): (r: nat)
    requires from <= |s|
    ensures from <= r <= |s|
    ensures r < |s| ==> IsLineTerminator(s[r])
    ensures forall j :: from <= j < r ==> !IsLineTerminator(s[j])
    decreases |s| - from
  {
    if from == |s| || IsLineTerminator(s[from]) then from else LineEnd(s, from + 1)
  }

  /**
   * `/Lunch: ([^,]+), Dinner: (.+)/` tried at position `i`. The greedy `[^,]+` ends at the
   * first comma, and no shorter run can be followed by a comma, so that comma must begin
   * `, Dinner: `; the greedy `.+` then runs to the end of the line.
   */
  function MatchAt(s: string, i: nat): Option<(string, string)>
    requires i <= |s|
  {
    if i + 7 <= |s| && s[i..i + 7] == "Lunch: " then
      var c := FirstComma(s, i + 7);
      if c > i + 7 && c + 10 <= |s| && s[c..c + 10] == ", Dinner: " then
        var e := LineEnd(s, c + 10);
        if e > c + 10 then Some((s[i + 7..c], s[c + 10..e])) else None
      else None
    else None
  }

  /** The leftmost match at or after `i`. */
  function Search(s: string, i: nat): Option<(string, string)>
    requires i <= |s|
    decreases |s| - i
  {
    var m := MatchAt(s, i);
    if m.Some? then m else if i == |s| then None else Search(s, i + 1)
  }

  /** A match is a comma-free lunch and a single-line dinner, both non-empty, spelled out in `s`. */
  predicate Matched(s: string, lunch: string, dinner: string) {
    && lunch != [] && dinner != []
    && (forall j :: 0 <= j < |lunch| ==> lunch[j] != ',')
    && (forall j :: 0 <= j < |dinner| ==> !IsLineTerminator(dinner[j]))
    && Contains(s, "Lunch: " + lunch + ", Dinner: " + dinner)
  }

  lemma MatchAtSound(s: string, i: nat)
    requires i <= |s| && MatchAt(s, i).Some?
    ensures Matched(s, MatchAt(s, i).value.0, MatchAt(s, i).value.1)
  {
    var c := FirstComma(s, i + 7);
    var e := LineEnd(s, c + 10);
    var lunch, dinner := s[i + 7..c], s[c + 10..e];
    assert MatchAt(s, i).value == (lunch, dinner);
    assert forall j :: 0 <= j < |lunch| ==> lunch[j] == s[i + 7 + j];
    assert forall j :: 0 <= j < |dinner| ==> dinner[j] == s[c + 10 + j];
    assert s[i..i + 7] == "Lunch: " && s[c..c + 10] == ", Dinner: ";
    MarkedSlices(s, "Lunch: ", ", Dinner: ", i, c, e);
    SliceContained(s, i, e);
  }

  lemma {:induction false} SearchSound(s: string, i: nat)
    requires i <= |s|
    ensures Search(s, i).Some? ==> Matched(s, Search(s, i).value.0, Search(s, i).value.1)
    decreases |s| - i
  {
    if MatchAt(s, i).Some? {
      MatchAtSound(s, i);
    } else if i < |s| {
      SearchSound(s, i + 1);
    }
  }

  /** The prefill step of the mount effect: the two captured groups, when the text matches. */
  function ParseDeliveryTime(s: string): (r: Option<(string, string)>)
    ensures r.Some? ==> Matched(s, r.value.0, r.value.1)
  {
    SearchSound(s, 0);
    Search(s, 0)
  }

  /**
   * Parsing the string the page sends gives back the two times (with `-` for an empty one)
   * when the lunch time has no comma and the dinner time stays on one line.
   */
  lemma DeliveryTimeRoundTrip(lunch: string, dinner: string)
    requires forall j :: 0 <= j < |lunch| ==> lunch[j] != ','
    requires forall j :: 0 <= j < |dinner| ==> !IsLineTerminator(dinner[j])
    ensures ParseDeliveryTime(DeliveryTime(true, lunch, dinner)) == Some((Or(Some(lunch), "-"), Or(Some(dinner), "-")))
  {
    var l, d := Or(Some(lunch), "-"), Or(Some(dinner), "-");
    assert DeliveryTime(true, lunch, dinner) == "Lunch: " + l + ", Dinner: " + d;
    SpelledOutMatches(l, d);
  }

  /** The text the page writes matches at its very start, with exactly the two parts it was built from. */
  lemma SpelledOutMatches(l: string, d: string)
    requires l != [] && d != []
    requires forall j :: 0 <= j < |l| ==> l[j] != ','
    requires forall j :: 0 <= j < |d| ==> !IsLineTerminator(d[j])
    ensures MatchAt("Lunch: " + l + ", Dinner: " + d, 0) == Some((l, d))
  {
    var s := "Lunch: " + l + ", Dinner: " + d;
    var c := 7 + |l|;
    assert s[0..7] == "Lunch: ";
    assert FirstComma(s, 7) == c by {
      assert forall j :: 7 <= j < c ==> s[j] == l[j - 7];
      assert s[c] == ',';
    }
    assert s[c..c + 10] == ", Dinner: ";
    assert LineEnd(s, c + 10) == |s| by {
      assert forall j :: c + 10 <= j < |s| ==> s[j] == d[j - c - 10];
    }
    assert s[7..c] == l && s[c + 10..|s|] == d;
    assert s[0..0 + 7] == "Lunch: ";
  }

  /** A match can only start at an `L`. */
  lemma MatchStartsWithL(s: string, i: nat)
    requires i < |s| && s[i] != 'L'
    ensures MatchAt(s, i) == None
  {
    if i + 7 <= |s| {
      assert s[i..i + 7][0] == s[i];
    }
  }

  /** A comma in the lunch time breaks the round trip: nothing is prefilled. */
  lemma CommaInLunchNotRecovered()
    ensures ParseDeliveryTime(DeliveryTime(true, "12,30", "8")) == None
  {
    var s := "Lunch: 12,30, Dinner: 8";
    assert DeliveryTime(true, "12,30", "8") == s;
    CommaInLunchNoMatch(s);
    SearchNone(s, 0);
  }

  lemma CommaInLunchNoMatch(s: string)
    requires s == "Lunch: 12,30, Dinner: 8"
    ensures forall i :: 0 <= i <= |s| ==> MatchAt(s, i) == None
  {
    CommaEndsLunch(s);
    forall i | 0 < i <= |s|
      ensures MatchAt(s, i) == None
    {
      if i < |s| {
        OnlyOneL(s, i);
        MatchStartsWithL(s, i);
      }
    }
  }

  lemma CommaEndsLunch(s: string)
    requires s == "Lunch: 12,30, Dinner: 8"
    ensures MatchAt(s, 0) == None
  {
    assert s[7] == '1' && s[8] == '2' && s[9] == ',';
    assert FirstComma(s, 9) == 9;
    assert FirstComma(s, 8) == 9;
    assert FirstComma(s, 7) == 9;
    assert s[9..19] != ", Dinner: " by { assert s[9..19][1] == s[10] == '3'; }
  }

  lemma OnlyOneL(s: string, i: nat)
    requires s == "Lunch: 12,30, Dinner: 8" && 0 < i < |s|
    ensures s[i] != 'L'
  {
    var rest := s[1..];
    assert rest == "unch: 12,30, Dinner: 8";
    assert 'L' !in rest;
    assert s[i] == rest[i - 1];
  }

  lemma {:induction false} SearchNone(s: string, i: nat)
    requires i <= |s|
    requires forall j :: i <= j <= |s| ==> MatchAt(s, j) == None
    ensures Search(s, i) == None
    decreases |s| - i
  {
    if i < |s| {
      SearchNone(s, i + 1);
    }
  }

  // ---------------------------------------------------------------------------
  // The profile form

  datatype ProfileData = ProfileData(
    userType: UserType,
    isTiffinUser: bool,
    isMessUser: bool,
    preferredDeliveryTime: string,
    studentProfile: StudentProfile,
    regularProfile: RegularProfile)

  /** The form state the page starts from: the signed-in user's values, with defaults for the missing ones. */
  function InitialProfile(user: Option<User>): (p: ProfileData)
    ensures user.None? ==> p == ProfileData(Regular, false, false, "", StudentProfile("", "", ""), RegularProfile("", ""))
    ensures user.Some? ==>
              && p.userType == user.value.userType && p.isTiffinUser == user.value.isTiffinUser
              && p.isMessUser == user.value.isMessUser
              && p.preferredDeliveryTime == Or(user.value.preferredDeliveryTime, "")
  {
    match user
    case None => ProfileData(Regular, false, false, "", StudentProfile("", "", ""), RegularProfile("", ""))
    case Some(u) =>
      ProfileData(u.userType, u.isTiffinUser, u.isMessUser, Or(u.preferredDeliveryTime, ""),
                  u.studentProfile.GetOr(StudentProfile("", "", "")),
                  u.regularProfile.GetOr(RegularProfile("", "")))
  }

  /**
   * The body of the profile update: the delivery time rebuilt from the two inputs, and the
   * student or regular sub-profile only; a mess owner's update carries none.
   */
  function UpdatePayload(p: ProfileData, lunch: string, dinner: string): (r: Register.ProfilePayload)
    ensures r.userType == p.userType && r.isTiffinUser == p.isTiffinUser && r.isMessUser == p.isMessUser
    ensures r.preferredDeliveryTime == DeliveryTime(p.isTiffinUser, lunch, dinner)
    ensures r.studentProfile == (if p.userType == Student then Some(p.studentProfile) else None)
    ensures r.regularProfile == (if p.userType == Regular then Some(p.regularProfile) else None)
    ensures r.messOwnerProfile == None
  {
    Register.ProfilePayload(
      p.userType, p.isTiffinUser, p.isMessUser, DeliveryTime(p.isTiffinUser, lunch, dinner),
      if p.userType == Student then Some(p.studentProfile) else None,
      if p.userType == Regular then Some(p.regularProfile) else None,
      None)
  }

  // ---------------------------------------------------------------------------
  // The verification summary

  predicate OtpVerified(s: Status) { s != Unverified }
  predicate ProfileCompleted(s: Status) { s == ProfileComplete }

  const VerifyOtpText := "Please verify your OTP to continue."
  const FullyVerifiedText := "Your account is fully verified!"

  function Instruction(s: Status): string {
    if !OtpVerified(s) then VerifyOtpText
    else if !ProfileCompleted(s) then Routes.ProfileNotice.message
    else FullyVerifiedText
  }

  /**
   * The three instructions split the statuses: the OTP one for `unverified` only, the
   * profile one (the guard's own wording) for every status in between, the all-clear for
   * `profile_complete` only.
   */
  lemma InstructionCases(s: Status)
    ensures Instruction(s) == VerifyOtpText <==> s == Unverified
    ensures Instruction(s) == Routes.ProfileNotice.message <==> s != Unverified && s != ProfileComplete
    ensures Instruction(s) == FullyVerifiedText <==> s == ProfileComplete
  {
    assert VerifyOtpText != Routes.ProfileNotice.message by {
      assert VerifyOtpText[7] != Routes.ProfileNotice.message[7];
    }
    assert FullyVerifiedText != Routes.ProfileNotice.message;
    assert FullyVerifiedText != VerifyOtpText;
  }

  // ---------------------------------------------------------------------------
  // The page

  datatype PasswordData = PasswordData(currentPassword: string, newPassword: string, confirmPassword: string)
  datatype ShowPasswords = ShowPasswords(current: bool, newPassword: bool, confirm: bool)

  const UpdatedNotice := Notice(Success, "Profile Updated", "Your profile has been updated successfully")
  const MismatchNotice := Notice(Error, "Password Mismatch", "New passwords do not match")
  const ChangedNotice := Notice(Success, "Password Changed", "Your password has been changed successfully")

  function UpdateFailedNotice(e: HttpError): Notice {
    Notice(Error, "Update Failed", Or(e.detail, "Failed to update profile"))
  }

  function ChangeFailedNotice(e: HttpError): Notice {
    Notice(Error, "Password Change Failed", Or(e.detail, "Failed to change password"))
  }

  const CompleteProfileEndpoint := "/accounts/complete-profile/"
  const ChangePasswordEndpoint := "/accounts/change-password/"

  class ProfilePage {
    var loading: bool
    var showPasswordForm: bool
    var showPasswords: ShowPasswords
    var profileData: ProfileData
    var passwordData: PasswordData
    var lunchTime: string
    var dinnerTime: string
    const notifier: Notifier
    const auth: AuthProvider

    /** The first render: the form is seeded from the session's user. */
    constructor (notifier: Notifier, auth: AuthProvider)
      ensures profileData == InitialProfile(auth.user)
      ensures !loading && !showPasswordForm && showPasswords == ShowPasswords(false, false, false)
      ensures passwordData == PasswordData("", "", "") && lunchTime == "" && dinnerTime == ""
      ensures this.notifier == notifier && this.auth == auth
    {
      this.notifier := notifier;
      this.auth := auth;
      profileData := InitialProfile(auth.user);
      loading, showPasswordForm := false, false;
      showPasswords := ShowPasswords(false, false, false);
      passwordData := PasswordData("", "", "");
      lunchTime, dinnerTime := "", "";
    }

    /** The mount effect: prefill both times from a stored string that matches. */
    method PrefillDeliveryTimes()
      modifies this`lunchTime, this`dinnerTime
      ensures var parsed := ParseDeliveryTime(profileData.preferredDeliveryTime);
              if profileData.preferredDeliveryTime != "" && parsed.Some?
              then lunchTime == parsed.value.0 && dinnerTime == parsed.value.1
              else lunchTime == old(lunchTime) && dinnerTime == old(dinnerTime)
    {
      if profileData.preferredDeliveryTime != "" {
        var parsed := ParseDeliveryTime(profileData.preferredDeliveryTime);
        if parsed.Some? {
          lunchTime := parsed.value.0;
          dinnerTime := parsed.value.1;
        }
      }
    }

    /**
     * `handleProfileSubmit`: the update always goes out; on success the session is refreshed
     * (with `profileOutcome` answering the fetch).
     */
    method HandleProfileSubmit(outcome: Response<()>, profileOutcome: Response<User>) returns (sent: Register.ProfilePayload)
      modifies this`loading, notifier, auth, auth.api
      ensures sent == UpdatePayload(profileData, lunchTime, dinnerTime)
      ensures !loading && auth.loading == old(auth.loading)
      ensures auth.api.sent == old(auth.api.sent) + [Request(CompleteProfileEndpoint, SentAuthorization(old(auth.api.State())))]
                               + (if outcome.Ok? then [Request(ProfileEndpoint, SentAuthorization(old(auth.api.State())))] else [])
      ensures outcome.Ok? ==>
                && auth.State() == Refreshed(old(auth.State()), profileOutcome)
                && notifier.log == old(notifier.log) + [UpdatedNotice]
      ensures outcome.Fail? ==>
                && auth.State() == old(auth.State()).(globals := Rejected(old(auth.api.State()), outcome.error))
                && notifier.log == old(notifier.log) + [UpdateFailedNotice(outcome.error)]
    {
      loading := true;
      sent := UpdatePayload(profileData, lunchTime, dinnerTime);
      var response := auth.api.Call(CompleteProfileEndpoint, outcome);
      if response.Ok? {
        var _ := auth.RefreshUser(profileOutcome);
        notifier.Add(UpdatedNotice);
      } else {
        notifier.Add(UpdateFailedNotice(response.error));
      }
      loading := false;
    }

    /** `handlePasswordSubmit`: a mismatch is refused before any request. */
    method HandlePasswordSubmit(outcome: Response<()>) returns (sent: Option<PasswordData>)
      modifies this`loading, this`passwordData, this`showPasswordForm, notifier, auth.api
      ensures passwordData.newPassword != passwordData.confirmPassword ==> passwordData == old(passwordData)
      ensures old(passwordData.newPassword) != old(passwordData.confirmPassword) ==>
                && sent == None && notifier.log == old(notifier.log) + [MismatchNotice]
                && loading == old(loading) && showPasswordForm == old(showPasswordForm)
                && unchanged(auth.api)
      ensures old(passwordData.newPassword) == old(passwordData.confirmPassword) ==>
                && sent == Some(old(passwordData)) && !loading
                && auth.api.State() == AfterCall(old(auth.api.State()), outcome)
                && auth.api.sent == old(auth.api.sent) + [Request(ChangePasswordEndpoint, SentAuthorization(old(auth.api.State())))]
                && (outcome.Ok? ==>
                      && passwordData == PasswordData("", "", "") && !showPasswordForm
                      && notifier.log == old(notifier.log) + [ChangedNotice])
                && (outcome.Fail? ==>
                      && passwordData == old(passwordData) && showPasswordForm == old(showPasswordForm)
                      && notifier.log == old(notifier.log) + [ChangeFailedNotice(outcome.error)])
    {
      if passwordData.newPassword != passwordData.confirmPassword {
        notifier.Add(MismatchNotice);
        return None;
      }
      loading := true;
      sent := Some(passwordData);
      var response := auth.api.Call(ChangePasswordEndpoint, outcome);
      if response.Ok? {
        notifier.Add(ChangedNotice);
        passwordData := PasswordData("", "", "");
        showPasswordForm := false;
      } else {
        notifier.Add(ChangeFailedNotice(response.error));
      }
      loading := false;
    }

    /** `togglePasswordVisibility`: flip the one named eye. */
    method TogglePasswordVisibility(field: string)
      modifies this`showPasswords
      ensures field == "current" ==> showPasswords == old(showPasswords).(current := !old(showPasswords.current))
      ensures field == "new" ==> showPasswords == old(showPasswords).(newPassword := !old(showPasswords.newPassword))
      ensures field == "confirm" ==> showPasswords == old(showPasswords).(confirm := !old(showPasswords.confirm))
      ensures field !in {"current", "new", "confirm"} ==> showPasswords == old(showPasswords)
    {
      if field == "current" {
        showPasswords := showPasswords.(current := !showPasswords.current);
      } else if field == "new" {
        showPasswords := showPasswords.(newPassword := !showPasswords.newPassword);
      } else if field == "confirm" {
        showPasswords := showPasswords.(confirm := !showPasswords.confirm);
      }
    }
  }
}
