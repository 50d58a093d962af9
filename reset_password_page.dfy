/**
 * `src/pages/Auth/ResetPasswordPage.tsx`: the new-password validator and the submit handler
 * of the reset link `/reset-password/:uidb64/:token`.
 */
module ResetPassword {
  import opened Wrappers
  import opened JsStrings
  import opened Notices
  import opened Forms
  import opened Api

  datatype ResetForm = ResetForm(newPassword: string, confirmPassword: string)

  /** The body the submit handler passes to `authService.setNewPasswordWithToken`. */
  datatype ResetRequest = ResetRequest(uidb64: string, token: string, newPassword: string, confirmPassword: string)

  /** `validatePassword`. */
  function ValidatePassword(f: ResetForm): (errors: Errors)
    ensures "new_password" !in errors <==> Utf16Length(f.newPassword) >= 8
    ensures "confirm_password" !in errors <==> f.confirmPassword != "" && f.confirmPassword == f.newPassword
    ensures Messages(errors, {"new_password", "confirm_password"})
  {
    var e := Report(map[], "new_password",
      if f.newPassword == "" then Some("New password is required")
      else if Utf16Length(f.newPassword) < 8 then Some("Password must be at least 8 characters")
      else None);
    Report(e, "confirm_password",
      if f.confirmPassword == "" then Some("Please confirm your password")
      else if f.newPassword != f.confirmPassword then Some("Passwords do not match")
      else None)
  }

  /** A valid form is one whose two fields agree on a password of at least eight characters. */
  lemma ValidPasswordForm(f: ResetForm)
    ensures |ValidatePassword(f)| == 0 <==> Utf16Length(f.newPassword) >= 8 && f.confirmPassword == f.newPassword
  {
    var errors := ValidatePassword(f);
    if |errors| != 0 {
      var k :| k in errors;
    }
  }

  const InvalidLinkNotice := Notice(Error, "Invalid Reset Link", "The password reset link is invalid or has expired.")
  const ResetDoneNotice := Notice(Success, "Password Reset Successful",
    "Your password has been reset successfully! Please login with your new password.")
  const ResetFallback := "Failed to reset password. Please try again."

  class ResetPasswordPage {
    /** The two route parameters; either may be missing. */
    const uidb64: Option<string>
    const token: Option<string>
    var formData: ResetForm
    var showPassword: bool
    var showConfirmPassword: bool
    var loading: bool
    var formErrors: Errors
    var success: bool
    /** Where the delayed `navigate` goes, once scheduled. */
    var navigation: Option<string>
    const notifier: Notifier

    constructor (uidb64: Option<string>, token: Option<string>, notifier: Notifier)
      ensures this.uidb64 == uidb64 && this.token == token && this.notifier == notifier
      ensures formData == ResetForm("", "") && !showPassword && !showConfirmPassword
      ensures !loading && formErrors == map[] && !success && navigation == None
    {
      this.uidb64 := uidb64;
      this.token := token;
      this.notifier := notifier;
      formData := ResetForm("", "");
      showPassword, showConfirmPassword, loading := false, false, false;
      formErrors := map[];
      success := false;
      navigation := None;
    }

    /** `!uidb64 || !token` is false: both parameters are present and non-empty. */
    predicate LinkValid()
      reads this
    {
      Truthy(uidb64) && Truthy(token)
    }

    /**
     * `handlePasswordSubmit`; `outcome` is how the reset request settles. Validation errors
     * stop it first, then a broken link; otherwise the request goes out.
     */
    method HandlePasswordSubmit(outcome: Response<()>) returns (sent: Option<ResetRequest>)
      modifies this`formErrors, this`loading, this`success, this`navigation, notifier
      ensures formErrors == ValidatePassword(formData)
      ensures loading == old(loading) || !loading
      ensures |formErrors| > 0 ==>
                && sent == None && notifier.log == old(notifier.log)
                && success == old(success) && navigation == old(navigation) && loading == old(loading)
      ensures |formErrors| == 0 && !LinkValid() ==>
                && sent == None && notifier.log == old(notifier.log) + [InvalidLinkNotice]
                && success == old(success) && navigation == old(navigation) && loading == old(loading)
      ensures |formErrors| == 0 && LinkValid() ==>
                && sent == Some(ResetRequest(uidb64.value, token.value, formData.newPassword, formData.confirmPassword))
                && !loading
                && (outcome.Ok? ==>
                      success && navigation == Some(LoginPath) && notifier.log == old(notifier.log) + [ResetDoneNotice])
                && (outcome.Fail? ==>
                      && success == old(success) && navigation == old(navigation)
                      && notifier.log == old(notifier.log) + [FailureNotice("Password Reset Failed", outcome.error, ResetFallback)])
    {
      var errors := ValidatePassword(formData);
      formErrors := errors;
      if |errors| > 0 {
        return None;
      }
      if !LinkValid() {
        notifier.Add(InvalidLinkNotice);
        return None;
      }
      loading := true;
      sent := Some(ResetRequest(uidb64.value, token.value, formData.newPassword, formData.confirmPassword));
      Settle(outcome);
      loading := false;
    }

    /** The `try`/`catch` around `setNewPasswordWithToken`: the success view and the redirect, or an error notice. */
    method Settle(outcome: Response<()>)
      modifies this`success, this`navigation, notifier
      ensures outcome.Ok? ==>
                success && navigation == Some(LoginPath) && notifier.log == old(notifier.log) + [ResetDoneNotice]
      ensures outcome.Fail? ==>
                && success == old(success) && navigation == old(navigation)
                && notifier.log == old(notifier.log) + [FailureNotice("Password Reset Failed", outcome.error, ResetFallback)]
    {
      if outcome.Ok? {
        success := true;
        notifier.Add(ResetDoneNotice);
        navigation := Some(LoginPath);
      } else {
        notifier.Add(FailureNotice("Password Reset Failed", outcome.error, ResetFallback));
      }
    }

    /**
     * The handler as shipped: `authService.setNewPasswordWithToken` does not exist, so the call
     * itself throws and every valid submission over a valid link ends on the fallback error.
     */
    method HandlePasswordSubmitAsShipped() returns (sent: Option<ResetRequest>)
      modifies this`formErrors, this`loading, this`success, this`navigation, notifier
      ensures |formErrors| == 0 && LinkValid() ==>
                && success == old(success) && navigation == old(navigation)
                && notifier.log == old(notifier.log) + [Notice(Error, "Password Reset Failed", ResetFallback)]
    {
      sent := HandlePasswordSubmit(Fail(MissingService("setNewPasswordWithToken")));
    }

    /** `handleChange`: store the value, and blank that field's error if one is showing. */
    method HandleChange(name: string, value: string)
      modifies this`formData, this`formErrors
      ensures name == "new_password" ==> formData == old(formData).(newPassword := value)
      ensures name == "confirm_password" ==> formData == old(formData).(confirmPassword := value)
      ensures name !in {"new_password", "confirm_password"} ==> formData == old(formData)
      ensures formErrors == ClearError(old(formErrors), name)
    {
      if name == "new_password" {
        formData := formData.(newPassword := value);
      } else if name == "confirm_password" {
        formData := formData.(confirmPassword := value);
      }
      formErrors := ClearError(formErrors, name);
    }
  }
}
