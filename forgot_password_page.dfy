/**
 * `src/pages/Auth/ForgotPasswordPage.tsx`: the e-mail validator, the reset-mail request and
 * the "try another address" reset.
 */
module ForgotPassword {
  import opened Wrappers
  import opened JsStrings
  import opened Notices
  import opened Forms
  import opened Api
  import Register

  /**
   * `/\S+@\S+\.\S+/.test(s)`, unanchored: somewhere a non-space character, an `@`, a run of
   * non-space characters, a `.` and one more non-space character.
   */
  predicate EmailSearch(s: string) {
    exists i, k :: 0 < i && i + 1 < k < |s| - 1 && MailAt(s, i, k)
  }

  /** The match of `EmailSearch` with its `@` at `i` and its `.` at `k`. */
  predicate MailAt(s: string, i: int, k: int)
    requires 0 < i && i + 1 < k < |s| - 1
  {
    && s[i] == '@' && s[k] == '.' && !IsSpace(s[i - 1]) && !IsSpace(s[k + 1])
    && forall j :: i < j < k ==> !IsSpace(s[j])
  }

  /** A matching address is never blank, so the "required" check never hides a match. */
  lemma SearchNotBlank(s: string)
    ensures EmailSearch(s) ==> !IsBlank(s)
  {
    if EmailSearch(s) {
      var i, k :| 0 < i && i + 1 < k < |s| - 1 && MailAt(s, i, k);
      assert !IsSpace(s[i]);
    }
  }

  /** `validateEmail`. */
  function ValidateEmail(email: string): (errors: Errors)
    ensures "email" !in errors <==> EmailSearch(email)
    ensures Messages(errors, {"email"})
  {
    SearchNotBlank(email);
    Report(map[], "email",
      if IsBlank(email) then Some("Email is required")
      else if !EmailSearch(email) then Some("Please enter a valid email address")
      else None)
  }

  /** Every address the registration form accepts is accepted here too. */
  lemma RegistrationEmailAccepted(s: string)
    requires Register.EmailPattern(s)
    ensures EmailSearch(s)
  {
    var i, k :| 0 < i && i + 1 < k < |s| - 1 && s[i] == '@' && s[k] == '.'
                && (forall j :: 0 <= j < |s| && j != i ==> s[j] != '@');
    assert MailAt(s, i, k);
  }

  /** The converse fails: the search ignores surrounding text, here a leading space. */
  lemma SearchIsUnanchored()
    ensures EmailSearch(" a@b.c") && !Register.EmailPattern(" a@b.c")
  {
    assert MailAt(" a@b.c", 2, 4);
    assert IsSpace(" a@b.c"[0]);
  }

  const SentNotice := Notice(Success, "Reset Email Sent",
    "Please check your email for password reset instructions. Click the link in the email to reset your password.")
  const SendFallback := "Failed to send reset email. Please try again."

  class ForgotPasswordPage {
    var email: string
    var loading: bool
    var formErrors: Errors
    var emailSent: bool
    const notifier: Notifier

    constructor (notifier: Notifier)
      ensures email == "" && !loading && formErrors == map[] && !emailSent && this.notifier == notifier
    {
      email := "";
      loading := false;
      formErrors := map[];
      emailSent := false;
      this.notifier := notifier;
    }

    /** `handleEmailSubmit`; `outcome` is how the reset-mail request settles. */
    method HandleEmailSubmit(outcome: Response<()>) returns (sent: Option<string>)
      modifies this`formErrors, this`loading, this`emailSent, notifier
      ensures formErrors == ValidateEmail(email)
      ensures |formErrors| > 0 ==>
                sent == None && notifier.log == old(notifier.log) && emailSent == old(emailSent) && loading == old(loading)
      ensures |formErrors| == 0 ==>
                && sent == Some(Trim(email)) && !loading
                && (outcome.Ok? ==> emailSent && notifier.log == old(notifier.log) + [SentNotice])
                && (outcome.Fail? ==>
                      emailSent == old(emailSent) &&
                      notifier.log == old(notifier.log) + [FailureNotice("Failed to Send Reset Email", outcome.error, SendFallback)])
    {
      var errors := ValidateEmail(email);
      formErrors := errors;
      if |errors| > 0 {
        return None;
      }
      loading := true;
      sent := Some(Trim(email));
      Settle(outcome);
      loading := false;
    }

    /** The `try`/`catch` around `requestPasswordReset`: the "email sent" view or an error notice. */
    method Settle(outcome: Response<()>)
      modifies this`emailSent, notifier
      ensures outcome.Ok? ==> emailSent && notifier.log == old(notifier.log) + [SentNotice]
      ensures outcome.Fail? ==>
                && emailSent == old(emailSent)
                && notifier.log == old(notifier.log) + [FailureNotice("Failed to Send Reset Email", outcome.error, SendFallback)]
    {
      if outcome.Ok? {
        notifier.Add(SentNotice);
        emailSent := true;
      } else {
        notifier.Add(FailureNotice("Failed to Send Reset Email", outcome.error, SendFallback));
      }
    }

    /**
     * The handler as shipped: `authService.requestPasswordReset` does not exist, so every valid
     * address ends on the fallback error and the "email sent" view is never reached.
     */
    method HandleEmailSubmitAsShipped() returns (sent: Option<string>)
      modifies this`formErrors, this`loading, this`emailSent, notifier
      ensures emailSent == old(emailSent)
      ensures |formErrors| == 0 ==>
                notifier.log == old(notifier.log) + [Notice(Error, "Failed to Send Reset Email", SendFallback)]
    {
      sent := HandleEmailSubmit(Fail(MissingService("requestPasswordReset")));
    }

    /** `handleChange` on the e-mail input. */
    method HandleChange(name: string, value: string)
      modifies this`email, this`formErrors
      ensures email == (if name == "email" then value else old(email))
      ensures formErrors == ClearError(old(formErrors), name)
    {
      if name == "email" {
        email := value;
      }
      formErrors := ClearError(formErrors, name);
    }

    /** `resetForm`: back to an empty form. */
    method ResetForm()
      modifies this`email, this`formErrors, this`emailSent
      ensures email == "" && formErrors == map[] && !emailSent
    {
      email := "";
      formErrors := map[];
      emailSent := false;
    }
  }
}
