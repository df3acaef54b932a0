/** The password-reset page of `src/pages/ResetPassword/ResetPassword.jsx`:
    the link's `access_token` gates the form, the new password is validated
    (first failure only), and a reset clears the form and schedules the
    redirect to sign-in. */
module ResetPassword {
  import opened Js

  const MinPasswordLength := 6
  const InvalidLinkMessage := "Invalid or expired password reset link. Please request a new one."
  const PasswordRequiredMessage := "Password is required"
  const PasswordTooShortMessage := "Password must be at least 6 characters"
  const PasswordsDifferMessage := "Passwords do not match"
  const ResetSucceededMessage := "Password has been successfully reset."
  const ResetFailedMessage := "Failed to reset password. Please try again."
  const SigninNotice := "Your password has been updated. Please sign in with your new password."
  /** What the browser reports when the page calls the `resetPassword` that
      the auth context does not provide. */
  const MissingResetMessage := "resetPassword is not a function"

  /** `validateForm`'s verdict: the message of the first failing check, in the
      order empty, too short, mismatch; none when all pass. */
  function ValidationError(password: string, confirmPassword: string): (r: Option<string>)
    ensures r.None? <==> password != "" && |password| >= MinPasswordLength && password == confirmPassword
    ensures password == "" ==> r == Some(PasswordRequiredMessage)
    ensures password != "" && |password| < MinPasswordLength ==> r == Some(PasswordTooShortMessage)
    ensures |password| >= MinPasswordLength && password != confirmPassword ==> r == Some(PasswordsDifferMessage)
  {
    if !Truthy(password) then Some(PasswordRequiredMessage)
    else if |password| < MinPasswordLength then Some(PasswordTooShortMessage)
    else if password != confirmPassword then Some(PasswordsDifferMessage)
    else None
  }

  /** The confirmation is only looked at once the password itself passes: a
      password that is empty or too short gets the same verdict whatever the
      confirmation says. */
  lemma ConfirmationCheckedLast(password: string, confirm1: string, confirm2: string)
    requires |password| < MinPasswordLength
    ensures ValidationError(password, confirm1) == ValidationError(password, confirm2)
    ensures ValidationError(password, confirm1).Some?
  {
  }

  /** The answer of the reset call. */
  datatype ResetOutcome = ResetOk | ResetFailed(message: Option<string>)

  /** The call `resetPassword(accessToken, password)`. */
  datatype ResetCall = ResetCall(accessToken: string, password: string)

  /** The two password inputs. */
  datatype Passwords = Passwords(password: string, confirmPassword: string)

  class ResetPage {
    var passwords: Passwords
    var loading: bool
    var message: string
    var error: string
    var accessToken: Option<string>
    /** The 3-second timer to the sign-in page is running. */
    var redirectPending: bool
    /** The notice handed to the sign-in page, once navigated there. */
    var navigation: Option<string>

    /** The page after its mount effect: a truthy `access_token` from the link
        is kept, otherwise the invalid-link error is shown. */
    constructor (linkToken: Option<string>)
      ensures passwords == Passwords("", "") && !loading && message == ""
      ensures TruthyOpt(linkToken) ==> accessToken == linkToken && error == ""
      ensures !TruthyOpt(linkToken) ==> accessToken == None && error == InvalidLinkMessage
      ensures !redirectPending && navigation == None
    {
      passwords := Passwords("", "");
      loading := false;
      message := "";
      redirectPending := false;
      navigation := None;
      if TruthyOpt(linkToken) {
        accessToken := linkToken;
        error := "";
      } else {
        accessToken := None;
        error := InvalidLinkMessage;
      }
    }

    /** The form is rendered exactly when the page holds an access token. */
    predicate FormVisible()
      reads this
    {
      TruthyOpt(accessToken)
    }

    /** The two inputs, enabled while nothing is loading. */
    method EditPasswords(password: string, confirmPassword: string)
      requires FormVisible() && !loading
      modifies this
      ensures passwords == Passwords(password, confirmPassword)
      ensures loading == old(loading) && message == old(message) && error == old(error)
      ensures accessToken == old(accessToken) && redirectPending == old(redirectPending) && navigation == old(navigation)
    {
      passwords := Passwords(password, confirmPassword);
    }

    /** `validateForm`: true exactly when every check passes; otherwise the
        first failure's message becomes the error. */
    method ValidateForm() returns (ok: bool)
      modifies this
      ensures ok <==> ValidationError(passwords.password, passwords.confirmPassword).None?
      ensures !ok ==> error == ValidationError(passwords.password, passwords.confirmPassword).value
      ensures ok ==> error == old(error)
      ensures passwords == old(passwords) && loading == old(loading) && message == old(message)
      ensures accessToken == old(accessToken) && redirectPending == old(redirectPending) && navigation == old(navigation)
    {
      var verdict := ValidationError(passwords.password, passwords.confirmPassword);
      if verdict.Some? {
        error := verdict.value;
        return false;
      }
      return true;
    }

    /** `handleResetPassword` with a reset call that exists and answers
        `outcome`. The error and message are cleared first; an invalid form
        shows its first failure and calls nothing. A success shows the
        success message, clears both inputs and starts the redirect timer; a
        failure shows the call's message or the generic one. `sent` is the
        call made; loading is over afterwards. */
    method HandleResetPassword(outcome: ResetOutcome) returns (sent: Option<ResetCall>)
      requires FormVisible() && !loading
      modifies this
      ensures !loading && accessToken == old(accessToken) && navigation == old(navigation)
      ensures ValidationError(old(passwords.password), old(passwords.confirmPassword)).Some? ==>
        sent == None && error == ValidationError(old(passwords.password), old(passwords.confirmPassword)).value &&
        message == "" && passwords == old(passwords) && redirectPending == old(redirectPending)
      ensures ValidationError(old(passwords.password), old(passwords.confirmPassword)).None? ==>
        sent == Some(ResetCall(old(accessToken).value, old(passwords.password)))
      ensures ValidationError(old(passwords.password), old(passwords.confirmPassword)).None? && outcome.ResetOk? ==>
        message == ResetSucceededMessage && error == "" && passwords == Passwords("", "") && redirectPending
      ensures ValidationError(old(passwords.password), old(passwords.confirmPassword)).None? && outcome.ResetFailed? ==>
        message == "" && error == OrDefault(outcome.message, ResetFailedMessage) &&
        passwords == old(passwords) && redirectPending == old(redirectPending)
    {
      error := "";
      message := "";
      var ok := ValidateForm();
      if !ok {
        return None;
      }
      loading := true;
      sent := Some(ResetCall(accessToken.value, passwords.password));
      match outcome {
        case ResetOk =>
          message := ResetSucceededMessage;
          passwords := Passwords("", "");
          redirectPending := true;
        case ResetFailed(m) =>
          error := OrDefault(m, ResetFailedMessage);
      }
      loading := false;
    }

    /** The handler as the page runs it: the auth context has no
        `resetPassword`, so a valid form reaches a call that throws, and the
        catch shows the engine's message. The inputs are kept, no success is
        shown and no redirect is scheduled. */
    method HandleResetPasswordAsWritten()
      requires FormVisible() && !loading
      modifies this
      ensures !loading && accessToken == old(accessToken) && navigation == old(navigation)
      ensures message == "" && passwords == old(passwords) && redirectPending == old(redirectPending)
      ensures ValidationError(old(passwords.password), old(passwords.confirmPassword)).Some? ==>
        error == ValidationError(old(passwords.password), old(passwords.confirmPassword)).value
      ensures ValidationError(old(passwords.password), old(passwords.confirmPassword)).None? ==>
        error == MissingResetMessage
    {
      error := "";
      message := "";
      var ok := ValidateForm();
      if !ok {
        return;
      }
      loading := true;
      error := OrDefault(Some(MissingResetMessage), ResetFailedMessage);
      loading := false;
    }

    /** The redirect timer fires: the page moves to sign-in with its notice. */
    method RedirectTimerFires()
      requires redirectPending
      modifies this
      ensures !redirectPending && navigation == Some(SigninNotice)
      ensures passwords == old(passwords) && loading == old(loading) && message == old(message)
      ensures error == old(error) && accessToken == old(accessToken)
    {
      redirectPending := false;
      navigation := Some(SigninNotice);
    }
  }

  /** A valid reset from a valid link: the page as written ends on an error
      and never reaches sign-in, while the handler with a working reset call
      shows the success message and schedules the redirect. */
  method MissingResetBlocksReset() returns (asWritten: string, corrected: string)
    ensures asWritten == MissingResetMessage
    ensures corrected == ResetSucceededMessage
  {
    var page1 := new ResetPage(Some("token"));
    page1.EditPasswords("secret", "secret");
    page1.HandleResetPasswordAsWritten();
    asWritten := page1.error;

    var page2 := new ResetPage(Some("token"));
    page2.EditPasswords("secret", "secret");
    var _ := page2.HandleResetPassword(ResetOk);
    corrected := page2.message;
  }
}
