/**
 * The password-change screen: when the form may be submitted, the mismatch warning, the
 * disabled state of the submit button, the mapping from the authentication service's error code
 * to the message shown, and the submit handler.
 *
 * Whether a user with an email address is signed in is read before anything is sent; the
 * re-authentication and the password update that follow are calls into the authentication
 * service, of which the model sees only the combined outcome, a `SubmitOutcome`.
 */
module ChangePassword {
  import opened Options
  import opened JsStrings

  const MinPasswordLength := 6
  const WrongPasswordCode := "auth/wrong-password"
  const TooManyRequestsCode := "auth/too-many-requests"
  const TooManyAttemptsMessage := "Too many attempts. Try again later."
  const GenericFailureMessage := "Failed to update password. Please try again."

  /** `isFormValid`; `length` counts UTF-16 code units. */
  predicate FormValid(currentPassword: string, newPassword: string, confirmNewPassword: string) {
    Utf16Length(currentPassword) > 0 &&
    Utf16Length(newPassword) >= MinPasswordLength &&
    newPassword == confirmNewPassword
  }

  /** The mismatch warning under the confirmation field. */
  predicate ShowsMismatch(newPassword: string, confirmNewPassword: string) {
    confirmNewPassword != "" && newPassword != confirmNewPassword
  }

  /** The `disabled` condition of the submit button. */
  predicate SubmitDisabled(loading: bool, success: bool, formValid: bool) {
    loading || success || !formValid
  }

  /**
   * The form is valid exactly when a current password is given, the confirmation equals the new
   * password, and the new password has at least 6 code units; for text in the Basic Multilingual
   * Plane that is at least 6 characters, and in any case at least 3.
   */
  lemma FormValidMeans(currentPassword: string, newPassword: string, confirmNewPassword: string)
    ensures FormValid(currentPassword, newPassword, confirmNewPassword) <==>
      currentPassword != "" && newPassword == confirmNewPassword && Utf16Length(newPassword) >= MinPasswordLength
    ensures AllBmp(newPassword) ==>
      (FormValid(currentPassword, newPassword, confirmNewPassword) <==>
       currentPassword != "" && newPassword == confirmNewPassword && |newPassword| >= MinPasswordLength)
    ensures FormValid(currentPassword, newPassword, confirmNewPassword) ==> |newPassword| >= MinPasswordLength / 2
  {
  }

  /** The warning and a valid form exclude each other, so while the warning shows the button is disabled. */
  lemma MismatchBlocksSubmit(currentPassword: string, newPassword: string, confirmNewPassword: string, loading: bool, success: bool)
    requires ShowsMismatch(newPassword, confirmNewPassword)
    ensures !FormValid(currentPassword, newPassword, confirmNewPassword)
    ensures SubmitDisabled(loading, success, FormValid(currentPassword, newPassword, confirmNewPassword))
  {
  }

  /** An enabled button means nothing is loading, no success yet, a valid form and no warning. */
  lemma EnabledSubmitMeans(currentPassword: string, newPassword: string, confirmNewPassword: string, loading: bool, success: bool)
    requires !SubmitDisabled(loading, success, FormValid(currentPassword, newPassword, confirmNewPassword))
    ensures !loading && !success
    ensures FormValid(currentPassword, newPassword, confirmNewPassword)
    ensures !ShowsMismatch(newPassword, confirmNewPassword)
  {
  }

  /** How a request sent to the authentication service ended. `code` is the error's `code`, `None` when it has none. */
  datatype SubmitOutcome =
    | ReauthenticationFailed(code: Option<string>)
    | UpdateFailed(code: Option<string>)
    | PasswordUpdated

  /** The `code` of the error a failed request caught. */
  function FailureCode(outcome: SubmitOutcome): Option<string> {
    match outcome
    case ReauthenticationFailed(c) => c
    case UpdateFailed(c) => c
    case PasswordUpdated => None
  }

  /** The message shown for a caught error. */
  function ErrorMessage(code: Option<string>, incorrectPasswordText: string): string {
    if code == Some(WrongPasswordCode) then incorrectPasswordText
    else if code == Some(TooManyRequestsCode) then TooManyAttemptsMessage
    else GenericFailureMessage
  }

  /**
   * Every failure leaves a non-empty message, provided the translated wrong-password text is
   * non-empty; the error thrown when nobody is signed in carries no code and gets the generic message.
   */
  lemma FailureIsReported(outcome: SubmitOutcome, incorrectPasswordText: string)
    requires !outcome.PasswordUpdated?
    requires incorrectPasswordText != ""
    ensures ErrorMessage(FailureCode(outcome), incorrectPasswordText) != ""
    ensures ErrorMessage(None, incorrectPasswordText) == GenericFailureMessage
  {
  }

  /**
   * The message shown tells the three causes apart, as long as the translated wrong-password text
   * is neither of the two fixed messages: each message is shown for its cause and for no other.
   */
  lemma MessageRevealsCause(code: Option<string>, incorrectPasswordText: string)
    requires incorrectPasswordText != TooManyAttemptsMessage && incorrectPasswordText != GenericFailureMessage
    ensures ErrorMessage(code, incorrectPasswordText) == incorrectPasswordText <==> code == Some(WrongPasswordCode)
    ensures ErrorMessage(code, incorrectPasswordText) == TooManyAttemptsMessage <==> code == Some(TooManyRequestsCode)
    ensures ErrorMessage(code, incorrectPasswordText) == GenericFailureMessage <==>
      code != Some(WrongPasswordCode) && code != Some(TooManyRequestsCode)
  {
  }

  /** What a submission hands to the authentication service: the credential's password and the new password. */
  datatype PasswordChange = PasswordChange(currentPassword: string, newPassword: string)

  /**
   * The component's state.  `inFlight` counts the requests sent to the service whose handler has
   * not finished yet; the handler has no `loading` guard, so there can be more than one.
   */
  class ChangePasswordScreen {
    var currentPassword: string
    var newPassword: string
    var confirmNewPassword: string
    var loading: bool
    var error: string
    var success: bool
    ghost var inFlight: nat

    ghost predicate Valid()
      reads this
    {
      loading ==> inFlight > 0
    }

    constructor ()
      ensures Valid()
      ensures currentPassword == "" && newPassword == "" && confirmNewPassword == ""
      ensures !loading && error == "" && !success && inFlight == 0
    {
      currentPassword := "";
      newPassword := "";
      confirmNewPassword := "";
      loading := false;
      error := "";
      success := false;
      inFlight := 0;
    }

    /** `isFormValid`. */
    predicate IsFormValid()
      reads this
    {
      FormValid(currentPassword, newPassword, confirmNewPassword)
    }

    /** Whether the mismatch warning is shown. */
    predicate MismatchShown()
      reads this
    {
      ShowsMismatch(newPassword, confirmNewPassword)
    }

    /** Whether the submit button is disabled. */
    predicate SubmitButtonDisabled()
      reads this
    {
      SubmitDisabled(loading, success, IsFormValid())
    }

    /** The `onChange` of the current-password field. */
    method SetCurrentPassword(value: string)
      requires Valid()
      modifies this
      ensures Valid()
      ensures currentPassword == value && newPassword == old(newPassword) && confirmNewPassword == old(confirmNewPassword)
      ensures loading == old(loading) && error == old(error) && success == old(success) && inFlight == old(inFlight)
    {
      currentPassword := value;
    }

    /** The `onChange` of the new-password field. */
    method SetNewPassword(value: string)
      requires Valid()
      modifies this
      ensures Valid()
      ensures newPassword == value && currentPassword == old(currentPassword) && confirmNewPassword == old(confirmNewPassword)
      ensures loading == old(loading) && error == old(error) && success == old(success) && inFlight == old(inFlight)
    {
      newPassword := value;
    }

    /** The `onChange` of the confirmation field. */
    method SetConfirmNewPassword(value: string)
      requires Valid()
      modifies this
      ensures Valid()
      ensures confirmNewPassword == value && currentPassword == old(currentPassword) && newPassword == old(newPassword)
      ensures loading == old(loading) && error == old(error) && success == old(success) && inFlight == old(inFlight)
    {
      confirmNewPassword := value;
    }

    /**
     * `handleSubmit`, up to its first `await`.  An invalid form changes nothing and sends nothing.
     * A valid one clears the error and starts loading; then, when no user with an email address is
     * signed in, the thrown error is caught at once (generic message, loading ends) and nothing is
     * sent; otherwise the current and the new password are handed to the service.
     * `incorrectPasswordText` is `texts.incorrectCurrentPassword` as the catch reads it.
     */
    method BeginSubmit(signedInWithEmail: bool, incorrectPasswordText: string) returns (request: Option<PasswordChange>)
      requires Valid()
      modifies this
      ensures Valid()
      ensures !old(IsFormValid()) ==>
        request == None && loading == old(loading) && error == old(error) && inFlight == old(inFlight)
      ensures old(IsFormValid()) && !signedInWithEmail ==>
        request == None && !loading && error == GenericFailureMessage && inFlight == old(inFlight)
      ensures old(IsFormValid()) && signedInWithEmail ==>
        request == Some(PasswordChange(currentPassword, newPassword)) &&
        loading && error == "" && inFlight == old(inFlight) + 1
      ensures request.Some? ==> old(IsFormValid()) && signedInWithEmail
      ensures !old(SubmitButtonDisabled()) && signedInWithEmail ==> request.Some?
      ensures old(MismatchShown()) ==> request == None
      ensures currentPassword == old(currentPassword) && newPassword == old(newPassword)
      ensures confirmNewPassword == old(confirmNewPassword) && success == old(success)
    {
      if !IsFormValid() {
        return None;
      }
      error := "";
      loading := true;
      if !signedInWithEmail {
        error := ErrorMessage(None, incorrectPasswordText);
        loading := false;
        return None;
      }
      inFlight := inFlight + 1;
      request := Some(PasswordChange(currentPassword, newPassword));
    }

    /**
     * The rest of `handleSubmit`, once the service has answered.  Success is set only when both
     * re-authentication and the update succeeded; any failure sets the message for its code; in
     * every case loading ends.  `incorrectPasswordText` is `texts.incorrectCurrentPassword` as the
     * catch reads it.
     */
    method FinishSubmit(outcome: SubmitOutcome, incorrectPasswordText: string)
      requires Valid() && inFlight > 0
      modifies this
      ensures Valid()
      ensures !loading && inFlight == old(inFlight) - 1
      ensures success == (old(success) || outcome.PasswordUpdated?)
      ensures error == if outcome.PasswordUpdated? then old(error) else ErrorMessage(FailureCode(outcome), incorrectPasswordText)
      ensures currentPassword == old(currentPassword) && newPassword == old(newPassword)
      ensures confirmNewPassword == old(confirmNewPassword)
    {
      if outcome.PasswordUpdated? {
        success := true;
      } else {
        error := ErrorMessage(FailureCode(outcome), incorrectPasswordText);
      }
      loading := false;
      inFlight := inFlight - 1;
    }
  }
}
