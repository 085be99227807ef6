/**
 * The change-password form (src/components/ChangePasswordForm.tsx).  The
 * `changePassword` call it makes is defined outside this model; its
 * outcome is a parameter of the submit handler, which returns the request
 * it passed to that call, if any.
 */
module ChangePassword {
  import opened Types

  const MismatchMessage: string := "La nueva contraseña y la confirmación no coinciden."
  const TooShortMessage: string := "La nueva contraseña debe tener al menos 6 caracteres."
  const SuccessMessage: string := "¡Contraseña actualizada con éxito!"
  const DefaultErrorMessage: string := "Ocurrió un error al cambiar la contraseña."

  /** The shortest accepted new password. */
  const MinLength: nat := 6

  /** The error thrown by `changePassword`: `err.info?.msg` and `err.message`. */
  datatype PasswordError = PasswordError(infoMsg: Option<string>, message: Option<string>)

  /** The request `changePassword` receives. */
  datatype PasswordChange = PasswordChange(currentPassword: string, newPassword: string)

  /**
   * The validation before the call: a mismatch is reported first, then a
   * new password shorter than six characters; `None` lets the call go.
   */
  function Validate(newPassword: string, confirmPassword: string): (error: Option<string>)
    ensures error == Some(MismatchMessage) <==> newPassword != confirmPassword
    ensures error == Some(TooShortMessage) <==> newPassword == confirmPassword && |newPassword| < MinLength
    ensures error.None? <==> newPassword == confirmPassword && |newPassword| >= MinLength
  {
    if newPassword != confirmPassword then Some(MismatchMessage)
    else if |newPassword| < MinLength then Some(TooShortMessage)
    else None
  }

  /** `err.info?.msg || err.message || default`: the first non-empty of the three. */
  function ErrorText(e: PasswordError): (text: string)
    ensures text != ""
    ensures e.infoMsg.Some? && e.infoMsg.value != "" ==> text == e.infoMsg.value
    ensures !(e.infoMsg.Some? && e.infoMsg.value != "") && e.message.Some? && e.message.value != "" ==> text == e.message.value
    ensures !(e.infoMsg.Some? && e.infoMsg.value != "") && !(e.message.Some? && e.message.value != "") ==> text == DefaultErrorMessage
  {
    if e.infoMsg.Some? && e.infoMsg.value != "" then e.infoMsg.value
    else if e.message.Some? && e.message.value != "" then e.message.value
    else DefaultErrorMessage
  }

  /** The form's state hooks; `onSuccessScheduled` records the `setTimeout` that calls `onSuccess`. */
  class ChangePasswordForm {
    var currentPassword: string
    var newPassword: string
    var confirmPassword: string
    var error: string
    var success: string
    var isSubmitting: bool
    var onSuccessScheduled: bool

    constructor ()
      ensures currentPassword == "" && newPassword == "" && confirmPassword == ""
      ensures error == "" && success == "" && !isSubmitting && !onSuccessScheduled
    {
      currentPassword, newPassword, confirmPassword := "", "", "";
      error, success := "", "";
      isSubmitting, onSuccessScheduled := false, false;
    }

    /**
     * `handleSubmit`.  Both messages are cleared first.  A failed
     * validation sets its message and makes no call.  Otherwise the call
     * is made with the current and new passwords; on success the success
     * message is set, the three fields are emptied and `onSuccess` is
     * scheduled; on failure the error text is set; either way the
     * submitting flag ends down.
     */
    method HandleSubmit(outcome: Outcome<PasswordError>) returns (request: Option<PasswordChange>)
      modifies this
      ensures request.Some? <==> Validate(old(newPassword), old(confirmPassword)).None?
      ensures request.Some? ==> request.value == PasswordChange(old(currentPassword), old(newPassword))
      ensures request.None? ==>
        error == Validate(old(newPassword), old(confirmPassword)).value && success == ""
        && currentPassword == old(currentPassword) && newPassword == old(newPassword) && confirmPassword == old(confirmPassword)
        && isSubmitting == old(isSubmitting) && onSuccessScheduled == old(onSuccessScheduled)
      ensures request.Some? && outcome.Pass? ==>
        success == SuccessMessage && error == ""
        && currentPassword == "" && newPassword == "" && confirmPassword == "" && onSuccessScheduled
      ensures request.Some? && outcome.Fail? ==>
        error == ErrorText(outcome.error) && success == ""
        && currentPassword == old(currentPassword) && newPassword == old(newPassword) && confirmPassword == old(confirmPassword)
        && onSuccessScheduled == old(onSuccessScheduled)
      ensures request.Some? ==> !isSubmitting
    {
      error := "";
      success := "";
      if newPassword != confirmPassword {
        error := MismatchMessage;
        return None;
      }
      if |newPassword| < MinLength {
        error := TooShortMessage;
        return None;
      }
      isSubmitting := true;
      request := Some(PasswordChange(currentPassword, newPassword));
      match outcome {
        case Pass =>
          success := SuccessMessage;
          currentPassword := "";
          newPassword := "";
          confirmPassword := "";
          onSuccessScheduled := true;
        case Fail(e) =>
          error := ErrorText(e);
      }
      isSubmitting := false;
    }
  }
}
