/**
 * The page a password-recovery link opens: it checks for the session the link
 * brings, and its form sets a new password once both fields agree.
 */
module ResetPassword {
  import opened Wrappers
  import opened Store

  const InvalidLink := "El enlace de recuperación es inválido o ha expirado."
  const Mismatch := "Las contraseñas no coinciden."
  const UpdateFailedFallback := "No se pudo actualizar la contraseña."

  /** The submit button's `disabled={loading || error !== "" && !password}`:
      `&&` binds tighter, so loading alone disables it, and otherwise it is
      disabled only by an error shown over an empty password. */
  function SubmitDisabled(loading: bool, error: string, password: string): (r: bool)
    ensures loading ==> r
    ensures !loading && password != "" ==> !r
    ensures !loading && password == "" ==> (r <==> error != "")
  {
    loading || (error != "" && password == "")
  }

  /** Read the other way round, `(loading || error !== "") && !password`, the
      button would stay enabled while loading with a password typed. */
  lemma LoadingDisablesWhatTheOtherGroupingWouldNot(error: string, password: string)
    requires password != ""
    ensures SubmitDisabled(true, error, password)
    ensures !((true || error != "") && password == "")
  {
  }

  class ResetPasswordPage {
    var password: string
    var confirmPassword: string
    var loading: bool
    var error: string
    var success: bool
    /** The new passwords sent to the auth service, in order. */
    var updates: seq<string>

    constructor ()
      ensures password == "" && confirmPassword == "" && !loading && error == "" && !success
      ensures updates == []
    {
      password := "";
      confirmPassword := "";
      loading := false;
      error := "";
      success := false;
      updates := [];
    }

    predicate Disabled()
      reads this
    {
      SubmitDisabled(loading, error, password)
    }

    /** The mount effect's answer from `auth.getSession()`. */
    method SessionChecked(hasSession: bool)
      modifies this`error
      ensures !hasSession ==> error == InvalidLink
      ensures hasSession ==> error == old(error)
    {
      if !hasSession {
        error := InvalidLink;
      }
    }

    method PasswordChanged(value: string)
      modifies this`password
      ensures password == value
    {
      password := value;
    }

    method ConfirmChanged(value: string)
      modifies this`confirmPassword
      ensures confirmPassword == value
    {
      confirmPassword := value;
    }

    /** The form's submit, with the auth service's answer to the update (used
        only when one is sent). */
    method HandleReset(answer: Outcome)
      modifies this`loading, this`error, this`success, this`updates
      ensures password != confirmPassword ==>
        error == Mismatch && loading == old(loading) && success == old(success) && updates == old(updates)
      ensures password == confirmPassword ==> updates == old(updates) + [password] && !loading
      ensures password == confirmPassword && answer.Ok? ==> success && error == ""
      ensures password == confirmPassword && answer.Failed? ==>
        success == old(success) && error == OrElse(answer.message, UpdateFailedFallback)
    {
      if password != confirmPassword {
        error := Mismatch;
        return;
      }
      loading := true;
      error := "";
      updates := updates + [password];
      if answer.Ok? {
        success := true;
      } else {
        error := OrElse(answer.message, UpdateFailedFallback);
      }
      loading := false;
    }
  }
}
