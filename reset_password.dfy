/**
 * The new-password form of
 * src/app/features/auth/reset-password/reset-password.component.ts: the
 * password and its confirmation, the messages shown under them, and the
 * submit flags. The backend's answer to the update is an input.
 */
module ResetPassword {
  import opened Wrappers
  import opened Validation
  import opened Toasts

  const PASSWORD: string := "password"
  const CONFIRM: string := "confirmPassword"

  const REQUIRED_MESSAGE: string := "Este campo es requerido"
  const MIN_LENGTH_MESSAGE: string := "Mínimo 8 caracteres"
  const PATTERN_MESSAGE: string := "Debe tener mayús., minús., número y símbolo"
  const MISMATCH_MESSAGE: string := "Las contraseñas no coinciden"
  const UPDATED_MESSAGE: string := "Contraseña actualizada con éxito"
  const DEFAULT_ERROR: string := "Error al actualizar la contraseña"

  /** `resetForm.invalid`: a control fails or the two fields differ. */
  predicate FormInvalid(password: string, confirm: string)
  {
    !PasswordControlValid(password) || RequiredError(confirm) || Mismatch(password, confirm)
  }

  /**
   * `getErrorMessage`: '' for an unknown or untouched control; otherwise the
   * first of required, minimum length, the policy and (on the confirmation)
   * the mismatch.
   */
  function ErrorMessage(field: string, password: string, confirm: string, touched: set<string>): string
  {
    if field !in {PASSWORD, CONFIRM} || field !in touched then ""
    else
      var value := if field == PASSWORD then password else confirm;
      var isPassword := field == PASSWORD;
      if RequiredError(value) then REQUIRED_MESSAGE
      else if isPassword && MinLengthError(value, 8) then MIN_LENGTH_MESSAGE
      else if isPassword && PatternError(value) then PATTERN_MESSAGE
      else if field == CONFIRM && Mismatch(password, confirm) then MISMATCH_MESSAGE
      else ""
  }

  /** Nothing shows under an untouched or unknown control. */
  lemma QuietUntilTouched(field: string, password: string, confirm: string, touched: set<string>)
    requires field !in touched || field !in {PASSWORD, CONFIRM}
    ensures ErrorMessage(field, password, confirm, touched) == ""
  {
  }

  /** The password: required, then the length, then the policy. */
  lemma PasswordMessages(password: string, confirm: string, touched: set<string>)
    requires PASSWORD in touched
    ensures var m := ErrorMessage(PASSWORD, password, confirm, touched);
            (m == REQUIRED_MESSAGE <==> password == "") &&
            (m == MIN_LENGTH_MESSAGE <==> 0 < |password| < 8) &&
            (m == PATTERN_MESSAGE <==> |password| >= 8 && !StrongPassword(password)) &&
            (m == "" <==> StrongPassword(password))
  {
    PasswordControlIsPolicy(password);
  }

  /** The confirmation: required, then the mismatch. */
  lemma ConfirmMessages(password: string, confirm: string, touched: set<string>)
    requires CONFIRM in touched
    ensures var m := ErrorMessage(CONFIRM, password, confirm, touched);
            (m == REQUIRED_MESSAGE <==> confirm == "") &&
            (m == MISMATCH_MESSAGE <==> confirm != "" && password != confirm) &&
            (m == "" <==> confirm != "" && password == confirm)
  {
  }

  /** With both controls touched, the form is invalid exactly when a message shows. */
  lemma InvalidFormShowsAMessage(password: string, confirm: string)
    ensures var all := {PASSWORD, CONFIRM};
            FormInvalid(password, confirm) <==>
              ErrorMessage(PASSWORD, password, confirm, all) != "" || ErrorMessage(CONFIRM, password, confirm, all) != ""
  {
    var all := {PASSWORD, CONFIRM};
    PasswordMessages(password, confirm, all);
    ConfirmMessages(password, confirm, all);
    PasswordControlIsPolicy(password);
  }

  /** The message of a failed update: the error's own message when it has one. */
  function FailureMessage(errorMessage: Option<string>): (m: string)
    ensures m != ""
    ensures errorMessage.Some? && errorMessage.value != "" ==> m == errorMessage.value
    ensures errorMessage.None? || errorMessage.value == "" ==> m == DEFAULT_ERROR
  {
    if errorMessage.Some? && errorMessage.value != "" then errorMessage.value else DEFAULT_ERROR
  }

  class ResetPasswordComponent {
    var password: string
    var confirmPassword: string
    var touched: set<string>
    var isLoading: bool
    var isSubmitted: bool
    var showPassword: bool
    var showConfirmPassword: bool
    var errorMessage: Option<string>

    constructor ()
      ensures password == "" && confirmPassword == "" && touched == {}
      ensures !isLoading && !isSubmitted && !showPassword && !showConfirmPassword && errorMessage.None?
    {
      password, confirmPassword := "", "";
      touched := {};
      isLoading, isSubmitted, showPassword, showConfirmPassword := false, false, false, false;
      errorMessage := None;
    }

    /** `getErrorMessage` on the current form. */
    function GetErrorMessage(field: string): (m: string)
      reads this
      ensures field !in touched ==> m == ""
    {
      ErrorMessage(field, password, confirmPassword, touched)
    }

    /**
     * `onSubmit`: an invalid form marks both controls touched and sends
     * nothing; a valid one starts loading, clears the error and sends the
     * new password, which then meets the policy.
     */
    method OnSubmit() returns (newPassword: Option<string>)
      modifies this
      ensures password == old(password) && confirmPassword == old(confirmPassword)
      ensures isSubmitted == old(isSubmitted) && showPassword == old(showPassword) &&
              showConfirmPassword == old(showConfirmPassword)
      ensures newPassword.None? <==> FormInvalid(password, confirmPassword)
      ensures newPassword.None? ==>
                touched == old(touched) + {PASSWORD, CONFIRM} &&
                isLoading == old(isLoading) && errorMessage == old(errorMessage)
      ensures newPassword.Some? ==>
                newPassword.value == password && StrongPassword(password) && password == confirmPassword &&
                touched == old(touched) && isLoading && errorMessage.None?
    {
      if FormInvalid(password, confirmPassword) {
        touched := touched + {PASSWORD, CONFIRM};
        return None;
      }
      PasswordControlIsPolicy(password);
      isLoading := true;
      errorMessage := None;
      newPassword := Some(password);
    }

    /**
     * The answer to the update: success ends loading, marks the form
     * submitted and asks for a success toast; a failure ends loading and
     * shows the error's message, leaving `isSubmitted` as it was.
     */
    method UpdateFinished(failure: Option<Option<string>>) returns (toast: Option<ToastRequest>)
      modifies this
      ensures !isLoading
      ensures isSubmitted == (old(isSubmitted) || failure.None?)
      ensures failure.None? ==>
                toast == Some(ToastRequest(Success, UPDATED_MESSAGE)) && errorMessage == old(errorMessage)
      ensures failure.Some? ==> toast.None? && errorMessage == Some(FailureMessage(failure.value))
      ensures password == old(password) && confirmPassword == old(confirmPassword) && touched == old(touched)
      ensures showPassword == old(showPassword) && showConfirmPassword == old(showConfirmPassword)
    {
      isLoading := false;
      if failure.Some? {
        errorMessage := Some(FailureMessage(failure.value));
        return None;
      }
      isSubmitted := true;
      toast := Some(ToastRequest(Success, UPDATED_MESSAGE));
    }

    method TogglePasswordVisibility()
      modifies this
      ensures showPassword == !old(showPassword) && showConfirmPassword == old(showConfirmPassword)
      ensures password == old(password) && confirmPassword == old(confirmPassword) && touched == old(touched)
      ensures isLoading == old(isLoading) && isSubmitted == old(isSubmitted) && errorMessage == old(errorMessage)
    {
      showPassword := !showPassword;
    }

    method ToggleConfirmPasswordVisibility()
      modifies this
      ensures showConfirmPassword == !old(showConfirmPassword) && showPassword == old(showPassword)
      ensures password == old(password) && confirmPassword == old(confirmPassword) && touched == old(touched)
      ensures isLoading == old(isLoading) && isSubmitted == old(isSubmitted) && errorMessage == old(errorMessage)
    {
      showConfirmPassword := !showConfirmPassword;
    }
  }
}
