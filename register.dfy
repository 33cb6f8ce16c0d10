/**
 * The registration form of src/app/features/auth/register/register.component.ts:
 * four text controls with their validators, the group's match validator, the
 * error message shown under a control, and the submit guard. The library's
 * e-mail test is the parameter `isEmail`; the backend's answer is an input.
 */
module Register {
  import opened Wrappers
  import opened Validation

  const NAME: string := "name"
  const EMAIL: string := "email"
  const PASSWORD: string := "password"
  const CONFIRM: string := "confirmPassword"

  const DEFAULT_ERROR: string := "Error al registrar usuario"

  datatype Values = Values(name: string, email: string, password: string, confirmPassword: string)

  /** What `register` is called with. */
  datatype RegisterRequest = RegisterRequest(name: string, email: string, password: string)

  /** The controls' own validators. */
  predicate NameValid(v: Values) { !RequiredError(v.name) && !MinLengthError(v.name, 2) }
  predicate EmailValid(v: Values, isEmail: string -> bool) { !RequiredError(v.email) && !EmailError(v.email, isEmail) }
  predicate ConfirmValid(v: Values) { !RequiredError(v.confirmPassword) }

  /** `registerForm.invalid`: a control fails or the group's match validator does. */
  predicate FormInvalid(v: Values, isEmail: string -> bool)
  {
    !NameValid(v) || !EmailValid(v, isEmail) || !PasswordControlValid(v.password) || !ConfirmValid(v) ||
    Mismatch(v.password, v.confirmPassword)
  }

  /**
   * `getErrorMessage`: '' for a control that does not exist or is untouched;
   * otherwise the first of required, e-mail, minimum length, the policy (on
   * the password only) and the mismatch (on the confirmation only).
   */
  function ErrorMessage(field: string, v: Values, touched: set<string>, isEmail: string -> bool): string
  {
    if field !in {NAME, EMAIL, PASSWORD, CONFIRM} || field !in touched then ""
    else
      var value := if field == NAME then v.name else if field == EMAIL then v.email
                   else if field == PASSWORD then v.password else v.confirmPassword;
      var minLength := if field == NAME then 2 else if field == PASSWORD then 8 else 0;
      if RequiredError(value) then "common.required"
      else if field == EMAIL && EmailError(value, isEmail) then "common.invalid_email"
      else if MinLengthError(value, minLength) then "common.min_length"
      else if field == PASSWORD && PatternError(value) then "common.password_pattern"
      else if field == CONFIRM && Mismatch(v.password, v.confirmPassword) then "common.password_mismatch"
      else ""
  }

  /** Nothing shows under an untouched or unknown control. */
  lemma QuietUntilTouched(field: string, v: Values, touched: set<string>, isEmail: string -> bool)
    requires field !in touched || field !in {NAME, EMAIL, PASSWORD, CONFIRM}
    ensures ErrorMessage(field, v, touched, isEmail) == ""
  {
  }

  /** The name: required, then at least two characters. */
  lemma NameMessages(v: Values, touched: set<string>, isEmail: string -> bool)
    requires NAME in touched
    ensures var m := ErrorMessage(NAME, v, touched, isEmail);
            (m == "common.required" <==> v.name == "") &&
            (m == "common.min_length" <==> |v.name| == 1) &&
            (m == "" <==> |v.name| >= 2) &&
            (m == "" <==> NameValid(v))
  {
  }

  /** The e-mail: required, then the address test; it has no length rule. */
  lemma EmailMessages(v: Values, touched: set<string>, isEmail: string -> bool)
    requires EMAIL in touched
    ensures var m := ErrorMessage(EMAIL, v, touched, isEmail);
            (m == "common.required" <==> v.email == "") &&
            (m == "common.invalid_email" <==> v.email != "" && !isEmail(v.email)) &&
            (m == "" <==> EmailValid(v, isEmail))
  {
  }

  /**
   * The password: required, then the length, then the policy; a mismatch is
   * never reported under it.
   */
  lemma PasswordMessages(v: Values, touched: set<string>, isEmail: string -> bool)
    requires PASSWORD in touched
    ensures var m := ErrorMessage(PASSWORD, v, touched, isEmail);
            (m == "common.required" <==> v.password == "") &&
            (m == "common.min_length" <==> 0 < |v.password| < 8) &&
            (m == "common.password_pattern" <==> |v.password| >= 8 && !StrongPassword(v.password)) &&
            (m == "" <==> StrongPassword(v.password))
  {
    PasswordControlIsPolicy(v.password);
  }

  /** The confirmation: required, then the mismatch with the password. */
  lemma ConfirmMessages(v: Values, touched: set<string>, isEmail: string -> bool)
    requires CONFIRM in touched
    ensures var m := ErrorMessage(CONFIRM, v, touched, isEmail);
            (m == "common.required" <==> v.confirmPassword == "") &&
            (m == "common.password_mismatch" <==> v.confirmPassword != "" && v.password != v.confirmPassword) &&
            (m == "" <==> ConfirmValid(v) && !Mismatch(v.password, v.confirmPassword))
  {
  }

  /**
   * Once every control is touched, the form is invalid exactly when some
   * control shows a message: a refused submit always tells the user why.
   */
  lemma InvalidFormShowsAMessage(v: Values, isEmail: string -> bool)
    ensures var all := {NAME, EMAIL, PASSWORD, CONFIRM};
            FormInvalid(v, isEmail) <==>
              ErrorMessage(NAME, v, all, isEmail) != "" || ErrorMessage(EMAIL, v, all, isEmail) != "" ||
              ErrorMessage(PASSWORD, v, all, isEmail) != "" || ErrorMessage(CONFIRM, v, all, isEmail) != ""
  {
    var all := {NAME, EMAIL, PASSWORD, CONFIRM};
    NameMessages(v, all, isEmail);
    EmailMessages(v, all, isEmail);
    PasswordMessages(v, all, isEmail);
    ConfirmMessages(v, all, isEmail);
    PasswordControlIsPolicy(v.password);
  }

  /** What a submitted request carries: a policy-strong, confirmed password, a name and an address. */
  lemma RequestIsValid(v: Values, isEmail: string -> bool)
    requires !FormInvalid(v, isEmail)
    ensures StrongPassword(v.password) && v.password == v.confirmPassword
    ensures |v.name| >= 2 && isEmail(v.email)
  {
    PasswordControlIsPolicy(v.password);
  }

  /** The message of a failed registration: the error's own message when it has one. */
  function FailureMessage(errorMessage: Option<string>): (m: string)
    ensures m != ""
    ensures errorMessage.Some? && errorMessage.value != "" ==> m == errorMessage.value
    ensures errorMessage.None? || errorMessage.value == "" ==> m == DEFAULT_ERROR
  {
    if errorMessage.Some? && errorMessage.value != "" then errorMessage.value else DEFAULT_ERROR
  }

  class RegisterComponent {
    var values: Values
    var touched: set<string>
    var isLoading: bool
    var showPassword: bool
    var showConfirmPassword: bool
    var errorMessage: Option<string>

    /** An empty form, nothing touched, both passwords hidden. */
    constructor ()
      ensures values == Values("", "", "", "") && touched == {}
      ensures !isLoading && !showPassword && !showConfirmPassword && errorMessage.None?
    {
      values := Values("", "", "", "");
      touched := {};
      isLoading, showPassword, showConfirmPassword := false, false, false;
      errorMessage := None;
    }

    /** `getErrorMessage` on the current form. */
    function GetErrorMessage(field: string, isEmail: string -> bool): (m: string)
      reads this
      ensures field !in touched ==> m == ""
    {
      ErrorMessage(field, values, touched, isEmail)
    }

    /**
     * `onSubmit`: an invalid form marks every control touched and sends
     * nothing; a valid one starts loading, clears the error and sends name,
     * e-mail and password.
     */
    method OnSubmit(isEmail: string -> bool) returns (request: Option<RegisterRequest>)
      modifies this
      ensures values == old(values) && showPassword == old(showPassword) &&
              showConfirmPassword == old(showConfirmPassword)
      ensures request.None? <==> FormInvalid(values, isEmail)
      ensures request.None? ==>
                touched == old(touched) + {NAME, EMAIL, PASSWORD, CONFIRM} &&
                isLoading == old(isLoading) && errorMessage == old(errorMessage)
      ensures request.Some? ==>
                request.value == RegisterRequest(values.name, values.email, values.password) &&
                StrongPassword(request.value.password) && request.value.password == values.confirmPassword &&
                touched == old(touched) && isLoading && errorMessage.None?
    {
      if FormInvalid(values, isEmail) {
        touched := touched + {NAME, EMAIL, PASSWORD, CONFIRM};
        return None;
      }
      RequestIsValid(values, isEmail);
      isLoading := true;
      errorMessage := None;
      request := Some(RegisterRequest(values.name, values.email, values.password));
    }

    /**
     * The answer to `register`: success ends loading (and navigates to the
     * dashboard); a failure ends loading and shows the error's message.
     */
    method RegisterFinished(failure: Option<Option<string>>) returns (navigate: bool)
      modifies this
      ensures !isLoading
      ensures navigate <==> failure.None?
      ensures failure.None? ==> errorMessage == old(errorMessage)
      ensures failure.Some? ==> errorMessage == Some(FailureMessage(failure.value))
      ensures values == old(values) && touched == old(touched)
      ensures showPassword == old(showPassword) && showConfirmPassword == old(showConfirmPassword)
    {
      isLoading := false;
      if failure.Some? {
        errorMessage := Some(FailureMessage(failure.value));
        return false;
      }
      navigate := true;
    }

    method TogglePasswordVisibility()
      modifies this
      ensures showPassword == !old(showPassword) && showConfirmPassword == old(showConfirmPassword)
      ensures values == old(values) && touched == old(touched) && isLoading == old(isLoading) &&
              errorMessage == old(errorMessage)
    {
      showPassword := !showPassword;
    }

    method ToggleConfirmPasswordVisibility()
      modifies this
      ensures showConfirmPassword == !old(showConfirmPassword) && showPassword == old(showPassword)
      ensures values == old(values) && touched == old(touched) && isLoading == old(isLoading) &&
              errorMessage == old(errorMessage)
    {
      showConfirmPassword := !showConfirmPassword;
    }
  }
}
