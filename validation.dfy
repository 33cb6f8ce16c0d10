/**
 * The form validators the registration and password-reset forms share: the
 * password policy `^(?=.*[a-z])(?=.*[A-Z])(?=.*\d)(?=.*[@$!%*?&]).{8,}$` and
 * the library validators as they treat a text control. `required` fails only
 * on the empty string; `minLength` and `pattern` pass the empty string and
 * leave it to `required`.
 */
module Validation {

  predicate IsLower(c: char) { 'a' <= c <= 'z' }
  predicate IsUpper(c: char) { 'A' <= c <= 'Z' }
  predicate IsDigit(c: char) { '0' <= c <= '9' }
  predicate IsSymbol(c: char) { c in "@$!%*?&" }

  /** The characters the regular expression's `.` does not match. */
  predicate IsLineTerminator(c: char)
  {
    c == '\n' || c == '\r' || c == '\U{2028}' || c == '\U{2029}'
  }

  predicate HasLower(s: string) { exists i :: 0 <= i < |s| && IsLower(s[i]) }
  predicate HasUpper(s: string) { exists i :: 0 <= i < |s| && IsUpper(s[i]) }
  predicate HasDigit(s: string) { exists i :: 0 <= i < |s| && IsDigit(s[i]) }
  predicate HasSymbol(s: string) { exists i :: 0 <= i < |s| && IsSymbol(s[i]) }

  /**
   * The policy: the anchored `.{8,}` asks for eight or more characters and no
   * line terminator; each look-ahead asks for one character of its class.
   */
  predicate StrongPassword(s: string)
  {
    |s| >= 8 && (forall i :: 0 <= i < |s| ==> !IsLineTerminator(s[i])) &&
    HasLower(s) && HasUpper(s) && HasDigit(s) && HasSymbol(s)
  }

  /** `Validators.required` fails. */
  predicate RequiredError(v: string) { v == "" }

  /** `Validators.minLength(n)` fails. */
  predicate MinLengthError(v: string, n: nat) { v != "" && |v| < n }

  /** `Validators.pattern` with the policy fails. */
  predicate PatternError(v: string) { v != "" && !StrongPassword(v) }

  /** `Validators.email` fails; the library's address test is the parameter `isEmail`. */
  predicate EmailError(v: string, isEmail: string -> bool) { v != "" && !isEmail(v) }

  /** `passwordMatchValidator`: the group error, set exactly when the two fields differ. */
  predicate Mismatch(password: string, confirm: string) { password != confirm }

  /** The three validators of a password control: required, minLength(8) and the policy. */
  predicate PasswordControlValid(v: string)
  {
    !RequiredError(v) && !MinLengthError(v, 8) && !PatternError(v)
  }

  /**
   * The policy subsumes the other two: a password control is valid exactly
   * when the policy holds, and a short non-empty password breaks the policy
   * too, so the minimum-length error never comes alone.
   */
  lemma PasswordControlIsPolicy(v: string)
    ensures PasswordControlValid(v) <==> StrongPassword(v)
    ensures MinLengthError(v, 8) ==> PatternError(v)
    ensures !RequiredError(v) && !MinLengthError(v, 8) <==> |v| >= 8
  {
  }

  /** One password of each kind the policy refuses, and one it takes. */
  lemma PolicyExamples()
    ensures StrongPassword("Secreto1!")
    ensures !StrongPassword("secreto1!")
    ensures !StrongPassword("SECRETO1!")
    ensures !StrongPassword("Secretos!")
    ensures !StrongPassword("Secreto12")
    ensures !StrongPassword("Sec1!")
    ensures !StrongPassword("Secreto1!\nx")
  {
    var good := "Secreto1!";
    assert IsUpper(good[0]) && IsLower(good[1]) && IsDigit(good[7]) && IsSymbol(good[8]);
    var noUpper := "secreto1!";
    assert forall i :: 0 <= i < |noUpper| ==> !IsUpper(noUpper[i]);
    var noLower := "SECRETO1!";
    assert forall i :: 0 <= i < |noLower| ==> !IsLower(noLower[i]);
    var noDigit := "Secretos!";
    assert forall i :: 0 <= i < |noDigit| ==> !IsDigit(noDigit[i]);
    var noSymbol := "Secreto12";
    assert forall i :: 0 <= i < |noSymbol| ==> !IsSymbol(noSymbol[i]);
    var twoLines := "Secreto1!\nx";
    assert IsLineTerminator(twoLines[9]);
  }
}
