/**
 * The sign-up form's submit handler: two ordered checks with fixed messages,
 * then the call to the identity provider, whose outcome is a parameter.
 */
module Signup {
  import opened Wrappers

  const MinPasswordLength := 6
  const TooShort := "Password must be at least 6 characters long"
  const Mismatch := "Passwords do not match"

  /** The password rule both forms enforce: long enough and confirmed. */
  predicate Acceptable(password: string, confirm: string) {
    |password| >= MinPasswordLength && password == confirm
  }

  /** handleSubmit's checks, length first and then the match: the validation error, if any. */
  function SignupCheck(password: string, confirm: string): (r: Option<string>)
    ensures r.None? <==> Acceptable(password, confirm)
    ensures |password| < MinPasswordLength ==> r == Some(TooShort)
    ensures |password| >= MinPasswordLength && password != confirm ==> r == Some(Mismatch)
  {
    if |password| < MinPasswordLength then Some(TooShort)
    else if password != confirm then Some(Mismatch)
    else None
  }

  /** The form's state slots that handleSubmit writes. */
  datatype SignupState = SignupState(validationError: string, isSubmitting: bool)

  /** The state after a submit, and whether `signUp` was called and the user sent home. */
  datatype SubmitResult = SubmitResult(state: SignupState, signUpCalled: bool, navigatedHome: bool)

  /**
   * handleSubmit. The previous validation error is cleared first; `signUpSucceeds`
   * is the outcome of the provider's sign-up, consulted only when it is called.
   */
  function HandleSubmit(s: SignupState, password: string, confirm: string, signUpSucceeds: bool): (r: SubmitResult)
    ensures r.signUpCalled <==> Acceptable(password, confirm)
    ensures !r.signUpCalled ==>
      && r.state.validationError == SignupCheck(password, confirm).value
      && r.state.validationError != ""
      && r.state.isSubmitting == s.isSubmitting
      && !r.navigatedHome
    ensures r.signUpCalled ==>
      && r.state.validationError == ""
      && r.state.isSubmitting == signUpSucceeds
      && r.navigatedHome == signUpSucceeds
  {
    var cleared := s.(validationError := "");
    match SignupCheck(password, confirm)
    case Some(message) => SubmitResult(cleared.(validationError := message), false, false)
    case None =>
      var submitting := cleared.(isSubmitting := true);
      if signUpSucceeds then SubmitResult(submitting, true, true)
      else SubmitResult(submitting.(isSubmitting := false), true, false)
  }

  /** `error || validationError`: the provider's error wins; nothing is shown when both are empty. */
  function DisplayedError(authError: Option<string>, validationError: string): (r: Option<string>)
    ensures authError.Some? && authError.value != "" ==> r == authError
    ensures r.None? <==> (authError.None? || authError.value == "") && validationError == ""
    ensures r.Some? ==> r.value != ""
    ensures (authError.None? || authError.value == "") && validationError != "" ==> r == Some(validationError)
  {
    if authError.Some? && authError.value != "" then authError
    else if validationError != "" then Some(validationError)
    else None
  }

  /** A short password that is also mismatched reports the length. */
  lemma ShortMismatchReportsLength(password: string, confirm: string)
    requires |password| < MinPasswordLength && password != confirm
    ensures HandleSubmit(SignupState("", false), password, confirm, true).state.validationError == TooShort
  {
  }
}
