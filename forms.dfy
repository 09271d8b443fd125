/**
 * The submit handlers of the sign-up and log-in forms. Each clears the
 * error, runs its checks in a fixed order and ends with either an error
 * message or the callback receiving `{ username }`.
 */
module Forms {
  import opened Base
  import opened UserRecord

  /** The form's error text after the submit, and the record handed to the callback, if any. */
  datatype Submission = Submission(error: string, submitted: Option<User>)

  const MismatchError := "Passwords do not match"
  const LengthError := "Password must be at least 6 characters long"
  const MinPasswordLength := 6
  const CredentialsError := "Invalid username or password"
  const DemoUsername := "user"
  const DemoPassword := "password123"

  /**
   * Signup's handleSubmit. `previousError` is what the form showed before;
   * the handler never reads it, and it is a parameter only so that
   * `SubmitClearsPreviousError` can state that it is cleared.
   */
  function SubmitSignup(previousError: string, username: string, password: string, confirmPassword: string): (r: Submission)
    ensures r.submitted.Some? <==> password == confirmPassword && |password| >= MinPasswordLength
    ensures r.submitted.Some? ==> r.submitted.value == User(username) && r.error == ""
    ensures password != confirmPassword ==> r == Submission(MismatchError, None)
    ensures password == confirmPassword && |password| < MinPasswordLength ==> r == Submission(LengthError, None)
  {
    var error := "";
    if password != confirmPassword then Submission(MismatchError, None)
    else if |password| < MinPasswordLength then Submission(LengthError, None)
    else Submission(error, Some(User(username)))
  }

  /** Login's handleSubmit against the fixed demo credentials; `previousError` as for sign-up. */
  function SubmitLogin(previousError: string, username: string, password: string): (r: Submission)
    ensures r.submitted.Some? <==> username == DemoUsername && password == DemoPassword
    ensures r.submitted.Some? ==> r.submitted.value == User(username) && r.error == ""
    ensures r.submitted.None? ==> r.error == CredentialsError
  {
    var error := "";
    if username == DemoUsername && password == DemoPassword then Submission(error, Some(User(username)))
    else Submission(CredentialsError, None)
  }

  /** The earlier error never survives a submit: the outcome depends on the fields alone. */
  lemma SubmitClearsPreviousError(e1: string, e2: string, username: string, password: string, confirmPassword: string)
    ensures SubmitSignup(e1, username, password, confirmPassword) == SubmitSignup(e2, username, password, confirmPassword)
    ensures SubmitLogin(e1, username, password) == SubmitLogin(e2, username, password)
  {
  }

  /** The password is not passed on: any two accepted passwords hand over the same record. */
  lemma SignupForgetsPassword(e: string, username: string, p1: string, p2: string)
    requires |p1| >= MinPasswordLength && |p2| >= MinPasswordLength
    ensures SubmitSignup(e, username, p1, p1).submitted == SubmitSignup(e, username, p2, p2).submitted == Some(User(username))
  {
  }

  /** The mismatch check comes first: a short pair that differs reports the mismatch. */
  lemma MismatchReportedBeforeLength(e: string, username: string, password: string, confirmPassword: string)
    requires password != confirmPassword && |password| < MinPasswordLength
    ensures SubmitSignup(e, username, password, confirmPassword).error == MismatchError
  {
  }
}
