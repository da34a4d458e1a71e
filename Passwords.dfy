/** The password checks shared by the signup and password-reset forms, in the order they run. */
module Passwords {
  import opened Wrappers

  const MismatchMessage := "Passwords don't match"
  const TooShortMessage := "Password must be at least 6 characters"
  const MinLength := 6

  /** The first failing check's message, or `None` when both pass. */
  function PasswordProblem(password: string, confirmPassword: string): (problem: Option<string>)
    ensures problem.None? <==> password == confirmPassword && |password| >= MinLength
    ensures password != confirmPassword ==> problem == Some(MismatchMessage)
    ensures password == confirmPassword && |password| < MinLength ==> problem == Some(TooShortMessage)
  {
    if password != confirmPassword then Some(MismatchMessage)
    else if |password| < MinLength then Some(TooShortMessage)
    else None
  }
}
