/** Choosing a new password after following a reset link. */
module PasswordResetForm {
  import opened Wrappers
  import opened Passwords

  const InvalidLinkMessage := "Invalid or expired reset link. Please request a new password reset."
  const SuccessMessage := "Password updated successfully!"
  const RedirectDelayMs := 2000

  /** A navigation scheduled after a delay. */
  datatype Navigation = Navigation(target: string, delayMs: nat)

  class PasswordResetForm {
    var loading: bool
    var error: Option<string>
    var message: Option<string>

    constructor ()
      ensures !loading && error == None && message == None
    {
      loading := false;
      error := None;
      message := None;
    }

    /** The mount-time session check: an error marks the link invalid. */
    method CheckSession(sessionFails: bool)
      modifies this`error
      ensures error == if sessionFails then Some(InvalidLinkMessage) else old(error)
    {
      if sessionFails {
        error := Some(InvalidLinkMessage);
      }
    }

    /**
     * `handlePasswordUpdate`. `updateError` is the auth service's error for
     * `updateUser`, if any.
     */
    method HandlePasswordUpdate(password: string, confirmPassword: string, updateError: Option<string>)
      returns (updateCalled: bool, redirect: Option<Navigation>)
      modifies this`loading, this`error, this`message
      ensures updateCalled <==> PasswordProblem(password, confirmPassword).None?
      ensures !updateCalled ==> error == PasswordProblem(password, confirmPassword) && message == None
      ensures updateCalled ==> error == updateError
      ensures updateCalled && updateError.None? ==> message == Some(SuccessMessage)
      ensures updateCalled && updateError.Some? ==> message == None
      ensures redirect.Some? <==> updateCalled && updateError.None?
      ensures redirect.Some? ==> redirect.value == Navigation("/login", RedirectDelayMs)
      ensures !loading
    {
      loading := true;
      error := None;
      message := None;
      redirect := None;

      var problem := PasswordProblem(password, confirmPassword);
      if problem.Some? {
        error := problem;
        loading := false;
        return false, None;
      }

      updateCalled := true;
      if updateError.Some? {
        error := updateError;
      } else {
        message := Some(SuccessMessage);
        redirect := Some(Navigation("/login", RedirectDelayMs));
      }
      loading := false;
    }
  }
}
