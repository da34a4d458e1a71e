/**
 * The client-side signup form: password checks, the auth sign-up call, the
 * profile row, and where the user is sent afterwards.
 */
module SignupForm {
  import opened Wrappers
  import opened Passwords

  /** What the auth service answered; `identities` is the length of the user's identity list, `None` when absent. */
  datatype SignUpAnswer =
    | SignUpFailed(message: string)
    | NoUser
    | SignedUp(userId: string, identities: Option<nat>)

  /** The sign-up call's arguments. */
  datatype SignUpCall = SignUpCall(email: string, password: string, fullName: string)

  /** The row inserted into `profiles`. */
  datatype ProfileRow = ProfileRow(id: string, username: string, fullName: string)

  /** Where the form sends a newly signed-up user. */
  function AfterSignUpTarget(identities: Option<nat>): (target: string)
    ensures target == "/signup-success" <==> identities == Some(0)
    ensures target != "/signup-success" ==> target == "/dashboard"
  {
    if identities.Some? && identities.value == 0 then "/signup-success" else "/dashboard"
  }

  class SignupForm {
    var loading: bool
    var error: Option<string>

    constructor ()
      ensures !loading && error == None
    {
      loading := false;
      error := None;
    }

    /**
     * `handleSignUp`. `answer` is the auth service's reply and `profileError`
     * the insert's error, if any. A failed profile insert is reported but the
     * auth user is left in place.
     */
    method HandleSignUp(email: string, password: string, confirmPassword: string, fullName: string,
                        username: string, answer: SignUpAnswer, profileError: Option<string>)
      returns (call: Option<SignUpCall>, profile: Option<ProfileRow>, redirect: Option<string>)
      modifies this`loading, this`error
      ensures call.Some? <==> PasswordProblem(password, confirmPassword).None?
      ensures call.Some? ==> call.value == SignUpCall(email, password, fullName)
      ensures profile.Some? <==> call.Some? && answer.SignedUp?
      ensures profile.Some? ==> profile.value == ProfileRow(answer.userId, username, fullName)
      ensures redirect.Some? <==> profile.Some? && profileError.None?
      ensures redirect.Some? ==> redirect.value == AfterSignUpTarget(answer.identities)
      ensures error ==
        if call.None? then PasswordProblem(password, confirmPassword)
        else if answer.SignUpFailed? then Some(answer.message)
        else if profile.Some? && profileError.Some? then profileError
        else None
      ensures !loading
    {
      loading := true;
      error := None;
      call, profile, redirect := None, None, None;

      var problem := PasswordProblem(password, confirmPassword);
      if problem.Some? {
        error := problem;
        loading := false;
        return;
      }

      call := Some(SignUpCall(email, password, fullName));
      match answer {
        case SignUpFailed(message) =>
          error := Some(message);
        case NoUser =>
        case SignedUp(userId, identities) =>
          profile := Some(ProfileRow(userId, username, fullName));
          if profileError.Some? {
            error := profileError;
          } else {
            redirect := Some(AfterSignUpTarget(identities));
          }
      }
      loading := false;
    }
  }
}
