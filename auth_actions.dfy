/**
 * The login form's server action: run the credentials sign-in and turn its
 * outcome into a message for the form, rethrowing anything that is not an
 * authentication error.
 */
module AuthActions {
  import opened Wrappers
  import Auth
  import opened Types

  /** What `signIn` can throw: an `AuthError` with its `type`, or any other error. */
  datatype Error = AuthError(kind: string) | OtherError(message: string)

  datatype SignInOutcome = SignedIn | Threw(error: Error)

  /** The form state the action returns. */
  datatype AuthState = Success | Failure(error: string)

  /** The action either returns a state or lets an error escape. */
  datatype Outcome = Returned(state: AuthState) | Rethrown(error: Error)

  const InvalidCredentials: string := "Credenziali non valide."
  const SomethingWentWrong: string := "Qualcosa è andato storto."

  /**
   * How the framework's credentials sign-in ends: when `authorize` yields no
   * user it throws an `AuthError` of type `CredentialsSignin`.
   */
  function CredentialsSignIn(authorized: Option<Auth.User>): SignInOutcome
  {
    if authorized.Some? then SignedIn else Threw(AuthError("CredentialsSignin"))
  }

  /** `authenticate`. */
  function Authenticate(outcome: SignInOutcome): (o: Outcome)
    // Only authentication errors become messages; everything else escapes untouched.
    ensures o.Rethrown? <==> outcome.Threw? && outcome.error.OtherError?
    ensures o.Rethrown? ==> o.error == outcome.error
    ensures o == Returned(Success) <==> outcome.SignedIn?
    ensures o.Returned? && o.state.Failure? ==>
      o.state.error in {InvalidCredentials, SomethingWentWrong}
  {
    match outcome
    case SignedIn => Returned(Success)
    case Threw(AuthError(kind)) =>
      if kind == "CredentialsSignin" then Returned(Failure(InvalidCredentials))
      else Returned(Failure(SomethingWentWrong))
    case Threw(e) => Rethrown(e)
  }

  lemma CredentialsSigninMessage()
    ensures Authenticate(Threw(AuthError("CredentialsSignin"))) == Returned(Failure(InvalidCredentials))
  {
  }

  lemma OtherAuthErrorMessage(kind: string)
    requires kind != "CredentialsSignin"
    ensures Authenticate(Threw(AuthError(kind))) == Returned(Failure(SomethingWentWrong))
  {
  }

  /**
   * The login form cannot tell an unknown e-mail from a wrong password: both
   * give the same message.
   */
  lemma UnknownEmailLooksLikeWrongPassword(
    unknown: Auth.Credentials, wrong: Auth.Credentials, rows: seq<Dipendente>, row: Dipendente,
    isEmail: string -> bool, compare: (string, string) -> bool)
    requires unknown.email.Some? && forall k :: 0 <= k < |rows| ==> rows[k].email != unknown.email.value
    requires wrong.email.Some? && wrong.password.Some? && Auth.FindByEmail(rows, wrong.email.value) == Some(row)
    requires row.password.Some? && !compare(wrong.password.value, row.password.value)
    ensures Authenticate(CredentialsSignIn(Auth.Authorize(unknown, rows, isEmail, compare)))
         == Authenticate(CredentialsSignIn(Auth.Authorize(wrong, rows, isEmail, compare)))
         == Returned(Failure(InvalidCredentials))
  {
    Auth.UnknownEmailRejected(unknown, rows, isEmail, compare);
    Auth.WrongPasswordRejected(wrong, rows, row, isEmail, compare);
  }
}
