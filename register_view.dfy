/**
  `RegisterView`: the sign-up form. The button is enabled when the form is
  valid; `register()` hands the fields to the authentication manager and
  shows a fixed message when the call throws.
*/
module RegisterView {
  import opened Wrappers
  import opened ApiClient
  import opened AuthManager

  /** The least number of characters a password may have. */
  const MinPasswordLength := 6

  /** The message shown whatever `register` threw. */
  const RegistrationFailed := "Errore durante la registrazione. Riprova."

  /**
    `isValid`. The source also demands a non-empty password, which the
    length check already implies: the form is valid exactly when the three
    conditions below hold.
  */
  function IsValid(firstName: string, lastName: string, email: string, password: string, confirmPassword: string): (r: bool)
    ensures firstName == "" || lastName == "" || email == "" || password == "" ==> !r
    ensures |password| < MinPasswordLength ==> !r
    ensures password != confirmPassword ==> !r
    ensures r <==> (firstName != "" && lastName != "" && email != ""
      && |password| >= MinPasswordLength && password == confirmPassword)
  {
    firstName != [] && lastName != [] && email != [] && password != []
      && |password| >= MinPasswordLength && password == confirmPassword
  }

  class RegisterForm {
    var firstName: string
    var lastName: string
    var email: string
    var password: string
    var confirmPassword: string
    var isLoading: bool
    var errorMessage: Option<string>
    const auth: AuthenticationManager

    constructor (auth: AuthenticationManager)
      ensures this.auth == auth
      ensures firstName == "" && lastName == "" && email == "" && password == "" && confirmPassword == ""
      ensures !isLoading && errorMessage.None?
    {
      this.auth := auth;
      firstName := "";
      lastName := "";
      email := "";
      password := "";
      confirmPassword := "";
      isLoading := false;
      errorMessage := None;
    }

    /**
      `register()`: the previous error is cleared; the manager's session
      becomes what a registration with `outcome` makes it; a throw shows
      the fixed message; loading ends either way and the fields are kept.
    */
    method Register(outcome: Result<AuthResponse, Thrown>)
      modifies this, auth, auth.defaults
      ensures auth.State() == AfterAuth(old(auth.State()), outcome)
      ensures errorMessage == if outcome.Failure? then Some(RegistrationFailed) else None
      ensures !isLoading
      ensures firstName == old(firstName) && lastName == old(lastName) && email == old(email)
      ensures password == old(password) && confirmPassword == old(confirmPassword)
    {
      isLoading := true;
      errorMessage := None;
      var thrown := auth.Register(outcome);
      if thrown.Some? {
        errorMessage := Some(RegistrationFailed);
      }
      isLoading := false;
    }
  }
}
