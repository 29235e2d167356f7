/**
 * The login/sign-up page: each submit clears the messages and starts loading,
 * and its delayed completion is a separate step that works on the credentials
 * captured when the submit happened.
 */
module AuthPage {

  const DemoEmail := "test@example.com"
  const DemoPassword := "password"
  const LoginSuccess := "Login successful! Redirecting..."
  const LoginFailure := "Invalid email or password. Please try again."
  const SignupSuccess := "Signup successful! Please check your email to verify."

  /** The email and password a submit handler's timer closes over. */
  datatype Credentials = Credentials(email: string, password: string)

  /** The simulated back end accepts only the demo account. */
  predicate LoginAccepted(c: Credentials) {
    c.email == DemoEmail && c.password == DemoPassword
  }

  class AuthForm {
    var email: string
    var password: string
    var isLoginMode: bool
    var error: string
    var successMessage: string
    var isLoading: bool

    constructor ()
      ensures email == "" && password == "" && isLoginMode
      ensures error == "" && successMessage == "" && !isLoading
    {
      email := "";
      password := "";
      isLoginMode := true;
      error := "";
      successMessage := "";
      isLoading := false;
    }

    /** `handleLogin` up to the timer: returns what the completion will see. */
    method StartLogin() returns (captured: Credentials)
      modifies this`error, this`successMessage, this`isLoading
      ensures captured == Credentials(email, password)
      ensures error == "" && successMessage == "" && isLoading
    {
      error := "";
      successMessage := "";
      isLoading := true;
      captured := Credentials(email, password);
    }

    /** The login timer's callback. */
    method CompleteLogin(captured: Credentials)
      modifies this`error, this`successMessage, this`isLoading
      ensures !isLoading
      ensures LoginAccepted(captured) ==> successMessage == LoginSuccess && error == old(error)
      ensures !LoginAccepted(captured) ==> error == LoginFailure && successMessage == old(successMessage)
    {
      isLoading := false;
      if captured.email == DemoEmail && captured.password == DemoPassword {
        successMessage := LoginSuccess;
      } else {
        error := LoginFailure;
      }
    }

    /** `handleSignup` up to the timer. */
    method StartSignup()
      modifies this`error, this`successMessage, this`isLoading
      ensures error == "" && successMessage == "" && isLoading
    {
      error := "";
      successMessage := "";
      isLoading := true;
    }

    /** The sign-up timer's callback: the simulated sign-up always succeeds. */
    method CompleteSignup()
      modifies this`successMessage, this`isLoading
      ensures !isLoading && successMessage == SignupSuccess
    {
      isLoading := false;
      successMessage := SignupSuccess;
    }

    /** `handleGoogleLogin` */
    method GoogleLogin()
      modifies this`error, this`successMessage
      ensures error == "" && successMessage == ""
    {
      error := "";
      successMessage := "";
    }

    /** `handleGitHubLogin` */
    method GitHubLogin()
      modifies this`error, this`successMessage
      ensures error == "" && successMessage == ""
    {
      error := "";
      successMessage := "";
    }

    /** `toggleMode`: the entered email and password are kept. */
    method ToggleMode()
      modifies this`isLoginMode, this`error, this`successMessage
      ensures isLoginMode == !old(isLoginMode)
      ensures error == "" && successMessage == ""
    {
      isLoginMode := !isLoginMode;
      error := "";
      successMessage := "";
    }

    /** `handleEmailChange`: the messages are cleared only when one is showing, so both end up empty. */
    method EmailChange(value: string)
      modifies this`email, this`error, this`successMessage
      ensures email == value && error == "" && successMessage == ""
    {
      email := value;
      if error != "" || successMessage != "" {
        error := "";
        successMessage := "";
      }
    }

    /** `handlePasswordChange` */
    method PasswordChange(value: string)
      modifies this`password, this`error, this`successMessage
      ensures password == value && error == "" && successMessage == ""
    {
      password := value;
      if error != "" || successMessage != "" {
        error := "";
        successMessage := "";
      }
    }
  }

  /**
   * A full login round: whatever the page showed before, afterwards it is not
   * loading and shows exactly one of the two messages, decided by the credentials.
   */
  method LoginRound(page: AuthForm)
    modifies page
    ensures !page.isLoading
    ensures LoginAccepted(Credentials(old(page.email), old(page.password))) <==>
              page.successMessage == LoginSuccess && page.error == ""
    ensures !LoginAccepted(Credentials(old(page.email), old(page.password))) <==>
              page.error == LoginFailure && page.successMessage == ""
  {
    var captured := page.StartLogin();
    page.CompleteLogin(captured);
  }

  /** Toggling the mode twice restores it and leaves no message showing. */
  method ToggleTwice(page: AuthForm)
    modifies page
    ensures page.isLoginMode == old(page.isLoginMode)
    ensures page.error == "" && page.successMessage == ""
    ensures page.email == old(page.email) && page.password == old(page.password)
  {
    page.ToggleMode();
    page.ToggleMode();
  }
}
