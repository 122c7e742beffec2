/** The login form (app/screens/LoginScreen.tsx): two required fields, then
    the session's `login` call. */
module Login {
  import opened Js

  const EMAIL_REQUIRED := "Email is required"
  const PASSWORD_REQUIRED := "Password is required"
  const LOGIN_FAILED := "Invalid email or password"

  /** The arguments of `login(email, password)`. */
  datatype LoginCall = LoginCall(email: string, password: string)

  /** `login` is called exactly when neither field is blank, with the values
      as typed. */
  function LoginDecision(email: string, password: string): (r: Option<LoginCall>)
    ensures r.Some? <==> !IsBlank(email) && !IsBlank(password)
    ensures r.Some? ==> r.value == LoginCall(email, password)
  {
    if IsBlank(email) || IsBlank(password) then None else Some(LoginCall(email, password))
  }

  class Screen {
    var email: string
    var password: string
    var isLoading: bool
    var emailError: string
    var passwordError: string

    constructor ()
      ensures email == "" && password == "" && !isLoading && emailError == "" && passwordError == ""
    {
      email := "";
      password := "";
      isLoading := false;
      emailError := "";
      passwordError := "";
    }

    /** The email input's `onChangeText`: the email is stored lowercased. */
    method EditEmail(text: string)
      modifies this`email, this`emailError
      ensures email == Lower(text) && emailError == ""
    {
      email := Lower(text);
      if emailError != "" {
        emailError := "";
      }
    }

    method EditPassword(text: string)
      modifies this`password, this`passwordError
      ensures password == text && passwordError == ""
    {
      password := text;
      if passwordError != "" {
        passwordError := "";
      }
    }

    /** `handleLogin` up to its `await`: both errors are cleared, both checks
        always run, and the call is made only when neither sets an error. */
    method HandleLogin() returns (call: Option<LoginCall>)
      modifies this`emailError, this`passwordError, this`isLoading
      ensures emailError == RequiredError(email, EMAIL_REQUIRED)
      ensures passwordError == RequiredError(password, PASSWORD_REQUIRED)
      ensures call == LoginDecision(email, password)
      ensures isLoading == (call.Some? || old(isLoading))
    {
      emailError := "";
      passwordError := "";
      var hasError := false;
      if IsBlank(email) {
        emailError := EMAIL_REQUIRED;
        hasError := true;
      }
      if IsBlank(password) {
        passwordError := PASSWORD_REQUIRED;
        hasError := true;
      }
      if hasError {
        return None;
      }
      isLoading := true;
      call := Some(LoginCall(email, password));
    }

    /** The rest of `handleLogin`: an alert exactly when `login` failed. */
    method LoginSettled(success: bool) returns (alert: Option<string>)
      modifies this`isLoading
      ensures !isLoading
      ensures alert.Some? <==> !success
      ensures alert.Some? ==> alert.value == LOGIN_FAILED
    {
      isLoading := false;
      alert := if success then None else Some(LOGIN_FAILED);
    }
  }
}
