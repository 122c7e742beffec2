/** The sign-up form (app/screens/SignUpScreen.tsx): three required fields,
    then an exact match of password and confirmation, then the call. */
module SignUp {
  import opened Js

  const EMAIL_REQUIRED := "Email is required"
  const PASSWORD_REQUIRED := "Password is required"
  const CONFIRMATION_REQUIRED := "Password confirmation is required"
  const MISMATCH := "Passwords do not match"
  const SIGNUP_FAILED := "Signup failed. Please check your details and try again."

  /** The arguments of `signup(email, password, passwordConfirmation)`. */
  datatype SignupCall = SignupCall(email: string, password: string, confirmation: string)

  /** Where `handleSignup` stops: at a required-field error, at the mismatch
      alert, or at the call. */
  datatype SignupStep = Blocked | Mismatch | Call(call: SignupCall)

  /** The call is made exactly when every field is non-blank and the two
      passwords are equal, with the values as typed; a blank field stops the
      handler before the mismatch test. */
  function SignupDecision(email: string, password: string, confirmation: string): (r: SignupStep)
    ensures r.Call? <==> !IsBlank(email) && !IsBlank(password) && !IsBlank(confirmation) && password == confirmation
    ensures r.Call? ==> r.call == SignupCall(email, password, confirmation)
    ensures r.Blocked? <==> IsBlank(email) || IsBlank(password) || IsBlank(confirmation)
    ensures r.Mismatch? ==> password != confirmation
  {
    if IsBlank(email) || IsBlank(password) || IsBlank(confirmation) then Blocked
    else if password != confirmation then Mismatch
    else Call(SignupCall(email, password, confirmation))
  }

  class Screen {
    var email: string
    var password: string
    var passwordConfirmation: string
    var isLoading: bool
    var emailError: string
    var passwordError: string
    var passwordConfirmationError: string

    constructor ()
      ensures email == "" && password == "" && passwordConfirmation == "" && !isLoading
      ensures emailError == "" && passwordError == "" && passwordConfirmationError == ""
    {
      email := "";
      password := "";
      passwordConfirmation := "";
      isLoading := false;
      emailError := "";
      passwordError := "";
      passwordConfirmationError := "";
    }

    /** The email input's `onChangeText`: the email is stored lowercased. */
    method EditEmail(text: string)
      modifies this`email, this`emailError
      ensures email == Lower(text) && emailError == ""
    {
      email := Lower(text);
      if emailError != "" {
        emailError := "";
      }
    }

    method EditPassword(text: string)
      modifies this`password, this`passwordError
      ensures password == text && passwordError == ""
    {
      password := text;
      if passwordError != "" {
        passwordError := "";
      }
    }

    method EditConfirmation(text: string)
      modifies this`passwordConfirmation, this`passwordConfirmationError
      ensures passwordConfirmation == text && passwordConfirmationError == ""
    {
      passwordConfirmation := text;
      if passwordConfirmationError != "" {
        passwordConfirmationError := "";
      }
    }

    /** `handleSignup` up to its `await`. The three errors are cleared and
        each blank field sets its own, independently of the others. */
    method HandleSignup() returns (step: SignupStep)
      modifies this`emailError, this`passwordError, this`passwordConfirmationError, this`isLoading
      ensures emailError == RequiredError(email, EMAIL_REQUIRED)
      ensures passwordError == RequiredError(password, PASSWORD_REQUIRED)
      ensures passwordConfirmationError == RequiredError(passwordConfirmation, CONFIRMATION_REQUIRED)
      ensures step == SignupDecision(email, password, passwordConfirmation)
      ensures isLoading == (step.Call? || old(isLoading))
    {
      emailError := "";
      passwordError := "";
      passwordConfirmationError := "";
      var hasError := false;
      if IsBlank(email) {
        emailError := EMAIL_REQUIRED;
        hasError := true;
      }
      if IsBlank(password) {
        passwordError := PASSWORD_REQUIRED;
        hasError := true;
      }
      if IsBlank(passwordConfirmation) {
        passwordConfirmationError := CONFIRMATION_REQUIRED;
        hasError := true;
      }
      if hasError {
        return Blocked;
      }
      if password != passwordConfirmation {
        return Mismatch;
      }
      isLoading := true;
      step := Call(SignupCall(email, password, passwordConfirmation));
    }

    /** The rest of `handleSignup`: success goes Home, failure alerts. */
    method SignupSettled(success: bool) returns (navigateHome: bool, alert: Option<string>)
      modifies this`isLoading
      ensures !isLoading
      ensures navigateHome == success
      ensures alert == if success then None else Some(SIGNUP_FAILED)
    {
      isLoading := false;
      navigateHome := success;
      alert := if success then None else Some(SIGNUP_FAILED);
    }
  }
}
