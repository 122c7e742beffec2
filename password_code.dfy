/** The password-reset code screen (app/screens/PasswordCodeScreen.tsx):
    first a verification code is checked with the server, then a new
    password and its confirmation are validated and sent. */
module PasswordCode {
  import opened Js

  const CODE_REQUIRED := "Code is required"
  const PASSWORD_REQUIRED := "Password is required"
  const PASSWORD_SHORT := "Password must be at least 6 characters"
  const CONFIRMATION_REQUIRED := "Password confirmation is required"
  const MISMATCH := "Passwords do not match"
  const INVALID_CODE := "Invalid code. Please try again."
  const UPDATE_FAILED := "Failed to update password. Please try again."
  const MIN_PASSWORD := 6

  /** The message `validateCode` leaves in `codeError`. */
  function CodeError(code: string): (r: string)
    ensures r == "" <==> !IsBlank(code)
    ensures r != "" ==> r == CODE_REQUIRED
  {
    if IsBlank(code) then CODE_REQUIRED else ""
  }

  /** The message `validatePassword` leaves in `passwordError`: blankness is
      judged after trimming, length on the untrimmed text. */
  function PasswordError(password: string): (r: string)
    ensures r == "" <==> !IsBlank(password) && |password| >= MIN_PASSWORD
    ensures IsBlank(password) ==> r == PASSWORD_REQUIRED
    ensures !IsBlank(password) && |password| < MIN_PASSWORD ==> r == PASSWORD_SHORT
  {
    if IsBlank(password) then PASSWORD_REQUIRED
    else if |password| < MIN_PASSWORD then PASSWORD_SHORT
    else ""
  }

  /** The message `validatePassword` leaves in `passwordConfirmationError`;
      it does not depend on whether the password itself was accepted. */
  function ConfirmationError(password: string, confirmation: string): (r: string)
    ensures r == "" <==> !IsBlank(confirmation) && password == confirmation
    ensures IsBlank(confirmation) ==> r == CONFIRMATION_REQUIRED
    ensures !IsBlank(confirmation) && password != confirmation ==> r == MISMATCH
  {
    if IsBlank(confirmation) then CONFIRMATION_REQUIRED
    else if password != confirmation then MISMATCH
    else ""
  }

  /** `validatePassword()`'s result: both messages are empty. */
  predicate PasswordsValid(password: string, confirmation: string) {
    PasswordError(password) == "" && ConfirmationError(password, confirmation) == ""
  }

  /** The two fields pass exactly when the password is non-blank, has at
      least six characters, and the confirmation repeats it exactly. */
  lemma PasswordsValidIff(password: string, confirmation: string)
    ensures PasswordsValid(password, confirmation)
            <==> !IsBlank(password) && |password| >= MIN_PASSWORD && password == confirmation
  {
  }

  /** Length is checked before trimming but the trimmed password is sent,
      so a value padded with spaces passes and reaches the server as a
      single character. */
  lemma PaddedPasswordPasses()
    ensures PasswordsValid("     a", "     a")
    ensures Trim("     a") == "a"
  {
    assert LeadingSpaces("     a") == 5 by {
      assert "     a"[1..] == "    a";
      assert "    a"[1..] == "   a";
      assert "   a"[1..] == "  a";
      assert "  a"[1..] == " a";
      assert " a"[1..] == "a";
    }
  }

  /** The body of `POST /auth/password/verify`. */
  datatype VerifyRequest = VerifyRequest(email: Option<string>, code: string)

  /** The body of `PUT /auth/password`. */
  datatype UpdateRequest = UpdateRequest(email: Option<string>, code: string, password: string, confirmation: string)

  class Screen {
    /** `route.params.email`; absent when the screen is opened without it. */
    const email: Option<string>
    var code: string
    var codeError: string
    var password: string
    var passwordConfirmation: string
    var passwordError: string
    var passwordConfirmationError: string
    var codeVerified: bool
    var isVerifying: bool
    var isUpdating: bool

    constructor (email: Option<string>)
      ensures this.email == email
      ensures code == "" && codeError == "" && password == "" && passwordConfirmation == ""
      ensures passwordError == "" && passwordConfirmationError == ""
      ensures !codeVerified && !isVerifying && !isUpdating
    {
      this.email := email;
      code := "";
      codeError := "";
      password := "";
      passwordConfirmation := "";
      passwordError := "";
      passwordConfirmationError := "";
      codeVerified := false;
      isVerifying := false;
      isUpdating := false;
    }

    /** The code input's `onChangeText`. */
    method EditCode(text: string)
      modifies this`code, this`codeError
      ensures code == text && codeError == ""
    {
      code := text;
      if codeError != "" {
        codeError := "";
      }
    }

    /** The new-password input's `onChangeText`. */
    method EditPassword(text: string)
      modifies this`password, this`passwordError
      ensures password == text && passwordError == ""
    {
      password := text;
      if passwordError != "" {
        passwordError := "";
      }
    }

    /** The confirmation input's `onChangeText`. */
    method EditConfirmation(text: string)
      modifies this`passwordConfirmation, this`passwordConfirmationError
      ensures passwordConfirmation == text && passwordConfirmationError == ""
    {
      passwordConfirmation := text;
      if passwordConfirmationError != "" {
        passwordConfirmationError := "";
      }
    }

    /** `validateCode()`. */
    method ValidateCode() returns (ok: bool)
      modifies this`codeError
      ensures ok <==> !IsBlank(code)
      ensures codeError == CodeError(code)
    {
      if IsBlank(code) {
        codeError := CODE_REQUIRED;
        return false;
      }
      codeError := "";
      return true;
    }

    /** `validatePassword()`: both messages are always recomputed. */
    method ValidatePassword() returns (ok: bool)
      modifies this`passwordError, this`passwordConfirmationError
      ensures passwordError == PasswordError(password)
      ensures passwordConfirmationError == ConfirmationError(password, passwordConfirmation)
      ensures ok <==> PasswordsValid(password, passwordConfirmation)
    {
      ok := true;
      if IsBlank(password) {
        passwordError := PASSWORD_REQUIRED;
        ok := false;
      } else if |password| < MIN_PASSWORD {
        passwordError := PASSWORD_SHORT;
        ok := false;
      } else {
        passwordError := "";
      }
      if IsBlank(passwordConfirmation) {
        passwordConfirmationError := CONFIRMATION_REQUIRED;
        ok := false;
      } else if password != passwordConfirmation {
        passwordConfirmationError := MISMATCH;
        ok := false;
      } else {
        passwordConfirmationError := "";
      }
    }

    /** `handleVerifyCode` up to its `await`: nothing is sent for a blank
        code; otherwise the trimmed code is sent and `isVerifying` is set. */
    method HandleVerifyCode() returns (request: Option<VerifyRequest>)
      modifies this`codeError, this`isVerifying
      ensures codeError == CodeError(code)
      ensures request.None? <==> IsBlank(code)
      ensures request.None? ==> isVerifying == old(isVerifying)
      ensures request.Some? ==> request.value == VerifyRequest(email, Trim(code)) && isVerifying
    {
      var ok := ValidateCode();
      if !ok {
        return None;
      }
      isVerifying := true;
      request := Some(VerifyRequest(email, Trim(code)));
    }

    /** The rest of `handleVerifyCode`: success moves to the password phase,
        failure shows the server's message or a default. */
    method VerifySettled(outcome: Outcome<()>)
      modifies this`codeVerified, this`codeError, this`isVerifying
      ensures codeVerified <==> old(codeVerified) || outcome.Success?
      ensures outcome.Success? ==> codeError == old(codeError)
      ensures outcome.Failure? ==> codeError == OrElse(outcome.serverError, INVALID_CODE)
      ensures !isVerifying
    {
      if outcome.Success? {
        codeVerified := true;
      } else {
        codeError := OrElse(outcome.serverError, INVALID_CODE);
      }
      isVerifying := false;
    }

    /** `handleUpdatePassword` up to its `await`: the request goes out only
        when both fields pass, and carries every value trimmed. */
    method HandleUpdatePassword() returns (request: Option<UpdateRequest>)
      modifies this`passwordError, this`passwordConfirmationError, this`isUpdating
      ensures passwordError == PasswordError(password)
      ensures passwordConfirmationError == ConfirmationError(password, passwordConfirmation)
      ensures request.Some? <==> PasswordsValid(password, passwordConfirmation)
      ensures request.None? ==> isUpdating == old(isUpdating)
      ensures request.Some? ==> isUpdating
      ensures request.Some? ==>
                request.value == UpdateRequest(email, Trim(code), Trim(password), Trim(passwordConfirmation))
    {
      var ok := ValidatePassword();
      if !ok {
        return None;
      }
      isUpdating := true;
      request := Some(UpdateRequest(email, Trim(code), Trim(password), Trim(passwordConfirmation)));
    }

    /** The rest of `handleUpdatePassword`: success navigates to the reset
        screen, failure shows a message under the password. */
    method UpdateSettled(outcome: Outcome<()>) returns (navigateTo: Option<string>)
      modifies this`passwordError, this`isUpdating
      ensures outcome.Success? ==> navigateTo == Some("PasswordReset") && passwordError == old(passwordError)
      ensures outcome.Failure? ==>
                navigateTo == None && passwordError == OrElse(outcome.serverError, UPDATE_FAILED)
      ensures !isUpdating
    {
      if outcome.Success? {
        navigateTo := Some("PasswordReset");
      } else {
        navigateTo := None;
        passwordError := OrElse(outcome.serverError, UPDATE_FAILED);
      }
      isUpdating := false;
    }
  }
}
