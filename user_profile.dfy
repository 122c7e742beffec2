/** The profile form (app/screens/UserProfileScreen.tsx): the profile is
    loaded, edited and posted back, optionally with a new password entered
    twice. */
module UserProfile {
  import opened Js

  const FIRST_NAME_REQUIRED := "First name is required"
  const LAST_NAME_REQUIRED := "Last name is required"
  const MISMATCH := "Passwords do not match"
  const LOAD_FAILED := "Failed to load profile data"
  const UPDATED := "Profile updated successfully"
  const UPDATE_FAILED := "Failed to update profile"

  /** `response.data` of `GET /user`; each field may be missing. */
  datatype ProfileBody = ProfileBody(firstName: Option<string>, lastName: Option<string>, email: Option<string>)

  /** The body of `POST /user`; `newPassword` is the optional
      `new_password` key. */
  datatype Payload = Payload(firstName: string, lastName: string, email: string, newPassword: Option<string>)

  /** An `Alert.alert(title, message)`. */
  datatype Alert = Alert(title: string, message: string)

  /** The two password messages: set (both to the same text) only when one
      of the fields is non-blank and the two differ. */
  predicate PasswordMismatch(oldPassword: string, newPassword: string) {
    (!IsBlank(oldPassword) || !IsBlank(newPassword)) && oldPassword != newPassword
  }

  /** What `updateProfile` posts, or None when a check fails. The new
      password travels only when both fields are filled in, and then the two
      agree. */
  function ProfilePayload(firstName: string, lastName: string, email: string,
                          oldPassword: string, newPassword: string): (r: Option<Payload>)
    ensures r.Some? <==> !IsBlank(firstName) && !IsBlank(lastName) && !PasswordMismatch(oldPassword, newPassword)
    ensures r.Some? ==> r.value.firstName == firstName && r.value.lastName == lastName
    ensures r.Some? ==> r.value.email == Lower(email)
    ensures r.Some? ==> (r.value.newPassword.Some? <==> !IsBlank(oldPassword) && !IsBlank(newPassword))
    ensures r.Some? && r.value.newPassword.Some? ==> r.value.newPassword.value == newPassword == oldPassword
  {
    if IsBlank(firstName) || IsBlank(lastName) || PasswordMismatch(oldPassword, newPassword) then None
    else
      var pw := if !IsBlank(oldPassword) && !IsBlank(newPassword) then Some(newPassword) else None;
      Some(Payload(firstName, lastName, Lower(email), pw))
  }

  /** Once the checks pass, filling in one password field means filling in
      both, so a password change is never silently dropped. */
  lemma NoHalfPasswordChange(firstName: string, lastName: string, email: string,
                             oldPassword: string, newPassword: string)
    requires ProfilePayload(firstName, lastName, email, oldPassword, newPassword).Some?
    ensures !IsBlank(oldPassword) || !IsBlank(newPassword) ==>
              ProfilePayload(firstName, lastName, email, oldPassword, newPassword).value.newPassword == Some(newPassword)
  {
  }

  class Screen {
    var firstName: string
    var lastName: string
    var email: string
    var oldPassword: string
    var newPassword: string
    var isLoading: bool
    var isLoadingProfile: bool
    var firstNameError: string
    var lastNameError: string
    var newPasswordError: string
    var confirmPasswordError: string

    constructor ()
      ensures firstName == "" && lastName == "" && email == "" && oldPassword == "" && newPassword == ""
      ensures !isLoading && isLoadingProfile
      ensures firstNameError == "" && lastNameError == "" && newPasswordError == "" && confirmPasswordError == ""
    {
      firstName := "";
      lastName := "";
      email := "";
      oldPassword := "";
      newPassword := "";
      isLoading := false;
      isLoadingProfile := true;
      firstNameError := "";
      lastNameError := "";
      newPasswordError := "";
      confirmPasswordError := "";
    }

    /** `fetchProfile` up to its `await`. */
    method FetchProfile()
      modifies this`isLoadingProfile
      ensures isLoadingProfile
    {
      isLoadingProfile := true;
    }

    /** The rest of `fetchProfile`: a truthy body fills the three fields,
        each missing or empty one with ''; a failure alerts. */
    method ProfileSettled(outcome: Outcome<Option<ProfileBody>>) returns (alert: Option<Alert>)
      modifies this`firstName, this`lastName, this`email, this`isLoadingProfile
      ensures !isLoadingProfile
      ensures outcome.Success? && outcome.data.Some? ==>
                firstName == OrElse(outcome.data.value.firstName, "")
                && lastName == OrElse(outcome.data.value.lastName, "")
                && email == OrElse(outcome.data.value.email, "")
      ensures !(outcome.Success? && outcome.data.Some?) ==>
                firstName == old(firstName) && lastName == old(lastName) && email == old(email)
      ensures alert.Some? <==> outcome.Failure?
      ensures alert.Some? ==> alert.value == Alert("Error", LOAD_FAILED)
    {
      alert := None;
      if outcome.Success? {
        if outcome.data.Some? {
          var body := outcome.data.value;
          firstName := OrElse(body.firstName, "");
          lastName := OrElse(body.lastName, "");
          email := OrElse(body.email, "");
        }
      } else {
        alert := Some(Alert("Error", LOAD_FAILED));
      }
      isLoadingProfile := false;
    }

    method EditFirstName(text: string)
      modifies this`firstName, this`firstNameError
      ensures firstName == text && firstNameError == ""
    {
      firstName := text;
      if firstNameError != "" {
        firstNameError := "";
      }
    }

    method EditLastName(text: string)
      modifies this`lastName, this`lastNameError
      ensures lastName == text && lastNameError == ""
    {
      lastName := text;
      if lastNameError != "" {
        lastNameError := "";
      }
    }

    /** The email input's `onChangeText`; the input is rendered disabled. */
    method EditEmail(text: string)
      modifies this`email
      ensures email == Lower(text)
    {
      email := Lower(text);
    }

    /** Either password input's `onChangeText` clears both password
        messages. */
    method EditOldPassword(text: string)
      modifies this`oldPassword, this`newPasswordError, this`confirmPasswordError
      ensures oldPassword == text && newPasswordError == "" && confirmPasswordError == ""
    {
      oldPassword := text;
      if newPasswordError != "" || confirmPasswordError != "" {
        newPasswordError := "";
        confirmPasswordError := "";
      }
    }

    method EditNewPassword(text: string)
      modifies this`newPassword, this`newPasswordError, this`confirmPasswordError
      ensures newPassword == text && newPasswordError == "" && confirmPasswordError == ""
    {
      newPassword := text;
      if newPasswordError != "" || confirmPasswordError != "" {
        newPasswordError := "";
        confirmPasswordError := "";
      }
    }

    /** `updateProfile` up to its `await`: the four messages are recomputed
        and the payload goes out only when none is set. */
    method UpdateProfile() returns (payload: Option<Payload>)
      modifies this`firstNameError, this`lastNameError, this`newPasswordError, this`confirmPasswordError, this`isLoading
      ensures firstNameError == RequiredError(firstName, FIRST_NAME_REQUIRED)
      ensures lastNameError == RequiredError(lastName, LAST_NAME_REQUIRED)
      ensures newPasswordError == confirmPasswordError == (if PasswordMismatch(oldPassword, newPassword) then MISMATCH else "")
      ensures payload == ProfilePayload(firstName, lastName, email, oldPassword, newPassword)
      ensures isLoading == (payload.Some? || old(isLoading))
    {
      firstNameError := "";
      lastNameError := "";
      newPasswordError := "";
      confirmPasswordError := "";
      var hasError := false;
      if IsBlank(firstName) {
        firstNameError := FIRST_NAME_REQUIRED;
        hasError := true;
      }
      if IsBlank(lastName) {
        lastNameError := LAST_NAME_REQUIRED;
        hasError := true;
      }
      var hasNewPassword := |Trim(oldPassword)| > 0;
      var hasConfirmPassword := |Trim(newPassword)| > 0;
      if hasNewPassword || hasConfirmPassword {
        if oldPassword != newPassword {
          newPasswordError := MISMATCH;
          confirmPasswordError := MISMATCH;
          hasError := true;
        }
      }
      if hasError {
        return None;
      }
      isLoading := true;
      var p := Payload(firstName, lastName, Lower(email), None);
      if !IsBlank(oldPassword) && !IsBlank(newPassword) {
        p := p.(newPassword := Some(newPassword));
      }
      payload := Some(p);
    }

    /** The rest of `updateProfile`: success clears both password fields and
        keeps the rest; a failure shows the server's message or a default. */
    method UpdateSettled(outcome: Outcome<()>) returns (alert: Alert)
      modifies this`oldPassword, this`newPassword, this`isLoading
      ensures !isLoading
      ensures outcome.Success? ==> oldPassword == "" && newPassword == "" && alert == Alert("Success", UPDATED)
      ensures outcome.Failure? ==>
                oldPassword == old(oldPassword) && newPassword == old(newPassword)
                && alert == Alert("Error", OrElse(outcome.serverError, UPDATE_FAILED))
    {
      if outcome.Success? {
        alert := Alert("Success", UPDATED);
        oldPassword := "";
        newPassword := "";
      } else {
        alert := Alert("Error", OrElse(outcome.serverError, UPDATE_FAILED));
      }
      isLoading := false;
    }
  }
}
