/** The screen that asks for a reset email (app/screens/PasswordResetScreen.tsx):
    the email is validated against a fixed pattern, posted, and the screen
    then offers to try again or to go on to the code screen. */
module PasswordReset {
  import opened Js

  const EMAIL_REQUIRED := "Email is required"
  const EMAIL_INVALID := "Please enter a valid email address"
  const SEND_FAILED := "Failed to send reset email. Please try again."

  /** A character the pattern's class `[^\s@]` accepts. */
  predicate Plain(c: char) {
    !IsSpace(c) && c != '@'
  }

  predicate AllPlain(s: string) {
    forall m | 0 <= m < |s| :: Plain(s[m])
  }

  /** `/^[^\s@]+@[^\s@]+\.[^\s@]+$/.test(s)`: three non-empty runs of plain
      characters, joined by an '@' and then a '.'. */
  ghost predicate PatternMatches(s: string) {
    exists i, j | 0 < i && i + 1 < j && j + 1 < |s| ::
      s[i] == '@' && s[j] == '.' && AllPlain(s[..i]) && AllPlain(s[i + 1..j]) && AllPlain(s[j + 1..])
  }

  /** The shape the pattern accepts, in plain terms: no whitespace, exactly
      one '@' with something before it, and a '.' in the domain with at
      least one character on each side. */
  predicate EmailShape(s: string) {
    var at := IndexOf(s, '@');
    (forall m | 0 <= m < |s| :: !IsSpace(s[m]))
    && 0 < at < |s|
    && (forall m | at < m < |s| :: s[m] != '@')
    && (exists k | at + 1 < k < |s| - 1 :: s[k] == '.')
  }

  lemma EmailShapeIsPattern(s: string)
    ensures EmailShape(s) <==> PatternMatches(s)
  {
    if EmailShape(s) {
      var at := IndexOf(s, '@');
      var k :| at + 1 < k < |s| - 1 && s[k] == '.';
      assert AllPlain(s[..at]);
      assert AllPlain(s[at + 1..k]);
      assert AllPlain(s[k + 1..]);
    }
    if PatternMatches(s) {
      var i, j :| 0 < i && i + 1 < j && j + 1 < |s| && s[i] == '@' && s[j] == '.'
                  && AllPlain(s[..i]) && AllPlain(s[i + 1..j]) && AllPlain(s[j + 1..]);
      PlainBefore(s, i);
      assert IndexOf(s, '@') == i;
      forall m | 0 <= m < |s| ensures !IsSpace(s[m]) && (i < m ==> s[m] != '@') {
        if m < i {
          assert s[..i][m] == s[m];
        } else if i < m < j {
          assert s[i + 1..j][m - i - 1] == s[m];
        } else if j < m {
          assert s[j + 1..][m - j - 1] == s[m];
        }
      }
      assert i + 1 < j < |s| - 1 && s[j] == '.';
    }
  }

  lemma PlainBefore(s: string, i: nat)
    requires i <= |s| && AllPlain(s[..i])
    ensures forall m | 0 <= m < i :: s[m] != '@'
  {
    forall m | 0 <= m < i ensures s[m] != '@' {
      assert s[..i][m] == s[m];
    }
  }

  /** The message `validateEmail` leaves in `emailError`. Both tests look at
      the trimmed email. */
  function EmailError(email: string): (r: string)
    ensures r == "" <==> !IsBlank(email) && EmailShape(Trim(email))
    ensures IsBlank(email) ==> r == EMAIL_REQUIRED
    ensures !IsBlank(email) && !EmailShape(Trim(email)) ==> r == EMAIL_INVALID
  {
    if IsBlank(email) then EMAIL_REQUIRED
    else if !EmailShape(Trim(email)) then EMAIL_INVALID
    else ""
  }

  /** An email that passes is posted in a form that matches the pattern
      itself and that trimming again leaves unchanged. */
  lemma AcceptedEmailIsPattern(email: string)
    requires EmailError(email) == ""
    ensures PatternMatches(Trim(email))
    ensures Trim(Trim(email)) == Trim(email)
  {
    EmailShapeIsPattern(Trim(email));
    TrimIdempotent(email);
  }

  class Screen {
    var email: string
    var emailError: string
    var emailSubmitted: bool
    var isSubmitting: bool

    constructor ()
      ensures email == "" && emailError == "" && !emailSubmitted && !isSubmitting
    {
      email := "";
      emailError := "";
      emailSubmitted := false;
      isSubmitting := false;
    }

    /** The email input's `onChangeText`. */
    method EditEmail(text: string)
      modifies this`email, this`emailError
      ensures email == text && emailError == ""
    {
      email := text;
      if emailError != "" {
        emailError := "";
      }
    }

    /** `validateEmail()`. */
    method ValidateEmail() returns (ok: bool)
      modifies this`emailError
      ensures emailError == EmailError(email)
      ensures ok <==> emailError == ""
    {
      if IsBlank(email) {
        emailError := EMAIL_REQUIRED;
        return false;
      }
      if !EmailShape(Trim(email)) {
        emailError := EMAIL_INVALID;
        return false;
      }
      emailError := "";
      return true;
    }

    /** `handleEmailSubmit` up to its `await`: the trimmed email is posted
        only when it passes validation. */
    method HandleEmailSubmit() returns (posted: Option<string>)
      modifies this`emailError, this`isSubmitting
      ensures emailError == EmailError(email)
      ensures posted.Some? <==> EmailError(email) == ""
      ensures posted.Some? ==> posted.value == Trim(email) && isSubmitting
      ensures posted.None? ==> isSubmitting == old(isSubmitting)
    {
      var ok := ValidateEmail();
      if !ok {
        return None;
      }
      isSubmitting := true;
      posted := Some(Trim(email));
    }

    /** The rest of `handleEmailSubmit`: only a success marks the email as
        submitted; a failure shows the server's message or a default. */
    method EmailSubmitSettled(outcome: Outcome<()>)
      modifies this`emailSubmitted, this`emailError, this`isSubmitting
      ensures emailSubmitted <==> old(emailSubmitted) || outcome.Success?
      ensures outcome.Success? ==> emailError == old(emailError)
      ensures outcome.Failure? ==> emailError == OrElse(outcome.serverError, SEND_FAILED)
      ensures !isSubmitting
    {
      if outcome.Success? {
        emailSubmitted := true;
      } else {
        emailError := OrElse(outcome.serverError, SEND_FAILED);
      }
      isSubmitting := false;
    }

    /** `handleTryAgain`: back to an empty form. */
    method HandleTryAgain()
      modifies this`emailSubmitted, this`email, this`emailError
      ensures !emailSubmitted && email == "" && emailError == ""
    {
      emailSubmitted := false;
      email := "";
      emailError := "";
    }

    /** `handleInputCode`: the email handed to the code screen, trimmed so
        that it has no whitespace at either end. */
    method HandleInputCode() returns (codeScreenEmail: string)
      ensures codeScreenEmail == Trim(email)
      ensures codeScreenEmail != [] ==> !IsSpace(codeScreenEmail[0]) && !IsSpace(codeScreenEmail[|codeScreenEmail| - 1])
    {
      codeScreenEmail := Trim(email);
    }
  }
}
