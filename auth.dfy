/**
 * The sign-in screen (pages/Auth.tsx): an email check, a simulated request
 * whose completion is an explicit timer event, and a sign-in/sign-up switch
 * that changes only labels.
 */
module AuthPage {
  import opened Types
  import Button
  import EmailField

  const InvalidEmailMessage: string := "Please enter a valid email address"

  /** The only validation: the email must contain an `@`. Returns the error to show. */
  function Validate(email: string): (error: string)
    ensures error == "" <==> '@' in email
    ensures error != "" ==> error == InvalidEmailMessage
  {
    if '@' in email then "" else InvalidEmailMessage
  }

  /** Any string holding an `@` passes this check, including `@` and `a@` alone. */
  lemma MinimalEmailsAccepted()
    ensures Validate("@") == "" && Validate("a@") == ""
    ensures Validate("name.example.com") == InvalidEmailMessage
  {
    assert "@"[0] == '@';
    assert "a@"[1] == '@';
  }

  /** The texts the sign-in/sign-up switch changes. */
  datatype Labels = Labels(heading: string, subheading: string, submit: string, prompt: string, switchLink: string)

  function LabelsFor(isLogin: bool): (l: Labels)
    ensures isLogin ==> l.submit == "Sign In" && l.switchLink == "Sign up"
    ensures !isLogin ==> l.submit == "Create Account" && l.switchLink == "Log in"
  {
    if isLogin then
      Labels("Welcome back", "Enter your credentials to access your account.", "Sign In", "Don't have an account? ", "Sign up")
    else
      Labels("Create an account", "Start deploying your projects in seconds.", "Create Account", "Already have an account? ", "Log in")
  }

  /** The props of the submit button while `isLoading` holds. */
  function SubmitButton(isLoading: bool): Button.Props
  {
    Button.Props(None, None, false, Some(isLoading), Some("w-full"), None)
  }

  class AuthState {
    var isLogin: bool
    var isLoading: bool
    var email: string
    var error: string
    /** The simulated request's timer has been scheduled and has not fired yet. */
    var timerPending: bool

    /** The screen is loading exactly while its request timer is pending. */
    ghost predicate Valid()
      reads this
    {
      isLoading == timerPending
    }

    ghost predicate Initial()
      reads this
    {
      isLogin && !isLoading && email == "" && error == "" && !timerPending
    }

    constructor ()
      ensures Valid() && Initial()
    {
      isLogin, isLoading, email, error, timerPending := true, false, "", "", false;
    }

    /**
     * The form can be submitted only while its submit button is enabled, that
     * is while not loading (NoResubmitWhileLoading).
     */
    predicate CanSubmit()
      reads this
    {
      !isLoading
    }

    /** The email input's change handler. */
    method SetEmail(s: string)
      requires Valid()
      modifies this
      ensures Valid()
      ensures email == s
      ensures isLogin == old(isLogin) && isLoading == old(isLoading) && error == old(error)
      ensures timerPending == old(timerPending)
    {
      email := s;
    }

    /** The "Sign up" / "Log in" link. */
    method ToggleMode()
      requires Valid()
      modifies this
      ensures Valid()
      ensures isLogin == !old(isLogin)
      ensures isLoading == old(isLoading) && email == old(email) && error == old(error)
      ensures timerPending == old(timerPending)
    {
      isLogin := !isLogin;
    }

    /**
     * The form's submit handler. An email without `@` only sets the error;
     * otherwise the error is cleared, loading starts and the timer is scheduled.
     * The mode plays no part.
     */
    method Submit()
      requires Valid() && CanSubmit()
      modifies this
      ensures Valid()
      ensures error == Validate(old(email))
      ensures isLoading <==> '@' in old(email)
      ensures timerPending <==> '@' in old(email)
      ensures isLogin == old(isLogin) && email == old(email)
    {
      if !('@' in email) {
        error := InvalidEmailMessage;
        return;
      }
      error := "";
      isLoading := true;
      timerPending := true;
    }

    /**
     * A submission of the form: a click on the enabled submit button, or
     * Enter in a field. The browser checks the email field first
     * (EmailField.Accepts); a value it refuses changes nothing here and
     * `handleSubmit` is not called. Otherwise `handleSubmit` runs.
     */
    method SubmitForm()
      requires Valid() && CanSubmit()
      modifies this
      ensures Valid()
      ensures !EmailField.Accepts(old(email)) ==>
        error == old(error) && !isLoading && !timerPending
      ensures EmailField.Accepts(old(email)) ==> error == Validate(old(email))
      ensures EmailField.Accepts(old(email)) ==>
        (isLoading <==> old(email) != "") && (timerPending <==> old(email) != "")
      ensures isLogin == old(isLogin) && email == old(email)
    {
      if EmailField.Accepts(email) {
        EmailField.AcceptedHasAt(email);
        Submit();
      }
    }

    /** The simulated request completes: loading stops and the app goes to the dashboard. */
    method TimerFired() returns (nav: Option<View>)
      requires Valid() && timerPending
      modifies this
      ensures Valid()
      ensures nav == Some(Dashboard)
      ensures !isLoading && !timerPending
      ensures isLogin == old(isLogin) && email == old(email) && error == old(error)
    {
      isLoading := false;
      timerPending := false;
      nav := Some(Dashboard);
    }

    /** The "Back to Home" link. */
    method BackToHome() returns (nav: Option<View>)
      ensures nav == Some(Landing)
    {
      nav := Some(Landing);
    }
  }

  /**
   * Behind the browser's check, the "Please enter a valid email address"
   * error appears only for an empty field, and every other submitted value
   * starts the request.
   */
  lemma ErrorOnlyForEmptyField(email: string)
    requires EmailField.Accepts(email)
    ensures Validate(email) == InvalidEmailMessage <==> email == ""
    ensures Validate(email) == "" <==> email != ""
  {
    EmailField.AcceptedHasAt(email);
  }

  /** While the request is pending the submit button is disabled, so the form cannot be resubmitted. */
  lemma NoResubmitWhileLoading(isLoading: bool)
    ensures !Button.Render(SubmitButton(isLoading)).disabled <==> !isLoading
  {
  }
}
