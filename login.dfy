/**
 * `src/features/auth/login-page.tsx`: the sign-in form. Submitting clears the
 * error and shows the loading state, checks that both fields are filled and
 * that the email holds an `@`, waits half a second and goes to the
 * dashboard; every path ends with the loading state cleared.
 */
module Login {
  const FILL_ALL_FIELDS: string := "Please fill in all fields"
  const INVALID_EMAIL: string := "Please enter a valid email"
  const LOGIN_FAILED: string := "Failed to login. Please try again."
  const AFTER_LOGIN: string := "/dashboard"
  const SIGN_IN_DELAY_MS: nat := 500

  /** Which check, if any, rejects the input, in the order the handler makes them. */
  function Validate(email: string, password: string): (r: string)
    ensures r == "" <==> email != "" && password != "" && '@' in email
    ensures (email == "" || password == "") ==> r == FILL_ALL_FIELDS
    ensures (email != "" && password != "" && '@' !in email) ==> r == INVALID_EMAIL
  {
    if email == "" || password == "" then FILL_ALL_FIELDS
    else if '@' !in email then INVALID_EMAIL
    else ""
  }

  /** An input with no `@` and an empty password reports the empty field, not the email. */
  lemma EmptinessFirst()
    ensures Validate("user", "") == FILL_ALL_FIELDS
    ensures Validate("user", "pw") == INVALID_EMAIL
    ensures Validate("demo@example.com", "demo123") == ""
  {
    assert '@' !in "user";
    assert "demo@example.com"[4] == '@';
  }

  /** The form's state. */
  class LoginPage {
    var email: string
    var password: string
    var showPassword: bool
    var isLoading: bool
    var error: string
    /** The routes pushed so far. */
    var navigations: seq<string>
    /** Whether a valid submit is waiting for its half-second timer. */
    var waiting: bool

    /** Loading is shown exactly while a valid submit waits, and then no error shows. */
    ghost predicate Valid()
      reads this
    {
      isLoading == waiting && (waiting ==> error == "")
    }

    constructor()
      ensures Valid()
      ensures email == "" && password == "" && !showPassword && !isLoading && error == ""
      ensures navigations == [] && !waiting
    {
      email := "";
      password := "";
      showPassword := false;
      isLoading := false;
      error := "";
      navigations := [];
      waiting := false;
    }

    method SetEmail(value: string)
      modifies this
      ensures email == value
      ensures password == old(password) && showPassword == old(showPassword) && isLoading == old(isLoading)
      ensures error == old(error) && navigations == old(navigations) && waiting == old(waiting)
    {
      email := value;
    }

    method SetPassword(value: string)
      modifies this
      ensures password == value
      ensures email == old(email) && showPassword == old(showPassword) && isLoading == old(isLoading)
      ensures error == old(error) && navigations == old(navigations) && waiting == old(waiting)
    {
      password := value;
    }

    /** The eye button flips whether the password is shown. */
    method TogglePassword()
      modifies this
      ensures showPassword == !old(showPassword)
      ensures email == old(email) && password == old(password) && isLoading == old(isLoading)
      ensures error == old(error) && navigations == old(navigations) && waiting == old(waiting)
    {
      showPassword := !showPassword;
    }

    /**
     * The synchronous part of `handleSubmit`: clear the error and set
     * loading, then either reject with the first failing check (and clear
     * loading in `finally`) or start the half-second wait. The submit button
     * is disabled while loading, so no submit arrives during the wait.
     */
    method Submit() returns (started: bool)
      requires Valid() && !isLoading
      modifies this
      ensures Valid()
      ensures started <==> Validate(email, password) == ""
      ensures error == Validate(email, password)
      ensures isLoading == started && waiting == started
      ensures navigations == old(navigations)
      ensures email == old(email) && password == old(password) && showPassword == old(showPassword)
    {
      error := "";
      isLoading := true;
      if email == "" || password == "" {
        error := FILL_ALL_FIELDS;
        isLoading := false;
        return false;
      }
      if '@' !in email {
        error := INVALID_EMAIL;
        isLoading := false;
        return false;
      }
      waiting := true;
      started := true;
    }

    /**
     * The wait ends: the dashboard is pushed, or, when pushing throws, the
     * failure message is shown; `finally` clears loading either way.
     */
    method WaitElapsed(pushThrows: bool)
      requires Valid() && waiting
      modifies this
      ensures Valid()
      ensures !isLoading && !waiting
      ensures navigations == if pushThrows then old(navigations) else old(navigations) + [AFTER_LOGIN]
      ensures error == if pushThrows then LOGIN_FAILED else ""
      ensures email == old(email) && password == old(password) && showPassword == old(showPassword)
    {
      if pushThrows {
        error := LOGIN_FAILED;
      } else {
        navigations := navigations + [AFTER_LOGIN];
      }
      isLoading := false;
      waiting := false;
    }

    /** The error box shows exactly when there is an error message. */
    predicate ShowsError()
      reads this
    {
      error != ""
    }

    function SubmitCaption(): string
      reads this
    {
      if isLoading then "Signing in..." else "Sign In"
    }
  }

  /** A rejected submit never navigates and leaves loading off; a retry after fixing the email succeeds. */
  method RejectThenSucceed()
  {
    var page := new LoginPage();
    var started := page.Submit();
    assert !started && page.error == FILL_ALL_FIELDS && !page.isLoading;
    page.SetEmail("demo");
    page.SetPassword("demo123");
    EmptinessFirst();
    assert '@' !in "demo";
    started := page.Submit();
    assert !started && page.error == INVALID_EMAIL && page.navigations == [];
    page.SetEmail("demo@example.com");
    started := page.Submit();
    assert started && page.SubmitCaption() == "Signing in..." && !page.ShowsError();
    page.WaitElapsed(false);
    assert page.navigations == [AFTER_LOGIN] && !page.isLoading && !page.ShowsError();
  }
}
