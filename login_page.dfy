/**
 * The sign-in form: three text fields, a show-password flag, and a submit that
 * hands the trimmed name and e-mail on when both are non-blank.
 */
module LoginPage {
  import opened Wrappers
  import opened Text

  /** What `onLogin` receives. There is no password in it: the form never passes it on. */
  datatype Credentials = Credentials(name: string, email: string)

  /** The outcome of a submit, `None` when `onLogin` is not called. */
  function Submission(name: string, email: string): (r: Option<Credentials>)
    ensures r.Some? <==> !AllSpace(name) && !AllSpace(email)
    ensures r.Some? ==> r.value.name == Trim(name) && r.value.email == Trim(email)
    ensures r.Some? ==> r.value.name != "" && r.value.email != ""
  {
    BlankIff(name);
    BlankIff(email);
    if Trim(name) != "" && Trim(email) != "" then Some(Credentials(Trim(name), Trim(email))) else None
  }

  /** The credentials handed on carry no white space at either end. */
  lemma SubmittedTrimmed(name: string, email: string)
    requires Submission(name, email).Some?
    ensures var c := Submission(name, email).value;
      !IsSpace(c.name[0]) && !IsSpace(c.name[|c.name| - 1]) &&
      !IsSpace(c.email[0]) && !IsSpace(c.email[|c.email| - 1])
  {
    TrimSpec(name);
    TrimSpec(email);
  }

  class LoginForm {
    var name: string
    var email: string
    var password: string
    var showPassword: bool

    constructor ()
      ensures name == "" && email == "" && password == "" && !showPassword
    {
      name := "";
      email := "";
      password := "";
      showPassword := false;
    }

    method SetName(value: string)
      modifies this`name
      ensures name == value
    {
      name := value;
    }

    method SetEmail(value: string)
      modifies this`email
      ensures email == value
    {
      email := value;
    }

    method SetPassword(value: string)
      modifies this`password
      ensures password == value
    {
      password := value;
    }

    /** The eye button. */
    method ToggleShowPassword()
      modifies this`showPassword
      ensures showPassword == !old(showPassword)
    {
      showPassword := !showPassword;
    }

    /** `handleSubmit`: changes no field; returns what `onLogin` is called with, if anything. */
    method HandleSubmit() returns (login: Option<Credentials>)
      ensures login == Submission(name, email)
    {
      var trimmedName := Trim(name);
      var trimmedEmail := Trim(email);
      if trimmedName != "" && trimmedEmail != "" {
        login := Some(Credentials(trimmedName, trimmedEmail));
      } else {
        login := None;
      }
    }
  }
}
