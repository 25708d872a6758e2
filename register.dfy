/**
 * The registration form (src/auth/register.tsx): four input fields, two
 * live field errors kept up to date as the passwords are typed, and a
 * submit handler that runs three guards before posting the registration.
 */
module Register {
  import opened Wrappers
  import opened Http
  import opened JsText
  import opened Browser

  const RegisterUrl := "/api/register/"
  const VerifyEmailPath := "/verify-email"
  const MinPasswordLength := 8

  const FillInAllFields := "Please fill in all required fields."
  const PasswordsDiffer := "Passwords do not match."
  const PasswordTooShortText := "Password must be at least 8 characters long."
  const UnknownError := "An unknown error occurred."
  const UnexpectedError := "An unexpected error occurred."

  /** The live length rule: not empty once trimmed, yet shorter than eight code units. */
  predicate TooShort(password: string) {
    0 < JsLength(Trim(password)) < MinPasswordLength
  }

  predicate AnyBlank(email: string, password: string, fullName: string, password2: string) {
    IsBlank(email) || IsBlank(password) || IsBlank(fullName) || IsBlank(password2)
  }

  /** Which of the submit handler's guards stops it, tried in the source's order. */
  datatype Verdict = MissingField | Mismatch | FieldError | Accepted

  /**
   * The specification of the submit guards: a blank field is reported
   * first; only with every field filled does a password mismatch count;
   * only with matching passwords does an outstanding field error silently
   * stop the submit; the request is made exactly when none of these holds.
   */
  function SubmitVerdict(email: string, password: string, password2: string, fullName: string,
                         passwordError: Option<string>, password2Error: Option<string>): (v: Verdict)
    ensures v == MissingField <==> AnyBlank(email, password, fullName, password2)
    ensures v == Mismatch <==> !AnyBlank(email, password, fullName, password2) && password != password2
    ensures v == FieldError <==>
              !AnyBlank(email, password, fullName, password2) && password == password2
              && (passwordError.Some? || password2Error.Some?)
    ensures v == Accepted <==>
              !AnyBlank(email, password, fullName, password2) && password == password2
              && passwordError.None? && password2Error.None?
  {
    if AnyBlank(email, password, fullName, password2) then MissingField
    else if password != password2 then Mismatch
    else if passwordError.Some? || password2Error.Some? then FieldError
    else Accepted
  }

  /** The JSON body of the registration request. */
  function RegistrationBody(email: string, password: string, fullName: string): Body {
    map["email" := email, "password" := password, "full_name" := fullName]
  }

  class Registration {
    const env: Tab
    var email: string
    var password: string
    var password2: string
    var fullName: string
    var loading: bool
    var error: Option<string>
    var passwordError: Option<string>
    var password2Error: Option<string>

    /**
     * What the handlers keep true between events: no request is in flight,
     * the password error is shown exactly when the password is too short,
     * and a confirm error is only ever shown for passwords that differ.
     */
    ghost predicate Valid()
      reads this
    {
      && !loading
      && (passwordError.Some? <==> TooShort(password))
      && (passwordError.Some? ==> passwordError.value == PasswordTooShortText)
      && (password2Error.Some? ==> password2Error.value == PasswordsDiffer && password != password2)
    }

    ghost function CurrentVerdict(): Verdict
      reads this
    {
      SubmitVerdict(email, password, password2, fullName, passwordError, password2Error)
    }

    constructor (env: Tab)
      ensures Valid() && this.env == env
      ensures email == "" && password == "" && password2 == "" && fullName == ""
      ensures !loading && error.None? && passwordError.None? && password2Error.None?
    {
      this.env := env;
      email, password, password2, fullName := "", "", "", "";
      loading := false;
      error, passwordError, password2Error := None, None, None;
    }

    /** The email input's `onChange`. */
    method SetEmail(value: string)
      requires Valid()
      modifies this`email
      ensures Valid() && email == value
    {
      email := value;
    }

    /** The full-name input's `onChange`. */
    method SetFullName(value: string)
      requires Valid()
      modifies this`fullName
      ensures Valid() && fullName == value
    {
      fullName := value;
    }

    /**
     * `handlePasswordChange`: stores the new password, shows the length
     * error exactly when it is too short, and shows the confirm error
     * exactly when a confirmation was typed and differs from it.
     */
    method PasswordChange(newPassword: string)
      requires Valid()
      modifies this`password, this`passwordError, this`password2Error
      ensures Valid()
      ensures password == newPassword
      ensures passwordError == (if TooShort(newPassword) then Some(PasswordTooShortText) else None)
      ensures password2Error == (if password2 != "" && newPassword != password2 then Some(PasswordsDiffer) else None)
    {
      password := newPassword;
      if TooShort(newPassword) {
        passwordError := Some(PasswordTooShortText);
      } else {
        passwordError := None;
      }
      if password2 != "" && newPassword != password2 {
        password2Error := Some(PasswordsDiffer);
      } else {
        password2Error := None;
      }
    }

    /**
     * `handlePassword2Change`: stores the confirmation and shows the confirm
     * error exactly when a password was typed and differs from it.
     */
    method Password2Change(newPassword2: string)
      requires Valid()
      modifies this`password2, this`password2Error
      ensures Valid()
      ensures password2 == newPassword2
      ensures password2Error == (if password != "" && password != newPassword2 then Some(PasswordsDiffer) else None)
    {
      password2 := newPassword2;
      if password != "" && password != newPassword2 {
        password2Error := Some(PasswordsDiffer);
      } else {
        password2Error := None;
      }
    }

    /**
     * `handleSubmit`, with `outcome` the result of the registration post.
     * A stopped submit changes only the message its guard names and sends
     * nothing; an accepted one posts the three fields as typed and then
     * moves on to email verification or reports the failure. Because the
     * field errors are kept by the change handlers, a request is only ever
     * sent for filled fields, matching passwords and a password of at least
     * eight code units once trimmed.
     */
    method Submit(outcome: Outcome<()>)
      requires Valid()
      modifies this`error, this`password2Error, this`loading, env
      ensures Valid()
      ensures old(CurrentVerdict()) == MissingField ==>
                error == Some(FillInAllFields) && password2Error == old(password2Error) && unchanged(env)
      ensures old(CurrentVerdict()) == Mismatch ==>
                password2Error == Some(PasswordsDiffer) && error == old(error) && unchanged(env)
      ensures old(CurrentVerdict()) == FieldError ==>
                error == old(error) && password2Error == old(password2Error) && unchanged(env)
      ensures old(CurrentVerdict()) == Accepted ==>
                && password2Error == old(password2Error)
                && env.sent == old(env.sent) + [Outgoing(Post, RegisterUrl, RegistrationBody(email, password, fullName), env.storage)]
                && env.storage == old(env.storage)
                && (outcome.Ok? ==> error.None? && env.location == Location(VerifyEmailPath, Some(email)))
                && (outcome.HttpErr? ==> error == Some(ErrorText(outcome.detail, UnknownError)) && env.location == old(env.location))
                && (outcome.OtherErr? ==> error == Some(UnexpectedError) && env.location == old(env.location))
      ensures env.sent != old(env.sent) ==>
                && !IsBlank(email) && !IsBlank(fullName) && !IsBlank(password2)
                && password == password2 && JsLength(Trim(password)) >= MinPasswordLength
    {
      if IsBlank(email) || IsBlank(password) || IsBlank(fullName) || IsBlank(password2) {
        error := Some(FillInAllFields);
        return;
      }
      if password != password2 {
        password2Error := Some(PasswordsDiffer);
        return;
      }
      if passwordError.Some? || password2Error.Some? {
        return;
      }
      loading := true;
      error := None;
      env.Send(Post, RegisterUrl, RegistrationBody(email, password, fullName));
      match outcome {
        case Ok(_) =>
          env.Navigate(VerifyEmailPath, Some(email));
        case HttpErr(_, detail) =>
          error := Some(ErrorText(detail, UnknownError));
        case OtherErr =>
          error := Some(UnexpectedError);
      }
      loading := false;
    }
  }
}
