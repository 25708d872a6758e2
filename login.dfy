/**
 * The sign-in form (src/auth/login.tsx): a visitor-mode shortcut that fills
 * in demo credentials, and a login handler that stores the access token or
 * maps the failure, with a deferred resend-then-redirect task for accounts
 * whose email is not yet verified.
 */
module Login {
  import opened Wrappers
  import opened Http
  import opened JsText
  import opened AxiosConfig
  import opened Browser

  const LoginUrl := "/login/"
  const ResendUrl := "/api/resend-verification-email/"
  const HomePath := "/"
  const VerifyEmailPath := "/verify-email"
  const Unverified := 403

  const VisitorEmail := "test@test.com"
  const VisitorPassword := "12345678"

  const FillInBoth := "Please fill in both email and password."
  const NoTokenText := "Login successful, but no token was received."
  const UnverifiedText := "Your email is not verified. Redirecting you to verify..."
  const UnknownError := "An unknown error occurred."
  const UnexpectedError := "An unexpected error occurred."

  /** The part of the login response the handler reads: `response.data.access_token`. */
  datatype LoginResponse = LoginResponse(accessToken: Option<string>)

  /** The login body carries the fields as typed, not trimmed. */
  function LoginBody(email: string, password: string): Body {
    map["email" := email, "password" := password]
  }

  class LoginForm {
    const env: Tab
    var email: string
    var password: string
    var loading: bool
    var error: Option<string>
    /**
     * The deferred resend-then-redirect tasks, oldest first; each holds the
     * email its handler call saw.
     */
    var pending: seq<string>

    /** Between events no login request is in flight. */
    ghost predicate Valid()
      reads this
    {
      !loading
    }

    constructor (env: Tab)
      ensures Valid() && this.env == env
      ensures email == "" && password == "" && error.None? && pending == []
    {
      this.env := env;
      email, password := "", "";
      loading := false;
      error := None;
      pending := [];
    }

    /** The email input's `onChange`. */
    method SetEmail(value: string)
      requires Valid()
      modifies this`email
      ensures Valid() && email == value
    {
      email := value;
    }

    /** The password input's `onChange`. */
    method SetPassword(value: string)
      requires Valid()
      modifies this`password
      ensures Valid() && password == value
    {
      password := value;
    }

    /** `handleVisitorMode`: fills in the demo credentials and sends nothing. */
    method VisitorMode()
      requires Valid()
      modifies this`email, this`password
      ensures Valid()
      ensures email == VisitorEmail && password == VisitorPassword
    {
      email := VisitorEmail;
      password := VisitorPassword;
    }

    /**
     * `handleLogin`, with `outcome` the result of the login post. A blank
     * field only sets its message. Otherwise the untrimmed credentials are
     * posted, and then: a truthy token is stored under `accessToken` and
     * the app goes home; a success without one reports it; a 403 reports
     * the unverified email and schedules exactly one deferred task for the
     * email as typed; any other failure shows the detail or its fallback.
     */
    method HandleLogin(outcome: Outcome<LoginResponse>)
      requires Valid()
      modifies this`loading, this`error, this`pending, env
      ensures Valid()
      ensures IsBlank(email) || IsBlank(password) ==>
                error == Some(FillInBoth) && pending == old(pending) && unchanged(env)
      ensures !IsBlank(email) && !IsBlank(password) ==>
                && env.sent == old(env.sent) + [Outgoing(Post, LoginUrl, LoginBody(email, password), old(env.storage))]
                && (outcome.Ok? && Truthy(outcome.data.accessToken) ==>
                      && env.storage == old(env.storage)[AccessTokenKey := outcome.data.accessToken.value]
                      && env.location == Location(HomePath, None)
                      && error.None? && pending == old(pending))
                && (outcome.Ok? && !Truthy(outcome.data.accessToken) ==>
                      && env.storage == old(env.storage) && env.location == old(env.location)
                      && error == Some(NoTokenText) && pending == old(pending))
                && (outcome.HttpErr? && outcome.status == Some(Unverified) ==>
                      && env.storage == old(env.storage) && env.location == old(env.location)
                      && error == Some(UnverifiedText) && pending == old(pending) + [email])
                && (outcome.HttpErr? && outcome.status != Some(Unverified) ==>
                      && env.storage == old(env.storage) && env.location == old(env.location)
                      && error == Some(ErrorText(outcome.detail, UnknownError)) && pending == old(pending))
                && (outcome.OtherErr? ==>
                      && env.storage == old(env.storage) && env.location == old(env.location)
                      && error == Some(UnexpectedError) && pending == old(pending))
    {
      if IsBlank(email) || IsBlank(password) {
        error := Some(FillInBoth);
        return;
      }
      loading := true;
      error := None;
      env.Send(Post, LoginUrl, LoginBody(email, password));
      match outcome {
        case Ok(data) =>
          if Truthy(data.accessToken) {
            env.SetItem(AccessTokenKey, data.accessToken.value);
            env.Navigate(HomePath, None);
          } else {
            error := Some(NoTokenText);
          }
        case HttpErr(status, detail) =>
          var serverError := ErrorText(detail, UnknownError);
          if status == Some(Unverified) {
            error := Some(UnverifiedText);
            pending := pending + [email];
          } else {
            error := Some(serverError);
          }
        case OtherErr =>
          error := Some(UnexpectedError);
      }
      loading := false;
    }

    /**
     * The oldest deferred task fires, with `resend` the result of its resend
     * post: it posts `{ email }` for the email it captured and then goes to
     * email verification carrying that email, whatever `resend` is.
     */
    method FireResendTask(resend: Outcome<()>)
      requires Valid() && pending != []
      modifies this`pending, env
      ensures Valid()
      ensures pending == old(pending)[1..]
      ensures env.sent == old(env.sent) + [Outgoing(Post, ResendUrl, map["email" := old(pending)[0]], env.storage)]
      ensures env.location == Location(VerifyEmailPath, Some(old(pending)[0]))
      ensures env.storage == old(env.storage)
    {
      var captured := pending[0];
      pending := pending[1..];
      env.Send(Post, ResendUrl, map["email" := captured]);
      env.Navigate(VerifyEmailPath, Some(captured));
    }
  }
}
