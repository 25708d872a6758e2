/**
 * End-to-end uses of the screens, proved from their contracts alone: each
 * drives one screen through the events a user would cause and states what
 * the tab sees afterwards.
 */
module Scenarios {
  import opened Wrappers
  import opened Http
  import opened JsText
  import opened AxiosConfig
  import opened Browser
  import Register
  import Login
  import Workspace

  /**
   * Registering with "short" typed as both password and confirmation
   * shows the length error, and submitting sends nothing.
   */
  method ShortPasswordIsBlocked(env: Tab, outcome: Outcome<()>)
    modifies env
    ensures env.sent == old(env.sent)
  {
    var form := new Register.Registration(env);
    form.SetFullName("Jo");
    form.SetEmail("jo@example.com");
    form.PasswordChange("short");
    form.Password2Change("short");
    assert JsLength(Trim("short")) == 5 by {
      TrimNoWhitespace("short");
    }
    assert form.passwordError.Some?;
    form.Submit(outcome);
  }

  /**
   * Signing in to an unverified account: the login post is the only
   * request until the deferred task fires; then exactly one resend for the
   * submitted email is sent and the tab lands on email verification with
   * that email, even when the resend fails.
   */
  method UnverifiedLoginRedirects(env: Tab, detail: Option<string>)
    modifies env
    ensures |env.sent| == |old(env.sent)| + 2
    ensures env.sent[..|old(env.sent)|] == old(env.sent)
    ensures env.sent[|old(env.sent)|].verb == Post && env.sent[|old(env.sent)|].url == Login.LoginUrl
    ensures env.sent[|old(env.sent)|].data == Login.LoginBody("jo@example.com", "secret-password")
    ensures env.sent[|env.sent| - 1].verb == Post && env.sent[|env.sent| - 1].url == Login.ResendUrl
    ensures env.sent[|env.sent| - 1].data == map["email" := "jo@example.com"]
    ensures env.location == Location(Login.VerifyEmailPath, Some("jo@example.com"))
  {
    var form := new Login.LoginForm(env);
    form.SetEmail("jo@example.com");
    form.SetPassword("secret-password");
    TrimNoWhitespace("jo@example.com");
    TrimNoWhitespace("secret-password");
    form.HandleLogin(HttpErr(Some(Login.Unverified), detail));
    assert form.error == Some(Login.UnverifiedText);
    assert form.pending == ["jo@example.com"];
    form.FireResendTask(OtherErr);
  }

  /**
   * Scoring with a topic but an empty essay shows "Please enter your
   * essay." and sends nothing.
   */
  method EmptyEssayIsRejected(env: Tab, outcome: Outcome<Workspace.ScoringResponse>)
    modifies env
    ensures env.sent == old(env.sent)
  {
    var page := new Workspace.MainPage(env);
    page.SetTopic("Cities");
    TrimNoWhitespace("Cities");
    page.Score(outcome);
    assert page.apiState.error == Some(Workspace.EssayEmptyText);
    assert page.apiState.score.None?;
  }

  /**
   * Declining the deletion dialog leaves the tab as it was: no request,
   * the token still stored, no navigation.
   */
  method DeclinedDeletionChangesNothing(env: Tab, outcome: Outcome<()>)
    modifies env
    ensures env.sent == old(env.sent) && env.storage == old(env.storage) && env.location == old(env.location)
  {
    var page := new Workspace.MainPage(env);
    page.DeleteAccount(false, outcome);
  }

  /**
   * After a login that returns a token, the workspace's profile fetch
   * carries that token as its bearer credential; after logout the token
   * is gone and a further request would carry no header at all.
   */
  method TokenReachesWorkspaceRequests(env: Tab, token: string, details: Workspace.UserDetails)
    requires token != ""
    modifies env
    ensures |env.sent| == |old(env.sent)| + 2
    ensures env.sent[|env.sent| - 1] ==
              Request(Get, Workspace.InfoUrl, map[], map[AuthorizationHeader := "Bearer " + token])
    ensures env.storage == old(env.storage)[AccessTokenKey := token] - {AccessTokenKey}
    ensures WithBearer(map[], env.storage) == map[]
    ensures env.location == Location(Workspace.LoginPath, None)
  {
    var form := new Login.LoginForm(env);
    form.VisitorMode();
    TrimNoWhitespace(Login.VisitorEmail);
    TrimNoWhitespace(Login.VisitorPassword);
    form.HandleLogin(Ok(Login.LoginResponse(Some(token))));
    assert HasToken(env.storage);
    var page := new Workspace.MainPage(env);
    page.FetchProfile(Ok(details));
    page.Logout(false);
  }
}
