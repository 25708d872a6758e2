/**
 * The email-verification form (src/auth/verify-email.tsx): a code input
 * that keeps digits only, a submit that posts the code, and a separate
 * resend action with its own loading flag. The email comes from the
 * navigation state the screen was opened with.
 */
module VerifyEmail {
  import opened Wrappers
  import opened Http
  import opened JsText
  import opened Browser

  const VerifyUrl := "/verify-email"
  const ResendUrl := "/api/resend-verification-email/"
  const HomePath := "/"
  const CodeLength := 6

  const EnterCodeText := "Please enter the verification code."
  const CodeLengthText := "The verification code must be 6 digits long."
  const VerifiedText := "Verification successful!"
  const VerifyFailedText := "Verification failed. The code may be incorrect or expired."
  const UnexpectedError := "An unexpected error occurred."
  const ResentText := "A new verification code has been sent to your email."
  const ResendFailedText := "Failed to resend the code. Please try again in a moment."

  /** A character the pattern `[0-9]` matches. */
  predicate IsDigit(c: char) {
    '0' <= c <= '9'
  }

  predicate AllDigits(s: string) {
    forall k :: 0 <= k < |s| ==> IsDigit(s[k])
  }

  /** `s.replace(/[^0-9]/g, '')`: the digits of `s`, in their order. */
  function DigitsOnly(s: string): (r: string)
    ensures |r| <= |s|
  {
    if s == [] then [] else (if IsDigit(s[0]) then [s[0]] else []) + DigitsOnly(s[1..])
  }

  /** The stored code contains nothing but digits. */
  lemma {:induction false} DigitsOnlyAllDigits(s: string)
    ensures AllDigits(DigitsOnly(s))
  {
    if s != [] {
      DigitsOnlyAllDigits(s[1..]);
    }
  }

  /**
   * Filtering distributes over concatenation, so it keeps the digits in
   * the order they were typed; with the one-character case of the
   * definition this determines the filter completely.
   */
  lemma {:induction false} DigitsOnlyAppend(a: string, b: string)
    ensures DigitsOnly(a + b) == DigitsOnly(a) + DigitsOnly(b)
  {
    if a == [] {
      assert a + b == b;
    } else {
      var head := if IsDigit(a[0]) then [a[0]] else [];
      assert (a + b)[0] == a[0] && (a + b)[1..] == a[1..] + b;
      calc {
        DigitsOnly(a + b);
        head + DigitsOnly(a[1..] + b);
        { DigitsOnlyAppend(a[1..], b); }
        head + (DigitsOnly(a[1..]) + DigitsOnly(b));
        (head + DigitsOnly(a[1..])) + DigitsOnly(b);
      }
    }
  }

  /** A string of digits is left as it is. */
  lemma {:induction false} DigitsOnlyKeepsDigits(s: string)
    requires AllDigits(s)
    ensures DigitsOnly(s) == s
  {
    if s != [] {
      DigitsOnlyKeepsDigits(s[1..]);
    }
  }

  /** Filtering twice is filtering once. */
  lemma DigitsOnlyIdempotent(s: string)
    ensures DigitsOnly(DigitsOnly(s)) == DigitsOnly(s)
  {
    DigitsOnlyAllDigits(s);
    DigitsOnlyKeepsDigits(DigitsOnly(s));
  }

  /** Every digit of the input survives as often as it occurs; everything else is removed. */
  lemma {:induction false} DigitsOnlyCounts(s: string, c: char)
    ensures multiset(DigitsOnly(s))[c] == if IsDigit(c) then multiset(s)[c] else 0
  {
    if s != [] {
      DigitsOnlyCounts(s[1..], c);
      assert s == [s[0]] + s[1..];
      assert multiset(s) == multiset([s[0]]) + multiset(s[1..]);
    }
  }

  /** A string of digits is blank exactly when it is empty, and its `.length` is its size. */
  lemma DigitsTrimAndLength(s: string)
    requires AllDigits(s)
    ensures Trim(s) == s && JsLength(s) == |s|
  {
    TrimNoWhitespace(s);
    JsLengthBmp(s);
  }

  /** The body `{ email, code }`, where an `undefined` email is left out. */
  function VerifyBody(email: Option<string>, code: string): Body {
    WithField(map["code" := code], "email", email)
  }

  function ResendBody(email: Option<string>): Body {
    WithField(map[], "email", email)
  }

  class Verification {
    const env: Tab
    const email: Option<string>
    var code: string
    var loading: bool
    var loading2: bool
    var error: Option<string>
    var codeError: Option<string>
    var success: Option<string>
    /** Scheduled two-second timers that will navigate home. */
    var redirects: nat

    /**
     * What the handlers keep true between events: nothing is in flight,
     * the code holds digits only, and the length error is shown exactly
     * when a code was typed whose length is not six.
     */
    ghost predicate Valid()
      reads this
    {
      && !loading && !loading2
      && AllDigits(code)
      && (codeError.Some? <==> code != [] && |code| != CodeLength)
      && (codeError.Some? ==> codeError.value == CodeLengthText)
    }

    /** Mounting the screen reads `location.state?.email`. */
    constructor (env: Tab)
      ensures Valid() && this.env == env && email == env.location.email
      ensures code == "" && error.None? && codeError.None? && success.None? && redirects == 0
    {
      this.env := env;
      email := env.location.email;
      code := "";
      loading, loading2 := false, false;
      error, codeError, success := None, None, None;
      redirects := 0;
    }

    /**
     * `handleCodeChange`: stores the input with every non-digit removed
     * and shows the length error exactly when that code is non-empty and
     * not six digits long.
     */
    method CodeChange(input: string)
      requires Valid()
      modifies this`code, this`codeError
      ensures Valid()
      ensures code == DigitsOnly(input)
      ensures codeError == (if code != [] && |code| != CodeLength then Some(CodeLengthText) else None)
    {
      var value := DigitsOnly(input);
      DigitsOnlyAllDigits(input);
      DigitsTrimAndLength(value);
      code := value;
      if JsLength(Trim(value)) > 0 && JsLength(Trim(value)) != CodeLength {
        codeError := Some(CodeLengthText);
      } else {
        codeError := None;
      }
    }

    /**
     * `handleSubmit`, with `outcome` the result of the verification post.
     * An empty code only reports that a code is needed; an outstanding
     * length error stops the submit silently. Otherwise the code is posted
     * with the email; success shows its message and schedules the
     * navigation home, a failure shows the detail or its fallback.
     */
    method Submit(outcome: Outcome<()>)
      requires Valid()
      modifies this`loading, this`error, this`success, this`redirects, env
      ensures Valid()
      ensures old(code) == [] ==>
                error == Some(EnterCodeText) && success == old(success) && redirects == old(redirects) && unchanged(env)
      ensures old(code) != [] && old(codeError).Some? ==>
                error == old(error) && success == old(success) && redirects == old(redirects) && unchanged(env)
      ensures old(code) != [] && old(codeError).None? ==>
                && env.sent == old(env.sent) + [Outgoing(Post, VerifyUrl, VerifyBody(email, code), env.storage)]
                && env.storage == old(env.storage) && env.location == old(env.location)
                && (outcome.Ok? ==> success == Some(VerifiedText) && error.None? && redirects == old(redirects) + 1)
                && (outcome.HttpErr? ==>
                      error == Some(ErrorText(outcome.detail, VerifyFailedText)) && success.None? && redirects == old(redirects))
                && (outcome.OtherErr? ==> error == Some(UnexpectedError) && success.None? && redirects == old(redirects))
    {
      DigitsTrimAndLength(code);
      if IsBlank(code) {
        error := Some(EnterCodeText);
        return;
      }
      if codeError.Some? {
        return;
      }
      loading := true;
      error := None;
      success := None;
      env.Send(Post, VerifyUrl, VerifyBody(email, code));
      match outcome {
        case Ok(_) =>
          success := Some(VerifiedText);
          redirects := redirects + 1;
        case HttpErr(_, detail) =>
          error := Some(ErrorText(detail, VerifyFailedText));
        case OtherErr =>
          error := Some(UnexpectedError);
      }
      loading := false;
    }

    /**
     * `handleResend`, with `outcome` the result of the resend post. It
     * clears both messages and always posts `{ email }`; success shows the
     * "new code" message, an axios failure the detail or its fallback, and
     * any other failure leaves the error cleared. The submit's loading flag
     * is outside its frame.
     */
    method Resend(outcome: Outcome<()>)
      requires Valid()
      modifies this`loading2, this`error, this`success, env
      ensures Valid()
      ensures env.sent == old(env.sent) + [Outgoing(Post, ResendUrl, ResendBody(email), env.storage)]
      ensures env.storage == old(env.storage) && env.location == old(env.location)
      ensures outcome.Ok? ==> success == Some(ResentText) && error.None?
      ensures outcome.HttpErr? ==> error == Some(ErrorText(outcome.detail, ResendFailedText)) && success.None?
      ensures outcome.OtherErr? ==> error.None? && success.None?
    {
      loading2 := true;
      error := None;
      success := None;
      env.Send(Post, ResendUrl, ResendBody(email));
      match outcome {
        case Ok(_) =>
          success := Some(ResentText);
        case HttpErr(_, detail) =>
          error := Some(ErrorText(detail, ResendFailedText));
        case OtherErr =>
      }
      loading2 := false;
    }

    /** One scheduled timer fires: `navigate('/')`. */
    method FireRedirect()
      requires Valid() && redirects > 0
      modifies this`redirects, env
      ensures Valid()
      ensures redirects == old(redirects) - 1
      ensures env.location == Location(HomePath, None)
      ensures env.sent == old(env.sent) && env.storage == old(env.storage)
    {
      redirects := redirects - 1;
      env.Navigate(HomePath, None);
    }
  }
}
