# Client-side decision logic of an essay-scoring web client

This project models the event handlers of a React single-page client for an
essay-scoring service. The modelled parts are the registration, email
verification and sign-in forms, the main workspace (scoring, settings,
logout, account deletion, profile fetch), and the request interceptor that
attaches the bearer token.

Each screen is a Dafny `class`. Its fields are the component's `useState`
variables. Each handler is a `method` that runs as one atomic step. What the
server answers is a parameter of type
`Outcome<T> = Ok(data) | HttpErr(status, detail) | OtherErr`.
`HttpErr` is an axios error, with an optional status and an optional
`detail`. `OtherErr` is any other thrown value.

All screens share one `Browser.Tab` object. It holds:

- localStorage: a `map<string, string>`;
- the router location: a path plus the optional `{ email }` navigation state;
- the log of every request sent through the HTTP client.

`Tab.Send` runs the request interceptor on a fresh request config, then logs
the result. The handlers' contracts therefore state exactly which request
went out, with which body and which `Authorization` header.

Timers created with `setTimeout` are recorded as pending tasks. Separate
`Fire…` methods run them.

Each screen has a `Valid()` invariant that its constructor sets up and every
handler preserves. For the registration form, `Valid()` says three things:

- no request is in flight (`loading` is false);
- the length error is shown exactly when the trimmed password is 1 to 7
  UTF-16 code units long;
- a confirm error is only shown when the two passwords differ.

From this, `Submit` proves that a registration request is sent only for
filled fields, matching passwords and a trimmed password of at least 8
code units.

JavaScript semantics are written out where they matter:

- `trim` strips ECMAScript's WhiteSpace and LineTerminator code points;
- `.length` counts UTF-16 code units;
- a string is truthy when it is non-empty;
- `{ email, code }` with an `undefined` email is sent without the key, as
  `JSON.stringify` does.

Where the code and its design description differ, the model follows the
code:

- The request paths are the code's (`/api/register/`, `/api/main/...`).
- At submit, registration checks only blank fields and mismatching
  passwords. The length rule lives in the live password error.
- Only one handler reacts to 401: the workspace's profile fetch.
- Changing the language does not save it.
- Verification submit does not re-check the code's length. It only refuses
  an empty code, or a code whose live length error is set.

## Model

| member | source | states |
|---|---|---|
| `JsText.TrimStart` | src/auth/register.tsx:41 | trimming the start never lengthens the string |
| `JsText.TrimEnd` | src/auth/register.tsx:41 | trimming the end never lengthens the string |
| `JsText.Trim` | src/auth/register.tsx:41 | `trim()` never lengthens the string |
| `JsText.TrimStartSlice` | src/auth/register.tsx:41 | the start trim removes a whitespace-only prefix and stops at a non-whitespace character |
| `JsText.TrimEndSlice` | src/auth/register.tsx:41 | the end trim removes a whitespace-only suffix and stops at a non-whitespace character |
| `JsText.TrimIsSlice` | src/auth/register.tsx:41 | `trim()` returns the slice of the input between a whitespace-only prefix and suffix, and that slice begins and ends with non-whitespace |
| `JsText.BlankIffAllWhitespace` | src/auth/register.tsx:41 | `!s.trim()` holds exactly when every character of `s` is whitespace |
| `JsText.TrimNoWhitespace` | src/auth/verify-email.tsx:78 | a string without whitespace is unchanged by `trim()` |
| `JsText.JsLength` | src/auth/register.tsx:78 | `.length` lies between the number of code points and twice that, and is 0 only for the empty string |
| `JsText.JsLengthBmp` | src/auth/verify-email.tsx:78 | for Basic Multilingual Plane text, `.length` is the number of code points |
| `Http.ErrorText` | src/auth/register.tsx:64 | `detail \|\| fallback`: the detail when it is non-empty, otherwise the fallback, so the message is never empty |
| `Http.WithField` | src/auth/verify-email.tsx:40 | a body field whose value is `undefined` is absent, and no other key is affected |
| `AxiosConfig.WithBearer` | src/axiosConfig.tsx:12-15 | with a truthy stored token, `Authorization` becomes "Bearer " + token; otherwise the headers are unchanged; no other header is touched either way |
| `AxiosConfig.WithBearerIdempotent` | src/axiosConfig.tsx:12-15 | running the interceptor twice gives the same headers as running it once |
| `AxiosConfig.OnRequest` | src/axiosConfig.tsx:10-17 | mutates the given config's headers as `WithBearer` says, keeps method, URL and body, and returns the same object; storage is only read |
| `AxiosConfig.OnRequestError` | src/axiosConfig.tsx:19-21 | the error branch rejects with the error it was given |
| `Browser.Tab.Send` | src/axiosConfig.tsx:5-22 | an `apiClient` call appends exactly one request, with the interceptor's headers; storage and location are unchanged |
| `Browser.Tab.Navigate` | src/auth/register.tsx:61 | `navigate(path, { state: { email } })` sets the location and nothing else |
| `Browser.Tab.SetItem` | src/auth/login.tsx:50 | `localStorage.setItem` updates one key and nothing else |
| `Browser.Tab.RemoveItem` | src/client/main.tsx:171 | `localStorage.removeItem` removes one key and nothing else |
| `Register.SubmitVerdict` | src/auth/register.tsx:41-53 | submit guards, in order: any blank field, then a password mismatch, then an outstanding field error; the request is made exactly when none of these holds |
| `Register.Registration.constructor` | src/auth/register.tsx:28-35 | empty fields, no errors, not loading; the invariant holds |
| `Register.Registration.SetEmail` | src/auth/register.tsx:145 | sets the email; the invariant is kept |
| `Register.Registration.SetFullName` | src/auth/register.tsx:127 | sets the full name; the invariant is kept |
| `Register.Registration.PasswordChange` | src/auth/register.tsx:74-89 | sets the password; the length error is set iff the trimmed password is 1 to 7 long; the confirm error is set iff the confirmation is non-empty and differs |
| `Register.Registration.Password2Change` | src/auth/register.tsx:91-100 | sets the confirmation; the confirm error is set iff the password is non-empty and differs |
| `Register.Registration.Submit` | src/auth/register.tsx:39-72 | a blank field sets 'Please fill in all required fields.', a mismatch sets the confirm error, and an outstanding error returns silently, each sending nothing; otherwise it posts `{email, password, full_name}`, and then goes to '/verify-email' with `{email}` or sets the detail or its fallback; loading ends false; a request implies filled fields, equal passwords and a trimmed password of length 8 or more |
| `VerifyEmail.DigitsOnly` | src/auth/verify-email.tsx:76 | the digit filter never lengthens its input |
| `VerifyEmail.DigitsOnlyAllDigits` | src/auth/verify-email.tsx:76 | the filtered code contains only digits |
| `VerifyEmail.DigitsOnlyAppend` | src/auth/verify-email.tsx:76 | filtering distributes over concatenation, so digits keep their order |
| `VerifyEmail.DigitsOnlyKeepsDigits` | src/auth/verify-email.tsx:76 | a digit string passes through the filter unchanged |
| `VerifyEmail.DigitsOnlyIdempotent` | src/auth/verify-email.tsx:76-77 | filtering twice equals filtering once |
| `VerifyEmail.DigitsOnlyCounts` | src/auth/verify-email.tsx:76 | each digit occurs in the output as often as in the input; every non-digit is removed |
| `VerifyEmail.DigitsTrimAndLength` | src/auth/verify-email.tsx:78 | for a digit string, `trim()` is the identity and `.length` is its size |
| `VerifyEmail.Verification.constructor` | src/auth/verify-email.tsx:18-25 | the email is read from the navigation state; the code is empty and no message is shown |
| `VerifyEmail.Verification.CodeChange` | src/auth/verify-email.tsx:75-83 | stores the input with its non-digits removed; the length error is set iff the code is non-empty and its length is not 6 |
| `VerifyEmail.Verification.Submit` | src/auth/verify-email.tsx:27-56 | an empty code sets 'Please enter the verification code.' and a set length error returns, neither sending anything; otherwise it clears both messages and posts `{email, code}`; success sets 'Verification successful!' and schedules the redirect home; failure sets the detail or its fallback; loading ends false |
| `VerifyEmail.Verification.Resend` | src/auth/verify-email.tsx:58-73 | clears both messages and posts `{email}`; success sets the new-code message; an axios failure sets the detail or its fallback; any other failure leaves the error cleared; the submit loading flag is never touched |
| `VerifyEmail.Verification.FireRedirect` | src/auth/verify-email.tsx:43-45 | a scheduled timer navigates to '/' |
| `Login.LoginForm.constructor` | src/auth/login.tsx:22-25 | empty fields, no error, not loading, nothing scheduled |
| `Login.LoginForm.SetEmail` | src/auth/login.tsx:107 | sets the email |
| `Login.LoginForm.SetPassword` | src/auth/login.tsx:125 | sets the password |
| `Login.LoginForm.VisitorMode` | src/auth/login.tsx:30-33 | fills in 'test@test.com' / '12345678' and sends nothing |
| `Login.LoginForm.HandleLogin` | src/auth/login.tsx:35-80 | a blank field sets 'Please fill in both email and password.', sends nothing and leaves loading as it was; otherwise it posts the untrimmed credentials; a truthy token is stored under 'accessToken' and the app navigates '/'; a tokenless success sets its message; a 403 sets the unverified message and queues exactly one task for the submitted email; any other failure sets the detail or its fallback; loading ends false |
| `Login.LoginForm.FireResendTask` | src/auth/login.tsx:63-70 | the oldest task posts a resend for its captured email, then navigates to '/verify-email' with `{email}`, whatever the resend's outcome |
| `Workspace.ScoreCheck` | src/client/main.tsx:149-151 | scoring preconditions: both blank, topic blank, essay blank, checked in that order; a request is made exactly when neither is blank |
| `Workspace.RejectionTextsDistinct` | src/client/main.tsx:149-151 | the three precondition messages are pairwise different |
| `Workspace.MainPage.constructor` | src/client/main.tsx:70-93 | the initial state: model 'gemini-2.5-flash', language 'English', an empty apiState, no flags set |
| `Workspace.MainPage.SetTopic` | src/client/main.tsx:316 | sets the topic |
| `Workspace.MainPage.SetEssay` | src/client/main.tsx:334 | sets the essay |
| `Workspace.MainPage.SetApiKey` | src/client/main.tsx:270 | sets the API key |
| `Workspace.MainPage.SelectModel` | src/client/main.tsx:204-207 | sets the model |
| `Workspace.MainPage.SelectLanguage` | src/client/main.tsx:209-212 | sets the language and sends nothing |
| `Workspace.MainPage.FetchProfile` | src/client/main.tsx:98-118 | GETs the profile; success sets userEmail, and apiKey and language only when the returned values are truthy; a 401 navigates '/login'; another axios failure sets the detail or its fallback; any other failure changes nothing |
| `Workspace.MainPage.UpdateData` | src/client/main.tsx:126-146 | clears both messages and posts `{user_language, api_key}`; success sets its message and schedules the clearing timer; an axios failure sets the detail or its fallback; updateLoading ends false |
| `Workspace.MainPage.FireSettingsTimer` | src/client/main.tsx:134-137 | the timer clears the success message |
| `Workspace.MainPage.Score` | src/client/main.tsx:148-165 | a failed precondition sets only its message and sends nothing; otherwise apiState is reset, model, topic and essay are posted, and apiState ends not loading, holding either the score or the detail, 'An error occurred during scoring.' or 'An unexpected error occurred' |
| `Workspace.MainPage.Logout` | src/client/main.tsx:167-178 | clears both messages; removes 'accessToken' and navigates '/login'; if removal throws, sets 'Logout failed' and resets logoutLoading; sends nothing |
| `Workspace.MainPage.DeleteAccount` | src/client/main.tsx:180-196 | declining changes nothing; after confirming, sends the DELETE; success removes 'accessToken' and navigates '/login'; failure keeps the token, sets the detail or 'Failed to delete account.' for axios errors, and resets deleteLoading |
| `Workspace.MainPage.ClearInputs` | src/client/main.tsx:198-202 | empties topic and essay and clears error, score and success; loading is left as it was |
| `Scenarios.ShortPasswordIsBlocked` | src/auth/register.tsx:39-100 | "short" as both password and confirmation is refused before any request |
| `Scenarios.UnverifiedLoginRedirects` | src/auth/login.tsx:35-80 | a 403 login followed by its timer appends exactly two requests, the login post with the typed credentials and then one resend for the email, and lands on '/verify-email' with the email, even when the resend fails |
| `Scenarios.EmptyEssayIsRejected` | src/client/main.tsx:148-151 | a topic with an empty essay gives 'Please enter your essay.' and no request |
| `Scenarios.DeclinedDeletionChangesNothing` | src/client/main.tsx:180-181 | declining the confirmation sends nothing, keeps the token and does not navigate |
| `Scenarios.TokenReachesWorkspaceRequests` | src/axiosConfig.tsx:10-22 | after a login that returns a token, the profile fetch carries "Bearer " + token; after logout, no token is left to attach |

## Left out

- `src/client/playground.tsx` is a stub: it only declares state. The topic, ranking and essay navigator has no code to model.
- Three behaviours are absent from this code: publishing a scored essay to a topic, pre-filling the form from navigation state, and saving the language when the selector changes.
- `src/home.tsx` and `src/App.tsx` are left out: they are landing-page markup and the route table.
- All rendering is left out: icons, dropdowns, the visibility toggles for settings and API key, the scroll-into-view effect, and input attributes such as `maxLength`.
- `disabled` attributes are not preconditions. Every handler may be called in any state that satisfies `Valid()`, a superset of the states the UI allows.
- Asynchrony is not modelled: each handler is one atomic step, so no intermediate "loading" state is observable. Races between in-flight requests, unmounting, and the lengths of the 2-second and 1.5-second delays are left out. Timers fire in the order they were scheduled.
- `Workspace.MainPage.FireSettingsTimer`: does not model closing the settings panel, because panel visibility is left out. Only the clearing of the success message is modelled.
- The `Outcome` parameter stands in for axios and the network. A `detail` that is not a string, such as a list of validation errors, is not modelled.
- `window.confirm` is the boolean `confirmed`. Whether `localStorage.removeItem` throws in `Logout` is the boolean `removeThrows`.
- The other two storage calls are taken never to throw: `removeItem` after a successful account deletion (src/client/main.tsx:186) and `setItem` after a successful login (src/auth/login.tsx:50). If either threw, the handler would end as the model's `OtherErr` branch of that handler ends, except that the request has been sent.
- Dafny's `char` is a Unicode scalar value, so a JavaScript string holding an unpaired surrogate cannot be represented. Such a unit would count 1 towards `.length`, be kept by `trim` and be removed by the digit filter.
- `console.log` and `console.error` calls are not modelled. The login resend task's outcome only feeds `console.error`, so it changes no state.
- The request log records only the headers the interceptor adds. Three client settings are left out: axios's default headers, the base URL with its environment lookup, and `withCredentials`.
- Score values are kept as received. Formatting them with `toFixed` (floating point) is not modelled.
