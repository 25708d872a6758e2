/**
 * The main workspace (src/client/main.tsx): essay scoring, the settings
 * form, logout, account deletion and the profile fetch on mount. Its
 * request status lives in one `apiState` record that the handlers update
 * field by field.
 */
module Workspace {
  import opened Wrappers
  import opened Http
  import opened JsText
  import opened AxiosConfig
  import opened Browser

  const InfoUrl := "/api/main/info/"
  const StorageUrl := "/api/main/storage/"
  const ScoringUrl := "/api/main/response/"
  const DeleteUrl := "/api/main/user/delete"
  const LoginPath := "/login"
  const Unauthorized := 401

  const DefaultModel := "gemini-2.5-flash"
  const DefaultLanguage := "English"

  const FetchFailedText := "Something went wrong while fetching user data."
  const SettingsSavedText := "Settings updated successfully!"
  const SettingsFailedText := "Failed to update settings."
  const BothEmptyText := "Topic and Essay fields are empty."
  const TopicEmptyText := "Please enter the essay topic."
  const EssayEmptyText := "Please enter your essay."
  const ScoringFailedText := "An error occurred during scoring."
  const ScoringUnexpectedText := "An unexpected error occurred"
  const LogoutFailedText := "Logout failed"
  const DeleteFailedText := "Failed to delete account."

  /** The scoring endpoint's answer, held as received. */
  datatype ScoringResponse = ScoringResponse(
    overall: real, tr: real, lr: real, cc: real, gra: real, reason: string, improvement: string)

  /** The profile endpoint's answer; `apiKey` and `language` may be null. */
  datatype UserDetails = UserDetails(userEmail: string, apiKey: Option<string>, language: Option<string>)

  /** The `apiState` record. */
  datatype ApiState = ApiState(loading: bool, error: Option<string>, success: Option<string>, score: Option<ScoringResponse>)

  /** Which of the scoring preconditions fails, checked in the source's order. */
  datatype ScoreVerdict = BothEmpty | TopicEmpty | EssayEmpty | Ready

  /**
   * The specification of the scoring preconditions: both inputs blank,
   * then the topic alone, then the essay alone each have their own
   * message, and a request is made exactly when neither is blank.
   */
  function ScoreCheck(topic: string, essay: string): (v: ScoreVerdict)
    ensures v == BothEmpty <==> IsBlank(topic) && IsBlank(essay)
    ensures v == TopicEmpty <==> IsBlank(topic) && !IsBlank(essay)
    ensures v == EssayEmpty <==> !IsBlank(topic) && IsBlank(essay)
    ensures v == Ready <==> !IsBlank(topic) && !IsBlank(essay)
  {
    if IsBlank(topic) && IsBlank(essay) then BothEmpty
    else if IsBlank(topic) then TopicEmpty
    else if IsBlank(essay) then EssayEmpty
    else Ready
  }

  /** The message each failed precondition shows. */
  function RejectionText(v: ScoreVerdict): string
    requires v != Ready
  {
    match v
    case BothEmpty => BothEmptyText
    case TopicEmpty => TopicEmptyText
    case EssayEmpty => EssayEmptyText
  }

  /** The three preconditions show three different messages. */
  lemma RejectionTextsDistinct(v: ScoreVerdict, w: ScoreVerdict)
    requires v != Ready && w != Ready && v != w
    ensures RejectionText(v) != RejectionText(w)
  {
  }

  function ScoringBody(model: string, topic: string, essay: string): Body {
    map["model" := model, "input_topic" := topic, "input_essay" := essay]
  }

  function SettingsBody(language: string, apiKey: string): Body {
    map["user_language" := language, "api_key" := apiKey]
  }

  class MainPage {
    const env: Tab
    var topic: string
    var essay: string
    var model: string
    var language: string
    var apiKey: string
    var userEmail: string
    var apiState: ApiState
    var updateLoading: bool
    var logoutLoading: bool
    var deleteLoading: bool
    /** Scheduled 1.5-second timers that will clear the settings success message. */
    var settingsTimers: nat

    /** Between events neither a scoring nor a settings request is in flight. */
    ghost predicate Valid()
      reads this
    {
      !apiState.loading && !updateLoading
    }

    constructor (env: Tab)
      ensures Valid() && this.env == env
      ensures topic == "" && essay == "" && model == DefaultModel && language == DefaultLanguage
      ensures apiKey == "" && userEmail == ""
      ensures apiState == ApiState(false, None, None, None)
      ensures !logoutLoading && !deleteLoading && settingsTimers == 0
    {
      this.env := env;
      topic, essay, model, language := "", "", DefaultModel, DefaultLanguage;
      apiKey, userEmail := "", "";
      apiState := ApiState(false, None, None, None);
      updateLoading, logoutLoading, deleteLoading := false, false, false;
      settingsTimers := 0;
    }

    /** The topic input's `onChange`, and its clear button with `value == ""`. */
    method SetTopic(value: string)
      requires Valid()
      modifies this`topic
      ensures Valid() && topic == value
    {
      topic := value;
    }

    /** The essay input's `onChange`. */
    method SetEssay(value: string)
      requires Valid()
      modifies this`essay
      ensures Valid() && essay == value
    {
      essay := value;
    }

    /** The API key input's `onChange`. */
    method SetApiKey(value: string)
      requires Valid()
      modifies this`apiKey
      ensures Valid() && apiKey == value
    {
      apiKey := value;
    }

    /** `handleSelectModel`. */
    method SelectModel(modelId: string)
      requires Valid()
      modifies this`model
      ensures Valid() && model == modelId
    {
      model := modelId;
    }

    /** `handleSelectLanguage`: only changes the selection; nothing is saved. */
    method SelectLanguage(langCode: string)
      requires Valid()
      modifies this`language
      ensures Valid() && language == langCode
    {
      language := langCode;
    }

    /**
     * The profile fetch run on mount, with `outcome` the result of the GET.
     * Success sets the email and takes the key and language only when they
     * are truthy; a 401 goes to the login screen; another axios failure
     * sets the error to the detail or its fallback; anything else is
     * ignored.
     */
    method FetchProfile(outcome: Outcome<UserDetails>)
      requires Valid()
      modifies this`userEmail, this`apiKey, this`language, this`apiState, env
      ensures Valid()
      ensures env.sent == old(env.sent) + [Outgoing(Get, InfoUrl, map[], env.storage)]
      ensures env.storage == old(env.storage)
      ensures outcome.Ok? ==>
                && userEmail == outcome.data.userEmail
                && apiKey == (if Truthy(outcome.data.apiKey) then outcome.data.apiKey.value else old(apiKey))
                && language == (if Truthy(outcome.data.language) then outcome.data.language.value else old(language))
                && apiState == old(apiState) && env.location == old(env.location)
      ensures !outcome.Ok? ==>
                userEmail == old(userEmail) && apiKey == old(apiKey) && language == old(language)
      ensures outcome.HttpErr? && outcome.status == Some(Unauthorized) ==>
                env.location == Location(LoginPath, None) && apiState == old(apiState)
      ensures outcome.HttpErr? && outcome.status != Some(Unauthorized) ==>
                && env.location == old(env.location)
                && apiState == old(apiState).(error := Some(ErrorText(outcome.detail, FetchFailedText)))
      ensures outcome.OtherErr? ==> env.location == old(env.location) && apiState == old(apiState)
    {
      env.Send(Get, InfoUrl, map[]);
      match outcome {
        case Ok(data) =>
          userEmail := data.userEmail;
          if Truthy(data.apiKey) {
            apiKey := data.apiKey.value;
          }
          if Truthy(data.language) {
            language := data.language.value;
          }
        case HttpErr(status, detail) =>
          if status == Some(Unauthorized) {
            env.Navigate(LoginPath, None);
          } else {
            var serverError := ErrorText(detail, FetchFailedText);
            apiState := apiState.(error := Some(serverError));
          }
        case OtherErr =>
      }
    }

    /**
     * `update_data`, with `outcome` the result of the settings post. Both
     * messages are cleared and `{ user_language, api_key }` is posted;
     * success shows its message and schedules the timer that clears it,
     * an axios failure shows the detail or its fallback, any other failure
     * nothing. The loading flag ends false whatever happens.
     */
    method UpdateData(outcome: Outcome<()>)
      requires Valid()
      modifies this`updateLoading, this`apiState, this`settingsTimers, env
      ensures Valid()
      ensures env.sent == old(env.sent) + [Outgoing(Post, StorageUrl, SettingsBody(language, apiKey), env.storage)]
      ensures env.storage == old(env.storage) && env.location == old(env.location)
      ensures apiState.loading == old(apiState.loading) && apiState.score == old(apiState.score)
      ensures outcome.Ok? ==>
                apiState.success == Some(SettingsSavedText) && apiState.error.None? && settingsTimers == old(settingsTimers) + 1
      ensures outcome.HttpErr? ==>
                && apiState.error == Some(ErrorText(outcome.detail, SettingsFailedText))
                && apiState.success.None? && settingsTimers == old(settingsTimers)
      ensures outcome.OtherErr? ==>
                apiState.error.None? && apiState.success.None? && settingsTimers == old(settingsTimers)
    {
      var payload := SettingsBody(language, apiKey);
      updateLoading := true;
      apiState := apiState.(error := None, success := None);
      env.Send(Post, StorageUrl, payload);
      match outcome {
        case Ok(_) =>
          apiState := apiState.(success := Some(SettingsSavedText));
          settingsTimers := settingsTimers + 1;
        case HttpErr(_, detail) =>
          var serverError := ErrorText(detail, SettingsFailedText);
          apiState := apiState.(error := Some(serverError));
        case OtherErr =>
      }
      updateLoading := false;
    }

    /** One settings timer fires: the success message is cleared. */
    method FireSettingsTimer()
      requires Valid() && settingsTimers > 0
      modifies this`apiState, this`settingsTimers
      ensures Valid()
      ensures settingsTimers == old(settingsTimers) - 1
      ensures apiState == old(apiState).(success := None)
    {
      settingsTimers := settingsTimers - 1;
      apiState := apiState.(success := None);
    }

    /**
     * `scoring`, with `outcome` the result of the scoring post. A failed
     * precondition only sets its own message; loading, success and score
     * are left alone and nothing is sent. Otherwise the record is reset,
     * the model and both texts are posted, and the record ends with either
     * the new score or the error, loading false.
     */
    method Score(outcome: Outcome<ScoringResponse>)
      requires Valid()
      modifies this`apiState, env
      ensures Valid()
      ensures old(ScoreCheck(topic, essay)) != Ready ==>
                apiState == old(apiState).(error := Some(RejectionText(old(ScoreCheck(topic, essay))))) && unchanged(env)
      ensures old(ScoreCheck(topic, essay)) == Ready ==>
                && env.sent == old(env.sent) + [Outgoing(Post, ScoringUrl, ScoringBody(model, topic, essay), env.storage)]
                && env.storage == old(env.storage) && env.location == old(env.location)
                && (outcome.Ok? ==> apiState == ApiState(false, None, None, Some(outcome.data)))
                && (outcome.HttpErr? ==>
                      apiState == ApiState(false, Some(ErrorText(outcome.detail, ScoringFailedText)), None, None))
                && (outcome.OtherErr? ==> apiState == ApiState(false, Some(ScoringUnexpectedText), None, None))
    {
      if IsBlank(topic) && IsBlank(essay) {
        apiState := apiState.(error := Some(BothEmptyText));
        return;
      }
      if IsBlank(topic) {
        apiState := apiState.(error := Some(TopicEmptyText));
        return;
      }
      if IsBlank(essay) {
        apiState := apiState.(error := Some(EssayEmptyText));
        return;
      }
      apiState := ApiState(true, None, None, None);
      env.Send(Post, ScoringUrl, ScoringBody(model, topic, essay));
      match outcome {
        case Ok(data) =>
          apiState := apiState.(loading := false, score := Some(data));
        case HttpErr(_, detail) =>
          var serverError := ErrorText(detail, ScoringFailedText);
          apiState := apiState.(loading := false, error := Some(serverError));
        case OtherErr =>
          apiState := apiState.(loading := false, error := Some(ScoringUnexpectedText));
      }
    }

    /**
     * `Logout`, with `removeThrows` saying whether `localStorage.removeItem`
     * throws. Both messages are cleared; normally the token is removed and
     * the app goes to the login screen, and if removal throws the error is
     * set and the button is enabled again. No request is sent.
     */
    method Logout(removeThrows: bool)
      requires Valid()
      modifies this`logoutLoading, this`apiState, env
      ensures Valid()
      ensures env.sent == old(env.sent)
      ensures apiState.loading == old(apiState.loading) && apiState.score == old(apiState.score) && apiState.success.None?
      ensures !removeThrows ==>
                && env.storage == old(env.storage) - {AccessTokenKey}
                && env.location == Location(LoginPath, None)
                && apiState.error.None? && logoutLoading
      ensures removeThrows ==>
                && env.storage == old(env.storage) && env.location == old(env.location)
                && apiState.error == Some(LogoutFailedText) && !logoutLoading
    {
      logoutLoading := true;
      apiState := apiState.(success := None, error := None);
      if !removeThrows {
        env.RemoveItem(AccessTokenKey);
        env.Navigate(LoginPath, None);
      } else {
        apiState := apiState.(error := Some(LogoutFailedText));
        logoutLoading := false;
      }
    }

    /**
     * `handleDeleteAccount`, with `confirmed` the answer to the
     * confirmation dialog and `outcome` the result of the DELETE. Declining
     * changes nothing and sends nothing. After confirming, both messages are
     * cleared and the DELETE is sent; success removes the token and goes to
     * the login screen, a failure keeps the token, shows the detail or its
     * fallback for an axios error, and enables the button again.
     */
    method DeleteAccount(confirmed: bool, outcome: Outcome<()>)
      requires Valid()
      modifies this`deleteLoading, this`apiState, env
      ensures Valid()
      ensures !confirmed ==> unchanged(this) && unchanged(env)
      ensures confirmed ==>
                && env.sent == old(env.sent) + [Outgoing(Delete, DeleteUrl, map[], old(env.storage))]
                && apiState.loading == old(apiState.loading) && apiState.score == old(apiState.score)
                && apiState.success.None?
                && (outcome.Ok? ==>
                      && env.storage == old(env.storage) - {AccessTokenKey}
                      && env.location == Location(LoginPath, None)
                      && apiState.error.None? && deleteLoading)
                && (outcome.HttpErr? ==>
                      && env.storage == old(env.storage) && env.location == old(env.location)
                      && apiState.error == Some(ErrorText(outcome.detail, DeleteFailedText)) && !deleteLoading)
                && (outcome.OtherErr? ==>
                      && env.storage == old(env.storage) && env.location == old(env.location)
                      && apiState.error.None? && !deleteLoading)
    {
      if confirmed {
        deleteLoading := true;
        apiState := apiState.(error := None, success := None);
        env.Send(Delete, DeleteUrl, map[]);
        match outcome {
          case Ok(_) =>
            env.RemoveItem(AccessTokenKey);
            env.Navigate(LoginPath, None);
          case HttpErr(_, detail) =>
            var serverError := ErrorText(detail, DeleteFailedText);
            apiState := apiState.(error := Some(serverError));
            deleteLoading := false;
          case OtherErr =>
            deleteLoading := false;
        }
      }
    }

    /** `clearInputs`: empties both inputs and clears error, score and success, leaving loading alone. */
    method ClearInputs()
      requires Valid()
      modifies this`topic, this`essay, this`apiState
      ensures Valid()
      ensures topic == "" && essay == ""
      ensures apiState == ApiState(old(apiState.loading), None, None, None)
    {
      topic := "";
      essay := "";
      apiState := apiState.(error := None, score := None, success := None);
    }
  }
}
