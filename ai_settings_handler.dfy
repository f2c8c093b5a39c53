/**
 * The `ai_coach_settings` route (`ai-coach/handler/AISettingsHandler.ts`):
 * `get` shows the domain's settings, `post` defaults and validates the form
 * fields and then stores them.  A form field the request does not carry is
 * `None`; `count` is a number, the other text fields are strings.
 */
module AISettingsHandler {
  import opened Wrappers
  import opened AISettings

  const KEY_REQUIRED: string := "API key is required"
  const URL_REQUIRED: string := "API URL is required"
  const MODEL_REQUIRED: string := "API model is required"

  /** The count stored when the form's count is missing or zero. */
  const DEFAULT_COUNT: int := 10

  /** JavaScript falsiness of an optional string field: missing or empty. */
  predicate Falsy(f: Option<string>) {
    f.None? || f.value == ""
  }

  /**
   * The defaulting and validation of `post`: a missing `useAI` becomes false,
   * a missing or zero `count` becomes 10, and the first falsy field among
   * key, URL and model, in that order, rejects the request with its message.
   */
  function Validate(useAI: Option<bool>, count: Option<int>, key: Option<string>, url: Option<string>,
                    model: Option<string>): (r: Result<Settings, string>)
    ensures r.Success? <==> !Falsy(key) && !Falsy(url) && !Falsy(model)
    ensures Falsy(key) ==> r == Failure(KEY_REQUIRED)
    ensures !Falsy(key) && Falsy(url) ==> r == Failure(URL_REQUIRED)
    ensures !Falsy(key) && !Falsy(url) && Falsy(model) ==> r == Failure(MODEL_REQUIRED)
    ensures r.Success? ==>
              && r.value.useAI == (useAI == Some(true))
              && (count.None? || count.value == 0 ==> r.value.count == DEFAULT_COUNT)
              && (count.Some? && count.value != 0 ==> r.value.count == count.value)
              && Some(r.value.key) == key && Some(r.value.url) == url && Some(r.value.model) == model
  {
    var flag := useAI.GetOr(false);
    var n := if count.None? || count.value == 0 then DEFAULT_COUNT else count.value;
    if Falsy(key) then Failure(KEY_REQUIRED)
    else if Falsy(url) then Failure(URL_REQUIRED)
    else if Falsy(model) then Failure(MODEL_REQUIRED)
    else Success(Settings(flag, n, key.value, url.value, model.value))
  }

  /** `get`: the page's `credentials` are the domain's settings, created with the defaults on first read. */
  method Get(settings: SettingsTable, domainId: string) returns (credentials: Settings)
    modifies settings
    ensures credentials == SettingsOf(old(settings.records), domainId)
    ensures settings.records == AfterGet(old(settings.records), domainId)
  {
    credentials := settings.GetAISettings(domainId);
  }

  /**
   * `post`: a rejected request throws its message and stores nothing; an
   * accepted one writes exactly the validated five values for `domainId`.
   */
  method Post(settings: SettingsTable, domainId: string, useAI: Option<bool>, count: Option<int>,
              key: Option<string>, url: Option<string>, model: Option<string>) returns (error: Option<string>)
    modifies settings
    ensures var v := Validate(useAI, count, key, url, model);
            if v.Failure? then
              error == Some(v.error) && settings.records == old(settings.records)
            else
              error.None? && settings.records == AfterSet(old(settings.records), domainId, v.value)
  {
    var v := Validate(useAI, count, key, url, model);
    if v.Failure? {
      return Some(v.error);
    }
    var s := v.value;
    settings.SetAICredential(domainId, s.useAI, s.count, s.key, s.url, s.model);
    error := None;
  }

  /** No accepted request stores a zero count. */
  lemma StoredCountNonZero(useAI: Option<bool>, count: Option<int>, key: Option<string>, url: Option<string>,
                           model: Option<string>)
    requires Validate(useAI, count, key, url, model).Success?
    ensures Validate(useAI, count, key, url, model).value.count != 0
  {
  }

  /** Submitting the stored settings again stores them unchanged: validation is a fixed point on its output. */
  lemma ValidateFixedPoint(useAI: Option<bool>, count: Option<int>, key: Option<string>, url: Option<string>,
                           model: Option<string>)
    requires Validate(useAI, count, key, url, model).Success?
    ensures var s := Validate(useAI, count, key, url, model).value;
            Validate(Some(s.useAI), Some(s.count), Some(s.key), Some(s.url), Some(s.model)) == Success(s)
  {
  }

  /** After an accepted `post`, `get` on the same domain shows exactly the validated values and writes nothing. */
  lemma PostThenGet(records: map<string, Settings>, domainId: string, useAI: Option<bool>, count: Option<int>,
                    key: Option<string>, url: Option<string>, model: Option<string>)
    requires Validate(useAI, count, key, url, model).Success?
    ensures var s := Validate(useAI, count, key, url, model).value;
            && SettingsOf(AfterSet(records, domainId, s), domainId) == s
            && AfterGet(AfterSet(records, domainId, s), domainId) == AfterSet(records, domainId, s)
  {
    SetThenGet(records, domainId, Validate(useAI, count, key, url, model).value);
  }
}
