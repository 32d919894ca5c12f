/**
 * The LLM settings page: the loader's projection of the stored shop settings,
 * the action's construction of the settings update from the submitted form,
 * the provider-to-key-field mapping, and the page's own state (`useState`).
 *
 * Stored keys, form values and environment values are `string`s in which ""
 * stands for null or absent: the route only tests them for truthiness.
 */
module Settings {
  import opened Wrappers
  import Config

  // ---------------------------------------------------------------- loader

  /** What `getShopSettings` returns for a shop that has settings. */
  datatype ShopSettings = ShopSettings(
    llmProvider: string,
    claudeApiKey: string,
    openaiApiKey: string,
    geminiApiKey: string,
    groqApiKey: string,
    openrouterApiKey: string)

  function StoredKey(s: ShopSettings, p: Config.Provider): string
  {
    match p
    case Claude => s.claudeApiKey
    case Openai => s.openaiApiKey
    case Gemini => s.geminiApiKey
    case Groq => s.groqApiKey
    case Openrouter => s.openrouterApiKey
  }

  /** The loader's JSON. */
  datatype LoaderData = LoaderData(
    shop: string,
    llmProvider: string,
    isClaudeKeySet: bool,
    isOpenaiKeySet: bool,
    isGeminiKeySet: bool,
    isGroqKeySet: bool,
    isOpenrouterKeySet: bool)

  function KeySet(d: LoaderData, p: Config.Provider): bool
  {
    match p
    case Claude => d.isClaudeKeySet
    case Openai => d.isOpenaiKeySet
    case Gemini => d.isGeminiKeySet
    case Groq => d.isGroqKeySet
    case Openrouter => d.isOpenrouterKeySet
  }

  /**
   * The provider shown is the shop's setting, else `LLM_PROVIDER`, else
   * `claude`; each flag says whether that provider's stored key is non-empty,
   * and every flag is false for a shop without settings. No key leaves.
   */
  function Loader(shop: string, settings: Option<ShopSettings>, envProvider: string): (d: LoaderData)
    ensures d.shop == shop
    ensures settings.Some? && settings.value.llmProvider != "" ==> d.llmProvider == settings.value.llmProvider
    ensures (settings.None? || settings.value.llmProvider == "") && envProvider != "" ==> d.llmProvider == envProvider
    ensures (settings.None? || settings.value.llmProvider == "") && envProvider == "" ==> d.llmProvider == "claude"
    ensures forall p: Config.Provider :: KeySet(d, p) <==> settings.Some? && StoredKey(settings.value, p) != ""
  {
    var stored := if settings.Some? then settings.value else ShopSettings("", "", "", "", "", "");
    LoaderData(
      shop,
      if stored.llmProvider != "" then stored.llmProvider else if envProvider != "" then envProvider else "claude",
      stored.claudeApiKey != "",
      stored.openaiApiKey != "",
      stored.geminiApiKey != "",
      stored.groqApiKey != "",
      stored.openrouterApiKey != "")
  }

  // ---------------------------------------------------------------- action

  /** The submitted form: `formData.get(name)` is null for a name that is not in the map. */
  type FormData = map<string, string>

  function FormValue(form: FormData, name: string): Option<string>
  {
    if name in form then Some(form[name]) else None
  }

  /** The form field that carries a provider's key. */
  function KeyField(p: Config.Provider): string
  {
    match p
    case Claude => "claudeApiKey"
    case Openai => "openaiApiKey"
    case Gemini => "geminiApiKey"
    case Groq => "groqApiKey"
    case Openrouter => "openrouterApiKey"
  }

  /** The five key fields, one per provider. */
  const KeyFields: set<string> := {"claudeApiKey", "openaiApiKey", "geminiApiKey", "groqApiKey", "openrouterApiKey"}

  /** The settings object handed to `updateShopSettings`: the provider, then only the keys actually entered. */
  datatype SettingsUpdate = SettingsUpdate(llmProvider: Option<string>, apiKeys: map<string, string>)

  /** `...(value && { field: value })`, for each field in turn. */
  function SpreadEntered(keys: map<string, string>, form: FormData, fields: seq<string>): (r: map<string, string>)
    ensures forall field :: field in r <==> field in keys || (field in fields && field in form && form[field] != "")
    ensures forall field :: field in r ==> r[field] == if field in fields && field in form && form[field] != "" then form[field] else keys[field]
    decreases |fields|
  {
    if fields == [] then keys
    else
      var field := fields[0];
      SpreadEntered(if field in form && form[field] != "" then keys[field := form[field]] else keys, form, fields[1..])
  }

  /** The key fields in the order the action spreads them. */
  const KeyFieldOrder: seq<string> := ["claudeApiKey", "openaiApiKey", "geminiApiKey", "groqApiKey", "openrouterApiKey"]

  /**
   * The update always carries `llmProvider`; a key field is in it exactly when
   * its submitted value is non-empty, with that value, so a blank field never
   * replaces a stored key.
   */
  function BuildSettings(form: FormData): (u: SettingsUpdate)
    ensures u.llmProvider == FormValue(form, "llmProvider")
    ensures forall field :: field in u.apiKeys <==> field in KeyFields && field in form && form[field] != ""
    ensures forall field :: field in u.apiKeys ==> u.apiKeys[field] == form[field]
  {
    assert forall field :: field in KeyFieldOrder <==> field in KeyFields;
    SettingsUpdate(FormValue(form, "llmProvider"), SpreadEntered(map[], form, KeyFieldOrder))
  }

  datatype ActionResponse = ActionResponse(success: bool, error: Option<string>, status: int)

  /**
   * The action sends the update built from the form; `saved` says whether
   * `updateShopSettings` resolved. Success answers `{success: true}`, a
   * failure answers `{success: false, error: 'Failed to save settings.'}`
   * with status 500.
   */
  function Action(form: FormData, saved: bool): (r: (SettingsUpdate, ActionResponse))
    ensures r.0 == BuildSettings(form)
    ensures r.1.success <==> saved
    ensures saved ==> r.1 == ActionResponse(true, None, 200)
    ensures !saved ==> r.1 == ActionResponse(false, Some("Failed to save settings."), 500)
  {
    (BuildSettings(form),
     if saved then ActionResponse(true, None, 200) else ActionResponse(false, Some("Failed to save settings."), 500))
  }

  // ---------------------------------------------------------------- the page

  datatype ApiKeyInfo = ApiKeyInfo(name: string, isSet: bool)

  /** `getApiKeyInfo`: the key field and flag of the selected provider, or `{name: '', isSet: false}`. */
  function GetApiKeyInfo(provider: string, keyStatuses: LoaderData): (r: ApiKeyInfo)
    ensures Config.FromName(provider).Some? ==>
              r == ApiKeyInfo(KeyField(Config.FromName(provider).value), KeySet(keyStatuses, Config.FromName(provider).value))
    ensures Config.FromName(provider).None? ==> r == ApiKeyInfo("", false)
  {
    match provider
    case "claude" => ApiKeyInfo("claudeApiKey", keyStatuses.isClaudeKeySet)
    case "openai" => ApiKeyInfo("openaiApiKey", keyStatuses.isOpenaiKeySet)
    case "gemini" => ApiKeyInfo("geminiApiKey", keyStatuses.isGeminiKeySet)
    case "groq" => ApiKeyInfo("groqApiKey", keyStatuses.isGroqKeySet)
    case "openrouter" => ApiKeyInfo("openrouterApiKey", keyStatuses.isOpenrouterKeySet)
    case _ => ApiKeyInfo("", false)
  }

  datatype SelectOption = SelectOption(caption: string, value: string)

  const ProviderOptions: seq<SelectOption> := [
    SelectOption("Claude", "claude"),
    SelectOption("OpenAI", "openai"),
    SelectOption("Gemini", "gemini"),
    SelectOption("Groq", "groq"),
    SelectOption("OpenRouter", "openrouter")
  ]

  /** The options are the known providers, in the order claude, openai, gemini, groq, openrouter. */
  lemma ProviderOptionsAreTheProviders()
    ensures |ProviderOptions| == |Config.AllProviders|
    ensures forall i :: 0 <= i < |ProviderOptions| ==> ProviderOptions[i].value == Config.AllProviders[i].Name()
  {
  }

  /**
   * Each key field is the provider's name followed by `ApiKey`, so distinct
   * providers use distinct fields, and the key fields are exactly the
   * providers' fields.
   */
  lemma KeyFieldNaming(p: Config.Provider, q: Config.Provider)
    ensures KeyField(p) == p.Name() + "ApiKey"
    ensures KeyField(p) == KeyField(q) ==> p == q
    ensures forall field :: field in KeyFields <==> exists r: Config.Provider :: KeyField(r) == field
  {
    assert KeyField(Config.Claude) == "claudeApiKey" && KeyField(Config.Openai) == "openaiApiKey"
        && KeyField(Config.Gemini) == "geminiApiKey" && KeyField(Config.Groq) == "groqApiKey"
        && KeyField(Config.Openrouter) == "openrouterApiKey";
  }

  /** The form the page posts: the selected provider, and the entered key under the selected provider's field. */
  function PageForm(llmProvider: string, apiKey: string, keyStatuses: LoaderData): (r: FormData)
    ensures "llmProvider" in r && r["llmProvider"] == llmProvider
    ensures forall field :: field in r && field != "llmProvider" ==> r[field] == apiKey && field in KeyFields
  {
    var name := GetApiKeyInfo(llmProvider, keyStatuses).name;
    map["llmProvider" := llmProvider] + (if name != "" then map[name := apiKey] else map[])
  }

  /** For a known provider the page posts two fields: the provider and its key field. */
  lemma PageFormOfProvider(p: Config.Provider, apiKey: string, keyStatuses: LoaderData)
    ensures PageForm(p.Name(), apiKey, keyStatuses) == map["llmProvider" := p.Name(), KeyField(p) := apiKey]
    ensures GetApiKeyInfo(p.Name(), keyStatuses) == ApiKeyInfo(KeyField(p), KeySet(keyStatuses, p))
  {
    Config.NameRoundTrip(p);
  }

  lemma EnteredKeyKept(provider: string, field: string, value: string)
    requires field in KeyFields && value != ""
    ensures BuildSettings(map["llmProvider" := provider, field := value]).apiKeys.Keys == {field}
  {
    assert "llmProvider" !in KeyFields;
  }

  lemma BlankKeyDropped(provider: string, field: string)
    requires field in KeyFields
    ensures BuildSettings(map["llmProvider" := provider, field := ""]).apiKeys.Keys == {}
  {
    assert "llmProvider" !in KeyFields;
  }

  /** A form with the provider and one key field updates that key alone, and only when it is non-empty. */
  lemma OneKeyForm(provider: string, field: string, value: string)
    requires field in KeyFields
    ensures var u := BuildSettings(map["llmProvider" := provider, field := value]);
      && u.llmProvider == Some(provider)
      && u.apiKeys.Keys == (if value != "" then {field} else {})
      && (value != "" ==> u.apiKeys[field] == value)
  {
    assert "llmProvider" !in KeyFields;
    if value != "" {
      EnteredKeyKept(provider, field, value);
      var form := map["llmProvider" := provider, field := value];
      assert field in form && form[field] == value;
    } else {
      BlankKeyDropped(provider, field);
    }
  }

  /**
   * Posting the page for a known provider updates that provider's key and no
   * other, and only when a key was entered; the stored-key flag the page
   * shows for it is the loader's flag for that provider.
   */
  lemma PostedKeyReachesItsField(p: Config.Provider, apiKey: string, keyStatuses: LoaderData)
    ensures var u := BuildSettings(PageForm(p.Name(), apiKey, keyStatuses));
      && u.llmProvider == Some(p.Name())
      && u.apiKeys.Keys == (if apiKey != "" then {KeyField(p)} else {})
      && (apiKey != "" ==> u.apiKeys[KeyField(p)] == apiKey)
    ensures GetApiKeyInfo(p.Name(), keyStatuses).isSet == KeySet(keyStatuses, p)
  {
    PageFormOfProvider(p, apiKey, keyStatuses);
    KeyFieldNaming(p, p);
    OneKeyForm(p.Name(), KeyField(p), apiKey);
  }

  /** The page component's state. */
  class SettingsPage {
    const keyStatuses: LoaderData
    var llmProvider: string
    var apiKey: string
    var showBanner: bool

    /** `useState(initialProvider)`, `useState('')`, `useState(false)`. */
    constructor (data: LoaderData)
      ensures keyStatuses == data && llmProvider == data.llmProvider && apiKey == "" && !showBanner
    {
      keyStatuses := data;
      llmProvider := data.llmProvider;
      apiKey := "";
      showBanner := false;
    }

    /** What the form posts. */
    function Submission(): FormData
      reads this
    {
      PageForm(llmProvider, apiKey, keyStatuses)
    }

    /** Selecting a provider always clears the entered key. */
    method HandleLlmProviderChange(value: string)
      modifies this
      ensures llmProvider == value && apiKey == "" && showBanner == old(showBanner)
      ensures Config.FromName(value).Some? ==> BuildSettings(Submission()).apiKeys.Keys == {}
    {
      llmProvider := value;
      apiKey := "";
      if Config.FromName(value).Some? {
        PostedKeyReachesItsField(Config.FromName(value).value, apiKey, keyStatuses);
      }
    }

    /** The key field's `onChange`. */
    method SetApiKey(value: string)
      modifies this
      ensures apiKey == value && llmProvider == old(llmProvider) && showBanner == old(showBanner)
    {
      apiKey := value;
    }

    /** The effect on new action data: a successful save shows the banner. */
    method OnActionData(actionData: Option<ActionResponse>)
      modifies this
      ensures showBanner == (old(showBanner) || (actionData.Some? && actionData.value.success))
      ensures llmProvider == old(llmProvider) && apiKey == old(apiKey)
    {
      if actionData.Some? && actionData.value.success {
        showBanner := true;
      }
    }

    /** The banner's 3000 ms timer firing, or its dismiss button. */
    method HideBanner()
      modifies this
      ensures !showBanner && llmProvider == old(llmProvider) && apiKey == old(apiKey)
    {
      showBanner := false;
    }
  }
}
