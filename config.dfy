/**
 * The application's constant configuration table (`AppConfig`): the default
 * provider, the token cap, the default prompt type, one model per provider
 * and the product-search tool settings.
 */
module Config {
  import opened Wrappers

  /** The five providers the app knows, in the order the settings page lists them. */
  datatype Provider = Claude | Openai | Gemini | Groq | Openrouter
  {
    /** The provider's key in `AppConfig.api.providers` and in the settings form. */
    function Name(): string
    {
      match this
      case Claude => "claude"
      case Openai => "openai"
      case Gemini => "gemini"
      case Groq => "groq"
      case Openrouter => "openrouter"
    }
  }

  const AllProviders: seq<Provider> := [Claude, Openai, Gemini, Groq, Openrouter]

  /** The provider a name denotes, if any. */
  function FromName(name: string): (p: Option<Provider>)
    ensures p.Some? ==> p.value.Name() == name
    ensures p.None? ==> forall q: Provider :: q.Name() != name
  {
    match name
    case "claude" => Some(Claude)
    case "openai" => Some(Openai)
    case "gemini" => Some(Gemini)
    case "groq" => Some(Groq)
    case "openrouter" => Some(Openrouter)
    case _ => None
  }

  datatype ProviderSettings = ProviderSettings(model: string)

  // api
  const LlmProvider: string := "claude"
  const MaxTokens: int := 2000
  const DefaultPromptType: string := "standardAssistant"
  const Providers: map<string, ProviderSettings> := map[
    "claude" := ProviderSettings("claude-3-5-sonnet-latest"),
    "openai" := ProviderSettings("gpt-4-turbo"),
    "gemini" := ProviderSettings("gemini-1.5-flash-latest"),
    "groq" := ProviderSettings("llama3-8b-8192"),
    "openrouter" := ProviderSettings("anthropic/claude-3.5-sonnet")
  ]

  // tools
  const ProductSearchName: string := "search_shop_catalog"
  const MaxProductsToDisplay: int := 3

  /** The configured model of a provider; every provider has an entry. */
  function ModelOf(p: Provider): (model: string)
    ensures p.Name() in Providers && model == Providers[p.Name()].model
  {
    ProvidersAreTheKnownNames();
    Providers[p.Name()].model
  }

  /** Names and providers correspond one to one. */
  lemma NameRoundTrip(p: Provider)
    ensures FromName(p.Name()) == Some(p)
  {
  }

  lemma NameInjective(p: Provider, q: Provider)
    ensures p.Name() == q.Name() ==> p == q
  {
    NameRoundTrip(p);
    NameRoundTrip(q);
  }

  /** The providers table has exactly one entry per known provider name. */
  lemma ProvidersAreTheKnownNames()
    ensures forall name :: name in Providers <==> FromName(name).Some?
    ensures |Providers| == |AllProviders|
  {
    forall name
      ensures name in Providers <==> FromName(name).Some?
    {
    }
    assert Providers.Keys == {"claude", "openai", "gemini", "groq", "openrouter"};
  }

  /** The default provider is `claude`, and it is configured. */
  lemma DefaultProviderIsConfigured()
    ensures FromName(LlmProvider) == Some(Claude)
    ensures LlmProvider in Providers
  {
  }

  /** The constants the adapters and the product search rely on. */
  lemma ConstantValues()
    ensures MaxTokens == 2000
    ensures DefaultPromptType == "standardAssistant"
    ensures ProductSearchName == "search_shop_catalog"
    ensures MaxProductsToDisplay == 3
  {
  }
}
