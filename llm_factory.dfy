/**
 * The LLM service factory (`createLlmService`): picks the provider named by
 * the `LLM_PROVIDER` environment variable, or the configured default when the
 * variable is unset or empty, and calls that provider's constructor with no
 * arguments. The adapters themselves are represented by their provider tag.
 */
module LlmFactory {
  import opened Wrappers
  import Config

  /**
   * The value a provider constructor returns, with the arguments it was called
   * with. With no key argument, an adapter takes its API key from its default
   * parameter, e.g. `process.env.GROQ_API_KEY`.
   */
  datatype Service = Service(provider: Config.Provider, args: seq<string>)

  datatype FactoryError = UnsupportedProvider(message: string)

  /** `process.env.LLM_PROVIDER || AppConfig.api.llmProvider`; "" stands for unset. */
  function ResolveProvider(env: string): (name: string)
    ensures env != "" ==> name == env
    ensures env == "" ==> name == Config.LlmProvider
  {
    if env != "" then env else Config.LlmProvider
  }

  /** A constructor called with no arguments. */
  function Construct(p: Config.Provider): Service
  {
    Service(p, [])
  }

  /**
   * The `switch` over the resolved name: one of the five constructors, or the
   * `Unsupported LLM provider: <name>` error, raised before any service exists.
   */
  function CreateLlmService(env: string): (r: Result<Service, FactoryError>)
    ensures r.Success? <==> ResolveProvider(env) in Config.Providers
    ensures r.Success? ==> r.value.provider.Name() == ResolveProvider(env)
    ensures r.Success? ==> r.value.args == []
    ensures r.Failure? ==> r.error == UnsupportedProvider("Unsupported LLM provider: " + ResolveProvider(env))
  {
    Config.ProvidersAreTheKnownNames();
    var provider := ResolveProvider(env);
    match provider
    case "claude" => Success(Construct(Config.Claude))
    case "openai" => Success(Construct(Config.Openai))
    case "gemini" => Success(Construct(Config.Gemini))
    case "groq" => Success(Construct(Config.Groq))
    case "openrouter" => Success(Construct(Config.Openrouter))
    case _ => Failure(UnsupportedProvider("Unsupported LLM provider: " + provider))
  }

  /** Distinct supported names reach distinct constructors. */
  lemma DistinctProvidersDistinctServices(env1: string, env2: string)
    requires CreateLlmService(env1).Success? && CreateLlmService(env2).Success?
    requires ResolveProvider(env1) != ResolveProvider(env2)
    ensures CreateLlmService(env1).value.provider != CreateLlmService(env2).value.provider
  {
  }

  /** Every provider is reachable by naming it in the environment. */
  lemma EveryProviderReachable(p: Config.Provider)
    ensures CreateLlmService(p.Name()) == Success(Service(p, []))
  {
    Config.NameRoundTrip(p);
    Config.ProvidersAreTheKnownNames();
  }

  /** Without an override the factory builds the claude service. */
  lemma DefaultIsClaude()
    ensures CreateLlmService("") == Success(Service(Config.Claude, []))
  {
  }
}
