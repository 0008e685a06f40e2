/** `src/providers/mod.rs`: the provider manager that holds one active backend
    and rebuilds it on a switch. The active backend is represented by what it was
    built from (its kind and its key or URL); the calls it forwards to that
    backend are not part of this model. */
module Providers {
  import opened Common
  import opened Text
  import opened Http
  import Ghost = GhostLLM

  datatype ProviderType = OpenAI | Claude | Ollama | Copilot | GhostLLM

  /** `ProviderType::from_str`: the lower-cased name, or one of its aliases. */
  function FromStr(s: string): (r: Result<ProviderType>)
    ensures r.Err? ==> r.error == "Unknown provider: " + s
    ensures r == Ok(OpenAI) <==> ToLower(s) in {"openai", "gpt"}
    ensures r == Ok(Claude) <==> ToLower(s) in {"claude", "anthropic"}
    ensures r == Ok(Ollama) <==> ToLower(s) == "ollama"
    ensures r == Ok(Copilot) <==> ToLower(s) in {"copilot", "github"}
    ensures r == Ok(GhostLLM) <==> ToLower(s) in {"ghostllm", "ghost"}
  {
    match ToLower(s)
    case "openai" => Ok(OpenAI)
    case "gpt" => Ok(OpenAI)
    case "claude" => Ok(Claude)
    case "anthropic" => Ok(Claude)
    case "ollama" => Ok(Ollama)
    case "copilot" => Ok(Copilot)
    case "github" => Ok(Copilot)
    case "ghostllm" => Ok(GhostLLM)
    case "ghost" => Ok(GhostLLM)
    case _ => Err("Unknown provider: " + s)
  }

  /** The first name `from_str` accepts for each type. */
  function Name(t: ProviderType): string {
    match t
    case OpenAI => "openai"
    case Claude => "claude"
    case Ollama => "ollama"
    case Copilot => "copilot"
    case GhostLLM => "ghostllm"
  }

  lemma ToLowerOfLowercase(s: string)
    requires forall i :: 0 <= i < |s| ==> !('A' <= s[i] <= 'Z')
    ensures ToLower(s) == s
  {
    assert forall i :: 0 <= i < |s| ==> ToLower(s)[i] == s[i];
  }

  /** Every type's name parses back to it. */
  lemma FromStrName(t: ProviderType)
    ensures FromStr(Name(t)) == Ok(t)
  {
    var n := Name(t);
    ToLowerOfLowercase(n);
    assert ToLower(n) == n;
  }

  /** Parsing ignores case: a name and its lower-case form parse alike. */
  lemma FromStrIgnoresCase(s: string)
    ensures FromStr(ToLower(s)).Ok? <==> FromStr(s).Ok?
    ensures FromStr(s).Ok? ==> FromStr(ToLower(s)) == FromStr(s)
  {
    ToLowerIdempotent(s);
  }

  /** What the active backend was built from. */
  datatype Backend =
    | OpenAIBackend(apiKey: string)
    | ClaudeBackend(apiKey: string)
    | OllamaBackend(baseUrl: string)
    | CopilotBackend(token: string)
    | GhostLLMBackend(provider: Ghost.GhostLLMProvider)

  function TypeOf(b: Backend): ProviderType {
    match b
    case OpenAIBackend(_) => OpenAI
    case ClaudeBackend(_) => Claude
    case OllamaBackend(_) => Ollama
    case CopilotBackend(_) => Copilot
    case GhostLLMBackend(_) => GhostLLM
  }

  const GhostDefaultUrl: string := "http://localhost:8080"
  const OllamaDefaultUrl: string := "http://localhost:11434"

  /** The backend selection of `new_with_config`: the three keyed backends need
      their key, Ollama falls back to its default URL and GhostLLM to the default
      configuration. */
  function MakeBackend(t: ProviderType, apiKeys: map<string, string>, ghostConfig: Option<(string, Option<string>)>)
    : (r: Result<Backend>)
    ensures r.Ok? ==> TypeOf(r.value) == t
    ensures r.Err? <==> (t == OpenAI && "openai" !in apiKeys) || (t == Claude && "claude" !in apiKeys)
                        || (t == Copilot && "copilot" !in apiKeys)
    ensures t == OpenAI && "openai" !in apiKeys ==> r == Err("OpenAI API key not found")
    ensures t == Claude && "claude" !in apiKeys ==> r == Err("Claude API key not found")
    ensures t == Copilot && "copilot" !in apiKeys ==> r == Err("GitHub token not found")
    ensures t == Ollama ==> r == Ok(OllamaBackend(if "ollama_base_url" in apiKeys then apiKeys["ollama_base_url"] else OllamaDefaultUrl))
    ensures t == GhostLLM ==>
      r == Ok(GhostLLMBackend(match ghostConfig
                              case Some((url, token)) => Ghost.GhostLLMProvider(url, token)
                              case None => Ghost.GhostLLMProvider(GhostDefaultUrl, None)))
  {
    match t
    case GhostLLM =>
      (match ghostConfig
       case Some((url, token)) => Ok(GhostLLMBackend(Ghost.GhostLLMProvider(url, token)))
       case None => Ok(GhostLLMBackend(Ghost.GhostLLMProvider(GhostDefaultUrl, None))))
    case OpenAI => if "openai" in apiKeys then Ok(OpenAIBackend(apiKeys["openai"])) else Err("OpenAI API key not found")
    case Claude => if "claude" in apiKeys then Ok(ClaudeBackend(apiKeys["claude"])) else Err("Claude API key not found")
    case Ollama => Ok(OllamaBackend(if "ollama_base_url" in apiKeys then apiKeys["ollama_base_url"] else OllamaDefaultUrl))
    case Copilot => if "copilot" in apiKeys then Ok(CopilotBackend(apiKeys["copilot"])) else Err("GitHub token not found")
  }

  /** The model name `get_current_model` reports for each type. */
  function ModelName(t: ProviderType): string {
    match t
    case GhostLLM => "auto (GhostLLM)"
    case OpenAI => "gpt-4"
    case Claude => "claude-3-sonnet"
    case Ollama => "llama3:8b"
    case Copilot => "copilot"
  }

  class ProviderManager {
    var current: Backend
    var providerType: ProviderType
    var ghostllmEnabled: bool
    var ghostllmBaseUrl: string

    /** The recorded type is the active backend's. */
    ghost predicate Valid()
      reads this
    {
      TypeOf(current) == providerType
    }

    /** `new`: GhostLLM at its default URL, without a session token. */
    constructor ()
      ensures Valid()
      ensures current == GhostLLMBackend(Ghost.GhostLLMProvider(GhostDefaultUrl, None))
      ensures providerType == GhostLLM && ghostllmEnabled && ghostllmBaseUrl == GhostDefaultUrl
    {
      current := GhostLLMBackend(Ghost.GhostLLMProvider(GhostDefaultUrl, None));
      providerType := GhostLLM;
      ghostllmEnabled := true;
      ghostllmBaseUrl := GhostDefaultUrl;
    }

    constructor Built(b: Backend, enabled: bool, url: string)
      ensures current == b && providerType == TypeOf(b) && ghostllmEnabled == enabled && ghostllmBaseUrl == url
      ensures Valid()
    {
      current := b;
      providerType := TypeOf(b);
      ghostllmEnabled := enabled;
      ghostllmBaseUrl := url;
    }

    /** `new_with_config`: fails exactly when the backend cannot be built; the
        GhostLLM URL is the configured one, or the default. */
    static method NewWithConfig(t: ProviderType, apiKeys: map<string, string>, ghostConfig: Option<(string, Option<string>)>)
      returns (r: Result<ProviderManager>)
      ensures r.Err? <==> MakeBackend(t, apiKeys, ghostConfig).Err?
      ensures r.Err? ==> r.error == MakeBackend(t, apiKeys, ghostConfig).error
      ensures r.Ok? ==> fresh(r.value) && r.value.Valid()
      ensures r.Ok? ==> && r.value.current == MakeBackend(t, apiKeys, ghostConfig).value
                        && r.value.providerType == t
                        && r.value.ghostllmEnabled == (t == GhostLLM)
                        && r.value.ghostllmBaseUrl == (if ghostConfig.Some? then ghostConfig.value.0 else GhostDefaultUrl)
    {
      var b := MakeBackend(t, apiKeys, ghostConfig);
      if b.Err? {
        return Err(b.error);
      }
      var m := new ProviderManager.Built(b.value, t == GhostLLM, if ghostConfig.Some? then ghostConfig.value.0 else GhostDefaultUrl);
      r := Ok(m);
    }

    /** `switch_provider`: the new backend is built with the manager's GhostLLM URL
        and no session token; on failure nothing changes, and on success only the
        backend and its type do. */
    method SwitchProvider(t: ProviderType, apiKeys: map<string, string>) returns (r: Outcome)
      requires Valid()
      modifies this
      ensures Valid()
      ensures r.Err? <==> MakeBackend(t, apiKeys, Some((old(ghostllmBaseUrl), None))).Err?
      ensures r.Err? ==> current == old(current) && providerType == old(providerType)
      ensures r.Ok? ==> current == MakeBackend(t, apiKeys, Some((old(ghostllmBaseUrl), None))).value && providerType == t
      ensures ghostllmEnabled == old(ghostllmEnabled) && ghostllmBaseUrl == old(ghostllmBaseUrl)
    {
      var fresh_ := NewWithConfig(t, apiKeys, Some((ghostllmBaseUrl, None)));
      if fresh_.Err? {
        return Err(fresh_.error);
      }
      current := fresh_.value.current;
      providerType := fresh_.value.providerType;
      r := Done;
    }

    /** `get_ghostllm_provider`: the GhostLLM backend, when it is the active one. */
    function GetGhostllmProvider(): (r: Result<Ghost.GhostLLMProvider>)
      requires Valid()
      reads this
      ensures r.Ok? <==> providerType == GhostLLM
      ensures r.Ok? ==> current == GhostLLMBackend(r.value)
      ensures r.Err? ==> r.error == "Current provider is not GhostLLM"
    {
      if providerType == GhostLLM then Ok(current.provider) else Err("Current provider is not GhostLLM")
    }

    /** `health_check`: GhostLLM asks its server (the reply is that probe's);
        every other type counts as healthy without a request. */
    function HealthCheck(reply: Result<Reply>): (healthy: bool)
      requires Valid()
      reads this
      ensures providerType != GhostLLM ==> healthy
      ensures providerType == GhostLLM ==> (healthy <==> reply.Ok? && IsSuccess(reply.value.status))
    {
      match providerType
      case GhostLLM =>
        var ghost_ := GetGhostllmProvider();
        ghost_.Ok? && Ghost.HealthCheck(reply) == Ok(true)
      case _ => true
    }

    /** `set_model`: accepted and ignored. */
    method SetModel(model: string) returns (r: Outcome)
      ensures r == Done
    {
      r := Done;
    }

    /** `get_current_model`: determined by the type alone. */
    function GetCurrentModel(): (m: string)
      reads this
      ensures m == ModelName(providerType)
      ensures Valid() ==> m == ModelName(TypeOf(current))
    {
      ModelName(providerType)
    }
  }

  /** `get_current_model` is a fixed name per type, and the five names differ. */
  lemma ModelNamesDiffer(a: ProviderType, b: ProviderType)
    ensures ModelName(a) == ModelName(b) ==> a == b
  {
    if ModelName(a) == ModelName(b) {
      assert ModelName(a)[0] == ModelName(b)[0] && |ModelName(a)| == |ModelName(b)|;
    }
  }
}
