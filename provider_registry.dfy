/** `src/providers.rs`: the provider manager that keeps every backend registered
    under a name and forwards each call to the one named current. A registered
    backend is represented by its kind and its current model. */
module ProviderRegistry {
  import opened Common
  import opened Http
  import OpenAI
  import Claude
  import Copilot
  import Ollama

  datatype Kind = OpenAIKind | ClaudeKind | CopilotKind | OllamaKind

  /** A registered backend: what it is, and the model it is set to. */
  datatype Entry = Entry(kind: Kind, model: string)

  const NotFound: string := "Current provider not found"

  /** The backends `new` registers, each with its own default model. */
  function Defaults(): (m: map<string, Entry>)
    ensures m.Keys == {"openai", "claude", "copilot", "ollama"}
    ensures m["openai"] == Entry(OpenAIKind, OpenAI.DefaultModel) && m["claude"] == Entry(ClaudeKind, Claude.DefaultModel)
    ensures m["copilot"] == Entry(CopilotKind, Copilot.DefaultModel) && m["ollama"] == Entry(OllamaKind, Ollama.DefaultModel)
  {
    map["openai" := Entry(OpenAIKind, OpenAI.DefaultModel), "claude" := Entry(ClaudeKind, Claude.DefaultModel),
        "copilot" := Entry(CopilotKind, Copilot.DefaultModel), "ollama" := Entry(OllamaKind, Ollama.DefaultModel)]
  }

  /** A backend kind's `list_models`; only Ollama asks its server. */
  function KindModels(k: Kind, ollamaReply: Result<Reply>, parse: Parser): seq<string> {
    match k
    case OpenAIKind => OpenAI.ListModels()
    case ClaudeKind => Claude.ListModels()
    case CopilotKind => Copilot.ListModels()
    case OllamaKind => Ollama.ListModels(ollamaReply, parse)
  }

  class ProviderManager {
    var currentProvider: string
    var providers: map<string, Entry>

    /** The current name is a registered one. */
    ghost predicate Valid()
      reads this
    {
      currentProvider in providers
    }

    /** `new`: the four backends, with OpenAI current. */
    constructor ()
      ensures Valid()
      ensures currentProvider == "openai" && providers == Defaults()
    {
      currentProvider := "openai";
      providers := Defaults();
    }

    /** `set_provider`: succeeds exactly for a registered name; on failure
        nothing changes, and the registrations never do. */
    method SetProvider(provider: string) returns (r: Outcome)
      modifies this
      ensures r.Ok? <==> provider in old(providers)
      ensures r.Ok? ==> currentProvider == provider
      ensures r.Err? ==> currentProvider == old(currentProvider) && r.error == "Provider '" + provider + "' not found"
      ensures providers == old(providers)
      ensures old(Valid()) ==> Valid()
    {
      if provider in providers {
        currentProvider := provider;
        r := Done;
      } else {
        r := Err("Provider '" + provider + "' not found");
      }
    }

    /** `get_current_provider` */
    function GetCurrentProvider(): (name: string)
      reads this
      ensures Valid() ==> name in providers
    {
      currentProvider
    }

    /** `current`: the current backend, or an error when its name is not
        registered. */
    function Current(): (r: Result<Entry>)
      reads this
      ensures r.Ok? <==> currentProvider in providers
      ensures r.Ok? ==> r.value == providers[currentProvider]
      ensures r.Err? ==> r.error == NotFound
    {
      if currentProvider in providers then Ok(providers[currentProvider]) else Err(NotFound)
    }

    /** `chat`, `edit_code`, `explain_code`, `analyze_code`, `create_file` and
        `chat_stream`: the call goes to the current backend, or fails with
        "Current provider not found". */
    function Forward<T>(call: Entry -> Result<T>): (r: Result<T>)
      reads this
      ensures currentProvider !in providers ==> r == Err(NotFound)
      ensures currentProvider in providers ==> r == call(providers[currentProvider])
    {
      match Current()
      case Err(e) => Err(e)
      case Ok(p) => call(p)
    }

    /** `list_models`: the current backend's list, or `[]`. */
    function ListModels(ollamaReply: Result<Reply>, parse: Parser): (r: seq<string>)
      reads this
      ensures currentProvider !in providers ==> r == []
      ensures currentProvider in providers ==> r == KindModels(providers[currentProvider].kind, ollamaReply, parse)
    {
      match Current()
      case Ok(p) => KindModels(p.kind, ollamaReply, parse)
      case Err(_) => []
    }

    /** `set_model`: only the current backend's model changes; every backend's
        `set_model` succeeds. */
    method SetModel(model: string) returns (r: Outcome)
      modifies this
      ensures r.Ok? <==> old(currentProvider) in old(providers)
      ensures r.Err? ==> r.error == NotFound && providers == old(providers)
      ensures currentProvider == old(currentProvider) && providers.Keys == old(providers).Keys
      ensures r.Ok? ==> providers[currentProvider] == old(providers)[currentProvider].(model := model)
      ensures forall name :: name in old(providers) && name != currentProvider ==> providers[name] == old(providers)[name]
    {
      var p := Current();
      if p.Err? {
        return Err(p.error);
      }
      providers := providers[currentProvider := p.value.(model := model)];
      r := Done;
    }

    /** `get_current_model`: the current backend's model, or "unknown". */
    function GetCurrentModel(): (m: string)
      reads this
      ensures currentProvider !in providers ==> m == "unknown"
      ensures currentProvider in providers ==> m == providers[currentProvider].model
    {
      match Current()
      case Ok(p) => p.model
      case Err(_) => "unknown"
    }
  }

  /** With the invariant, the forwarding never fails for want of a backend and
      the fallbacks are never used. */
  lemma ValidNeverFallsBack(m: ProviderManager)
    requires m.Valid()
    ensures m.Current().Ok?
    ensures m.GetCurrentModel() == m.providers[m.currentProvider].model
  {
  }

  /** After `new`, the current model is OpenAI's default and the listed models
      are its catalog. */
  lemma FreshManager(m: ProviderManager, ollamaReply: Result<Reply>, parse: Parser)
    requires m.currentProvider == "openai" && m.providers == Defaults()
    ensures m.GetCurrentModel() == "gpt-4"
    ensures m.ListModels(ollamaReply, parse) == ["gpt-4", "gpt-4-turbo", "gpt-3.5-turbo", "gpt-3.5-turbo-16k"]
  {
  }
}
