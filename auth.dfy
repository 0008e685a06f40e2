/** `src/auth.rs`: the stored credentials of every provider and the manager that
    records a successful sign-in, reports which providers are signed in, hands
    out their credentials and looks for a local Ollama server. The OAuth device
    flows, the validation requests and the file I/O are represented by their
    outcomes. */
module Auth {
  import opened Common
  import opened Text
  import opened Json
  import opened Http

  datatype AuthToken = AuthToken(token: string, expiresAt: Option<nat>, refreshToken: Option<string>, scopes: seq<string>)

  datatype GitHubUser = GitHubUser(login: string, id: nat, name: Option<string>, email: Option<string>, plan: Option<string>)
  datatype GoogleUser = GoogleUser(id: string, email: string, name: string, picture: Option<string>)

  /** `UsageLimits`: floating-point figures, carried and never computed with. */
  datatype UsageLimits = UsageLimits(dailyLimit: Option<real>, monthlyLimit: Option<real>, currentUsage: real)

  datatype GitHubAuth = GitHubAuth(token: AuthToken, userInfo: Option<GitHubUser>, copilotEnabled: bool, hasProSubscription: bool)
  datatype GoogleAuth = GoogleAuth(token: AuthToken, userInfo: Option<GoogleUser>, services: seq<string>)
  datatype OpenAIAuth = OpenAIAuth(apiKey: string, organization: Option<string>, usageLimits: Option<UsageLimits>)
  datatype AnthropicAuth = AnthropicAuth(apiKey: string, usageLimits: Option<UsageLimits>)
  datatype GhostLLMAuth = GhostLLMAuth(sessionToken: string, baseUrl: string, userId: Option<string>)
  datatype OllamaAuth = OllamaAuth(baseUrl: string, detectedModels: seq<string>, autoDetected: bool)

  /** `AuthConfig`: one optional section per provider. */
  datatype AuthConfig = AuthConfig(
    github: Option<GitHubAuth>,
    google: Option<GoogleAuth>,
    openai: Option<OpenAIAuth>,
    anthropic: Option<AnthropicAuth>,
    ghostllm: Option<GhostLLMAuth>,
    ollama: Option<OllamaAuth>)

  /** `AuthConfig::default`: no provider is signed in. */
  const EmptyConfig: AuthConfig := AuthConfig(None, None, None, None, None, None)

  /** The names `is_authenticated` and `get_provider_credentials` know. */
  const ProviderNames: set<string> := {"github", "google", "openai", "anthropic", "ollama", "ghostllm"}

  /** `PathBuf::join` of a relative component: an empty base gives the component
      alone, and a separator is added only when the base does not end in one. */
  function JoinPath(base: string, component: string): string {
    if base == "" then component
    else if base[|base| - 1] == '/' then base + component
    else base + "/" + component
  }

  /** The directory part `.config/zeke/auth.json` is joined to: `HOME`, or `/tmp`
      when it is not set, followed by a separator unless it is empty or already
      ends in one. */
  function HomeDir(home: Option<string>): string {
    var h := home.GetOr("/tmp");
    if h == "" || h[|h| - 1] == '/' then h else h + "/"
  }

  /** `$HOME/.config/zeke/auth.json`, with `/tmp` for a missing `HOME`; an empty
      `HOME` gives the relative path. */
  function ConfigPath(home: Option<string>): (path: string)
    ensures path == HomeDir(home) + ".config/zeke/auth.json"
    ensures home == Some("") ==> path == ".config/zeke/auth.json"
  {
    var d := HomeDir(home);
    var a := JoinPath(home.GetOr("/tmp"), ".config");
    JoinHome(home.GetOr("/tmp"), ".config");
    JoinAfter(d, ".config", "zeke");
    var b := JoinPath(a, "zeke");
    assert ".config" + "/" + "zeke" == ".config/zeke";
    JoinAfter(d, ".config/zeke", "auth.json");
    assert ".config/zeke" + "/" + "auth.json" == ".config/zeke/auth.json";
    JoinPath(b, "auth.json")
  }

  lemma JoinHome(h: string, c: string)
    ensures JoinPath(h, c) == HomeDir(Some(h)) + c
  {
    if h != "" && h[|h| - 1] != '/' {
      assert h + "/" + c == (h + "/") + c;
    }
  }

  lemma JoinAfter(d: string, x: string, y: string)
    requires x != [] && x[|x| - 1] != '/'
    ensures JoinPath(d + x, y) == d + (x + "/" + y)
  {
    var b := d + x;
    assert b[|b| - 1] == x[|x| - 1];
  }

  /** The `has_pro_subscription` flag: a plan whose lower-cased name contains
      "pro" or "team". */
  predicate HasProSubscription(plan: Option<string>)
    ensures HasProSubscription(plan) ==> plan.Some? && |plan.value| >= 3
  {
    plan.Some? && (Contains(ToLower(plan.value), "pro") || Contains(ToLower(plan.value), "team"))
  }

  /** A plan name holding "pro" or "team" in any letter case counts, wherever
      the word stands in the name. */
  lemma PlanWordCounts(before: string, word: string, after: string)
    requires ToLower(word) == "pro" || ToLower(word) == "team"
    ensures HasProSubscription(Some(before + word + after))
  {
    var lb, lw, la := ToLower(before), ToLower(word), ToLower(after);
    ToLowerAppend(before + word, after);
    ToLowerAppend(before, word);
    var l := lb + lw + la;
    assert l[|lb|..][..|lw|] == lw;
    assert StartsWith(l[|lb|..], lw);
  }

  /** The flag does not depend on the letter case of the plan name. */
  lemma ProIgnoresCase(plan: string)
    ensures HasProSubscription(Some(ToLower(plan))) == HasProSubscription(Some(plan))
  {
    ToLowerIdempotent(plan);
  }

  /** The scopes of a GitHub token: the `scope` field split at commas, each piece
      trimmed. */
  function GitHubScopes(scope: Option<string>): (scopes: seq<string>)
    ensures |scopes| == |SplitOn(scope.GetOr(""), ',')|
    ensures forall k :: 0 <= k < |scopes| ==> scopes[k] == Trim(SplitOn(scope.GetOr(""), ',')[k])
  {
    var pieces := SplitOn(scope.GetOr(""), ',');
    seq(|pieces|, k requires 0 <= k < |pieces| => Trim(pieces[k]))
  }

  /** No GitHub scope starts or ends with whitespace. */
  lemma GitHubScopesTrimmed(scope: Option<string>)
    ensures forall k :: 0 <= k < |GitHubScopes(scope)| ==>
      var s := GitHubScopes(scope)[k]; |s| > 0 ==> !IsWhitespace(s[0]) && !IsWhitespace(s[|s| - 1])
  {
    var pieces := SplitOn(scope.GetOr(""), ',');
    forall k | 0 <= k < |GitHubScopes(scope)|
      ensures var s := GitHubScopes(scope)[k]; |s| > 0 ==> !IsWhitespace(s[0]) && !IsWhitespace(s[|s| - 1])
    {
      TrimLeavesNoWhitespace(pieces[k]);
    }
  }

  /** The scopes of a Google token: the `scope` field split at single spaces and
      not trimmed, so no scope holds a space (an empty piece stands for each extra
      space). */
  function GoogleScopes(scope: Option<string>): (scopes: seq<string>)
    ensures |scopes| >= 1
    ensures forall k :: 0 <= k < |scopes| ==> NoChar(scopes[k], ' ')
  {
    SplitOnPiecesLackSeparator(scope.GetOr(""), ' ');
    SplitOn(scope.GetOr(""), ' ')
  }

  /** Joining the Google scopes with single spaces gives back the field: nothing
      is lost or trimmed. */
  lemma GoogleScopesRoundTrip(scope: string)
    ensures Join(GoogleScopes(Some(scope)), " ") == scope
  {
    JoinSplitOn(scope, ' ');
  }

  /** One answer of a device-flow poll: wait, fail, or take the token. */
  datatype Poll = Pending | Failed(message: string) | Granted(token: AuthToken)

  /** A `TokenResponse` of GitHub's poll. An error other than
      `authorization_pending` ends the flow; a response with neither an error nor
      a token is polled again. GitHub tokens do not expire. */
  function GitHubPoll(error: Option<string>, accessToken: Option<string>, scope: Option<string>): (p: Poll)
    ensures error.Some? ==> (p == Pending <==> error.value == "authorization_pending")
    ensures error.Some? && p != Pending ==> p == Failed("GitHub auth error: " + error.value)
    ensures error.None? ==> (p.Granted? <==> accessToken.Some?) && !p.Failed?
    ensures p.Granted? ==> p.token == AuthToken(accessToken.value, None, None, GitHubScopes(scope))
  {
    if error.Some? then
      if error.value == "authorization_pending" then Pending else Failed("GitHub auth error: " + error.value)
    else if accessToken.Some? then Granted(AuthToken(accessToken.value, None, None, GitHubScopes(scope)))
    else Pending
  }

  /** A `GoogleTokenResponse` of Google's poll, read at time `now` (seconds since
      the epoch): `slow_down` also waits, and the token expires `expires_in`
      seconds from now. */
  function GooglePoll(error: Option<string>, accessToken: Option<string>, refreshToken: Option<string>,
                      expiresIn: Option<nat>, scope: Option<string>, now: nat): (p: Poll)
    ensures error.Some? ==> (p == Pending <==> error.value in {"authorization_pending", "slow_down"})
    ensures error.Some? && p != Pending ==> p == Failed("Google auth error: " + error.value)
    ensures error.None? ==> (p.Granted? <==> accessToken.Some?) && !p.Failed?
    ensures p.Granted? ==> && p.token.token == accessToken.value && p.token.refreshToken == refreshToken
                           && p.token.scopes == GoogleScopes(scope)
                           && (p.token.expiresAt.Some? <==> expiresIn.Some?)
                           && (expiresIn.Some? ==> p.token.expiresAt.value == now + expiresIn.value)
  {
    if error.Some? then
      if error.value == "authorization_pending" || error.value == "slow_down" then Pending
      else Failed("Google auth error: " + error.value)
    else if accessToken.Some? then
      var expiresAt := if expiresIn.Some? then Some(now + expiresIn.value) else None;
      Granted(AuthToken(accessToken.value, expiresAt, refreshToken, GoogleScopes(scope)))
    else Pending
  }

  /** `check_copilot_access`: any 2xx answer grants access; a failed request or
      any other status denies it, and it never fails. */
  predicate CopilotAccess(reply: Result<Reply>)
    ensures reply.Err? ==> !CopilotAccess(reply)
    ensures reply.Ok? ==> (CopilotAccess(reply) <==> 200 <= reply.value.status < 300)
  {
    reply.Ok? && IsSuccess(reply.value.status)
  }

  /** `detect_google_services`: Vertex AI when its probe answers 2xx, and Gemini
      always, last. */
  function GoogleServices(vertexReply: Result<Reply>): (services: seq<string>)
    ensures |services| >= 1 && services[|services| - 1] == "gemini"
    ensures "vertex-ai" in services <==> vertexReply.Ok? && IsSuccess(vertexReply.value.status)
  {
    if vertexReply.Ok? && IsSuccess(vertexReply.value.status) then ["vertex-ai", "gemini"] else ["gemini"]
  }

  /** The limits `authenticate_openai` records when the usage request answers 2xx. */
  const OpenAILimits: UsageLimits := UsageLimits(Some(100.0), Some(1000.0), 0.0)
  /** The limits `authenticate_anthropic` always records. */
  const AnthropicLimits: UsageLimits := UsageLimits(None, None, 0.0)

  /** The OpenAI usage limits, when the usage request succeeds; any failure
      leaves them unrecorded. */
  function OpenAIUsage(usageReply: Result<Reply>): (u: Option<UsageLimits>)
    ensures u.Some? <==> usageReply.Ok? && IsSuccess(usageReply.value.status)
    ensures u.Some? ==> u.value == OpenAILimits
  {
    if usageReply.Ok? && IsSuccess(usageReply.value.status) then Some(OpenAILimits) else None
  }

  // Ollama detection.

  const Hosts: seq<string> := ["localhost", "127.0.0.1"]
  const Ports: seq<nat> := [11434, 11435, 11436]
  const NotDetected: string := "Ollama not detected on common ports"
  const NotAccessible: string := "Ollama not accessible"

  /** The base URL of an Ollama candidate: the host and the decimal port. */
  function BaseUrl(host: string, port: nat): string {
    "http://" + host + ":" + NatToString(port)
  }

  /** The `i`-th address `detect_ollama` tries: hosts in the outer loop, ports in
      the inner one. */
  function Candidate(i: nat): string
    requires i < |Hosts| * |Ports|
  {
    BaseUrl(Hosts[i / |Ports|], Ports[i % |Ports|])
  }

  /** The ports are written in decimal. */
  lemma PortTexts()
    ensures NatToString(11434) == "11434" && NatToString(11435) == "11435" && NatToString(11436) == "11436"
  {
    assert NatToString(1) == "1";
    assert NatToString(11) == "11";
    assert NatToString(114) == "114";
    assert NatToString(1143) == "1143";
  }

  /** The six addresses, in the order they are tried: `localhost` on each port,
      then `127.0.0.1` on each port. */
  lemma CandidatesInOrder()
    ensures [Candidate(0), Candidate(1), Candidate(2), Candidate(3), Candidate(4), Candidate(5)]
         == [BaseUrl("localhost", 11434), BaseUrl("localhost", 11435), BaseUrl("localhost", 11436),
             BaseUrl("127.0.0.1", 11434), BaseUrl("127.0.0.1", 11435), BaseUrl("127.0.0.1", 11436)]
  {
  }

  /** `OllamaModelInfo { name }` */
  function DecodeModelName(j: Json): Option<string> {
    GetStr(j, "name")
  }

  function EncodeModelName(name: string): Json {
    Obj(map["name" := Str(name)])
  }

  /** `check_ollama_instance`: a 2xx answer to `/api/tags` must be an
      `OllamaTagsResponse`, whose model names are the result. */
  function CheckOllamaInstance(reply: Result<Reply>, parse: Parser): (r: Result<seq<string>>)
    ensures reply.Err? ==> r == Err(reply.error)
    ensures reply.Ok? && !IsSuccess(reply.value.status) ==> r == Err(NotAccessible)
  {
    match reply
    case Err(e) => Err(e)
    case Ok(x) =>
      if !IsSuccess(x.status) then Err(NotAccessible)
      else
        match parse(x.body)
        case None => Err(DecodeError)
        case Some(j) =>
          match DecodeField(j, "models", DecodeModelName)
          case None => Err(DecodeError)
          case Some(names) => Ok(names)
  }

  /** A 2xx answer whose body is an encoded `OllamaTagsResponse` gives its names. */
  lemma CheckOfEncoded(status: nat, body: string, names: seq<string>, parse: Parser)
    requires IsSuccess(status) && parse(body) == Some(Obj(map["models" := Arr(EncodeEach(names, EncodeModelName))]))
    ensures CheckOllamaInstance(Ok(Reply(status, body)), parse) == Ok(names)
  {
    forall k | 0 <= k < |names| ensures DecodeModelName(EncodeModelName(names[k])) == Some(names[k]) {
      assert Get(EncodeModelName(names[k]), "name") == Some(Str(names[k]));
    }
    EachRoundTrip(names, DecodeModelName, EncodeModelName);
  }

  /** The probe of the `i`-th address; `replies` answers the request sent to
      each address. */
  function Probe(i: nat, replies: string -> Result<Reply>, parse: Parser): Result<seq<string>>
    requires i < |Hosts| * |Ports|
  {
    CheckOllamaInstance(replies(Candidate(i)), parse)
  }

  class AuthManager {
    var config: AuthConfig
    const configPath: string

    /** `new`: the stored configuration (`None` when the file is absent or does
        not decode, which gives the empty one) under `$HOME`. */
    constructor (home: Option<string>, stored: Option<AuthConfig>)
      ensures config == stored.GetOr(EmptyConfig) && configPath == ConfigPath(home)
    {
      config := stored.GetOr(EmptyConfig);
      configPath := ConfigPath(home);
    }

    /** `get_config` */
    function GetConfig(): (c: AuthConfig)
      reads this
      ensures c == config
      ensures && (c.github.Some? <==> IsAuthenticated("github")) && (c.google.Some? <==> IsAuthenticated("google"))
              && (c.openai.Some? <==> IsAuthenticated("openai")) && (c.anthropic.Some? <==> IsAuthenticated("anthropic"))
              && (c.ollama.Some? <==> IsAuthenticated("ollama")) && (c.ghostllm.Some? <==> IsAuthenticated("ghostllm"))
    {
      config
    }

    /** `is_authenticated`: the provider's section is present; unknown names are
        never signed in. */
    predicate IsAuthenticated(provider: string)
      reads this
      ensures IsAuthenticated(provider) ==> provider in ProviderNames
    {
      match provider
      case "github" => config.github.Some?
      case "google" => config.google.Some?
      case "openai" => config.openai.Some?
      case "anthropic" => config.anthropic.Some?
      case "ollama" => config.ollama.Some?
      case "ghostllm" => config.ghostllm.Some?
      case _ => false
    }

    /** `get_provider_credentials`: a map built by insertion from the provider's
        section. It is present exactly when the provider is signed in, since
        every present section yields at least one entry. */
    method GetProviderCredentials(provider: string) returns (r: Option<map<string, string>>)
      ensures r.Some? <==> IsAuthenticated(provider)
      ensures r.Some? ==> provider in ProviderNames && r.value != map[]
      ensures provider == "github" && r.Some? ==>
        var g := config.github.value;
        && "token" in r.value && r.value.Keys <= {"token", "copilot_enabled"} && r.value["token"] == g.token.token
        && ("copilot_enabled" in r.value <==> g.copilotEnabled)
        && (g.copilotEnabled ==> r.value["copilot_enabled"] == "true")
      ensures provider == "google" && r.Some? ==>
        var g := config.google.value;
        && "token" in r.value && r.value.Keys <= {"token", "refresh_token"} && r.value["token"] == g.token.token
        && ("refresh_token" in r.value <==> g.token.refreshToken.Some?)
        && (g.token.refreshToken.Some? ==> r.value["refresh_token"] == g.token.refreshToken.value)
      ensures provider == "openai" && r.Some? ==>
        var o := config.openai.value;
        && "api_key" in r.value && r.value.Keys <= {"api_key", "organization"} && r.value["api_key"] == o.apiKey
        && ("organization" in r.value <==> o.organization.Some?)
        && (o.organization.Some? ==> r.value["organization"] == o.organization.value)
      ensures provider == "anthropic" && r.Some? ==> r.value == map["api_key" := config.anthropic.value.apiKey]
      ensures provider == "ollama" && r.Some? ==> r.value == map["base_url" := config.ollama.value.baseUrl]
      ensures provider == "ghostllm" && r.Some? ==>
        var g := config.ghostllm.value;
        && "base_url" in r.value && r.value.Keys <= {"base_url", "session_token"} && r.value["base_url"] == g.baseUrl
        && ("session_token" in r.value <==> g.sessionToken != "")
        && (g.sessionToken != "" ==> r.value["session_token"] == g.sessionToken)
    {
      var creds: map<string, string> := map[];
      if provider == "github" {
        if config.github.Some? {
          var g := config.github.value;
          creds := creds["token" := g.token.token];
          if g.copilotEnabled {
            creds := creds["copilot_enabled" := "true"];
          }
        }
      } else if provider == "google" {
        if config.google.Some? {
          var g := config.google.value;
          creds := creds["token" := g.token.token];
          if g.token.refreshToken.Some? {
            creds := creds["refresh_token" := g.token.refreshToken.value];
          }
        }
      } else if provider == "openai" {
        if config.openai.Some? {
          var o := config.openai.value;
          creds := creds["api_key" := o.apiKey];
          if o.organization.Some? {
            creds := creds["organization" := o.organization.value];
          }
        }
      } else if provider == "anthropic" {
        if config.anthropic.Some? {
          creds := creds["api_key" := config.anthropic.value.apiKey];
        }
      } else if provider == "ollama" {
        if config.ollama.Some? {
          creds := creds["base_url" := config.ollama.value.baseUrl];
        }
      } else if provider == "ghostllm" {
        if config.ghostllm.Some? {
          var g := config.ghostllm.value;
          creds := creds["base_url" := g.baseUrl];
          if g.sessionToken != "" {
            creds := creds["session_token" := g.sessionToken];
          }
        }
      } else {
        return None;
      }
      if |creds| == 0 {
        r := None;
      } else {
        r := Some(creds);
      }
    }

    /** `authenticate_github`, given the outcomes of the device flow, of the user
        request and of the Copilot probe: a failure of either of the first two
        ends it with nothing recorded; otherwise the GitHub section is replaced. */
    method AuthenticateGitHub(oauth: Result<AuthToken>, user: Result<GitHubUser>, copilotReply: Result<Reply>)
      returns (r: Outcome)
      modifies this
      ensures oauth.Err? ==> r == Err(oauth.error) && config == old(config)
      ensures oauth.Ok? && user.Err? ==> r == Err(user.error) && config == old(config)
      ensures oauth.Ok? && user.Ok? ==>
        && r == Done
        && config == old(config).(github := Some(GitHubAuth(oauth.value, Some(user.value), CopilotAccess(copilotReply),
                                                         HasProSubscription(user.value.plan))))
    {
      if oauth.Err? {
        return Err(oauth.error);
      }
      if user.Err? {
        return Err(user.error);
      }
      var copilotEnabled := CopilotAccess(copilotReply);
      config := config.(github := Some(GitHubAuth(oauth.value, Some(user.value), copilotEnabled,
                                                  HasProSubscription(user.value.plan))));
      r := Done;
    }

    /** `authenticate_google`, given the outcomes of the device flow, of the user
        request and of the Vertex AI probe. */
    method AuthenticateGoogle(oauth: Result<AuthToken>, user: Result<GoogleUser>, vertexReply: Result<Reply>)
      returns (r: Outcome)
      modifies this
      ensures oauth.Err? ==> r == Err(oauth.error) && config == old(config)
      ensures oauth.Ok? && user.Err? ==> r == Err(user.error) && config == old(config)
      ensures oauth.Ok? && user.Ok? ==>
        && r == Done
        && config == old(config).(google := Some(GoogleAuth(oauth.value, Some(user.value), GoogleServices(vertexReply))))
    {
      if oauth.Err? {
        return Err(oauth.error);
      }
      if user.Err? {
        return Err(user.error);
      }
      config := config.(google := Some(GoogleAuth(oauth.value, Some(user.value), GoogleServices(vertexReply))));
      r := Done;
    }

    /** `authenticate_openai`, given the outcome of the key check and the answer
        to the usage request. */
    method AuthenticateOpenAI(apiKey: string, organization: Option<string>, validation: Outcome, usageReply: Result<Reply>)
      returns (r: Outcome)
      modifies this
      ensures validation.Err? ==> r == validation && config == old(config)
      ensures validation.Ok? ==>
        && r == Done
        && config == old(config).(openai := Some(OpenAIAuth(apiKey, organization, OpenAIUsage(usageReply))))
    {
      if validation.Err? {
        return validation;
      }
      config := config.(openai := Some(OpenAIAuth(apiKey, organization, OpenAIUsage(usageReply))));
      r := Done;
    }

    /** `authenticate_anthropic`, given the outcome of the key check. */
    method AuthenticateAnthropic(apiKey: string, validation: Outcome) returns (r: Outcome)
      modifies this
      ensures validation.Err? ==> r == validation && config == old(config)
      ensures validation.Ok? ==>
        && r == Done
        && config == old(config).(anthropic := Some(AnthropicAuth(apiKey, Some(AnthropicLimits))))
    {
      if validation.Err? {
        return validation;
      }
      config := config.(anthropic := Some(AnthropicAuth(apiKey, Some(AnthropicLimits))));
      r := Done;
    }

    /** `authenticate_ghostllm`, given the outcome of the health and token checks:
        an absent session token is stored as the empty one. */
    method AuthenticateGhostLLM(baseUrl: string, sessionToken: Option<string>, validation: Outcome) returns (r: Outcome)
      modifies this
      ensures validation.Err? ==> r == validation && config == old(config)
      ensures validation.Ok? ==>
        && r == Done
        && config == old(config).(ghostllm := Some(GhostLLMAuth(sessionToken.GetOr(""), baseUrl, None)))
    {
      if validation.Err? {
        return validation;
      }
      config := config.(ghostllm := Some(GhostLLMAuth(sessionToken.GetOr(""), baseUrl, None)));
      r := Done;
    }

    /** `detect_ollama`: the addresses are probed in order and the first that
        answers is recorded, as auto-detected, with its models; when none answers
        nothing changes. */
    method DetectOllama(replies: string -> Result<Reply>, parse: Parser) returns (r: Outcome)
      modifies this
      ensures r.Ok? ==>
        exists k :: && 0 <= k < |Hosts| * |Ports| && Probe(k, replies, parse).Ok?
                    && (forall j :: 0 <= j < k ==> Probe(j, replies, parse).Err?)
                    && config == old(config).(ollama := Some(OllamaAuth(Candidate(k), Probe(k, replies, parse).value, true)))
      ensures r.Err? ==>
        && r.error == NotDetected && config == old(config)
        && forall j :: 0 <= j < |Hosts| * |Ports| ==> Probe(j, replies, parse).Err?
    {
      for h := 0 to |Hosts|
        invariant config == old(config)
        invariant forall j :: 0 <= j < h * |Ports| ==> Probe(j, replies, parse).Err?
      {
        for p := 0 to |Ports|
          invariant config == old(config)
          invariant forall j :: 0 <= j < h * |Ports| + p ==> Probe(j, replies, parse).Err?
        {
          var k := h * |Ports| + p;
          var baseUrl := BaseUrl(Hosts[h], Ports[p]);
          assert k / |Ports| == h && k % |Ports| == p;
          assert baseUrl == Candidate(k);
          var models := CheckOllamaInstance(replies(baseUrl), parse);
          if models.Ok? {
            config := config.(ollama := Some(OllamaAuth(baseUrl, models.value, true)));
            assert Probe(k, replies, parse) == models;
            return Done;
          }
        }
      }
      r := Err(NotDetected);
    }
  }
}
