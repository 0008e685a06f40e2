/** `src/providers/copilot.rs`: the GitHub Copilot backend. Every call first
    exchanges the GitHub token for a Copilot token, then posts one completion
    request built from a plain-text prompt; the first choice's text is the
    answer. It has no streaming. */
module Copilot {
  import opened Common
  import opened Text
  import opened Json
  import opened Http

  const TokenUrl: string := "https://api.github.com/copilot_internal/v2/token"
  const CompletionUrl: string := "https://copilot-proxy.githubusercontent.com/v1/engines/copilot-codex/completions"
  const DefaultModel: string := "copilot"
  const MaxTokens: nat := 2048
  const TokenError: string := "Failed to get Copilot token"
  const ApiError: string := "Copilot API error: "
  const NoStreaming: string := "Streaming not supported for Copilot provider"

  /** `CompletionRequest`, without the floating-point sampling fields. */
  datatype CompletionRequest = CompletionRequest(prompt: string, suffix: string, maxTokens: nat, n: nat, stream: bool, stop: seq<string>)

  /** A request the backend sends: the token fetch, and the completion post. */
  datatype TokenGet = TokenGet(url: string, authorization: string)
  datatype CompletionPost = CompletionPost(url: string, authorization: string, request: CompletionRequest)

  class CopilotProvider {
    const githubToken: string
    var model: string
    const maxTokens: nat

    /** `new`: the token is `GITHUB_TOKEN`, or empty when it is not set. */
    constructor (githubTokenVar: Option<string>)
      ensures githubToken == githubTokenVar.GetOr("") && model == DefaultModel && maxTokens == MaxTokens
    {
      githubToken := githubTokenVar.GetOr("");
      model := DefaultModel;
      maxTokens := MaxTokens;
    }

    /** The request of `get_copilot_token`. */
    function TokenGetOf(): TokenGet
      reads this
    {
      TokenGet(TokenUrl, "token " + githubToken)
    }

    /** `make_completion_request`: the token fetch, then, only when it gave a
        token, the completion post with that token; the answer is the first
        choice's text. */
    function MakeCompletionRequest(prompt: string, tokenReply: Result<Reply>, completionReply: Result<Reply>, parse: Parser)
      : (r: (TokenGet, Option<CompletionPost>, Result<string>))
      reads this
      ensures r.0 == TokenGet(TokenUrl, "token " + githubToken)
      ensures r.1.Some? <==> GetCopilotToken(tokenReply, parse).Ok?
      ensures GetCopilotToken(tokenReply, parse).Err? ==> r.2 == Err(GetCopilotToken(tokenReply, parse).error)
      ensures GetCopilotToken(tokenReply, parse).Ok? ==>
        && r.1 == Some(CompletionPost(CompletionUrl, "Bearer " + GetCopilotToken(tokenReply, parse).value,
                                      CompletionRequest(prompt, "", maxTokens, 1, false, [])))
        && r.2 == Completion(completionReply, parse)
    {
      match GetCopilotToken(tokenReply, parse)
      case Err(e) => (TokenGetOf(), None, Err(e))
      case Ok(token) =>
        (TokenGetOf(),
         Some(CompletionPost(CompletionUrl, "Bearer " + token, CompletionRequest(prompt, "", maxTokens, 1, false, []))),
         Completion(completionReply, parse))
    }

    /** `chat` */
    function Chat(message: string, tokenReply: Result<Reply>, completionReply: Result<Reply>, parse: Parser)
      : (r: (TokenGet, Option<CompletionPost>, Result<string>))
      reads this
      ensures r.1.Some? ==> PromptMessage(r.1.value.request.prompt) == Some(message)
      ensures r.0 == TokenGet(TokenUrl, "token " + githubToken)
      ensures r.1.Some? <==> GetCopilotToken(tokenReply, parse).Ok?
      ensures r.1.Some? ==>
        r.1.value == CompletionPost(CompletionUrl, "Bearer " + GetCopilotToken(tokenReply, parse).value,
                                    CompletionRequest(ChatPrompt(message), "", maxTokens, 1, false, []))
      ensures GetCopilotToken(tokenReply, parse).Err? ==> r.2 == Err(GetCopilotToken(tokenReply, parse).error)
      ensures GetCopilotToken(tokenReply, parse).Ok? ==> r.2 == Completion(completionReply, parse)
    {
      ChatPromptRoundTrip(message);
      MakeCompletionRequest(ChatPrompt(message), tokenReply, completionReply, parse)
    }

    /** `edit_code` */
    function EditCode(code: string, instruction: string, tokenReply: Result<Reply>, completionReply: Result<Reply>, parse: Parser)
      : (r: (TokenGet, Option<CompletionPost>, Result<string>))
      reads this
      ensures r.1.Some? ==> r.1.value.request.prompt == EditHead + instruction + EditMiddle + code + EditTail
      ensures r.0 == TokenGet(TokenUrl, "token " + githubToken)
      ensures r.1.Some? <==> GetCopilotToken(tokenReply, parse).Ok?
      ensures r.1.Some? ==>
        r.1.value == CompletionPost(CompletionUrl, "Bearer " + GetCopilotToken(tokenReply, parse).value,
                                    CompletionRequest(EditPrompt(code, instruction), "", maxTokens, 1, false, []))
      ensures GetCopilotToken(tokenReply, parse).Err? ==> r.2 == Err(GetCopilotToken(tokenReply, parse).error)
      ensures GetCopilotToken(tokenReply, parse).Ok? ==> r.2 == Completion(completionReply, parse)
    {
      MakeCompletionRequest(EditPrompt(code, instruction), tokenReply, completionReply, parse)
    }

    /** `explain_code` */
    function ExplainCode(code: string, tokenReply: Result<Reply>, completionReply: Result<Reply>, parse: Parser)
      : (r: (TokenGet, Option<CompletionPost>, Result<string>))
      reads this
      ensures r.1.Some? ==> r.1.value.request.prompt == ExplainHead + code + ExplainTail
      ensures r.0 == TokenGet(TokenUrl, "token " + githubToken)
      ensures r.1.Some? <==> GetCopilotToken(tokenReply, parse).Ok?
      ensures r.1.Some? ==>
        r.1.value == CompletionPost(CompletionUrl, "Bearer " + GetCopilotToken(tokenReply, parse).value,
                                    CompletionRequest(ExplainHead + code + ExplainTail, "", maxTokens, 1, false, []))
      ensures GetCopilotToken(tokenReply, parse).Err? ==> r.2 == Err(GetCopilotToken(tokenReply, parse).error)
      ensures GetCopilotToken(tokenReply, parse).Ok? ==> r.2 == Completion(completionReply, parse)
    {
      MakeCompletionRequest(ExplainHead + code + ExplainTail, tokenReply, completionReply, parse)
    }

    /** `analyze_code` */
    function AnalyzeCode(code: string, analysisType: string, tokenReply: Result<Reply>, completionReply: Result<Reply>, parse: Parser)
      : (r: (TokenGet, Option<CompletionPost>, Result<string>))
      reads this
      ensures r.1.Some? ==> r.1.value.request.prompt == AnalyzeHead + analysisType + ":\n" + code + AnalyzeTail
      ensures r.0 == TokenGet(TokenUrl, "token " + githubToken)
      ensures r.1.Some? <==> GetCopilotToken(tokenReply, parse).Ok?
      ensures r.1.Some? ==>
        r.1.value == CompletionPost(CompletionUrl, "Bearer " + GetCopilotToken(tokenReply, parse).value,
                                    CompletionRequest(AnalyzeHead + analysisType + ":\n" + code + AnalyzeTail, "", maxTokens, 1, false, []))
      ensures GetCopilotToken(tokenReply, parse).Err? ==> r.2 == Err(GetCopilotToken(tokenReply, parse).error)
      ensures GetCopilotToken(tokenReply, parse).Ok? ==> r.2 == Completion(completionReply, parse)
    {
      MakeCompletionRequest(AnalyzeHead + analysisType + ":\n" + code + AnalyzeTail, tokenReply, completionReply, parse)
    }

    /** `create_file` */
    function CreateFile(description: string, tokenReply: Result<Reply>, completionReply: Result<Reply>, parse: Parser)
      : (r: (TokenGet, Option<CompletionPost>, Result<string>))
      reads this
      ensures r.1.Some? ==> r.1.value.request.prompt == CreateHead + description + CreateTail
      ensures r.0 == TokenGet(TokenUrl, "token " + githubToken)
      ensures r.1.Some? <==> GetCopilotToken(tokenReply, parse).Ok?
      ensures r.1.Some? ==>
        r.1.value == CompletionPost(CompletionUrl, "Bearer " + GetCopilotToken(tokenReply, parse).value,
                                    CompletionRequest(CreateHead + description + CreateTail, "", maxTokens, 1, false, []))
      ensures GetCopilotToken(tokenReply, parse).Err? ==> r.2 == Err(GetCopilotToken(tokenReply, parse).error)
      ensures GetCopilotToken(tokenReply, parse).Ok? ==> r.2 == Completion(completionReply, parse)
    {
      MakeCompletionRequest(CreateHead + description + CreateTail, tokenReply, completionReply, parse)
    }

    /** `set_model`: recorded, though no request uses it. */
    method SetModel(m: string) returns (r: Outcome)
      modifies this
      ensures r == Done && model == m && GetCurrentModel() == m
    {
      model := m;
      r := Done;
    }

    /** `get_current_model` */
    function GetCurrentModel(): string
      reads this
    {
      model
    }
  }

  /** `get_copilot_token`: a status outside 2xx is a fixed error (the body is not
      read); a 2xx body must be a `TokenResponse { token }`. */
  function GetCopilotToken(reply: Result<Reply>, parse: Parser): (r: Result<string>)
    ensures reply.Err? ==> r == Err(reply.error)
    ensures reply.Ok? && !IsSuccess(reply.value.status) ==> r == Err(TokenError)
    ensures reply.Ok? && IsSuccess(reply.value.status) ==>
      r == match parse(reply.value.body)
           case Some(j) => (match GetStr(j, "token") case Some(t) => Ok(t) case None => Err(DecodeError))
           case None => Err(DecodeError)
  {
    match reply
    case Err(e) => Err(e)
    case Ok(x) =>
      if !IsSuccess(x.status) then Err(TokenError)
      else
        match parse(x.body)
        case Some(j) => (match GetStr(j, "token") case Some(t) => Ok(t) case None => Err(DecodeError))
        case None => Err(DecodeError)
  }

  /** A token reply whose body is `{"token": t}` gives `t`. */
  lemma TokenOfEncoded(status: nat, body: string, token: string, parse: Parser)
    requires IsSuccess(status) && parse(body) == Some(Obj(map["token" := Str(token)]))
    ensures GetCopilotToken(Ok(Reply(status, body)), parse) == Ok(token)
  {
    assert GetStr(Obj(map["token" := Str(token)]), "token") == Some(token);
  }

  /** The completion reply past the status guard: a `CompletionResponse`, whose
      first choice's text is the answer (`""` when there are no choices). */
  function Completion(reply: Result<Reply>, parse: Parser): (r: Result<string>)
    ensures reply.Err? ==> r == Err(reply.error)
    ensures reply.Ok? && !IsSuccess(reply.value.status) ==> r == Err(ApiError + reply.value.body)
  {
    match Checked(reply, ApiError)
    case Err(e) => Err(e)
    case Ok(x) =>
      match parse(x.body)
      case None => Err(DecodeError)
      case Some(j) =>
        match DecodeField(j, "choices", DecodeChoice)
        case None => Err(DecodeError)
        case Some(texts) => Ok(FirstOrEmpty(texts))
  }

  /** `Choice { text }` */
  function DecodeChoice(j: Json): Option<string> {
    GetStr(j, "text")
  }

  function EncodeChoice(text: string): Json {
    Obj(map["text" := Str(text)])
  }

  function EncodeCompletionResponse(texts: seq<string>): Json {
    Obj(map["choices" := Arr(EncodeEach(texts, EncodeChoice))])
  }

  /** A successful completion reply whose body is an encoded `CompletionResponse`
      answers with the first choice's text, and `""` when there are no choices. */
  lemma CompletionOfEncoded(status: nat, body: string, texts: seq<string>, parse: Parser)
    requires IsSuccess(status) && parse(body) == Some(EncodeCompletionResponse(texts))
    ensures texts != [] ==> Completion(Ok(Reply(status, body)), parse) == Ok(texts[0])
    ensures texts == [] ==> Completion(Ok(Reply(status, body)), parse) == Ok("")
  {
    forall i | 0 <= i < |texts| ensures DecodeChoice(EncodeChoice(texts[i])) == Some(texts[i]) {
      assert Get(EncodeChoice(texts[i]), "text") == Some(Str(texts[i]));
    }
    EachRoundTrip(texts, DecodeChoice, EncodeChoice);
  }

  // The prompts: plain text for a completion model.

  const ChatHead: string := "User: "
  const ChatTail: string := "\nAssistant:"
  const EditHead: string := "// Edit instruction: "
  const EditMiddle: string := "\n// Original code:\n"
  const EditTail: string := "\n// Edited code:\n"
  const ExplainHead: string := "// Explain the following code:\n"
  const ExplainTail: string := "\n// Explanation:\n"
  const AnalyzeHead: string := "// Analyze the following code for "
  const AnalyzeTail: string := "\n// Analysis:\n"
  const CreateHead: string := "// Create a file with the following description: "
  const CreateTail: string := "\n// File content:\n"

  function ChatPrompt(message: string): string {
    ChatHead + message + ChatTail
  }

  function EditPrompt(code: string, instruction: string): string {
    EditHead + instruction + EditMiddle + code + EditTail
  }

  /** The message a chat prompt carries: what lies between its head and its tail. */
  function PromptMessage(prompt: string): (m: Option<string>)
    ensures m.Some? ==> ChatPrompt(m.value) == prompt
  {
    if |prompt| >= |ChatHead| + |ChatTail| && StartsWith(prompt, ChatHead) && EndsWith(prompt, ChatTail) then
      var m := prompt[|ChatHead|..|prompt| - |ChatTail|];
      assert prompt == prompt[..|ChatHead|] + m + prompt[|prompt| - |ChatTail|..];
      Some(m)
    else None
  }

  /** The chat prompt gives its message back, so different messages give
      different prompts. */
  lemma ChatPromptRoundTrip(message: string)
    ensures PromptMessage(ChatPrompt(message)) == Some(message)
  {
    var p := ChatPrompt(message);
    assert p[..|ChatHead|] == ChatHead;
    assert p[|p| - |ChatTail|..] == ChatTail;
    assert p[|ChatHead|..|p| - |ChatTail|] == message;
  }

  /** The trait's `list_models` */
  function ListModels(): (r: seq<string>)
    ensures r == [DefaultModel]
  {
    ["copilot"]
  }

  /** `chat_stream`: always an error, and nothing is sent. */
  function ChatStream(message: string): (r: Result<seq<Result<string>>>)
    ensures r == Err(NoStreaming)
  {
    Err("Streaming not supported for Copilot provider")
  }
}
