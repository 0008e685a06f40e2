/** `src/providers/openai.rs`: the OpenAI backend. Every call is one post to the
    chat completions endpoint; a reply is read as a `ChatResponse` and the first
    choice's content is the answer. A stream chunk is read as one event. */
module OpenAI {
  import opened Common
  import opened Text
  import opened Json
  import opened Http
  import Streaming

  const Endpoint: string := "https://api.openai.com/v1/chat/completions"
  const DefaultModel: string := "gpt-4"
  const MaxTokens: nat := 2048
  const ApiError: string := "OpenAI API error: "

  /** The error a stream event that is not a `StreamChunk` produces; the text of
      serde_json's own message is not part of this model. */
  const JsonParseError: string := "JSON parse error: " + DecodeError

  /** What `make_request` posts: the URL, the `Authorization` header and the body. */
  datatype Post = Post(url: string, authorization: string, request: ChatRequest)

  const Catalog: seq<string> := ["gpt-4", "gpt-4-turbo", "gpt-3.5-turbo", "gpt-3.5-turbo-16k"]

  class OpenAIProvider {
    const apiKey: string
    var model: string
    const maxTokens: nat

    /** `new`: the key is `OPENAI_API_KEY`, or empty when it is not set. */
    constructor (openaiApiKey: Option<string>)
      ensures apiKey == openaiApiKey.GetOr("") && model == DefaultModel && maxTokens == MaxTokens
    {
      apiKey := openaiApiKey.GetOr("");
      model := DefaultModel;
      maxTokens := MaxTokens;
    }

    /** The post of `make_request`, with the bearer key. */
    function PostOf(messages: seq<Message>, stream: bool): Post
      reads this
    {
      Post(Endpoint, "Bearer " + apiKey, ChatRequest(model, messages, maxTokens, stream))
    }

    /** The non-streaming calls: a reply past the status guard must be a
        `ChatResponse`, and its first choice's content is the answer (`""` when
        there are no choices). */
    function Complete(messages: seq<Message>, reply: Result<Reply>, parse: Parser): (r: (Post, Result<string>))
      reads this
      ensures r.0 == Post(Endpoint, "Bearer " + apiKey, ChatRequest(model, messages, maxTokens, false))
      ensures Handled(reply, parse, r.1)
    {
      (PostOf(messages, false),
       match Checked(reply, ApiError)
       case Err(e) => Err(e)
       case Ok(x) => Answer(x.body, parse))
    }

    /** `chat`: one user message. */
    function Chat(message: string, reply: Result<Reply>, parse: Parser): (r: (Post, Result<string>))
      reads this
      ensures r.0.url == Endpoint && r.0.authorization == "Bearer " + apiKey
      ensures r.0.request == ChatRequest(model, [Message("user", message)], maxTokens, false)
      ensures Handled(reply, parse, r.1)
    {
      Complete(UserMessage(message), reply, parse)
    }

    function EditCode(code: string, instruction: string, reply: Result<Reply>, parse: Parser): (r: (Post, Result<string>))
      reads this
      ensures r.0 == Post(Endpoint, "Bearer " + apiKey, ChatRequest(model, EditMessages(code, instruction), maxTokens, false))
      ensures Handled(reply, parse, r.1)
    {
      Complete(EditMessages(code, instruction), reply, parse)
    }

    function ExplainCode(code: string, reply: Result<Reply>, parse: Parser): (r: (Post, Result<string>))
      reads this
      ensures r.0 == Post(Endpoint, "Bearer " + apiKey, ChatRequest(model, ExplainMessages(code), maxTokens, false))
      ensures Handled(reply, parse, r.1)
    {
      Complete(ExplainMessages(code), reply, parse)
    }

    function AnalyzeCode(code: string, analysisType: string, reply: Result<Reply>, parse: Parser): (r: (Post, Result<string>))
      reads this
      ensures r.0 == Post(Endpoint, "Bearer " + apiKey, ChatRequest(model, AnalyzeMessages(code, analysisType), maxTokens, false))
      ensures Handled(reply, parse, r.1)
    {
      Complete(AnalyzeMessages(code, analysisType), reply, parse)
    }

    function CreateFile(description: string, reply: Result<Reply>, parse: Parser): (r: (Post, Result<string>))
      reads this
      ensures r.0 == Post(Endpoint, "Bearer " + apiKey, ChatRequest(model, CreateMessages(description), maxTokens, false))
      ensures Handled(reply, parse, r.1)
    {
      Complete(CreateMessages(description), reply, parse)
    }

    /** `set_model` */
    method SetModel(m: string) returns (r: Outcome)
      modifies this
      ensures r == Done && model == m && GetCurrentModel() == m
    {
      model := m;
      r := Done;
    }

    /** `get_current_model` */
    function GetCurrentModel(): string
      reads this
    {
      model
    }

    /** `chat_stream`: a streaming post; past the status guard each chunk is read
        on its own. */
    function ChatStream(message: string, reply: Result<Reply>, chunks: seq<Result<string>>, parse: Parser)
      : (r: (Post, Result<seq<Result<string>>>))
      reads this
      ensures r.0 == Post(Endpoint, "Bearer " + apiKey, ChatRequest(model, [Message("user", message)], maxTokens, true))
      ensures reply.Err? ==> r.1 == Err(reply.error)
      ensures reply.Ok? && !IsSuccess(reply.value.status) ==> r.1 == Err(ApiError + reply.value.body)
      ensures reply.Ok? && IsSuccess(reply.value.status) ==>
        r.1.Ok? && |r.1.value| == |chunks| && forall i :: 0 <= i < |chunks| ==> r.1.value[i] == StreamChunk(chunks[i], parse)
    {
      var post := PostOf(UserMessage(message), true);
      match Checked(reply, ApiError)
      case Err(e) => (post, Err(e))
      case Ok(_) => (post, Ok(seq(|chunks|, i requires 0 <= i < |chunks| => StreamChunk(chunks[i], parse))))
    }
  }

  /** How every non-streaming call answers: a transport error passes through, a
      status outside 2xx is an API error with the body, and a 2xx body is read as
      a `ChatResponse`. */
  predicate Handled(reply: Result<Reply>, parse: Parser, r: Result<string>) {
    && (reply.Err? ==> r == Err(reply.error))
    && (reply.Ok? && !IsSuccess(reply.value.status) ==> r == Err(ApiError + reply.value.body))
    && (reply.Ok? && IsSuccess(reply.value.status) ==> r == Answer(reply.value.body, parse))
  }

  /** A 2xx body read as a `ChatResponse`: the first choice's content. */
  function Answer(body: string, parse: Parser): Result<string> {
    match parse(body)
    case None => Err(DecodeError)
    case Some(j) =>
      match DecodeChatResponse(j)
      case None => Err(DecodeError)
      case Some(ms) => Ok(FirstOrEmpty(Contents(ms)))
  }

  function Contents(ms: seq<Message>): (cs: seq<string>)
    ensures |cs| == |ms| && forall i :: 0 <= i < |ms| ==> cs[i] == ms[i].content
  {
    seq(|ms|, i requires 0 <= i < |ms| => ms[i].content)
  }

  /** A successful reply whose body is an encoded `ChatResponse` answers with the
      first choice's content, and with `""` when it has no choices. */
  lemma AnswerOfEncoded(body: string, ms: seq<Message>, parse: Parser)
    requires parse(body) == Some(EncodeChatResponse(ms))
    ensures ms != [] ==> Answer(body, parse) == Ok(ms[0].content)
    ensures ms == [] ==> Answer(body, parse) == Ok("")
  {
    ChatResponseRoundTrip(ms);
  }

  // The prompts of `edit_code`, `explain_code`, `analyze_code` and `create_file`.

  const EditSystem: string := "You are a code editor. Edit code according to instructions and return only the modified code in a code block."
  const EditHead: string := "Edit the following code according to this instruction: "
  const EditTail: string := "\n```\n\nProvide the edited code in a code block."
  const ExplainSystem: string := "You are a code explainer. Provide clear, concise explanations of code."
  const ExplainHead: string := "Explain the following code:\n\n```\n"
  const AnalyzeSystemHead: string := "You are a code analyzer. Analyze code for "
  const AnalyzeSystemTail: string := " and provide actionable feedback."
  const AnalyzeHead: string := "Analyze the following code for "
  const AnalyzeMiddle: string := ":\n\n```\n"
  const CreateSystem: string := "You are a code generator. Generate complete, working code files based on descriptions."
  const CreateHead: string := "Create a file based on this description: "
  const CreateTail: string := "\n\nProvide the complete file content in a code block."
  const Fence: string := "\n```"

  function EditMessages(code: string, instruction: string): seq<Message> {
    [Message("system", EditSystem), Message("user", EditHead + instruction + "\n\nCode:\n```\n" + code + EditTail)]
  }

  function ExplainMessages(code: string): seq<Message> {
    [Message("system", ExplainSystem), Message("user", ExplainHead + code + Fence)]
  }

  function AnalyzeMessages(code: string, analysisType: string): seq<Message> {
    [Message("system", AnalyzeSystemHead + analysisType + AnalyzeSystemTail),
     Message("user", AnalyzeHead + analysisType + AnalyzeMiddle + code + Fence)]
  }

  function CreateMessages(description: string): seq<Message> {
    [Message("system", CreateSystem), Message("user", CreateHead + description + CreateTail)]
  }

  /** The trait's `list_models`: a fixed catalog. */
  function ListModels(): (r: seq<string>)
    ensures |r| == 4 && r[0] == DefaultModel
  {
    Catalog
  }

  /** The stream's map over chunks. A chunk is one whole event: it must start
      with `data: `, and the rest, unless it trims to `[DONE]`, must be a
      `StreamChunk`, whose first choice's delta content is the text. */
  function StreamChunk(chunk: Result<string>, parse: Parser): (r: Result<string>)
    ensures chunk.Err? ==> r == Err("Stream error: " + chunk.error)
    ensures chunk.Ok? && !StartsWith(chunk.value, Streaming.DataPrefix) ==> r == Ok("")
    ensures (chunk.Ok? && StartsWith(chunk.value, Streaming.DataPrefix)
             && Trim(chunk.value[|Streaming.DataPrefix|..]) == Streaming.DoneMarker) ==> r == Ok("")
    ensures r.Err? && chunk.Ok? ==> r == Err(JsonParseError)
  {
    match chunk
    case Err(e) => Err("Stream error: " + e)
    case Ok(text) =>
      if !StartsWith(text, Streaming.DataPrefix) then Ok("")
      else
        var payload := text[|Streaming.DataPrefix|..];
        if Trim(payload) == Streaming.DoneMarker then Ok("")
        else
          match parse(payload)
          case None => Err(JsonParseError)
          case Some(j) =>
            match DecodeStreamChunk(j)
            case None => Err(JsonParseError)
            case Some(deltas) => Ok(FirstDelta(deltas).GetOr(""))
  }

  /** An event carrying an encoded `StreamChunk` yields the first choice's delta
      content, and `""` when there is none. */
  lemma StreamChunkOfEncoded(payload: string, deltas: seq<Option<string>>, parse: Parser)
    requires Trim(payload) != Streaming.DoneMarker
    requires parse(payload) == Some(EncodeStreamChunk(deltas))
    ensures deltas != [] && deltas[0].Some? ==> StreamChunk(Ok(Streaming.DataPrefix + payload), parse) == Ok(deltas[0].value)
    ensures !(deltas != [] && deltas[0].Some?) ==> StreamChunk(Ok(Streaming.DataPrefix + payload), parse) == Ok("")
  {
    var text := Streaming.DataPrefix + payload;
    assert StartsWith(text, Streaming.DataPrefix);
    assert text[|Streaming.DataPrefix|..] == payload;
    StreamChunkRoundTrip(deltas);
  }

  /** An event whose payload is not a `StreamChunk` is a parse error. */
  lemma StreamChunkOfUndecodable(payload: string, parse: Parser)
    requires Trim(payload) != Streaming.DoneMarker
    requires parse(payload).None? || DecodeStreamChunk(parse(payload).value).None?
    ensures StreamChunk(Ok(Streaming.DataPrefix + payload), parse) == Err(JsonParseError)
  {
    var text := Streaming.DataPrefix + payload;
    assert StartsWith(text, Streaming.DataPrefix);
    assert text[|Streaming.DataPrefix|..] == payload;
  }
}
