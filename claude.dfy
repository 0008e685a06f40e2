/** `src/providers/claude.rs`: the Claude backend. Every call is one post to the
    messages endpoint; a reply is read as a `MessagesResponse` and the first
    content block's text is the answer. A stream chunk is read as one event. */
module Claude {
  import opened Common
  import opened Text
  import opened Json
  import opened Http
  import Streaming

  const Endpoint: string := "https://api.anthropic.com/v1/messages"
  const ApiVersion: string := "2023-06-01"
  const DefaultModel: string := "claude-3-5-sonnet-20241022"
  const MaxTokens: nat := 4096
  const ApiError: string := "Claude API error: "

  /** The error a stream event that is not a `StreamEvent` produces; the text of
      serde_json's own message is not part of this model. */
  const JsonParseError: string := "JSON parse error: " + DecodeError

  /** What `make_request` posts: the URL, the `x-api-key` and `anthropic-version`
      headers, and the body. */
  datatype Post = Post(url: string, apiKey: string, version: string, request: ChatRequest)

  const Catalog: seq<string> := ["claude-3-5-sonnet-20241022", "claude-3-5-haiku-20241022", "claude-3-opus-20240229",
                                 "claude-3-sonnet-20240229", "claude-3-haiku-20240307"]

  class ClaudeProvider {
    const apiKey: string
    var model: string
    const maxTokens: nat

    /** `new`: the key is `ANTHROPIC_API_KEY`, or empty when it is not set. */
    constructor (anthropicApiKey: Option<string>)
      ensures apiKey == anthropicApiKey.GetOr("") && model == DefaultModel && maxTokens == MaxTokens
    {
      apiKey := anthropicApiKey.GetOr("");
      model := DefaultModel;
      maxTokens := MaxTokens;
    }

    function PostOf(messages: seq<Message>, stream: bool): Post
      reads this
    {
      Post(Endpoint, apiKey, ApiVersion, ChatRequest(model, messages, maxTokens, stream))
    }

    /** The non-streaming calls: one user message, and the answer read from the
        reply. */
    function Complete(prompt: string, reply: Result<Reply>, parse: Parser): (r: (Post, Result<string>))
      reads this
      ensures r.0 == Post(Endpoint, apiKey, ApiVersion, ChatRequest(model, [Message("user", prompt)], maxTokens, false))
      ensures Handled(reply, parse, r.1)
    {
      (PostOf(UserMessage(prompt), false),
       match Checked(reply, ApiError)
       case Err(e) => Err(e)
       case Ok(x) => Answer(x.body, parse))
    }

    /** `chat` */
    function Chat(message: string, reply: Result<Reply>, parse: Parser): (r: (Post, Result<string>))
      reads this
      ensures r.0 == Post(Endpoint, apiKey, ApiVersion, ChatRequest(model, [Message("user", message)], maxTokens, false))
      ensures Handled(reply, parse, r.1)
    {
      Complete(message, reply, parse)
    }

    /** `edit_code` */
    function EditCode(code: string, instruction: string, reply: Result<Reply>, parse: Parser): (r: (Post, Result<string>))
      reads this
      ensures r.0 == Post(Endpoint, apiKey, ApiVersion, ChatRequest(model, [Message("user", EditPrompt(code, instruction))], maxTokens, false))
      ensures Handled(reply, parse, r.1)
    {
      Complete(EditPrompt(code, instruction), reply, parse)
    }

    /** `explain_code` */
    function ExplainCode(code: string, reply: Result<Reply>, parse: Parser): (r: (Post, Result<string>))
      reads this
      ensures r.0 == Post(Endpoint, apiKey, ApiVersion, ChatRequest(model, [Message("user", ExplainPrompt(code))], maxTokens, false))
      ensures Handled(reply, parse, r.1)
    {
      Complete(ExplainPrompt(code), reply, parse)
    }

    /** `analyze_code` */
    function AnalyzeCode(code: string, analysisType: string, reply: Result<Reply>, parse: Parser): (r: (Post, Result<string>))
      reads this
      ensures r.0 == Post(Endpoint, apiKey, ApiVersion, ChatRequest(model, [Message("user", AnalyzePrompt(code, analysisType))], maxTokens, false))
      ensures Handled(reply, parse, r.1)
    {
      Complete(AnalyzePrompt(code, analysisType), reply, parse)
    }

    /** `create_file` */
    function CreateFile(description: string, reply: Result<Reply>, parse: Parser): (r: (Post, Result<string>))
      reads this
      ensures r.0 == Post(Endpoint, apiKey, ApiVersion, ChatRequest(model, [Message("user", CreatePrompt(description))], maxTokens, false))
      ensures Handled(reply, parse, r.1)
    {
      Complete(CreatePrompt(description), reply, parse)
    }

    /** `set_model` */
    method SetModel(m: string) returns (r: Outcome)
      modifies this
      ensures r == Done && model == m && GetCurrentModel() == m
    {
      model := m;
      r := Done;
    }

    /** `get_current_model` */
    function GetCurrentModel(): string
      reads this
    {
      model
    }

    /** `chat_stream`: a streaming post; past the status guard each chunk is read
        on its own. */
    function ChatStream(message: string, reply: Result<Reply>, chunks: seq<Result<string>>, parse: Parser)
      : (r: (Post, Result<seq<Result<string>>>))
      reads this
      ensures r.0 == Post(Endpoint, apiKey, ApiVersion, ChatRequest(model, [Message("user", message)], maxTokens, true))
      ensures reply.Err? ==> r.1 == Err(reply.error)
      ensures reply.Ok? && !IsSuccess(reply.value.status) ==> r.1 == Err(ApiError + reply.value.body)
      ensures reply.Ok? && IsSuccess(reply.value.status) ==>
        r.1.Ok? && |r.1.value| == |chunks| && forall i :: 0 <= i < |chunks| ==> r.1.value[i] == StreamChunk(chunks[i], parse)
    {
      var post := PostOf(UserMessage(message), true);
      match Checked(reply, ApiError)
      case Err(e) => (post, Err(e))
      case Ok(_) => (post, Ok(seq(|chunks|, i requires 0 <= i < |chunks| => StreamChunk(chunks[i], parse))))
    }
  }

  /** How every non-streaming call answers: a transport error passes through, a
      status outside 2xx is an API error with the body, and a 2xx body is read as
      a `MessagesResponse`. */
  predicate Handled(reply: Result<Reply>, parse: Parser, r: Result<string>) {
    && (reply.Err? ==> r == Err(reply.error))
    && (reply.Ok? && !IsSuccess(reply.value.status) ==> r == Err(ApiError + reply.value.body))
    && (reply.Ok? && IsSuccess(reply.value.status) ==> r == Answer(reply.value.body, parse))
  }

  /** `Content { text }` */
  function DecodeContent(j: Json): Option<string> {
    GetStr(j, "text")
  }

  /** `MessagesResponse { content }`: the texts of the content blocks, in order. */
  function DecodeMessagesResponse(j: Json): Option<seq<string>> {
    DecodeField(j, "content", DecodeContent)
  }

  function EncodeContent(text: string): Json {
    Obj(map["text" := Str(text)])
  }

  function EncodeMessagesResponse(texts: seq<string>): Json {
    Obj(map["content" := Arr(EncodeEach(texts, EncodeContent))])
  }

  lemma MessagesResponseRoundTrip(texts: seq<string>)
    ensures DecodeMessagesResponse(EncodeMessagesResponse(texts)) == Some(texts)
  {
    forall i | 0 <= i < |texts| ensures DecodeContent(EncodeContent(texts[i])) == Some(texts[i]) {
      assert Get(EncodeContent(texts[i]), "text") == Some(Str(texts[i]));
    }
    EachRoundTrip(texts, DecodeContent, EncodeContent);
  }

  /** A 2xx body read as a `MessagesResponse`: the first block's text. */
  function Answer(body: string, parse: Parser): Result<string> {
    match parse(body)
    case None => Err(DecodeError)
    case Some(j) =>
      match DecodeMessagesResponse(j)
      case None => Err(DecodeError)
      case Some(texts) => Ok(FirstOrEmpty(texts))
  }

  /** A successful reply whose body is an encoded `MessagesResponse` answers with
      the first block's text, and with `""` when there are no blocks. */
  lemma AnswerOfEncoded(body: string, texts: seq<string>, parse: Parser)
    requires parse(body) == Some(EncodeMessagesResponse(texts))
    ensures texts != [] ==> Answer(body, parse) == Ok(texts[0])
    ensures texts == [] ==> Answer(body, parse) == Ok("")
  {
    MessagesResponseRoundTrip(texts);
  }

  // The prompts, each sent as the only user message.

  const EditHead: string := "Edit the following code according to this instruction: "
  const EditTail: string := "\n```\n\nProvide the edited code in a code block."
  const ExplainHead: string := "Explain the following code clearly and concisely:\n\n```\n"
  const AnalyzeHead: string := "Analyze the following code for "
  const AnalyzeMiddle: string := " and provide actionable feedback:\n\n```\n"
  const CreateHead: string := "Create a complete, working file based on this description: "
  const CreateTail: string := "\n\nProvide the complete file content in a code block."
  const Fence: string := "\n```"

  function EditPrompt(code: string, instruction: string): string {
    EditHead + instruction + "\n\nCode:\n```\n" + code + EditTail
  }

  function ExplainPrompt(code: string): string {
    ExplainHead + code + Fence
  }

  function AnalyzePrompt(code: string, analysisType: string): string {
    AnalyzeHead + analysisType + AnalyzeMiddle + code + Fence
  }

  function CreatePrompt(description: string): string {
    CreateHead + description + CreateTail
  }

  /** The trait's `list_models`: a fixed catalog. */
  function ListModels(): (r: seq<string>)
    ensures |r| == 5 && r[0] == DefaultModel
  {
    Catalog
  }

  /** `StreamEvent { type, delta: Option<Delta { text: Option<String> }> }`:
      `delta` is `None` when the event has no delta, and `Some(text)` for one. */
  datatype StreamEvent = StreamEvent(eventType: string, delta: Option<Option<string>>)

  function DecodeStreamEvent(j: Json): Option<StreamEvent> {
    match GetStr(j, "type")
    case None => None
    case Some(t) =>
      match GetOptional(j, "delta")
      case None => Some(StreamEvent(t, None))
      case Some(Obj(fields)) =>
        (match GetOptStr(Obj(fields), "text")
         case Some(text) => Some(StreamEvent(t, Some(text)))
         case None => None)
      case Some(_) => None
  }

  function EncodeStreamEvent(e: StreamEvent): Json {
    Obj(map["type" := Str(e.eventType),
            "delta" := match e.delta case None => Null case Some(text) => Obj(map["text" := OptStr(text)])])
  }

  lemma StreamEventRoundTrip(e: StreamEvent)
    ensures DecodeStreamEvent(EncodeStreamEvent(e)) == Some(e)
  {
    var j := EncodeStreamEvent(e);
    assert GetStr(j, "type") == Some(e.eventType);
    if e.delta.Some? {
      var d := Obj(map["text" := OptStr(e.delta.value)]);
      assert GetOptional(j, "delta") == Some(d);
      OptStrRoundTrip(map[], "text", e.delta.value);
      assert map[]["text" := OptStr(e.delta.value)] == map["text" := OptStr(e.delta.value)];
    } else {
      assert GetOptional(j, "delta") == None;
    }
  }

  /** The text an event carries: its delta's text when both are present, and
      the empty string otherwise. */
  function EventText(e: StreamEvent): (t: string)
    ensures e.delta.Some? && e.delta.value.Some? ==> t == e.delta.value.value
    ensures !(e.delta.Some? && e.delta.value.Some?) ==> t == ""
  {
    match e.delta
    case Some(Some(text)) => text
    case _ => ""
  }

  /** The stream's map over chunks. A chunk is one whole event: without the
      `data: ` prefix it yields `""`; otherwise the rest must be a `StreamEvent`
      (there is no `[DONE]` case), whose delta text is the chunk's text. */
  function StreamChunk(chunk: Result<string>, parse: Parser): (r: Result<string>)
    ensures chunk.Err? ==> r == Err("Stream error: " + chunk.error)
    ensures chunk.Ok? && !StartsWith(chunk.value, Streaming.DataPrefix) ==> r == Ok("")
    ensures r.Err? && chunk.Ok? ==> r == Err(JsonParseError)
  {
    match chunk
    case Err(e) => Err("Stream error: " + e)
    case Ok(text) =>
      if !StartsWith(text, Streaming.DataPrefix) then Ok("")
      else
        match parse(text[|Streaming.DataPrefix|..])
        case None => Err(JsonParseError)
        case Some(j) =>
          match DecodeStreamEvent(j)
          case None => Err(JsonParseError)
          case Some(e) => Ok(EventText(e))
  }

  /** An event carrying an encoded `StreamEvent` yields its delta text. */
  lemma StreamChunkOfEncoded(payload: string, e: StreamEvent, parse: Parser)
    requires parse(payload) == Some(EncodeStreamEvent(e))
    ensures StreamChunk(Ok(Streaming.DataPrefix + payload), parse) == Ok(EventText(e))
  {
    var text := Streaming.DataPrefix + payload;
    assert StartsWith(text, Streaming.DataPrefix);
    assert text[|Streaming.DataPrefix|..] == payload;
    StreamEventRoundTrip(e);
  }

  /** The `[DONE]` marker is not special here: unless the parser reads it as a
      `StreamEvent`, it is a parse error. */
  lemma DoneMarkerIsAnError(parse: Parser)
    requires parse(Streaming.DoneMarker).None?
    ensures StreamChunk(Ok(Streaming.DataPrefix + Streaming.DoneMarker), parse) == Err(JsonParseError)
  {
    var text := Streaming.DataPrefix + Streaming.DoneMarker;
    assert StartsWith(text, Streaming.DataPrefix);
    assert text[|Streaming.DataPrefix|..] == Streaming.DoneMarker;
  }
}
