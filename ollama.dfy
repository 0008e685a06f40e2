/** `src/providers/ollama.rs`: the Ollama backend. Its non-streaming replies are
    JSON lines, accumulated up to and including the first line marked `done`; its
    stream yields, per chunk, the first line that carries a message. */
module Ollama {
  import opened Common
  import opened Text
  import opened Json
  import opened Http

  const DefaultBaseUrl: string := "http://localhost:11434"
  const DefaultModel: string := "llama2"
  const MaxTokens: nat := 2048

  /** `OllamaRequest`, the body of the generate endpoint, without the sampling
      options' floating-point fields. */
  datatype GenerateRequest = GenerateRequest(model: string, prompt: string, stream: bool, numPredict: nat)

  /** A post: the endpoint and the body. */
  datatype Post = ChatPost(url: string, request: ChatRequest) | GeneratePost(url: string, generate: GenerateRequest)

  const ApiError: string := "Ollama API error: "

  class OllamaProvider {
    var baseUrl: string
    var model: string
    const maxTokens: nat

    /** `new`: the base URL comes from `OLLAMA_HOST` when it is set. */
    constructor (ollamaHost: Option<string>)
      ensures baseUrl == ollamaHost.GetOr(DefaultBaseUrl) && model == DefaultModel && maxTokens == MaxTokens
    {
      baseUrl := ollamaHost.GetOr(DefaultBaseUrl);
      model := DefaultModel;
      maxTokens := MaxTokens;
    }

    /** `with_model`: only the model changes. */
    method WithModel(m: string)
      modifies this
      ensures model == m && baseUrl == old(baseUrl)
    {
      model := m;
    }

    /** `with_base_url`: only the base URL changes. */
    method WithBaseUrl(url: string)
      modifies this
      ensures baseUrl == url && model == old(model)
    {
      baseUrl := url;
    }

    /** `set_model` */
    method SetModel(m: string) returns (r: Outcome)
      modifies this
      ensures r == Done && model == m && baseUrl == old(baseUrl)
      ensures GetCurrentModel() == m
    {
      model := m;
      r := Done;
    }

    /** `get_current_model` */
    function GetCurrentModel(): string
      reads this
    {
      model
    }

    /** The post of the private `chat`: the current model and the token limit. */
    function ChatPostOf(messages: seq<Message>, stream: bool): Post
      reads this
    {
      ChatPost(baseUrl + "/api/chat", ChatRequest(model, messages, maxTokens, stream))
    }

    /** `generate`: the post, and the reply past the status guard. */
    function Generate(prompt: string, stream: bool, reply: Result<Reply>): (r: (Post, Result<Reply>))
      reads this
      ensures r.0 == GeneratePost(baseUrl + "/api/generate", GenerateRequest(model, prompt, stream, maxTokens))
      ensures r.1.Ok? <==> reply.Ok? && IsSuccess(reply.value.status)
      ensures r.1.Ok? || reply.Err? ==> r.1 == reply
      ensures reply.Ok? && !IsSuccess(reply.value.status) ==> r.1 == Err(ApiError + reply.value.body)
    {
      (GeneratePost(baseUrl + "/api/generate", GenerateRequest(model, prompt, stream, maxTokens)), Checked(reply, ApiError))
    }

    /** The trait's `chat`, and through `Complete` its `edit_code`, `explain_code`,
        `analyze_code` and `create_file`: one non-streaming post; a success is
        read as JSON lines. */
    method Chat(message: string, reply: Result<Reply>, parse: Parser) returns (post: Post, r: Result<string>)
      ensures post == ChatPost(baseUrl + "/api/chat", ChatRequest(model, [Message("user", message)], maxTokens, false))
      ensures reply.Err? ==> r == Err(reply.error)
      ensures reply.Ok? && !IsSuccess(reply.value.status) ==> r == Err(ApiError + reply.value.body)
      ensures reply.Ok? && IsSuccess(reply.value.status) ==> r == Ok(JsonlText(Lines(reply.value.body), parse))
    {
      post, r := Complete(UserMessage(message), reply, parse);
    }

    /** `edit_code`: a system message and the instruction-and-code prompt. */
    method EditCode(code: string, instruction: string, reply: Result<Reply>, parse: Parser) returns (post: Post, r: Result<string>)
      ensures post == ChatPost(baseUrl + "/api/chat", ChatRequest(model, EditMessages(code, instruction), maxTokens, false))
      ensures reply.Ok? && IsSuccess(reply.value.status) ==> r == Ok(JsonlText(Lines(reply.value.body), parse))
      ensures !(reply.Ok? && IsSuccess(reply.value.status)) ==> r == Err(Checked(reply, ApiError).error)
    {
      post, r := Complete(EditMessages(code, instruction), reply, parse);
    }

    /** `explain_code`: one user message. */
    method ExplainCode(code: string, reply: Result<Reply>, parse: Parser) returns (post: Post, r: Result<string>)
      ensures post == ChatPost(baseUrl + "/api/chat", ChatRequest(model, [Message("user", ExplainPrompt(code))], maxTokens, false))
      ensures reply.Ok? && IsSuccess(reply.value.status) ==> r == Ok(JsonlText(Lines(reply.value.body), parse))
      ensures !(reply.Ok? && IsSuccess(reply.value.status)) ==> r == Err(Checked(reply, ApiError).error)
    {
      post, r := Complete([Message("user", ExplainPrompt(code))], reply, parse);
    }

    /** `analyze_code`: one user message naming the kind of analysis. */
    method AnalyzeCode(code: string, analysisType: string, reply: Result<Reply>, parse: Parser) returns (post: Post, r: Result<string>)
      ensures post == ChatPost(baseUrl + "/api/chat", ChatRequest(model, [Message("user", AnalyzePrompt(code, analysisType))], maxTokens, false))
      ensures reply.Ok? && IsSuccess(reply.value.status) ==> r == Ok(JsonlText(Lines(reply.value.body), parse))
      ensures !(reply.Ok? && IsSuccess(reply.value.status)) ==> r == Err(Checked(reply, ApiError).error)
    {
      post, r := Complete([Message("user", AnalyzePrompt(code, analysisType))], reply, parse);
    }

    /** `create_file`: a system message and the description prompt. */
    method CreateFile(description: string, reply: Result<Reply>, parse: Parser) returns (post: Post, r: Result<string>)
      ensures post == ChatPost(baseUrl + "/api/chat", ChatRequest(model, CreateMessages(description), maxTokens, false))
      ensures reply.Ok? && IsSuccess(reply.value.status) ==> r == Ok(JsonlText(Lines(reply.value.body), parse))
      ensures !(reply.Ok? && IsSuccess(reply.value.status)) ==> r == Err(Checked(reply, ApiError).error)
    {
      post, r := Complete(CreateMessages(description), reply, parse);
    }

    /** The private `chat` with `stream = false`, followed by the JSON-lines loop
        that all the non-streaming calls repeat. */
    method Complete(messages: seq<Message>, reply: Result<Reply>, parse: Parser) returns (post: Post, r: Result<string>)
      ensures post == ChatPostOf(messages, false)
      ensures reply.Err? ==> r == Err(reply.error)
      ensures reply.Ok? && !IsSuccess(reply.value.status) ==> r == Err(ApiError + reply.value.body)
      ensures reply.Ok? && IsSuccess(reply.value.status) ==> r == Ok(JsonlText(Lines(reply.value.body), parse))
    {
      post := ChatPostOf(messages, false);
      var checked := Checked(reply, ApiError);
      if checked.Err? {
        return post, Err(checked.error);
      }
      var text := AccumulateJsonl(checked.value.body, parse);
      r := Ok(text);
    }

    /** `chat_stream`: a streaming post; past the status guard each chunk is
        decoded on its own. */
    function ChatStream(message: string, reply: Result<Reply>, chunks: seq<Result<string>>, parse: Parser)
      : (r: (Post, Result<seq<Result<string>>>))
      reads this
      ensures r.0 == ChatPost(baseUrl + "/api/chat", ChatRequest(model, [Message("user", message)], maxTokens, true))
      ensures reply.Err? ==> r.1 == Err(reply.error)
      ensures reply.Ok? && !IsSuccess(reply.value.status) ==> r.1 == Err(ApiError + reply.value.body)
      ensures reply.Ok? && IsSuccess(reply.value.status) ==>
        r.1.Ok? && |r.1.value| == |chunks| && forall i :: 0 <= i < |chunks| ==> r.1.value[i] == DecodeChunk(chunks[i], parse)
    {
      var post := ChatPostOf(UserMessage(message), true);
      match Checked(reply, ApiError)
      case Err(e) => (post, Err(e))
      case Ok(_) => (post, Ok(seq(|chunks|, i requires 0 <= i < |chunks| => DecodeChunk(chunks[i], parse))))
    }
  }

  // The prompts of the non-streaming calls.

  const EditSystem: string := "You are a code editor. Edit code according to instructions and return only the modified code in a code block."
  const EditHead: string := "Edit the following code according to this instruction: "
  const EditTail: string := "\n```\n\nProvide only the edited code in a code block."
  const CreateSystem: string := "You are a code generator. Generate complete, working code files based on descriptions."
  const CreateHead: string := "Create a complete, working file based on this description: "
  const CreateTail: string := "\n\nProvide the complete file content in a code block."

  function EditMessages(code: string, instruction: string): seq<Message> {
    [Message("system", EditSystem), Message("user", EditHead + instruction + "\n\nCode:\n```\n" + code + EditTail)]
  }

  const ExplainHead: string := "Explain the following code clearly and concisely:\n\n```\n"
  const AnalyzeHead: string := "Analyze the following code for "
  const AnalyzeMiddle: string := " and provide actionable feedback:\n\n```\n"
  const Fence: string := "\n```"

  function ExplainPrompt(code: string): string {
    ExplainHead + code + Fence
  }

  function AnalyzePrompt(code: string, analysisType: string): string {
    AnalyzeHead + analysisType + AnalyzeMiddle + code + Fence
  }

  function CreateMessages(description: string): seq<Message> {
    [Message("system", CreateSystem), Message("user", CreateHead + description + CreateTail)]
  }

  /** `OllamaChatResponse { message: Option<OllamaMessage>, done }` */
  datatype ChatLine = ChatLine(message: Option<Message>, done: bool)

  function DecodeChatLine(j: Json): Option<ChatLine> {
    var message: Option<Option<Message>> :=
      match GetOptional(j, "message")
      case None => Some(None)
      case Some(m) => (match DecodeMessage(m) case Some(x) => Some(Some(x)) case None => None);
    match (message, GetBool(j, "done"))
    case (Some(m), Some(d)) => Some(ChatLine(m, d))
    case _ => None
  }

  function EncodeChatLine(c: ChatLine): Json {
    Obj(map["message" := (match c.message case Some(m) => EncodeMessage(m) case None => Null), "done" := Bool(c.done)])
  }

  lemma ChatLineRoundTrip(c: ChatLine)
    ensures DecodeChatLine(EncodeChatLine(c)) == Some(c)
  {
    var j := EncodeChatLine(c);
    assert GetBool(j, "done") == Some(c.done);
    if c.message.Some? {
      var m := EncodeMessage(c.message.value);
      assert GetOptional(j, "message") == Some(m);
      assert GetStr(m, "role") == Some(c.message.value.role) && GetStr(m, "content") == Some(c.message.value.content);
    } else {
      assert GetOptional(j, "message") == None;
    }
  }

  function ParseLine(line: string, parse: Parser): Option<ChatLine> {
    match parse(line)
    case Some(j) => DecodeChatLine(j)
    case None => None
  }

  /** Each line read as an `OllamaChatResponse`, `None` where that fails. */
  function ParseLines(lines: seq<string>, parse: Parser): seq<Option<ChatLine>> {
    if lines == [] then [] else ParseLines(lines[..|lines| - 1], parse) + [ParseLine(lines[|lines| - 1], parse)]
  }

  lemma {:induction false} ParseLinesAt(lines: seq<string>, parse: Parser, i: nat)
    ensures |ParseLines(lines, parse)| == |lines|
    ensures i < |lines| ==> ParseLines(lines, parse)[i] == ParseLine(lines[i], parse)
  {
    if lines != [] {
      var init := lines[..|lines| - 1];
      ParseLinesAt(init, parse, i);
      if i < |init| {
        assert lines[i] == init[i];
      }
    }
  }

  /** What a line adds: its message's content, when it parsed and has one. */
  function LineText(p: Option<ChatLine>): string {
    if p.Some? && p.value.message.Some? then p.value.message.value.content else ""
  }

  /** A line that parsed and is marked `done`; it ends the loop. */
  predicate IsDone(p: Option<ChatLine>) {
    p.Some? && p.value.done
  }

  /** The texts of the parsed lines, concatenated in order. */
  function Contents(ps: seq<Option<ChatLine>>): string {
    if ps == [] then "" else Contents(ps[..|ps| - 1]) + LineText(ps[|ps| - 1])
  }

  /** How many lines the loop reads: up to and including the first `done` line. */
  function DoneIndex(ps: seq<Option<ChatLine>>): (n: nat)
    ensures n <= |ps|
    ensures forall k :: 0 <= k < n - 1 ==> !IsDone(ps[k])
    ensures n < |ps| ==> n > 0 && IsDone(ps[n - 1])
  {
    if ps == [] then 0
    else if IsDone(ps[0]) then 1
    else
      var m := DoneIndex(ps[1..]);
      assert forall k :: 1 <= k < |ps| ==> ps[k] == ps[1..][k - 1];
      1 + m
  }

  /** What the loop accumulates over the parsed lines. */
  function Accumulated(ps: seq<Option<ChatLine>>): string {
    Contents(ps[..DoneIndex(ps)])
  }

  /** The result of the JSON-lines loop over a body's lines. */
  function JsonlText(lines: seq<string>, parse: Parser): string {
    Accumulated(ParseLines(lines, parse))
  }

  /** The number of lines read is determined by where the first `done` line is. */
  lemma {:induction false} DoneIndexIs(ps: seq<Option<ChatLine>>, n: nat)
    requires n <= |ps|
    requires forall k :: 0 <= k < n - 1 ==> !IsDone(ps[k])
    requires (n > 0 && IsDone(ps[n - 1])) || (n == |ps| && forall k :: 0 <= k < n ==> !IsDone(ps[k]))
    ensures DoneIndex(ps) == n
  {
    if n > 0 && !IsDone(ps[0]) {
      forall k | 0 <= k < n - 2 ensures !IsDone(ps[1..][k]) {
        assert ps[1..][k] == ps[k + 1];
      }
      if IsDone(ps[n - 1]) {
        assert ps[1..][n - 2] == ps[n - 1];
      } else {
        forall k | 0 <= k < n - 1 ensures !IsDone(ps[1..][k]) {
          assert ps[1..][k] == ps[k + 1];
        }
      }
      DoneIndexIs(ps[1..], n - 1);
    }
  }

  lemma {:induction false} ContentsAppend(a: seq<Option<ChatLine>>, b: seq<Option<ChatLine>>)
    ensures Contents(a + b) == Contents(a) + Contents(b)
    decreases |b|
  {
    if b == [] {
      assert a + b == a;
    } else {
      var c := b[..|b| - 1];
      var last := b[|b| - 1];
      assert (a + b)[..|a + b| - 1] == a + c;
      assert (a + b)[|a + b| - 1] == last;
      ContentsAppend(a, c);
      calc {
        Contents(a + b);
        Contents(a + c) + LineText(last);
        (Contents(a) + Contents(c)) + LineText(last);
        Contents(a) + (Contents(c) + LineText(last));
        Contents(a) + Contents(b);
      }
    }
  }

  /** Lines without a `done` mark in front of others only add to the count. */
  lemma {:induction false} DoneIndexAfter(a: seq<Option<ChatLine>>, b: seq<Option<ChatLine>>)
    requires forall k :: 0 <= k < |a| ==> !IsDone(a[k])
    ensures DoneIndex(a + b) == |a| + DoneIndex(b)
  {
    if a != [] {
      assert (a + b)[0] == a[0];
      assert (a + b)[1..] == a[1..] + b;
      DoneIndexAfter(a[1..], b);
    } else {
      assert a + b == b;
    }
  }

  /** Once a `done` line has been seen, what follows is never looked at. */
  lemma {:induction false} DoneIndexWithin(a: seq<Option<ChatLine>>, b: seq<Option<ChatLine>>, k: nat)
    requires k < |a| && IsDone(a[k])
    ensures DoneIndex(a + b) == DoneIndex(a)
  {
    assert (a + b)[0] == a[0];
    if !IsDone(a[0]) {
      assert (a + b)[1..] == a[1..] + b;
      DoneIndexWithin(a[1..], b, k - 1);
    }
  }

  /** The loop stops at the first `done` line: what follows it is never read. */
  lemma StopsAtFirstDone(before: seq<Option<ChatLine>>, p: Option<ChatLine>, after: seq<Option<ChatLine>>)
    requires forall k :: 0 <= k < |before| ==> !IsDone(before[k])
    requires IsDone(p)
    ensures Accumulated(before + [p] + after) == Contents(before) + LineText(p)
  {
    var ps := before + [p] + after;
    DoneIndexIs(ps, |before| + 1);
    assert ps[..|before| + 1] == before + [p];
    assert (before + [p])[..|before|] == before;
  }

  /** A line that does not parse, or parses without a message and without `done`,
      changes nothing. */
  lemma IgnoresSilentLine(before: seq<Option<ChatLine>>, p: Option<ChatLine>, after: seq<Option<ChatLine>>)
    requires LineText(p) == "" && !IsDone(p)
    ensures Accumulated(before + [p] + after) == Accumulated(before + after)
  {
    assert before + [p] + after == before + ([p] + after);
    if k :| 0 <= k < |before| && IsDone(before[k]) {
      SilentAfterDone(before, p, after, k);
    } else {
      SilentBeforeDone(before, p, after);
    }
  }

  lemma SilentAfterDone(before: seq<Option<ChatLine>>, p: Option<ChatLine>, after: seq<Option<ChatLine>>, k: nat)
    requires k < |before| && IsDone(before[k])
    ensures Accumulated(before + ([p] + after)) == Accumulated(before + after)
  {
    DoneIndexWithin(before, [p] + after, k);
    DoneIndexWithin(before, after, k);
    var d := DoneIndex(before);
    assert (before + ([p] + after))[..d] == before[..d] == (before + after)[..d];
  }

  lemma SilentBeforeDone(before: seq<Option<ChatLine>>, p: Option<ChatLine>, after: seq<Option<ChatLine>>)
    requires LineText(p) == "" && !IsDone(p)
    requires forall k :: 0 <= k < |before| ==> !IsDone(before[k])
    ensures Accumulated(before + ([p] + after)) == Accumulated(before + after)
  {
    var tail := [p] + after;
    AccumulatedPast(before, tail);
    AccumulatedPast(before, after);
    assert !IsDone([p][0]);
    AccumulatedPast([p], after);
    assert [p][..0] == [];
    assert Contents([p]) == "";
    assert Accumulated(tail) == Accumulated(after);
  }

  /** Lines before the first `done` line are read whole, and the rest is read as
      if on its own. */
  lemma AccumulatedPast(a: seq<Option<ChatLine>>, b: seq<Option<ChatLine>>)
    requires forall k :: 0 <= k < |a| ==> !IsDone(a[k])
    ensures Accumulated(a + b) == Contents(a) + Accumulated(b)
  {
    var m := DoneIndex(b);
    DoneIndexAfter(a, b);
    ReadPrefix(a + b, |a| + m);
    ReadPrefix(b, m);
    TakeAppend(a, b, m);
    ContentsAppend(a, b[..m]);
  }

  /** What the loop reads, once it is known how many lines it reads. */
  lemma ReadPrefix(ps: seq<Option<ChatLine>>, n: nat)
    requires n == DoneIndex(ps)
    ensures Accumulated(ps) == Contents(ps[..n])
  {
  }

  /** With no `done` line, every line is read. */
  lemma ReadsAllWithoutDone(ps: seq<Option<ChatLine>>)
    requires forall k :: 0 <= k < |ps| ==> !IsDone(ps[k])
    ensures Accumulated(ps) == Contents(ps)
  {
    DoneIndexIs(ps, |ps|);
    assert ps[..|ps|] == ps;
  }

  /** The accumulation loop of `chat` and the other non-streaming calls: each line
      that parses adds its message's content, and a `done` line ends the loop. */
  method AccumulateJsonl(text: string, parse: Parser) returns (result: string)
    ensures result == JsonlText(Lines(text), parse)
  {
    result := AccumulateLines(Lines(text), parse);
  }

  /** The loop itself, over the body's lines. */
  method AccumulateLines(lines: seq<string>, parse: Parser) returns (result: string)
    ensures result == JsonlText(lines, parse)
  {
    ghost var ps := ParseLines(lines, parse);
    ParseLinesAt(lines, parse, 0);
    result := "";
    ghost var stopped := false;
    var i := 0;
    while i < |lines|
      invariant 0 <= i <= |lines| && !stopped
      invariant forall k :: 0 <= k < i ==> !IsDone(ps[k])
      invariant result == Contents(ps[..i])
    {
      ParseLinesAt(lines, parse, i);
      Step(ps, i);
      var done;
      result, done := Absorb(result, ParseLine(lines[i], parse));
      if done {
        DoneIndexIs(ps, i + 1);
        ReadPrefix(ps, i + 1);
        stopped := true;
        break;
      }
      i := i + 1;
    }
    if !stopped {
      assert ps[..i] == ps;
      ReadsAllWithoutDone(ps);
    }
  }

  lemma Step(ps: seq<Option<ChatLine>>, i: nat)
    requires i < |ps|
    ensures Contents(ps[..i + 1]) == Contents(ps[..i]) + LineText(ps[i])
  {
    assert ps[..i + 1][..i] == ps[..i];
  }

  /** The body of the loop: a line that parsed adds its message's content, and
      says whether it is the last. */
  method Absorb(result: string, parsed: Option<ChatLine>) returns (result': string, done: bool)
    ensures result' == result + LineText(parsed) && done == IsDone(parsed)
  {
    result', done := result, false;
    if parsed.Some? {
      if parsed.value.message.Some? {
        result' := result + parsed.value.message.value.content;
      }
      done := parsed.value.done;
    }
  }

  /** A stream line's message content, when it parses and has a message. */
  function LineMessage(line: string, parse: Parser): Option<string> {
    match ParseLine(line, parse)
    case Some(ChatLine(Some(m), _)) => Some(m.content)
    case _ => None
  }

  /** The stream's map over chunks: the first line with a message gives the chunk's
      text (`done` is not looked at), `""` when none has one; a transport error
      becomes "Stream error". */
  function DecodeChunk(chunk: Result<string>, parse: Parser): (r: Result<string>)
    ensures chunk.Err? ==> r == Err("Stream error: " + chunk.error)
    ensures chunk.Ok? ==> r.Ok?
    ensures chunk.Ok? ==> forall i :: FirstHit(Lines(chunk.value), i, l => LineMessage(l, parse), _ => false)
                                      ==> r.value == LineMessage(Lines(chunk.value)[i], parse).value
    ensures chunk.Ok? && r.value != "" ==>
      exists i :: FirstHit(Lines(chunk.value), i, l => LineMessage(l, parse), _ => false)
                  && LineMessage(Lines(chunk.value)[i], parse) == Some(r.value)
  {
    match chunk
    case Err(e) => Err("Stream error: " + e)
    case Ok(text) => Ok(Scan(Lines(text), l => LineMessage(l, parse), _ => false))
  }

  const Catalog: seq<string> := ["llama2", "llama2:13b", "llama2:70b", "codellama", "codellama:13b",
                                 "codellama:34b", "mistral", "mixtral", "qwen", "dolphin-mixtral"]

  /** `OllamaModel { name, size: u64, digest, modified_at }`: every field is
      required. */
  function DecodeModel(j: Json): Option<string> {
    match (GetStr(j, "name"), Get(j, "size"), GetStr(j, "digest"), GetStr(j, "modified_at"))
    case (Some(name), Some(Num(size)), Some(_), Some(_)) => if 0 <= size < 0x1_0000_0000_0000_0000 then Some(name) else None
    case _ => None
  }

  /** `list_local_models` */
  function ListLocalModels(reply: Result<Reply>, parse: Parser): (r: Result<seq<string>>)
    ensures reply.Err? ==> r == Err(reply.error)
    ensures reply.Ok? && !IsSuccess(reply.value.status) ==> r == Err("Failed to fetch Ollama models")
    ensures reply.Ok? && IsSuccess(reply.value.status) ==>
      r == match (match parse(reply.value.body) case Some(j) => DecodeField(j, "models", DecodeModel) case None => None)
           case Some(names) => Ok(names)
           case None => Err(DecodeError)
  {
    match reply
    case Err(e) => Err(e)
    case Ok(x) =>
      if !IsSuccess(x.status) then Err("Failed to fetch Ollama models")
      else
        match (match parse(x.body) case Some(j) => DecodeField(j, "models", DecodeModel) case None => None)
        case Some(names) => Ok(names)
        case None => Err(DecodeError)
  }

  /** The trait's `list_models`: the local models, or the ten-entry catalog on
      any error. */
  function ListModels(reply: Result<Reply>, parse: Parser): (r: seq<string>)
    ensures ListLocalModels(reply, parse).Ok? ==> r == ListLocalModels(reply, parse).value
    ensures ListLocalModels(reply, parse).Err? ==> r == Catalog && |r| == 10 && r[0] == "llama2"
  {
    match ListLocalModels(reply, parse)
    case Ok(names) => names
    case Err(_) => Catalog
  }
}
