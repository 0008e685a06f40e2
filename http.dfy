/** What the provider backends share: an HTTP reply as data, the status guard of
    their `make_request` functions, and the serde-derived decoders of the
    OpenAI-style chat completion format that both the OpenAI and the GhostLLM
    backends read. The JSON text layer is a parser passed in by the caller. */
module Http {
  import opened Common
  import opened Json

  /** A reply as `reqwest` hands it over: the status code and the body text. */
  datatype Reply = Reply(status: nat, body: string)

  /** `StatusCode::is_success`: the 2xx range. */
  predicate IsSuccess(status: nat) {
    200 <= status < 300
  }

  /** JSON text parsing (`serde_json::from_str` and `Response::json`), which this
      model leaves abstract: `None` for text that is not JSON. */
  type Parser = string -> Option<Json>

  /** The error a body that does not decode into the expected type produces. */
  const DecodeError: string := "error decoding response body"

  /** The guard every backend's `make_request` applies: a transport error passes
      through, and a status outside 2xx becomes an error carrying the prefix and
      the body text. */
  function Checked(reply: Result<Reply>, prefix: string): (r: Result<Reply>)
    ensures r.Ok? <==> reply.Ok? && IsSuccess(reply.value.status)
    ensures r.Ok? || reply.Err? ==> r == reply
    ensures reply.Ok? && !IsSuccess(reply.value.status) ==> r == Err(prefix + reply.value.body)
  {
    match reply
    case Err(_) => reply
    case Ok(x) => if IsSuccess(x.status) then reply else Err(prefix + x.body)
  }

  /** A chat message, `{role, content}`, as every backend writes and reads it. */
  datatype Message = Message(role: string, content: string)

  /** The body of a chat request, without the sampling temperature. */
  datatype ChatRequest = ChatRequest(model: string, messages: seq<Message>, maxTokens: nat, stream: bool)

  /** The single user message that every `chat` sends. */
  function UserMessage(content: string): seq<Message> {
    [Message("user", content)]
  }

  function EncodeMessage(m: Message): Json {
    Obj(map["role" := Str(m.role), "content" := Str(m.content)])
  }

  function DecodeMessage(j: Json): (r: Option<Message>)
    ensures r.Some? <==> GetStr(j, "role").Some? && GetStr(j, "content").Some?
  {
    match (GetStr(j, "role"), GetStr(j, "content"))
    case (Some(role), Some(content)) => Some(Message(role, content))
    case _ => None
  }

  /** A `Vec<T>`: every element must decode. */
  function DecodeEach<T>(items: seq<Json>, f: Json -> Option<T>): (r: Option<seq<T>>)
    ensures r.Some? <==> forall i :: 0 <= i < |items| ==> f(items[i]).Some?
    ensures r.Some? ==> |r.value| == |items| && forall i :: 0 <= i < |items| ==> f(items[i]) == Some(r.value[i])
  {
    if items == [] then Some([])
    else
      match (f(items[0]), DecodeEach(items[1..], f))
      case (Some(x), Some(xs)) => Some([x] + xs)
      case _ => None
  }

  /** An array-valued field of an object, decoded element by element. */
  function DecodeField<T>(j: Json, key: string, f: Json -> Option<T>): Option<seq<T>> {
    match Get(j, key)
    case Some(Arr(items)) => DecodeEach(items, f)
    case _ => None
  }

  function EncodeEach<T>(xs: seq<T>, g: T -> Json): (js: seq<Json>)
    ensures |js| == |xs| && forall i :: 0 <= i < |xs| ==> js[i] == g(xs[i])
  {
    if xs == [] then [] else [g(xs[0])] + EncodeEach(xs[1..], g)
  }

  /** Decoding what was encoded element by element gives back the elements. */
  lemma EachRoundTrip<T>(xs: seq<T>, f: Json -> Option<T>, g: T -> Json)
    requires forall i :: 0 <= i < |xs| ==> f(g(xs[i])) == Some(xs[i])
    ensures DecodeEach(EncodeEach(xs, g), f) == Some(xs)
  {
    var r := DecodeEach(EncodeEach(xs, g), f);
    assert r.Some?;
    assert r.value == xs;
  }

  /** The first string of a list, or the empty string when the list is empty. */
  function FirstOrEmpty(xs: seq<string>): (r: string)
    ensures xs != [] ==> r == xs[0]
    ensures xs == [] ==> r == ""
  {
    if xs == [] then "" else xs[0]
  }

  // The OpenAI-style completion formats.

  /** `Choice { message }` */
  function DecodeChoice(j: Json): Option<Message> {
    match Get(j, "message")
    case Some(m) => DecodeMessage(m)
    case None => None
  }

  function EncodeChoice(m: Message): Json {
    Obj(map["message" := EncodeMessage(m)])
  }

  /** `ChatResponse { choices }`: the messages of the choices, in order. */
  function DecodeChatResponse(j: Json): Option<seq<Message>> {
    DecodeField(j, "choices", DecodeChoice)
  }

  function EncodeChatResponse(ms: seq<Message>): Json {
    Obj(map["choices" := Arr(EncodeEach(ms, EncodeChoice))])
  }

  lemma ChatResponseRoundTrip(ms: seq<Message>)
    ensures DecodeChatResponse(EncodeChatResponse(ms)) == Some(ms)
  {
    forall i | 0 <= i < |ms|
      ensures DecodeChoice(EncodeChoice(ms[i])) == Some(ms[i])
    {
      var m := EncodeMessage(ms[i]);
      assert GetStr(m, "role") == Some(ms[i].role) && GetStr(m, "content") == Some(ms[i].content);
    }
    EachRoundTrip(ms, DecodeChoice, EncodeChoice);
  }

  /** `StreamChoice { delta: Delta { content } }`: the delta content of a choice. */
  function DecodeStreamChoice(j: Json): Option<Option<string>> {
    match Get(j, "delta")
    case Some(Obj(fields)) => GetOptStr(Obj(fields), "content")
    case _ => None
  }

  function EncodeStreamChoice(content: Option<string>): Json {
    Obj(map["delta" := Obj(map["content" := OptStr(content)])])
  }

  /** `StreamChunk { choices }`: the delta contents of the choices, in order. */
  function DecodeStreamChunk(j: Json): Option<seq<Option<string>>> {
    DecodeField(j, "choices", DecodeStreamChoice)
  }

  function EncodeStreamChunk(deltas: seq<Option<string>>): Json {
    Obj(map["choices" := Arr(EncodeEach(deltas, EncodeStreamChoice))])
  }

  lemma StreamChunkRoundTrip(deltas: seq<Option<string>>)
    ensures DecodeStreamChunk(EncodeStreamChunk(deltas)) == Some(deltas)
  {
    forall i | 0 <= i < |deltas|
      ensures DecodeStreamChoice(EncodeStreamChoice(deltas[i])) == Some(deltas[i])
    {
      OptStrRoundTrip(map[], "content", deltas[i]);
      assert map[]["content" := OptStr(deltas[i])] == map["content" := OptStr(deltas[i])];
    }
    EachRoundTrip(deltas, DecodeStreamChoice, EncodeStreamChoice);
  }

  /** The first choice's delta content, when there is a first choice and it
      has one. */
  function FirstDelta(deltas: seq<Option<string>>): (r: Option<string>)
    ensures r.Some? <==> deltas != [] && deltas[0].Some?
    ensures r.Some? ==> r == deltas[0]
  {
    if deltas == [] then None else deltas[0]
  }

  // The line searches of the stream decoders.

  /** Line `i` is a hit and not a stop line, and the search passes over every line
      before it: none of them is a hit or a stop line. */
  predicate FirstHit(lines: seq<string>, i: int, hit: string -> Option<string>, stop: string -> bool) {
    && 0 <= i < |lines|
    && hit(lines[i]).Some? && !stop(lines[i])
    && forall k :: 0 <= k < i ==> hit(lines[k]).None? && !stop(lines[k])
  }

  lemma FirstHitOfTail(lines: seq<string>, i: int, hit: string -> Option<string>, stop: string -> bool)
    requires lines != [] && hit(lines[0]).None? && !stop(lines[0])
    ensures FirstHit(lines, i + 1, hit, stop) <==> FirstHit(lines[1..], i, hit, stop)
  {
    if FirstHit(lines[1..], i, hit, stop) {
      forall k | 0 <= k < i + 1 ensures hit(lines[k]).None? && !stop(lines[k]) {
        if k > 0 { assert lines[k] == lines[1..][k - 1]; }
      }
    }
    if FirstHit(lines, i + 1, hit, stop) {
      forall k | 0 <= k < i ensures hit(lines[1..][k]).None? && !stop(lines[1..][k]) {
        assert lines[1..][k] == lines[k + 1];
      }
    }
  }

  /** A `for line in text.lines()` loop that returns the first hit and breaks at a
      stop line: the first hit before any stop line, and `""` when there is none. */
  function Scan(lines: seq<string>, hit: string -> Option<string>, stop: string -> bool): (r: string)
    ensures forall i :: FirstHit(lines, i, hit, stop) ==> r == hit(lines[i]).value
    ensures r != "" ==> exists i :: FirstHit(lines, i, hit, stop) && hit(lines[i]) == Some(r)
  {
    if lines == [] then ""
    else if stop(lines[0]) then ""
    else
      match hit(lines[0])
      case Some(content) => content
      case None =>
        var r := Scan(lines[1..], hit, stop);
        assert forall i :: FirstHit(lines, i, hit, stop) ==> r == hit(lines[i]).value by {
          forall i | FirstHit(lines, i, hit, stop) ensures r == hit(lines[i]).value {
            FirstHitOfTail(lines, i - 1, hit, stop);
            assert lines[i] == lines[1..][i - 1];
          }
        }
        assert r != "" ==> exists i :: FirstHit(lines, i, hit, stop) && hit(lines[i]) == Some(r) by {
          if r != "" {
            var i :| FirstHit(lines[1..], i, hit, stop) && hit(lines[1..][i]) == Some(r);
            FirstHitOfTail(lines, i, hit, stop);
            assert lines[i + 1] == lines[1..][i];
          }
        }
        r
  }
}
