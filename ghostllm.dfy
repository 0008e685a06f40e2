/** `src/providers/ghostllm.rs`: the GhostLLM backend. A request is posted to the
    completions endpoint; a 403 reply asking for consent is answered by approving
    the consent for the session and posting the same request again, with no bound
    on the number of rounds. The replies the server gives are a script passed in
    by the caller, consumed in order. */
module GhostLLM {
  import opened Common
  import opened Text
  import opened Json
  import opened Http
  import Streaming

  datatype GhostLLMProvider = GhostLLMProvider(baseUrl: string, sessionToken: Option<string>)

  /** What the backend posts: a chat request, or a consent decision. */
  datatype Post =
    | ChatPost(url: string, authorization: Option<string>, request: ChatRequest)
    | ConsentPost(url: string, consentId: string, decision: string)

  /** The `Authorization` header, present exactly when there is a session token. */
  function Authorization(p: GhostLLMProvider): (h: Option<string>)
    ensures h.Some? <==> p.sessionToken.Some?
    ensures h.Some? ==> h.value == "Bearer " + p.sessionToken.value
  {
    match p.sessionToken
    case Some(token) => Some("Bearer " + token)
    case None => None
  }

  function ChatPostOf(p: GhostLLMProvider, request: ChatRequest): Post {
    ChatPost(p.baseUrl + "/v1/chat/completions", Authorization(p), request)
  }

  const SessionDecision: string := "allow_session"

  function ConsentPostOf(p: GhostLLMProvider, consentId: string): Post {
    ConsentPost(p.baseUrl + "/admin/consent", consentId, SessionDecision)
  }

  /** `ConsentRequired { error: ConsentError { message, type, consent_id } }` */
  datatype ConsentError = ConsentError(message: string, errorType: string, consentId: string)

  function DecodeConsent(j: Json): Option<ConsentError> {
    match Get(j, "error")
    case Some(e) =>
      (match (GetStr(e, "message"), GetStr(e, "type"), GetStr(e, "consent_id"))
       case (Some(m), Some(t), Some(id)) => Some(ConsentError(m, t, id))
       case _ => None)
    case None => None
  }

  function EncodeConsent(c: ConsentError): Json {
    Obj(map["error" := Obj(map["message" := Str(c.message), "type" := Str(c.errorType), "consent_id" := Str(c.consentId)])])
  }

  lemma ConsentRoundTrip(c: ConsentError)
    ensures DecodeConsent(EncodeConsent(c)) == Some(c)
  {
    var e := Obj(map["message" := Str(c.message), "type" := Str(c.errorType), "consent_id" := Str(c.consentId)]);
    assert Get(EncodeConsent(c), "error") == Some(e);
    assert GetStr(e, "message") == Some(c.message) && GetStr(e, "type") == Some(c.errorType);
    assert GetStr(e, "consent_id") == Some(c.consentId);
  }

  const ConsentRequired: string := "consent_required"

  /** `approve_consent`, given the reply to the consent post. */
  function ApproveConsent(reply: Result<Reply>): (r: Outcome)
    ensures r.Ok? <==> reply.Ok? && IsSuccess(reply.value.status)
    ensures reply.Err? ==> r == Err(reply.error)
    ensures reply.Ok? && !IsSuccess(reply.value.status) ==> r == Err("Failed to approve consent")
  {
    match reply
    case Err(e) => Err(e)
    case Ok(x) => if IsSuccess(x.status) then Done else Err("Failed to approve consent")
  }

  /** The code indexes `choices[0]` of a 200 reply, which panics on an empty list:
      every 200 reply that decodes carries at least one choice. */
  predicate HasChoice(reply: Result<Reply>, parse: Parser) {
    reply.Ok? && reply.value.status == 200 && parse(reply.value.body).Some? ==>
      var choices := DecodeChatResponse(parse(reply.value.body).value);
      choices.Some? ==> choices.value != []
  }

  predicate HasChoices(replies: seq<Result<Reply>>, parse: Parser) {
    forall i :: 0 <= i < |replies| ==> HasChoice(replies[i], parse)
  }

  /** The posts made, and the outcome; `None` when the script ends while a post
      is still waiting for its reply. */
  datatype Exchange = Exchange(posts: seq<Post>, result: Option<Result<string>>)

  /** The result of the reply to a chat post that is not a consent request. */
  function Answer(reply: Result<Reply>, parse: Parser): (r: Result<string>)
    requires HasChoice(reply, parse)
  {
    match reply
    case Err(e) => Err(e)
    case Ok(x) =>
      if x.status == 200 then
        match parse(x.body)
        case None => Err(DecodeError)
        case Some(j) =>
          (match DecodeChatResponse(j)
           case Some(choices) => Ok(choices[0].content)
           case None => Err(DecodeError))
      else if x.status == 403 then
        match (match parse(x.body) case Some(j) => DecodeConsent(j) case None => None)
        case Some(c) => Err("GhostLLM error: " + c.message)
        case None => Err(DecodeError)
      else Err("GhostLLM API error: " + x.body)
  }

  /** The consent a reply asks for: a 403 whose error type is `consent_required`. */
  function ConsentAsked(reply: Result<Reply>, parse: Parser): Option<string> {
    if reply.Ok? && reply.value.status == 403 && parse(reply.value.body).Some? then
      match DecodeConsent(parse(reply.value.body).value)
      case Some(c) => if c.errorType == ConsentRequired then Some(c.consentId) else None
      case None => None
    else None
  }

  /** `make_request`: every post is either the original request, unchanged, or a
      session-wide approval of a consent; each reply is used once. */
  function MakeRequest(p: GhostLLMProvider, request: ChatRequest, replies: seq<Result<Reply>>, parse: Parser): (x: Exchange)
    requires HasChoices(replies, parse)
    ensures |x.posts| >= 1 && x.posts[0] == ChatPostOf(p, request)
    ensures forall i :: 0 <= i < |x.posts| ==> x.posts[i] == ChatPostOf(p, request) || (x.posts[i].ConsentPost? && x.posts[i] == ConsentPostOf(p, x.posts[i].consentId))
    ensures x.result.Some? ==> |x.posts| <= |replies|
    ensures x.result.None? ==> |x.posts| == |replies| + 1
    decreases |replies|
  {
    if replies == [] then Exchange([ChatPostOf(p, request)], None)
    else
      match ConsentAsked(replies[0], parse)
      case None => Exchange([ChatPostOf(p, request)], Some(Answer(replies[0], parse)))
      case Some(id) =>
        var asked := [ChatPostOf(p, request), ConsentPostOf(p, id)];
        if |replies| == 1 then Exchange(asked, None)
        else
          match ApproveConsent(replies[1])
          case Err(e) => Exchange(asked, Some(Err(e)))
          case Ok(_) =>
            assert HasChoices(replies[2..], parse) by {
              forall i | 0 <= i < |replies[2..]| ensures HasChoice(replies[2..][i], parse) {
                assert replies[2..][i] == replies[i + 2];
              }
            }
            var retry := MakeRequest(p, request, replies[2..], parse);
            Exchange(asked + retry.posts, retry.result)
  }

  /** A successful first reply answers with the first choice, after one post. */
  lemma AnswerOnSuccess(p: GhostLLMProvider, request: ChatRequest, body: string, choices: seq<Message>,
                        rest: seq<Result<Reply>>, parse: Parser)
    requires choices != [] && parse(body) == Some(EncodeChatResponse(choices))
    requires HasChoices([Ok(Reply(200, body))] + rest, parse)
    ensures MakeRequest(p, request, [Ok(Reply(200, body))] + rest, parse)
            == Exchange([ChatPostOf(p, request)], Some(Ok(choices[0].content)))
  {
    ChatResponseRoundTrip(choices);
    assert ConsentAsked(Ok(Reply(200, body)), parse) == None;
  }

  /** A consent request is approved for the session, and the same request is
      posted again with the rest of the script. */
  lemma ConsentThenRetry(p: GhostLLMProvider, request: ChatRequest, body: string, c: ConsentError,
                         approval: Reply, rest: seq<Result<Reply>>, parse: Parser)
    requires c.errorType == ConsentRequired && parse(body) == Some(EncodeConsent(c)) && IsSuccess(approval.status)
    requires HasChoices([Ok(Reply(403, body)), Ok(approval)] + rest, parse)
    ensures HasChoices(rest, parse)
    ensures MakeRequest(p, request, [Ok(Reply(403, body)), Ok(approval)] + rest, parse)
            == var retry := MakeRequest(p, request, rest, parse);
               Exchange([ChatPostOf(p, request), ConsentPostOf(p, c.consentId)] + retry.posts, retry.result)
  {
    var replies := [Ok(Reply(403, body)), Ok(approval)] + rest;
    ConsentRoundTrip(c);
    assert ConsentAsked(replies[0], parse) == Some(c.consentId);
    assert replies[2..] == rest;
    forall i | 0 <= i < |rest| ensures HasChoice(rest[i], parse) {
      assert rest[i] == replies[i + 2];
    }
  }

  /** A failed approval ends the exchange with its error: no retry. */
  lemma FailedApprovalStops(p: GhostLLMProvider, request: ChatRequest, body: string, c: ConsentError,
                            approval: Result<Reply>, rest: seq<Result<Reply>>, parse: Parser)
    requires c.errorType == ConsentRequired && parse(body) == Some(EncodeConsent(c))
    requires approval.Err? || !IsSuccess(approval.value.status)
    ensures ApproveConsent(approval).Err?
    requires HasChoices([Ok(Reply(403, body)), approval] + rest, parse)
    ensures MakeRequest(p, request, [Ok(Reply(403, body)), approval] + rest, parse)
            == Exchange([ChatPostOf(p, request), ConsentPostOf(p, c.consentId)], Some(Err(ApproveConsent(approval).error)))
  {
    ConsentRoundTrip(c);
    assert ConsentAsked(Ok(Reply(403, body)), parse) == Some(c.consentId);
  }

  /** Any other 403 is an error carrying the server's message. */
  lemma OtherForbidden(p: GhostLLMProvider, request: ChatRequest, body: string, c: ConsentError,
                       rest: seq<Result<Reply>>, parse: Parser)
    requires c.errorType != ConsentRequired && parse(body) == Some(EncodeConsent(c))
    requires HasChoices([Ok(Reply(403, body))] + rest, parse)
    ensures MakeRequest(p, request, [Ok(Reply(403, body))] + rest, parse)
            == Exchange([ChatPostOf(p, request)], Some(Err("GhostLLM error: " + c.message)))
  {
    ConsentRoundTrip(c);
  }

  /** Any status besides 200 and 403 is an error carrying the body text. */
  lemma OtherStatus(p: GhostLLMProvider, request: ChatRequest, reply: Reply, rest: seq<Result<Reply>>, parse: Parser)
    requires reply.status != 200 && reply.status != 403
    requires HasChoices([Ok(reply)] + rest, parse)
    ensures MakeRequest(p, request, [Ok(reply)] + rest, parse)
            == Exchange([ChatPostOf(p, request)], Some(Err("GhostLLM API error: " + reply.body)))
  {
  }

  /** `n` consent rounds followed by a successful reply. */
  function ConsentScript(n: nat, consentBody: string, approval: Reply, finalBody: string): (s: seq<Result<Reply>>)
    ensures |s| == 2 * n + 1
  {
    if n == 0 then [Ok(Reply(200, finalBody))]
    else [Ok(Reply(403, consentBody)), Ok(approval)] + ConsentScript(n - 1, consentBody, approval, finalBody)
  }

  lemma {:induction false} ConsentScriptHasChoices(n: nat, consentBody: string, approval: Reply, finalBody: string,
                                                   choices: seq<Message>, parse: Parser)
    requires HasChoice(Ok(approval), parse)
    requires choices != [] && parse(finalBody) == Some(EncodeChatResponse(choices))
    ensures HasChoices(ConsentScript(n, consentBody, approval, finalBody), parse)
  {
    var script := ConsentScript(n, consentBody, approval, finalBody);
    if n == 0 {
      ChatResponseRoundTrip(choices);
    } else {
      var rest := ConsentScript(n - 1, consentBody, approval, finalBody);
      ConsentScriptHasChoices(n - 1, consentBody, approval, finalBody, choices, parse);
      forall i | 0 <= i < |script| ensures HasChoice(script[i], parse) {
        if i >= 2 { assert script[i] == rest[i - 2]; }
      }
    }
  }

  /** One more consent round in front of a script adds two posts and keeps the
      result. */
  lemma ConsentRoundAdds(p: GhostLLMProvider, request: ChatRequest, n: nat, c: ConsentError, approval: Reply,
                         finalBody: string, choices: seq<Message>, consentBody: string, parse: Parser)
    requires n > 0
    requires c.errorType == ConsentRequired && parse(consentBody) == Some(EncodeConsent(c))
    requires IsSuccess(approval.status) && HasChoice(Ok(approval), parse)
    requires choices != [] && parse(finalBody) == Some(EncodeChatResponse(choices))
    requires HasChoices(ConsentScript(n, consentBody, approval, finalBody), parse)
    requires HasChoices(ConsentScript(n - 1, consentBody, approval, finalBody), parse)
    ensures var x := MakeRequest(p, request, ConsentScript(n, consentBody, approval, finalBody), parse);
            var y := MakeRequest(p, request, ConsentScript(n - 1, consentBody, approval, finalBody), parse);
            x.result == y.result && |x.posts| == |y.posts| + 2
  {
    var rest := ConsentScript(n - 1, consentBody, approval, finalBody);
    assert ConsentScript(n, consentBody, approval, finalBody) == [Ok(Reply(403, consentBody)), Ok(approval)] + rest;
    ConsentThenRetry(p, request, consentBody, c, approval, rest, parse);
  }

  /** There is no bound on the rounds: after any number of consent requests the
      request still goes through, having been posted once per round and once more. */
  lemma {:induction false} NoRetryBound(p: GhostLLMProvider, request: ChatRequest, n: nat, c: ConsentError, approval: Reply,
                                        finalBody: string, choices: seq<Message>, consentBody: string, parse: Parser)
    requires c.errorType == ConsentRequired && parse(consentBody) == Some(EncodeConsent(c))
    requires IsSuccess(approval.status) && HasChoice(Ok(approval), parse)
    requires choices != [] && parse(finalBody) == Some(EncodeChatResponse(choices))
    ensures HasChoices(ConsentScript(n, consentBody, approval, finalBody), parse)
    ensures var x := MakeRequest(p, request, ConsentScript(n, consentBody, approval, finalBody), parse);
            x.result == Some(Ok(choices[0].content)) && |x.posts| == 2 * n + 1
  {
    ConsentScriptHasChoices(n, consentBody, approval, finalBody, choices, parse);
    if n == 0 {
      AnswerOnSuccess(p, request, finalBody, choices, [], parse);
      assert [Ok(Reply(200, finalBody))] + [] == ConsentScript(n, consentBody, approval, finalBody);
    } else {
      NoRetryBound(p, request, n - 1, c, approval, finalBody, choices, consentBody, parse);
      ConsentRoundAdds(p, request, n, c, approval, finalBody, choices, consentBody, parse);
    }
  }

  const ChatModel: string := "auto"
  const ChatMaxTokens: nat := 2048

  /** The request `chat` and `chat_stream` build. */
  function ChatRequestOf(message: string, stream: bool): ChatRequest {
    ChatRequest(ChatModel, UserMessage(message), ChatMaxTokens, stream)
  }

  /** `chat`: a non-streaming request for the `auto` model. */
  function Chat(p: GhostLLMProvider, message: string, replies: seq<Result<Reply>>, parse: Parser): (x: Exchange)
    requires HasChoices(replies, parse)
    ensures |x.posts| >= 1 && x.posts[0] == ChatPost(p.baseUrl + "/v1/chat/completions", Authorization(p),
                                   ChatRequest("auto", [Message("user", message)], 2048, false))
    ensures forall i :: 0 <= i < |x.posts| && x.posts[i].ChatPost? ==> x.posts[i] == x.posts[0]
  {
    MakeRequest(p, ChatRequestOf(message, false), replies, parse)
  }

  const FullCatalog: seq<string> := ["auto", "claude-3-sonnet", "gpt-4", "gpt-3.5-turbo", "llama3:8b", "deepseek-coder:6.7b"]
  const ShortCatalog: seq<string> := ["auto", "claude-3-sonnet", "gpt-4"]

  /** `ModelsResponse { data: [Model { id }] }` */
  function DecodeModels(j: Json): Option<seq<string>> {
    DecodeField(j, "data", (m: Json) => GetStr(m, "id"))
  }

  /** The inherent `list_models`: the server's ids on success, the six-entry
      catalog on any other status. */
  function ListModels(reply: Result<Reply>, parse: Parser): (r: Result<seq<string>>)
    ensures reply.Err? ==> r == Err(reply.error)
    ensures reply.Ok? && !IsSuccess(reply.value.status) ==> r == Ok(FullCatalog) && |FullCatalog| == 6 && FullCatalog[0] == "auto"
    ensures reply.Ok? && IsSuccess(reply.value.status) ==>
      r == match (match parse(reply.value.body) case Some(j) => DecodeModels(j) case None => None)
           case Some(ids) => Ok(ids)
           case None => Err(DecodeError)
  {
    match reply
    case Err(e) => Err(e)
    case Ok(x) =>
      if IsSuccess(x.status) then
        match (match parse(x.body) case Some(j) => DecodeModels(j) case None => None)
        case Some(ids) => Ok(ids)
        case None => Err(DecodeError)
      else Ok(FullCatalog)
  }

  /** The `Provider` trait's `list_models`: errors fall back to the three-entry
      catalog. */
  function ProviderListModels(reply: Result<Reply>, parse: Parser): (r: seq<string>)
    ensures ListModels(reply, parse).Ok? ==> r == ListModels(reply, parse).value
    ensures ListModels(reply, parse).Err? ==> r == ShortCatalog && |r| == 3
  {
    match ListModels(reply, parse)
    case Ok(ids) => ids
    case Err(_) => ShortCatalog
  }

  /** What one event-stream line yields: the first choice's delta content of a
      `data: ` line whose payload is not `[DONE]` and parses. */
  function LineDelta(line: string, parse: Parser): Option<string> {
    if StartsWith(line, Streaming.DataPrefix) && line[|Streaming.DataPrefix|..] != Streaming.DoneMarker then
      match parse(line[|Streaming.DataPrefix|..])
      case Some(j) => (match DecodeStreamChunk(j) case Some(deltas) => FirstDelta(deltas) case None => None)
      case None => None
    else None
  }

  /** A `data: [DONE]` line, which ends the scan. */
  predicate IsDoneLine(line: string) {
    StartsWith(line, Streaming.DataPrefix) && line[|Streaming.DataPrefix|..] == Streaming.DoneMarker
  }

  /** The scan of a chunk's lines: the delta of the first line that has one, unless
      a `[DONE]` line comes first; `""` when there is none. */
  function ScanDeltas(lines: seq<string>, parse: Parser): (r: string)
    ensures forall i :: FirstHit(lines, i, l => LineDelta(l, parse), IsDoneLine) ==> r == LineDelta(lines[i], parse).value
    ensures r != "" ==> exists i :: FirstHit(lines, i, l => LineDelta(l, parse), IsDoneLine) && LineDelta(lines[i], parse) == Some(r)
  {
    Scan(lines, l => LineDelta(l, parse), IsDoneLine)
  }

  /** The stream's map over byte chunks: a transport error becomes "Stream error",
      a chunk becomes the scan of its lines. */
  function DecodeChunk(chunk: Result<string>, parse: Parser): (r: Result<string>)
    ensures chunk.Err? ==> r == Err("Stream error: " + chunk.error)
    ensures chunk.Ok? ==> r == Ok(ScanDeltas(Lines(chunk.value), parse))
  {
    match chunk
    case Err(e) => Err("Stream error: " + e)
    case Ok(text) => Ok(ScanDeltas(Lines(text), parse))
  }

  /** `chat_stream`: the streaming request is posted; past a successful status the
      stream is the chunks, each decoded on its own. */
  function ChatStream(p: GhostLLMProvider, message: string, reply: Result<Reply>, chunks: seq<Result<string>>, parse: Parser)
    : (r: (Post, Result<seq<Result<string>>>))
    ensures r.0 == ChatPostOf(p, ChatRequest("auto", [Message("user", message)], 2048, true))
    ensures reply.Err? ==> r.1 == Err(reply.error)
    ensures reply.Ok? && !IsSuccess(reply.value.status) ==> r.1 == Err("Failed to start stream")
    ensures reply.Ok? && IsSuccess(reply.value.status) ==>
      r.1.Ok? && |r.1.value| == |chunks| && forall i :: 0 <= i < |chunks| ==> r.1.value[i] == DecodeChunk(chunks[i], parse)
  {
    var post := ChatPostOf(p, ChatRequestOf(message, true));
    match reply
    case Err(e) => (post, Err(e))
    case Ok(x) =>
      if !IsSuccess(x.status) then (post, Err("Failed to start stream"))
      else (post, Ok(seq(|chunks|, i requires 0 <= i < |chunks| => DecodeChunk(chunks[i], parse))))
  }

  /** `health_check`: a transport error is reported as unhealthy, never as an error. */
  function HealthCheck(reply: Result<Reply>): (r: Result<bool>)
    ensures r.Ok?
    ensures r.value <==> reply.Ok? && IsSuccess(reply.value.status)
  {
    match reply
    case Ok(x) => Ok(IsSuccess(x.status))
    case Err(_) => Ok(false)
  }
}
