/** `src/websocket.rs`: the messages exchanged with the Zeke command-line server
    (a `type`-tagged `StreamMessage` union and JSON-RPC 2.0 envelopes, sections 4
    and 5 of the JSON-RPC 2.0 specification), and the client that queues outbound
    frames and dispatches inbound ones to its handlers.

    Frames carry JSON values; the socket, the two pump tasks and the request-id
    generator are outside the model (ids are parameters). Handlers are known by
    an id, and what they receive is recorded in `delivered`. */
module WebSocket {
  import opened Common
  import opened Json
  import Http

  datatype FileChange = FileChange(filePath: string, content: string, changeType: string)

  datatype ActionRequest = ActionRequest(id: string, actionType: string, description: string,
                                         filePath: Option<string>, changes: Option<seq<FileChange>>)

  datatype StreamMessage =
    | ChatDelta(content: string)
    | Error(message: string)
    | StreamStart(sessionId: string)
    | StreamEnd(reason: string)
    | Ping
    | Pong
    | ActionRequestMsg(action: ActionRequest)
    | ActionResponse(approved: bool, session: bool)

  datatype JsonRpcRequest = JsonRpcRequest(jsonrpc: string, rpcMethod: string, params: Json, id: string)

  datatype JsonRpcError = JsonRpcError(code: int, message: string, data: Option<Json>)

  datatype JsonRpcResponse = JsonRpcResponse(jsonrpc: string, result: Option<Json>,
                                             error: Option<JsonRpcError>, id: string)

  const JsonRpcVersion: string := "2.0"

  // Encoding, as serde's derived `Serialize` writes each type.

  function EncodeChange(c: FileChange): Json {
    Obj(map["file_path" := Str(c.filePath), "content" := Str(c.content), "change_type" := Str(c.changeType)])
  }

  function EncodeChanges(cs: seq<FileChange>): (js: seq<Json>)
    ensures |js| == |cs|
    ensures forall i :: 0 <= i < |cs| ==> js[i] == EncodeChange(cs[i])
  {
    Http.EncodeEach(cs, EncodeChange)
  }

  function EncodeAction(a: ActionRequest): Json {
    Obj(map["id" := Str(a.id), "action_type" := Str(a.actionType), "description" := Str(a.description),
            "file_path" := OptStr(a.filePath),
            "changes" := match a.changes case Some(cs) => Arr(EncodeChanges(cs)) case None => Null])
  }

  function Tagged(tag: string, fields: map<string, Json>): Json {
    Obj(fields["type" := Str(tag)])
  }

  /** `#[serde(tag = "type")]`: the variant name under `type`, beside the fields. */
  function Encode(m: StreamMessage): Json {
    match m
    case ChatDelta(content) => Tagged("ChatDelta", map["content" := Str(content)])
    case Error(message) => Tagged("Error", map["message" := Str(message)])
    case StreamStart(sessionId) => Tagged("StreamStart", map["session_id" := Str(sessionId)])
    case StreamEnd(reason) => Tagged("StreamEnd", map["reason" := Str(reason)])
    case Ping => Tagged("Ping", map[])
    case Pong => Tagged("Pong", map[])
    case ActionRequestMsg(action) => Tagged("ActionRequest", map["action" := EncodeAction(action)])
    case ActionResponse(approved, session) => Tagged("ActionResponse", map["approved" := Bool(approved), "session" := Bool(session)])
  }

  function EncodeRequest(r: JsonRpcRequest): Json {
    Obj(map["jsonrpc" := Str(r.jsonrpc), "method" := Str(r.rpcMethod), "params" := r.params, "id" := Str(r.id)])
  }

  function EncodeError(e: JsonRpcError): Json {
    Obj(map["code" := Num(e.code), "message" := Str(e.message), "data" := OptValue(e.data)])
  }

  function EncodeResponse(r: JsonRpcResponse): Json {
    Obj(map["jsonrpc" := Str(r.jsonrpc), "result" := OptValue(r.result),
            "error" := (match r.error case Some(e) => EncodeError(e) case None => Null), "id" := Str(r.id)])
  }

  // Decoding, as serde's derived `Deserialize` reads each type: missing required
  // fields and fields of the wrong type fail, unknown fields are ignored, and an
  // `Option` field may be absent or `null`.

  function DecodeChange(j: Json): Option<FileChange> {
    match (GetStr(j, "file_path"), GetStr(j, "content"), GetStr(j, "change_type"))
    case (Some(p), Some(c), Some(t)) => Some(FileChange(p, c, t))
    case _ => None
  }

  /** A `Vec<FileChange>`: every element must decode. */
  function DecodeChanges(js: seq<Json>): (r: Option<seq<FileChange>>)
    ensures r.Some? <==> forall i :: 0 <= i < |js| ==> DecodeChange(js[i]).Some?
    ensures r.Some? ==> |r.value| == |js| && forall i :: 0 <= i < |js| ==> DecodeChange(js[i]) == Some(r.value[i])
  {
    Http.DecodeEach(js, DecodeChange)
  }

  function DecodeAction(j: Json): Option<ActionRequest> {
    var changes: Option<Option<seq<FileChange>>> :=
      match GetOptional(j, "changes")
      case None => Some(None)
      case Some(Arr(items)) => (match DecodeChanges(items) case Some(cs) => Some(Some(cs)) case None => None)
      case Some(_) => None;
    match (GetStr(j, "id"), GetStr(j, "action_type"), GetStr(j, "description"), GetOptStr(j, "file_path"), changes)
    case (Some(id), Some(t), Some(d), Some(p), Some(c)) => Some(ActionRequest(id, t, d, p, c))
    case _ => None
  }

  function Decode(j: Json): Option<StreamMessage> {
    match GetStr(j, "type")
    case Some("ChatDelta") => (match GetStr(j, "content") case Some(s) => Some(ChatDelta(s)) case None => None)
    case Some("Error") => (match GetStr(j, "message") case Some(s) => Some(Error(s)) case None => None)
    case Some("StreamStart") => (match GetStr(j, "session_id") case Some(s) => Some(StreamStart(s)) case None => None)
    case Some("StreamEnd") => (match GetStr(j, "reason") case Some(s) => Some(StreamEnd(s)) case None => None)
    case Some("Ping") => Some(Ping)
    case Some("Pong") => Some(Pong)
    case Some("ActionRequest") =>
      (match Get(j, "action") case Some(a) => (match DecodeAction(a) case Some(x) => Some(ActionRequestMsg(x)) case None => None)
                              case None => None)
    case Some("ActionResponse") =>
      (match (GetBool(j, "approved"), GetBool(j, "session"))
       case (Some(a), Some(s)) => Some(ActionResponse(a, s))
       case _ => None)
    case _ => None
  }

  function DecodeRequest(j: Json): Option<JsonRpcRequest> {
    match (GetStr(j, "jsonrpc"), GetStr(j, "method"), Get(j, "params"), GetStr(j, "id"))
    case (Some(v), Some(m), Some(p), Some(id)) => Some(JsonRpcRequest(v, m, p, id))
    case _ => None
  }

  /** An `i32` field. */
  predicate IsI32(n: int) {
    -0x8000_0000 <= n < 0x8000_0000
  }

  function DecodeError(j: Json): Option<JsonRpcError> {
    match (Get(j, "code"), GetStr(j, "message"))
    case (Some(Num(c)), Some(m)) => if IsI32(c) then Some(JsonRpcError(c, m, GetOptional(j, "data"))) else None
    case _ => None
  }

  function DecodeResponse(j: Json): Option<JsonRpcResponse> {
    var error: Option<Option<JsonRpcError>> :=
      match GetOptional(j, "error")
      case None => Some(None)
      case Some(e) => (match DecodeError(e) case Some(x) => Some(Some(x)) case None => None);
    match (GetStr(j, "jsonrpc"), GetStr(j, "id"), error)
    case (Some(v), Some(id), Some(e)) => Some(JsonRpcResponse(v, GetOptional(j, "result"), e, id))
    case _ => None
  }

  // Round trips.

  lemma ChangeRoundTrip(c: FileChange)
    ensures DecodeChange(EncodeChange(c)) == Some(c)
  {
    var j := EncodeChange(c);
    assert GetStr(j, "file_path") == Some(c.filePath) && GetStr(j, "content") == Some(c.content);
    assert GetStr(j, "change_type") == Some(c.changeType);
  }

  lemma ChangesRoundTrip(cs: seq<FileChange>)
    ensures DecodeChanges(EncodeChanges(cs)) == Some(cs)
  {
    forall i | 0 <= i < |cs|
      ensures DecodeChange(EncodeChange(cs[i])) == Some(cs[i])
    {
      ChangeRoundTrip(cs[i]);
    }
    Http.EachRoundTrip(cs, DecodeChange, EncodeChange);
  }

  lemma ActionRoundTrip(a: ActionRequest)
    ensures DecodeAction(EncodeAction(a)) == Some(a)
  {
    var j := EncodeAction(a);
    assert GetStr(j, "id") == Some(a.id) && GetStr(j, "action_type") == Some(a.actionType);
    assert GetStr(j, "description") == Some(a.description) && GetOptStr(j, "file_path") == Some(a.filePath);
    if a.changes.Some? {
      ChangesRoundTrip(a.changes.value);
      assert GetOptional(j, "changes") == Some(Arr(EncodeChanges(a.changes.value)));
    } else {
      assert GetOptional(j, "changes") == None;
    }
  }

  /** Every `StreamMessage` reads back from its encoding. */
  lemma StreamMessageRoundTrip(m: StreamMessage)
    ensures Decode(Encode(m)) == Some(m)
  {
    match m
    case ChatDelta(_) => TextVariantRoundTrip(m);
    case Error(_) => TextVariantRoundTrip(m);
    case StreamStart(_) => TextVariantRoundTrip(m);
    case StreamEnd(_) => TextVariantRoundTrip(m);
    case Ping => FieldlessVariantRoundTrip(m);
    case Pong => FieldlessVariantRoundTrip(m);
    case ActionRequestMsg(_) => ActionVariantRoundTrip(m);
    case ActionResponse(_, _) => ActionVariantRoundTrip(m);
  }

  /** The action request and its response. */
  lemma ActionVariantRoundTrip(m: StreamMessage)
    requires m.ActionRequestMsg? || m.ActionResponse?
    ensures Decode(Encode(m)) == Some(m)
  {
    if m.ActionRequestMsg? {
      ActionRequestMsgRoundTrip(m.action);
    } else {
      assert GetStr(Encode(m), "type") == Some("ActionResponse");
    }
  }

  lemma ActionRequestMsgRoundTrip(a: ActionRequest)
    ensures Decode(Encode(ActionRequestMsg(a))) == Some(ActionRequestMsg(a))
  {
    var j := Encode(ActionRequestMsg(a));
    assert GetStr(j, "type") == Some("ActionRequest");
    assert Get(j, "action") == Some(EncodeAction(a));
    ActionRoundTrip(a);
  }

  /** The variants with one text field. */
  lemma TextVariantRoundTrip(m: StreamMessage)
    requires m.ChatDelta? || m.Error? || m.StreamStart? || m.StreamEnd?
    ensures Decode(Encode(m)) == Some(m)
  {
    match m
    case ChatDelta(_) => assert GetStr(Encode(m), "type") == Some("ChatDelta");
    case Error(_) => assert GetStr(Encode(m), "type") == Some("Error");
    case StreamStart(_) => assert GetStr(Encode(m), "type") == Some("StreamStart");
    case StreamEnd(_) => assert GetStr(Encode(m), "type") == Some("StreamEnd");
  }

  /** The variants without fields. */
  lemma FieldlessVariantRoundTrip(m: StreamMessage)
    requires m.Ping? || m.Pong?
    ensures Decode(Encode(m)) == Some(m)
  {
    if m.Ping? {
      assert GetStr(Encode(m), "type") == Some("Ping");
    } else {
      assert GetStr(Encode(m), "type") == Some("Pong");
    }
  }

  lemma RequestRoundTrip(r: JsonRpcRequest)
    ensures DecodeRequest(EncodeRequest(r)) == Some(r)
  {
  }

  /** A response reads back from its encoding, unless an optional member holds
      `null`: `Some(null)` is written as `null` and read back as `None`. */
  lemma ResponseRoundTrip(r: JsonRpcResponse)
    requires r.result != Some(Null)
    requires r.error.Some? ==> IsI32(r.error.value.code) && r.error.value.data != Some(Null)
    ensures DecodeResponse(EncodeResponse(r)) == Some(r)
  {
  }

  lemma ResponseNullResultIsLost(jsonrpc: string, id: string)
    ensures DecodeResponse(EncodeResponse(JsonRpcResponse(jsonrpc, Some(Null), None, id)))
            == Some(JsonRpcResponse(jsonrpc, None, None, id))
  {
  }

  // The client.

  datatype ZekeSession = ZekeSession(port: nat, authToken: string, sessionId: string)

  /** A frame the client writes. */
  datatype Outbound = TextOut(json: Json) | PongOut(payload: seq<bv8>)

  /** A frame (or a read error) the receiver task gets; a text frame that is not
      JSON carries `None`. */
  datatype Inbound =
    | TextIn(json: Option<Json>)
    | BinaryIn(data: seq<bv8>)
    | PingIn(payload: seq<bv8>)
    | PongIn(payload: seq<bv8>)
    | CloseIn
    | RawFrameIn
    | ReadError(message: string)

  const NotConnected: string := "WebSocket not connected"

  /** The `{"type": "auth", "token": ...}` frame `connect` writes first. */
  function AuthMessage(token: string): Json {
    Obj(map["type" := Str("auth"), "token" := Str(token)])
  }

  /** The params of `send_chat_request`. */
  function ChatParams(content: string, context: Option<Json>): Json {
    Obj(map["messages" := Arr([Obj(map["role" := Str("user"), "content" := Str(content)])]),
            "context" := OptValue(context), "stream" := Bool(true)])
  }

  /** The frame of `send_action_approval`. */
  function ApprovalMessage(actionId: string, approved: bool, session: bool): Json {
    Obj(map["id" := Str(actionId), "response" := Encode(ActionResponse(approved, session))])
  }

  /** Whether an inbound item ends the receive loop. */
  predicate Stops(frame: Inbound) {
    frame.CloseIn? || frame.ReadError?
  }

  /** The items the receive loop consumes: up to and including the first Close
      or error. */
  function Consumed(frames: seq<Inbound>): (c: seq<Inbound>)
    ensures |c| <= |frames| && c == frames[..|c|]
    ensures forall i :: 0 <= i < |c| - 1 ==> !Stops(c[i])
    ensures |c| < |frames| ==> |c| > 0 && Stops(c[|c| - 1])
  {
    if frames == [] then []
    else if Stops(frames[0]) then [frames[0]]
    else [frames[0]] + Consumed(frames[1..])
  }

  lemma AllStep(handlers: seq<nat>, frames: seq<Inbound>, i: nat)
    requires i < |frames|
    ensures AllDeliveries(handlers, frames[..i + 1]) == AllDeliveries(handlers, frames[..i]) + Deliveries(handlers, frames[i])
    ensures AllReplies(frames[..i + 1]) == AllReplies(frames[..i]) + Replies(frames[i])
  {
    assert frames[..i + 1][..i] == frames[..i];
  }

  /** The loop that stops at `n` consumed exactly the first `n` items. */
  lemma {:induction false} ConsumedIsPrefix(frames: seq<Inbound>, n: nat)
    requires n <= |frames|
    requires forall k :: 0 <= k < n - 1 ==> !Stops(frames[k])
    requires n == |frames| || (n > 0 && Stops(frames[n - 1]))
    ensures Consumed(frames) == frames[..n]
  {
    if n > 0 {
      if Stops(frames[0]) {
        assert n == 1;
      } else {
        ConsumedIsPrefix(frames[1..], n - 1);
        assert frames[..n] == [frames[0]] + frames[1..][..n - 1];
      }
    }
  }

  /** What the handlers receive from one item: a parsed message goes to every
      handler, in registration order. */
  function Deliveries(handlers: seq<nat>, frame: Inbound): seq<(nat, StreamMessage)> {
    match frame
    case TextIn(Some(j)) =>
      (match Decode(j)
       case Some(m) => Broadcast(handlers, m)
       case None => [])
    case _ => []
  }

  /** One call of each handler, in registration order. */
  function Broadcast(handlers: seq<nat>, m: StreamMessage): seq<(nat, StreamMessage)> {
    if handlers == [] then [] else Broadcast(handlers[..|handlers| - 1], m) + [(handlers[|handlers| - 1], m)]
  }

  /** The i-th call goes to the i-th handler, and there is one per handler. */
  lemma {:induction false} BroadcastCallsEach(handlers: seq<nat>, m: StreamMessage)
    ensures |Broadcast(handlers, m)| == |handlers|
    ensures forall i :: 0 <= i < |handlers| ==> Broadcast(handlers, m)[i] == (handlers[i], m)
  {
    if handlers != [] {
      BroadcastCallsEach(handlers[..|handlers| - 1], m);
    }
  }

  /** What one item adds to the outbound queue: a Pong answering a Ping. */
  function Replies(frame: Inbound): seq<Outbound> {
    if frame.PingIn? then [PongOut(frame.payload)] else []
  }

  function AllDeliveries(handlers: seq<nat>, frames: seq<Inbound>): seq<(nat, StreamMessage)> {
    if frames == [] then []
    else AllDeliveries(handlers, frames[..|frames| - 1]) + Deliveries(handlers, frames[|frames| - 1])
  }

  function AllReplies(frames: seq<Inbound>): seq<Outbound> {
    if frames == [] then [] else AllReplies(frames[..|frames| - 1]) + Replies(frames[|frames| - 1])
  }

  /** A message that parses reaches every handler, and nothing reaches a handler
      from a frame that does not parse. */
  lemma DeliveryReachesEveryHandler(handlers: seq<nat>, j: Json)
    ensures Decode(j).Some? ==>
      |Deliveries(handlers, TextIn(Some(j)))| == |handlers|
      && forall i :: 0 <= i < |handlers| ==> Deliveries(handlers, TextIn(Some(j)))[i] == (handlers[i], Decode(j).value)
    ensures Decode(j).None? ==> Deliveries(handlers, TextIn(Some(j))) == []
    ensures Deliveries(handlers, TextIn(None)) == []
  {
    if Decode(j).Some? {
      BroadcastCallsEach(handlers, Decode(j).value);
    }
  }

  class WebSocketClient {
    var session: Option<ZekeSession>
    /** The outbound channel: the frames queued for the writer task. */
    var sender: Option<seq<Outbound>>
    var handlers: seq<nat>
    /** Every handler call so far, in order. */
    var delivered: seq<(nat, StreamMessage)>

    /** `new`: not connected, no session. */
    constructor ()
      ensures session == None && sender == None && handlers == [] && delivered == []
      ensures !IsConnected()
    {
      session := None;
      sender := None;
      handlers := [];
      delivered := [];
    }

    /** `is_connected` */
    predicate IsConnected()
      reads this
      ensures IsConnected() ==> session.Some?
    {
      session.Some? && sender.Some?
    }

    /** `get_session` */
    function GetSession(): (s: Option<ZekeSession>)
      reads this
      ensures s.None? ==> !IsConnected()
    {
      session
    }

    /** `connect`: `transport` is the outcome of opening the socket and `auth` that
        of writing the authentication frame; the frames written directly on the
        socket are returned. Only when both succeed does the client take the
        session and a new, empty outbound channel. */
    method Connect(s: ZekeSession, transport: Outcome, auth: Outcome) returns (r: Outcome, written: seq<Json>)
      modifies this
      ensures handlers == old(handlers) && delivered == old(delivered)
      ensures transport.Err? ==> r == transport && written == [] && session == old(session) && sender == old(sender)
      ensures transport.Ok? ==> written == [AuthMessage(s.authToken)]
      ensures transport.Ok? && auth.Err? ==> r == auth && session == old(session) && sender == old(sender)
      ensures transport.Ok? && auth.Ok? ==> r == Done && session == Some(s) && sender == Some([]) && IsConnected()
    {
      if transport.Err? {
        return transport, [];
      }
      written := [AuthMessage(s.authToken)];
      if auth.Err? {
        return auth, written;
      }
      session := Some(s);
      sender := Some([]);
      r := Done;
    }

    /** `send_message`: queues the frame when there is a channel, and fails without
        queueing anything otherwise. */
    method SendMessage(m: Outbound) returns (r: Outcome)
      modifies this
      ensures session == old(session) && handlers == old(handlers) && delivered == old(delivered)
      ensures old(sender).None? ==> r == Err(NotConnected) && sender == None
      ensures old(sender).Some? ==> r == Done && sender == Some(old(sender).value + [m])
    {
      if sender.Some? {
        sender := Some(sender.value + [m]);
        r := Done;
      } else {
        r := Err(NotConnected);
      }
    }

    method SendRequest(request: JsonRpcRequest) returns (r: Outcome)
      modifies this
      ensures session == old(session) && handlers == old(handlers) && delivered == old(delivered)
      ensures old(sender).None? ==> r == Err(NotConnected) && sender == None
      ensures old(sender).Some? ==> r == Done && sender == Some(old(sender).value + [TextOut(EncodeRequest(request))])
    {
      r := SendMessage(TextOut(EncodeRequest(request)));
    }

    /** `send_chat_request`: one `chat_completion` request whose params hold a
        single user message with the content, the context and `stream: true`. */
    method SendChatRequest(content: string, context: Option<Json>, id: string) returns (r: Outcome)
      modifies this
      ensures session == old(session) && handlers == old(handlers) && delivered == old(delivered)
      ensures old(sender).None? ==> r == Err(NotConnected) && sender == None
      ensures old(sender).Some? ==> r == Done && sender == Some(old(sender).value
        + [TextOut(EncodeRequest(JsonRpcRequest(JsonRpcVersion, "chat_completion", ChatParams(content, context), id)))])
    {
      var request := JsonRpcRequest(JsonRpcVersion, "chat_completion", ChatParams(content, context), id);
      r := SendRequest(request);
    }

    /** `send_action_approval`: one `{id, response}` frame whose response is the
        encoded `ActionResponse`. */
    method SendActionApproval(actionId: string, approved: bool, session_: bool) returns (r: Outcome)
      modifies this
      ensures session == old(session) && handlers == old(handlers) && delivered == old(delivered)
      ensures old(sender).None? ==> r == Err(NotConnected) && sender == None
      ensures old(sender).Some? ==> r == Done && sender == Some(old(sender).value + [TextOut(ApprovalMessage(actionId, approved, session_))])
    {
      r := SendMessage(TextOut(ApprovalMessage(actionId, approved, session_)));
    }

    /** `send_provider_switch`: one `switch_provider` request naming the provider. */
    method SendProviderSwitch(provider: string, id: string) returns (r: Outcome)
      modifies this
      ensures session == old(session) && handlers == old(handlers) && delivered == old(delivered)
      ensures old(sender).None? ==> r == Err(NotConnected) && sender == None
      ensures old(sender).Some? ==> r == Done && sender == Some(old(sender).value
        + [TextOut(EncodeRequest(JsonRpcRequest(JsonRpcVersion, "switch_provider", Obj(map["provider" := Str(provider)]), id)))])
    {
      var request := JsonRpcRequest(JsonRpcVersion, "switch_provider", Obj(map["provider" := Str(provider)]), id);
      r := SendRequest(request);
    }

    /** `send_context_update`: one `update_context` request whose params are the
        context itself. */
    method SendContextUpdate(context: Json, id: string) returns (r: Outcome)
      modifies this
      ensures session == old(session) && handlers == old(handlers) && delivered == old(delivered)
      ensures old(sender).None? ==> r == Err(NotConnected) && sender == None
      ensures old(sender).Some? ==> r == Done && sender == Some(old(sender).value
        + [TextOut(EncodeRequest(JsonRpcRequest(JsonRpcVersion, "update_context", context, id)))])
    {
      var request := JsonRpcRequest(JsonRpcVersion, "update_context", context, id);
      r := SendRequest(request);
    }

    /** `add_message_handler`: the handler goes last. */
    method AddMessageHandler(handler: nat)
      modifies this
      ensures handlers == old(handlers) + [handler]
      ensures session == old(session) && sender == old(sender) && delivered == old(delivered)
    {
      handlers := handlers + [handler];
    }

    /** One iteration of the receiver task: a text frame that parses as a
        `StreamMessage` is handed to every handler in order, a Ping is answered by
        a Pong with the same payload, and Close or a read error ends the loop. */
    method ReceiveStep(frame: Inbound) returns (stop: bool)
      requires sender.Some?
      modifies this
      ensures stop <==> Stops(frame)
      ensures session == old(session) && handlers == old(handlers)
      ensures delivered == old(delivered) + Deliveries(handlers, frame)
      ensures sender == Some(old(sender).value + Replies(frame))
    {
      stop := false;
      if frame.TextIn? {
        if frame.json.Some? {
          var parsed := Decode(frame.json.value);
          if parsed.Some? {
            Dispatch(parsed.value);
          }
        }
      } else if frame.PingIn? {
        sender := Some(sender.value + [PongOut(frame.payload)]);
      } else if frame.CloseIn? || frame.ReadError? {
        stop := true;
      }
      assert !frame.PingIn? ==> old(sender).value + Replies(frame) == old(sender).value;
    }

    /** Calls every handler with the message, in registration order. */
    method Dispatch(m: StreamMessage)
      modifies this
      ensures session == old(session) && sender == old(sender) && handlers == old(handlers)
      ensures delivered == old(delivered) + Broadcast(handlers, m)
    {
      var i := 0;
      while i < |handlers|
        invariant 0 <= i <= |handlers|
        invariant session == old(session) && sender == old(sender) && handlers == old(handlers)
        invariant delivered == old(delivered) + Broadcast(handlers[..i], m)
      {
        assert handlers[..i + 1][..i] == handlers[..i];
        delivered := delivered + [(handlers[i], m)];
        i := i + 1;
      }
      assert handlers[..i] == handlers;
    }

    /** The receiver task over a sequence of inbound items: it stops after the
        first Close or error, and has then delivered and answered exactly the
        items before it. */
    method ReceiveLoop(frames: seq<Inbound>)
      requires sender.Some?
      modifies this
      ensures session == old(session) && handlers == old(handlers)
      ensures delivered == old(delivered) + AllDeliveries(handlers, Consumed(frames))
      ensures sender == Some(old(sender).value + AllReplies(Consumed(frames)))
    {
      var i := 0;
      var stop := false;
      assert frames[..0] == [] && old(sender).value + [] == old(sender).value && delivered + [] == delivered;
      while i < |frames| && !stop
        invariant 0 <= i <= |frames| && sender.Some? && session == old(session) && handlers == old(handlers)
        invariant stop <==> i > 0 && Stops(frames[i - 1])
        invariant forall k :: 0 <= k < i - 1 ==> !Stops(frames[k])
        invariant delivered == old(delivered) + AllDeliveries(handlers, frames[..i])
        invariant sender.value == old(sender).value + AllReplies(frames[..i])
      {
        stop := ReceiveStep(frames[i]);
        AllStep(handlers, frames, i);
        AppendAssoc(old(sender).value, AllReplies(frames[..i]), Replies(frames[i]));
        AppendAssoc(old(delivered), AllDeliveries(handlers, frames[..i]), Deliveries(handlers, frames[i]));
        i := i + 1;
      }
      ConsumedIsPrefix(frames, i);
    }
  }
}
