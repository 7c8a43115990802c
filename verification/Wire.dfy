/**
 The messages of the bridge as the Go client decodes them, field by field: what it reads is
 what the Ruby side meant.
 */
module Wire {
  import opened Basics
  import opened Json
  import opened Framing
  import opened Protocol
  import opened Bridge
  import opened Dispatcher
  import opened Mutations
  import BridgeClient

  // ---------- json.Unmarshal into a struct field; None is its error ----------

  function Text(fs: seq<Field>, key: string): Option<string> {
    match Get(fs, key)
    case Some(Str(s)) => Some(s)
    case Some(Null) => Some("")
    case None => Some("")
    case _ => None
  }

  function Number(fs: seq<Field>, key: string): Option<int> {
    match Get(fs, key)
    case Some(Int(i)) => Some(i)
    case Some(Null) => Some(0)
    case None => Some(0)
    case _ => None
  }

  function Flag(fs: seq<Field>, key: string): Option<bool> {
    match Get(fs, key)
    case Some(Bool(b)) => Some(b)
    case Some(Null) => Some(false)
    case None => Some(false)
    case _ => None
  }

  // ---------- responses ----------

  /** protocolError; raw details are kept as they are. */
  datatype Trouble = Trouble(code: string, message: string, details: Option<Json>)

  /** responseMessage; a raw payload is kept as it is. */
  datatype Message = Message(kind: string, version: int, id: string, ok: bool, payload: Option<Json>, error: Option<Trouble>)

  function ReadTrouble(fs: seq<Field>): Option<Trouble> {
    match (Text(fs, "code"), Text(fs, "message"))
    case (Some(code), Some(message)) => Some(Trouble(code, message, Get(fs, "details")))
    case _ => None
  }

  /** A pointer to a protocolError: nil when the key is missing or null. */
  function ReadError(fs: seq<Field>): Option<Option<Trouble>> {
    match Get(fs, "error")
    case None => Some(None)
    case Some(Null) => Some(None)
    case Some(Obj(e)) => (match ReadTrouble(e) case Some(t) => Some(Some(t)) case None => None)
    case _ => None
  }

  function ReadMessage(m: Json): Option<Message> {
    if !m.Obj? then None
    else
      var fs := m.fields;
      match (Text(fs, "type"), Number(fs, "protocol_version"), Text(fs, "id"), Flag(fs, "ok"), ReadError(fs))
      case (Some(kind), Some(version), Some(id), Some(ok), Some(error)) =>
        Some(Message(kind, version, id, ok, Get(fs, "payload"), error))
      case _ => None
  }

  /** Decoding the payload into what the caller asked for. */
  type Decoder = Json -> Option<BridgeClient.Info>

  function AsResponse(m: Message, decode: Decoder): BridgeClient.Response {
    BridgeClient.Response(m.kind, m.version, m.ok, m.error.Some?, m.payload.Some?,
                          if m.payload.Some? then decode(m.payload.value) else None)
  }

  /** What the caller of the client gets for a message that answers request `id`. */
  function Received(m: Json, id: string, decode: Decoder): BridgeClient.CallResult {
    match ReadMessage(m)
    case None => BridgeClient.Fault
    case Some(message) => BridgeClient.Interpret(AsResponse(message, decode), message.id == id)
  }

  lemma {:induction false} SuccessRead(id: string, payload: seq<Field>)
    ensures ReadMessage(SuccessResponse(id, payload)) == Some(Message("response", VERSION, id, true, Some(Obj(payload)), None))
  {
    var fs := SuccessResponse(id, payload).fields;
    GetFinds(fs, 0);
    GetFinds(fs, 1);
    GetFinds(fs, 2);
    GetFinds(fs, 3);
    GetFinds(fs, 4);
    GetSound(fs, "error");
  }

  lemma {:induction false} TroubleRead(code: string, message: string, details: seq<Field>)
    ensures var e := [Field("code", Str(code)), Field("message", Str(message))] +
                     if details == [] then [] else [Field("details", Obj(details))];
            ReadTrouble(e) == Some(Trouble(code, message, if details == [] then None else Some(Obj(details))))
  {
    var e := [Field("code", Str(code)), Field("message", Str(message))] +
             if details == [] then [] else [Field("details", Obj(details))];
    GetFinds(e, 0);
    GetFinds(e, 1);
    if details == [] { GetSound(e, "details"); } else { GetFinds(e, 2); }
  }

  lemma {:induction false} ErrorRead(id: string, code: string, message: string, details: seq<Field>)
    ensures ReadMessage(ErrorResponse(id, code, message, details)) ==
            Some(Message("response", VERSION, id, false, None,
                         Some(Trouble(code, message, if details == [] then None else Some(Obj(details))))))
  {
    var fs := ErrorResponse(id, code, message, details).fields;
    TroubleRead(code, message, details);
    GetFinds(fs, 0);
    GetFinds(fs, 1);
    GetFinds(fs, 2);
    GetFinds(fs, 3);
    GetFinds(fs, 4);
    GetSound(fs, "payload");
  }

  /** The reply of a command as the client decodes it. */
  function Meant(id: string, reply: Reply): Message {
    match reply
    case Success(payload) => Message("response", VERSION, id, true, Some(Obj(payload)), None)
    case Failure(code, message, details) =>
      Message("response", VERSION, id, false, None,
              Some(Trouble(code, message, if details == [] then None else Some(Obj(details)))))
  }

  /**
   The response sent for a command's reply, decoded: ok exactly for a success, with its payload
   and no error; otherwise its code, message and details, and no payload.
   */
  lemma {:induction false} ReplyRead(id: string, reply: Reply)
    ensures ReadMessage(ReplyResponse(id, reply)) == Some(Meant(id, reply))
    ensures var m := ReadMessage(ReplyResponse(id, reply)).value;
            && m.id == id && (m.ok <==> reply.Success?) && m.payload.Some? == reply.Success? && m.error.Some? == reply.Failure?
            && (reply.Success? ==> m.payload == Some(Obj(reply.payload)))
            && (reply.Failure? ==> m.error.value.code == reply.code && m.error.value.message == reply.message)
            && (reply.Failure? && reply.details != [] ==> m.error.value.details == Some(Obj(reply.details)))
  {
    match reply
    case Success(payload) => SuccessRead(id, payload);
    case Failure(code, message, details) => ErrorRead(id, code, message, details);
  }

  /** The caller gets an answer only for a success, and a refusal exactly for a failure; only undecodable payloads are a fault. */
  lemma {:induction false} ReplyReceived(id: string, reply: Reply, decode: Decoder)
    ensures var result := Received(ReplyResponse(id, reply), id, decode);
            && (result.Refusal? <==> reply.Failure?)
            && (result.Answer? <==> reply.Success? && decode(Obj(reply.payload)).Some?)
            && (result.Answer? ==> Some(result.info) == decode(Obj(reply.payload)))
  {
    ReplyRead(id, reply);
  }

  /** The two responses that are not the command's own, decoded. */
  lemma {:induction false} OwnErrorsRead(id: string)
    ensures ReadMessage(InternalError(id)) ==
            Some(Message("response", VERSION, id, false, None, Some(Trouble("INTERNAL", "command execution failed", None))))
    ensures ReadMessage(TimeoutResponse(id)) ==
            Some(Message("response", VERSION, id, false, None,
                         Some(Trouble("TIMEOUT", "request timed out before main-thread execution", None))))
  {
    ErrorRead(id, "INTERNAL", "command execution failed", []);
    ErrorRead(id, "TIMEOUT", "request timed out before main-thread execution", []);
  }

  // ---------- the handshake ----------

  /** helloResponse */
  function ReadHello(m: Json): Option<BridgeClient.Hello> {
    if !m.Obj? then None
    else
      var fs := m.fields;
      match (Text(fs, "type"), Number(fs, "protocol_version"), Text(fs, "session_id"), Text(fs, "server_nonce"),
             Number(fs, "max_message_bytes"))
      case (Some(kind), Some(version), Some(session), Some(nonce), Some(max)) =>
        Some(BridgeClient.Hello(kind, version, session, nonce, max))
      case _ => None
  }

  /** authenticateResponse */
  function ReadAuthentication(m: Json): Option<BridgeClient.Authentication> {
    if !m.Obj? then None
    else
      match (Text(m.fields, "type"), Number(m.fields, "protocol_version"), Flag(m.fields, "ok"), ReadError(m.fields))
      case (Some(kind), Some(version), Some(ok), Some(_)) => Some(BridgeClient.Authentication(kind, version, ok))
      case _ => None
  }

  lemma {:induction false} HelloRead(sessionId: string, nonce: string)
    ensures ReadHello(HelloResponse(sessionId, nonce)) ==
            Some(BridgeClient.Hello("hello", VERSION, sessionId, nonce, MAX_MESSAGE_BYTES))
  {
    var fs := HelloResponse(sessionId, nonce).fields;
    GetFinds(fs, 0);
    GetFinds(fs, 1);
    GetFinds(fs, 2);
    GetFinds(fs, 3);
    GetFinds(fs, 4);
  }

  /** The client accepts the bridge's hello exactly if it looked for the bridge's session. */
  lemma {:induction false} HelloAcceptedIff(d: BridgeClient.Descriptor, sessionId: string, nonce: string)
    requires IsUuid(nonce)
    ensures ReadHello(HelloResponse(sessionId, nonce)).Some?
    ensures BridgeClient.HelloAccepted(d, ReadHello(HelloResponse(sessionId, nonce)).value) <==> d.sessionId == sessionId
  {
    HelloRead(sessionId, nonce);
  }

  lemma {:induction false} AuthenticationRead(ok: bool)
    ensures ReadAuthentication(AuthenticateResponse(ok)) == Some(BridgeClient.Authentication("authenticate", VERSION, ok))
  {
    var fs := AuthenticateResponse(ok).fields;
    GetFinds(fs, 0);
    GetFinds(fs, 1);
    GetFinds(fs, 2);
    if ok {
      GetSound(fs, "error");
    } else {
      GetFinds(fs, 3);
      var e := [Field("code", Str("AUTH_FAILED")), Field("message", Str("authentication failed"))];
      assert e + [] == e;
      TroubleRead("AUTH_FAILED", "authentication failed", []);
    }
  }

  // ---------- what the client sends ----------

  /** helloRequest */
  function HelloMessage(nonce: string): Json {
    Obj([Field("type", Str("hello")), Field("protocol_version", Int(VERSION)), Field("client", Str("sketchup-mcp-go")),
         Field("client_nonce", Str(nonce))])
  }

  /** authenticateRequest */
  function AuthenticateMessage(token: string): Json {
    Obj([Field("type", Str("authenticate")), Field("protocol_version", Int(VERSION)), Field("token", Str(token))])
  }

  /** requestMessage */
  function RequestMessage(id: string, sessionId: string, operation: string, timeoutMs: int, payload: Json): Json {
    Obj([Field("type", Str("request")), Field("protocol_version", Int(VERSION)), Field("id", Str(id)),
         Field("session_id", Str(sessionId)), Field("operation", Str(operation)), Field("timeout_ms", Int(timeoutMs)),
         Field("payload", payload)])
  }

  lemma {:induction false} HelloKeys(nonce: string)
    ensures Keys(HelloMessage(nonce).fields) == {"type", "protocol_version", "client", "client_nonce"}
  {
    var fs := HelloMessage(nonce).fields;
    assert fs[0] in fs && fs[1] in fs && fs[2] in fs && fs[3] in fs;
  }

  lemma {:induction false} HelloGets(nonce: string)
    ensures var fs := HelloMessage(nonce).fields;
            && Get(fs, "type") == Some(Str("hello")) && Get(fs, "protocol_version") == Some(Int(VERSION))
            && Get(fs, "client") == Some(Str("sketchup-mcp-go")) && Get(fs, "client_nonce") == Some(Str(nonce))
  {
    var fs := HelloMessage(nonce).fields;
    GetFinds(fs, 0);
    GetFinds(fs, 1);
    GetFinds(fs, 2);
    GetFinds(fs, 3);
  }

  lemma {:induction false} HelloSent(nonce: string)
    requires IsUuid(nonce)
    ensures ValidHello(HelloMessage(nonce).fields)
  {
    HelloKeys(nonce);
    HelloGets(nonce);
    ClientNameFits();
  }

  lemma {:induction false} ClientNameFits()
    ensures 1 <= ByteSize("sketchup-mcp-go") <= 128
  {
    AsciiSize("sketchup-mcp-go");
  }

  lemma {:induction false} AsciiSize(s: string)
    requires forall i :: 0 <= i < |s| ==> s[i] as int < 0x80
    ensures ByteSize(s) == |s|
  {
    if s != [] { AsciiSize(s[1..]); }
  }

  lemma {:induction false} AuthenticateSent(token: string)
    requires 16 <= ByteSize(token) <= 512
    ensures ValidAuthenticate(AuthenticateMessage(token).fields) && Token(AuthenticateMessage(token).fields) == token
  {
    var fs := AuthenticateMessage(token).fields;
    GetFinds(fs, 0);
    GetFinds(fs, 1);
    GetFinds(fs, 2);
  }

  lemma {:induction false} RequestKeys(id: string, sessionId: string, operation: string, timeoutMs: int, payload: Json)
    ensures Keys(RequestMessage(id, sessionId, operation, timeoutMs, payload).fields) == REQUEST_KEYS
  {
    var fs := RequestMessage(id, sessionId, operation, timeoutMs, payload).fields;
    assert fs[0] in fs && fs[1] in fs && fs[2] in fs && fs[3] in fs && fs[4] in fs && fs[5] in fs && fs[6] in fs;
  }

  /** The fields of a well-formed request. */
  ghost predicate Asks(fs: seq<Field>, id: string, sessionId: string, operation: string, timeoutMs: int, payload: Json) {
    && Get(fs, "type") == Some(Str("request")) && Get(fs, "protocol_version") == Some(Int(VERSION))
    && Get(fs, "id") == Some(Str(id)) && Get(fs, "session_id") == Some(Str(sessionId))
    && Get(fs, "operation") == Some(Str(operation)) && Get(fs, "timeout_ms") == Some(Int(timeoutMs))
    && Get(fs, "payload") == Some(payload)
  }

  lemma {:induction false} RequestAsks(id: string, sessionId: string, operation: string, timeoutMs: int, payload: Json)
    ensures Asks(RequestMessage(id, sessionId, operation, timeoutMs, payload).fields,
                 id, sessionId, operation, timeoutMs, payload)
  {
    var fs := RequestMessage(id, sessionId, operation, timeoutMs, payload).fields;
    GetFinds(fs, 0);
    GetFinds(fs, 1);
    GetFinds(fs, 2);
    GetFinds(fs, 3);
    GetFinds(fs, 4);
    GetFinds(fs, 5);
    GetFinds(fs, 6);
  }

  lemma {:induction false} AskedIsAccepted(fs: seq<Field>, id: string, sessionId: string, operation: string, timeoutMs: int,
                                           payload: Json)
    requires Keys(fs) == REQUEST_KEYS && Asks(fs, id, sessionId, operation, timeoutMs, payload)
    requires IsUuid(id) && IsUuid(sessionId) && 1 <= ByteSize(operation) <= 128 && 100 <= timeoutMs <= 30_000 && payload.Obj?
    ensures ValidateRequest(fs) == Accepted(Request(id, sessionId, operation, timeoutMs, payload))
  {
    assert CandidateId(fs) == Some(id);
    assert UuidField(fs, "session_id") && Bounded(fs, "operation", 1, 128);
  }

  /** What the client asks is accepted as it was asked: id, session, operation, timeout and payload. */
  lemma {:induction false} RequestSent(id: string, sessionId: string, operation: string, timeoutMs: int, payload: Json)
    requires IsUuid(id) && IsUuid(sessionId) && 1 <= ByteSize(operation) <= 128 && 100 <= timeoutMs <= 30_000 && payload.Obj?
    ensures var fs := RequestMessage(id, sessionId, operation, timeoutMs, payload).fields;
            ValidateRequest(fs) == Accepted(Request(id, sessionId, operation, timeoutMs, payload))
  {
    RequestKeys(id, sessionId, operation, timeoutMs, payload);
    RequestAsks(id, sessionId, operation, timeoutMs, payload);
    AskedIsAccepted(RequestMessage(id, sessionId, operation, timeoutMs, payload).fields,
                    id, sessionId, operation, timeoutMs, payload);
  }

  // ---------- what the bridge accepts ----------

  /** Accepted requests are those of the schema, with the timeout moved into 100 to 30000 ms; nothing else is. */
  lemma {:induction false} AcceptedIff(fs: seq<Field>, r: Request)
    ensures ValidateRequest(fs) == Accepted(r) <==>
            && Keys(fs) == REQUEST_KEYS && IsUuid(r.id) && IsUuid(r.sessionId) && 1 <= ByteSize(r.operation) <= 128 && r.payload.Obj?
            && exists ms :: Asks(fs, r.id, r.sessionId, r.operation, ms, r.payload)
                            && r.timeoutMs == if ms < 100 then 100 else if ms > 30_000 then 30_000 else ms
  {
    if ValidateRequest(fs) == Accepted(r) {
      assert Asks(fs, r.id, r.sessionId, r.operation, Get(fs, "timeout_ms").value.i, r.payload);
    }
    if ms :| Asks(fs, r.id, r.sessionId, r.operation, ms, r.payload) {
      assert CandidateId(fs) == Some(r.id) || !IsUuid(r.id);
    }
  }

  /** What a refused request is told: another version is unsupported, anything else invalid; under its own id if it has one. */
  lemma {:induction false} RejectedAs(fs: seq<Field>)
    requires ValidateRequest(fs).Rejected?
    ensures var other := exists v :: v != VERSION && Get(fs, "protocol_version") == Some(Int(v));
            var told := ValidateRequest(fs);
            && told.code == (if Keys(fs) == REQUEST_KEYS && Get(fs, "type") == Some(Str("request")) && other
                             then "UNSUPPORTED_PROTOCOL" else "INVALID_REQUEST")
            && (told.requestId.Some? <==> exists id :: IsUuid(id) && Get(fs, "id") == Some(Str(id)))
            && (told.requestId.Some? ==> Get(fs, "id") == Some(Str(told.requestId.value)))
  {
    if Get(fs, "protocol_version").Some? && Get(fs, "protocol_version").value.Int? {
      var v := Get(fs, "protocol_version").value.i;
      assert Get(fs, "protocol_version") == Some(Int(v));
    }
    if Get(fs, "id").Some? && Get(fs, "id").value.Str? {
      var id := Get(fs, "id").value.s;
      assert Get(fs, "id") == Some(Str(id));
    }
  }
}
