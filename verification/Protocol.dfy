/** Message schemas of the bridge protocol and the response builders. */
module Protocol {
  import opened Basics
  import opened Json
  import opened Framing
  import Mutations

  const VERSION := 1
  const MAX_OUTSTANDING_REQUESTS := 32
  const MIN_TIMEOUT_MS := 100
  const MAX_TIMEOUT_MS := 30_000

  /** JSON text and UTF-8 are parameters: any generator and parser. */
  datatype Codec = Codec(generate: Json -> Bytes, parse: Bytes -> Option<Json>, utf8: string -> seq<bv8>)

  /**
   What is assumed of them where it is needed: UTF-8 is injective, and the short error
   response sent when a command raises fits into a frame.
   */
  ghost predicate Adequate(codec: Codec) {
    && (forall s, t :: codec.utf8(s) == codec.utf8(t) ==> s == t)
    && (forall id: string :: IsUuid(id) ==> Fits(codec.generate(InternalError(id))))
  }

  /** encode_frame: None stands for the FrameError. */
  function EncodeFrame(codec: Codec, m: Json): Option<Bytes> {
    var payload := codec.generate(m);
    if Fits(payload) then Some(Frame(payload)) else None
  }

  /** decode_payload: only objects are messages. */
  function Decode(codec: Codec, payload: Bytes): Option<seq<Field>> {
    match codec.parse(payload)
    case Some(Obj(fields)) => Some(fields)
    case _ => None
  }

  // ---------- field tests ----------

  predicate HexDigit(c: char) {
    '0' <= c <= '9' || 'a' <= c <= 'f' || 'A' <= c <= 'F'
  }

  predicate IsUuid(s: string) {
    && |s| == 36
    && forall i :: 0 <= i < 36 ==> if i in {8, 13, 18, 23} then s[i] == '-' else HexDigit(s[i])
  }

  predicate IsString(fs: seq<Field>, key: string, value: string) {
    Get(fs, key) == Some(Str(value))
  }

  predicate Bounded(fs: seq<Field>, key: string, min: nat, max: nat) {
    match Get(fs, key)
    case Some(Str(s)) => min <= Mutations.ByteSize(s) <= max
    case _ => false
  }

  predicate UuidField(fs: seq<Field>, key: string) {
    match Get(fs, key)
    case Some(Str(s)) => IsUuid(s)
    case _ => false
  }

  // ---------- validators ----------

  predicate ValidHello(fs: seq<Field>) {
    && Keys(fs) == {"type", "protocol_version", "client", "client_nonce"}
    && IsString(fs, "type", "hello")
    && Get(fs, "protocol_version") == Some(Int(VERSION))
    && Bounded(fs, "client", 1, 128)
    && UuidField(fs, "client_nonce")
  }

  predicate ValidAuthenticate(fs: seq<Field>) {
    && Keys(fs) == {"type", "protocol_version", "token"}
    && IsString(fs, "type", "authenticate")
    && Get(fs, "protocol_version") == Some(Int(VERSION))
    && Bounded(fs, "token", 16, 512)
  }

  function Token(fs: seq<Field>): string {
    match Get(fs, "token")
    case Some(Str(s)) => s
    case _ => ""
  }

  datatype Request = Request(id: string, sessionId: string, operation: string, timeoutMs: int, payload: Json)

  datatype Validation =
    | Accepted(request: Request)
    | Rejected(requestId: Option<string>, code: string, message: string)

  const REQUEST_KEYS := {"type", "protocol_version", "id", "session_id", "operation", "timeout_ms", "payload"}

  /** candidate_request_id */
  function CandidateId(fs: seq<Field>): Option<string> {
    match Get(fs, "id")
    case Some(Str(s)) => if IsUuid(s) then Some(s) else None
    case _ => None
  }

  function Clamp(timeoutMs: int): int {
    if timeoutMs < MIN_TIMEOUT_MS then MIN_TIMEOUT_MS
    else if timeoutMs > MAX_TIMEOUT_MS then MAX_TIMEOUT_MS
    else timeoutMs
  }

  function ValidateRequest(fs: seq<Field>): Validation {
    var id := CandidateId(fs);
    if Keys(fs) != REQUEST_KEYS then Rejected(id, "INVALID_REQUEST", "message fields do not match protocol schema")
    else if !IsString(fs, "type", "request") then Rejected(id, "INVALID_REQUEST", "expected request message")
    else if !(Get(fs, "protocol_version").Some? && Get(fs, "protocol_version").value.Int?) then
      Rejected(id, "INVALID_REQUEST", "protocol_version has invalid type")
    else if Get(fs, "protocol_version") != Some(Int(VERSION)) then
      Rejected(id, "UNSUPPORTED_PROTOCOL", "unsupported protocol version")
    else if id.None? then Rejected(None, "INVALID_REQUEST", "id must be a UUID")
    else if !UuidField(fs, "session_id") then Rejected(id, "INVALID_REQUEST", "session_id must be a UUID")
    else if !Bounded(fs, "operation", 1, 128) then Rejected(id, "INVALID_REQUEST", "operation has invalid length")
    else
      match (Get(fs, "timeout_ms"), Get(fs, "payload"))
      case (Some(Int(ms)), Some(Obj(fields))) =>
        Accepted(Request(id.value, Get(fs, "session_id").value.s, Get(fs, "operation").value.s, Clamp(ms), Obj(fields)))
      case (Some(Int(_)), _) => Rejected(id, "INVALID_REQUEST", "payload has invalid type")
      case _ => Rejected(id, "INVALID_REQUEST", "timeout_ms has invalid type")
  }

  // ---------- responses ----------

  function SuccessResponse(id: string, payload: seq<Field>): Json {
    Obj([Field("type", Str("response")), Field("protocol_version", Int(VERSION)), Field("id", Str(id)),
         Field("ok", Bool(true)), Field("payload", Obj(payload))])
  }

  function ErrorResponse(id: string, code: string, message: string, details: seq<Field>): Json {
    Obj([Field("type", Str("response")), Field("protocol_version", Int(VERSION)), Field("id", Str(id)),
         Field("ok", Bool(false)),
         Field("error", Obj([Field("code", Str(code)), Field("message", Str(message))] +
                            if details == [] then [] else [Field("details", Obj(details))]))])
  }

  function InternalError(id: string): Json {
    ErrorResponse(id, "INTERNAL", "command execution failed", [])
  }

  function HelloResponse(sessionId: string, nonce: string): Json {
    Obj([Field("type", Str("hello")), Field("protocol_version", Int(VERSION)), Field("session_id", Str(sessionId)),
         Field("server_nonce", Str(nonce)), Field("max_message_bytes", Int(MAX_MESSAGE_BYTES))])
  }

  function AuthenticateResponse(ok: bool): Json {
    Obj([Field("type", Str("authenticate")), Field("protocol_version", Int(VERSION)), Field("ok", Bool(ok))] +
        if ok then []
        else [Field("error", Obj([Field("code", Str("AUTH_FAILED")), Field("message", Str("authentication failed"))]))])
  }

  // ---------- secure_compare ----------

  /** A bitwise or is zero only when both operands are. */
  lemma {:induction false} OrZero(a: bv8, b: bv8)
    ensures a | b == 0 <==> a == 0 && b == 0
  {
  }

  lemma {:induction false} XorZero(a: bv8, b: bv8)
    ensures a ^ b == 0 <==> a == b
  {
  }

  /** The constant-time accumulator decides byte equality. */
  method SecureCompare(left: seq<bv8>, right: seq<bv8>) returns (same: bool)
    ensures same <==> left == right
  {
    if |left| != |right| { return false; }
    var diff: bv8 := 0;
    for i := 0 to |left|
      invariant diff == 0 <==> left[..i] == right[..i]
    {
      OrZero(diff, left[i] ^ right[i]);
      XorZero(left[i], right[i]);
      assert left[..i + 1] == left[..i] + [left[i]] && right[..i + 1] == right[..i] + [right[i]];
      diff := diff | (left[i] ^ right[i]);
    }
    assert left[..|left|] == left && right[..|right|] == right;
    return diff == 0;
  }
}
