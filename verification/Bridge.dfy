/**
 One bridge connection: handshake automaton, budgeted frame parser, write queue with byte
 accounting and the table of outstanding request ids. Everything here is the value-level
 specification; Server holds the object that implements it.
 */
module Bridge {
  import opened Basics
  import opened Json
  import opened Framing
  import opened Protocol

  const REQUEST_QUEUE_CAPACITY := 128
  const MAX_READS := 8
  const MAX_FRAMES := 32
  const MAX_WRITES := 8
  const READ_CHUNK_BYTES := 65_536
  const HANDSHAKE_TIMEOUT := 5_000
  const IDLE_READ_TIMEOUT := 120_000
  const WRITE_TIMEOUT := 5_000
  const MAX_PENDING_WRITE_BYTES := 2 * MAX_MESSAGE_BYTES

  type ConnId = nat

  /** A reading of the monotonic clock, in milliseconds. */
  type Millis = int

  datatype Phase = AwaitHello | AwaitAuthenticate | Ready

  datatype Item = Item(frame: Bytes, offset: nat, releaseId: Option<string>)

  /** A request waiting for the main thread; `conn` is its response sink and its cancellation. */
  datatype Work = Work(conn: ConnId, id: string, operation: string, payload: Json, deadline: Millis)

  /**
   What has passed through the connection since it was accepted: bytes received, payloads
   handled, the largest buffer seen, messages answered, their encodings, their frames, and
   bytes sent.
   */
  datatype History = History(received: Bytes, handled: seq<Bytes>, peak: nat,
                             replies: seq<Json>, answers: seq<Bytes>, queued: Bytes, sent: Bytes)

  datatype Conn = Conn(
    phase: Phase, closed: bool, closeAfterWrite: bool,
    readBuffer: Bytes, writeQueue: seq<Item>, pending: int, outstanding: set<string>,
    connectedAt: Millis, lastReadAt: Millis, lastWriteAt: Millis,
    history: History)

  datatype Config = Config(id: ConnId, sessionId: string, token: string, codec: Codec)

  /** Clock and randomness of one tick: `now` is read by the poll, `clock` by the handlers. */
  datatype Env = Env(now: Millis, clock: Millis, nonce: string)

  function Accept(now: Millis): Conn {
    Conn(AwaitHello, false, false, [], [], 0, {}, now, now, now, History([], [], 0, [], [], [], []))
  }

  /** Effect of handling input: `raised` is a FrameError on its way to read_pending. */
  datatype Effect = Effect(conn: Conn, queue: seq<Work>, raised: bool)

  // ---------- responses ----------

  function Close(c: Conn): Conn {
    if c.closed then c else c.(closed := true, outstanding := {}, writeQueue := [], pending := 0)
  }

  function ResponseId(response: Json): Option<string> {
    match response
    case Obj(fields) =>
      (match Get(fields, "id")
       case Some(Str(id)) => Some(id)
       case _ => None)
    case _ => None
  }

  function Queued(c: Conn, response: Json, payload: Bytes, frame: Bytes, releaseId: Option<string>, clock: Millis): Conn {
    c.(lastWriteAt := if c.writeQueue == [] then clock else c.lastWriteAt,
       writeQueue := c.writeQueue + [Item(frame, 0, releaseId)],
       pending := c.pending + |frame|,
       history := c.history.(replies := c.history.replies + [response],
                             answers := c.history.answers + [payload], queued := c.history.queued + frame))
  }

  /** enqueue_response; the flag is the FrameError of a response that does not fit a frame. */
  function Enqueue(codec: Codec, c: Conn, response: Json, release: bool, clock: Millis): (Conn, bool) {
    if c.closed then (c, false)
    else
      match EncodeFrame(codec, response)
      case None => (c, true)
      case Some(frame) =>
        if c.pending + |frame| > MAX_PENDING_WRITE_BYTES then (Close(c), false)
        else (Queued(c, response, codec.generate(response), frame, if release then ResponseId(response) else None, clock), false)
  }

  function Respond(cfg: Config, c: Conn, q: seq<Work>, response: Json, release: bool, env: Env): Effect {
    var (c', raised) := Enqueue(cfg.codec, c, response, release, env.clock);
    Effect(c', q, raised)
  }

  // ---------- message handlers ----------

  function HandleHello(cfg: Config, c: Conn, q: seq<Work>, m: seq<Field>, env: Env): Effect {
    if !ValidHello(m) then Effect(Close(c), q, false)
    else
      var e := Respond(cfg, c, q, HelloResponse(cfg.sessionId, env.nonce), false, env);
      if e.raised then e else e.(conn := e.conn.(phase := AwaitAuthenticate))
  }

  function HandleAuthenticate(cfg: Config, c: Conn, q: seq<Work>, m: seq<Field>, env: Env): Effect {
    if !ValidAuthenticate(m) then Effect(Close(c), q, false)
    else if cfg.codec.utf8(Token(m)) == cfg.codec.utf8(cfg.token) then
      var e := Respond(cfg, c, q, AuthenticateResponse(true), false, env);
      if e.raised then e else e.(conn := e.conn.(phase := Ready))
    else
      var e := Respond(cfg, c, q, AuthenticateResponse(false), false, env);
      if e.raised then e else e.(conn := e.conn.(closeAfterWrite := true))
  }

  function Reserve(c: Conn, id: string): Conn {
    c.(outstanding := c.outstanding + {id})
  }

  /** What becomes of a valid request: refused with an error, or admitted to the queue. */
  datatype Ruling = Refuse(code: string, message: string, release: bool) | Admit(work: Work)

  function Rule(cfg: Config, c: Conn, q: seq<Work>, r: Request, env: Env): Ruling {
    if r.id in c.outstanding then Refuse("INVALID_REQUEST", "duplicate request id", false)
    else if |c.outstanding| >= MAX_OUTSTANDING_REQUESTS then
      Refuse("INVALID_REQUEST", "too many outstanding requests", false)
    else if r.sessionId != cfg.sessionId then
      Refuse("SESSION_NOT_FOUND", "request session does not match this bridge instance", true)
    else if |q| >= REQUEST_QUEUE_CAPACITY then Refuse("INTERNAL", "bridge request queue is full", true)
    else Admit(Work(cfg.id, r.id, r.operation, r.payload, env.clock + r.timeoutMs))
  }

  /** An id is reserved before the session and queue tests, so refusals after it release it again. */
  function HandleRequest(cfg: Config, c: Conn, q: seq<Work>, r: Request, env: Env): Effect {
    match Rule(cfg, c, q, r, env)
    case Refuse(code, message, release) =>
      Respond(cfg, if release then Reserve(c, r.id) else c, q, ErrorResponse(r.id, code, message, []), release, env)
    case Admit(work) => Effect(Reserve(c, r.id), q + [work], false)
  }

  function HandleMessage(cfg: Config, c: Conn, q: seq<Work>, m: seq<Field>, env: Env): Effect {
    match c.phase
    case AwaitHello => HandleHello(cfg, c, q, m, env)
    case AwaitAuthenticate => HandleAuthenticate(cfg, c, q, m, env)
    case Ready =>
      match ValidateRequest(m)
      case Accepted(r) => HandleRequest(cfg, c, q, r, env)
      case Rejected(Some(id), code, message) => Respond(cfg, c, q, ErrorResponse(id, code, message, []), false, env)
      case Rejected(None, _, _) => Effect(Close(c), q, false)
  }

  // ---------- reading ----------

  /** The buffer loses its first frame; its payload is about to be handled. */
  function Taken(c: Conn, payload: Bytes, rest: Bytes): Conn {
    c.(readBuffer := rest, history := c.history.(handled := c.history.handled + [payload]))
  }

  function HandlePayload(cfg: Config, c: Conn, q: seq<Work>, payload: Bytes, env: Env): Effect {
    match Decode(cfg.codec, payload)
    case None => Effect(c, q, true)
    case Some(m) => HandleMessage(cfg, c, q, m, env)
  }

  /** The message layer as the frame loops see it. */
  type Handler = (Conn, seq<Work>, Bytes) -> Effect

  function HandlerOf(cfg: Config, env: Env): Handler {
    (c, q, payload) => HandlePayload(cfg, c, q, payload, env)
  }

  /** One turn of the drain loop on a buffer that starts with a complete frame. */
  function OneFrame(handle: Handler, c: Conn, q: seq<Work>): Effect
    requires Peel(c.readBuffer).Complete?
  {
    var payload, rest := Peel(c.readBuffer).payload, Peel(c.readBuffer).rest;
    handle(Taken(c, payload, rest), q, payload)
  }

  /** drain_frames: at most `limit` frames; the count is the number of frames handled. */
  function Drain(handle: Handler, c: Conn, q: seq<Work>, limit: nat): (Effect, nat)
    decreases limit
  {
    if limit == 0 then (Effect(c, q, false), 0)
    else
      match Peel(c.readBuffer)
      case Incomplete => (Effect(c, q, false), 0)
      case Malformed => (Effect(c, q, true), 0)
      case Complete(_, _) =>
        var e := OneFrame(handle, c, q);
        if e.raised then (e, 0)
        else if e.conn.closed || e.conn.closeAfterWrite then (e, 1)
        else
          var (e', n) := Drain(handle, e.conn, e.queue, limit - 1);
          (e', n + 1)
  }

  /** The frame layer as the read loop sees it. */
  type Drainer = (Conn, seq<Work>, nat) -> (Effect, nat)

  function DrainerOf(handle: Handler): Drainer {
    (c, q, limit) => Drain(handle, c, q, limit)
  }

  type Chunk = b: Bytes | |b| <= READ_CHUNK_BYTES

  datatype ReadResult = WouldBlock | EndOfFile | ReadFault | Data(chunk: Chunk)

  function Arrived(c: Conn, chunk: Bytes, now: Millis): Conn {
    var buffer := c.readBuffer + chunk;
    c.(lastReadAt := now, readBuffer := buffer,
       history := c.history.(received := c.history.received + chunk,
                             peak := if |buffer| > c.history.peak then |buffer| else c.history.peak))
  }

  /** The read loop of one tick; a closed socket raises, an exhausted script would block. */
  function ReadLoop(drain: Drainer, c: Conn, q: seq<Work>, script: seq<ReadResult>, done: nat, frames: nat, now: Millis)
    : (Effect, nat)
    decreases MAX_READS - done
  {
    if done >= MAX_READS || frames >= MAX_FRAMES then (Effect(c, q, false), done + frames)
    else if c.closed then (Effect(c, q, true), 0)
    else if script == [] then (Effect(c, q, false), done + frames)
    else
      match script[0]
      case WouldBlock => (Effect(c, q, false), done + frames)
      case EndOfFile => (Effect(Close(c), q, false), done + frames)
      case ReadFault => (Effect(c, q, true), 0)
      case Data(chunk) =>
        if chunk == [] then (Effect(c, q, true), 0)
        else
          var (e, n) := drain(Arrived(c, chunk, now), q, MAX_FRAMES - frames);
          if e.raised then (e, 0)
          else ReadLoop(drain, e.conn, e.queue, script[1..], done + 1, frames + n, now)
  }

  /** The rescue clause of read_pending. */
  function Rescued(e: Effect): Effect {
    if e.raised then Effect(Close(e.conn), e.queue, false) else e
  }

  /** read_pending */
  function ReadPending(drain: Drainer, c: Conn, q: seq<Work>, script: seq<ReadResult>, now: Millis): (Effect, nat) {
    if c.closed || c.closeAfterWrite then (Effect(c, q, false), 0)
    else
      var (e, n) := drain(c, q, MAX_FRAMES);
      if e.raised then (Rescued(e), 0)
      else if e.conn.closed || e.conn.closeAfterWrite || n >= MAX_FRAMES then (e, n)
      else
        var (e', k) := ReadLoop(drain, e.conn, e.queue, script, 0, n, now);
        (Rescued(e'), k)
  }

  /** read_pending of one connection, with its own message handlers. */
  function ReadTick(cfg: Config, c: Conn, q: seq<Work>, script: seq<ReadResult>, env: Env): (Effect, nat) {
    ReadPending(DrainerOf(HandlerOf(cfg, env)), c, q, script, env.now)
  }

  // ---------- writing ----------

  datatype WriteResult = WriteBlocks | WriteFault | Wrote(count: nat)

  function Release(c: Conn, id: Option<string>): Conn {
    match id
    case None => c
    case Some(id) => c.(outstanding := c.outstanding - {id})
  }

  predicate CanWrite(wq: seq<Item>, n: nat) {
    wq != [] && 0 < n <= |wq[0].frame| - wq[0].offset
  }

  /** The next n bytes to go out. */
  function HeadBytes(wq: seq<Item>, n: nat): Bytes
    requires CanWrite(wq, n)
  {
    wq[0].frame[wq[0].offset..wq[0].offset + n]
  }

  /** The queue after n bytes of its head were written: a finished item leaves it. */
  function Advance(wq: seq<Item>, n: nat): seq<Item>
    requires CanWrite(wq, n)
  {
    if wq[0].offset + n == |wq[0].frame| then wq[1..]
    else [wq[0].(offset := wq[0].offset + n)] + wq[1..]
  }

  /** The id freed by that write. */
  function FinishedId(wq: seq<Item>, n: nat): Option<string>
    requires CanWrite(wq, n)
  {
    if wq[0].offset + n == |wq[0].frame| then wq[0].releaseId else None
  }

  function Written(c: Conn, n: nat, now: Millis): Conn
    requires CanWrite(c.writeQueue, n)
  {
    Release(c.(pending := c.pending - n, lastWriteAt := now, writeQueue := Advance(c.writeQueue, n),
               history := c.history.(sent := c.history.sent + HeadBytes(c.writeQueue, n))),
            FinishedId(c.writeQueue, n))
  }

  predicate Writable(wq: seq<Item>) {
    forall i :: 0 <= i < |wq| ==> wq[i].offset < |wq[i].frame|
  }

  lemma {:induction false} WrittenWritable(c: Conn, n: nat, now: Millis)
    requires Writable(c.writeQueue) && CanWrite(c.writeQueue, n)
    ensures Writable(Written(c, n, now).writeQueue)
  {
    assert Written(c, n, now).writeQueue == Advance(c.writeQueue, n);
  }

  /** How much of the head a write of `count` bytes covers. */
  function Portion(wq: seq<Item>, count: nat): (n: nat)
    requires wq != [] && Writable(wq) && count > 0
    ensures CanWrite(wq, n)
  {
    var left := |wq[0].frame| - wq[0].offset;
    if count < left then count else left
  }

  /** The write loop; the flag reports an I/O error on its way to flush_pending. */
  function WriteLoop(c: Conn, script: seq<WriteResult>, writes: nat, now: Millis): (Conn, nat, bool)
    requires Writable(c.writeQueue)
    decreases MAX_WRITES - writes
  {
    if writes >= MAX_WRITES || c.writeQueue == [] || script == [] then (c, writes, false)
    else
      match script[0]
      case WriteBlocks => (c, writes, false)
      case WriteFault => (c, writes, true)
      case Wrote(count) =>
        if count == 0 then (c, writes, true)
        else
          var n := Portion(c.writeQueue, count);
          WrittenWritable(c, n, now);
          WriteLoop(Written(c, n, now), script[1..], writes + 1, now)
  }

  /** flush_pending */
  function FlushPending(c: Conn, script: seq<WriteResult>, now: Millis): (Conn, nat)
    requires Writable(c.writeQueue)
  {
    if c.closed then (c, 0)
    else
      var (c', writes, fault) := WriteLoop(c, script, 0, now);
      if fault then (Close(c'), 0)
      else (if c'.closeAfterWrite && c'.writeQueue == [] then Close(c') else c', writes)
  }

  /** expire_if_needed */
  function Expire(c: Conn, now: Millis): Conn {
    if c.closed then c
    else if c.phase != Ready && now - c.connectedAt >= HANDSHAKE_TIMEOUT then Close(c)
    else if c.phase == Ready && now - c.lastReadAt >= IDLE_READ_TIMEOUT then Close(c)
    else if c.writeQueue != [] && now - c.lastWriteAt >= WRITE_TIMEOUT then Close(c)
    else c
  }
}
