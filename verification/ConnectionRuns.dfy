/** The connection invariants are kept by every tick of reading, writing and expiry. */
module ConnectionRuns {
  import opened Basics
  import opened Json
  import opened Framing
  import opened Protocol
  import opened Bridge
  import opened ConnectionInvariants

  ghost predicate Good(cfg: Config, c: Conn, q: seq<Work>) {
    && WriteInv(c)
    && ReadInv(c)
    && PhaseInv(cfg, c)
    && OwnWorkPreceded(cfg, c, q)
    && Accounted(c, QueuedIds(q, cfg.id), [])
    && |q| <= REQUEST_QUEUE_CAPACITY
  }

  /** The shared queue only grows at its tail, by requests of this connection with UUIDs and clamped deadlines. */
  ghost predicate Grows(cfg: Config, q: seq<Work>, q': seq<Work>, env: Env) {
    && q <= q'
    && |q'| <= REQUEST_QUEUE_CAPACITY
    && forall i :: |q| <= i < |q'| ==>
         q'[i].conn == cfg.id && IsUuid(q'[i].id) && env.clock + 100 <= q'[i].deadline <= env.clock + 30_000
  }

  function Rank(p: Phase): nat {
    match p case AwaitHello => 0 case AwaitAuthenticate => 1 case Ready => 2
  }

  // ---------- any invariant of single steps is an invariant of the loops ----------

  type ConnInv = (Conn, seq<Work>) -> bool

  ghost predicate KeptByFrames(inv: ConnInv, handle: Handler) {
    forall c, q {:trigger OneFrame(handle, c, q)} ::
      inv(c, q) && !c.closed && Peel(c.readBuffer).Complete? ==>
        inv(Rescued(OneFrame(handle, c, q)).conn, OneFrame(handle, c, q).queue)
  }

  ghost predicate KeptByClose(inv: ConnInv) {
    forall c, q {:trigger inv(Close(c), q)} :: inv(c, q) ==> inv(Close(c), q)
  }

  ghost predicate KeptByArrival(inv: ConnInv, now: Millis) {
    forall c, q, chunk: Chunk {:trigger inv(Arrived(c, chunk, now), q)} ::
      inv(c, q) && !c.closed && chunk != [] ==> inv(Arrived(c, chunk, now), q)
  }

  lemma {:induction false} DrainKeeps(inv: ConnInv, handle: Handler, c: Conn, q: seq<Work>, limit: nat)
    requires KeptByFrames(inv, handle) && KeptByClose(inv)
    requires inv(c, q) && !c.closed
    ensures var (e, n) := Drain(handle, c, q, limit); inv(Rescued(e).conn, e.queue)
    decreases limit
  {
    if limit > 0 {
      match Peel(c.readBuffer)
      case Incomplete =>
      case Malformed => assert inv(Close(c), q);
      case Complete(_, _) =>
        var e := OneFrame(handle, c, q);
        if !e.raised && !e.conn.closed && !e.conn.closeAfterWrite {
          DrainKeeps(inv, handle, e.conn, e.queue, limit - 1);
        }
    }
  }

  ghost predicate KeptByDrain(inv: ConnInv, drain: Drainer) {
    forall c, q, limit {:trigger drain(c, q, limit)} ::
      inv(c, q) && !c.closed ==> inv(Rescued(drain(c, q, limit).0).conn, drain(c, q, limit).0.queue)
  }

  // ---------- induction over the read loop ----------

  /** What holds between two turns of the read loop, after `done` reads and `frames` frames. */
  type Turn = (Conn, seq<Work>, nat, nat) -> bool

  /** What holds when the loop is over. */
  type End = Effect -> bool

  /** A turn that receives nothing ends the loop where it stands. */
  ghost predicate MayStop(turn: Turn, end: End) {
    forall c, q, done: nat, frames: nat {:trigger turn(c, q, done, frames)} ::
      turn(c, q, done, frames) ==>
        end(Effect(c, q, false)) && end(Effect(c, q, true)) && end(Effect(Close(c), q, false))
  }

  ghost predicate MayReceive(turn: Turn, end: End, drain: Drainer, now: Millis,
                             c: Conn, q: seq<Work>, done: nat, frames: nat, chunk: Chunk) {
    turn(c, q, done, frames) && done < MAX_READS && frames < MAX_FRAMES && !c.closed && chunk != [] ==>
      var (e, n) := drain(Arrived(c, chunk, now), q, MAX_FRAMES - frames);
      if e.raised then end(e) else turn(e.conn, e.queue, done + 1, frames + n)
  }

  ghost predicate MayContinue(turn: Turn, end: End, drain: Drainer, now: Millis) {
    forall c, q, done: nat, frames: nat, chunk: Chunk {:trigger MayReceive(turn, end, drain, now, c, q, done, frames, chunk)} ::
      MayReceive(turn, end, drain, now, c, q, done, frames, chunk)
  }

  predicate Receives(c: Conn, script: seq<Bridge.ReadResult>, done: nat, frames: nat) {
    && done < MAX_READS && frames < MAX_FRAMES && !c.closed
    && script != [] && script[0].Data? && script[0].chunk != []
  }

  lemma {:induction false} LastTurn(turn: Turn, end: End, drain: Drainer, c: Conn, q: seq<Work>,
                                    script: seq<Bridge.ReadResult>, done: nat, frames: nat, now: Millis)
    requires MayStop(turn, end) && turn(c, q, done, frames) && !Receives(c, script, done, frames)
    ensures end(ReadLoop(drain, c, q, script, done, frames, now).0)
  {
  }

  lemma {:induction false} MiddleTurn(drain: Drainer, c: Conn, q: seq<Work>, script: seq<Bridge.ReadResult>,
                                      done: nat, frames: nat, now: Millis)
    requires Receives(c, script, done, frames)
    ensures var (e, n) := drain(Arrived(c, script[0].chunk, now), q, MAX_FRAMES - frames);
            ReadLoop(drain, c, q, script, done, frames, now) ==
            if e.raised then (e, 0) else ReadLoop(drain, e.conn, e.queue, script[1..], done + 1, frames + n, now)
  {
  }

  lemma {:induction false} ReadLoopRule(turn: Turn, end: End, drain: Drainer, c: Conn, q: seq<Work>,
                                        script: seq<Bridge.ReadResult>, done: nat, frames: nat, now: Millis)
    requires MayStop(turn, end) && MayContinue(turn, end, drain, now) && turn(c, q, done, frames)
    ensures end(ReadLoop(drain, c, q, script, done, frames, now).0)
    decreases MAX_READS - done
  {
    if Receives(c, script, done, frames) {
      var chunk := script[0].chunk;
      assert MayReceive(turn, end, drain, now, c, q, done, frames, chunk);
      MiddleTurn(drain, c, q, script, done, frames, now);
      var (e, n) := drain(Arrived(c, chunk, now), q, MAX_FRAMES - frames);
      if !e.raised {
        ReadLoopRule(turn, end, drain, e.conn, e.queue, script[1..], done + 1, frames + n, now);
      }
    } else {
      LastTurn(turn, end, drain, c, q, script, done, frames, now);
    }
  }

  lemma {:induction false} ReadLoopKeeps(inv: ConnInv, drain: Drainer, c: Conn, q: seq<Work>, script: seq<Bridge.ReadResult>,
                                         done: nat, frames: nat, now: Millis)
    requires KeptByDrain(inv, drain) && KeptByClose(inv) && KeptByArrival(inv, now)
    requires inv(c, q)
    ensures var (e, n) := ReadLoop(drain, c, q, script, done, frames, now); inv(Rescued(e).conn, e.queue)
  {
    var turn: Turn := (x: Conn, p: seq<Work>, done: nat, frames: nat) => inv(x, p);
    var end: End := (e: Effect) => inv(Rescued(e).conn, e.queue);
    forall x, p, done: nat, frames: nat | turn(x, p, done, frames)
      ensures end(Effect(x, p, false)) && end(Effect(x, p, true)) && end(Effect(Close(x), p, false))
    {
      assert inv(Close(x), p);
      assert Rescued(Effect(x, p, false)).conn == x && Rescued(Effect(x, p, true)).conn == Close(x);
      assert Rescued(Effect(Close(x), p, false)).conn == Close(x);
    }
    forall x, p, done: nat, frames: nat, chunk: Chunk ensures MayReceive(turn, end, drain, now, x, p, done, frames, chunk) {
      if inv(x, p) && !x.closed && chunk != [] { assert inv(Arrived(x, chunk, now), p); }
    }
    ReadLoopRule(turn, end, drain, c, q, script, done, frames, now);
  }

  lemma {:induction false} ReadPendingKeeps(inv: ConnInv, drain: Drainer, c: Conn, q: seq<Work>,
                                            script: seq<Bridge.ReadResult>, now: Millis)
    requires KeptByDrain(inv, drain) && KeptByClose(inv) && KeptByArrival(inv, now)
    requires inv(c, q)
    ensures var (e, n) := ReadPending(drain, c, q, script, now); inv(e.conn, e.queue)
  {
    if !c.closed && !c.closeAfterWrite {
      var (e, n) := drain(c, q, MAX_FRAMES);
      if !e.raised {
        ReadLoopKeeps(inv, drain, e.conn, e.queue, script, 0, n, now);
      }
    }
  }

  lemma {:induction false} DrainerKeeps(inv: ConnInv, handle: Handler)
    requires KeptByFrames(inv, handle) && KeptByClose(inv)
    ensures KeptByDrain(inv, DrainerOf(handle))
  {
    forall c, q, limit: nat | inv(c, q) && !c.closed
      ensures var (e, n) := DrainerOf(handle)(c, q, limit); inv(Rescued(e).conn, e.queue)
    {
      DrainKeeps(inv, handle, c, q, limit);
    }
  }

  ghost predicate KeptByWrites(inv: Conn -> bool, now: Millis) {
    forall c, n: nat {:trigger Written(c, n, now)} ::
      inv(c) && CanWrite(c.writeQueue, n) ==> inv(Written(c, n, now))
  }

  lemma {:induction false} WriteLoopKeeps(inv: Conn -> bool, c: Conn, script: seq<WriteResult>, writes: nat, now: Millis)
    requires KeptByWrites(inv, now) && inv(c) && Writable(c.writeQueue)
    ensures inv(WriteLoop(c, script, writes, now).0)
    decreases MAX_WRITES - writes
  {
    if writes < MAX_WRITES && c.writeQueue != [] && script != [] && script[0].Wrote? && script[0].count > 0 {
      var n := Portion(c.writeQueue, script[0].count);
      WrittenWritable(c, n, now);
      WriteLoopKeeps(inv, Written(c, n, now), script[1..], writes + 1, now);
    }
  }

  // ---------- one response ----------

  /** Handling a message leaves the reading side alone and never takes the handshake back. */
  ghost predicate ReadingSame(c: Conn, c': Conn) {
    && c'.readBuffer == c.readBuffer
    && c'.history.received == c.history.received
    && c'.history.handled == c.history.handled
    && c'.history.peak == c.history.peak
    && Rank(c'.phase) >= Rank(c.phase)
    && (c.closeAfterWrite ==> c'.closeAfterWrite)
    && (c.closed ==> c'.closed)
  }

  lemma {:induction false} RespondSame(cfg: Config, c: Conn, q: seq<Work>, response: Json, release: bool, env: Env)
    ensures var e := Respond(cfg, c, q, response, release, env);
            ReadingSame(c, e.conn) && e.queue == q && e.conn.phase == c.phase && e.conn.closeAfterWrite == c.closeAfterWrite
  {
  }

  lemma {:induction false} RespondWrite(cfg: Config, c: Conn, q: seq<Work>, response: Json, release: bool, env: Env)
    requires WriteInv(c)
    ensures WriteInv(Respond(cfg, c, q, response, release, env).conn)
  {
    EnqueueWrite(cfg.codec, c, response, release, env.clock);
  }

  lemma {:induction false} ErrorResponseId(id: string, code: string, message: string, details: seq<Field>)
    ensures ResponseId(ErrorResponse(id, code, message, details)) == Some(id)
  {
    var fs := ErrorResponse(id, code, message, details).fields;
    assert fs[1..][0].key == "protocol_version" && fs[1..][1..][0] == Field("id", Str(id));
    assert Get(fs[1..][1..], "id") == Some(Str(id));
    assert Get(fs[1..], "id") == Some(Str(id));
  }

  // ---------- one request ----------

  lemma {:induction false} HandleRequestSame(cfg: Config, c: Conn, q: seq<Work>, r: Request, env: Env)
    ensures ReadingSame(c, HandleRequest(cfg, c, q, r, env).conn)
    ensures HandleRequest(cfg, c, q, r, env).conn.phase == c.phase
  {
    match Rule(cfg, c, q, r, env)
    case Refuse(code, message, release) =>
      RespondSame(cfg, if release then Reserve(c, r.id) else c, q, ErrorResponse(r.id, code, message, []), release, env);
    case Admit(_) =>
  }

  lemma {:induction false} ReserveWrite(c: Conn, id: string)
    requires WriteInv(c) && !c.closed
    ensures WriteInv(Reserve(c, id))
  {
  }

  lemma {:induction false} HandleRequestWrite(cfg: Config, c: Conn, q: seq<Work>, r: Request, env: Env)
    requires WriteInv(c) && !c.closed
    ensures WriteInv(HandleRequest(cfg, c, q, r, env).conn)
  {
    ReserveWrite(c, r.id);
    match Rule(cfg, c, q, r, env)
    case Refuse(code, message, release) =>
      RespondWrite(cfg, if release then Reserve(c, r.id) else c, q, ErrorResponse(r.id, code, message, []), release, env);
    case Admit(_) =>
  }

  lemma {:induction false} PushedIds(q: seq<Work>, w: Work)
    ensures QueuedIds(q + [w], w.conn) == QueuedIds(q, w.conn) + [w.id]
  {
    QueuedIdsAppend(q, [w], w.conn);
    assert [w][1..] == [];
  }

  lemma {:induction false} RuleFacts(cfg: Config, c: Conn, q: seq<Work>, r: Request, env: Env)
    ensures match Rule(cfg, c, q, r, env)
            case Refuse(_, _, release) =>
              release ==> r.id !in c.outstanding && |c.outstanding| < MAX_OUTSTANDING_REQUESTS
            case Admit(w) =>
              && r.id !in c.outstanding && |c.outstanding| < MAX_OUTSTANDING_REQUESTS
              && |q| < REQUEST_QUEUE_CAPACITY && r.sessionId == cfg.sessionId
              && w == Work(cfg.id, r.id, r.operation, r.payload, env.clock + r.timeoutMs)
  {
  }

  lemma {:induction false} HandleRequestAccounted(cfg: Config, c: Conn, q: seq<Work>, r: Request, env: Env)
    requires Accounted(c, QueuedIds(q, cfg.id), []) && |q| <= REQUEST_QUEUE_CAPACITY
    ensures var e := HandleRequest(cfg, c, q, r, env);
            && |e.conn.outstanding| <= MAX_OUTSTANDING_REQUESTS
            && (!e.raised ==> Accounted(e.conn, QueuedIds(e.queue, cfg.id), []))
  {
    var waiting := QueuedIds(q, cfg.id);
    RuleFacts(cfg, c, q, r, env);
    match Rule(cfg, c, q, r, env)
    case Refuse(code, message, release) =>
      ErrorResponseId(r.id, code, message, []);
      if release { ReserveAccounted(c, waiting, r.id); }
      EnqueueAccounted(cfg.codec, if release then Reserve(c, r.id) else c, ErrorResponse(r.id, code, message, []), release,
                       env.clock, waiting, if release then [r.id] else []);
    case Admit(w) =>
      ReserveAccounted(c, waiting, r.id);
      PushedIds(q, w);
  }

  lemma {:induction false} HandleRequestGrows(cfg: Config, c: Conn, q: seq<Work>, r: Request, env: Env)
    requires |q| <= REQUEST_QUEUE_CAPACITY && 100 <= r.timeoutMs <= 30_000 && IsUuid(r.id)
    ensures Grows(cfg, q, HandleRequest(cfg, c, q, r, env).queue, env)
  {
    RuleFacts(cfg, c, q, r, env);
  }

  /** A response that is not to release its id leaves what is owed alone. */
  lemma {:induction false} UnreleasedResponse(cfg: Config, c: Conn, q: seq<Work>, response: Json, env: Env)
    ensures var e := Respond(cfg, c, q, response, false, env);
            || (e.conn.closed && !c.closed)
            || (e.conn.outstanding == c.outstanding && ReleaseIds(e.conn.writeQueue) == ReleaseIds(c.writeQueue))
  {
    var e := Respond(cfg, c, q, response, false, env);
    if e.conn.writeQueue != c.writeQueue && !e.conn.closed {
      var item := Item(Frame(cfg.codec.generate(response)), 0, None);
      assert e.conn.writeQueue == c.writeQueue + [item];
      ReleaseIdsAppend(c.writeQueue, [item]);
      assert [item][1..] == [];
    }
  }

  /**
   A duplicate id, a full table and a request that fails validation are answered without
   reserving, queueing or releasing anything.
   */
  lemma {:induction false} RefusalReleasesNothing(cfg: Config, c: Conn, q: seq<Work>, m: seq<Field>, env: Env)
    requires c.phase == Ready && !c.closed
    requires match ValidateRequest(m)
             case Accepted(r) => r.id in c.outstanding || |c.outstanding| >= 32
             case Rejected(_, _, _) => true
    ensures var e := HandleMessage(cfg, c, q, m, env);
            && e.queue == q
            && (e.conn.closed ||
                (e.conn.outstanding == c.outstanding && ReleaseIds(e.conn.writeQueue) == ReleaseIds(c.writeQueue)))
  {
    match ValidateRequest(m)
    case Accepted(r) =>
      RefusedRule(cfg, c, q, r, env);
      var message := if r.id in c.outstanding then "duplicate request id" else "too many outstanding requests";
      UnreleasedResponse(cfg, c, q, ErrorResponse(r.id, "INVALID_REQUEST", message, []), env);
    case Rejected(Some(id), code, message) => UnreleasedResponse(cfg, c, q, ErrorResponse(id, code, message, []), env);
    case Rejected(None, _, _) =>
  }

  lemma {:induction false} RefusedRule(cfg: Config, c: Conn, q: seq<Work>, r: Request, env: Env)
    requires r.id in c.outstanding || |c.outstanding| >= 32
    ensures Rule(cfg, c, q, r, env) ==
            Refuse("INVALID_REQUEST",
                   if r.id in c.outstanding then "duplicate request id" else "too many outstanding requests", false)
  {
  }

  /** Accepted requests carry a timeout clamped to 100..30000 ms and a UUID. */
  lemma {:induction false} AcceptedClamped(m: seq<Field>)
    requires ValidateRequest(m).Accepted?
    ensures 100 <= ValidateRequest(m).request.timeoutMs <= 30_000
    ensures IsUuid(ValidateRequest(m).request.id)
    ensures match Get(m, "timeout_ms")
            case Some(Int(ms)) => 100 <= ms <= 30_000 ==> ValidateRequest(m).request.timeoutMs == ms
            case _ => false
  {
  }

  // ---------- one message ----------

  lemma {:induction false} HandleReadySame(cfg: Config, c: Conn, q: seq<Work>, m: seq<Field>, env: Env)
    requires c.phase == Ready
    ensures ReadingSame(c, HandleMessage(cfg, c, q, m, env).conn)
    ensures HandleMessage(cfg, c, q, m, env).conn.phase == Ready
  {
    match ValidateRequest(m)
    case Accepted(r) => HandleRequestSame(cfg, c, q, r, env);
    case Rejected(Some(id), code, message) => RespondSame(cfg, c, q, ErrorResponse(id, code, message, []), false, env);
    case Rejected(None, _, _) =>
  }

  lemma {:induction false} HandleMessageSame(cfg: Config, c: Conn, q: seq<Work>, m: seq<Field>, env: Env)
    ensures ReadingSame(c, HandleMessage(cfg, c, q, m, env).conn)
  {
    match c.phase
    case AwaitHello => RespondSame(cfg, c, q, HelloResponse(cfg.sessionId, env.nonce), false, env);
    case AwaitAuthenticate =>
      RespondSame(cfg, c, q, AuthenticateResponse(true), false, env);
      RespondSame(cfg, c, q, AuthenticateResponse(false), false, env);
    case Ready => HandleReadySame(cfg, c, q, m, env);
  }

  lemma {:induction false} HandleMessageWrite(cfg: Config, c: Conn, q: seq<Work>, m: seq<Field>, env: Env)
    requires WriteInv(c) && !c.closed
    ensures WriteInv(HandleMessage(cfg, c, q, m, env).conn)
  {
    CloseWrite(c);
    match c.phase
    case AwaitHello => RespondWrite(cfg, c, q, HelloResponse(cfg.sessionId, env.nonce), false, env);
    case AwaitAuthenticate =>
      RespondWrite(cfg, c, q, AuthenticateResponse(true), false, env);
      RespondWrite(cfg, c, q, AuthenticateResponse(false), false, env);
    case Ready =>
      match ValidateRequest(m)
      case Accepted(r) => HandleRequestWrite(cfg, c, q, r, env);
      case Rejected(Some(id), code, message) =>
        RespondWrite(cfg, c, q, ErrorResponse(id, code, message, []), false, env);
      case Rejected(None, _, _) =>
  }

  lemma {:induction false} HandleMessageAccounted(cfg: Config, c: Conn, q: seq<Work>, m: seq<Field>, env: Env)
    requires Accounted(c, QueuedIds(q, cfg.id), []) && |q| <= REQUEST_QUEUE_CAPACITY
    ensures var e := HandleMessage(cfg, c, q, m, env);
            && |e.conn.outstanding| <= MAX_OUTSTANDING_REQUESTS
            && (!e.raised ==> Accounted(e.conn, QueuedIds(e.queue, cfg.id), []))
  {
    var waiting := QueuedIds(q, cfg.id);
    match c.phase
    case AwaitHello =>
      EnqueueAccounted(cfg.codec, c, HelloResponse(cfg.sessionId, env.nonce), false, env.clock, waiting, []);
    case AwaitAuthenticate =>
      EnqueueAccounted(cfg.codec, c, AuthenticateResponse(true), false, env.clock, waiting, []);
      EnqueueAccounted(cfg.codec, c, AuthenticateResponse(false), false, env.clock, waiting, []);
    case Ready =>
      match ValidateRequest(m)
      case Accepted(r) => HandleRequestAccounted(cfg, c, q, r, env);
      case Rejected(Some(id), code, message) =>
        EnqueueAccounted(cfg.codec, c, ErrorResponse(id, code, message, []), false, env.clock, waiting, []);
      case Rejected(None, _, _) =>
  }

  /** Only a ready connection ever puts work on the shared queue. */
  lemma {:induction false} HandleMessageGrows(cfg: Config, c: Conn, q: seq<Work>, m: seq<Field>, env: Env)
    requires |q| <= REQUEST_QUEUE_CAPACITY
    ensures Grows(cfg, q, HandleMessage(cfg, c, q, m, env).queue, env)
    ensures HandleMessage(cfg, c, q, m, env).queue != q ==> c.phase == Ready
  {
    if c.phase == Ready {
      match ValidateRequest(m)
      case Accepted(r) =>
        AcceptedClamped(m);
        HandleRequestGrows(cfg, c, q, r, env);
      case Rejected(_, _, _) =>
    }
  }

  /** Work put on the queue is the request of the message that was handled. */
  ghost predicate Asked(cfg: Config, m: seq<Field>, w: Work) {
    match ValidateRequest(m)
    case Accepted(r) => w.conn == cfg.id && w.id == r.id && w.operation == r.operation && w.payload == r.payload
    case Rejected(_, _, _) => false
  }

  lemma {:induction false} HandleMessageAsks(cfg: Config, c: Conn, q: seq<Work>, m: seq<Field>, env: Env)
    ensures var q' := HandleMessage(cfg, c, q, m, env).queue;
            forall i :: |q| <= i < |q'| ==> Asked(cfg, m, q'[i])
  {
    if c.phase == Ready {
      match ValidateRequest(m)
      case Accepted(r) => RuleFacts(cfg, c, q, r, env);
      case Rejected(_, _, _) =>
    }
  }

  lemma {:induction false} OneFrameAsks(cfg: Config, c: Conn, q: seq<Work>, env: Env)
    requires Peel(c.readBuffer).Complete?
    ensures var q' := OneFrame(HandlerOf(cfg, env), c, q).queue;
            forall i :: |q| <= i < |q'| ==> AskedBy(cfg, Peel(c.readBuffer).payload, q'[i])
  {
    var front := Peel(c.readBuffer);
    match Decode(cfg.codec, front.payload)
    case None =>
    case Some(m) => HandleMessageAsks(cfg, Taken(c, front.payload, front.rest), q, m, env);
  }

  lemma {:induction false} PrecededMore(cfg: Config, a: seq<Bytes>, b: seq<Bytes>, w: Work)
    requires Preceded(cfg, a, w) && a <= b
    ensures Preceded(cfg, b, w)
  {
    var n: nat :| n < |a| && AskedBy(cfg, a[n], w) && Shaken(cfg, a[..n]);
    assert b[n] == a[n] && b[..n] == a[..n];
  }

  lemma {:induction false} ShakenMore(cfg: Config, handled: seq<Bytes>, payload: Bytes)
    requires Shaken(cfg, handled)
    ensures Shaken(cfg, handled + [payload])
  {
    var j :| 0 < j < |handled| && AuthenticateAt(cfg, handled[j]);
    assert (handled + [payload])[j] == handled[j];
  }

  /** A hello opens, the right token makes ready, nothing else moves the phase. */
  lemma {:induction false} HandleMessageMoves(cfg: Config, c: Conn, q: seq<Work>, m: seq<Field>, env: Env)
    ensures var c' := HandleMessage(cfg, c, q, m, env).conn;
            match c.phase
            case AwaitHello =>
              || (c'.phase == AwaitHello && (c'.closed || HandleMessage(cfg, c, q, m, env).raised))
              || (c'.phase == AwaitAuthenticate && ValidHello(m))
            case AwaitAuthenticate =>
              || c'.phase == AwaitAuthenticate
              || (c'.phase == Ready && ValidAuthenticate(m) && cfg.codec.utf8(Token(m)) == cfg.codec.utf8(cfg.token))
            case Ready => c'.phase == Ready
  {
    match c.phase
    case AwaitHello => RespondSame(cfg, c, q, HelloResponse(cfg.sessionId, env.nonce), false, env);
    case AwaitAuthenticate =>
      RespondSame(cfg, c, q, AuthenticateResponse(true), false, env);
      RespondSame(cfg, c, q, AuthenticateResponse(false), false, env);
    case Ready => HandleReadySame(cfg, c, q, m, env);
  }

  lemma {:induction false} OneFramePhase(cfg: Config, c: Conn, q: seq<Work>, env: Env)
    requires PhaseInv(cfg, c) && !c.closed && Peel(c.readBuffer).Complete?
    ensures PhaseInv(cfg, Rescued(OneFrame(HandlerOf(cfg, env), c, q)).conn)
  {
    var payload, rest := Peel(c.readBuffer).payload, Peel(c.readBuffer).rest;
    var t := Taken(c, payload, rest);
    var e := HandlePayload(cfg, t, q, payload, env);
    if c.phase == Ready { ShakenMore(cfg, c.history.handled, payload); }
    match Decode(cfg.codec, payload)
    case None => PhaseSteps(cfg, c, payload, t.phase, true, t);
    case Some(m) =>
      HandleMessageSame(cfg, t, q, m, env);
      HandleMessageMoves(cfg, t, q, m, env);
      PhaseSteps(cfg, c, payload, e.conn.phase, e.raised || e.conn.closed, e.conn);
  }

  lemma {:induction false} PhaseSteps(cfg: Config, c: Conn, payload: Bytes, phase: Phase, ends: bool, c': Conn)
    requires PhaseInv(cfg, c) && !c.closed
    requires c'.history.handled == c.history.handled + [payload] && c'.phase == phase
    requires c.phase == Ready ==> Shaken(cfg, c'.history.handled)
    requires match c.phase
             case AwaitHello => (phase == AwaitHello && ends) || (phase == AwaitAuthenticate && HelloAt(cfg, payload))
             case AwaitAuthenticate => phase == AwaitAuthenticate || (phase == Ready && AuthenticateAt(cfg, payload))
             case Ready => phase == Ready
    ensures ends ==> PhaseInv(cfg, c'.(closed := true, outstanding := {}, writeQueue := [], pending := 0))
    ensures ends && c'.closed ==> PhaseInv(cfg, c')
    ensures !ends ==> PhaseInv(cfg, c')
  {
    var handled := c'.history.handled;
    assert handled[|handled| - 1] == payload;
    if c.phase != AwaitHello { assert handled[0] == c.history.handled[0]; }
    if c.phase == AwaitAuthenticate && phase == Ready {
      assert 0 < |handled| - 1 && AuthenticateAt(cfg, handled[|handled| - 1]);
    }
  }

  lemma {:induction false} OneFrameSame(cfg: Config, c: Conn, q: seq<Work>, env: Env)
    requires Peel(c.readBuffer).Complete?
    ensures var front := Peel(c.readBuffer);
            ReadingSame(Taken(c, front.payload, front.rest), OneFrame(HandlerOf(cfg, env), c, q).conn)
  {
    var front := Peel(c.readBuffer);
    match Decode(cfg.codec, front.payload)
    case None =>
    case Some(m) => HandleMessageSame(cfg, Taken(c, front.payload, front.rest), q, m, env);
  }

  lemma {:induction false} OneFrameWrite(cfg: Config, c: Conn, q: seq<Work>, env: Env)
    requires WriteInv(c) && !c.closed && Peel(c.readBuffer).Complete?
    ensures WriteInv(Rescued(OneFrame(HandlerOf(cfg, env), c, q)).conn)
  {
    var front := Peel(c.readBuffer);
    var t := Taken(c, front.payload, front.rest);
    match Decode(cfg.codec, front.payload)
    case None => CloseWrite(t);
    case Some(m) =>
      HandleMessageWrite(cfg, t, q, m, env);
      CloseWrite(HandleMessage(cfg, t, q, m, env).conn);
  }

  lemma {:induction false} OneFrameAccounted(cfg: Config, c: Conn, q: seq<Work>, env: Env)
    requires Accounted(c, QueuedIds(q, cfg.id), []) && |q| <= REQUEST_QUEUE_CAPACITY && Peel(c.readBuffer).Complete?
    ensures var e := OneFrame(HandlerOf(cfg, env), c, q);
            Accounted(Rescued(e).conn, QueuedIds(e.queue, cfg.id), [])
  {
    var front := Peel(c.readBuffer);
    var t := Taken(c, front.payload, front.rest);
    HandlePayloadAccounted(cfg, t, q, front.payload, env);
    RescuedAccounted(HandlePayload(cfg, t, q, front.payload, env), cfg.id);
  }

  lemma {:induction false} HandlePayloadAccounted(cfg: Config, c: Conn, q: seq<Work>, payload: Bytes, env: Env)
    requires Accounted(c, QueuedIds(q, cfg.id), []) && |q| <= REQUEST_QUEUE_CAPACITY
    ensures var e := HandlePayload(cfg, c, q, payload, env);
            && |e.conn.outstanding| <= MAX_OUTSTANDING_REQUESTS
            && (!e.raised ==> Accounted(e.conn, QueuedIds(e.queue, cfg.id), []))
  {
    match Decode(cfg.codec, payload)
    case None =>
    case Some(m) => HandleMessageAccounted(cfg, c, q, m, env);
  }

  lemma {:induction false} RescuedAccounted(e: Effect, id: ConnId)
    requires |e.conn.outstanding| <= MAX_OUTSTANDING_REQUESTS
    requires !e.raised ==> Accounted(e.conn, QueuedIds(e.queue, id), [])
    ensures Accounted(Rescued(e).conn, QueuedIds(e.queue, id), [])
  {
  }

  lemma {:induction false} OneFrameGrows(cfg: Config, c: Conn, q: seq<Work>, env: Env)
    requires |q| <= REQUEST_QUEUE_CAPACITY && Peel(c.readBuffer).Complete?
    ensures var e := OneFrame(HandlerOf(cfg, env), c, q);
            Grows(cfg, q, e.queue, env) && (e.queue != q ==> c.phase == Ready)
  {
    var front := Peel(c.readBuffer);
    var t := Taken(c, front.payload, front.rest);
    match Decode(cfg.codec, front.payload)
    case None =>
    case Some(m) => HandleMessageGrows(cfg, t, q, m, env);
  }

  lemma {:induction false} OneFrameRead(cfg: Config, c: Conn, q: seq<Work>, env: Env)
    requires ReadInv(c) && Peel(c.readBuffer).Complete?
    ensures ReadInv(Rescued(OneFrame(HandlerOf(cfg, env), c, q)).conn)
  {
    TakenRead(c);
    OneFrameSame(cfg, c, q, env);
  }

  lemma {:induction false} OwnWork(cfg: Config, c: Conn, q: seq<Work>, c': Conn, q': seq<Work>, payload: Bytes, env: Env)
    requires PhaseInv(cfg, c) && OwnWorkPreceded(cfg, c, q) && Grows(cfg, q, q', env)
    requires c'.history.handled == c.history.handled + [payload]
    requires q' != q ==> c.phase == Ready
    requires forall i :: |q| <= i < |q'| ==> AskedBy(cfg, payload, q'[i])
    ensures OwnWorkPreceded(cfg, c', q')
  {
    var handled := c'.history.handled;
    forall i | 0 <= i < |q'| && q'[i].conn == cfg.id ensures Preceded(cfg, handled, q'[i]) {
      if i < |q| {
        assert q'[i] == q[i];
        PrecededMore(cfg, c.history.handled, handled, q[i]);
      } else {
        var n := |c.history.handled|;
        assert handled[n] == payload && handled[..n] == c.history.handled;
      }
    }
  }

  lemma {:induction false} OneFrameGood(cfg: Config, c: Conn, q: seq<Work>, env: Env)
    requires Good(cfg, c, q) && !c.closed && Peel(c.readBuffer).Complete?
    ensures var e := OneFrame(HandlerOf(cfg, env), c, q);
            Good(cfg, Rescued(e).conn, e.queue) && Grows(cfg, q, e.queue, env)
  {
    var e := OneFrame(HandlerOf(cfg, env), c, q);
    OneFrameSame(cfg, c, q, env);
    OneFrameRead(cfg, c, q, env);
    OneFrameWrite(cfg, c, q, env);
    OneFrameAccounted(cfg, c, q, env);
    OneFrameGrows(cfg, c, q, env);
    OneFramePhase(cfg, c, q, env);
    OneFrameAsks(cfg, c, q, env);
    OwnWork(cfg, c, q, Rescued(e).conn, e.queue, Peel(c.readBuffer).payload, env);
  }

  // ---------- one tick ----------

  lemma {:induction false} GrowsTrans(cfg: Config, a: seq<Work>, b: seq<Work>, c: seq<Work>, env: Env)
    requires Grows(cfg, a, b, env) && Grows(cfg, b, c, env)
    ensures Grows(cfg, a, c, env)
  {
    forall i | |a| <= i < |c|
      ensures c[i].conn == cfg.id && IsUuid(c[i].id) && env.clock + 100 <= c[i].deadline <= env.clock + 30_000
    {
      if i < |b| { assert c[i] == b[i]; }
    }
  }

  lemma {:induction false} CloseGood(cfg: Config, c: Conn, q: seq<Work>)
    requires Good(cfg, c, q)
    ensures Good(cfg, Close(c), q)
  {
    CloseWrite(c);
  }

  lemma {:induction false} ArrivedGood(cfg: Config, c: Conn, q: seq<Work>, chunk: Bytes, now: Millis)
    requires Good(cfg, c, q)
    ensures Good(cfg, Arrived(c, chunk, now), q)
  {
    ArrivedRead(c, chunk, now);
  }

  /** Whatever arrives, one read tick keeps every invariant and only appends this peer's requests. */
  lemma {:induction false} ReadTickGood(cfg: Config, c: Conn, q: seq<Work>, script: seq<Bridge.ReadResult>, env: Env)
    requires Good(cfg, c, q)
    ensures var (e, n) := ReadTick(cfg, c, q, script, env);
            Good(cfg, e.conn, e.queue) && Grows(cfg, q, e.queue, env)
  {
    var inv: ConnInv := (x, p) => Good(cfg, x, p) && Grows(cfg, q, p, env);
    forall x, p | inv(x, p) && !x.closed && Peel(x.readBuffer).Complete?
      ensures inv(Rescued(OneFrame(HandlerOf(cfg, env), x, p)).conn, OneFrame(HandlerOf(cfg, env), x, p).queue)
    {
      OneFrameGood(cfg, x, p, env);
      GrowsTrans(cfg, q, p, OneFrame(HandlerOf(cfg, env), x, p).queue, env);
    }
    forall x, p | inv(x, p) ensures inv(Close(x), p) {
      CloseGood(cfg, x, p);
    }
    forall x, p, chunk: Chunk | inv(x, p) && !x.closed ensures inv(Arrived(x, chunk, env.now), p) {
      ArrivedGood(cfg, x, p, chunk, env.now);
    }
    DrainerKeeps(inv, HandlerOf(cfg, env));
    ReadPendingKeeps(inv, DrainerOf(HandlerOf(cfg, env)), c, q, script, env.now);
  }

  lemma {:induction false} WrittenGood(cfg: Config, c: Conn, q: seq<Work>, n: nat, now: Millis)
    requires Good(cfg, c, q) && !c.closed && CanWrite(c.writeQueue, n)
    ensures Good(cfg, Written(c, n, now), q) && !Written(c, n, now).closed
  {
    WrittenWrite(c, n, now);
    WrittenAccounted(c, n, now, QueuedIds(q, cfg.id), []);
  }

  lemma {:induction false} GoodWritable(cfg: Config, c: Conn, q: seq<Work>)
    requires Good(cfg, c, q)
    ensures Writable(c.writeQueue)
  {
  }

  lemma {:induction false} FlushPendingGood(cfg: Config, c: Conn, q: seq<Work>, script: seq<WriteResult>, now: Millis)
    requires Good(cfg, c, q)
    ensures Writable(c.writeQueue)
    ensures Good(cfg, FlushPending(c, script, now).0, q)
  {
    GoodWritable(cfg, c, q);
    if !c.closed {
      var inv: Conn -> bool := x => Good(cfg, x, q) && !x.closed;
      forall x, n: nat | inv(x) && CanWrite(x.writeQueue, n) ensures inv(Written(x, n, now)) {
        WrittenGood(cfg, x, q, n, now);
      }
      WriteLoopKeeps(inv, c, script, 0, now);
      CloseGood(cfg, WriteLoop(c, script, 0, now).0, q);
    }
  }

  lemma {:induction false} ExpireGood(cfg: Config, c: Conn, q: seq<Work>, now: Millis)
    requires Good(cfg, c, q)
    ensures Good(cfg, Expire(c, now), q)
  {
    CloseGood(cfg, c, q);
  }

  lemma {:induction false} AcceptGood(cfg: Config, q: seq<Work>, now: Millis)
    requires |q| <= REQUEST_QUEUE_CAPACITY && QueuedIds(q, cfg.id) == []
    requires forall i :: 0 <= i < |q| ==> q[i].conn != cfg.id
    ensures Good(cfg, Accept(now), q)
  {
    assert Stream([]) == [];
  }
}
