/** The request queue and the connection object, proved against the functions of Bridge. */
module Server {
  import opened Basics
  import opened Json
  import opened Framing
  import opened Protocol
  import opened Bridge
  import opened ConnectionRuns

  /** SizedQueue used without blocking. */
  class RequestQueue {
    var items: seq<Work>

    constructor ()
      ensures items == []
    {
      items := [];
    }

    /** push(work, true): refused instead of raising ThreadError when the queue is full. */
    method Push(work: Work) returns (pushed: bool)
      modifies this
      ensures pushed <==> |old(items)| < REQUEST_QUEUE_CAPACITY
      ensures items == if pushed then old(items) + [work] else old(items)
    {
      pushed := |items| < REQUEST_QUEUE_CAPACITY;
      if pushed { items := items + [work]; }
    }

    /** pop(true): None when the queue is empty. */
    method Pop() returns (work: Option<Work>)
      modifies this
      ensures old(items) == [] ==> work == None && items == []
      ensures old(items) != [] ==> work == Some(old(items)[0]) && items == old(items)[1..]
    {
      if items == [] { return None; }
      work := Some(items[0]);
      items := items[1..];
    }
  }

  datatype Reservation = Reserved | Duplicate | Limit

  // The loops are specified over the handler as a value; these tie that value to the object's own methods.

  ghost predicate Implements(handle: Handler, cfg: Config, env: Env) {
    forall c, q, payload {:trigger Bridge.HandlePayload(cfg, c, q, payload, env)} ::
      handle(c, q, payload) == Bridge.HandlePayload(cfg, c, q, payload, env)
  }

  ghost predicate Drains(drain: Drainer, handle: Handler) {
    forall c, q, limit: nat {:trigger Drain(handle, c, q, limit)} :: drain(c, q, limit) == Drain(handle, c, q, limit)
  }

  /** What the remaining turns return, counted from the turns already done, is what the whole loop returns. */
  ghost predicate Continues(whole: (Effect, nat), rest: (Effect, nat), frames: nat) {
    whole.0 == rest.0 && whole.1 == rest.1 + frames
  }

  /** One turn of the specification's drain loop. */
  lemma {:induction false} DrainTurn(handle: Handler, c: Conn, q: seq<Work>, limit: nat)
    requires limit > 0 && Peel(c.readBuffer).Complete?
    ensures var e := OneFrame(handle, c, q);
            if e.raised then Drain(handle, c, q, limit) == (e, 0)
            else if e.conn.closed || e.conn.closeAfterWrite then Drain(handle, c, q, limit) == (e, 1)
            else Continues(Drain(handle, c, q, limit), Drain(handle, e.conn, e.queue, limit - 1), 1)
  {
  }

  class Connection {
    const cfg: Config
    const requestQueue: RequestQueue
    var phase: Phase
    var closed: bool
    var closeAfterWrite: bool
    var readBuffer: Bytes
    var writeQueue: seq<Item>
    var pending: int
    var outstanding: set<string>
    const connectedAt: Millis
    var lastReadAt: Millis
    var lastWriteAt: Millis
    ghost var history: History

    ghost function View(): Conn
      reads this
    {
      Conn(phase, closed, closeAfterWrite, readBuffer, writeQueue, pending, outstanding,
           connectedAt, lastReadAt, lastWriteAt, history)
    }

    constructor (cfg: Config, requestQueue: RequestQueue, now: Millis)
      ensures this.cfg == cfg && this.requestQueue == requestQueue
      ensures View() == Accept(now)
    {
      this.cfg, this.requestQueue := cfg, requestQueue;
      phase, closed, closeAfterWrite := AwaitHello, false, false;
      readBuffer, writeQueue, pending, outstanding := [], [], 0, {};
      connectedAt, lastReadAt, lastWriteAt := now, now, now;
      history := History([], [], 0, [], [], [], []);
    }

    method Close()
      modifies this
      ensures View() == Bridge.Close(old(View()))
    {
      if closed { return; }
      closed := true;
      outstanding := {};
      writeQueue := [];
      pending := 0;
    }

    method EnqueueResponse(response: Json, release: bool, clock: Millis) returns (raised: bool)
      modifies this
      ensures (View(), raised) == Enqueue(cfg.codec, old(View()), response, release, clock)
    {
      if closed { return false; }
      var encoded := EncodeFrame(cfg.codec, response);
      if encoded.None? { return true; }
      var frame := encoded.value;
      if pending + |frame| > MAX_PENDING_WRITE_BYTES {
        Close();
        return false;
      }
      if writeQueue == [] { lastWriteAt := clock; }
      writeQueue := writeQueue + [Item(frame, 0, if release then ResponseId(response) else None)];
      pending := pending + |frame|;
      history := history.(replies := history.replies + [response],
                          answers := history.answers + [cfg.codec.generate(response)], queued := history.queued + frame);
      return false;
    }

    // ---------- message handlers ----------

    method HandleHello(m: seq<Field>, env: Env) returns (raised: bool)
      modifies this
      ensures Effect(View(), requestQueue.items, raised) ==
              Bridge.HandleHello(cfg, old(View()), old(requestQueue.items), m, env)
    {
      if !ValidHello(m) {
        Close();
        return false;
      }
      raised := EnqueueResponse(HelloResponse(cfg.sessionId, env.nonce), false, env.clock);
      if !raised { phase := AwaitAuthenticate; }
    }

    method HandleAuthenticate(m: seq<Field>, env: Env) returns (raised: bool)
      modifies this
      ensures Effect(View(), requestQueue.items, raised) ==
              Bridge.HandleAuthenticate(cfg, old(View()), old(requestQueue.items), m, env)
    {
      if !ValidAuthenticate(m) {
        Close();
        return false;
      }
      var authenticated := SecureCompare(cfg.codec.utf8(Token(m)), cfg.codec.utf8(cfg.token));
      raised := EnqueueResponse(AuthenticateResponse(authenticated), false, env.clock);
      if raised { return; }
      if authenticated { phase := Ready; } else { closeAfterWrite := true; }
    }

    method ReserveRequestId(id: string) returns (reservation: Reservation)
      modifies this`outstanding
      ensures match reservation
              case Duplicate => id in old(outstanding) && View() == old(View())
              case Limit =>
                id !in old(outstanding) && |old(outstanding)| >= MAX_OUTSTANDING_REQUESTS && View() == old(View())
              case Reserved =>
                && id !in old(outstanding) && |old(outstanding)| < MAX_OUTSTANDING_REQUESTS
                && View() == Reserve(old(View()), id)
    {
      if id in outstanding { return Duplicate; }
      if |outstanding| >= MAX_OUTSTANDING_REQUESTS { return Limit; }
      outstanding := outstanding + {id};
      return Reserved;
    }

    method HandleRequest(r: Request, env: Env) returns (raised: bool)
      modifies this, requestQueue
      ensures Effect(View(), requestQueue.items, raised) ==
              Bridge.HandleRequest(cfg, old(View()), old(requestQueue.items), r, env)
    {
      var reservation := ReserveRequestId(r.id);
      match reservation {
        case Duplicate =>
          raised := EnqueueResponse(ErrorResponse(r.id, "INVALID_REQUEST", "duplicate request id", []), false, env.clock);
          return;
        case Limit =>
          raised := EnqueueResponse(ErrorResponse(r.id, "INVALID_REQUEST", "too many outstanding requests", []),
                                    false, env.clock);
          return;
        case Reserved =>
      }
      if r.sessionId != cfg.sessionId {
        raised := EnqueueResponse(ErrorResponse(r.id, "SESSION_NOT_FOUND",
                                                "request session does not match this bridge instance", []),
                                  true, env.clock);
        return;
      }
      var pushed := requestQueue.Push(Work(cfg.id, r.id, r.operation, r.payload, env.clock + r.timeoutMs));
      if pushed { return false; }
      raised := EnqueueResponse(ErrorResponse(r.id, "INTERNAL", "bridge request queue is full", []), true, env.clock);
    }

    method HandleMessage(m: seq<Field>, env: Env) returns (raised: bool)
      modifies this, requestQueue
      ensures Effect(View(), requestQueue.items, raised) ==
              Bridge.HandleMessage(cfg, old(View()), old(requestQueue.items), m, env)
    {
      match phase {
        case AwaitHello => raised := HandleHello(m, env);
        case AwaitAuthenticate => raised := HandleAuthenticate(m, env);
        case Ready =>
          match ValidateRequest(m) {
            case Accepted(r) => raised := HandleRequest(r, env);
            case Rejected(Some(id), code, message) =>
              raised := EnqueueResponse(ErrorResponse(id, code, message, []), false, env.clock);
            case Rejected(None, _, _) =>
              Close();
              raised := false;
          }
      }
    }

    // ---------- reading ----------

    method HandlePayload(payload: Bytes, env: Env) returns (raised: bool)
      modifies this, requestQueue
      ensures Effect(View(), requestQueue.items, raised) ==
              Bridge.HandlePayload(cfg, old(View()), old(requestQueue.items), payload, env)
    {
      var message := Decode(cfg.codec, payload);
      if message.None? { return true; }
      raised := HandleMessage(message.value, env);
    }

    /** The tests on the front of the buffer: is a whole frame there, or a length no frame can have. */
    method FrameReady() returns (ready: bool, bad: bool)
      ensures ready <==> Peel(readBuffer).Complete?
      ensures bad <==> Peel(readBuffer).Malformed?
    {
      if |readBuffer| < 4 { return false, false; }
      var length := FromBe32(readBuffer);
      if length == 0 || length > MAX_MESSAGE_BYTES { return false, true; }
      return |readBuffer| >= 4 + length, false;
    }

    method TakePayload() returns (payload: Bytes)
      requires Peel(readBuffer).Complete?
      modifies this
      ensures payload == old(Peel(readBuffer).payload)
      ensures View() == Taken(old(View()), payload, old(Peel(readBuffer).rest))
    {
      var length := FromBe32(readBuffer);
      payload := readBuffer[4..4 + length];
      readBuffer := readBuffer[4 + length..];
      history := history.(handled := history.handled + [payload]);
    }

    /** The front of the buffer is a complete frame: take it and handle its payload. */
    method TakeFrame(env: Env, ghost handle: Handler) returns (raised: bool)
      requires Peel(readBuffer).Complete? && Implements(handle, cfg, env)
      modifies this, requestQueue
      ensures Effect(View(), requestQueue.items, raised) == OneFrame(handle, old(View()), old(requestQueue.items))
    {
      var payload := TakePayload();
      raised := HandlePayload(payload, env);
    }

    method DrainFrames(limit: nat, env: Env, ghost handle: Handler) returns (frames: nat, raised: bool)
      requires Implements(handle, cfg, env)
      modifies this, requestQueue
      ensures (Effect(View(), requestQueue.items, raised), frames) ==
              Drain(handle, old(View()), old(requestQueue.items), limit)
    {
      ghost var whole := Drain(handle, View(), requestQueue.items, limit);
      frames, raised := 0, false;
      while frames < limit
        invariant frames <= limit && !raised
        invariant Continues(whole, Drain(handle, View(), requestQueue.items, limit - frames), frames)
      {
        ghost var before, queue := View(), requestQueue.items;
        var ready, bad := FrameReady();
        if bad { return frames, true; }
        if !ready { return; }
        raised := TakeFrame(env, handle);
        DrainTurn(handle, before, queue, limit - frames);
        if raised { return; }
        frames := frames + 1;
        if closed || closeAfterWrite { return; }
      }
    }

    method ReceiveChunk(chunk: Bytes, now: Millis)
      modifies this
      ensures View() == Arrived(old(View()), chunk, now)
    {
      lastReadAt := now;
      readBuffer := readBuffer + chunk;
      history := history.(received := history.received + chunk,
                          peak := if |readBuffer| > history.peak then |readBuffer| else history.peak);
    }

    method DrainBuffer(limit: nat, env: Env, ghost handle: Handler, ghost drain: Drainer) returns (frames: nat, raised: bool)
      requires Implements(handle, cfg, env) && Drains(drain, handle)
      modifies this, requestQueue
      ensures (Effect(View(), requestQueue.items, raised), frames) == drain(old(View()), old(requestQueue.items), limit)
    {
      frames, raised := DrainFrames(limit, env, handle);
    }

    method ReceiveAndDrain(chunk: Bytes, limit: nat, env: Env, ghost handle: Handler, ghost drain: Drainer)
      returns (frames: nat, raised: bool)
      requires Implements(handle, cfg, env) && Drains(drain, handle)
      modifies this, requestQueue
      ensures (Effect(View(), requestQueue.items, raised), frames) ==
              drain(Arrived(old(View()), chunk, env.now), old(requestQueue.items), limit)
    {
      ReceiveChunk(chunk, env.now);
      frames, raised := DrainBuffer(limit, env, handle, drain);
    }

    /** The loop of read_pending; `raised` is the error its rescue clause turns into a close. */
    method ReadChunks(script: seq<Bridge.ReadResult>, frames: nat, env: Env, ghost handle: Handler, ghost drain: Drainer)
      returns (count: nat, raised: bool)
      requires Implements(handle, cfg, env) && Drains(drain, handle)
      modifies this, requestQueue
      ensures (Effect(View(), requestQueue.items, raised), count) ==
              ReadLoop(drain, old(View()), old(requestQueue.items), script, 0, frames, env.now)
    {
      ghost var whole := ReadLoop(drain, View(), requestQueue.items, script, 0, frames, env.now);
      var socket, taken, handled: nat := script, 0, frames;
      while taken < MAX_READS && handled < MAX_FRAMES
        invariant taken <= MAX_READS
        invariant whole == ReadLoop(drain, View(), requestQueue.items, socket, taken, handled, env.now)
      {
        if closed { return 0, true; }
        if socket == [] || socket[0].WouldBlock? { break; }
        if socket[0].EndOfFile? {
          Close();
          return taken + handled, false;
        }
        if socket[0].ReadFault? || socket[0].chunk == [] { return 0, true; }
        ghost var before, queue := View(), requestQueue.items;
        var n, failed := ReceiveAndDrain(socket[0].chunk, MAX_FRAMES - handled, env, handle, drain);
        MiddleTurn(drain, before, queue, socket, taken, handled, env.now);
        if failed { return 0, true; }
        socket, taken, handled := socket[1..], taken + 1, handled + n;
      }
      return taken + handled, false;
    }

    method ReadWith(script: seq<Bridge.ReadResult>, env: Env, ghost handle: Handler, ghost drain: Drainer) returns (count: nat)
      requires Implements(handle, cfg, env) && Drains(drain, handle)
      modifies this, requestQueue
      ensures (Effect(View(), requestQueue.items, false), count) ==
              Bridge.ReadPending(drain, old(View()), old(requestQueue.items), script, env.now)
    {
      if closed || closeAfterWrite { return 0; }
      var frames, raised := DrainBuffer(MAX_FRAMES, env, handle, drain);
      if !raised {
        if closed || closeAfterWrite || frames >= MAX_FRAMES { return frames; }
        count, raised := ReadChunks(script, frames, env, handle, drain);
      }
      if raised {
        Close();
        return 0;
      }
    }

    method ReadPending(script: seq<Bridge.ReadResult>, env: Env) returns (count: nat)
      modifies this, requestQueue
      ensures (Effect(View(), requestQueue.items, false), count) ==
              ReadTick(cfg, old(View()), old(requestQueue.items), script, env)
    {
      count := ReadWith(script, env, HandlerOf(cfg, env), DrainerOf(HandlerOf(cfg, env)));
    }

    // ---------- writing ----------

    method ReleaseRequestId(id: string)
      modifies this`outstanding
      ensures View() == Release(old(View()), Some(id))
    {
      outstanding := outstanding - {id};
    }

    /** `n` bytes of the head of the write queue went out. */
    method WriteSome(n: nat, now: Millis)
      requires CanWrite(writeQueue, n)
      modifies this
      ensures View() == Written(old(View()), n, now)
    {
      history := history.(sent := history.sent + HeadBytes(writeQueue, n));
      var item := writeQueue[0].(offset := writeQueue[0].offset + n);
      pending := pending - n;
      lastWriteAt := now;
      if item.offset == |item.frame| {
        writeQueue := writeQueue[1..];
        if item.releaseId.Some? { ReleaseRequestId(item.releaseId.value); }
      } else {
        writeQueue := [item] + writeQueue[1..];
      }
    }

    method FlushPending(script: seq<WriteResult>, now: Millis) returns (count: nat)
      requires Writable(writeQueue)
      modifies this
      ensures (View(), count) == Bridge.FlushPending(old(View()), script, now)
    {
      if closed { return 0; }
      ghost var whole := WriteLoop(View(), script, 0, now);
      var socket, writes := script, 0;
      while writes < MAX_WRITES && writeQueue != []
        invariant writes <= MAX_WRITES && Writable(writeQueue)
        invariant whole == WriteLoop(View(), socket, writes, now)
        decreases MAX_WRITES - writes
      {
        if socket == [] || socket[0].WriteBlocks? { break; }
        if socket[0].WriteFault? || socket[0].count == 0 {
          Close();
          return 0;
        }
        var n := Portion(writeQueue, socket[0].count);
        WrittenWritable(View(), n, now);
        WriteSome(n, now);
        socket, writes := socket[1..], writes + 1;
      }
      if closeAfterWrite && writeQueue == [] { Close(); }
      return writes;
    }

    method ExpireIfNeeded(now: Millis)
      modifies this
      ensures View() == Expire(old(View()), now)
    {
      if closed { return; }
      if phase != Ready && now - connectedAt >= HANDSHAKE_TIMEOUT {
        Close();
      } else if phase == Ready && now - lastReadAt >= IDLE_READ_TIMEOUT {
        Close();
      } else if writeQueue != [] && now - lastWriteAt >= WRITE_TIMEOUT {
        Close();
      }
    }
  }
}
