/**
 The handshake, client and bridge together: the first two replies of a connection greet with
 the bridge's session and tell whether its token was presented, and a client that dials is let
 in exactly if it looked for that session and knows that token.
 */
module Handshakes {
  import opened Basics
  import opened Json
  import opened Framing
  import opened Protocol
  import opened Bridge
  import opened ConnectionInvariants
  import opened ConnectionRuns
  import opened Dispatcher
  import opened Wire
  import BridgeClient
  import Mutations

  // ---------- the first two replies ----------

  /** The client decodes this reply as a greeting of the bridge's session. */
  ghost predicate Greets(sessionId: string, reply: Json) {
    && ReadHello(reply).Some?
    && var h := ReadHello(reply).value;
    h.kind == "hello" && h.version == 1 && h.sessionId == sessionId && h.maxMessageBytes == 1_048_576
  }

  /** A well-formed authenticate message, with whatever token. */
  ghost predicate PresentsSome(cfg: Config, payload: Bytes) {
    Decode(cfg.codec, payload).Some? && ValidAuthenticate(Decode(cfg.codec, payload).value)
  }

  /** The client decodes this reply as the verdict on its token. */
  ghost predicate Judges(ok: bool, reply: Json) {
    ReadAuthentication(reply) == Some(BridgeClient.Authentication("authenticate", 1, ok))
  }

  /**
   The first message is greeted and the second judged, the right token makes ready, and until
   both were answered an open connection handled nothing else.
   */
  ghost predicate GreetInv(cfg: Config, c: Conn) {
    var handled, replies := c.history.handled, c.history.replies;
    && (!c.closed && |replies| < 2 ==>
          |handled| == |replies| && c.phase == if replies == [] then AwaitHello else AwaitAuthenticate)
    && (|replies| >= 1 ==> |handled| >= 1 && HelloAt(cfg, handled[0]) && Greets(cfg.sessionId, replies[0]))
    && (|replies| >= 2 ==>
          && |handled| >= 2 && PresentsSome(cfg, handled[1]) && Judges(AuthenticateAt(cfg, handled[1]), replies[1])
          && (AuthenticateAt(cfg, handled[1]) ==> c.phase == Ready))
  }

  lemma {:induction false} AcceptGreets(cfg: Config, now: Millis)
    ensures GreetInv(cfg, Bridge.Accept(now))
  {
  }

  /** What happens after the second reply only adds to the history. */
  lemma {:induction false} GreetStays(cfg: Config, c: Conn, c': Conn)
    requires GreetInv(cfg, c) && c.history.handled <= c'.history.handled && c.history.replies <= c'.history.replies
    requires c.phase == Ready ==> c'.phase == Ready
    requires |c.history.replies| >= 2 ||
             (c'.history.replies == c.history.replies && (c.closed ==> c'.closed) &&
              (c'.closed || (c'.history.handled == c.history.handled && c'.phase == c.phase)))
    ensures GreetInv(cfg, c')
  {
  }

  // ---------- one message ----------

  lemma {:induction false} RespondAdds(cfg: Config, c: Conn, q: seq<Work>, response: Json, release: bool, env: Env)
    ensures var e := Bridge.Respond(cfg, c, q, response, release, env);
            && e.conn.phase == c.phase && e.conn.history.handled == c.history.handled
            && (e.conn.history.replies == c.history.replies || e.conn.history.replies == c.history.replies + [response])
            && (e.raised || e.conn.closed || e.conn.history.replies == c.history.replies + [response])
  {
  }

  lemma {:induction false} MessageAdds(cfg: Config, c: Conn, q: seq<Work>, m: seq<Field>, env: Env)
    ensures c.history.replies <= HandleMessage(cfg, c, q, m, env).conn.history.replies
  {
    match c.phase
    case AwaitHello => RespondAdds(cfg, c, q, HelloResponse(cfg.sessionId, env.nonce), false, env);
    case AwaitAuthenticate =>
      RespondAdds(cfg, c, q, AuthenticateResponse(true), false, env);
      RespondAdds(cfg, c, q, AuthenticateResponse(false), false, env);
    case Ready =>
      match ValidateRequest(m)
      case Accepted(r) => RequestAdds(cfg, c, q, r, env);
      case Rejected(Some(id), code, message) => RespondAdds(cfg, c, q, ErrorResponse(id, code, message, []), false, env);
      case Rejected(None, _, _) =>
  }

  lemma {:induction false} RequestAdds(cfg: Config, c: Conn, q: seq<Work>, r: Request, env: Env)
    ensures c.history.replies <= HandleRequest(cfg, c, q, r, env).conn.history.replies
  {
    match Rule(cfg, c, q, r, env)
    case Refuse(code, message, release) =>
      RespondAdds(cfg, if release then Reserve(c, r.id) else c, q, ErrorResponse(r.id, code, message, []), release, env);
    case Admit(_) =>
  }

  lemma {:induction false} HelloGreets(sessionId: string, nonce: string)
    ensures Greets(sessionId, HelloResponse(sessionId, nonce))
  {
    HelloRead(sessionId, nonce);
  }

  /** A hello on a fresh connection: greeted once, or the connection ends. */
  lemma {:induction false} FirstMessage(cfg: Config, c: Conn, q: seq<Work>, m: seq<Field>, env: Env)
    requires c.phase == AwaitHello && c.history.replies == []
    ensures var e := HandleMessage(cfg, c, q, m, env);
            || (e.conn.history.replies == [] && (e.raised || e.conn.closed))
            || (|e.conn.history.replies| == 1 && Greets(cfg.sessionId, e.conn.history.replies[0]) && ValidHello(m)
                && !e.raised && e.conn.phase == AwaitAuthenticate)
  {
    var response := HelloResponse(cfg.sessionId, env.nonce);
    HelloGreets(cfg.sessionId, env.nonce);
    RespondAdds(cfg, c, q, response, false, env);
    assert [] + [response] == [response];
  }

  /** An authenticate message after the greeting: judged once, or the connection ends. */
  lemma {:induction false} SecondMessage(cfg: Config, c: Conn, q: seq<Work>, m: seq<Field>, env: Env)
    requires c.phase == AwaitAuthenticate && |c.history.replies| == 1
    ensures var e := HandleMessage(cfg, c, q, m, env);
            var right := cfg.codec.utf8(Token(m)) == cfg.codec.utf8(cfg.token);
            || (e.conn.history.replies == c.history.replies && (e.raised || e.conn.closed))
            || (|e.conn.history.replies| == 2 && e.conn.history.replies[0] == c.history.replies[0]
                && Judges(right, e.conn.history.replies[1]) && ValidAuthenticate(m)
                && !e.raised && (right ==> e.conn.phase == Ready))
  {
    AuthenticationRead(true);
    AuthenticationRead(false);
    RespondAdds(cfg, c, q, AuthenticateResponse(true), false, env);
    RespondAdds(cfg, c, q, AuthenticateResponse(false), false, env);
  }

  lemma {:induction false} MessageGreets(cfg: Config, c: Conn, q: seq<Work>, payload: Bytes, rest: Bytes, env: Env)
    requires GreetInv(cfg, c) && !c.closed
    ensures GreetInv(cfg, Rescued(HandlePayload(cfg, Taken(c, payload, rest), q, payload, env)).conn)
  {
    var t := Taken(c, payload, rest);
    assert t.history.handled == c.history.handled + [payload];
    var e := HandlePayload(cfg, t, q, payload, env);
    match Decode(cfg.codec, payload)
    case None => GreetStays(cfg, c, Rescued(e).conn);
    case Some(m) =>
      HandleMessageSame(cfg, t, q, m, env);
      MessageAdds(cfg, t, q, m, env);
      if |c.history.replies| >= 2 {
        GreetStays(cfg, c, Rescued(e).conn);
      } else if c.history.replies == [] {
        FirstMessage(cfg, t, q, m, env);
        if e.conn.history.replies == [] { GreetStays(cfg, c, Rescued(e).conn); }
      } else {
        SecondMessage(cfg, t, q, m, env);
        if |e.conn.history.replies| == 1 { GreetStays(cfg, c, Rescued(e).conn); }
      }
  }

  lemma {:induction false} ReadTickGreets(cfg: Config, c: Conn, q: seq<Work>, script: seq<Bridge.ReadResult>, env: Env)
    requires GreetInv(cfg, c)
    ensures GreetInv(cfg, ReadTick(cfg, c, q, script, env).0.conn)
  {
    var inv: ConnInv := (x, p) => GreetInv(cfg, x);
    forall x, p | inv(x, p) && !x.closed && Peel(x.readBuffer).Complete?
      ensures inv(Rescued(OneFrame(HandlerOf(cfg, env), x, p)).conn, OneFrame(HandlerOf(cfg, env), x, p).queue)
    {
      MessageGreets(cfg, x, p, Peel(x.readBuffer).payload, Peel(x.readBuffer).rest, env);
    }
    DrainerKeeps(inv, HandlerOf(cfg, env));
    ReadPendingKeeps(inv, DrainerOf(HandlerOf(cfg, env)), c, q, script, env.now);
  }

  lemma {:induction false} FlushGreets(cfg: Config, c: Conn, script: seq<WriteResult>, now: Millis)
    requires GreetInv(cfg, c) && Writable(c.writeQueue)
    ensures GreetInv(cfg, FlushPending(c, script, now).0)
  {
    if !c.closed {
      var inv: Conn -> bool := (x: Conn) => GreetInv(cfg, x);
      WriteLoopKeeps(inv, c, script, 0, now);
    }
  }

  /** Only a connection that was judged has work on the queue, so answering that changes neither of the two replies. */
  lemma {:induction false} ServedGreets(cfg: Config, c: Conn, q: seq<Work>, w: Mutations.World, clock: Millis, ran: Ran)
    requires Adequate(cfg.codec) && q != [] && IsUuid(q[0].id) && q[0].conn == cfg.id
    requires GreetInv(cfg, c) && OwnWorkPreceded(cfg, c, q)
    requires OnlyAnswers(c, Process(cfg.codec, c, w, q[0], clock, ran).0)
    ensures GreetInv(cfg, Process(cfg.codec, c, w, q[0], clock, ran).0)
  {
    var c' := Process(cfg.codec, c, w, q[0], clock, ran).0;
    ProcessOnce(cfg.codec, c, w, q[0], clock, ran);
    assert Preceded(cfg, c.history.handled, q[0]);
    var n: nat :| n < |c.history.handled| && AskedBy(cfg, c.history.handled[n], q[0]) && Shaken(cfg, c.history.handled[..n]);
    assert |c.history.handled| >= 3;
    GreetStays(cfg, c, c');
  }

  // ---------- the client's verdict ----------

  lemma {:induction false} TokenSent(token: string)
    ensures Token(AuthenticateMessage(token).fields) == token
  {
    GetFinds(AuthenticateMessage(token).fields, 2);
  }

  /** What the client reads of the two replies. */
  function DialingOf(replies: seq<Json>): BridgeClient.Dialing {
    BridgeClient.Dialing(true, if |replies| >= 1 then ReadHello(replies[0]) else None,
                         if |replies| >= 2 then ReadAuthentication(replies[1]) else None)
  }

  /**
   A client whose second message presented its descriptor's token, and that reads both replies,
   is connected exactly if the descriptor names the bridge's session and token; then the
   connection is ready. The bridge's nonce is a UUID.
   */
  lemma {:induction false} DialedIff(cfg: Config, c: Conn, d: BridgeClient.Descriptor)
    requires Adequate(cfg.codec) && GreetInv(cfg, c)
    requires |c.history.replies| >= 2 && Decode(cfg.codec, c.history.handled[1]) == Some(AuthenticateMessage(d.token).fields)
    requires ReadHello(c.history.replies[0]).Some? ==> IsUuid(ReadHello(c.history.replies[0]).value.serverNonce)
    ensures BridgeClient.Dialed(d, DialingOf(c.history.replies)) <==>
            BridgeClient.ValidDescriptor(d) && d.sessionId == cfg.sessionId && d.token == cfg.token
    ensures BridgeClient.Dialed(d, DialingOf(c.history.replies)) ==> c.phase == Ready
  {
    TokenSent(d.token);
  }

  // ---------- a tick that brings one frame ----------

  predicate Idle(c: Conn) {
    !c.closed && !c.closeAfterWrite && c.readBuffer == []
  }

  lemma {:induction false} LoneDrain(handle: Handler, c: Conn, q: seq<Work>, payload: Bytes)
    requires Fits(payload) && c.readBuffer == Frame(payload)
    requires handle(Taken(c, payload, []), q, payload).conn.readBuffer == []
    ensures var e := handle(Taken(c, payload, []), q, payload);
            Drain(handle, c, q, MAX_FRAMES) == (e, if e.raised then 0 else 1)
  {
    PeelFrame(payload, []);
    assert Frame(payload) + [] == Frame(payload);
    var e := handle(Taken(c, payload, []), q, payload);
    assert OneFrame(handle, c, q) == e;
    assert Peel(e.conn.readBuffer).Incomplete?;
    assert Drain(handle, e.conn, e.queue, MAX_FRAMES - 1) == (Effect(e.conn, e.queue, false), 0);
  }

  lemma {:induction false} LoneRead(drain: Drainer, c: Conn, q: seq<Work>, chunk: Chunk, now: Millis)
    requires Idle(c) && chunk != [] && drain(c, q, MAX_FRAMES) == (Effect(c, q, false), 0)
    requires drain(Arrived(c, chunk, now), q, MAX_FRAMES).1 <= 1
    ensures ReadPending(drain, c, q, [Data(chunk)], now).0 == Rescued(drain(Arrived(c, chunk, now), q, MAX_FRAMES).0)
  {
    var script := [Data(chunk)];
    var (e, n) := drain(Arrived(c, chunk, now), q, MAX_FRAMES);
    MiddleTurn(drain, c, q, script, 0, 0, now);
    assert script[1..] == [];
  }

  /** A tick that receives exactly one frame handles exactly this message. */
  lemma {:induction false} LoneFrame(cfg: Config, c: Conn, q: seq<Work>, payload: Bytes, env: Env)
    requires Idle(c) && Fits(payload) && |Frame(payload)| <= READ_CHUNK_BYTES
    ensures ReadTick(cfg, c, q, [Data(Frame(payload))], env).0 ==
            Rescued(HandlePayload(cfg, Taken(Arrived(c, Frame(payload), env.now), payload, []), q, payload, env))
  {
    var handle := HandlerOf(cfg, env);
    var arrived := Arrived(c, Frame(payload), env.now);
    assert [] + Frame(payload) == Frame(payload);
    match Decode(cfg.codec, payload) {
      case None =>
      case Some(m) => HandleMessageSame(cfg, Taken(arrived, payload, []), q, m, env);
    }
    LoneDrain(handle, arrived, q, payload);
    LoneRead(DrainerOf(handle), c, q, Frame(payload), env.now);
  }

  // ---------- a client dials ----------

  /** The message comes through, in a frame that one read takes. */
  ghost predicate Carries(codec: Codec, m: Json) {
    && codec.parse(codec.generate(m)) == Some(m)
    && Fits(codec.generate(m)) && |Frame(codec.generate(m))| <= READ_CHUNK_BYTES
  }

  lemma {:induction false} ShortResponse(cfg: Config, c: Conn, q: seq<Work>, response: Json, env: Env)
    requires Carries(cfg.codec, response) && !c.closed && c.pending <= READ_CHUNK_BYTES
    ensures var e := Bridge.Respond(cfg, c, q, response, false, env);
            && !e.raised && !e.conn.closed && e.queue == q && e.conn.closeAfterWrite == c.closeAfterWrite
            && e.conn.history.replies == c.history.replies + [response] && e.conn.history.handled == c.history.handled
            && e.conn.readBuffer == c.readBuffer && e.conn.pending == c.pending + |Frame(cfg.codec.generate(response))|
  {
  }

  lemma {:induction false} Greeted(cfg: Config, now: Millis, q: seq<Work>, nonce: string, env: Env)
    requires IsUuid(nonce) && Carries(cfg.codec, HelloMessage(nonce)) && Carries(cfg.codec, HelloResponse(cfg.sessionId, env.nonce))
    ensures var payload := cfg.codec.generate(HelloMessage(nonce));
            var e := ReadTick(cfg, Bridge.Accept(now), q, [Data(Frame(payload))], env).0;
            && Idle(e.conn) && e.queue == q && e.conn.phase == AwaitAuthenticate && e.conn.pending <= READ_CHUNK_BYTES
            && e.conn.history.handled == [payload] && e.conn.history.replies == [HelloResponse(cfg.sessionId, env.nonce)]
            && GreetInv(cfg, e.conn)
  {
    var c, payload := Bridge.Accept(now), cfg.codec.generate(HelloMessage(nonce));
    var t := Taken(Arrived(c, Frame(payload), env.now), payload, []);
    LoneFrame(cfg, c, q, payload, env);
    HelloSent(nonce);
    ShortResponse(cfg, t, q, HelloResponse(cfg.sessionId, env.nonce), env);
    AcceptGreets(cfg, now);
    ReadTickGreets(cfg, c, q, [Data(Frame(payload))], env);
  }

  lemma {:induction false} Judged(cfg: Config, c: Conn, q: seq<Work>, token: string, env: Env)
    requires Idle(c) && c.phase == AwaitAuthenticate && c.pending <= READ_CHUNK_BYTES && GreetInv(cfg, c)
    requires 16 <= Mutations.ByteSize(token) <= 512 && Carries(cfg.codec, AuthenticateMessage(token))
    requires forall ok :: Carries(cfg.codec, AuthenticateResponse(ok))
    ensures var payload := cfg.codec.generate(AuthenticateMessage(token));
            var e := ReadTick(cfg, c, q, [Data(Frame(payload))], env).0;
            var right := cfg.codec.utf8(token) == cfg.codec.utf8(cfg.token);
            && !e.conn.closed && e.queue == q && (e.conn.phase == Ready <==> right)
            && e.conn.history.handled == c.history.handled + [payload]
            && e.conn.history.replies == c.history.replies + [AuthenticateResponse(right)]
            && GreetInv(cfg, e.conn)
  {
    var payload := cfg.codec.generate(AuthenticateMessage(token));
    var t := Taken(Arrived(c, Frame(payload), env.now), payload, []);
    var right := cfg.codec.utf8(token) == cfg.codec.utf8(cfg.token);
    LoneFrame(cfg, c, q, payload, env);
    AuthenticateSent(token);
    ShortResponse(cfg, t, q, AuthenticateResponse(right), env);
    ReadTickGreets(cfg, c, q, [Data(Frame(payload))], env);
  }

  /** A tick in which exactly this message arrives. */
  function Hears(cfg: Config, c: Conn, q: seq<Work>, m: Json, env: Env): Conn
    requires Fits(cfg.codec.generate(m)) && |Frame(cfg.codec.generate(m))| <= READ_CHUNK_BYTES
  {
    ReadTick(cfg, c, q, [Data(Frame(cfg.codec.generate(m)))], env).0.conn
  }

  /**
   A client with a valid descriptor dials a new connection: it is answered twice, it is let in
   exactly if the descriptor names this bridge's session and token, and the connection is ready
   exactly if the token is right.
   */
  lemma {:induction false} Dials(cfg: Config, now: Millis, q: seq<Work>, d: BridgeClient.Descriptor, nonce: string,
                                 first: Env, second: Env)
    requires Adequate(cfg.codec) && BridgeClient.ValidDescriptor(d) && IsUuid(nonce) && IsUuid(first.nonce)
    requires Carries(cfg.codec, HelloMessage(nonce)) && Carries(cfg.codec, HelloResponse(cfg.sessionId, first.nonce))
    requires Carries(cfg.codec, AuthenticateMessage(d.token)) && forall ok :: Carries(cfg.codec, AuthenticateResponse(ok))
    ensures var c := Hears(cfg, Hears(cfg, Bridge.Accept(now), q, HelloMessage(nonce), first), q,
                           AuthenticateMessage(d.token), second);
            && |c.history.replies| == 2 && !c.closed
            && (BridgeClient.Dialed(d, DialingOf(c.history.replies)) <==> d.sessionId == cfg.sessionId && d.token == cfg.token)
            && (c.phase == Ready <==> d.token == cfg.token)
  {
    Greeted(cfg, now, q, nonce, first);
    var greeted := Hears(cfg, Bridge.Accept(now), q, HelloMessage(nonce), first);
    Judged(cfg, greeted, q, d.token, second);
    var c := Hears(cfg, greeted, q, AuthenticateMessage(d.token), second);
    HelloRead(cfg.sessionId, first.nonce);
    DialedIff(cfg, c, d);
  }
}
